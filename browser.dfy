/** The browser services the components share: `localStorage` and the router's location. */
module Browser {
  import opened Outcomes

  /** The key under which the cached sign-in flag is stored. */
  const AuthKey := "isAuthenticated"

  /** The client's routes. */
  const HomePath := "/"
  const LoginPath := "/login"
  const AdminPath := "/admin"

  /** `b.toString()` for a boolean, as `localStorage` stores it. */
  function FlagText(b: bool): string
  {
    if b then "true" else "false"
  }

  /** Reading a stored flag back with `=== "true"` gives the boolean that was written. */
  lemma FlagReadsBack(b: bool)
    ensures (FlagText(b) == "true") == b
  {
  }

  class Window {
    var storage: map<string, string>
    var path: string

    constructor (storage: map<string, string>, path: string)
      ensures this.storage == storage && this.path == path
    {
      this.storage := storage;
      this.path := path;
    }

    /** `localStorage.getItem(key)`: null is `None`. */
    function GetItem(key: string): (v: Option<string>)
      reads this`storage
      ensures v.Some? <==> key in storage
      ensures v.Some? ==> v.value == storage[key]
    {
      if key in storage then Some(storage[key]) else None
    }

    /** `localStorage.setItem(key, value)`. It throws when the value cannot be
        stored (a full or blocked storage); whether it does is the parameter `fault`. */
    method SetItem(key: string, value: string, fault: Option<string>) returns (c: Completion<()>)
      modifies this`storage
      ensures fault.None? ==> c == Returned(()) && storage == old(storage)[key := value]
      ensures fault.Some? ==> c == Threw(fault.value) && storage == old(storage)
    {
      if fault.Some? {
        return Threw(fault.value);
      }
      storage := storage[key := value];
      c := Returned(());
    }

    /** `localStorage.removeItem(key)`. */
    method RemoveItem(key: string)
      modifies this`storage
      ensures storage == old(storage) - {key}
    {
      storage := storage - {key};
    }

    /** `navigate(to)`. */
    method Navigate(to: string)
      modifies this`path
      ensures path == to
    {
      path := to;
    }
  }
}
