/** The admin login form (src/components/auth/LoginForm.tsx). */
module Login {
  import opened Outcomes
  import opened Rows
  import opened Backend
  import opened Browser
  import Api

  const MissingFieldsMessage := "Please enter both email and password"
  const RejectedMessage := "Invalid credentials or insufficient permissions"
  const RetryMessage := "An error occurred during login. Please try again."

  /** What the form shows once the `try` block of `handleSubmit` settles:
      nothing more (the flag is stored and the dashboard open), or an error. */
  datatype Reaction = Commit | ShowError(message: string)

  /** The `try`/`catch` of `handleSubmit`, given how its block settled: with the
      value `signIn` resolved to, or with what `signIn` or `setItem` threw. Only
      `true` shows nothing; a resolved `false` and a throw show two different
      messages, neither of which is the empty-field message. */
  function React(c: Completion<bool>): (r: Reaction)
    ensures r.Commit? <==> c == Returned(true)
    ensures r.ShowError? ==> r.message != "" && r.message != MissingFieldsMessage
    ensures r.ShowError? ==> (r.message == RetryMessage <==> c.Threw?)
  {
    match c
    case Returned(success) => if success then Commit else ShowError(RejectedMessage)
    case Threw(_) => ShowError(RetryMessage)
  }

  class LoginForm {
    var email: string
    var password: string
    var error: string
    var isLoading: bool

    constructor ()
      ensures email == "" && password == "" && error == "" && !isLoading
    {
      email, password, error, isLoading := "", "", "", false;
    }

    /** The email input's `onChange`. */
    method SetEmail(value: string)
      modifies this`email
      ensures email == value
    {
      email := value;
    }

    /** The password input's `onChange`. */
    method SetPassword(value: string)
      modifies this`password
      ensures password == value
    {
      password := value;
    }

    /** The mount effect: a stored flag equal to "true" sends the user on to the dashboard. */
    method Mount(window: Window)
      modifies window`path
      ensures window.GetItem(AuthKey) == Some("true") ==> window.path == AdminPath
      ensures window.GetItem(AuthKey) != Some("true") ==> window.path == old(window.path)
    {
      if window.GetItem(AuthKey) == Some("true") {
        window.Navigate(AdminPath);
      }
    }

    /** `handleSubmit`. An empty field is refused without a request. Otherwise
        the requests sent are those of `Api.SignIn`, and the flag is set to "true"
        and the dashboard opened exactly when `signIn` confirmed an admin and the
        browser stored the flag (`storageFault` is whether `setItem` throws). A
        refusal shows the rejection message, a throw the retry message, and both
        leave the flag and the location alone. The form never stays busy. */
    method Submit(window: Window, client: Client,
                  auth: Answer<()>, lookup: Answer<Option<AdminUser>>, signOut: Answer<()>,
                  storageFault: Option<string>)
      modifies this`error, this`isLoading, window, client
      ensures !isLoading
      ensures email == "" || password == "" ==>
        error == MissingFieldsMessage && unchanged(window) && client.calls == old(client.calls)
        && client.sessionLive == old(client.sessionLive) && client.sessionUser == old(client.sessionUser)
      // the requests sent and the session left behind, case by case
      ensures email != "" && password != "" && !auth.Data? ==>
        client.calls == old(client.calls) + [PasswordSignIn(email, password)]
        && client.sessionLive == old(client.sessionLive) && client.sessionUser == old(client.sessionUser)
      ensures email != "" && password != "" && auth.Data? && (Api.AdminFound(lookup) || lookup.Raise?) ==>
        client.calls == old(client.calls) + [PasswordSignIn(email, password), SelectAdmin(email)]
        && client.sessionLive && client.sessionUser == email
      ensures email != "" && password != "" && auth.Data? && Api.NotAdmin(lookup) ==>
        client.calls == old(client.calls) + [PasswordSignIn(email, password), SelectAdmin(email), AuthSignOut]
        && client.sessionLive == !signOut.Data? && client.sessionUser == email
      // what the form and the browser show
      ensures email != "" && password != "" && auth.Data? && Api.AdminFound(lookup) && storageFault.None? ==>
        error == "" && window.storage == old(window.storage)[AuthKey := "true"] && window.path == AdminPath
      ensures email != "" && password != "" && auth.Data? && Api.AdminFound(lookup) && storageFault.Some? ==>
        error == RetryMessage && unchanged(window)
      ensures email != "" && password != "" && !(auth.Data? && Api.AdminFound(lookup)) ==>
        error == RejectedMessage && unchanged(window)
      // only a confirmed admin sign-in writes "true" into the flag
      ensures window.GetItem(AuthKey) == Some("true") && old(window.GetItem(AuthKey)) != Some("true") ==>
        auth.Data? && Api.AdminFound(lookup) && client.sessionLive && client.sessionUser == email
    {
      error := "";
      isLoading := true;
      if email == "" || password == "" {
        error := MissingFieldsMessage;
        isLoading := false;
        return;
      }
      var c := Api.SignIn(client, email, password, auth, lookup, signOut);
      if c == Returned(true) {
        var stored := window.SetItem(AuthKey, "true", storageFault);
        if stored.Threw? {
          c := Threw(stored.reason);
        } else {
          window.Navigate(AdminPath);
        }
      }
      match React(c) {
        case Commit =>
        case ShowError(message) =>
          error := message;
      }
      isLoading := false;
    }
  }
}
