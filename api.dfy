/** The data-access service of the web client (src/lib/api.ts): catalog reads
    and writes, and the admin sign-in and sign-out. */
module Api {
  import opened Outcomes
  import opened Rows
  import opened Text
  import opened Backend
  import Supabase

  const IconBucket := "app-icons"
  const ApkBucket := "app-files"

  /** `getApps`: all rows, mapped to apps; an error answer is thrown and gives no list. */
  method GetApps(client: Client, answer: Answer<seq<AppRow>>) returns (c: Completion<seq<App>>)
    modifies client`calls
    ensures client.calls == old(client.calls) + [SelectAllApps]
    ensures answer.Data? ==> c == Returned(ToApps(answer.value))
    ensures !answer.Data? ==> c == Threw(Reason(answer))
  {
    client.Send(SelectAllApps);
    if !answer.Data? {
      return Threw(Reason(answer));
    }
    c := Returned(ToApps(answer.value));
  }

  /** The filter `searchApps` sends: the name or the version contains the query, ignoring case. */
  predicate Matches(name: string, version: string, query: string)
    ensures Matches(name, version, query) <==>
      (exists i :: OccursAt(Lower(name), Lower(query), i)) || (exists i :: OccursAt(Lower(version), Lower(query), i))
    ensures query == [] ==> Matches(name, version, query)
  {
    ContainsIffOccurs(Lower(name), Lower(query));
    ContainsIffOccurs(Lower(version), Lower(query));
    EmptyContained(Lower(name));
    ContainsIgnoringCase(name, query) || ContainsIgnoringCase(version, query)
  }

  /** The rows of `table` the filter selects, in table order. */
  function Select(table: seq<AppRow>, query: string): (selected: seq<AppRow>)
    ensures |selected| <= |table|
    ensures forall row :: row in selected <==> row in table && Matches(row.name, row.version, query)
  {
    if table == [] then []
    else (if Matches(table[0].name, table[0].version, query) then [table[0]] else []) + Select(table[1..], query)
  }

  /** An empty search box selects the whole table. */
  lemma {:induction false} EmptyQuerySelectsAll(table: seq<AppRow>)
    ensures Select(table, "") == table
  {
    if table != [] {
      EmptyContained(Lower(table[0].name));
      EmptyQuerySelectsAll(table[1..]);
      assert [table[0]] + table[1..] == table;
    }
  }

  /** Selection keeps table order: selecting from two tables put together
      selects from the first, then from the second. */
  lemma {:induction false} SelectAppend(a: seq<AppRow>, b: seq<AppRow>, query: string)
    ensures Select(a + b, query) == Select(a, query) + Select(b, query)
  {
    if a == [] {
      assert a + b == b;
    } else {
      var head := if Matches(a[0].name, a[0].version, query) then [a[0]] else [];
      assert (a + b)[0] == a[0] && (a + b)[1..] == a[1..] + b;
      assert Select(a + b, query) == head + Select(a[1..] + b, query);
      SelectAppend(a[1..], b, query);
      assert Select(a, query) == head + Select(a[1..], query);
      assert head + (Select(a[1..], query) + Select(b, query)) == (head + Select(a[1..], query)) + Select(b, query);
    }
  }

  /** Searching twice with the same query selects nothing new. */
  lemma {:induction false} SelectIdempotent(table: seq<AppRow>, query: string)
    ensures Select(Select(table, query), query) == Select(table, query)
  {
    if table != [] {
      var head, rest := table[0], Select(table[1..], query);
      SelectIdempotent(table[1..], query);
      if Matches(head.name, head.version, query) {
        var once := [head] + rest;
        assert Select(table, query) == once;
        assert once[0] == head && once[1..] == rest;
        assert Select(once, query) == [head] + Select(rest, query);
      } else {
        assert Select(table, query) == rest;
      }
    }
  }

  /** `searchApps(query)`: the rows the backend selects for the query, mapped
      to apps; an error answer is thrown and gives no list. */
  method SearchApps(client: Client, query: string, answer: Answer<seq<AppRow>>)
    returns (c: Completion<seq<App>>)
    modifies client`calls
    ensures client.calls == old(client.calls) + [SelectMatchingApps(query)]
    ensures answer.Data? ==> c == Returned(ToApps(answer.value))
    ensures !answer.Data? ==> c == Threw(Reason(answer))
  {
    client.Send(SelectMatchingApps(query));
    if !answer.Data? {
      return Threw(Reason(answer));
    }
    c := Returned(ToApps(answer.value));
  }

  /** When the backend answers a search with the selected rows, every app shown
      matches the query and every matching row of the table is shown. */
  lemma SearchShowsExactlyMatches(table: seq<AppRow>, query: string)
    ensures var shown := ToApps(Select(table, query));
      (forall i :: 0 <= i < |shown| ==> Matches(shown[i].name, shown[i].version, query))
      && (forall row :: row in table && Matches(row.name, row.version, query) ==> ToApp(row) in shown)
  {
    var selected := Select(table, query);
    var shown := ToApps(selected);
    forall row | row in table && Matches(row.name, row.version, query)
      ensures ToApp(row) in shown
    {
      var i :| 0 <= i < |selected| && selected[i] == row;
      assert shown[i] == ToApp(row);
    }
    forall i | 0 <= i < |shown|
      ensures Matches(shown[i].name, shown[i].version, query)
    {
      assert selected[i] in selected;
    }
  }

  /** `addApp`: upload the icon, then the package, then insert a row with the
      given metadata, the two public URLs and no downloads. Any failure is
      thrown and stops the sequence; nothing is inserted unless both uploads
      succeeded. */
  method AddApp(client: Client, name: string, version: string, description: string,
                icon: Supabase.File, apk: Supabase.File, iconPrefix: string, apkPrefix: string,
                iconAnswer: Answer<()>, apkAnswer: Answer<()>, insertAnswer: Answer<AppRow>,
                urlOf: (string, string) -> string)
    returns (c: Completion<App>)
    modifies client`calls
    ensures
      var iconName, apkName := Supabase.StorageName(iconPrefix, icon.name), Supabase.StorageName(apkPrefix, apk.name);
      var uploads := [StorageUpload(IconBucket, iconName), StorageUpload(ApkBucket, apkName)];
      var record := AppInsert(name, version, description, urlOf(IconBucket, iconName), urlOf(ApkBucket, apkName), 0);
      && (!iconAnswer.Data? ==> c == Threw(Reason(iconAnswer)) && client.calls == old(client.calls) + uploads[..1])
      && (iconAnswer.Data? && !apkAnswer.Data? ==>
            c == Threw(Reason(apkAnswer)) && client.calls == old(client.calls) + uploads)
      && (iconAnswer.Data? && apkAnswer.Data? ==>
            client.calls == old(client.calls) + uploads + [InsertApp(record)]
            && c == if insertAnswer.Data? then Returned(ToApp(insertAnswer.value))
                    else Threw(Reason(insertAnswer)))
  {
    var iconUrl := Supabase.UploadFile(client, icon, IconBucket, iconPrefix, iconAnswer, urlOf);
    if iconUrl.Threw? {
      return Threw(iconUrl.reason);
    }
    var apkUrl := Supabase.UploadFile(client, apk, ApkBucket, apkPrefix, apkAnswer, urlOf);
    if apkUrl.Threw? {
      return Threw(apkUrl.reason);
    }
    client.Send(InsertApp(AppInsert(name, version, description, iconUrl.value, apkUrl.value, 0)));
    if !insertAnswer.Data? {
      return Threw(Reason(insertAnswer));
    }
    c := Returned(ToApp(insertAnswer.value));
  }

  /** `deleteApp(id)`: an error answer is thrown. */
  method DeleteApp(client: Client, id: string, answer: Answer<()>) returns (c: Completion<()>)
    modifies client`calls
    ensures client.calls == old(client.calls) + [Backend.DeleteApp(id)]
    ensures c == if answer.Data? then Returned(()) else Threw(Reason(answer))
  {
    client.Send(Backend.DeleteApp(id));
    c := if answer.Data? then Returned(()) else Threw(Reason(answer));
  }

  /** `incrementDownload(id)`: the `increment_downloads` procedure; an error answer is thrown. */
  method IncrementDownload(client: Client, id: string, answer: Answer<()>) returns (c: Completion<()>)
    modifies client`calls
    ensures client.calls == old(client.calls) + [IncrementDownloads(id)]
    ensures c == if answer.Data? then Returned(()) else Threw(Reason(answer))
  {
    client.Send(IncrementDownloads(id));
    c := if answer.Data? then Returned(()) else Threw(Reason(answer));
  }

  /** The admin lookup found no admin: an error answer, or no row. */
  predicate NotAdmin(lookup: Answer<Option<AdminUser>>)
  {
    lookup.Error? || (lookup.Data? && lookup.value.None?)
  }

  /** The admin lookup returned a row. */
  predicate AdminFound(lookup: Answer<Option<AdminUser>>)
  {
    lookup.Data? && lookup.value.Some?
  }

  /** `signIn(email, password)`: password sign-in, then a lookup of `email` in
      `admin_users`. A signed-in non-admin is signed out again. The promise never
      rejects: every failure, including one of the inner sign-out, is `false`. */
  method SignIn(client: Client, email: string, password: string,
                auth: Answer<()>, lookup: Answer<Option<AdminUser>>, signOut: Answer<()>)
    returns (c: Completion<bool>)
    modifies client
    ensures c.Returned?
    ensures c.value <==> auth.Data? && AdminFound(lookup)
    // a failed password sign-in never queries admin_users and leaves the session alone
    ensures !auth.Data? ==>
      client.calls == old(client.calls) + [PasswordSignIn(email, password)]
      && client.sessionLive == old(client.sessionLive) && client.sessionUser == old(client.sessionUser)
    ensures auth.Data? && AdminFound(lookup) ==>
      client.calls == old(client.calls) + [PasswordSignIn(email, password), SelectAdmin(email)]
      && client.sessionLive && client.sessionUser == email
    // a non-admin is signed out before `false` is returned
    ensures auth.Data? && NotAdmin(lookup) ==>
      client.calls == old(client.calls) + [PasswordSignIn(email, password), SelectAdmin(email), AuthSignOut]
      && client.sessionLive == !signOut.Data? && client.sessionUser == email
    // an exception from the lookup skips the sign-out: the new session stays
    ensures auth.Data? && lookup.Raise? ==>
      client.calls == old(client.calls) + [PasswordSignIn(email, password), SelectAdmin(email)]
      && client.sessionLive && client.sessionUser == email
  {
    client.SignInWithPassword(email, password, auth);
    if !auth.Data? {
      return Returned(false);
    }
    client.Send(SelectAdmin(email));
    if lookup.Raise? {
      return Returned(false);
    }
    if NotAdmin(lookup) {
      var _ := SignOut(client, signOut);
      return Returned(false);
    }
    c := Returned(true);
  }

  /** `signOut()`: ends the session; the answer's error is ignored, an
      exception rejects. */
  method SignOut(client: Client, answer: Answer<()>) returns (c: Completion<()>)
    modifies client
    ensures client.calls == old(client.calls) + [AuthSignOut]
    ensures client.sessionLive == (old(client.sessionLive) && !answer.Data?)
    ensures client.sessionUser == old(client.sessionUser)
    ensures c == if answer.Raise? then Threw(answer.reason) else Returned(())
  {
    client.SignOut(answer);
    c := if answer.Raise? then Threw(answer.reason) else Returned(());
  }
}
