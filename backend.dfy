/** The hosted backend as the web client sees it: the auth service's session
    and the log of every request the client sends. Each request is one atomic
    step; what the backend answers is chosen by the caller of the model. */
module Backend {
  import opened Rows

  /** One request sent to the backend. */
  datatype Call =
    | PasswordSignIn(email: string, password: string)   // auth.signInWithPassword
    | AuthSignOut                                       // auth.signOut
    | AuthGetSession                                    // auth.getSession
    | SelectAdmin(email: string)                        // admin_users where email = ...
    | SelectAllApps                                     // apps ordered by created_at
    | SelectMatchingApps(query: string)                 // apps where name/version ilike
    | InsertApp(record: AppInsert)                      // insert into apps
    | DeleteApp(id: string)                             // delete from apps where id = ...
    | IncrementDownloads(id: string)                    // rpc increment_downloads
    | StorageUpload(bucket: string, path: string)       // storage upload

  /** The backend client (`supabase`) with the session its auth service holds for this browser. */
  class Client {
    ghost var sessionLive: bool
    ghost var sessionUser: string
    ghost var calls: seq<Call>

    constructor ()
      ensures !sessionLive && calls == []
    {
      sessionLive := false;
      sessionUser := "";
      calls := [];
    }

    /** A request with no effect on the session. */
    method Send(call: Call)
      modifies this`calls
      ensures calls == old(calls) + [call]
    {
      calls := calls + [call];
    }

    /** `auth.signInWithPassword`: a `data` answer opens a session for `email`;
        otherwise the session is as it was. */
    method SignInWithPassword(email: string, password: string, answer: Outcomes.Answer<()>)
      modifies this
      ensures calls == old(calls) + [PasswordSignIn(email, password)]
      ensures answer.Data? ==> sessionLive && sessionUser == email
      ensures !answer.Data? ==> sessionLive == old(sessionLive) && sessionUser == old(sessionUser)
    {
      calls := calls + [PasswordSignIn(email, password)];
      if answer.Data? {
        sessionLive, sessionUser := true, email;
      }
    }

    /** `auth.signOut`: a `data` answer ends the session; otherwise it is as it was. */
    method SignOut(answer: Outcomes.Answer<()>)
      modifies this
      ensures calls == old(calls) + [AuthSignOut]
      ensures answer.Data? ==> !sessionLive
      ensures !answer.Data? ==> sessionLive == old(sessionLive)
      ensures sessionUser == old(sessionUser)
    {
      calls := calls + [AuthSignOut];
      if answer.Data? {
        sessionLive := false;
      }
    }
  }
}
