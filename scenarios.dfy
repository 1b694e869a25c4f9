/** End-to-end runs of the sign-in flow on a fresh browser and backend client,
    each proved from the components' contracts alone. */
module Scenarios {
  import opened Outcomes
  import opened Rows
  import opened Backend
  import opened Browser
  import opened Login
  import opened Gate
  import opened Dashboard

  /** An admin with correct credentials: the flag becomes "true", the dashboard
      opens, and the guard mounted next lets the dashboard render. */
  method AdminSignsIn(email: string, password: string, admin: AdminUser)
    returns (flag: Option<string>, path: string, view: View)
    requires email != "" && password != ""
    ensures flag == Some("true") && path == AdminPath && view == Children
  {
    var window := new Window(map[], LoginPath);
    var client := new Client();
    var form := new LoginForm();
    form.SetEmail(email);
    form.SetPassword(password);
    form.Submit(window, client, Data(()), Data(Some(admin)), Data(()), None);
    var gate := new PrivateRoute(window);
    flag, path, view := window.GetItem(AuthKey), window.path, gate.Render();
  }

  /** Correct credentials of a user missing from admin_users: rejected with the
      uniform message, the session is torn down and the flag is never written. */
  method NonAdminIsRejected(email: string, password: string, lookupError: string)
    returns (flag: Option<string>, error: string, ghost live: bool)
    requires email != "" && password != ""
    ensures flag == None && error == RejectedMessage && !live
  {
    var window := new Window(map[], LoginPath);
    var client := new Client();
    var form := new LoginForm();
    form.SetEmail(email);
    form.SetPassword(password);
    form.Submit(window, client, Data(()), Error(lookupError), Data(()), None);
    flag, error, live := window.GetItem(AuthKey), form.error, client.sessionLive;
  }

  /** An admin with correct credentials in a browser whose storage refuses the
      flag: the retry message is shown, the form stays on the login page with no
      flag, and the guard would redirect, although the admin's session is live. */
  method StorageRefusesFlag(email: string, password: string, admin: AdminUser, quota: string)
    returns (flag: Option<string>, path: string, error: string, view: View, ghost live: bool)
    requires email != "" && password != ""
    ensures flag == None && path == LoginPath && error == RetryMessage
    ensures view == RedirectTo(LoginPath) && live
  {
    var window := new Window(map[], LoginPath);
    var client := new Client();
    var form := new LoginForm();
    form.SetEmail(email);
    form.SetPassword(password);
    form.Submit(window, client, Data(()), Data(Some(admin)), Data(()), Some(quota));
    var gate := new PrivateRoute(window);
    flag, path, error, view, live := window.GetItem(AuthKey), window.path, form.error, gate.Render(), client.sessionLive;
  }

  /** A stale "true" flag with no live session: the guard first renders the
      dashboard, and only after `checkAuth` settles does it redirect and
      store "false". */
  method StaleFlagRendersFirst() returns (before: View, after: View, flag: Option<string>)
    ensures before == Children
    ensures after == RedirectTo(LoginPath) && flag == Some("false")
  {
    var window := new Window(map[AuthKey := "true"], AdminPath);
    var client := new Client();
    var gate := new PrivateRoute(window);
    before := gate.Render();
    var _ := gate.CheckAuth(window, client, Data(false), None);
    after, flag := gate.Render(), window.GetItem(AuthKey);
  }

  /** Signing out twice: both settle normally and the flag is absent after each. */
  method SignOutTwice(stored: map<string, string>)
    returns (first: Completion<()>, second: Completion<()>, flag: Option<string>, path: string)
    ensures first == Returned(()) && second == Returned(())
    ensures flag == None && path == LoginPath
  {
    var window := new Window(stored, AdminPath);
    var client := new Client();
    var board := new AdminDashboard();
    first := board.SignOut(window, client, Data(()));
    second := board.SignOut(window, client, Data(()));
    flag, path := window.GetItem(AuthKey), window.path;
  }
}
