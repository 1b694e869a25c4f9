/** The route guard and the route table of the client (src/App.tsx). */
module Gate {
  import opened Outcomes
  import opened Backend
  import opened Browser
  import opened Text

  /** What the guard renders: the protected children, or a redirect. */
  datatype View = Children | RedirectTo(path: string)

  /** Whether a `getSession` answer holds a session; an error answer carries a null session. */
  function SessionObserved(answer: Answer<bool>): (live: bool)
    ensures live <==> answer == Data(true)
  {
    answer.Data? && answer.value
  }

  /** `PrivateRoute`: an optimistic decision from the cached flag, reconciled
      with the backend's session once `checkAuth` settles. */
  class PrivateRoute {
    var isAuthenticated: bool

    /** The initial state: the flag is exactly the string "true". */
    constructor (window: Window)
      ensures isAuthenticated <==> window.GetItem(AuthKey) == Some("true")
    {
      isAuthenticated := window.GetItem(AuthKey) == Some("true");
    }

    /** The guard's render: the children exactly when the state is true, else a
        redirect to the login form. */
    function Render(): (v: View)
      reads this
      ensures v == Children <==> isAuthenticated
      ensures v.RedirectTo? ==> v.path == LoginPath
    {
      if isAuthenticated then Children else RedirectTo(LoginPath)
    }

    /** `checkAuth`: overwrite the state and the stored flag with whether a session
        was observed. A rejected `getSession` has no handler, so it updates nothing;
        a `setItem` that throws (`storageFault`) leaves the flag as it was after the
        state is set, and rejects. */
    method CheckAuth(window: Window, client: Client, answer: Answer<bool>, storageFault: Option<string>)
      returns (c: Completion<()>)
      modifies this, window`storage, client`calls
      ensures client.calls == old(client.calls) + [AuthGetSession]
      ensures answer.Raise? ==>
        c == Threw(answer.reason) && isAuthenticated == old(isAuthenticated) && window.storage == old(window.storage)
      ensures !answer.Raise? ==> isAuthenticated == SessionObserved(answer)
      ensures !answer.Raise? && storageFault.None? ==>
        c == Returned(()) && window.storage == old(window.storage)[AuthKey := FlagText(isAuthenticated)]
        && (window.GetItem(AuthKey) == Some("true") <==> isAuthenticated)
      ensures !answer.Raise? && storageFault.Some? ==>
        c == Threw(storageFault.value) && window.storage == old(window.storage)
      // against a backend that reports its session truthfully, the guard ends up agreeing with it
      ensures answer == Data(client.sessionLive) ==>
        isAuthenticated == client.sessionLive && (Render() == Children <==> client.sessionLive)
    {
      client.Send(AuthGetSession);
      if answer.Raise? {
        return Threw(answer.reason);
      }
      var isAuth := SessionObserved(answer);
      isAuthenticated := isAuth;
      c := window.SetItem(AuthKey, FlagText(isAuth), storageFault);
      FlagReadsBack(isAuth);
    }
  }

  /** The element a route renders. */
  datatype Element = HomePage | LoginFormPage | GuardedDashboard | NavigateTo(path: string, replace: bool)

  /** `n` slashes. */
  function Slashes(n: nat): (s: string)
    ensures |s| == n && forall i :: 0 <= i < n ==> s[i] == '/'
  {
    seq(n, _ => '/')
  }

  /** `s` without its trailing slashes: what is left does not end in a slash,
      and only slashes were removed. */
  function StripTrailingSlashes(s: string): (r: string)
    ensures r == [] || r[|r| - 1] != '/'
    ensures |r| <= |s| && s == r + Slashes(|s| - |r|)
    decreases |s|
  {
    if s != [] && s[|s| - 1] == '/' then
      var r := StripTrailingSlashes(s[..|s| - 1]);
      assert s == s[..|s| - 1] + ['/'];
      assert Slashes(|s| - 1 - |r|) + ['/'] == Slashes(|s| - |r|);
      r
    else
      assert s == s + Slashes(0);
      s
  }

  /** Stripping gives back a string that did not end in a slash, whatever
      slashes follow it. */
  lemma {:induction false} StripAfterSlashes(t: string, k: nat)
    requires t == [] || t[|t| - 1] != '/'
    ensures StripTrailingSlashes(t + Slashes(k)) == t
    decreases k
  {
    if k == 0 {
      assert t + Slashes(0) == t;
    } else {
      var s := t + Slashes(k);
      assert s[..|s| - 1] == t + Slashes(k - 1);
      StripAfterSlashes(t, k - 1);
    }
  }

  /** The router's match of a route pattern against a location: without
      regard to the case of ASCII letters, and ignoring trailing slashes. */
  predicate RouteMatches(pattern: string, path: string)
  {
    StripTrailingSlashes(Lower(path)) == StripTrailingSlashes(pattern)
  }

  /** A reference reading of the same match: the location is the pattern, in
      any letter case, followed by any number of slashes. */
  ghost predicate Reaches(pattern: string, path: string)
  {
    exists k: nat :: Lower(path) == pattern + Slashes(k)
  }

  /** The two readings agree for every pattern that does not end in a slash. */
  lemma RouteMatchesIffReaches(pattern: string, path: string)
    requires pattern == [] || pattern[|pattern| - 1] != '/'
    ensures RouteMatches(pattern, path) <==> Reaches(pattern, path)
  {
    var s := Lower(path);
    var r := StripTrailingSlashes(s);
    StripAfterSlashes(pattern, 0);
    assert pattern + Slashes(0) == pattern;
    if RouteMatches(pattern, path) {
      assert s == pattern + Slashes(|s| - |r|);
    }
    if Reaches(pattern, path) {
      var k: nat :| s == pattern + Slashes(k);
      StripAfterSlashes(pattern, k);
    }
  }

  /** The `<Routes>` table; a location no route matches is replaced by "/". */
  function Route(path: string): (e: Element)
    ensures e == HomePage <==> RouteMatches(HomePath, path)
    ensures e == LoginFormPage <==> RouteMatches(LoginPath, path)
    ensures e == GuardedDashboard <==> RouteMatches(AdminPath, path)
    ensures e.NavigateTo? ==> e == NavigateTo(HomePath, true)
  {
    StripRoutePatterns();
    if RouteMatches(HomePath, path) then HomePage
    else if RouteMatches(LoginPath, path) then LoginFormPage
    else if RouteMatches(AdminPath, path) then GuardedDashboard
    else NavigateTo(HomePath, true)
  }

  /** Stripping the three route patterns. */
  lemma StripRoutePatterns()
    ensures StripTrailingSlashes(HomePath) == []
    ensures StripTrailingSlashes(LoginPath) == LoginPath
    ensures StripTrailingSlashes(AdminPath) == AdminPath
  {
    assert HomePath[..0] == [];
  }

  /** The dashboard is reached only through the guard, and exactly at "/admin"
      in any letter case with any trailing slashes; likewise the login form at
      "/login" and the home page at slashes alone. Every other location is
      replaced by "/", which the home page serves. */
  lemma RouteTable(path: string)
    ensures Route(path) == GuardedDashboard <==> Reaches(AdminPath, path)
    ensures Route(path) == LoginFormPage <==> Reaches(LoginPath, path)
    ensures Route(path) == HomePage <==> Reaches("", path)
    ensures Route(path).NavigateTo? ==> Route(path) == NavigateTo(HomePath, true) && Route(HomePath) == HomePage
  {
    StripRoutePatterns();
    RouteMatchesIffReaches("", path);
    RouteMatchesIffReaches(LoginPath, path);
    RouteMatchesIffReaches(AdminPath, path);
    assert Lower(HomePath) == HomePath;
  }

  /** A trailing slash or capital letters still reach the guard. */
  lemma AdminRouteVariants()
    ensures Route("/admin/") == GuardedDashboard && Route("/ADMIN") == GuardedDashboard
  {
    var upper := Lower("/ADMIN");
    assert |upper| == 6;
    assert upper[0] == '/' && upper[1] == 'a' && upper[2] == 'd' && upper[3] == 'm' && upper[4] == 'i' && upper[5] == 'n';
    assert upper == AdminPath + Slashes(0);
    RouteTable("/ADMIN");
    var slashed := Lower("/admin/");
    assert |slashed| == 7;
    assert slashed[..6] == AdminPath && slashed[6] == '/';
    assert slashed == AdminPath + Slashes(1);
    RouteTable("/admin/");
  }
}
