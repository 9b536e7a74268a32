/** middleware.ts: the session-based redirect rule and the paths it is
    configured to run on. The session lookup is a parameter. */
module Middleware {
  import opened Text

  datatype Response = Pass | Redirect(location: string)

  /** The rule: without a session "/dashboard…" goes to the login page, with one
      "/auth…" goes to the dashboard, and everything else passes. */
  function Decide(hasSession: bool, pathname: string): (r: Response)
    ensures r == Redirect("/auth/login") <==> !hasSession && StartsWith(pathname, "/dashboard")
    ensures r == Redirect("/dashboard") <==> hasSession && StartsWith(pathname, "/auth")
    ensures r == Pass <==> !(!hasSession && StartsWith(pathname, "/dashboard")) && !(hasSession && StartsWith(pathname, "/auth"))
  {
    if !hasSession && StartsWith(pathname, "/dashboard") then Redirect("/auth/login")
    else if hasSession && StartsWith(pathname, "/auth") then Redirect("/dashboard")
    else Pass
  }

  /** Following a redirect with the same session state never redirects again. */
  lemma NoRedirectLoop(hasSession: bool, pathname: string)
    ensures Decide(hasSession, pathname).Redirect? ==>
      Decide(hasSession, Decide(hasSession, pathname).location) == Pass
  {
    if Decide(hasSession, pathname).Redirect? {
      if hasSession {
        assert !StartsWith("/dashboard", "/auth") by { assert "/dashboard"[..5][1] != "/auth"[1]; }
      } else {
        assert !StartsWith("/auth/login", "/dashboard") by { assert "/auth/login"[..10][1] != "/dashboard"[1]; }
      }
    }
  }

  /** `"/<prefix>/:path*"`: the prefix itself or anything below it. */
  predicate MatchesPattern(pathname: string, prefix: string)
  {
    pathname == prefix || StartsWith(pathname, prefix + "/")
  }

  /** config.matcher: the paths the middleware runs on. */
  function Matched(pathname: string): (m: bool)
    ensures m ==> StartsWith(pathname, "/dashboard") || StartsWith(pathname, "/auth") ||
                  StartsWith(pathname, "/portfolio") || StartsWith(pathname, "/screeners")
    ensures StartsWith(pathname, "/dashboard/") || StartsWith(pathname, "/auth/") ==> m
    ensures StartsWith(pathname, "/portfolio/") || StartsWith(pathname, "/screeners/") ==> m
    ensures pathname in {"/dashboard", "/auth", "/portfolio", "/screeners"} ==> m
  {
    MatchesPattern(pathname, "/dashboard") || MatchesPattern(pathname, "/auth") ||
    MatchesPattern(pathname, "/portfolio") || MatchesPattern(pathname, "/screeners")
  }

  /** What a request receives: the rule on matched paths, a pass everywhere else. */
  function Handle(hasSession: bool, pathname: string): (r: Response)
    ensures !Matched(pathname) ==> r == Pass
    ensures Matched(pathname) ==> r == Decide(hasSession, pathname)
  {
    if Matched(pathname) then Decide(hasSession, pathname) else Pass
  }

  /** The portfolio and screener pages are matched but never guarded, so they pass even
      without a session; the rule itself is a bare prefix test, so "/dashboardX" would be
      redirected, but the matcher keeps the middleware from running on it. */
  lemma MatchedButUnguarded()
    ensures Matched("/portfolio") && Handle(false, "/portfolio") == Pass
    ensures Matched("/screeners/top") && Handle(false, "/screeners/top") == Pass
    ensures Decide(false, "/dashboardX") == Redirect("/auth/login")
    ensures !Matched("/dashboardX") && Handle(false, "/dashboardX") == Pass
    ensures Handle(false, "/dashboard/holdings") == Redirect("/auth/login")
  {
    assert StartsWith("/screeners/top", "/screeners/");
    assert StartsWith("/dashboardX", "/dashboard");
    assert StartsWith("/dashboard/holdings", "/dashboard/");
    assert StartsWith("/dashboard/holdings", "/dashboard");
    assert !StartsWith("/dashboardX", "/dashboard/") by { assert "/dashboardX"[10] != '/'; }
    assert !StartsWith("/dashboardX", "/auth/") by { assert "/dashboardX"[1] != 'a'; }
    assert !StartsWith("/dashboardX", "/portfolio/") by { assert "/dashboardX"[1] != 'p'; }
    assert !StartsWith("/dashboardX", "/screeners/") by { assert "/dashboardX"[1] != 's'; }
    assert !StartsWith("/portfolio", "/dashboard") by { assert "/portfolio"[1] != 'd'; }
    assert !StartsWith("/screeners/top", "/dashboard") by { assert "/screeners/top"[1] != 'd'; }
  }
}
