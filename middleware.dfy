/**
 * middleware.ts: sends a visitor without a session cookie from the dashboard
 * to the login page. It looks only at whether the cookie is there, never at
 * whether its token is valid.
 */
module Middleware {
  import opened Wrappers

  datatype Action = Next | Redirect(location: string)

  predicate StartsWith(s: string, prefix: string) {
    |prefix| <= |s| && s[..|prefix|] == prefix
  }

  const Dashboard := "/dashboard"
  const LoginPage := "/login"

  /**
   * `middleware(request)`, given the `token` cookie's value (`None` when the
   * cookie is absent) and the request's pathname.
   */
  function Decide(token: Option<string>, pathname: string): (a: Action)
    ensures a == Next || a == Redirect(LoginPage)
    ensures a.Redirect? <==> (token.None? || token.value == "") && StartsWith(pathname, Dashboard)
  {
    if (token.None? || token.value == "") && StartsWith(pathname, Dashboard) then Redirect(LoginPage)
    else Next
  }

  /**
   * `config.matcher: '/dashboard/:path*'`: the dashboard itself and every
   * path below it (a trailing slash included).
   */
  predicate Selected(pathname: string) {
    pathname == Dashboard || StartsWith(pathname, Dashboard + "/")
  }

  /** What a request meets: the middleware runs only on the paths the matcher selects. */
  function Run(token: Option<string>, pathname: string): (a: Action)
    ensures a.Redirect? <==> (token.None? || token.value == "") && Selected(pathname)
    ensures !Selected(pathname) ==> a == Next
  {
    if Selected(pathname) then Decide(token, pathname) else Next
  }

  /**
   * Any non-empty token lets the request through, valid or not: two tokens
   * are never told apart.
   */
  lemma OnlyPresenceIsChecked(t1: string, t2: string, pathname: string)
    requires t1 != "" && t2 != ""
    ensures Run(Some(t1), pathname) == Run(Some(t2), pathname) == Next
  {
  }

  /**
   * Paths the matcher selects all start with `/dashboard`, so inside its
   * scope the prefix test always holds; a path like `/dashboardx` passes the
   * prefix test but is never selected.
   */
  lemma PrefixTestIsRedundantUnderMatcher(pathname: string)
    ensures Selected(pathname) ==> StartsWith(pathname, Dashboard)
    ensures StartsWith("/dashboardx", Dashboard) && !Selected("/dashboardx")
  {
    if Selected(pathname) && pathname != Dashboard {
      assert pathname[..|Dashboard|] == (pathname[..|Dashboard| + 1])[..|Dashboard|];
    }
    assert "/dashboardx"[..|Dashboard|] == Dashboard;
    assert "/dashboardx"[10] != '/';
  }
}
