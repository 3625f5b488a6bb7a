/**
 * The request middleware: sends visitors without a session cookie to the
 * login page, except on public paths, and sends signed-in users away from
 * the login page.
 */
module Middleware {

  import opened Strings

  const PUBLIC_PATHS := ["/", "/auth/login", "/auth/confirm", "/auth/error"]
  const LOGIN := "/auth/login"
  const DASHBOARD := "/dashboard"

  /** `paths.some(path => pathname === path || pathname.startsWith('/api/'))`. */
  predicate SomePathMatches(paths: seq<string>, pathname: string) {
    paths != [] && (pathname == paths[0] || StartsWith(pathname, "/api/") || SomePathMatches(paths[1..], pathname))
  }

  /** The test inside the `some` fires for `/api/` only because the list is not empty. */
  lemma {:induction false} SomePathMatchesIff(paths: seq<string>, pathname: string)
    ensures SomePathMatches(paths, pathname) <==> paths != [] && (pathname in paths || StartsWith(pathname, "/api/"))
  {
    if paths != [] {
      SomePathMatchesIff(paths[1..], pathname);
      if pathname in paths && pathname != paths[0] {
        assert pathname in paths[1..];
      }
    }
  }

  predicate IsPublicPath(pathname: string) {
    SomePathMatches(PUBLIC_PATHS, pathname)
  }

  /** A path is public exactly when it is one of the four pages or lies under `/api/`. */
  lemma PublicPaths(pathname: string)
    ensures IsPublicPath(pathname) <==>
            pathname == "/" || pathname == "/auth/login" || pathname == "/auth/confirm" || pathname == "/auth/error" ||
            StartsWith(pathname, "/api/")
  {
    SomePathMatchesIff(PUBLIC_PATHS, pathname);
  }

  predicate IsSessionCookie(name: string) {
    Contains(name, "access-token") || Contains(name, "refresh-token") || Contains(name, "auth-token")
  }

  /** `cookies.some(cookie => <its name names a session token>)`. */
  predicate SomeSessionCookie(names: seq<string>) {
    names != [] && (IsSessionCookie(names[0]) || SomeSessionCookie(names[1..]))
  }

  /** A request is authenticated exactly when one of its cookie names mentions a session token. */
  lemma {:induction false} AuthenticatedIff(names: seq<string>)
    ensures SomeSessionCookie(names) <==> exists i :: 0 <= i < |names| && IsSessionCookie(names[i])
  {
    if names != [] {
      AuthenticatedIff(names[1..]);
      if exists i :: 0 <= i < |names| && IsSessionCookie(names[i]) {
        var i :| 0 <= i < |names| && IsSessionCookie(names[i]);
        if i > 0 { assert names[1..][i - 1] == names[i]; }
      }
      if SomeSessionCookie(names[1..]) {
        var i :| 0 <= i < |names[1..]| && IsSessionCookie(names[1..][i]);
        assert names[i + 1] == names[1..][i];
      }
    }
  }

  /** What the middleware answers: one of two redirects, or the refreshed session's own response. */
  datatype Outcome =
    | ToLogin(redirectTo: string)
    | ToDashboard
    | PassThrough

  function Decide(pathname: string, cookieNames: seq<string>): (out: Outcome)
    ensures out.ToLogin? ==> out.redirectTo == pathname && !IsPublicPath(pathname)
    ensures out == ToDashboard ==> pathname == LOGIN
  {
    var authenticated := SomeSessionCookie(cookieNames);
    if !authenticated && !IsPublicPath(pathname) then ToLogin(pathname)
    else if authenticated && pathname == LOGIN then ToDashboard
    else PassThrough
  }

  /**
   * A visitor without a session is sent to the login page, remembering
   * the path, exactly on non-public paths; a signed-in user is sent to the
   * dashboard exactly from the login page; every other request passes.
   */
  lemma DecisionTable(pathname: string, cookieNames: seq<string>)
    ensures var auth := exists i :: 0 <= i < |cookieNames| && IsSessionCookie(cookieNames[i]);
            var out := Decide(pathname, cookieNames);
            (out == ToLogin(pathname) <==> !auth && !IsPublicPath(pathname)) &&
            (out.ToLogin? ==> out.redirectTo == pathname) &&
            (out == ToDashboard <==> auth && pathname == LOGIN) &&
            (out == PassThrough <==> (auth || IsPublicPath(pathname)) && !(auth && pathname == LOGIN))
  {
    AuthenticatedIff(cookieNames);
  }

  /** The login page is public, so the two redirects never meet there: no redirect loop. */
  lemma LoginPageNeverLoops(cookieNames: seq<string>)
    ensures Decide(LOGIN, cookieNames) != ToLogin(LOGIN)
    ensures Decide(DASHBOARD, cookieNames) != ToDashboard
  {
    PublicPaths(LOGIN);
  }
}
