/**
 * The route guard run before every matched page request: with no session,
 * protected sections redirect to the sign-in page (remembering where the user
 * was going); with a session, the auth pages redirect home; everything else
 * passes through. The session lookup is a parameter; the `matcher` pattern
 * that decides which requests reach the guard is not modelled.
 */
module Middleware {
  import opened Util
  import opened Strings

  /** What the guard answers: a redirect (with an optional `callbackUrl` query parameter) or pass-through. */
  datatype Decision =
    | Redirect(path: string, callbackUrl: Option<string>)
    | Next

  const SignInPath := "/auth/signin"
  const HomePath := "/"
  const AuthPrefix := "/auth"
  const ProtectedRoutes: seq<string> := ["/dashboard", "/profile", "/settings"]

  /** `protectedRoutes.some(route => pathname.startsWith(route))`. */
  predicate IsProtected(pathname: string) {
    exists i | 0 <= i < |ProtectedRoutes| :: StartsWith(pathname, ProtectedRoutes[i])
  }

  predicate IsAuthPage(pathname: string) {
    StartsWith(pathname, AuthPrefix)
  }

  /** The guard's decision for `pathname`, given whether a session exists. */
  function Guard(pathname: string, hasSession: bool): (d: Decision)
    ensures d == Redirect(SignInPath, Some(pathname)) <==> !hasSession && IsProtected(pathname)
    ensures d == Redirect(HomePath, None) <==> hasSession && IsAuthPage(pathname)
    ensures d == Next <==> (hasSession ==> !IsAuthPage(pathname)) && (!hasSession ==> !IsProtected(pathname))
  {
    if !hasSession && IsProtected(pathname) then Redirect(SignInPath, Some(pathname))
    else if hasSession && IsAuthPage(pathname) then Redirect(HomePath, None)
    else Next
  }

  /** No section is both protected and an auth page. */
  lemma ProtectedIsNotAuth(pathname: string)
    ensures !(IsProtected(pathname) && IsAuthPage(pathname))
  {
    if IsAuthPage(pathname) {
      assert pathname[1] == pathname[..|AuthPrefix|][1] == 'a';
      forall i | 0 <= i < |ProtectedRoutes| ensures !StartsWith(pathname, ProtectedRoutes[i]) {
        assert ProtectedRoutes[i][1] != 'a';
      }
    }
  }

  /**
   * No redirect loop: following a redirect with the same session state lands
   * on a page the guard lets through.
   */
  lemma NoRedirectLoop(pathname: string, hasSession: bool)
    ensures Guard(pathname, hasSession).Redirect? ==>
      Guard(Guard(pathname, hasSession).path, hasSession) == Next
  {
    var d := Guard(pathname, hasSession);
    if d.Redirect? {
      if hasSession {
        assert d.path == HomePath;
        assert !IsAuthPage(HomePath);
      } else {
        assert d.path == SignInPath;
        assert IsAuthPage(SignInPath) by { assert SignInPath[..|AuthPrefix|] == AuthPrefix; }
        ProtectedIsNotAuth(SignInPath);
      }
    }
  }

  /** A signed-in user is never sent to sign in; a signed-out user is never sent home. */
  lemma RedirectMatchesSession(pathname: string, hasSession: bool)
    ensures hasSession ==> Guard(pathname, hasSession) != Redirect(SignInPath, Some(pathname))
    ensures !hasSession ==> Guard(pathname, hasSession) != Redirect(HomePath, None)
    ensures Guard(pathname, hasSession).Redirect? ==>
      (Guard(pathname, hasSession).path == SignInPath <==> !hasSession)
  {
  }

  /**
   * Matching is by prefix, not by path segment: "/dashboardX" and
   * "/settings/a/b" are protected, and "/authors" counts as an auth page.
   */
  lemma PrefixMatching()
    ensures Guard("/dashboardX", false) == Redirect(SignInPath, Some("/dashboardX"))
    ensures Guard("/settings/a/b", false) == Redirect(SignInPath, Some("/settings/a/b"))
    ensures Guard("/authors", true) == Redirect(HomePath, None)
  {
    assert StartsWith("/dashboardX", ProtectedRoutes[0]);
    assert StartsWith("/settings/a/b", ProtectedRoutes[2]);
    assert StartsWith("/authors", AuthPrefix);
  }
}
