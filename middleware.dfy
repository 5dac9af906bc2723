/** The request middleware that sends visitors of protected areas without a session to the login page. */
module Middleware {
  import opened Text

  const ProtectedRoutes := ["/admin", "/agent", "/portal"]
  const LoginPath := "/login"
  const CallbackParam := "callbackUrl"

  /** Where a request goes: on to the page, or a redirect to `path?name=value` on the same origin. */
  datatype Decision = PassThrough | Redirect(path: string, queryName: string, queryValue: string)

  /** The decision and whether the session lookup `auth()` was made. */
  datatype MiddlewareRun = MiddlewareRun(decision: Decision, authConsulted: bool)

  /** `routes.some(route => pathname.startsWith(route))`. */
  function AnyPrefix(routes: seq<string>, pathname: string): (b: bool)
    ensures b <==> exists i :: 0 <= i < |routes| && StartsWith(pathname, routes[i])
    decreases |routes|
  {
    if routes == [] then false
    else StartsWith(pathname, routes[0]) || AnyPrefix(routes[1..], pathname)
  }

  predicate IsProtected(pathname: string) {
    AnyPrefix(ProtectedRoutes, pathname)
  }

  /** `middleware(request)`: `hasSession` is what `auth()` would answer. */
  function Run(pathname: string, hasSession: bool): (r: MiddlewareRun)
    ensures r.authConsulted <==> IsProtected(pathname)
    ensures r.decision.Redirect? <==> IsProtected(pathname) && !hasSession
    ensures r.decision.Redirect? ==> r.decision == Redirect(LoginPath, CallbackParam, pathname)
  {
    if IsProtected(pathname) then
      if !hasSession then MiddlewareRun(Redirect(LoginPath, CallbackParam, pathname), true)
      else MiddlewareRun(PassThrough, true)
    else MiddlewareRun(PassThrough, false)
  }

  /** A path is protected exactly when it starts with one of the three areas. */
  lemma ProtectedIff(pathname: string)
    ensures IsProtected(pathname) <==>
      StartsWith(pathname, "/admin") || StartsWith(pathname, "/agent") || StartsWith(pathname, "/portal")
  {
    if IsProtected(pathname) {
      var i :| 0 <= i < |ProtectedRoutes| && StartsWith(pathname, ProtectedRoutes[i]);
      assert i == 0 || i == 1 || i == 2;
    } else {
      assert !StartsWith(pathname, ProtectedRoutes[0]);
      assert !StartsWith(pathname, ProtectedRoutes[1]);
      assert !StartsWith(pathname, ProtectedRoutes[2]);
    }
  }

  /** The test is a plain prefix test: anything appended to a protected path stays protected. */
  lemma ProtectedExtends(pathname: string, more: string)
    requires IsProtected(pathname)
    ensures IsProtected(pathname + more)
  {
    var i :| 0 <= i < |ProtectedRoutes| && StartsWith(pathname, ProtectedRoutes[i]);
    StartsWithExtend(pathname, ProtectedRoutes[i], more);
  }

  /** So "/administrator" is protected too, while the login page is not. */
  lemma PrefixExamples()
    ensures IsProtected("/administrator")
    ensures !IsProtected("/login")
  {
    ProtectedExtends("/admin", "istrator");
    assert "/admin" + "istrator" == "/administrator";
    ProtectedIff("/login");
    assert "/login"[..6][1] != "/admin"[1];
    assert "/login"[..6][1] != "/agent"[1];
  }

  /** The login page is not protected, so the redirect target never redirects again. */
  lemma NoRedirectLoops(hasSession: bool)
    ensures Run(LoginPath, hasSession) == MiddlewareRun(PassThrough, false)
  {
    PrefixExamples();
  }
}
