/** The route guard (src/middleware.ts): a request whose path starts with a protected
    prefix and carries no session token is redirected to the sign-in page; every other
    request passes through. */
module Middleware {

  const ProtectedRoutes: seq<string> := ["/family", "/admin"]
  const SignInPath: string := "/signin"

  datatype Decision = Redirect(location: string) | Next

  /** `String.prototype.startsWith`, character by character. */
  function StartsWith(s: string, prefix: string): (b: bool)
    ensures b <==> prefix <= s
  {
    if prefix == [] then true
    else if s == [] then false
    else s[0] == prefix[0] && StartsWith(s[1..], prefix[1..])
  }

  /** `routes.some(route => path.startsWith(route))`. */
  function SomeStartsWith(path: string, routes: seq<string>): (b: bool)
    ensures b <==> exists i :: 0 <= i < |routes| && routes[i] <= path
  {
    if routes == [] then false
    else StartsWith(path, routes[0]) || SomeStartsWith(path, routes[1..])
  }

  function Decide(pathname: string, hasToken: bool): (d: Decision)
    ensures d.Redirect? <==> !hasToken && ("/family" <= pathname || "/admin" <= pathname)
    ensures d.Redirect? ==> d.location == SignInPath
  {
    assert ProtectedRoutes[0] == "/family" && ProtectedRoutes[1] == "/admin";
    if SomeStartsWith(pathname, ProtectedRoutes) && !hasToken then Redirect(SignInPath) else Next
  }

  lemma TokenAlwaysPasses(pathname: string)
    ensures Decide(pathname, true) == Next
  {
  }

  lemma UnprotectedPathPasses(pathname: string, hasToken: bool)
    requires !("/family" <= pathname) && !("/admin" <= pathname)
    ensures Decide(pathname, hasToken) == Next
  {
  }

  /** The test is a plain prefix test: paths that only share the prefix are guarded too. */
  lemma PlainPrefixGuardsLookalikes()
    ensures Decide("/familyX", false) == Redirect(SignInPath)
    ensures Decide("/administrator", false) == Redirect(SignInPath)
    ensures Decide("/famil", false) == Next
  {
    assert "/family" <= "/familyX";
    assert "/admin" <= "/administrator";
    assert !("/family" <= "/famil") by { assert |"/famil"| < |"/family"|; }
  }
}
