/** The route guard of the exercises2 frontend (`exercises2/frontend/src/middleware.ts`):
    it reads the `idToken` cookie and either lets the request through or redirects it. */
module Middleware {
  import opened Wrappers
  import opened Strings

  /** Paths reachable without signing in. */
  const PublicPaths: seq<string> := ["/login"]

  /** Path prefixes that need a signed-in user. */
  const ProtectedPaths: seq<string> := ["/", "/users", "/roles", "/troubles"]

  /** What the middleware answers: continue to the page, or redirect to `path` on the same
      origin, with an optional `from` query parameter. */
  datatype Decision = Next | Redirect(path: string, from: Option<string>)

  /** JavaScript truthiness of the cookie value: present and not empty. */
  predicate HasToken(token: Option<string>)
  {
    token.Some? && token.value != ""
  }

  predicate IsProtected(pathname: string)
  {
    exists i :: 0 <= i < |ProtectedPaths| && StartsWith(pathname, ProtectedPaths[i])
  }

  /** `middleware`: a signed-in user on the login page goes to "/"; a visitor without a
      token on a protected path goes to "/login" with `from` set to the requested path;
      every other request continues. */
  function Route(token: Option<string>, pathname: string): (d: Decision)
    ensures pathname in PublicPaths ==> d == (if HasToken(token) then Redirect("/", None) else Next)
    ensures pathname !in PublicPaths && IsProtected(pathname) && !HasToken(token) ==>
              d == Redirect("/login", Some(pathname))
    ensures pathname !in PublicPaths && (HasToken(token) || !IsProtected(pathname)) ==> d == Next
  {
    if pathname in PublicPaths then
      if HasToken(token) then Redirect("/", None) else Next
    else if (exists i :: 0 <= i < |ProtectedPaths| && StartsWith(pathname, ProtectedPaths[i])) && !HasToken(token) then
      Redirect("/login", Some(pathname))
    else
      Next
  }

  /** Because "/" is one of the protected prefixes, every path other than "/login" is
      guarded: without a token it redirects to the login page, remembering the path. */
  lemma EveryOtherPathGuarded(pathname: string)
    requires StartsWith(pathname, "/") && pathname != "/login"
    ensures Route(None, pathname) == Redirect("/login", Some(pathname))
    ensures Route(Some(""), pathname) == Redirect("/login", Some(pathname))
  {
    assert StartsWith(pathname, ProtectedPaths[0]);
  }

  /** With a token, nothing but the login page redirects, and the login page always
      redirects to "/". */
  lemma TokenPassesThrough(token: string, pathname: string)
    requires token != ""
    ensures Route(Some(token), pathname) == (if pathname == "/login" then Redirect("/", None) else Next)
  {
  }

  /** A redirect never points back at the requested path, so the guard cannot loop on one
      page: the login page only ever redirects to "/", and "/" redirects only when there is
      no token, in which case the login page lets the request through. */
  lemma NoRedirectLoop(token: Option<string>, pathname: string)
    requires Route(token, pathname).Redirect?
    ensures Route(token, pathname).path != pathname
    ensures Route(token, Route(token, pathname).path) == Next
  {
    if pathname == "/login" {
      assert HasToken(token);
      assert StartsWith("/", ProtectedPaths[0]);
    }
  }
}
