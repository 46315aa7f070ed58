/**
 * The request middleware (src/middleware.js): it classifies the request path as
 * protected (`/dashboard`, `/profile`, `/chat`), an authentication page (`/login`,
 * `/signup`) or neither, and decides between redirecting and letting the request
 * through. Verifying the session token (a JSON Web Token) is not modelled: whether
 * `jwtVerify` accepts the token is an input.
 */
module Middleware {
  import opened Wrappers
  import opened Strings

  const ProtectedPrefixes: seq<string> := ["/dashboard", "/profile", "/chat"]
  const AuthPrefixes: seq<string> := ["/login", "/signup"]

  /** `prefixes.some(p => path.startsWith(p))`. */
  predicate StartsWithAny(path: string, prefixes: seq<string>)
    decreases |prefixes|
  {
    |prefixes| > 0 && (StartsWith(path, prefixes[0]) || StartsWithAny(path, prefixes[1..]))
  }

  predicate IsProtectedPath(path: string) {
    StartsWithAny(path, ProtectedPrefixes)
  }

  predicate IsAuthPath(path: string) {
    StartsWithAny(path, AuthPrefixes)
  }

  /** The `token` cookie is truthy: present and not empty. */
  predicate HasToken(token: Option<string>) {
    token.Some? && token.value != ""
  }

  /** What the middleware answers. */
  datatype Outcome =
    | RedirectToLogin(returnTo: string)  // to `/login?redirect=<returnTo>`
    | RedirectTo(target: string)         // to the `redirect` query parameter
    | RedirectToDashboard                // to `/dashboard`
    | ProceedDeletingToken               // `NextResponse.next()` with the `token` cookie deleted
    | Proceed                            // `NextResponse.next()`

  /**
   * The decision for a request to `path` carrying the cookie `token`, where
   * `tokenVerifies` says whether `jwtVerify` accepts the token and `redirect` is the
   * `redirect` query parameter (`searchParams.get('redirect')`).
   */
  function Decide(path: string, token: Option<string>, tokenVerifies: bool, redirect: Option<string>): (r: Outcome)
    // a protected path without a token goes to the login page, which is told where to return
    ensures r.RedirectToLogin? <==> IsProtectedPath(path) && !HasToken(token)
    ensures r.RedirectToLogin? ==> r.returnTo == path
    // a protected path with any token passes: the token is not verified here
    ensures IsProtectedPath(path) && HasToken(token) ==> r == Proceed
    // a signed-in visitor of an authentication page is sent on
    ensures r.RedirectTo? <==>
              IsAuthPath(path) && HasToken(token) && tokenVerifies &&
              redirect.Some? && redirect.value != "" && IsProtectedPath(redirect.value)
    ensures r.RedirectTo? ==> Some(r.target) == redirect && IsProtectedPath(r.target)
    ensures r.RedirectToDashboard? <==>
              IsAuthPath(path) && HasToken(token) && tokenVerifies &&
              !(redirect.Some? && redirect.value != "" && IsProtectedPath(redirect.value))
    // a rejected token on an authentication page is deleted and the page is shown
    ensures r.ProceedDeletingToken? <==> IsAuthPath(path) && HasToken(token) && !tokenVerifies
    // every other path passes unchanged
    ensures !IsProtectedPath(path) && !IsAuthPath(path) ==> r == Proceed
  {
    ProtectedAuthDisjoint(path);
    if IsProtectedPath(path) && !HasToken(token) then
      RedirectToLogin(path)
    else if IsAuthPath(path) && HasToken(token) then
      if tokenVerifies then
        if redirect.Some? && redirect.value != "" && IsProtectedPath(redirect.value) then
          RedirectTo(redirect.value)
        else
          RedirectToDashboard
      else
        ProceedDeletingToken
    else
      Proceed
  }

  /** Every protected prefix has `d`, `p` or `c` as its second character. */
  lemma ProtectedSecondChar(path: string)
    requires IsProtectedPath(path)
    ensures |path| > 1 && (path[1] == 'd' || path[1] == 'p' || path[1] == 'c')
  {
    if StartsWith(path, "/dashboard") {
      assert path[..10][1] == path[1];
    } else if StartsWith(path, "/profile") {
      assert path[..8][1] == path[1];
    } else {
      assert path[..5][1] == path[1];
    }
  }

  /** Every authentication prefix has `l` or `s` as its second character. */
  lemma AuthSecondChar(path: string)
    requires IsAuthPath(path)
    ensures |path| > 1 && (path[1] == 'l' || path[1] == 's')
  {
    if StartsWith(path, "/login") {
      assert path[..6][1] == path[1];
    } else {
      assert path[..7][1] == path[1];
    }
  }

  /** No path is both protected and an authentication page. */
  lemma ProtectedAuthDisjoint(path: string)
    ensures IsProtectedPath(path) ==> !IsAuthPath(path)
  {
    if IsProtectedPath(path) {
      ProtectedSecondChar(path);
    }
    if IsAuthPath(path) {
      AuthSecondChar(path);
    }
  }

  /**
   * A signed-in visitor is never redirected twice: wherever the middleware sends a
   * request with a valid token, the request that follows passes. The next request's
   * path is the redirect target as written, before URL resolution.
   */
  lemma SignedInRedirectsSettle(path: string, token: Option<string>, redirect: Option<string>, next: Option<string>)
    requires HasToken(token)
    ensures Decide(path, token, true, redirect).RedirectTo? ==>
              Decide(Decide(path, token, true, redirect).target, token, true, next) == Proceed
    ensures Decide(path, token, true, redirect).RedirectToDashboard? ==>
              Decide("/dashboard", token, true, next) == Proceed
  {
    var d := "/dashboard";
    assert StartsWith(d, ProtectedPrefixes[0]);
    assert IsProtectedPath(d);
  }

  /**
   * A visitor without a token who is sent to the login page gets the login page,
   * and the path they asked for travels along as the `redirect` parameter.
   */
  lemma SignedOutReachesLogin(path: string, token: Option<string>, valid: bool, redirect: Option<string>, loginToken: Option<string>, loginValid: bool)
    requires !HasToken(loginToken)
    ensures Decide(path, token, valid, redirect).RedirectToLogin? ==>
              Decide("/login", loginToken, loginValid, Some(path)) == Proceed
  {
    var l := "/login";
    assert StartsWith(l, AuthPrefixes[0]);
    ProtectedAuthDisjoint(l);
  }
}
