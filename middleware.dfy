/** The request middleware: a path that starts with "/shadow" is let through only when the
    `shadow_member` cookie is exactly "1"; any other request under that prefix is redirected
    to the same URL with the path "/". The framework runs the middleware only on the paths
    its matcher `/shadow/:path*` selects. */
module Middleware {
  import opened Common

  /** The parts of the request URL the middleware reads or rewrites. */
  datatype Url = Url(origin: string, pathname: string, search: string)

  /** `NextResponse.next()` or `NextResponse.redirect(url)`. */
  datatype Outcome = Next | Redirect(location: Url)

  const GUARDED_PREFIX := "/shadow"
  const MEMBER_COOKIE := "shadow_member"
  const MEMBER_VALUE := "1"

  /** `request.cookies.get("shadow_member")?.value === "1"` */
  predicate IsMember(cookies: map<string, string>) {
    MEMBER_COOKIE in cookies && cookies[MEMBER_COOKIE] == MEMBER_VALUE
  }

  /** `middleware(request)`: a raw prefix test on the path, then the cookie test; the
      redirect keeps the URL and replaces only its path. */
  function Guard(url: Url, cookies: map<string, string>): (r: Outcome)
    ensures !StartsWith(url.pathname, GUARDED_PREFIX) ==> r == Next
    ensures StartsWith(url.pathname, GUARDED_PREFIX) ==> (r == Next <==> IsMember(cookies))
    ensures r.Redirect? ==> r.location == url.(pathname := "/")
  {
    if StartsWith(url.pathname, GUARDED_PREFIX) && !IsMember(cookies) then
      Redirect(url.(pathname := "/"))
    else
      Next
  }

  /** The matcher `/shadow/:path*`: "/shadow" itself and every path below "/shadow/". */
  predicate Matched(pathname: string) {
    pathname == GUARDED_PREFIX || StartsWith(pathname, GUARDED_PREFIX + "/")
  }

  /** A request as the framework handles it: the middleware runs on matched paths only. */
  function Handle(url: Url, cookies: map<string, string>): (r: Outcome)
    ensures !Matched(url.pathname) ==> r == Next
    ensures r.Redirect? <==> Matched(url.pathname) && !IsMember(cookies)
  {
    if Matched(url.pathname) then Guard(url, cookies) else Next
  }

  /** Every path the matcher selects also passes the guard's own prefix test, so on matched
      paths the decision is the cookie's alone. */
  lemma {:induction false} MatchedPathsAreGuarded(pathname: string)
    requires Matched(pathname)
    ensures StartsWith(pathname, GUARDED_PREFIX)
  {
    if pathname != GUARDED_PREFIX {
      assert pathname[..|GUARDED_PREFIX|] == (pathname[..|GUARDED_PREFIX| + 1])[..|GUARDED_PREFIX|];
    }
  }

  /** The guard is a raw prefix test: "/shadowx" would be guarded by the function, although
      the matcher never sends it there. */
  lemma ShadowLookalikeGuardedButNotMatched(cookies: map<string, string>, url: Url)
    requires url.pathname == "/shadowx" && !IsMember(cookies)
    ensures Guard(url, cookies).Redirect? && !Matched(url.pathname) && Handle(url, cookies) == Next
  {
    assert url.pathname[..|GUARDED_PREFIX|] == GUARDED_PREFIX;
    assert url.pathname[..|GUARDED_PREFIX| + 1] != GUARDED_PREFIX + "/" by {
      assert url.pathname[|GUARDED_PREFIX|] == 'x';
    }
  }

  /** The redirect target "/" is not guarded: following a redirect never redirects again. */
  lemma NoRedirectLoop(url: Url, cookies: map<string, string>)
    ensures Guard(url, cookies).Redirect? ==>
              Guard(Guard(url, cookies).location, cookies) == Next &&
              Handle(Guard(url, cookies).location, cookies) == Next
  {
    if Guard(url, cookies).Redirect? {
      assert !StartsWith("/", GUARDED_PREFIX);
      assert !Matched("/");
    }
  }

  /** Once the member cookie holds "1", every path is let through, whatever else the cookies
      hold. */
  lemma {:induction false} MemberCookieAdmits(url: Url, cookies: map<string, string>)
    ensures Guard(url, cookies[MEMBER_COOKIE := MEMBER_VALUE]) == Next
    ensures Handle(url, cookies[MEMBER_COOKIE := MEMBER_VALUE]) == Next
  {
    assert IsMember(cookies[MEMBER_COOKIE := MEMBER_VALUE]);
  }
}
