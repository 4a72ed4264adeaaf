/** The edge guard of middleware.ts: before a protected page is produced,
    a request for a path under /projects that carries no token cookie is
    redirected to the entry route; everything else goes on. The guard sees
    only the raw cookie, never the identity behind it. */
module EdgeGuard {
  import opened Js
  import opened Http

  /** The parts of `req.nextUrl` the guard reads or copies. */
  datatype NextUrl = NextUrl(origin: string, pathname: string, search: string, hash: string)

  /** `NextResponse.next()` or `NextResponse.redirect(url)`. */
  datatype Decision = Next | Redirect(to: NextUrl)

  /** `middleware(req)`: redirect exactly when the path starts with the
      protected prefix and the token cookie is missing or empty; the
      redirect goes to a copy of the request URL with only the path
      replaced by the entry route. */
  function Middleware(url: NextUrl, token: Option<string>): (d: Decision)
    ensures d.Redirect? <==> StartsWith(url.pathname, ProjectsRoute) && !Truthy(token)
    ensures d.Redirect? ==>
      d.to.pathname == EntryRoute &&
      d.to.origin == url.origin && d.to.search == url.search && d.to.hash == url.hash
  {
    if StartsWith(url.pathname, ProjectsRoute) && !Truthy(token) then
      Redirect(url.(pathname := EntryRoute))
    else
      Next
  }

  /** `config.matcher = ["/projects/:path*"]`: the prefix itself or the
      prefix followed by further path segments. */
  predicate Matcher(pathname: string) {
    pathname == ProjectsRoute || StartsWith(pathname, ProjectsRoute + "/")
  }

  /** What the edge runtime does with a request: the middleware runs only on
      matched paths. */
  function Dispatch(url: NextUrl, token: Option<string>): Decision {
    if Matcher(url.pathname) then Middleware(url, token) else Next
  }

  /** Every matched path starts with the protected prefix, so inside the
      matcher the middleware's own prefix test always holds. */
  lemma MatchedPathsAreProtected(pathname: string)
    requires Matcher(pathname)
    ensures StartsWith(pathname, ProjectsRoute)
  {
    if pathname != ProjectsRoute {
      assert ProjectsRoute <= ProjectsRoute + "/";
    }
  }

  /** Both protected pages of this model are selected by the matcher. */
  lemma ModelledPagesMatched(pathname: string)
    requires pathname in {ProjectsRoute, NewProjectRoute}
    ensures Matcher(pathname)
  {
    assert ProjectsRoute + "/" <= NewProjectRoute;
  }

  /** Soundness of the edge check: a matched request passes only with a
      truthy token, and without one it is always redirected to the entry
      route. */
  lemma EdgeGuardSound(url: NextUrl, token: Option<string>)
    requires Matcher(url.pathname)
    ensures Dispatch(url, token) == Next <==> Truthy(token)
    ensures !Truthy(token) ==> Dispatch(url, token) == Redirect(url.(pathname := EntryRoute))
  {
    MatchedPathsAreProtected(url.pathname);
  }

  /** Paths outside the matcher always go on, whatever the cookie. */
  lemma UnmatchedPathsPass(url: NextUrl, token: Option<string>)
    requires !Matcher(url.pathname)
    ensures Dispatch(url, token) == Next
  {
  }

  /** A token is never checked for validity at the edge: any non-empty one
      lets every request through. */
  lemma AnyTokenPasses(url: NextUrl, token: string)
    requires token != ""
    ensures Dispatch(url, Some(token)) == Next
  {
  }

  /** `/projects/42` without a cookie, or with an empty one, is redirected
      to `/` with its query kept; with a cookie it goes on. */
  lemma ProjectDetailScenario(origin: string, search: string, token: string)
    requires token != ""
    ensures Dispatch(NextUrl(origin, "/projects/42", search, ""), None) == Redirect(NextUrl(origin, "/", search, ""))
    ensures Dispatch(NextUrl(origin, "/projects/42", search, ""), Some("")) == Redirect(NextUrl(origin, "/", search, ""))
    ensures Dispatch(NextUrl(origin, "/projects/42", search, ""), Some(token)) == Next
  {
    assert ProjectsRoute + "/" <= "/projects/42";
  }
}
