/** The root layout of src/app/layout.tsx: on mount it probes the session
    with the store's identity call, and whenever the user or the path
    changes it sends a signed-out visitor of a protected path back to the
    entry route. This reactive check covers what the edge check cannot see:
    a token cookie that is present but no longer accepted by the API. Since
    it reads the user of the render that scheduled it, it also fires on the
    first commit of every fresh load, before the probe has answered. */
module RootLayout {
  import opened Js
  import opened Entities
  import opened Http
  import opened Client
  import EdgeGuard
  import LoginPage
  import ProjectsPage

  /** `user === null && pathname?.startsWith("/projects")` */
  predicate RedirectsHome(user: Option<User>, pathname: Option<string>) {
    user.None? && pathname.Some? && StartsWith(pathname.value, ProjectsRoute)
  }

  /** The mount effect: one identity probe. */
  method Mount(api: Api, meRes: Response<User>)
    modifies api.auth, api.projects, api.router, api.network
    ensures api.auth.user == if meRes.Ok? then Some(meRes.data) else None
    ensures !api.auth.loading && api.auth.error == None
    ensures api.network.sent == old(api.network.sent) + [Outgoing(Get, MePath, NoBody, api.cookies.token)]
    ensures unchanged(api.projects, api.router)
  {
    api.auth.FetchMe(api, meRes);
  }

  /** The reactive effect: replaces the route with the entry route exactly
      when RedirectsHome holds of the current user and path. */
  method GuardEffect(auth: AuthStore, router: Router, pathname: Option<string>)
    modifies router
    ensures router.log == old(router.log) + if RedirectsHome(auth.user, pathname) then [Replace(EntryRoute)] else []
  {
    if auth.user == None && pathname.Some? && StartsWith(pathname.value, ProjectsRoute) {
      router.Navigate(Replace(EntryRoute));
    }
  }

  /** Neither a signed-in user nor an unknown path is ever sent away. */
  lemma RedirectNeedsSignedOutProtectedPath(user: Option<User>, pathname: Option<string>)
    ensures user.Some? ==> !RedirectsHome(user, pathname)
    ensures pathname.None? ==> !RedirectsHome(user, pathname)
  {
  }

  /** The two checks together: on a matched path with a non-empty cookie the
      edge lets the request through, and as long as no user is known the
      reactive check sends the visitor to the entry route. No user is known
      on the first commit of every fresh load (the store starts with none and
      the probe answers later), and none stays known after a probe that
      fails. */
  lemma StaleCookieIsCaught(url: EdgeGuard.NextUrl, token: Option<string>)
    requires EdgeGuard.Matcher(url.pathname) && Truthy(token)
    ensures EdgeGuard.Dispatch(url, token) == EdgeGuard.Next
    ensures RedirectsHome(None, Some(url.pathname))
  {
    EdgeGuard.EdgeGuardSound(url, token);
    EdgeGuard.MatchedPathsAreProtected(url.pathname);
  }

  /** The first commit of a fresh load of a protected page of this model,
      before any answer but the list's: the page's mount effect (on the
      list's route, the list fetch), then the layout's reactive check on the
      store's empty user. The probe is sent by the caller. */
  method FirstCommit(api: Api, pathname: string, listRes: Response<seq<Project>>)
    requires pathname in {ProjectsRoute, NewProjectRoute} && api.auth.user == None
    modifies api.projects, api.auth, api.router, api.network
    ensures api.router.log == old(api.router.log) +
      (if pathname == ProjectsRoute && Expires(listRes, ProjectsPath) then [Replace(EntryRoute)] else []) +
      [Replace(EntryRoute)]
    ensures api.auth.user == None
  {
    if pathname == ProjectsRoute {
      ProjectsPage.Mount(api, listRes);
    }
    GuardEffect(api.auth, api.router, Some(pathname));
  }

  /** The probe returns an identity while the visitor is on the entry
      route: the user and the path have changed, so the reactive check runs
      again, on the entry route, and leaves them; the sign-in page's effect
      sees the user and replaces the route with the project list. */
  method ProbeAnswersOnEntry(api: Api, me: User)
    modifies api.projects, api.auth, api.router, api.network
    ensures api.router.log == old(api.router.log) + [Replace(ProjectsRoute)]
    ensures api.auth.user == Some(me)
  {
    Mount(api, Ok(me));
    GuardEffect(api.auth, api.router, Some(EntryRoute));
    LoginPage.RedirectEffect(api.auth, api.router);
  }

  /** Arriving on the list's route: the list page's mount fetch, then the
      layout's reactive check on that route. A 401 on the fetch clears the
      user and asks for the entry route, and the check then asks again; a
      user known and kept is left where they are. */
  method ListPageVisit(api: Api, listRes: Response<seq<Project>>)
    modifies api.projects, api.auth, api.router, api.network
    ensures api.router.log == old(api.router.log) +
      (if Expires(listRes, ProjectsPath) then [Replace(EntryRoute)] else []) +
      (if Expires(listRes, ProjectsPath) || old(api.auth.user) == None then [Replace(EntryRoute)] else [])
    ensures api.auth.user == if Expires(listRes, ProjectsPath) then None else old(api.auth.user)
  {
    ProjectsPage.Mount(api, listRes);
    GuardEffect(api.auth, api.router, Some(ProjectsRoute));
  }

  /** A fresh load of a protected page of this model with a token cookie
      the API rejects. The edge guard lets it through. After the first
      commit the effects run, the page's before the layout's: on the list's
      route the list fetch goes out, then the probe, and the reactive check,
      reading the store's initial empty user, asks for the entry route. A 401
      from the list fetch makes the adapter ask for the entry route too. The
      failed probe leaves the user empty, so nothing changes for the check
      and the visitor stays on the entry route. */
  method StaleCookieScenario(url: EdgeGuard.NextUrl, token: string, status: Option<int>,
                             listRes: Response<seq<Project>>)
    returns (edge: EdgeGuard.Decision, nav: seq<Navigation>, user: Option<User>)
    requires url.pathname in {ProjectsRoute, NewProjectRoute} && token != ""
    ensures edge == EdgeGuard.Next
    ensures nav ==
      (if url.pathname == ProjectsRoute && Expires(listRes, ProjectsPath) then [Replace(EntryRoute)] else []) +
      [Replace(EntryRoute)]
    ensures user == None
  {
    EdgeGuard.ModelledPagesMatched(url.pathname);
    edge := EdgeGuard.Dispatch(url, Some(token));
    StaleCookieIsCaught(url, Some(token));
    var api := new Api(Some(token));
    FirstCommit(api, url.pathname, listRes);
    Mount(api, Fail(status));
    nav, user := api.router.log, api.auth.user;
  }

  /** A fresh load of a protected page of this model with a cookie the
      identity probe accepts. The reactive check runs on the first commit,
      before the probe answers, so the visitor is sent to the entry route
      whatever the cookie; once the probe returns the identity the sign-in
      page sends them on to the project list, whose page fetches the list
      on mount. The create-project form, if that was the page asked for, is
      not returned to. Each list fetch answered with a 401 adds the
      adapter's navigation to the entry route; the second one also clears
      the user, so the reactive check sends the visitor there once more. */
  method FirstLoadScenario(url: EdgeGuard.NextUrl, token: string, me: User,
                           firstList: Response<seq<Project>>, secondList: Response<seq<Project>>)
    returns (edge: EdgeGuard.Decision, nav: seq<Navigation>, user: Option<User>)
    requires url.pathname in {ProjectsRoute, NewProjectRoute} && token != ""
    ensures edge == EdgeGuard.Next
    ensures nav ==
      (if url.pathname == ProjectsRoute && Expires(firstList, ProjectsPath) then [Replace(EntryRoute)] else []) +
      [Replace(EntryRoute), Replace(ProjectsRoute)] +
      (if Expires(secondList, ProjectsPath) then [Replace(EntryRoute), Replace(EntryRoute)] else [])
    ensures user == if Expires(secondList, ProjectsPath) then None else Some(me)
  {
    EdgeGuard.ModelledPagesMatched(url.pathname);
    edge := EdgeGuard.Dispatch(url, Some(token));
    StaleCookieIsCaught(url, Some(token));
    var api := new Api(Some(token));
    FirstCommit(api, url.pathname, firstList);
    ProbeAnswersOnEntry(api, me);
    ListPageVisit(api, secondList);
    nav, user := api.router.log, api.auth.user;
  }
}
