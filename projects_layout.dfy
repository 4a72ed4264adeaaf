/** The shell around every project page, src/app/projects/layout.tsx: the
    drawer, the search box bound to the list's filter, and the sign-out
    sequence. */
module ProjectsLayout {
  import opened Js
  import opened Entities
  import opened Http
  import opened Client
  import RootLayout
  import ProjectsPage

  /** The shell's own state: the "signed out" snackbar, the mobile drawer,
      and the navigations its timers have scheduled but not yet run, oldest
      first. */
  class Shell {
    var snackbarOpen: bool
    var drawerOpen: bool
    var timers: seq<Navigation>

    constructor ()
      ensures !snackbarOpen && !drawerOpen && timers == []
    {
      snackbarOpen, drawerOpen, timers := false, false, [];
    }

    /** `handleLogout`: the store's logout, then both resets, then the
        snackbar, then a timer for the push to the entry route. Afterwards
        both stores are in their initial state whatever the logout call did,
        the "Failed to logout" error included; the cookie is gone only if
        the call succeeded; the only navigation so far is the adapter's own
        on a 401, and the push waits in the timer queue. */
    method HandleLogout(api: Api, res: Response<()>)
      modifies this`snackbarOpen, this`timers, api.auth, api.projects, api.cookies, api.router, api.network
      ensures snackbarOpen && drawerOpen == old(drawerOpen)
      ensures timers == old(timers) + [Push(EntryRoute)]
      ensures api.auth.Cleared() && api.projects.Cleared()
      ensures api.cookies.token == if res.Ok? then None else old(api.cookies.token)
      ensures api.network.sent == old(api.network.sent) + [Outgoing(Post, LogoutPath, NoBody, old(api.cookies.token))]
      ensures api.router.log == old(api.router.log) + if Expires(res, LogoutPath) then [Replace(EntryRoute)] else []
    {
      api.auth.Logout(api, res);
      api.auth.Reset();
      api.projects.Reset();
      snackbarOpen := true;
      timers := timers + [Push(EntryRoute)];
    }

    /** The oldest pending timer fires: its navigation goes to the router
        and it leaves the queue. */
    method FireTimer(router: Router)
      requires timers != []
      modifies this`timers, router
      ensures router.log == old(router.log) + [old(timers)[0]]
      ensures timers == old(timers)[1..]
    {
      router.Navigate(timers[0]);
      timers := timers[1..];
    }

    /** `toggleDrawer` */
    method ToggleDrawer()
      modifies this`drawerOpen
      ensures drawerOpen == !old(drawerOpen)
    {
      drawerOpen := !drawerOpen;
    }

    /** Toggling twice leaves the drawer as it was. */
    method ToggleTwice()
      modifies this`drawerOpen
      ensures drawerOpen == old(drawerOpen)
    {
      ToggleDrawer();
      ToggleDrawer();
    }
  }

  /** The search box: each input sets the list's filter to its value and
      changes nothing else in the store. */
  method OnSearchInput(api: Api, value: string)
    modifies api.projects
    ensures api.projects.filter == value
    ensures api.projects.projects == old(api.projects.projects)
    ensures api.projects.loading == old(api.projects.loading) && api.projects.error == old(api.projects.error)
  {
    api.projects.SetFilter(value);
  }

  /** Signing out of the project list while the API is down. Before: a
      user known, the list fetched and a filter typed. The stores are
      cleared anyway and the cookie stays. The user going from a value to
      null makes the root layout's check run again on the list's path, which
      replaces the route with the entry route; the timed push to the entry
      route follows a second later. */
  method FailedLogoutScenario(token: string, me: User, list: seq<Project>, filter: string)
    returns (signedIn: Option<User>, listed: seq<Project>, typed: string,
             cleared: bool, cookie: Option<string>, nav: seq<Navigation>)
    ensures signedIn == Some(me) && listed == list && typed == filter
    ensures cleared && cookie == Some(token)
    ensures nav == [Replace(EntryRoute), Push(EntryRoute)]
  {
    var api := new Api(Some(token));
    RootLayout.Mount(api, Ok(me));
    ProjectsPage.Mount(api, Ok(list));
    OnSearchInput(api, filter);
    signedIn, listed, typed := api.auth.user, api.projects.projects, api.projects.filter;
    var shell := new Shell();
    shell.HandleLogout(api, Fail(Some(503)));
    RootLayout.GuardEffect(api.auth, api.router, Some(ProjectsRoute));
    shell.FireTimer(api.router);
    cleared := api.auth.Cleared() && api.projects.Cleared();
    cookie, nav := api.cookies.token, api.router.log;
  }
}
