/** The sign-in page of src/app/page.tsx: it shows a spinner instead of the
    form while a user is known or a session call is running, shows the
    store's error when there is one, hands the entered credentials to the
    store's login, and replaces the route with the project list as soon as a
    user is known. */
module LoginPage {
  import opened Js
  import opened Entities
  import opened Http
  import opened Client

  /** `user || loading`: the spinner replaces the form. */
  predicate ShowsSpinner(user: Option<User>, loading: bool) {
    user.Some? || loading
  }

  /** `error && <Alert>`: the alert is shown for a non-empty error. */
  predicate ShowsError(error: Option<string>) {
    Truthy(error)
  }

  /** `disabled={loading}` on the submit button. */
  predicate SubmitDisabled(loading: bool) {
    loading
  }

  /** The redirect effect: a known user sends the page to the project list. */
  method RedirectEffect(auth: AuthStore, router: Router)
    modifies router
    ensures router.log == old(router.log) + if auth.user.Some? then [Replace(ProjectsRoute)] else []
  {
    if auth.user.Some? {
      router.Navigate(Replace(ProjectsRoute));
    }
  }

  /** Form submit: the store's login with exactly the entered email and
      password, which are the whole body of the POST sent, followed by the
      identity GET when that POST succeeds. A 401 from the login endpoint
      resets the session and the list and asks for the entry route; any
      other outcome leaves the list and the route alone. */
  method HandleSubmit(api: Api, email: string, password: string, loginRes: Response<()>, meRes: Response<User>)
    modifies api.auth, api.projects, api.router, api.network
    ensures api.network.sent == old(api.network.sent) +
      [Outgoing(Post, LoginPath, Credentials(email, password), api.cookies.token)] +
      (if loginRes.Ok? then [Outgoing(Get, MePath, NoBody, api.cookies.token)] else [])
    ensures loginRes.Ok? && meRes.Ok? ==> api.auth.user == Some(meRes.data) && api.auth.error == None
    ensures !(loginRes.Ok? && meRes.Ok?) ==> api.auth.error == Some(LoginError)
    ensures !(loginRes.Ok? && meRes.Ok?) ==>
      api.auth.user == if Expires(loginRes, LoginPath) then None else old(api.auth.user)
    ensures !api.auth.loading
    ensures Expires(loginRes, LoginPath) ==>
      api.projects.Cleared() && api.router.log == old(api.router.log) + [Replace(EntryRoute)]
    ensures !Expires(loginRes, LoginPath) ==> unchanged(api.projects, api.router)
  {
    api.auth.Login(api, email, password, loginRes, meRes);
  }

  /** A successful sign-in on a fresh client: the page shows the spinner and
      moves on to the project list, and no other navigation happens. */
  method SignInScenario(token: Option<string>, email: string, password: string, me: User)
    returns (spinner: bool, alert: bool, nav: seq<Navigation>)
    ensures spinner && !alert
    ensures nav == [Replace(ProjectsRoute)]
  {
    var api := new Api(token);
    HandleSubmit(api, email, password, Ok(()), Ok(me));
    spinner := ShowsSpinner(api.auth.user, api.auth.loading);
    alert := ShowsError(api.auth.error);
    RedirectEffect(api.auth, api.router);
    nav := api.router.log;
  }

  /** Rejected credentials (a 401 from the login endpoint): the adapter treats
      it as an expired session and asks for the entry route, the form comes
      back with the error alert and an enabled submit button, and the page
      does not move on. */
  method WrongPasswordScenario(token: Option<string>, email: string, password: string)
    returns (spinner: bool, alert: bool, disabled: bool, nav: seq<Navigation>)
    ensures !spinner && alert && !disabled
    ensures nav == [Replace(EntryRoute)]
  {
    var api := new Api(token);
    var loginRes: Response<()> := Fail(Some(Unauthorized));
    ApiPathExpiresExactlyOn401(loginRes, LoginPath);
    assert Expires(loginRes, LoginPath);
    HandleSubmit(api, email, password, loginRes, Fail(Some(Unauthorized)));
    assert api.auth.user == None && api.auth.error == Some(LoginError);
    spinner := ShowsSpinner(api.auth.user, api.auth.loading);
    alert := ShowsError(api.auth.error);
    disabled := SubmitDisabled(api.auth.loading);
    RedirectEffect(api.auth, api.router);
    nav := api.router.log;
  }
}
