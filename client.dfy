/** The client's shared state and the HTTP adapter that acts on it:
    the session store (src/store/useAuthStore.ts), the project-list store
    (src/store/useProjectsStore.ts) and the adapter with its two
    interceptors (src/utils/api.ts), together with the cookie jar, the router
    and the outgoing network they touch. The three source files import each
    other (the adapter resets both stores, the stores call the adapter), so
    they share one module here.

    Every network call takes its outcome as a parameter. The adapter records
    each request it hands to the transport in `Network.sent`, so contracts
    can say what was sent; every navigation the client requests is appended
    to `Router.log`. */
module Client {
  import opened Js
  import opened Entities
  import opened Http

  const LoginError := "Failed to fetch user data"
  const LogoutError := "Failed to logout"
  const FetchProjectsError := "Failed to fetch projects"

  /** The request a store call hands to the transport: the adapter's default
      (empty) headers object with the request interceptor applied to it. */
  function Outgoing(verb: Method, url: string, body: Body, token: Option<string>): Request {
    Request(verb, url, WithBearer(Some(map[]), token), body)
  }

  /** The JSON body of the login call: exactly the two credentials. */
  function Credentials(email: string, password: string): Body {
    Json([("email", email), ("password", password)])
  }

  /** The browser's cookies as js-cookie and the edge runtime read them; only
      the `token` cookie matters to the client. */
  class CookieJar {
    var token: Option<string>

    constructor (token: Option<string>)
      ensures this.token == token
    {
      this.token := token;
    }

    /** `Cookies.remove("token")` */
    method Remove()
      modifies this
      ensures token == None
    {
      token := None;
    }
  }

  /** The router, reduced to the navigations it was asked for, in order. */
  class Router {
    var log: seq<Navigation>

    constructor ()
      ensures log == []
    {
      log := [];
    }

    method Navigate(n: Navigation)
      modifies this
      ensures log == old(log) + [n]
    {
      log := log + [n];
    }
  }

  /** The transport, reduced to the requests handed to it, in order. */
  class Network {
    var sent: seq<Request>

    constructor ()
      ensures sent == []
    {
      sent := [];
    }

    method Transmit(r: Request)
      modifies this
      ensures sent == old(sent) + [r]
    {
      sent := sent + [r];
    }
  }

  /** The config object an outgoing request travels in through the request
      interceptor. */
  class RequestConfig {
    var verb: Method
    var url: string
    var headers: Option<Headers>
    var body: Body

    constructor (verb: Method, url: string, headers: Option<Headers>, body: Body)
      ensures this.verb == verb && this.url == url && this.headers == headers && this.body == body
    {
      this.verb, this.url, this.headers, this.body := verb, url, headers, body;
    }
  }

  /** The session store: the signed-in user, if any, and the status of the
      last session operation. */
  class AuthStore {
    var user: Option<User>
    var loading: bool
    var error: Option<string>

    /** The store's initial state, which `Reset` restores. */
    predicate Cleared()
      reads this
    {
      user == None && !loading && error == None
    }

    constructor ()
      ensures Cleared()
    {
      user, loading, error := None, false, None;
    }

    /** Signs in, then loads the identity. When both calls succeed the user
        is the identity returned and no error is left. When either fails the
        error is the one generic message and the user is what it was, unless
        the login call itself came back 401: then the adapter has already
        cleared the session (and the list, and asked for the entry route)
        before the error is recorded. The identity call is only made after a
        successful login call, and never forces the reset. */
    method Login(api: Api, email: string, password: string, loginRes: Response<()>, meRes: Response<User>)
      requires api.auth == this
      modifies this, api.projects, api.router, api.network
      ensures !loading
      ensures loginRes.Ok? && meRes.Ok? ==> user == Some(meRes.data) && error == None
      ensures !(loginRes.Ok? && meRes.Ok?) ==> error == Some(LoginError)
      ensures !(loginRes.Ok? && meRes.Ok?) ==>
        user == if Expires(loginRes, LoginPath) then None else old(user)
      ensures api.network.sent == old(api.network.sent) +
        [Outgoing(Post, LoginPath, Credentials(email, password), api.cookies.token)] +
        (if loginRes.Ok? then [Outgoing(Get, MePath, NoBody, api.cookies.token)] else [])
      ensures Expires(loginRes, LoginPath) ==>
        api.projects.Cleared() && api.router.log == old(api.router.log) + [Replace(EntryRoute)]
      ensures !Expires(loginRes, LoginPath) ==> unchanged(api.projects, api.router)
    {
      loading, error := true, None;
      var r1 := api.Send(Post, LoginPath, Some(map[]), Credentials(email, password), loginRes);
      if r1.Ok? {
        MePathIsProbe();
        var r2 := api.Send(Get, MePath, Some(map[]), NoBody, meRes);
        if r2.Ok? {
          user := Some(r2.data);
        } else {
          error := Some(LoginError);
        }
      } else {
        error := Some(LoginError);
      }
      loading := false;
    }

    /** Signs out. On success the token cookie is removed and the user
        cleared; on failure the error is recorded and the cookie is kept, and
        the user is kept too unless a 401 made the adapter clear the session
        first. */
    method Logout(api: Api, res: Response<()>)
      requires api.auth == this
      modifies this, api.cookies, api.projects, api.router, api.network
      ensures !loading
      ensures res.Ok? ==> user == None && error == None && api.cookies.token == None
      ensures res.Fail? ==> error == Some(LogoutError) && api.cookies.token == old(api.cookies.token)
      ensures res.Fail? ==> user == if Expires(res, LogoutPath) then None else old(user)
      ensures api.network.sent == old(api.network.sent) +
        [Outgoing(Post, LogoutPath, NoBody, old(api.cookies.token))]
      ensures Expires(res, LogoutPath) ==>
        api.projects.Cleared() && api.router.log == old(api.router.log) + [Replace(EntryRoute)]
      ensures !Expires(res, LogoutPath) ==> unchanged(api.projects, api.router)
    {
      loading, error := true, None;
      var r := api.Send(Post, LogoutPath, Some(map[]), NoBody, res);
      if r.Ok? {
        api.cookies.Remove();
        user := None;
      } else {
        error := Some(LogoutError);
      }
      loading := false;
    }

    /** The identity probe: the user becomes the identity returned, or none
        on any failure. It never records an error and, because its URL
        contains "/me", never triggers the adapter's reset. */
    method FetchMe(api: Api, res: Response<User>)
      requires api.auth == this
      modifies this, api.projects, api.router, api.network
      ensures !loading && error == None
      ensures user == if res.Ok? then Some(res.data) else None
      ensures api.network.sent == old(api.network.sent) + [Outgoing(Get, MePath, NoBody, api.cookies.token)]
      ensures unchanged(api.projects, api.router)
    {
      loading, error := true, None;
      MePathIsProbe();
      var r := api.Send(Get, MePath, Some(map[]), NoBody, res);
      if r.Ok? {
        user := Some(r.data);
      } else {
        user := None;
      }
      loading := false;
    }

    /** Back to the initial state, whatever the state was: so resetting twice
        is resetting once. */
    method Reset()
      modifies this
      ensures Cleared()
    {
      user, loading, error := None, false, None;
    }
  }

  /** The project-list store: the projects last fetched, the search filter
      and the status of the last fetch. */
  class ProjectsStore {
    var projects: seq<Project>
    var filter: string
    var loading: bool
    var error: Option<string>

    /** The store's initial state, which `Reset` restores. */
    predicate Cleared()
      reads this
    {
      projects == [] && filter == "" && !loading && error == None
    }

    constructor ()
      ensures Cleared()
    {
      projects, filter, loading, error := [], "", false, None;
    }

    /** Loads the list. Success replaces the projects with the response
        exactly; failure records the error and keeps the projects. The
        filter is kept in both cases, except that a 401 makes the adapter
        reset this store (projects and filter included) before the error is
        recorded. */
    method FetchAll(api: Api, res: Response<seq<Project>>)
      requires api.projects == this
      modifies this, api.auth, api.router, api.network
      ensures !loading
      ensures res.Ok? ==> projects == res.data && error == None && filter == old(filter)
      ensures res.Fail? ==> error == Some(FetchProjectsError)
      ensures res.Fail? && !Expires(res, ProjectsPath) ==>
        projects == old(projects) && filter == old(filter)
      ensures Expires(res, ProjectsPath) ==>
        projects == [] && filter == "" && api.auth.Cleared() &&
        api.router.log == old(api.router.log) + [Replace(EntryRoute)]
      ensures !Expires(res, ProjectsPath) ==> unchanged(api.auth, api.router)
      ensures api.network.sent == old(api.network.sent) + [Outgoing(Get, ProjectsPath, NoBody, api.cookies.token)]
    {
      loading, error := true, None;
      var r := api.Send(Get, ProjectsPath, Some(map[]), NoBody, res);
      if r.Ok? {
        projects := r.data;
      } else {
        error := Some(FetchProjectsError);
      }
      loading := false;
    }

    /** Sets the filter and nothing else. */
    method SetFilter(f: string)
      modifies this
      ensures filter == f
      ensures projects == old(projects) && loading == old(loading) && error == old(error)
    {
      filter := f;
    }

    /** Back to the initial state, whatever the state was. */
    method Reset()
      modifies this
      ensures Cleared()
    {
      projects, filter, loading, error := [], "", false, None;
    }
  }

  /** The HTTP adapter, holding the process-wide objects its interceptors
      reach: both stores, the cookie jar and the router, plus the transport. */
  class Api {
    const auth: AuthStore
    const projects: ProjectsStore
    const cookies: CookieJar
    const router: Router
    const network: Network

    /** A freshly loaded client: both stores in their initial state, no
        navigation and no request yet, and whatever token cookie the browser
        already holds. */
    constructor (token: Option<string>)
      ensures fresh(auth) && fresh(projects) && fresh(cookies) && fresh(router) && fresh(network)
      ensures auth.Cleared() && projects.Cleared()
      ensures cookies.token == token && router.log == [] && network.sent == []
    {
      auth := new AuthStore();
      projects := new ProjectsStore();
      cookies := new CookieJar(token);
      router := new Router();
      network := new Network();
    }

    /** The request interceptor: writes the bearer header into the config's
        headers when the token cookie is truthy and the config has headers;
        leaves the rest of the config alone. */
    method OnRequest(config: RequestConfig)
      modifies config
      ensures config.headers == WithBearer(old(config.headers), cookies.token)
      ensures config.verb == old(config.verb) && config.url == old(config.url) && config.body == old(config.body)
    {
      var token := cookies.token;
      if Truthy(token) && config.headers.Some? {
        config.headers := Some(config.headers.value[AuthorizationHeader := BearerPrefix + token.value]);
      }
    }

    /** The response interceptor's error branch: on an expired session it
        resets both stores and asks for the entry route; otherwise it does
        nothing. Either way the rejection goes on to the caller (see Send). */
    method OnRejected(status: Option<int>, url: Option<string>)
      modifies auth, projects, router
      ensures SessionExpired(status, url) ==>
        auth.Cleared() && projects.Cleared() && router.log == old(router.log) + [Replace(EntryRoute)]
      ensures !SessionExpired(status, url) ==> unchanged(auth, projects, router)
    {
      var requestUrl := GetOr(url, "");
      if status == Some(Unauthorized) && !Includes(requestUrl, ProbeMarker) {
        auth.Reset();
        projects.Reset();
        router.Navigate(Replace(EntryRoute));
      }
    }

    /** One call through the adapter: the request interceptor runs, the
        request goes out exactly once, and the outcome comes back to the
        caller unchanged (success passes through; every failure is rejected
        again, never swallowed or retried) after the response interceptor
        has had its say on failures. */
    method Send<T>(verb: Method, url: string, headers: Option<Headers>, body: Body, outcome: Response<T>)
      returns (r: Response<T>)
      modifies auth, projects, router, network
      ensures r == outcome
      ensures network.sent == old(network.sent) + [Request(verb, url, WithBearer(headers, cookies.token), body)]
      ensures Expires(outcome, url) ==>
        auth.Cleared() && projects.Cleared() && router.log == old(router.log) + [Replace(EntryRoute)]
      ensures !Expires(outcome, url) ==> unchanged(auth, projects, router)
    {
      var config := new RequestConfig(verb, url, headers, body);
      OnRequest(config);
      network.Transmit(Request(config.verb, config.url, config.headers, config.body));
      match outcome
      case Ok(_) =>
        r := outcome;
      case Fail(status) =>
        OnRejected(status, Some(config.url));
        r := outcome;
    }
  }
}
