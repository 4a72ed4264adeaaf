/** The wire-level view of the HTTP adapter in src/utils/api.ts: requests as
    they leave the client, the outcome of a call, requested navigations, and
    the two pure rules the adapter's interceptors apply (the bearer header
    and the session-expiry test). The stateful side of the adapter is in
    module Client. */
module Http {
  import opened Js
  import opened Entities

  type Headers = map<string, string>

  datatype Method = Get | Post

  /** One entry of a multipart form: a text value or a file. */
  datatype FormValue = Text(text: string) | Blob(file: File)
  datatype FormField = FormField(name: string, value: FormValue)

  /** A request body: none, a JSON object (its keys in insertion order) or
      multipart form data (its entries in append order). */
  datatype Body = NoBody | Json(fields: seq<(string, string)>) | Multipart(parts: seq<FormField>)

  /** A request as it is handed to the transport, after the request
      interceptor. `headers` is None when the config carries no headers
      object. */
  datatype Request = Request(verb: Method, url: string, headers: Option<Headers>, body: Body)

  /** The outcome of one call: the response data, or a rejection whose
      `status` is the HTTP status of the response, None when no response
      arrived (a transport failure). */
  datatype Response<+T> = Ok(data: T) | Fail(status: Option<int>)

  /** A navigation the client asked the router for. */
  datatype Navigation = Replace(path: string) | Push(path: string)

  const AuthorizationHeader := "Authorization"
  const BearerPrefix := "Bearer "

  /** The token carried by an Authorization header value, if it is a bearer
      credential. */
  function BearerToken(h: string): Option<string> {
    if StartsWith(h, BearerPrefix) && |h| > |BearerPrefix| then Some(h[|BearerPrefix|..]) else None
  }

  /** Reading back the header the request interceptor writes gives the
      token that was written. */
  lemma BearerRoundTrip(token: string)
    requires token != ""
    ensures BearerToken(BearerPrefix + token) == Some(token)
  {
    assert (BearerPrefix + token)[|BearerPrefix|..] == token;
  }

  /** The request interceptor (src/utils/api.ts:12-18): with a truthy token
      cookie and a headers object, the headers gain an Authorization entry
      carrying the token and keep every other entry; otherwise they are
      returned as they were. */
  function WithBearer(headers: Option<Headers>, token: Option<string>): (r: Option<Headers>)
    ensures r.Some? <==> headers.Some?
    ensures Truthy(token) && headers.Some? ==>
      r.value.Keys == headers.value.Keys + {AuthorizationHeader} &&
      BearerToken(r.value[AuthorizationHeader]) == token &&
      forall k :: k in headers.value && k != AuthorizationHeader ==> r.value[k] == headers.value[k]
    ensures !(Truthy(token) && headers.Some?) ==> r == headers
  {
    if Truthy(token) && headers.Some? then
      BearerRoundTrip(token.value);
      Some(headers.value[AuthorizationHeader := BearerPrefix + token.value])
    else
      headers
  }

  const Unauthorized := 401

  /** The path fragment that marks the identity probe. */
  const ProbeMarker := "/me"

  /** The response interceptor's test (src/utils/api.ts:23-26): a rejection
      forces the global reset exactly when its status is 401 and its request
      URL, read as "" when missing, does not contain "/me" anywhere. */
  predicate SessionExpired(status: Option<int>, url: Option<string>) {
    status == Some(Unauthorized) && !Includes(GetOr(url, ""), ProbeMarker)
  }

  /** A call outcome that, made to `path`, triggers the global reset. */
  predicate Expires<T>(r: Response<T>, path: string) {
    r.Fail? && SessionExpired(r.status, Some(path))
  }

  /** Only a 401 ever forces the reset. */
  lemma OnlyUnauthorizedExpires(status: Option<int>, url: Option<string>)
    requires status != Some(Unauthorized)
    ensures !SessionExpired(status, url)
  {
  }

  /** A 401 for a request whose URL contains "/me" anywhere is let through
      without the reset. */
  lemma ProbeNeverExpires(status: Option<int>, url: string)
    requires Includes(url, ProbeMarker)
    ensures !SessionExpired(status, Some(url))
  {
  }

  /** A 401 whose request URL is missing is read as the URL "", which does not
      contain "/me", so it forces the reset. */
  lemma MissingUrlExpires()
    ensures SessionExpired(Some(Unauthorized), None)
  {
  }

  const MePath := "/auth/me"
  const LoginPath := "/auth/login"
  const LogoutPath := "/auth/logout"
  const RegisterPath := "/auth/register"
  const ProjectsPath := "/projects"

  /** The identity endpoint is the one the interceptor exempts. */
  lemma MePathIsProbe()
    ensures Includes(MePath, ProbeMarker)
  {
    assert MePath[5..8] == ProbeMarker;
    assert OccursAt(MePath, ProbeMarker, 5);
  }

  /** The endpoint /auth/login does not contain "/me", so a 401 from it forces
      the reset. */
  lemma LoginPathIsNotProbe()
    ensures !Includes(LoginPath, ProbeMarker)
  {
    assert forall i :: !PairAt(LoginPath, '/', 'm', i);
    NoPairNotIncluded(LoginPath, ProbeMarker);
  }

  /** The endpoint /auth/logout does not contain "/me", so a 401 from it forces
      the reset. */
  lemma LogoutPathIsNotProbe()
    ensures !Includes(LogoutPath, ProbeMarker)
  {
    assert forall i :: !PairAt(LogoutPath, '/', 'm', i);
    NoPairNotIncluded(LogoutPath, ProbeMarker);
  }

  /** The endpoint /auth/register does not contain "/me", so a 401 from it forces
      the reset. */
  lemma RegisterPathIsNotProbe()
    ensures !Includes(RegisterPath, ProbeMarker)
  {
    assert forall i :: !PairAt(RegisterPath, '/', 'm', i);
    NoPairNotIncluded(RegisterPath, ProbeMarker);
  }

  /** The endpoint /projects does not contain "/me", so a 401 from it forces
      the reset. */
  lemma ProjectsPathIsNotProbe()
    ensures !Includes(ProjectsPath, ProbeMarker)
  {
    assert forall i :: !PairAt(ProjectsPath, '/', 'm', i);
    NoPairNotIncluded(ProjectsPath, ProbeMarker);
  }

  /** Every API endpoint other than the identity probe expires the session
      on exactly one outcome: a failure carrying status 401. */
  lemma ApiPathExpiresExactlyOn401<T>(r: Response<T>, path: string)
    requires path in {LoginPath, LogoutPath, RegisterPath, ProjectsPath}
    ensures Expires(r, path) <==> r == Fail(Some(Unauthorized))
  {
    if path == LoginPath {
      LoginPathIsNotProbe();
    } else if path == LogoutPath {
      LogoutPathIsNotProbe();
    } else if path == RegisterPath {
      RegisterPathIsNotProbe();
    } else {
      ProjectsPathIsNotProbe();
    }
  }

  /** No outcome of the identity probe expires the session. */
  lemma MePathNeverExpires<T>(r: Response<T>)
    ensures !Expires(r, MePath)
  {
    MePathIsProbe();
  }

  /** The page routes of the client: the public entry page (the sign-in
      form), the project list, whose path prefix is also the part of the site
      both guards protect, and the create-project form under it. The page
      route "/projects" and the API endpoint `ProjectsPath` are different
      resources that share a spelling. */
  const EntryRoute := "/"
  const ProjectsRoute := "/projects"
  const NewProjectRoute := "/projects/new"
}
