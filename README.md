# Portfolio client: session protocol and page state machines

This project models the client half of a small portfolio application written
with Next.js. A signed-in user browses, filters and creates portfolio
projects. The model covers the parts of the client that make decisions:

- **The shared client state** (module `Client`, client.dfy):
  - the session store (`useAuthStore`);
  - the project-list store (`useProjectsStore`);
  - the HTTP adapter with its two interceptors (`api`);
  - the cookie jar, the router and the outgoing transport that these touch.

  The adapter and the stores import each other, so one module holds all
  three. Every store method takes the outcome of its network calls as a
  parameter: `Ok(data)`, or `Fail(status)` with no status for a transport
  failure. Each request handed to the transport is recorded in
  `Network.sent`, and each navigation asked of the router in `Router.log`.
  This lets contracts state what was sent and where the client went.
- **The pure rules behind the adapter** (module `Http`, http.dfy): the
  bearer header the request interceptor writes, and the session-expiry rule
  of the response interceptor. That rule is a 401 whose URL does not contain
  "/me"; a missing URL is read as "".
- **The JavaScript string and value operations the decisions use** (module
  `Js`, js.dfy): `startsWith`, `includes`, `trim`, `toLowerCase`,
  `Array.prototype.filter`, `??` and truthiness.
- **The edge guard** (module `EdgeGuard`, middleware.dfy) and its route
  matcher.
- **The root layout** (`RootLayout`): the identity probe on mount and the
  reactive redirect of signed-out visitors.
- **The pages**:
  - the sign-in page (`LoginPage`);
  - the sign-up page (`RegisterPage`);
  - the project list with its tag filter and view precedence
    (`ProjectsPage`);
  - the create-project form with its tag list and multipart submission
    (`NewProjectPage`);
  - the projects shell with sign-out, drawer and search box
    (`ProjectsLayout`).

Each store call is atomic given its outcomes. The response interceptor runs
before the caller's `catch` block, and the model reproduces the effects of
that order exactly. A 401 from `/auth/login` (wrong credentials) ends with:

- the user cleared;
- the project list cleared;
- a `Replace("/")` navigation;
- the generic login error recorded afterwards.

A 401 on the list fetch clears the list and the filter before the fetch
error is set.

The 401 rule in src/utils/api.ts resets both stores and navigates to `/`,
but it does not remove the `token` cookie. The model follows the code:
`Client.Api.OnRejected` cannot modify the cookie jar. Only a successful
logout removes the cookie, so a rejected token stays in the browser.

The reactive check in src/app/layout.tsx reads the user of the render that
scheduled it. On the first commit of a fresh load that user is still the
store's initial null, because the identity probe has not answered yet. So
every fresh load of a page under `/projects` is first sent to `/`, whatever
the cookie. With a valid cookie the sign-in page then sends the visitor on
to `/projects`, and the path first asked for (a project's page, say) is lost.
Signing out from the projects shell likewise reaches `/` twice: the layout's
check replaces the route as soon as the user is cleared, and the shell's own
push follows when its one-second timer fires.

## Model

| member | source | states |
|---|---|---|
| Js.GetOr | src/utils/api.ts:24 | `o ?? d`: the present value, or the default when the value is missing. |
| Js.Truthy | middleware.ts:8 | A cookie value is truthy exactly when it is present and not the empty string. |
| Js.StartsWith | middleware.ts:8 | `s.startsWith(prefix)`: `prefix` is a prefix of `s`. |
| Js.Includes | src/utils/api.ts:26 | `s.includes(part)`: `part` occurs at some index of `s` as a contiguous run. |
| Js.Filter | src/app/projects/page.tsx:15 | `Array.prototype.filter`: the elements the predicate accepts, in their order. |
| Js.Trim | src/app/projects/new/page.tsx:34 | The result is the input with only white space cut from its two ends, at some offset, and it neither starts nor ends with white space. |
| Js.SkipSpaces | src/app/projects/new/page.tsx:34 | Returns the first non-space index at or after `i`: everything skipped is white space, and the character found is not. |
| Js.SkipSpacesBack | src/app/projects/new/page.tsx:34 | Returns the start of the run of white space that ends at `j`, not going below `lo`. |
| Js.TrimOfTrimmed | src/app/projects/new/page.tsx:34 | A string that neither starts nor ends with white space is its own trim. |
| Js.TrimIdempotent | src/app/projects/new/page.tsx:34 | Trimming twice is trimming once. |
| Js.ToLower | src/app/projects/page.tsx:17 | The result has the same length, and each character is lowered. |
| Js.ToLowerIdempotent | src/app/projects/page.tsx:17 | Lowering twice is lowering once, so lowering the filter first changes nothing. |
| Js.IncludesEmpty | src/app/projects/page.tsx:17 | Every string includes the empty string. |
| Js.PrefixIncluded | src/app/projects/page.tsx:17 | A string includes each of its prefixes. |
| Js.NoPairNotIncluded | src/utils/api.ts:26 | A string in which the first two characters of `part` never stand side by side does not include `part`. |
| Js.FilterCount | src/app/projects/page.tsx:15 | `filter` keeps every element the predicate accepts exactly as often as it occurs, and drops every other element. |
| Js.FilterMembership | src/app/projects/page.tsx:15 | An element is in the filtered list if and only if it is in the list and accepted. |
| Js.FilterIsSubsequence | src/app/projects/page.tsx:15 | `filter` returns an order-preserving subsequence of its input. |
| Http.BearerToken | src/utils/api.ts:15 | Reads the token back from a header value of the form `Bearer <token>`; any other value carries none. |
| Http.BearerRoundTrip | src/utils/api.ts:15 | Reading the token back from the header value `Bearer <token>` gives the token that was written. |
| Http.WithBearer | src/utils/api.ts:12-18 | With a truthy token and a headers object, the headers gain exactly the Authorization key. That key carries the token, and every other entry is kept. Otherwise the headers are returned as they were. |
| Http.SessionExpired | src/utils/api.ts:23-26 | The interceptor's test: the status is 401 and the request URL, read as "" when missing, does not contain "/me". |
| Http.Expires | src/utils/api.ts:23-26 | A call outcome to a given path expires the session exactly when it is a failure whose status and that path pass SessionExpired. |
| Http.OnlyUnauthorizedExpires | src/utils/api.ts:26 | No status other than 401 forces the global reset. |
| Http.ProbeNeverExpires | src/utils/api.ts:26 | A URL that contains "/me" anywhere never forces the reset, whatever the status. |
| Http.MissingUrlExpires | src/utils/api.ts:24-26 | A 401 with no request URL forces the reset, because the URL is read as "". |
| Http.MePathIsProbe | src/utils/api.ts:26 | `/auth/me` contains the probe marker. |
| Http.LoginPathIsNotProbe | src/utils/api.ts:26 | `/auth/login` does not contain "/me", so a 401 from it forces the reset. |
| Http.LogoutPathIsNotProbe | src/utils/api.ts:26 | `/auth/logout` does not contain "/me". |
| Http.RegisterPathIsNotProbe | src/utils/api.ts:26 | `/auth/register` does not contain "/me". |
| Http.ProjectsPathIsNotProbe | src/utils/api.ts:26 | `/projects` does not contain "/me". |
| Http.ApiPathExpiresExactlyOn401 | src/utils/api.ts:23-26 | For the login, logout, register and projects endpoints, an outcome expires the session if and only if it is a failure with status 401. |
| Http.MePathNeverExpires | src/utils/api.ts:26 | No outcome of the identity probe expires the session. |
| Client.CookieJar.Remove | src/store/useAuthStore.ts:44 | The token cookie is gone. |
| Client.AuthStore.constructor | src/store/useAuthStore.ts:23-26 | Initial state: no user, not loading, no error. |
| Client.AuthStore.Login | src/store/useAuthStore.ts:28-38 | Sends the login POST with exactly `{email, password}`, and the identity GET only after a successful login. If both succeed, the user is the identity and the error is null. Otherwise the error is "Failed to fetch user data", and the user is kept unless the login call's 401 made the interceptor clear it. `loading` ends false. |
| Client.AuthStore.Logout | src/store/useAuthStore.ts:40-51 | On success the cookie is removed and the user and error are null. On failure the error is "Failed to logout" and the cookie is kept, and so is the user, unless a 401 reset it. `loading` ends false. Exactly one POST is sent. |
| Client.AuthStore.FetchMe | src/store/useAuthStore.ts:53-63 | The user becomes the payload on success and null on any failure. The error is never set, and the probe never triggers the global reset or a navigation. |
| Client.AuthStore.Reset | src/store/useAuthStore.ts:65-71 | The store is in its initial state whatever it was before, so resetting twice is resetting once. |
| Client.ProjectsStore.constructor | src/store/useProjectsStore.ts:28-32 | Initial state: no projects, empty filter, not loading, no error. |
| Client.ProjectsStore.FetchAll | src/store/useProjectsStore.ts:34-44 | Success replaces the projects with the response exactly and leaves no error. Failure sets "Failed to fetch projects" and keeps the projects. The filter is kept, except when a 401 resets the whole store first. `loading` ends false. |
| Client.ProjectsStore.SetFilter | src/store/useProjectsStore.ts:46-48 | Sets the filter and changes no other field. |
| Client.ProjectsStore.Reset | src/store/useProjectsStore.ts:50-57 | All four fields are back at their initial values, whatever they were. |
| Client.Api.OnRequest | src/utils/api.ts:12-18 | The config's headers become WithBearer of the old headers and the current cookie. Method, URL and body are unchanged. |
| Client.Api.OnRejected | src/utils/api.ts:20-33 | On an expired session, both stores are reset and `Replace("/")` is requested. Otherwise nothing changes. The cookie jar is never touched. |
| Client.Api.Send | src/utils/api.ts:20-33 | The outcome returns to the caller unchanged, so no rejection is swallowed or retried. Exactly one request goes out, with the interceptor's headers. Store and router effects happen only when the outcome expires the session. |
| EdgeGuard.Middleware | middleware.ts:4-15 | Redirects exactly when the path starts with `/projects` and the token cookie is missing or empty. The redirect URL is the request URL with only its path replaced by `/`. |
| EdgeGuard.Matcher | middleware.ts:17-19 | The paths `/projects/:path*` selects: `/projects` itself and every path under `/projects/`. |
| EdgeGuard.Dispatch | middleware.ts:17-19 | The edge runs the middleware on matched paths only; every other request goes on. |
| EdgeGuard.MatchedPathsAreProtected | middleware.ts:17-19 | Every path the matcher selects starts with `/projects`. |
| EdgeGuard.EdgeGuardSound | middleware.ts:4-19 | A matched request goes on if and only if its token is truthy. Without a token it is redirected to `/` with its query and fragment kept. |
| EdgeGuard.ModelledPagesMatched | middleware.ts:17-19 | The list page `/projects` and the form `/projects/new` are both selected by the matcher. |
| EdgeGuard.UnmatchedPathsPass | middleware.ts:17-19 | Paths outside the matcher always go on. |
| EdgeGuard.AnyTokenPasses | middleware.ts:8-14 | Any non-empty token lets every request through, whatever its validity. |
| EdgeGuard.ProjectDetailScenario | middleware.ts:8-11 | `/projects/42` is redirected to `/` without a cookie or with an empty one, with its query kept, and goes on with a cookie. |
| RootLayout.RedirectsHome | src/app/layout.tsx:34 | The reactive test: no user is known and the path starts with `/projects`. |
| RootLayout.Mount | src/app/layout.tsx:29-31 | The mount effect sends exactly one identity GET and sets the user from its outcome. It records no error and causes no navigation. |
| RootLayout.GuardEffect | src/app/layout.tsx:33-35 | Requests `Replace("/")` if and only if the user is null and the path starts with `/projects`. |
| RootLayout.RedirectNeedsSignedOutProtectedPath | src/app/layout.tsx:34 | A signed-in user is never redirected, and neither is a missing path. |
| RootLayout.StaleCookieIsCaught | src/app/layout.tsx:34 | On a matched path with a non-empty cookie, the edge lets the request through, and while no user is known the layout redirects to `/`. |
| RootLayout.FirstCommit | src/app/layout.tsx:29-35 | On the first commit of `/projects` or `/projects/new` with no user known, the list page's fetch (on the list's route) and the reactive check give one `Replace("/")`, preceded by the adapter's `Replace("/")` exactly when the list fetch gets a 401. The user stays null. |
| RootLayout.ProbeAnswersOnEntry | src/app/layout.tsx:29-35 | When the probe returns an identity on `/`, the user becomes it and the only navigation is the sign-in page's `Replace("/projects")` (src/app/page.tsx:27-31). |
| RootLayout.ListPageVisit | src/app/layout.tsx:33-35 | On `/projects`, the list fetch and the reactive check give a `Replace("/")` from the adapter on a 401, then one from the check when the user is null afterwards; a 401 clears the user and any other outcome keeps it. |
| RootLayout.StaleCookieScenario | src/app/layout.tsx:29-35 | With a rejected cookie on `/projects` or `/projects/new`, the edge says next. On the first commit the list page (on its route) fetches the list, and the reactive check, before the probe answers, asks for `/`; the failed probe leaves the user null. The navigations are one `Replace("/")`, preceded by the adapter's `Replace("/")` exactly when the list fetch on `/projects` gets a 401. |
| RootLayout.FirstLoadScenario | src/app/layout.tsx:29-35 | With a cookie the probe accepts, on `/projects` or `/projects/new`, the edge says next, the first commit still asks for `/`, and once the probe returns the identity the sign-in page replaces the route with `/projects`, where the list page fetches again. The navigations are `Replace("/")` then `Replace("/projects")`, so the form is not returned to; a 401 on the first list fetch adds one `Replace("/")` before them, and a 401 on the second adds two after them and leaves the user null. |
| LoginPage.ShowsSpinner | src/app/page.tsx:38 | The spinner replaces the form exactly when a user is known or a call is running. |
| LoginPage.ShowsError | src/app/page.tsx:76 | The error alert shows exactly when the store's error is non-empty. |
| LoginPage.SubmitDisabled | src/app/page.tsx:98 | The submit button is disabled exactly while the store is loading. |
| LoginPage.RedirectEffect | src/app/page.tsx:27-31 | Requests `Replace("/projects")` if and only if a user is known. |
| LoginPage.HandleSubmit | src/app/page.tsx:33-36 | The requests sent are the login POST with exactly the entered email and password, then the identity GET only if the POST succeeded. The page inherits the store's outcome for user, error and loading. A 401 from the login endpoint clears the list and asks for `/`; any other outcome leaves the list and the route alone. |
| LoginPage.SignInScenario | src/app/page.tsx:27-52 | After a successful sign-in the spinner shows, no alert shows, and the only navigation is `Replace("/projects")`. |
| LoginPage.WrongPasswordScenario | src/app/page.tsx:27-98 | After a 401 from the login endpoint the form shows again with the error alert and an enabled submit button, and the only navigation is the interceptor's `Replace("/")`. |
| ProjectsPage.Tags | src/app/projects/page.tsx:16 | A project's tags, with missing technologies read as none. |
| ProjectsPage.TagMatches | src/app/projects/page.tsx:17 | A tag matches when its lowered text contains the lowered filter. |
| ProjectsPage.Shown | src/app/projects/page.tsx:16-18 | A project is shown when some tag of it matches the filter. |
| ProjectsPage.Filtered | src/app/projects/page.tsx:15-19 | `filtered`: the store's projects that are shown, in order. |
| ProjectsPage.FilteredExactly | src/app/projects/page.tsx:15-19 | `filtered` holds each project that has a tag whose lowered text contains the lowered filter, as often as in the store, and no other project. |
| ProjectsPage.FilteredKeepsOrder | src/app/projects/page.tsx:15 | `filtered` is an order-preserving subsequence of the store's list. |
| ProjectsPage.UntaggedNeverShown | src/app/projects/page.tsx:16 | A project whose technologies are missing or empty is never shown, not even for the empty filter. |
| ProjectsPage.EmptyFilterShowsTagged | src/app/projects/page.tsx:16-18 | With the empty filter, a project is shown if and only if it has at least one tag. |
| ProjectsPage.FilterIgnoresCase | src/app/projects/page.tsx:17 | Lowering the filter first does not change which projects are shown. |
| ProjectsPage.GoTagMatches | src/app/projects/page.tsx:17 | A filter that lowers to "go" matches the tag `go` and neither `rust` nor `ts`. |
| ProjectsPage.GoFilterKeepsGo | src/app/projects/page.tsx:15-19 | Of the projects tagged `go`, `rust, go` and `ts`, such a filter keeps the first two, in order. |
| ProjectsPage.GoScenario | src/app/projects/page.tsx:15-19 | The filters "go" and "GO" give the same two projects. |
| ProjectsPage.Render | src/app/projects/page.tsx:21-62 | Loading shows the spinner whatever else holds. Otherwise an error shows its alert with the store's message. Otherwise an empty `filtered` shows the notice "No se encontraron proyectos.". Otherwise the grid shows exactly `filtered`. |
| ProjectsPage.GridShowsExactlyMatches | src/app/projects/page.tsx:45-61 | A project has a card in the grid if and only if it is in the store and the filter shows it. |
| ProjectsPage.Mount | src/app/projects/page.tsx:11-13 | The mount effect sends exactly one GET of `/projects`. Success shows the response exactly with no error and the filter kept. A failure sets "Failed to fetch projects"; a non-401 failure keeps the list, the filter, the session and the route, while a 401 clears the list, the filter and the session and asks for `/`. `loading` ends false. |
| NewProjectPage.WellFormedHasNoDuplicates | src/app/projects/new/page.tsx:33-43 | In a tag list that keeps the form's invariant, tags at different positions differ. |
| NewProjectPage.Without | src/app/projects/new/page.tsx:42 | `t.filter((x) => x !== tech)`: the tags other than `tech`, in order. |
| NewProjectPage.WithoutSpec | src/app/projects/new/page.tsx:41-43 | Removing a tag drops every copy of it and keeps each other tag as often as before, in order. |
| NewProjectPage.RemovePreservesWellFormed | src/app/projects/new/page.tsx:41-43 | Removing keeps the tags non-empty, trimmed and duplicate-free. |
| NewProjectPage.AddPreservesWellFormed | src/app/projects/new/page.tsx:33-39 | Appending a non-empty trimmed input that is not yet listed keeps the tags non-empty, trimmed and duplicate-free. |
| NewProjectPage.FormForIsUnique | src/app/projects/new/page.tsx:57-62 | The field order fixes the entry list completely. |
| NewProjectPage.BuildFormData | src/app/projects/new/page.tsx:57-62 | The entries are title, description, url, one `technologies[]` entry per tag in list order, and then `image` only when a file is chosen. |
| NewProjectPage.NewProjectForm.constructor | src/app/projects/new/page.tsx:24-31 | Initial state: empty fields and tag list, no image, not saving, no error, and the tag invariant holds. |
| NewProjectPage.NewProjectForm.AddTech | src/app/projects/new/page.tsx:33-39 | A non-empty trimmed input not yet listed is appended and the input cleared. A blank or duplicate input changes neither the list nor the input. The tag invariant is kept. |
| NewProjectPage.NewProjectForm.RemoveTech | src/app/projects/new/page.tsx:41-43 | The list becomes `Without(list, tech)`, and the tag invariant is kept. |
| NewProjectPage.NewProjectForm.FileChange | src/app/projects/new/page.tsx:45-49 | The image becomes the first picked file, and is unchanged when no file was picked. The tag invariant is kept. |
| NewProjectPage.NewProjectForm.Submit | src/app/projects/new/page.tsx:51-74 | One multipart POST to `/projects` goes out, with the entries of BuildFormData and the bearer header. Success pushes `/projects` with no error. Failure sets "Error al crear el proyecto". A 401 resets the session and the list and asks for `/` first; any other outcome leaves session, list and route alone. `saving` ends false, and the tag invariant is kept. |
| NewProjectPage.TrimPadded | src/app/projects/new/page.tsx:34 | A tag typed with a space on each side trims to the tag. |
| NewProjectPage.DuplicateTagScenario | src/app/projects/new/page.tsx:33-39 | Adding ` tag ` and then `tag` gives the list `[tag]`, with the second input left as typed. |
| RegisterPage.SignUp | src/app/register/page.tsx:34 | The JSON body has the keys name, email and password, in that order. |
| RegisterPage.SignUpDeterminedByAccount | src/app/register/page.tsx:34 | The sign-up body is injective: two bodies are equal if and only if their names, emails and passwords are. |
| RegisterPage.RegisterForm.constructor | src/app/register/page.tsx:18-23 | Initial state: empty fields, not loading, no error. |
| RegisterPage.RegisterForm.Submit | src/app/register/page.tsx:25-41 | A mismatch sets "Las contraseñas no coinciden", sends nothing and leaves `loading` alone. Otherwise one POST of SignUp goes out. Success pushes `/` with no error. Failure sets "Error al registrar". A 401 resets the session and the list and asks for `/` first; any other outcome leaves session, list and route alone. `loading` ends false. |
| RegisterPage.MismatchScenario | src/app/register/page.tsx:27-30 | A confirmation typo shows the mismatch error, with no request and no navigation. |
| RegisterPage.ConflictScenario | src/app/register/page.tsx:33-40 | A 409 shows the sign-up error and causes no navigation, and a user the probe had already found stays signed in with the cookie unchanged. |
| ProjectsLayout.Shell.constructor | src/app/projects/layout.tsx:40-41 | Snackbar and drawer start closed, and no timer is pending. |
| ProjectsLayout.Shell.HandleLogout | src/app/projects/layout.tsx:45-51 | Both stores end in their initial state whatever logout did, so the "Failed to logout" error is cleared too. The cookie is removed only on success. The snackbar opens, and a timer for the push to `/` is queued; the only navigation so far is the interceptor's on a 401. |
| ProjectsLayout.Shell.FireTimer | src/app/projects/layout.tsx:50 | The oldest pending timer runs its navigation and leaves the queue. |
| ProjectsLayout.Shell.ToggleDrawer | src/app/projects/layout.tsx:53-55 | Negates `drawerOpen`. |
| ProjectsLayout.Shell.ToggleTwice | src/app/projects/layout.tsx:53-55 | Toggling twice leaves the drawer as it was. |
| ProjectsLayout.OnSearchInput | src/app/projects/layout.tsx:116-117 | The store's filter becomes the typed value, and no other store field changes. |
| ProjectsLayout.FailedLogoutScenario | src/app/projects/layout.tsx:45-51 | Starting signed in, with the list fetched and a filter typed, signing out while the API is down clears both stores and keeps the cookie. The layout's check (src/app/layout.tsx:33-35) replaces the route with `/` at once, and the timed push to `/` follows: exactly `Replace("/")`, then `Push("/")`. |

## Left out

- Rendering: JSX markup, MUI components, theme, fonts and breakpoints. This includes src/components/ProjectCard.tsx and the detail and edit pages; they are not part of this model.
- The navigation buttons ("Registrarse", "Add New", "Projects"): each is a single `router.push` with no logic.
- Text-field `onChange` handlers: they are plain setters, so they are written as direct field assignments.
- The internals of axios, js-cookie and the Next.js runtime:
  - base URL and `withCredentials`;
  - JSON serialisation;
  - the multipart boundary;
  - the `Set-Cookie` header with which the server sets the token cookie at sign-in.

  `Client.AuthStore.Login` therefore leaves the cookie jar unchanged.
- `Router.replace` in the response interceptor comes from `next/router`. It is modelled as a navigation request, without modelling whether that router is mounted under the app router.
- `RootLayout.StaleCookieScenario`, `RootLayout.FirstLoadScenario`, `ProjectsLayout.FailedLogoutScenario`: React's effects are written as explicit calls in commit order, the page's effect before the layout's. Each call reads the store as it stands at that point, which is the state of the render that scheduled the effect; an effect is called again only where one of its dependencies changed. A store call is atomic given its outcome, so an answer is taken to arrive at the point of its call: a list fetch answers before the probe, and both before the navigation lands.
- The detail and edit pages under `/projects/[id]` fetch on mount too; they are not part of this model, so the scenarios start only on `/projects` and `/projects/new`, whose mount effects are all composed.
- Concurrency: overlapping calls and stale writes between `login`, `reset` and `fetchAll` are not modelled. Each operation is atomic given its outcomes, and React state updates take effect immediately.
- `ProjectsLayout.Shell.HandleLogout`: the 1000 ms of the `setTimeout` are not measured. The timer is an entry in `Shell.timers`, and `Shell.FireTimer` runs it whenever the caller says the delay is over.
- `Js.ToLower`: lowers only ASCII and Latin-1 capital letters. Other scripts and the special cases of Unicode case mapping (for example U+0130) are left unchanged.
- `EdgeGuard.Matcher`: models `/projects/:path*` as the path `/projects` itself or any path under `/projects/`. Trailing-slash normalisation, encoded characters and `_next` internals of the path matcher are not modelled.
- File contents: a picked file is only its name.
