/** The sign-up page of src/app/register/page.tsx: it refuses a password
    that differs from its confirmation without calling the API, and
    otherwise posts the name, email and password once, moves on to the entry
    route on success and shows an error on failure. */
module RegisterPage {
  import opened Js
  import opened Entities
  import opened Http
  import opened Client

  const MismatchError := "Las contraseñas no coinciden"
  const RegisterError := "Error al registrar"

  /** The JSON body of the sign-up call: the three account fields, in this
      order; the confirmation is not among them. */
  function SignUp(name: string, email: string, password: string): (b: Body)
    ensures b.Json? && |b.fields| == 3
    ensures b.fields[0].0 == "name" && b.fields[1].0 == "email" && b.fields[2].0 == "password"
  {
    Json([("name", name), ("email", email), ("password", password)])
  }

  /** The sign-up body is injective: two bodies are equal exactly when
      their names, emails and passwords are. */
  lemma SignUpDeterminedByAccount(n1: string, e1: string, p1: string,
                                                     n2: string, e2: string, p2: string)
    ensures SignUp(n1, e1, p1) == SignUp(n2, e2, p2) <==> n1 == n2 && e1 == e2 && p1 == p2
  {
    if SignUp(n1, e1, p1) == SignUp(n2, e2, p2) {
      assert SignUp(n1, e1, p1).fields[0].1 == n1 && SignUp(n2, e2, p2).fields[0].1 == n2;
      assert SignUp(n1, e1, p1).fields[1].1 == e1 && SignUp(n2, e2, p2).fields[1].1 == e2;
      assert SignUp(n1, e1, p1).fields[2].1 == p1 && SignUp(n2, e2, p2).fields[2].1 == p2;
    }
  }

  /** The form's state. */
  class RegisterForm {
    var name: string
    var email: string
    var password: string
    var confirm: string
    var loading: bool
    var error: Option<string>

    constructor ()
      ensures name == "" && email == "" && password == "" && confirm == ""
      ensures !loading && error == None
    {
      name, email, password, confirm := "", "", "", "";
      loading, error := false, None;
    }

    /** `handleSubmit`. A mismatch records its error and stops: no request,
        and `loading` as it was. Otherwise exactly one POST of SignUp goes
        out; success leaves no error and pushes the entry route, failure
        records the sign-up error (after the adapter's reset of the session
        and the list on a 401; no other outcome touches either), and
        `loading` is false at the end. The fields are untouched. */
    method Submit(api: Api, res: Response<()>)
      modifies this`loading, this`error, api.auth, api.projects, api.router, api.network
      ensures password != confirm ==>
        error == Some(MismatchError) && loading == old(loading) &&
        unchanged(api.auth, api.projects, api.router, api.network)
      ensures password == confirm ==> !loading
      ensures password == confirm ==>
        api.network.sent == old(api.network.sent) +
                            [Outgoing(Post, RegisterPath, SignUp(name, email, password), api.cookies.token)]
      ensures password == confirm && res.Ok? ==>
        error == None && api.router.log == old(api.router.log) + [Push(EntryRoute)]
      ensures password == confirm && res.Fail? ==>
        error == Some(RegisterError) &&
        api.router.log == old(api.router.log) + if Expires(res, RegisterPath) then [Replace(EntryRoute)] else []
      ensures password == confirm && Expires(res, RegisterPath) ==> api.auth.Cleared() && api.projects.Cleared()
      ensures password == confirm && !Expires(res, RegisterPath) ==> unchanged(api.auth, api.projects)
    {
      if password != confirm {
        error := Some(MismatchError);
        return;
      }
      loading := true;
      error := None;
      var r := api.Send(Post, RegisterPath, Some(map[]), SignUp(name, email, password), res);
      if r.Ok? {
        api.router.Navigate(Push(EntryRoute));
      } else {
        error := Some(RegisterError);
      }
      loading := false;
    }
  }

  /** A confirmation typo: the alert says so, nothing is sent and nothing
      navigates. */
  method MismatchScenario(token: Option<string>) returns (error: Option<string>, sent: nat, nav: nat)
    ensures error == Some(MismatchError) && sent == 0 && nav == 0
  {
    var api := new Api(token);
    var form := new RegisterForm();
    form.password, form.confirm := "secret", "secreto";
    form.Submit(api, Ok(()));
    error, sent, nav := form.error, |api.network.sent|, |api.router.log|;
  }

  /** An existing account makes the API answer 409: the form shows the
      sign-up error and the page stays where it is. A visitor whose session
      the identity probe had already established stays signed in, and the
      cookie stays as it was. */
  method ConflictScenario(token: Option<string>, me: User)
    returns (error: Option<string>, nav: seq<Navigation>, user: Option<User>, cookie: Option<string>)
    ensures error == Some(RegisterError) && nav == []
    ensures user == Some(me) && cookie == token
  {
    var api := new Api(token);
    api.auth.FetchMe(api, Ok(me));
    var form := new RegisterForm();
    form.Submit(api, Fail(Some(409)));
    error, nav, user, cookie := form.error, api.router.log, api.auth.user, api.cookies.token;
  }
}
