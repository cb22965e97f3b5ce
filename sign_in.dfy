/**
 * The sign-in page (frontend/src/pages/SignInPage.tsx): the form's client-side rules, where a successful
 * sign-in returns to, and the page's loading/error state around the call.
 */
module SignIn {
  import opened Base
  import opened Models
  import opened AuthForms
  import AuthValidators
  import Text

  /** One message per field, None where the field passes. */
  datatype SignInErrors = SignInErrors(username: Option<string>, password: Option<string>)

  const UsernameRequired := "Username is required"
  const PasswordTooShort := "Password must be at least 6 characters"
  const LoginFailed := "Login failed"

  /** The form's validate rules on the raw text: a username of any length but zero, a password of six or more. */
  function Validate(form: LoginRequest): (errors: SignInErrors)
    ensures errors.username == None <==> form.username != ""
    ensures errors.username != None ==> errors.username == Some(UsernameRequired)
    ensures errors.password == None <==> |form.password| >= 6
    ensures errors.password != None ==> errors.password == Some(PasswordTooShort)
  {
    SignInErrors(
      if |form.username| < 1 then Some(UsernameRequired) else None,
      if |form.password| < 6 then Some(PasswordTooShort) else None)
  }

  /** Every login the server would accept passes the page's rules first. */
  lemma ServerValidLoginPassesPage(form: LoginRequest)
    requires AuthValidators.ValidateLoginRequest(form) == None
    ensures Validate(form) == SignInErrors(None, None)
  {
  }

  /** The page is looser than the server: a two-letter username passes the page and is refused by the server. */
  lemma ShortUsernamePassesPageOnly()
    ensures Validate(LoginRequest("jo", "secret1")) == SignInErrors(None, None)
    ensures AuthValidators.ValidateLoginRequest(LoginRequest("jo", "secret1")) == Some(AuthValidators.UsernameTooShort)
  {
    assert !Text.IsSpace("jo"[0]);
    assert !Text.IsSpace("secret1"[0]);
  }

  /** `location.state?.from?.pathname || '/'`: the page the visitor was turned away from, or home. */
  function RedirectTarget(fromPathname: Option<string>): (path: string)
    ensures path != ""
    ensures Truthy(fromPathname) ==> path == fromPathname.value
    ensures !Truthy(fromPathname) ==> path == "/"
  {
    if Truthy(fromPathname) then fromPathname.value else "/"
  }

  /** A navigation: the path, and whether it replaces the current history entry. */
  datatype Navigation = Navigation(path: string, replace: bool)

  /** How the login call went: accepted, or rejected with what the error carried. */
  datatype LoginOutcome = LoggedIn | LoginRejected(failure: SubmitFailure)

  class SignInPage {
    /** The pathname the route guard recorded when it sent the visitor here, if any. */
    const fromPathname: Option<string>
    var loading: bool
    var error: Option<string>
    var formErrors: SignInErrors
    var navigation: Option<Navigation>

    constructor (fromPathname: Option<string>)
      ensures this.fromPathname == fromPathname
      ensures !loading && error == None && formErrors == SignInErrors(None, None) && navigation == None
    {
      this.fromPathname := fromPathname;
      loading := false;
      error := None;
      formErrors := SignInErrors(None, None);
      navigation := None;
    }

    /**
     * form.onSubmit(handleSubmit): a form with a failing rule shows its messages and sends nothing; a
     * passing one sends the credentials as typed, then either replaces the page with the redirect target
     * or shows the failure's message. Loading is off once the call has settled.
     */
    method Submit(form: LoginRequest, outcome: LoginOutcome) returns (sent: Option<LoginRequest>)
      modifies this
      ensures formErrors == Validate(form)
      ensures sent.Some? <==> Validate(form) == SignInErrors(None, None)
      ensures sent.Some? ==> sent.value == form && !loading
      ensures sent.None? ==> loading == old(loading) && error == old(error) && navigation == old(navigation)
      ensures sent.Some? && outcome.LoggedIn? ==>
        error == None && navigation == Some(Navigation(RedirectTarget(fromPathname), true))
      ensures sent.Some? && outcome.LoginRejected? ==>
        error == Some(ErrorMessage(outcome.failure, LoginFailed)) && navigation == old(navigation)
    {
      formErrors := Validate(form);
      if formErrors != SignInErrors(None, None) {
        return None;
      }
      loading := true;
      error := None;
      sent := Some(form);
      match outcome {
        case LoggedIn =>
          navigation := Some(Navigation(RedirectTarget(fromPathname), true));
        case LoginRejected(failure) =>
          error := Some(ErrorMessage(failure, LoginFailed));
      }
      loading := false;
    }
  }
}
