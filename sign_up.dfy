/**
 * The registration page (frontend/src/pages/SignUpPage.tsx): the form's client-side rules, the request it
 * sends, and the page's loading/error state around the call.
 */
module SignUp {
  import opened Base
  import opened Text
  import opened Models
  import opened AuthForms
  import AuthValidators

  datatype SignUpForm = SignUpForm(name: string, username: string, email: string, password: string, confirmPassword: string)

  /** One message per field, None where the field passes. */
  datatype SignUpErrors = SignUpErrors(
    name: Option<string>,
    username: Option<string>,
    email: Option<string>,
    password: Option<string>,
    confirmPassword: Option<string>)

  const NameTooShort := "Name must have at least 2 letters"
  const UsernameTooShort := "Username must be at least 3 characters"
  const EmailInvalid := "Invalid email"
  const PasswordTooShort := "Password must be at least 6 characters"
  const PasswordsDiffer := "Passwords do not match"
  const RegistrationFailed := "Registration failed"

  /** `^\S+@\S+$` in JavaScript, where \s also takes the vertical tab: no white space, and an '@' with something on each side. */
  predicate MatchesEmail(s: string) {
    (forall i :: 0 <= i < |s| ==> !IsSpace(s[i])) && exists i :: 0 < i < |s| - 1 && s[i] == '@'
  }

  /** The form's validate rules: lengths of the raw (untrimmed) text, the e-mail pattern and the confirmation. */
  function Validate(form: SignUpForm): (errors: SignUpErrors)
    ensures errors.name == None <==> |form.name| >= 2
    ensures errors.name != None ==> errors.name == Some(NameTooShort)
    ensures errors.username == None <==> |form.username| >= 3
    ensures errors.username != None ==> errors.username == Some(UsernameTooShort)
    ensures errors.email == None <==> MatchesEmail(form.email)
    ensures errors.email != None ==> errors.email == Some(EmailInvalid)
    ensures errors.password == None <==> |form.password| >= 6
    ensures errors.password != None ==> errors.password == Some(PasswordTooShort)
    ensures errors.confirmPassword == None <==> form.confirmPassword == form.password
    ensures errors.confirmPassword != None ==> errors.confirmPassword == Some(PasswordsDiffer)
  {
    SignUpErrors(
      if |form.name| < 2 then Some(NameTooShort) else None,
      if |form.username| < 3 then Some(UsernameTooShort) else None,
      if MatchesEmail(form.email) then None else Some(EmailInvalid),
      if |form.password| < 6 then Some(PasswordTooShort) else None,
      if form.confirmPassword != form.password then Some(PasswordsDiffer) else None)
  }

  predicate NoErrors(errors: SignUpErrors) {
    errors == SignUpErrors(None, None, None, None, None)
  }

  /** sanitizedData: name and username trimmed, e-mail trimmed and lower-cased, password as typed; the confirmation is not sent. */
  function Sanitize(form: SignUpForm): (req: RegisterRequest)
    ensures req.name == TrimSpace(form.name) && req.username == TrimSpace(form.username)
    ensures req.email == ToLower(TrimSpace(form.email))
    ensures req.password == form.password
  {
    RegisterRequest(TrimSpace(form.name), TrimSpace(form.username), ToLower(TrimSpace(form.email)), form.password)
  }

  /**
   * An e-mail the page accepts, and that is at most 100 characters long, is one the server accepts once
   * sanitised: the page's \s is wider than the server's, trimming leaves it as it is and lower-casing keeps
   * the '@' and adds no white space.
   */
  lemma AcceptedEmailPassesServer(form: SignUpForm)
    requires MatchesEmail(form.email) && |form.email| <= 100
    ensures AuthValidators.ValidateEmail(Sanitize(form).email) == None
  {
    var e := form.email;
    TrimNoEdgeSpace(e);
    var lowered := ToLower(e);
    var i :| 0 < i < |e| - 1 && e[i] == '@';
    assert lowered[i] == '@';
    assert forall k :: 0 <= k < |lowered| ==> !IsSpace(lowered[k]) && !IsPerlSpace(lowered[k]);
    TrimNoEdgeSpace(lowered);
    assert AuthValidators.MatchesEmailPattern(lowered);
  }

  /** A password the page accepts, and that is at most 100 characters long, is one the server accepts. */
  lemma AcceptedPasswordPassesServer(form: SignUpForm)
    requires Validate(form).password == None && |form.password| <= 100
    ensures AuthValidators.ValidatePassword(Sanitize(form).password) == None
  {
  }

  /**
   * The page measures the name before trimming and the server after: two spaces pass the page's rule and
   * are then refused by the server as a missing name.
   */
  lemma BlankNamePassesPageOnly()
    ensures Validate(SignUpForm("  ", "johndoe", "j@x.io", "secret1", "secret1")).name == None
    ensures AuthValidators.ValidateName(Sanitize(SignUpForm("  ", "johndoe", "j@x.io", "secret1", "secret1")).name) ==
      Some(AuthValidators.NameRequired)
  {
    assert AllSpace("  ");
  }

  /** How the register call went: accepted, or rejected with what the error carried. */
  datatype RegisterOutcome = Registered | RegisterRejected(failure: SubmitFailure)

  class SignUpPage {
    var loading: bool
    var error: Option<string>
    var formErrors: SignUpErrors
    /** Where the page has sent the browser, if anywhere. */
    var navigatedTo: Option<string>

    constructor ()
      ensures !loading && error == None && NoErrors(formErrors) && navigatedTo == None
    {
      loading := false;
      error := None;
      formErrors := SignUpErrors(None, None, None, None, None);
      navigatedTo := None;
    }

    /**
     * form.onSubmit(handleSubmit): a form with any failing rule shows its messages and sends nothing; a
     * passing one sends the sanitised request, then either goes home or shows the failure's message.
     * Loading is off at the end in every case.
     */
    method Submit(form: SignUpForm, outcome: RegisterOutcome) returns (sent: Option<RegisterRequest>)
      modifies this
      ensures formErrors == Validate(form)
      ensures sent.Some? <==> NoErrors(Validate(form))
      ensures sent.Some? ==> sent.value == Sanitize(form)
      ensures sent.None? ==> loading == old(loading) && error == old(error) && navigatedTo == old(navigatedTo)
      ensures sent.Some? ==> !loading
      ensures sent.Some? && outcome.Registered? ==> error == None && navigatedTo == Some("/")
      ensures sent.Some? && outcome.RegisterRejected? ==>
        error == Some(ErrorMessage(outcome.failure, RegistrationFailed)) && navigatedTo == old(navigatedTo)
    {
      formErrors := Validate(form);
      if !NoErrors(formErrors) {
        return None;
      }
      loading := true;
      error := None;
      var request := Sanitize(form);
      sent := Some(request);
      match outcome {
        case Registered =>
          navigatedTo := Some("/");
        case RegisterRejected(failure) =>
          error := Some(ErrorMessage(failure, RegistrationFailed));
      }
      loading := false;
    }
  }
}
