/** The login form: two field validators, and the form's state with its
    keystroke, blur, submit and GitHub handlers, each one atomic step over
    the state it starts from. */
module LoginForm {
  import opened Patterns
  import opened AuthCalls
  import SignupForm

  const EMAIL_REQUIRED := "Email is required"
  const EMAIL_INVALID := "Please enter a valid email address"
  const PASSWORD_REQUIRED := "Password is required"
  const LOGIN_FAILED_TITLE := "Login Failed"
  const LOGIN_REJECTED := "Invalid email or password. Please try again."
  const LOGIN_FAILED := "Failed to login. Please check your credentials."
  const LOGIN_OK_TITLE := "Login Successful!"
  const LOGIN_OK := "Welcome back! Redirecting to dashboard..."
  const GITHUB_LOGIN_FAILED_TITLE := "GitHub Login Failed"

  /** Required, then the email pattern (the same test as on the sign-up form). */
  function ValidateEmail(email: string): (e: string)
    ensures e == "" || e == EMAIL_REQUIRED || e == EMAIL_INVALID
  {
    if email == "" then EMAIL_REQUIRED
    else if !MatchesEmail(email) then EMAIL_INVALID
    else ""
  }

  /** Only presence is checked: there are no strength rules at login. */
  function ValidatePassword(password: string): (e: string)
    ensures e == "" || e == PASSWORD_REQUIRED
  {
    if password == "" then PASSWORD_REQUIRED else ""
  }

  /** The login form's email check accepts and rejects exactly as the
      sign-up form's does, with the same messages. */
  lemma EmailAgreesWithSignup(email: string)
    ensures ValidateEmail(email) == SignupForm.ValidateEmail(email)
    ensures ValidateEmail(email) == "" <==> EmailShape(email)
  {
    SignupForm.EmailVerdicts(email);
  }

  /** Any password non-empty passes at login, and every password the
      sign-up form accepts passes at login too. */
  lemma PasswordVerdicts(password: string)
    ensures ValidatePassword(password) == "" <==> password != ""
    ensures ValidatePassword(password) != "" ==> ValidatePassword(password) == PASSWORD_REQUIRED
    ensures SignupForm.ValidatePassword(password) == "" ==> ValidatePassword(password) == ""
  {
  }

  /** What follows a sign-in call, by how it ended. */
  function SubmitReaction(outcome: ApiOutcome): (r: seq<Effect>)
    ensures |r| >= 1
  {
    match outcome
    case Ok => [Notified(SuccessToast, LOGIN_OK_TITLE, LOGIN_OK), Navigated(DASHBOARD_ROUTE)]
    case ReturnedError(m) => [Notified(ErrorToast, LOGIN_FAILED_TITLE, ReturnedMessage(m, LOGIN_REJECTED))]
    case Threw(t) => [Notified(ErrorToast, LOGIN_FAILED_TITLE, ThrownMessage(t, LOGIN_FAILED))]
  }

  /** Exactly one of "navigate to the dashboard" and "notify a failure"
      follows a sign-in call; a returned error with no message is reported
      as rejected credentials, a thrown value without one as a failed login. */
  lemma SubmitConcludesOnce(outcome: ApiOutcome)
    ensures Navigated(DASHBOARD_ROUTE) in SubmitReaction(outcome) <==> outcome.Ok?
    ensures (exists k :: 0 <= k < |SubmitReaction(outcome)| && SubmitReaction(outcome)[k].Notified?
                         && SubmitReaction(outcome)[k].kind == ErrorToast)
            <==> !outcome.Ok?
    ensures outcome.ReturnedError? ==> SubmitReaction(outcome)[0].description != ""
    ensures outcome == ReturnedError("") ==> SubmitReaction(outcome)[0].description == LOGIN_REJECTED
    ensures outcome.ReturnedError? && outcome.message != ""
            ==> SubmitReaction(outcome)[0].description == outcome.message
    ensures outcome.Threw? ==> SubmitReaction(outcome)[0].description == ThrownMessage(outcome.thrown, LOGIN_FAILED)
    ensures outcome.Threw? && CarriesNoMessage(outcome.thrown)
            ==> SubmitReaction(outcome)[0].description == LOGIN_FAILED
  {
    if !outcome.Ok? { assert SubmitReaction(outcome)[0].kind == ErrorToast; }
  }

  /** Both validators accept exactly the inputs a submit lets through. */
  predicate AllFieldsValid(email: string, password: string) {
    ValidateEmail(email) == "" && ValidatePassword(password) == ""
  }

  /** The form's state as one value: the two fields, their errors, and
      whether an authentication call is in progress. */
  datatype State = State(
    email: string, password: string, emailError: string, passwordError: string, loading: bool)

  class Form {
    var email: string
    var password: string
    var emailError: string
    var passwordError: string
    var loading: bool
    /** The calls, notifications and navigation so far, in order. */
    ghost var effects: seq<Effect>
    /** `loading` stays set exactly when the last effect leaves the page:
        every failure clears it. */
    ghost predicate Valid()
      reads this
    {
      loading <==> effects != [] && IsLeaving(effects[|effects| - 1])
    }

    function Snapshot(): State
      reads this
    {
      State(email, password, emailError, passwordError, loading)
    }

    constructor ()
      ensures Valid()
      ensures Snapshot() == State("", "", "", "", false)
      ensures effects == []
    {
      email, password, emailError, passwordError := "", "", "", "";
      loading := false;
      effects := [];
    }

    method HandleEmailChange(value: string)
      requires Valid() && !loading
      modifies this
      ensures Valid() && effects == old(effects)
      ensures Snapshot() == old(Snapshot()).(
                email := value,
                emailError := SignupForm.KeystrokeError(old(emailError), value, ValidateEmail(value)))
    {
      email := value;
      if emailError != "" && value != "" {
        emailError := ValidateEmail(value);
      }
    }

    method HandlePasswordChange(value: string)
      requires Valid() && !loading
      modifies this
      ensures Valid() && effects == old(effects)
      ensures Snapshot() == old(Snapshot()).(
                password := value,
                passwordError := SignupForm.KeystrokeError(old(passwordError), value, ValidatePassword(value)))
    {
      password := value;
      if passwordError != "" && value != "" {
        passwordError := ValidatePassword(value);
      }
    }

    method HandleEmailBlur()
      requires Valid() && !loading
      modifies this
      ensures Valid() && effects == old(effects)
      ensures Snapshot() == old(Snapshot()).(emailError := ValidateEmail(email))
    {
      emailError := ValidateEmail(email);
    }

    method HandlePasswordBlur()
      requires Valid() && !loading
      modifies this
      ensures Valid() && effects == old(effects)
      ensures Snapshot() == old(Snapshot()).(passwordError := ValidatePassword(password))
    {
      passwordError := ValidatePassword(password);
    }

    /** Re-validates both fields and overwrites both errors; only when both
        pass does it set `loading` and call the client, whose `outcome` then
        decides between navigation and a failure notice. */
    method HandleSubmit(outcome: ApiOutcome)
      requires Valid() && !loading
      modifies this
      ensures Valid()
      ensures email == old(email) && password == old(password)
      ensures emailError == ValidateEmail(email) && passwordError == ValidatePassword(password)
      ensures if AllFieldsValid(email, password) then
                && loading == outcome.Ok?
                && effects == old(effects) + [Called(SignInEmail(email, password))] + SubmitReaction(outcome)
              else
                && !loading
                && effects == old(effects) + [Notified(ErrorToast, VALIDATION_TITLE, VALIDATION_DESCRIPTION)]
    {
      emailError := ValidateEmail(email);
      passwordError := ValidatePassword(password);

      if !AllFieldsValid(email, password) {
        effects := effects + [Notified(ErrorToast, VALIDATION_TITLE, VALIDATION_DESCRIPTION)];
        return;
      }

      loading := true;
      effects := effects + [Called(SignInEmail(email, password))];
      effects := effects + SubmitReaction(outcome);
      if !outcome.Ok? {
        loading := false;
      }
    }

    /** Sets `loading` before asking the client to start the GitHub sign-in;
        clears it only when the call reports or throws an error. */
    method HandleGitHubLogin(outcome: ApiOutcome)
      requires Valid() && !loading
      modifies this
      ensures Valid()
      ensures Snapshot() == old(Snapshot()).(loading := outcome.Ok?)
      ensures effects == old(effects) + [Called(SignInSocial("github", DASHBOARD_ROUTE))]
                                      + GitHubReaction(outcome, GITHUB_LOGIN_FAILED_TITLE)
    {
      loading := true;
      effects := effects + [Called(SignInSocial("github", DASHBOARD_ROUTE))];
      effects := effects + GitHubReaction(outcome, GITHUB_LOGIN_FAILED_TITLE);
      if !outcome.Ok? {
        loading := false;
      }
    }
  }

  /** A login with an empty password is stopped before the client is
      called, and both fields are flagged when the email is missing too. */
  method EmptySubmitScenario() returns (emailShown: string, passwordShown: string, ghost called: bool)
    ensures emailShown == EMAIL_REQUIRED && passwordShown == PASSWORD_REQUIRED && !called
  {
    var form := new Form();
    form.HandleSubmit(Ok);
    emailShown, passwordShown := form.emailError, form.passwordError;
    called := exists k :: 0 <= k < |form.effects| && form.effects[k].Called?;
  }
}
