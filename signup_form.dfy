/** The sign-up form: four field validators, and the form's state with its
    keystroke, blur, submit and GitHub handlers, each one atomic step over
    the state it starts from. */
module SignupForm {
  import opened Text
  import opened Patterns
  import opened AuthCalls

  const NAME_REQUIRED := "Full name is required"
  const NAME_TOO_SHORT := "Name must be at least 2 characters"
  const NAME_TOO_LONG := "Name must be less than 50 characters"
  const EMAIL_REQUIRED := "Email is required"
  const EMAIL_INVALID := "Please enter a valid email address"
  const PASSWORD_REQUIRED := "Password is required"
  const PASSWORD_TOO_SHORT := "Password must be at least 8 characters"
  const PASSWORD_NO_LOWER := "Password must contain at least one lowercase letter"
  const PASSWORD_NO_UPPER := "Password must contain at least one uppercase letter"
  const PASSWORD_NO_DIGIT := "Password must contain at least one number"
  const CONFIRM_REQUIRED := "Please confirm your password"
  const CONFIRM_MISMATCH := "Passwords do not match"
  const SIGNUP_FAILED_TITLE := "Signup Failed"
  const SIGNUP_FAILED := "Failed to create account. Please try again."
  const SIGNUP_OK_TITLE := "Account Created Successfully!"
  const SIGNUP_OK := "Welcome! Redirecting to dashboard..."
  const GITHUB_SIGNUP_FAILED_TITLE := "GitHub Signup Failed"

  /** The name, trimmed, must be 2 to 50 characters long. */
  function ValidateName(name: string): (e: string)
    ensures e == "" || e == NAME_REQUIRED || e == NAME_TOO_SHORT || e == NAME_TOO_LONG
  {
    if Trim(name) == "" then NAME_REQUIRED
    else if |Trim(name)| < 2 then NAME_TOO_SHORT
    else if |Trim(name)| > 50 then NAME_TOO_LONG
    else ""
  }

  /** The verdicts of `ValidateName`: valid exactly for 2 to 50 characters
      after trimming (50 itself passes, although the message for long names
      reads "less than 50"), and "required" exactly for blank names. */
  lemma NameVerdicts(name: string)
    ensures ValidateName(name) == "" <==> 2 <= |Trim(name)| <= 50
    ensures ValidateName(name) == NAME_REQUIRED <==> AllWhitespace(name)
    ensures ValidateName(name) == NAME_TOO_SHORT <==> |Trim(name)| == 1
    ensures ValidateName(name) == NAME_TOO_LONG <==> |Trim(name)| > 50
  {
    TrimEmptyIffBlank(name);
  }

  /** Required, then the email pattern. */
  function ValidateEmail(email: string): (e: string)
    ensures e == "" || e == EMAIL_REQUIRED || e == EMAIL_INVALID
  {
    if email == "" then EMAIL_REQUIRED
    else if !MatchesEmail(email) then EMAIL_INVALID
    else ""
  }

  /** The verdicts of `ValidateEmail`: valid exactly for strings with no
      whitespace, one `@` with something before it, and a `.` after it with a
      character on either side. */
  lemma EmailVerdicts(email: string)
    ensures ValidateEmail(email) == "" <==> EmailShape(email)
    ensures ValidateEmail(email) == EMAIL_REQUIRED <==> email == ""
    ensures ValidateEmail(email) == EMAIL_INVALID <==> email != "" && !EmailShape(email)
  {
    MatchesEmailIffShape(email);
  }

  /** The password rules, tried in order; the first one broken names the error. */
  function ValidatePassword(password: string): (e: string)
    ensures e in {"", PASSWORD_REQUIRED, PASSWORD_TOO_SHORT, PASSWORD_NO_LOWER, PASSWORD_NO_UPPER, PASSWORD_NO_DIGIT}
  {
    if password == "" then PASSWORD_REQUIRED
    else if |password| < 8 then PASSWORD_TOO_SHORT
    else if !HasLower(password) then PASSWORD_NO_LOWER
    else if !HasUpper(password) then PASSWORD_NO_UPPER
    else if !HasDigit(password) then PASSWORD_NO_DIGIT
    else ""
  }

  /** The verdicts of `ValidatePassword`: valid exactly for 8 or more
      characters with a lower-case letter, an upper-case letter and a digit;
      otherwise the message of the first rule broken, in the order
      required, length, lower-case, upper-case, digit. */
  lemma PasswordVerdicts(password: string)
    ensures ValidatePassword(password) == ""
            <==> |password| >= 8 && HasLower(password) && HasUpper(password) && HasDigit(password)
    ensures ValidatePassword(password) == PASSWORD_REQUIRED <==> password == ""
    ensures ValidatePassword(password) == PASSWORD_TOO_SHORT <==> 0 < |password| < 8
    ensures ValidatePassword(password) == PASSWORD_NO_LOWER <==> |password| >= 8 && !HasLower(password)
    ensures ValidatePassword(password) == PASSWORD_NO_UPPER
            <==> |password| >= 8 && HasLower(password) && !HasUpper(password)
    ensures ValidatePassword(password) == PASSWORD_NO_DIGIT
            <==> |password| >= 8 && HasLower(password) && HasUpper(password) && !HasDigit(password)
  {
  }

  /** The confirmation must be present and equal to `password`, the password
      as the handler calling it sees it. */
  function ValidateConfirmPassword(confirmPass: string, password: string): (e: string)
    ensures e == "" || e == CONFIRM_REQUIRED || e == CONFIRM_MISMATCH
  {
    if confirmPass == "" then CONFIRM_REQUIRED
    else if confirmPass != password then CONFIRM_MISMATCH
    else ""
  }

  /** The verdicts of `ValidateConfirmPassword`: valid exactly when the
      confirmation is filled in and equal to the password; "required" before
      "do not match". */
  lemma ConfirmVerdicts(confirmPass: string, password: string)
    ensures ValidateConfirmPassword(confirmPass, password) == "" <==> confirmPass != "" && confirmPass == password
    ensures ValidateConfirmPassword(confirmPass, password) == CONFIRM_REQUIRED <==> confirmPass == ""
    ensures ValidateConfirmPassword(confirmPass, password) == CONFIRM_MISMATCH
            <==> confirmPass != "" && confirmPass != password
  {
  }

  /** The error a keystroke leaves on a field: re-validated only while the
      field shows an error and the new value is non-empty. */
  function KeystrokeError(shown: string, value: string, verdict: string): (e: string)
    ensures shown == "" ==> e == ""
    ensures value == "" ==> e == shown
    ensures shown != "" && value != "" ==> e == verdict
  {
    if shown != "" && value != "" then verdict else shown
  }

  /** What follows a sign-up call, by how it ended. */
  function SubmitReaction(outcome: ApiOutcome): (r: seq<Effect>)
    ensures |r| >= 1
  {
    match outcome
    case Ok => [Notified(SuccessToast, SIGNUP_OK_TITLE, SIGNUP_OK), Navigated(DASHBOARD_ROUTE)]
    case ReturnedError(m) => [Notified(ErrorToast, SIGNUP_FAILED_TITLE, ReturnedMessage(m, SIGNUP_FAILED))]
    case Threw(t) => [Notified(ErrorToast, SIGNUP_FAILED_TITLE, ThrownMessage(t, SIGNUP_FAILED))]
  }

  /** Exactly one of "navigate to the dashboard" and "notify a failure"
      follows a sign-up call, and the failure message is never empty. */
  lemma SubmitConcludesOnce(outcome: ApiOutcome)
    ensures Navigated(DASHBOARD_ROUTE) in SubmitReaction(outcome) <==> outcome.Ok?
    ensures (exists k :: 0 <= k < |SubmitReaction(outcome)| && SubmitReaction(outcome)[k].Notified?
                         && SubmitReaction(outcome)[k].kind == ErrorToast)
            <==> !outcome.Ok?
    ensures outcome.ReturnedError? ==> SubmitReaction(outcome)[0].description != ""
    ensures outcome == ReturnedError("") ==> SubmitReaction(outcome)[0].description == SIGNUP_FAILED
    ensures outcome.ReturnedError? && outcome.message != ""
            ==> SubmitReaction(outcome)[0].description == outcome.message
    ensures outcome.Threw? ==> SubmitReaction(outcome)[0].description == ThrownMessage(outcome.thrown, SIGNUP_FAILED)
    ensures outcome.Threw? && CarriesNoMessage(outcome.thrown)
            ==> SubmitReaction(outcome)[0].description == SIGNUP_FAILED
  {
    if !outcome.Ok? { assert SubmitReaction(outcome)[0].kind == ErrorToast; }
  }

  /** The four validators accept exactly the inputs a submit lets through. */
  predicate AllFieldsValid(name: string, email: string, password: string, confirmPassword: string) {
    && ValidateName(name) == "" && ValidateEmail(email) == ""
    && ValidatePassword(password) == "" && ValidateConfirmPassword(confirmPassword, password) == ""
  }

  /** The form's state as one value: the four fields, their errors, and
      whether an authentication call is in progress. */
  datatype State = State(
    name: string, email: string, password: string, confirmPassword: string,
    nameError: string, emailError: string, passwordError: string, confirmPasswordError: string,
    loading: bool)

  class Form {
    var name: string
    var email: string
    var password: string
    var confirmPassword: string
    var nameError: string
    var emailError: string
    var passwordError: string
    var confirmPasswordError: string
    var loading: bool
    /** The calls, notifications and navigation so far, in order. */
    ghost var effects: seq<Effect>
    /** `loading` stays set exactly when the last effect leaves the page:
        every failure clears it. */
    ghost predicate Valid()
      reads this
    {
      loading <==> effects != [] && IsLeaving(effects[|effects| - 1])
    }

    function Snapshot(): State
      reads this
    {
      State(name, email, password, confirmPassword,
            nameError, emailError, passwordError, confirmPasswordError, loading)
    }

    constructor ()
      ensures Valid()
      ensures Snapshot() == State("", "", "", "", "", "", "", "", false)
      ensures effects == []
    {
      name, email, password, confirmPassword := "", "", "", "";
      nameError, emailError, passwordError, confirmPasswordError := "", "", "", "";
      loading := false;
      effects := [];
    }

    method HandleNameChange(value: string)
      requires Valid() && !loading
      modifies this
      ensures Valid() && effects == old(effects)
      ensures Snapshot() == old(Snapshot()).(
                name := value,
                nameError := KeystrokeError(old(nameError), value, ValidateName(value)))
    {
      name := value;
      if nameError != "" && value != "" {
        nameError := ValidateName(value);
      }
    }

    method HandleEmailChange(value: string)
      requires Valid() && !loading
      modifies this
      ensures Valid() && effects == old(effects)
      ensures Snapshot() == old(Snapshot()).(
                email := value,
                emailError := KeystrokeError(old(emailError), value, ValidateEmail(value)))
    {
      email := value;
      if emailError != "" && value != "" {
        emailError := ValidateEmail(value);
      }
    }

    /** Besides the password's own error, re-checks the confirmation whenever
        it is filled in, against the password as it was BEFORE this keystroke. */
    method HandlePasswordChange(value: string)
      requires Valid() && !loading
      modifies this
      ensures Valid() && effects == old(effects)
      ensures Snapshot() == old(Snapshot()).(
                password := value,
                passwordError := KeystrokeError(old(passwordError), value, ValidatePassword(value)),
                confirmPasswordError :=
                  if old(confirmPassword) != "" then ValidateConfirmPassword(old(confirmPassword), old(password))
                  else old(confirmPasswordError))
    {
      var before := password;
      password := value;
      if passwordError != "" && value != "" {
        passwordError := ValidatePassword(value);
      }
      if confirmPassword != "" {
        confirmPasswordError := ValidateConfirmPassword(confirmPassword, before);
      }
    }

    method HandleConfirmPasswordChange(value: string)
      requires Valid() && !loading
      modifies this
      ensures Valid() && effects == old(effects)
      ensures Snapshot() == old(Snapshot()).(
                confirmPassword := value,
                confirmPasswordError :=
                  KeystrokeError(old(confirmPasswordError), value, ValidateConfirmPassword(value, old(password))))
    {
      confirmPassword := value;
      if confirmPasswordError != "" && value != "" {
        confirmPasswordError := ValidateConfirmPassword(value, password);
      }
    }

    method HandleNameBlur()
      requires Valid() && !loading
      modifies this
      ensures Valid() && effects == old(effects)
      ensures Snapshot() == old(Snapshot()).(nameError := ValidateName(name))
    {
      nameError := ValidateName(name);
    }

    method HandleEmailBlur()
      requires Valid() && !loading
      modifies this
      ensures Valid() && effects == old(effects)
      ensures Snapshot() == old(Snapshot()).(emailError := ValidateEmail(email))
    {
      emailError := ValidateEmail(email);
    }

    method HandlePasswordBlur()
      requires Valid() && !loading
      modifies this
      ensures Valid() && effects == old(effects)
      ensures Snapshot() == old(Snapshot()).(passwordError := ValidatePassword(password))
    {
      passwordError := ValidatePassword(password);
    }

    method HandleConfirmPasswordBlur()
      requires Valid() && !loading
      modifies this
      ensures Valid() && effects == old(effects)
      ensures Snapshot() == old(Snapshot()).(
                confirmPasswordError := ValidateConfirmPassword(confirmPassword, password))
    {
      confirmPasswordError := ValidateConfirmPassword(confirmPassword, password);
    }

    /** Re-validates every field and overwrites all four errors; only when
        all four pass does it set `loading` and call the client, whose
        `outcome` then decides between navigation and a failure notice. */
    method HandleSubmit(outcome: ApiOutcome)
      requires Valid() && !loading
      modifies this
      ensures Valid()
      ensures name == old(name) && email == old(email)
      ensures password == old(password) && confirmPassword == old(confirmPassword)
      ensures nameError == ValidateName(name) && emailError == ValidateEmail(email)
      ensures passwordError == ValidatePassword(password)
      ensures confirmPasswordError == ValidateConfirmPassword(confirmPassword, password)
      ensures if AllFieldsValid(name, email, password, confirmPassword) then
                && loading == outcome.Ok?
                && effects == old(effects) + [Called(SignUpEmail(email, password, name))]
                                           + SubmitReaction(outcome)
              else
                && !loading
                && effects == old(effects) + [Notified(ErrorToast, VALIDATION_TITLE, VALIDATION_DESCRIPTION)]
    {
      nameError := ValidateName(name);
      emailError := ValidateEmail(email);
      passwordError := ValidatePassword(password);
      confirmPasswordError := ValidateConfirmPassword(confirmPassword, password);

      if !AllFieldsValid(name, email, password, confirmPassword) {
        effects := effects + [Notified(ErrorToast, VALIDATION_TITLE, VALIDATION_DESCRIPTION)];
        return;
      }

      loading := true;
      effects := effects + [Called(SignUpEmail(email, password, name))];
      effects := effects + SubmitReaction(outcome);
      if !outcome.Ok? {
        loading := false;
      }
    }

    /** Sets `loading` before asking the client to start the GitHub sign-in;
        clears it only when the call reports or throws an error. */
    method HandleGitHubSignup(outcome: ApiOutcome)
      requires Valid() && !loading
      modifies this
      ensures Valid()
      ensures Snapshot() == old(Snapshot()).(loading := outcome.Ok?)
      ensures effects == old(effects) + [Called(SignInSocial("github", DASHBOARD_ROUTE))]
                                      + GitHubReaction(outcome, GITHUB_SIGNUP_FAILED_TITLE)
    {
      loading := true;
      effects := effects + [Called(SignInSocial("github", DASHBOARD_ROUTE))];
      effects := effects + GitHubReaction(outcome, GITHUB_SIGNUP_FAILED_TITLE);
      if !outcome.Ok? {
        loading := false;
      }
    }
  }

  /** The inputs a submit lets through to the client, field by field. */
  lemma SubmitAcceptance(name: string, email: string, password: string, confirmPassword: string)
    ensures AllFieldsValid(name, email, password, confirmPassword)
            <==> && 2 <= |Trim(name)| <= 50
                 && EmailShape(email)
                 && |password| >= 8 && HasLower(password) && HasUpper(password) && HasDigit(password)
                 && confirmPassword == password
  {
    NameVerdicts(name);
    EmailVerdicts(email);
    PasswordVerdicts(password);
  }

  /** A name of exactly 50 characters after trimming passes, although the
      message for long names reads "less than 50"; 51 does not. */
  lemma NameLengthBoundary(name: string)
    ensures |Trim(name)| == 50 ==> ValidateName(name) == ""
    ensures |Trim(name)| == 51 ==> ValidateName(name) == NAME_TOO_LONG
  {
  }

  /** The password examples: each breaks exactly the first rule its message names. */
  lemma PasswordExamples()
    ensures ValidatePassword("abc") == PASSWORD_TOO_SHORT
    ensures ValidatePassword("abcdefgh") == PASSWORD_NO_UPPER
    ensures ValidatePassword("Abcdefgh") == PASSWORD_NO_DIGIT
    ensures ValidatePassword("Abcdefg1") == ""
  {
    assert "abcdefgh"[0] == 'a';
    assert "Abcdefgh"[0] == 'A' && "Abcdefgh"[1] == 'b';
    assert "Abcdefg1"[0] == 'A' && "Abcdefg1"[1] == 'b' && "Abcdefg1"[7] == '1';
  }

  /** Typing a password that now equals the confirmation still leaves the
      confirmation flagged as a mismatch: the re-check compares it with the
      password from before the keystroke. */
  method StaleConfirmationScenario() returns (shown: string, equal: bool)
    ensures equal && shown == CONFIRM_MISMATCH
  {
    var form := new Form();
    form.HandlePasswordChange("Abcdefg");
    form.HandleConfirmPasswordChange("Abcdefg1");
    form.HandlePasswordChange("Abcdefg1");
    shown := form.confirmPasswordError;
    equal := form.password == form.confirmPassword;
  }
}
