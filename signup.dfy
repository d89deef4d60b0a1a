/**
 * The sign-up button of the sign-up screen: it reads the email and the
 * password, checks that neither is empty, then the email format, then the
 * password strength, and only then asks the identity provider to create
 * the account; the provider's answer decides the message shown and
 * whether the screen moves on to the login screen.
 *
 * The provider is not called: its answer is an input (`AuthResult`), and
 * the toast, the intent and `finish()` are fields of the outcome.
 */
module SignUp {
  import opened Common
  import opened Credentials

  const EmptyFieldsMessage: string := "Email and Password cannot be empty"
  const InvalidEmailMessage: string := "Invalid Email Format"
  const WeakPasswordMessage: string := "Password must be more than 6 characters"
  const CreatedMessage: string := "Account created successfully!"
  const FailurePrefix: string := "Registration Failed: "

  /**
   * How the provider's account-creation task completed. A failed task
   * carries its exception's message, which is nullable (and so is the
   * exception).
   */
  datatype AuthResult = Created | Failed(message: Option<string>)

  /** Which check, if any, stops a submission. */
  datatype Verdict = EmptyField | InvalidEmailFormat | WeakPassword | Valid

  /**
   * What one press of the sign-up button leads to: the toast shown,
   * whether account creation was requested from the provider, the screen
   * started afterwards (if any) and whether the sign-up screen finishes.
   */
  datatype SignUpOutcome = SignUpOutcome(
    toast: string,
    creationRequested: bool,
    navigateTo: Option<Screen>,
    finishes: bool)

  /**
   * The checks of the click handler in their order: emptiness first, then
   * the email format, then the password strength.
   */
  function Validate(email: string, password: string): (v: Verdict)
    ensures v == EmptyField <==> email == [] || password == []
    ensures v == InvalidEmailFormat <==> email != [] && password != [] && !IsValidEmail(email)
    ensures v == WeakPassword <==>
      email != [] && password != [] && IsValidEmail(email) && !IsPasswordStrong(password)
    ensures v == Valid <==>
      email != [] && password != [] && IsValidEmail(email) && IsPasswordStrong(password)
  {
    if email == [] || password == [] then EmptyField
    else if !IsValidEmail(email) then InvalidEmailFormat
    else if !IsPasswordStrong(password) then WeakPassword
    else Valid
  }

  /** The completion listener of the account-creation task. */
  function OnCreateComplete(result: AuthResult): SignUpOutcome {
    match result
    case Created => SignUpOutcome(CreatedMessage, true, Some(Login), true)
    case Failed(m) => SignUpOutcome(FailurePrefix + NullableText(m), true, None, false)
  }

  /** The whole effect of one press of the sign-up button. */
  function SignUpClick(email: string, password: string, result: AuthResult): SignUpOutcome {
    match Validate(email, password)
    case EmptyField => SignUpOutcome(EmptyFieldsMessage, false, None, false)
    case InvalidEmailFormat => SignUpOutcome(InvalidEmailMessage, false, None, false)
    case WeakPassword => SignUpOutcome(WeakPasswordMessage, false, None, false)
    case Valid => OnCreateComplete(result)
  }

  /**
   * The click handler as the screen runs it: guarded steps with early
   * exits, the email checked by the scanner.
   */
  method HandleSignUpClick(email: string, password: string, result: AuthResult)
    returns (out: SignUpOutcome)
    ensures out == SignUpClick(email, password, result)
  {
    if email == [] || password == [] {
      return SignUpOutcome(EmptyFieldsMessage, false, None, false);
    }
    var emailOk := ScanEmail(email);
    if !emailOk {
      return SignUpOutcome(InvalidEmailMessage, false, None, false);
    }
    if !IsPasswordStrong(password) {
      return SignUpOutcome(WeakPasswordMessage, false, None, false);
    }
    match result
    case Created =>
      out := SignUpOutcome(CreatedMessage, true, Some(Login), true);
    case Failed(m) =>
      out := SignUpOutcome(FailurePrefix + NullableText(m), true, None, false);
  }

  // ---------------------------------------------------------------------
  // Properties of the click handler

  /**
   * An empty field is reported before either validator is consulted, and
   * nothing is requested from the provider.
   */
  lemma EmptyFieldsFirst(email: string, password: string, result: AuthResult)
    requires email == [] || password == []
    ensures SignUpClick(email, password, result) == SignUpOutcome(EmptyFieldsMessage, false, None, false)
  {
  }

  /** Emptiness means length zero: whitespace is not empty and goes on to the format check. */
  lemma WhitespaceIsNotEmpty()
    ensures Validate(" ", "abcdefg") == InvalidEmailFormat
    ensures Validate("user@example.com", "       ") == Valid
  {
    NoAtRejected(" ");
    assert SplitsAt("user@example.com", 4, 12, 13);
  }

  /** A badly formatted email is reported whatever the (non-empty) password is. */
  lemma FormatCheckedBeforeStrength(email: string, password: string, result: AuthResult)
    requires email != [] && password != [] && !IsValidEmail(email)
    ensures SignUpClick(email, password, result) == SignUpOutcome(InvalidEmailMessage, false, None, false)
  {
  }

  /** A well-formed email with a short password is reported as a weak password. */
  lemma WeakPasswordReported(email: string, password: string, result: AuthResult)
    requires email != [] && IsValidEmail(email) && 0 < |password| <= 6
    ensures SignUpClick(email, password, result) == SignUpOutcome(WeakPasswordMessage, false, None, false)
  {
  }

  /**
   * Account creation is requested exactly when both fields are non-empty
   * and both checks pass; the provider's answer decides the outcome only
   * then.
   */
  lemma CreationRequestedIff(email: string, password: string, result: AuthResult)
    ensures SignUpClick(email, password, result).creationRequested <==>
      email != [] && password != [] && IsValidEmail(email) && IsPasswordStrong(password)
    ensures !SignUpClick(email, password, result).creationRequested ==>
      forall other :: SignUpClick(email, password, other) == SignUpClick(email, password, result)
  {
  }

  /**
   * A created account shows the success message, starts the login screen
   * and finishes; a failure shows the provider's message after
   * `Registration Failed: ` (the text `null` when there is none) and stays.
   */
  lemma CompletionOutcome(email: string, password: string, result: AuthResult)
    requires Validate(email, password) == Valid
    ensures result.Created? ==>
      SignUpClick(email, password, result) == SignUpOutcome(CreatedMessage, true, Some(Login), true)
    ensures result.Failed? ==>
      var out := SignUpClick(email, password, result);
      && out.navigateTo == None && !out.finishes
      && |out.toast| >= |FailurePrefix| && out.toast[..|FailurePrefix|] == FailurePrefix
      && out.toast[|FailurePrefix|..] == NullableText(result.message)
  {
  }

  /** The screen moves on, and finishes, only after a successful creation. */
  lemma NavigationOnlyAfterCreation(email: string, password: string, result: AuthResult)
    ensures var out := SignUpClick(email, password, result);
      && (out.navigateTo.Some? <==> out.creationRequested && result.Created?)
      && (out.finishes <==> out.navigateTo == Some(Login))
  {
  }

  /** The submissions the sign-up screen is expected to handle. */
  lemma SignUpExamples()
    ensures Validate("", "abcdefg") == EmptyField
    ensures Validate("user@example.com", "") == EmptyField
    ensures Validate("bademail", "abcdefg") == InvalidEmailFormat
    ensures Validate("user@example.com", "short") == WeakPassword
    ensures Validate("user@example.com", "abcdef") == WeakPassword
    ensures Validate("user@example.com", "longenough") == Valid
    ensures SignUpClick("user@example.com", "longenough", Failed(None)).toast == "Registration Failed: null"
  {
    NoAtRejected("bademail");
    EmailExamples();
  }
}
