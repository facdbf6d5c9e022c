/**
 * The registration form of src/screens/auth/RegisterScreen.tsx: the rules of
 * its four fields, and what submitting does with the server's reply.
 */
module RegisterScreen {
  import opened Common
  import opened FormRules
  import opened Http

  const UsernameRequired := "Name is required"
  const EmailRequired := "Email is required"
  const EmailInvalid := "Invalid email address"
  const PasswordRequired := "Password is required"
  const PasswordTooShort := "Password must be at least 6 characters"
  const ConfirmRequired := "Confirm Password is required"
  const PasswordsDiffer := "Passwords do not match"

  const MinPasswordLength := 6

  const RegistrationErrorTitle := "Registration Error"
  const RegistrationFailedDefault := "Failed to register. Please try again."
  const ConnectionErrorTitle := "Connection Error"
  const ConnectionErrorMessage := "Unable to connect to the server. Please check your internet connection and try again."

  datatype RegisterForm = RegisterForm(username: string, email: string, password: string, confirmPassword: string)

  function UsernameError(v: string): (e: Option<string>)
    ensures e.None? <==> v != ""
    ensures e.Some? ==> e.value == UsernameRequired
  {
    if v == "" then Some(UsernameRequired) else None
  }

  function EmailError(v: string): (e: Option<string>)
    ensures e.None? <==> v != "" && EmailPattern(v)
    ensures e == Some(EmailRequired) <==> v == ""
    ensures e == Some(EmailInvalid) <==> v != "" && !EmailPattern(v)
  {
    RequiredEmail(v, EmailRequired, EmailInvalid)
  }

  function PasswordError(v: string): (e: Option<string>)
    ensures e.None? <==> Utf16Length(v) >= MinPasswordLength
    ensures e == Some(PasswordRequired) <==> v == ""
    ensures e == Some(PasswordTooShort) <==> v != "" && Utf16Length(v) < MinPasswordLength
  {
    RequiredMinLength(v, MinPasswordLength, PasswordRequired, PasswordTooShort)
  }

  /** `validate: value => value === password || 'Passwords do not match'`, after `required`. */
  function ConfirmPasswordError(v: string, password: string): (e: Option<string>)
    ensures e.None? <==> v != "" && v == password
    ensures e == Some(ConfirmRequired) <==> v == ""
    ensures e == Some(PasswordsDiffer) <==> v != "" && v != password
  {
    if v == "" then Some(ConfirmRequired)
    else if v != password then Some(PasswordsDiffer)
    else None
  }

  /** handleSubmit calls onSubmit only when no field has an error. */
  predicate FormValid(f: RegisterForm) {
    && UsernameError(f.username).None?
    && EmailError(f.email).None?
    && PasswordError(f.password).None?
    && ConfirmPasswordError(f.confirmPassword, f.password).None?
  }

  datatype RegisterOutcome =
    | NotSubmitted
    | NavigateToLogin
    | Alert(title: string, message: string)

  /** The reply reached `json.success` and it was truthy; the HTTP status is never looked at. */
  predicate Accepted(reply: Fetched) {
    reply.Received? && reply.reply.Parsed? && reply.reply.body.ObjectBody? && reply.reply.body.success
  }

  /** Something threw before `json.success` could be read: the fetch, `response.json()`, or property access on a null body. */
  predicate Threw(reply: Fetched) {
    reply.FetchRejected? || reply.reply.Unparsable? || reply.reply.body.NullBody?
  }

  /** onSubmit: navigate to Login on success, otherwise show one of the two alerts. */
  method OnSubmit(reply: Fetched) returns (o: RegisterOutcome)
    ensures o == NavigateToLogin <==> Accepted(reply)
    ensures o == Alert(ConnectionErrorTitle, ConnectionErrorMessage) <==> Threw(reply)
    ensures !Accepted(reply) && !Threw(reply) ==>
              o == Alert(RegistrationErrorTitle, OrElse(reply.reply.body.message, RegistrationFailedDefault))
    ensures o.Alert? ==> o.message != ""
  {
    if reply.FetchRejected? || reply.reply.Unparsable? {
      o := Alert(ConnectionErrorTitle, ConnectionErrorMessage);
      return;
    }
    var json := reply.reply.body;
    if json.NullBody? {
      // reading `json.success` of null throws a TypeError
      o := Alert(ConnectionErrorTitle, ConnectionErrorMessage);
      return;
    }
    if json.success {
      o := NavigateToLogin;
    } else {
      o := Alert(RegistrationErrorTitle, OrElse(json.message, RegistrationFailedDefault));
    }
  }

  /** `handleSubmit(onSubmit)`: validate every field, and send only a valid form. */
  method HandleSubmit(f: RegisterForm, reply: Fetched) returns (o: RegisterOutcome)
    ensures o == NotSubmitted <==> !FormValid(f)
    ensures FormValid(f) ==> (o == NavigateToLogin <==> Accepted(reply))
    ensures FormValid(f) ==> (o == Alert(ConnectionErrorTitle, ConnectionErrorMessage) <==> Threw(reply))
    ensures FormValid(f) && !Accepted(reply) && !Threw(reply) ==>
              o == Alert(RegistrationErrorTitle, OrElse(reply.reply.body.message, RegistrationFailedDefault))
    ensures o.Alert? ==> o.message != ""
  {
    if !FormValid(f) {
      return NotSubmitted;
    }
    o := OnSubmit(reply);
  }

  /** A concrete well-formed address passes, and one without a TLD does not. */
  lemma EmailExamples()
    ensures EmailError("ana@example.com").None?
    ensures EmailError("ana@example") == Some(EmailInvalid)
  {
    assert EmailSplit("ana@example.com", 3, 11);
  }
}
