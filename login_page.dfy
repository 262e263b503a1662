/**
 * The validation half of the login page's form action.
 */
module LoginPage {
  import opened Wrappers
  import opened Strings
  import opened FormValidation

  datatype LoginFormData = LoginFormData(email: string, password: string)

  /** `Partial<LoginFormData>`. */
  datatype LoginErrors = LoginErrors(email: Option<string>, password: Option<string>)

  /** What the action answers; an absent `errors` record has both fields `None`. */
  datatype LoginState = LoginState(data: LoginFormData, errors: LoginErrors, message: string)

  const EmailRequired := "Email is required"
  const PasswordRequired := "Password is required"
  const InvalidEmail := "Please enter a valid email address"
  const FixErrors := "Please fix the errors above"
  const LoggedIn := "Login successful! Redirecting..."

  /** The e-mail field's error: a malformed address outranks a missing one. */
  ghost function EmailError(email: string): Option<string> {
    if email != "" && !MatchesEmailPattern(email) then Some(InvalidEmail)
    else if IsBlank(email) then Some(EmailRequired)
    else None
  }

  /** `loginAction` up to the simulated request: the e-mail gets the message of
      the last of its checks that fails, an empty password is reported, the
      e-mail is handed back as typed and the password always cleared; the form
      goes through exactly when the e-mail matches the pattern and a password
      was given. */
  method LoginAction(email: string, password: string) returns (state: LoginState)
    ensures state.data == LoginFormData(email, "")
    ensures state.errors.email == EmailError(email)
    ensures state.errors.password == if password == "" then Some(PasswordRequired) else None
    ensures state.message == if state.errors.email.Some? || state.errors.password.Some? then FixErrors else LoggedIn
    ensures state.message == LoggedIn <==> MatchesEmailPattern(email) && password != ""
  {
    var errors := LoginErrors(None, None);
    var blank := TrimIsEmpty(email);
    if blank { errors := errors.(email := Some(EmailRequired)); }
    if password == "" { errors := errors.(password := Some(PasswordRequired)); }

    var valid := TestEmail(email);
    if email != "" && !valid {
      errors := errors.(email := Some(InvalidEmail));
    }

    if MatchesEmailPattern(email) {
      EmailNotBlank(email);
    }
    if errors.email.Some? || errors.password.Some? {
      return LoginState(LoginFormData(email, ""), errors, FixErrors);
    }
    return LoginState(LoginFormData(email, ""), errors, LoggedIn);
  }

  /** An e-mail of white space only is reported as malformed, not as missing. */
  lemma BlankEmailIsMalformed(email: string)
    requires email != "" && IsBlank(email)
    ensures EmailError(email) == Some(InvalidEmail)
  {
    if MatchesEmailPattern(email) {
      EmailNotBlank(email);
    }
  }
}
