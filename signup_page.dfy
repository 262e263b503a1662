/**
 * The validation half of the sign-up page's form action: the errors record is
 * built by successive field assignments, a later check overwriting an earlier
 * one, and every answer hands the form back with both password fields cleared.
 */
module SignupPage {
  import opened Wrappers
  import opened Strings
  import opened FormValidation

  datatype Field =
    | FirmName | FirmAddress | FirmContact | FirmEmail
    | AdminName | AdminContact | AdminPassword | ConfirmPassword

  datatype SignupFormData = SignupFormData(
    firmName: string, firmAddress: string, firmContact: string, firmEmail: string,
    adminName: string, adminContact: string, adminPassword: string, confirmPassword: string)

  /** `Partial<SignupFormData>`: one optional message per field. */
  datatype SignupErrors = SignupErrors(
    firmName: Option<string>, firmAddress: Option<string>, firmContact: Option<string>, firmEmail: Option<string>,
    adminName: Option<string>, adminContact: Option<string>, adminPassword: Option<string>, confirmPassword: Option<string>)

  const NoErrors := SignupErrors(None, None, None, None, None, None, None, None)

  /** The message recorded for a field, if any. */
  function ErrorOf(e: SignupErrors, f: Field): Option<string> {
    match f
    case FirmName => e.firmName
    case FirmAddress => e.firmAddress
    case FirmContact => e.firmContact
    case FirmEmail => e.firmEmail
    case AdminName => e.adminName
    case AdminContact => e.adminContact
    case AdminPassword => e.adminPassword
    case ConfirmPassword => e.confirmPassword
  }

  /** `Object.keys(errors).length > 0`. */
  predicate HasErrors(e: SignupErrors) {
    e.firmName.Some? || e.firmAddress.Some? || e.firmContact.Some? || e.firmEmail.Some? ||
    e.adminName.Some? || e.adminContact.Some? || e.adminPassword.Some? || e.confirmPassword.Some?
  }

  /** What the action answers; an absent `errors` record is `NoErrors`. */
  datatype SignupState = SignupState(data: SignupFormData, errors: SignupErrors, message: string)

  const InvalidEmail := "Please enter a valid email address"
  const ShortPassword := "Password must be at least 6 characters"
  const PasswordMismatch := "Passwords do not match"
  const InvalidPhone := "Please enter a valid phone number"
  const FixErrors := "Please fix the errors above"
  const Created := "Account created successfully! Redirecting..."

  /** The "required" check of each field: white space only for the text
      fields, the empty string for the two passwords. */
  ghost predicate Missing(d: SignupFormData, f: Field) {
    match f
    case FirmName => IsBlank(d.firmName)
    case FirmAddress => IsBlank(d.firmAddress)
    case FirmContact => IsBlank(d.firmContact)
    case FirmEmail => IsBlank(d.firmEmail)
    case AdminName => IsBlank(d.adminName)
    case AdminContact => IsBlank(d.adminContact)
    case AdminPassword => d.adminPassword == ""
    case ConfirmPassword => d.confirmPassword == ""
  }

  function RequiredMessage(f: Field): string {
    match f
    case FirmName => "Firm name is required"
    case FirmAddress => "Firm address is required"
    case FirmContact => "Firm contact is required"
    case FirmEmail => "Firm email is required"
    case AdminName => "Admin name is required"
    case AdminContact => "Admin contact is required"
    case AdminPassword => "Password is required"
    case ConfirmPassword => "Please confirm password"
  }

  /** The format check of each field, where it has one; it outranks "required". */
  ghost function FormatError(d: SignupFormData, f: Field): Option<string> {
    match f
    case FirmEmail =>
      if d.firmEmail != "" && !MatchesEmailPattern(d.firmEmail) then Some(InvalidEmail) else None
    case FirmContact =>
      if d.firmContact != "" && !MatchesPhonePattern(d.firmContact) then Some(InvalidPhone) else None
    case AdminContact =>
      if d.adminContact != "" && !MatchesPhonePattern(d.adminContact) then Some(InvalidPhone) else None
    case AdminPassword =>
      if d.adminPassword != "" && |d.adminPassword| < 6 then Some(ShortPassword) else None
    case ConfirmPassword =>
      if d.adminPassword != d.confirmPassword then Some(PasswordMismatch) else None
    case _ => None
  }

  /** The error a field ends up with, read as a priority of checks rather than
      as a sequence of assignments. */
  ghost function FieldError(d: SignupFormData, f: Field): Option<string> {
    if FormatError(d, f).Some? then FormatError(d, f)
    else if Missing(d, f) then Some(RequiredMessage(f))
    else None
  }

  /** The form as the page means to accept it. */
  ghost predicate Acceptable(d: SignupFormData) {
    && !IsBlank(d.firmName) && !IsBlank(d.firmAddress) && !IsBlank(d.adminName)
    && MatchesEmailPattern(d.firmEmail)
    && !IsBlank(d.firmContact) && MatchesPhonePattern(d.firmContact)
    && !IsBlank(d.adminContact) && MatchesPhonePattern(d.adminContact)
    && |d.adminPassword| >= 6 && d.confirmPassword == d.adminPassword
  }

  /** The required-field block: an error on exactly the missing fields. */
  method RequiredErrors(data: SignupFormData) returns (errors: SignupErrors)
    ensures forall f :: ErrorOf(errors, f) == if Missing(data, f) then Some(RequiredMessage(f)) else None
  {
    errors := NoErrors;
    var blank := TrimIsEmpty(data.firmName);
    if blank { errors := errors.(firmName := Some("Firm name is required")); }
    blank := TrimIsEmpty(data.firmAddress);
    if blank { errors := errors.(firmAddress := Some("Firm address is required")); }
    blank := TrimIsEmpty(data.firmContact);
    if blank { errors := errors.(firmContact := Some("Firm contact is required")); }
    blank := TrimIsEmpty(data.firmEmail);
    if blank { errors := errors.(firmEmail := Some("Firm email is required")); }
    blank := TrimIsEmpty(data.adminName);
    if blank { errors := errors.(adminName := Some("Admin name is required")); }
    blank := TrimIsEmpty(data.adminContact);
    if blank { errors := errors.(adminContact := Some("Admin contact is required")); }
    if data.adminPassword == "" { errors := errors.(adminPassword := Some("Password is required")); }
    if data.confirmPassword == "" { errors := errors.(confirmPassword := Some("Please confirm password")); }
  }

  /** `signupAction` up to the simulated request: every field carries the
      message of the last of its checks that fails, and none if all pass; the
      passwords are cleared and the rest of the form is kept. */
  method SignupAction(data: SignupFormData) returns (state: SignupState)
    ensures state.data == data.(adminPassword := "", confirmPassword := "")
    ensures forall f :: ErrorOf(state.errors, f) == FieldError(data, f)
    ensures state.message == if HasErrors(state.errors) then FixErrors else Created
    ensures state.message == Created <==> Acceptable(data)
  {
    var errors := RequiredErrors(data);
    var valid := TestEmail(data.firmEmail);
    if data.firmEmail != "" && !valid {
      errors := errors.(firmEmail := Some(InvalidEmail));
    }
    if data.adminPassword != "" && |data.adminPassword| < 6 {
      errors := errors.(adminPassword := Some(ShortPassword));
    }
    if data.adminPassword != data.confirmPassword {
      errors := errors.(confirmPassword := Some(PasswordMismatch));
    }
    valid := TestPhone(data.firmContact);
    if data.firmContact != "" && !valid {
      errors := errors.(firmContact := Some(InvalidPhone));
    }
    valid := TestPhone(data.adminContact);
    if data.adminContact != "" && !valid {
      errors := errors.(adminContact := Some(InvalidPhone));
    }

    forall f ensures ErrorOf(errors, f) == FieldError(data, f) {
      match f
      case FirmName =>
      case FirmAddress =>
      case FirmContact =>
      case FirmEmail =>
      case AdminName =>
      case AdminContact =>
      case AdminPassword =>
      case ConfirmPassword =>
    }
    HasErrorsIff(errors);
    NoErrorsIffAcceptable(data);
    var cleared := data.(adminPassword := "", confirmPassword := "");
    if HasErrors(errors) {
      return SignupState(cleared, errors, FixErrors);
    }
    return SignupState(cleared, errors, Created);
  }

  /** The record has a key exactly when some field has a message. */
  lemma HasErrorsIff(e: SignupErrors)
    ensures HasErrors(e) <==> exists f :: ErrorOf(e, f).Some?
  {
    if HasErrors(e) {
      if e.firmName.Some? { assert ErrorOf(e, FirmName).Some?; }
      else if e.firmAddress.Some? { assert ErrorOf(e, FirmAddress).Some?; }
      else if e.firmContact.Some? { assert ErrorOf(e, FirmContact).Some?; }
      else if e.firmEmail.Some? { assert ErrorOf(e, FirmEmail).Some?; }
      else if e.adminName.Some? { assert ErrorOf(e, AdminName).Some?; }
      else if e.adminContact.Some? { assert ErrorOf(e, AdminContact).Some?; }
      else if e.adminPassword.Some? { assert ErrorOf(e, AdminPassword).Some?; }
      else { assert ErrorOf(e, ConfirmPassword).Some?; }
    }
  }

  /** The form is accepted, with no error on any field, exactly when it is acceptable. */
  lemma NoErrorsIffAcceptable(d: SignupFormData)
    ensures (forall f :: FieldError(d, f).None?) <==> Acceptable(d)
  {
    if Acceptable(d) {
      EmailNotBlank(d.firmEmail);
    } else {
      if MatchesEmailPattern(d.firmEmail) {
        EmailNotBlank(d.firmEmail);
      }
      if IsBlank(d.firmName) {
        assert FieldError(d, FirmName).Some?;
      } else if IsBlank(d.firmAddress) {
        assert FieldError(d, FirmAddress).Some?;
      } else if IsBlank(d.adminName) {
        assert FieldError(d, AdminName).Some?;
      } else if !MatchesEmailPattern(d.firmEmail) {
        assert FieldError(d, FirmEmail).Some?;
      } else if IsBlank(d.firmContact) || !MatchesPhonePattern(d.firmContact) {
        assert FieldError(d, FirmContact).Some?;
      } else if IsBlank(d.adminContact) || !MatchesPhonePattern(d.adminContact) {
        assert FieldError(d, AdminContact).Some?;
      } else if |d.adminPassword| < 6 {
        assert FieldError(d, AdminPassword).Some?;
      } else {
        assert FieldError(d, ConfirmPassword).Some?;
      }
    }
  }

  /** A firm e-mail of white space only is reported as malformed, not as missing. */
  lemma BlankEmailIsMalformed(d: SignupFormData)
    requires d.firmEmail != "" && IsBlank(d.firmEmail)
    ensures FieldError(d, FirmEmail) == Some(InvalidEmail)
  {
    if MatchesEmailPattern(d.firmEmail) {
      EmailNotBlank(d.firmEmail);
    }
  }

  /** A pair of different passwords always reports the mismatch on the
      confirmation, even when the confirmation is empty. */
  lemma MismatchOutranksMissing(d: SignupFormData)
    requires d.adminPassword != d.confirmPassword
    ensures FieldError(d, ConfirmPassword) == Some(PasswordMismatch)
  {
  }
}
