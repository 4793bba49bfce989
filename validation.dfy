/**
 * Error messages, field rules and error-map operations shared by the forms.
 * Each form keeps its errors as a map from field to message; a field is in
 * the map exactly when it has an error.
 */
module Validation {
  import opened Wrappers
  import opened Text
  import EmailSyntax

  /** Every message a form can show; `Text` gives the wording the user sees. */
  datatype Message =
    | EmailRequired | EmailInvalid | PasswordRequired | PasswordTooShort
    | FullNameRequired | FullNameTooShort | NinRequired | NinTooShort
    | ConfirmRequired | PasswordsMismatch
    | Required | ImagesTooFew
    | DateRequired | LocationRequired | ConditionRequired
    | SubmitFailed(reason: string)
  {
    function Text(): (t: string)
      ensures t != ""
    {
      match this
      case EmailRequired => "Email address is required"
      case EmailInvalid => "Please enter a valid email address"
      case PasswordRequired => "Password is required"
      case PasswordTooShort => "Password must be at least 8 characters"
      case FullNameRequired => "Full name is required"
      case FullNameTooShort => "Please enter your full name"
      case NinRequired => "NIN is required"
      case NinTooShort => "NIN must be at least 11 characters"
      case ConfirmRequired => "Confirm Password is required"
      case PasswordsMismatch => "Passwords do not match"
      case Required => "Required"
      case ImagesTooFew => "Please add at least 3 different angle images"
      case DateRequired => "Date pet was received is required."
      case LocationRequired => "Receipt location / address is required."
      case ConditionRequired => "Pet condition is required."
      case SubmitFailed(reason) => if reason != "" then reason else "Failed to sign in. Please try again."
    }
  }

  /**
   * The e-mail rule of the register, sign-in and forgot-password forms:
   * "required" is decided on the trimmed text, the pattern on the raw text.
   */
  function EmailError(email: string): (r: Option<Message>)
    ensures r == None || r == Some(EmailRequired) || r == Some(EmailInvalid)
  {
    if IsBlank(email) then Some(EmailRequired)
    else if !EmailSyntax.IsEmail(email) then Some(EmailInvalid)
    else None
  }

  /**
   * Required beats format, and an address passes exactly when it matches the
   * pattern `^[^\s@]+@[^\s@]+\.[^\s@]+$`.
   */
  lemma EmailErrorSpec(email: string)
    ensures EmailError(email) == Some(EmailRequired) <==> AllSpace(email)
    ensures EmailError(email) == Some(EmailInvalid) <==> !AllSpace(email) && !EmailSyntax.MatchesPattern(email)
    ensures EmailError(email) == None <==> EmailSyntax.MatchesPattern(email)
  {
    BlankIffAllSpace(email);
    EmailSyntax.IsEmailIffPattern(email);
    if EmailSyntax.IsEmail(email) {
      EmailSyntax.EmailNotBlank(email);
    }
  }

  /** The pattern is applied to the untrimmed text: a leading space is a format error. */
  lemma EmailLeadingSpaceIsFormatError()
    ensures EmailError(" a@b.co") == Some(EmailInvalid)
  {
    var s := " a@b.co";
    assert !IsSpace(s[1]);
    BlankIffAllSpace(s);
  }

  /** The new-password rule of the register and reset forms, on the raw text; the length is JavaScript's. */
  function NewPasswordError(password: string): (r: Option<Message>)
    ensures r == None || r == Some(PasswordRequired) || r == Some(PasswordTooShort)
  {
    if password == "" then Some(PasswordRequired)
    else if Utf16Length(password) < 8 then Some(PasswordTooShort)
    else None
  }

  /** A new password is accepted exactly when it has at least 8 UTF-16 units, whitespace included. */
  lemma NewPasswordErrorSpec(password: string)
    ensures NewPasswordError(password) == None <==> Utf16Length(password) >= 8
    ensures NewPasswordError(password) == Some(PasswordRequired) <==> password == ""
    ensures NewPasswordError(password) == Some(PasswordTooShort) <==> 0 < Utf16Length(password) < 8
  {
  }

  /** Whitespace counts towards the length: eight spaces are an acceptable new password. */
  lemma EightSpacesPass()
    ensures NewPasswordError("        ") == None
  {
    Utf16LengthBmp("        ");
  }

  /** Four emoji are eight UTF-16 units, so they pass the rule although they are four characters. */
  lemma FourEmojiPass()
    ensures |"\U{1F600}\U{1F600}\U{1F600}\U{1F600}"| == 4
    ensures NewPasswordError("\U{1F600}\U{1F600}\U{1F600}\U{1F600}") == None
  {
    var e := "\U{1F600}";
    assert "\U{1F600}\U{1F600}\U{1F600}\U{1F600}"[1..] == e + e + e;
    assert (e + e + e)[1..] == e + e;
    assert (e + e)[1..] == e;
  }

  /** `newErrors.field = message` when a rule produced a message; otherwise the map is unchanged. */
  function Record<K>(errors: map<K, Message>, field: K, e: Option<Message>): (r: map<K, Message>)
    ensures e.Some? ==> r == errors[field := e.value]
    ensures e.None? ==> r == errors
  {
    if e.Some? then errors[field := e.value] else errors
  }

  /**
   * `if (errors[field]) setErrors(prev => ({ ...prev, [field]: undefined }))`:
   * every message text is non-empty, hence truthy, so the field's error goes
   * and nothing else changes.
   */
  function ClearError<K>(errors: map<K, Message>, field: K): (r: map<K, Message>)
    ensures r == errors - {field}
  {
    if field in errors && errors[field].Text() != "" then errors - {field} else errors
  }
}
