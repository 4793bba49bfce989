/** The sign-in form: e-mail and password, plus a form-level `submit` error. */
module SignIn {
  import opened Wrappers
  import opened Validation
  import EmailSyntax

  datatype SignInField = Email | Password

  /** Keys of the error map: one per field, and `submit` for a failed request. */
  datatype SignInKey = FieldKey(field: SignInField) | Submit

  datatype SignInData = SignInData(email: string, password: string) {
    function Get(f: SignInField): string {
      match f
      case Email => email
      case Password => password
    }

    /** `{ ...prev, [field]: value }`: only the named field changes. */
    function Set(f: SignInField, value: string): (d: SignInData)
      ensures d.Get(f) == value
      ensures forall g :: g != f ==> d.Get(g) == Get(g)
    {
      match f
      case Email => this.(email := value)
      case Password => this.(password := value)
    }
  }

  /** Sign-in only requires a password; its length is not checked. */
  function PasswordPresentError(password: string): (r: Option<Message>)
    ensures r == None <==> password != ""
    ensures r != None ==> r == Some(PasswordRequired)
  {
    if password == "" then Some(PasswordRequired) else None
  }

  /** The map `validate` stores; it never holds a `submit` entry. */
  function SignInErrors(d: SignInData): map<SignInKey, Message> {
    var m := Record(map[], FieldKey(Email), EmailError(d.email));
    Record(m, FieldKey(Password), PasswordPresentError(d.password))
  }

  /** Valid exactly when the e-mail matches the pattern and some password, even one character, is given. */
  lemma SignInValidIff(d: SignInData)
    ensures SignInErrors(d) == map[] <==> EmailSyntax.MatchesPattern(d.email) && d.password != ""
    ensures Submit !in SignInErrors(d)
  {
    EmailErrorSpec(d.email);
    if SignInErrors(d) == map[] {
      assert FieldKey(Email) !in SignInErrors(d) && FieldKey(Password) !in SignInErrors(d);
    }
  }

  /** How the awaited request settles. The current mock always `Resolved`. */
  datatype CallOutcome = Resolved | Rejected(message: string)

  const MockCall: CallOutcome := Resolved

  class SignInForm {
    var formData: SignInData
    var errors: map<SignInKey, Message>
    var isLoading: bool

    /** The request is one atomic step and `finally` resets loading, so it is never observed set. */
    ghost predicate Valid()
      reads this
    {
      !isLoading
    }

    constructor()
      ensures Valid()
      ensures formData == SignInData("", "") && errors == map[] && !isLoading
    {
      formData := SignInData("", "");
      errors := map[];
      isLoading := false;
    }

    /** Replaces the whole error map (dropping an earlier `submit` error) and reports whether it is empty. */
    method Validate() returns (ok: bool)
      requires Valid()
      modifies this
      ensures Valid()
      ensures errors == SignInErrors(formData) && ok == (errors == map[])
      ensures formData == old(formData) && isLoading == old(isLoading)
    {
      var newErrors: map<SignInKey, Message> := map[];
      if Text.IsBlank(formData.email) {
        newErrors := newErrors[FieldKey(Email) := EmailRequired];
      } else if !EmailSyntax.IsEmail(formData.email) {
        newErrors := newErrors[FieldKey(Email) := EmailInvalid];
      }
      ghost var afterEmail := newErrors;
      assert afterEmail == Record(map[], FieldKey(Email), EmailError(formData.email));
      if formData.password == "" {
        newErrors := newErrors[FieldKey(Password) := PasswordRequired];
      }
      errors := newErrors;
      ok := |newErrors| == 0;
    }

    /** Updates one field and clears that field's error and the `submit` error; others stay. */
    method HandleChange(field: SignInField, value: string)
      requires Valid()
      modifies this
      ensures Valid()
      ensures formData == old(formData).Set(field, value)
      ensures errors == old(errors) - {FieldKey(field), Submit}
      ensures isLoading == old(isLoading)
    {
      formData := formData.Set(field, value);
      errors := ClearError(errors, FieldKey(field));
      errors := ClearError(errors, Submit);
    }

    /**
     * Validates; on failure loading is never set. Otherwise the request runs
     * as one step; a rejection stores its message under `submit`, and
     * `finally` leaves loading off either way.
     */
    method HandleSubmit(call: CallOutcome)
      requires Valid()
      modifies this
      ensures Valid()
      ensures formData == old(formData)
      ensures SignInErrors(old(formData)) != map[] ==> errors == SignInErrors(old(formData))
      ensures SignInErrors(old(formData)) == map[] ==>
        errors == if call.Rejected? then map[Submit := SubmitFailed(call.message)] else map[]
    {
      var ok := Validate();
      if !ok {
        return;
      }
      isLoading := true;
      if call.Rejected? {
        errors := errors[Submit := SubmitFailed(call.message)];
      }
      isLoading := false;
    }
  }

  /** With the current mock, a submit never leaves a `submit` error behind. */
  method SubmitWithMock(form: SignInForm)
    requires form.Valid()
    modifies form
    ensures form.Valid() && Submit !in form.errors
    ensures form.errors == SignInErrors(old(form.formData))
  {
    SignInValidIff(form.formData);
    form.HandleSubmit(MockCall);
  }
}
