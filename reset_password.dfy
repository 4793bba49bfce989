/** The reset-password form: a new password and its confirmation. */
module ResetPassword {
  import opened Wrappers
  import opened Validation
  import Text

  datatype ResetField = Password | ConfirmPassword

  datatype ResetData = ResetData(password: string, confirmPassword: string) {
    function Get(f: ResetField): string {
      match f
      case Password => password
      case ConfirmPassword => confirmPassword
    }

    /** `{ ...prev, [field]: value }`: only the named field changes. */
    function Set(f: ResetField, value: string): (d: ResetData)
      ensures d.Get(f) == value
      ensures forall g :: g != f ==> d.Get(g) == Get(g)
    {
      match f
      case Password => this.(password := value)
      case ConfirmPassword => this.(confirmPassword := value)
    }
  }

  /** Confirmation: required, then equal to the password (whether or not the password is valid). */
  function ConfirmError(confirm: string, password: string): (r: Option<Message>)
    ensures r == None <==> confirm != "" && confirm == password
    ensures r == Some(ConfirmRequired) <==> confirm == ""
    ensures r == Some(PasswordsMismatch) <==> confirm != "" && confirm != password
  {
    if confirm == "" then Some(ConfirmRequired)
    else if confirm != password then Some(PasswordsMismatch)
    else None
  }

  /** The map `validate` stores, built in the order the rules are checked. */
  function ResetErrors(d: ResetData): map<ResetField, Message> {
    var m := Record(map[], Password, NewPasswordError(d.password));
    Record(m, ConfirmPassword, ConfirmError(d.confirmPassword, d.password))
  }

  /** The form is valid exactly when the password has 8 or more UTF-16 units and the confirmation repeats it. */
  lemma ResetValidIff(d: ResetData)
    ensures ResetErrors(d) == map[] <==> Text.Utf16Length(d.password) >= 8 && d.confirmPassword == d.password
  {
    NewPasswordErrorSpec(d.password);
    if ResetErrors(d) == map[] {
      assert Password !in ResetErrors(d) && ConfirmPassword !in ResetErrors(d);
    }
  }

  /** The mismatch check ignores password validity: identical short passwords get only the password error. */
  lemma IdenticalShortPasswords(d: ResetData)
    requires d.password == d.confirmPassword && 0 < Text.Utf16Length(d.password) < 8
    ensures ResetErrors(d) == map[Password := PasswordTooShort]
  {
  }

  class ResetPasswordForm {
    var formData: ResetData
    var errors: map<ResetField, Message>
    var isLoading: bool
    var showSuccessModal: bool

    /** The submit delay is one atomic step, so loading is never observed between events. */
    ghost predicate Valid()
      reads this
    {
      !isLoading
    }

    constructor()
      ensures Valid()
      ensures formData == ResetData("", "") && errors == map[]
      ensures !isLoading && !showSuccessModal
    {
      formData := ResetData("", "");
      errors := map[];
      isLoading := false;
      showSuccessModal := false;
    }

    /** Re-validates both fields, replaces the whole error map, and reports whether it is empty. */
    method Validate() returns (ok: bool)
      requires Valid()
      modifies this
      ensures Valid()
      ensures errors == ResetErrors(formData) && ok == (errors == map[])
      ensures formData == old(formData) && isLoading == old(isLoading)
      ensures showSuccessModal == old(showSuccessModal)
    {
      var newErrors: map<ResetField, Message> := map[];
      if formData.password == "" {
        newErrors := newErrors[Password := PasswordRequired];
      } else if Text.Utf16Length(formData.password) < 8 {
        newErrors := newErrors[Password := PasswordTooShort];
      }
      ghost var afterPassword := newErrors;
      assert afterPassword == Record(map[], Password, NewPasswordError(formData.password));
      if formData.confirmPassword == "" {
        newErrors := newErrors[ConfirmPassword := ConfirmRequired];
      } else if formData.confirmPassword != formData.password {
        newErrors := newErrors[ConfirmPassword := PasswordsMismatch];
      }
      assert newErrors == Record(afterPassword, ConfirmPassword, ConfirmError(formData.confirmPassword, formData.password));
      errors := newErrors;
      ok := |newErrors| == 0;
    }

    /**
     * Updates one field and clears that field's error only; editing the
     * password leaves a mismatch error on the confirmation in place.
     */
    method HandleChange(field: ResetField, value: string)
      requires Valid()
      modifies this
      ensures Valid()
      ensures formData == old(formData).Set(field, value)
      ensures errors == old(errors) - {field}
      ensures isLoading == old(isLoading) && showSuccessModal == old(showSuccessModal)
    {
      formData := formData.Set(field, value);
      errors := ClearError(errors, field);
    }

    /**
     * Validates; on failure nothing else happens. On success the mocked
     * 1500 ms request runs as one step and the success modal opens.
     */
    method HandleSubmit()
      requires Valid()
      modifies this
      ensures Valid()
      ensures formData == old(formData) && errors == ResetErrors(old(formData))
      ensures showSuccessModal == (old(showSuccessModal) || ResetErrors(old(formData)) == map[])
    {
      var ok := Validate();
      if !ok {
        return;
      }
      isLoading := true;
      isLoading := false;
      showSuccessModal := true;
    }
  }
}
