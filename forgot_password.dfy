/** The forgot-password form: one e-mail field, then navigation to the reset page. */
module ForgotPassword {
  import opened Wrappers
  import opened Validation
  import EmailSyntax

  datatype ForgotField = Email

  datatype ForgotData = ForgotData(email: string) {
    /** `{ ...prev, [field]: value }`. */
    function Set(f: ForgotField, value: string): (d: ForgotData)
      ensures d.email == value
    {
      match f
      case Email => this.(email := value)
    }
  }

  const ResetRoute := "/reset"

  /** The map `validate` stores. */
  function ForgotErrors(d: ForgotData): map<ForgotField, Message> {
    Record(map[], Email, EmailError(d.email))
  }

  /** Valid exactly when the raw e-mail matches the pattern; a blank one is "required". */
  lemma ForgotValidIff(d: ForgotData)
    ensures ForgotErrors(d) == map[] <==> EmailSyntax.MatchesPattern(d.email)
    ensures Text.AllSpace(d.email) ==> ForgotErrors(d) == map[Email := EmailRequired]
  {
    EmailErrorSpec(d.email);
    if ForgotErrors(d) == map[] {
      assert Email !in ForgotErrors(d);
    }
  }

  class ForgetPasswordForm {
    var formData: ForgotData
    var errors: map<ForgotField, Message>
    var isLoading: bool

    /** The request delay is one atomic step, so loading is never observed between events. */
    ghost predicate Valid()
      reads this
    {
      !isLoading
    }

    constructor()
      ensures Valid()
      ensures formData == ForgotData("") && errors == map[] && !isLoading
    {
      formData := ForgotData("");
      errors := map[];
      isLoading := false;
    }

    /** Replaces the error map and reports whether the e-mail passed. */
    method Validate() returns (ok: bool)
      requires Valid()
      modifies this
      ensures Valid()
      ensures errors == ForgotErrors(formData) && ok == (errors == map[])
      ensures formData == old(formData) && isLoading == old(isLoading)
    {
      var newErrors: map<ForgotField, Message> := map[];
      if Text.IsBlank(formData.email) {
        newErrors := newErrors[Email := EmailRequired];
      } else if !EmailSyntax.IsEmail(formData.email) {
        newErrors := newErrors[Email := EmailInvalid];
      }
      errors := newErrors;
      ok := |newErrors| == 0;
    }

    /** Sets the e-mail and clears its error. */
    method HandleChange(field: ForgotField, value: string)
      requires Valid()
      modifies this
      ensures Valid()
      ensures formData == old(formData).Set(field, value)
      ensures errors == old(errors) - {field}
      ensures isLoading == old(isLoading)
    {
      formData := formData.Set(field, value);
      errors := ClearError(errors, field);
    }

    /**
     * Validates; on failure returns without loading or navigating. Otherwise
     * the mocked 1000 ms request runs as one step and the page navigates to
     * the reset route, returned here as `route`.
     */
    method HandleSubmit() returns (route: Option<string>)
      requires Valid()
      modifies this
      ensures Valid()
      ensures formData == old(formData) && errors == ForgotErrors(old(formData))
      ensures route == if ForgotErrors(old(formData)) == map[] then Some(ResetRoute) else None
    {
      var ok := Validate();
      if !ok {
        return None;
      }
      isLoading := true;
      isLoading := false;
      route := Some(ResetRoute);
    }
  }
}
