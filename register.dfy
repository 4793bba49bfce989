/** The account-registration form: e-mail, full name, NIN and password. */
module Register {
  import opened Wrappers
  import opened Text
  import opened Validation
  import EmailSyntax

  datatype RegisterField = Email | FullName | Nin | Password

  const RegisterFields: set<RegisterField> := {Email, FullName, Nin, Password}

  datatype RegisterData = RegisterData(email: string, fullName: string, nin: string, password: string) {
    function Get(f: RegisterField): string {
      match f
      case Email => email
      case FullName => fullName
      case Nin => nin
      case Password => password
    }

    /** `{ ...prev, [field]: value }`: only the named field changes. */
    function Set(f: RegisterField, value: string): (d: RegisterData)
      ensures d.Get(f) == value
      ensures forall g :: g != f ==> d.Get(g) == Get(g)
    {
      match f
      case Email => this.(email := value)
      case FullName => this.(fullName := value)
      case Nin => this.(nin := value)
      case Password => this.(password := value)
    }
  }

  const EmptyRegisterData := RegisterData("", "", "", "")

  /** Full name: required, then at least 2 UTF-16 units once trimmed. */
  function FullNameError(name: string): (r: Option<Message>)
    ensures r == None <==> Utf16Length(Trim(name)) >= 2
    ensures r == Some(FullNameRequired) <==> IsBlank(name)
    ensures r == Some(FullNameTooShort) <==> !IsBlank(name) && Utf16Length(Trim(name)) < 2
  {
    if IsBlank(name) then Some(FullNameRequired)
    else if Utf16Length(Trim(name)) < 2 then Some(FullNameTooShort)
    else None
  }

  /** NIN: required, then at least 11 UTF-16 units once trimmed; the characters are not checked. */
  function NinError(nin: string): (r: Option<Message>)
    ensures r == None <==> Utf16Length(Trim(nin)) >= 11
    ensures r == Some(NinRequired) <==> IsBlank(nin)
    ensures r == Some(NinTooShort) <==> !IsBlank(nin) && Utf16Length(Trim(nin)) < 11
  {
    if IsBlank(nin) then Some(NinRequired)
    else if Utf16Length(Trim(nin)) < 11 then Some(NinTooShort)
    else None
  }

  /** Any 11 non-whitespace characters pass the register NIN rule, letters included. */
  lemma NinRuleIgnoresDigits(nin: string)
    requires |nin| == 11 && forall i :: 0 <= i < |nin| ==> !IsSpace(nin[i])
    ensures NinError(nin) == None
  {
    TrimNoSurroundingSpace(nin);
  }

  /** A one-emoji name is two UTF-16 units long once trimmed, so it passes the full-name rule. */
  lemma OneEmojiNamePasses()
    ensures FullNameError("\U{1F600}") == None
  {
    TrimNoSurroundingSpace("\U{1F600}");
    EmojiCountsTwice();
  }

  function FieldError(d: RegisterData, f: RegisterField): Option<Message> {
    match f
    case Email => EmailError(d.email)
    case FullName => FullNameError(d.fullName)
    case Nin => NinError(d.nin)
    case Password => NewPasswordError(d.password)
  }

  /** The map `validate` stores, built in the order the rules are checked. */
  function RegisterErrors(d: RegisterData): map<RegisterField, Message> {
    var m := Record(map[], Email, EmailError(d.email));
    var m := Record(m, FullName, FullNameError(d.fullName));
    var m := Record(m, Nin, NinError(d.nin));
    Record(m, Password, NewPasswordError(d.password))
  }

  /** A field is in the map exactly when its rule fails, and then holds that rule's message. */
  lemma {:induction false} RegisterErrorsExact(d: RegisterData, f: RegisterField)
    ensures f in RegisterErrors(d) <==> FieldError(d, f).Some?
    ensures f in RegisterErrors(d) ==> RegisterErrors(d)[f] == FieldError(d, f).value
  {
  }

  /** The form is valid exactly when every field meets its rule. */
  lemma RegisterValidIff(d: RegisterData)
    ensures RegisterErrors(d) == map[] <==>
      && EmailSyntax.MatchesPattern(d.email)
      && Utf16Length(Trim(d.fullName)) >= 2
      && Utf16Length(Trim(d.nin)) >= 11
      && Utf16Length(d.password) >= 8
  {
    EmailErrorSpec(d.email);
    NewPasswordErrorSpec(d.password);
    RegisterErrorsExact(d, Email);
    RegisterErrorsExact(d, FullName);
    RegisterErrorsExact(d, Nin);
    RegisterErrorsExact(d, Password);
    if RegisterErrors(d) != map[] {
      var f :| f in RegisterErrors(d);
      RegisterErrorsExact(d, f);
    }
  }

  class RegisterForm {
    var formData: RegisterData
    var errors: map<RegisterField, Message>
    var isLoading: bool
    var showSuccessModal: bool

    /** The submit delay is one atomic step, so loading is never observed between events. */
    ghost predicate Valid()
      reads this
    {
      !isLoading
    }

    constructor()
      ensures Valid()
      ensures formData == EmptyRegisterData && errors == map[]
      ensures !isLoading && !showSuccessModal
    {
      formData := EmptyRegisterData;
      errors := map[];
      isLoading := false;
      showSuccessModal := false;
    }

    /** Re-validates every field, replaces the whole error map, and reports whether it is empty. */
    method Validate() returns (ok: bool)
      requires Valid()
      modifies this
      ensures Valid()
      ensures errors == RegisterErrors(formData) && ok == (errors == map[])
      ensures formData == old(formData) && isLoading == old(isLoading)
      ensures showSuccessModal == old(showSuccessModal)
    {
      var d := formData;
      var newErrors: map<RegisterField, Message> := map[];
      if IsBlank(d.email) {
        newErrors := newErrors[Email := EmailRequired];
      } else if !EmailSyntax.IsEmail(d.email) {
        newErrors := newErrors[Email := EmailInvalid];
      }
      ghost var afterEmail := newErrors;
      assert afterEmail == Record(map[], Email, EmailError(d.email));
      if IsBlank(d.fullName) {
        newErrors := newErrors[FullName := FullNameRequired];
      } else if Utf16Length(Trim(d.fullName)) < 2 {
        newErrors := newErrors[FullName := FullNameTooShort];
      }
      ghost var afterName := newErrors;
      assert afterName == Record(afterEmail, FullName, FullNameError(d.fullName));
      if IsBlank(d.nin) {
        newErrors := newErrors[Nin := NinRequired];
      } else if Utf16Length(Trim(d.nin)) < 11 {
        newErrors := newErrors[Nin := NinTooShort];
      }
      ghost var afterNin := newErrors;
      assert afterNin == Record(afterName, Nin, NinError(d.nin));
      if d.password == "" {
        newErrors := newErrors[Password := PasswordRequired];
      } else if Utf16Length(d.password) < 8 {
        newErrors := newErrors[Password := PasswordTooShort];
      }
      assert newErrors == Record(afterNin, Password, NewPasswordError(d.password));
      errors := newErrors;
      ok := |newErrors| == 0;
    }

    /** Updates one field and clears that field's error only. */
    method HandleChange(field: RegisterField, value: string)
      requires Valid()
      modifies this
      ensures Valid()
      ensures formData == old(formData).Set(field, value)
      ensures errors == old(errors) - {field}
      ensures isLoading == old(isLoading) && showSuccessModal == old(showSuccessModal)
    {
      formData := formData.Set(field, value);
      errors := ClearError(errors, field);
    }

    /**
     * Validates; on failure nothing else happens. On success the mocked
     * 1500 ms request runs as one step and the success modal opens.
     */
    method HandleSubmit()
      requires Valid()
      modifies this
      ensures Valid()
      ensures formData == old(formData) && errors == RegisterErrors(old(formData))
      ensures showSuccessModal == (old(showSuccessModal) || RegisterErrors(old(formData)) == map[])
    {
      var ok := Validate();
      if !ok {
        return;
      }
      isLoading := true;
      isLoading := false;
      showSuccessModal := true;
    }
  }
}
