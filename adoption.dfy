/**
 * The modal in which an adopter confirms that the pet was received: a
 * three-field completion form that, once valid, is replaced by a
 * confirmation panel and reported to the page.
 */
module StartAdoption {
  import opened Wrappers
  import opened Text
  import opened Validation
  import opened InterestCard

  datatype CompletionField = DateReceived | ReceiptLocation | PetCondition

  datatype CompletionFormData = CompletionFormData(dateReceived: string, receiptLocation: string, petCondition: string) {
    function Get(f: CompletionField): string {
      match f
      case DateReceived => dateReceived
      case ReceiptLocation => receiptLocation
      case PetCondition => petCondition
    }

    /** `{ ...prev, [field]: value }`: only the named field changes. */
    function Set(f: CompletionField, value: string): (d: CompletionFormData)
      ensures d.Get(f) == value
      ensures forall g :: g != f ==> d.Get(g) == Get(g)
    {
      match f
      case DateReceived => this.(dateReceived := value)
      case ReceiptLocation => this.(receiptLocation := value)
      case PetCondition => this.(petCondition := value)
    }
  }

  const EmptyCompletion := CompletionFormData("", "", "")

  /** The message each field shows when it is missing. */
  function MissingMessage(f: CompletionField): Message {
    match f
    case DateReceived => DateRequired
    case ReceiptLocation => LocationRequired
    case PetCondition => ConditionRequired
  }

  /**
   * Whether a field counts as missing: the two text inputs after trimming,
   * the condition select on its raw value.
   */
  predicate Missing(d: CompletionFormData, f: CompletionField) {
    if f == PetCondition then d.petCondition == "" else IsBlank(d.Get(f))
  }

  /** The map `validate` returns, built in the order the fields are checked. */
  function CompletionErrors(d: CompletionFormData): map<CompletionField, Message> {
    var m := Record(map[], DateReceived, if IsBlank(d.dateReceived) then Some(DateRequired) else None);
    var m' := Record(m, ReceiptLocation, if IsBlank(d.receiptLocation) then Some(LocationRequired) else None);
    Record(m', PetCondition, if d.petCondition == "" then Some(ConditionRequired) else None)
  }

  /** A field has an error exactly when it is missing, and the error is that field's message. */
  lemma CompletionErrorsExact(d: CompletionFormData)
    ensures forall f :: f in CompletionErrors(d) <==> Missing(d, f)
    ensures forall f :: f in CompletionErrors(d) ==> CompletionErrors(d)[f] == MissingMessage(f)
  {
    var m := Record(map[], DateReceived, if IsBlank(d.dateReceived) then Some(DateRequired) else None);
    var m' := Record(m, ReceiptLocation, if IsBlank(d.receiptLocation) then Some(LocationRequired) else None);
    assert m.Keys <= {DateReceived} && (DateReceived in m <==> Missing(d, DateReceived));
    assert m'.Keys <= {DateReceived, ReceiptLocation} && (ReceiptLocation in m' <==> Missing(d, ReceiptLocation));
    assert CompletionErrors(d) == Record(m', PetCondition, if d.petCondition == "" then Some(ConditionRequired) else None);
  }

  /** The form is complete exactly when both text fields hold a non-space character and a condition is chosen. */
  lemma CompletionValidIff(d: CompletionFormData)
    ensures CompletionErrors(d) == map[] <==>
      !AllSpace(d.dateReceived) && !AllSpace(d.receiptLocation) && d.petCondition != ""
  {
    BlankIffAllSpace(d.dateReceived);
    BlankIffAllSpace(d.receiptLocation);
    if CompletionErrors(d) == map[] {
      CompletionErrorsExact(d);
      assert !Missing(d, DateReceived) && !Missing(d, ReceiptLocation) && !Missing(d, PetCondition);
    }
  }

  /** Only the text inputs are trimmed: a whitespace condition value passes, whitespace text does not. */
  lemma ConditionIsNotTrimmed()
    ensures CompletionErrors(CompletionFormData("2024-01-01", "Lagos", " ")) == map[]
    ensures CompletionErrors(CompletionFormData(" ", "Lagos", "good")) == map[DateReceived := DateRequired]
  {
    CompletionValidIff(CompletionFormData("2024-01-01", "Lagos", " "));
    assert !IsSpace("2024-01-01"[0]) && !IsSpace("Lagos"[0]);
    BlankIffAllSpace(" ");
    BlankIffAllSpace("Lagos");
  }

  /** Callbacks the modal invokes on its parent. */
  datatype Effect = OnConfirm(id: string, data: CompletionFormData) | OnCancel

  /** What the modal renders. */
  datatype Panel = Nothing | FormPanel | Confirmation

  class AdoptionModal {
    const pet: Option<InterestPet>
    var submitted: bool
    var formData: CompletionFormData
    var errors: map<CompletionField, Message>

    constructor(pet: Option<InterestPet>)
      ensures this.pet == pet
      ensures !submitted && formData == EmptyCompletion && errors == map[]
    {
      this.pet := pet;
      submitted := false;
      formData := EmptyCompletion;
      errors := map[];
    }

    /** Nothing without a pet; otherwise the form until confirmation, then the confirmation panel. */
    function View(): (p: Panel)
      reads this
      ensures p == Nothing <==> pet.None?
      ensures p == FormPanel <==> pet.Some? && !submitted
      ensures p == Confirmation <==> pet.Some? && submitted
    {
      if pet.None? then Nothing else if !submitted then FormPanel else Confirmation
    }

    /** Checks the three fields in order and returns a fresh error map; the modal's state is untouched. */
    method Validate() returns (newErrors: map<CompletionField, Message>)
      ensures newErrors == CompletionErrors(formData)
    {
      newErrors := map[];
      if IsBlank(formData.dateReceived) {
        newErrors := newErrors[DateReceived := DateRequired];
      }
      if IsBlank(formData.receiptLocation) {
        newErrors := newErrors[ReceiptLocation := LocationRequired];
      }
      if formData.petCondition == "" {
        newErrors := newErrors[PetCondition := ConditionRequired];
      }
    }

    /**
     * An incomplete form stores its errors and stops: nothing is submitted
     * and the parent is not told. A complete form clears the errors, switches
     * to the confirmation and reports the pet's id and the form exactly once.
     */
    method HandleConfirm() returns (effects: seq<Effect>)
      requires pet.Some?
      modifies this
      ensures formData == old(formData)
      ensures CompletionErrors(old(formData)) != map[] ==>
        errors == CompletionErrors(old(formData)) && submitted == old(submitted) && effects == []
      ensures CompletionErrors(old(formData)) == map[] ==>
        errors == map[] && submitted && effects == [OnConfirm(pet.value.id, formData)]
      ensures View() == (if CompletionErrors(old(formData)) == map[] then Confirmation else old(View()))
    {
      var newErrors := Validate();
      if |newErrors| > 0 {
        errors := newErrors;
        return [];
      }
      errors := map[];
      submitted := true;
      effects := [OnConfirm(pet.value.id, formData)];
    }

    /** Updates one field and clears that field's error only. */
    method HandleChange(field: CompletionField, value: string)
      modifies this
      ensures formData == old(formData).Set(field, value)
      ensures errors == old(errors) - {field}
      ensures submitted == old(submitted)
    {
      formData := formData.Set(field, value);
      errors := ClearError(errors, field);
    }

    /**
     * The backdrop, the close icon, the form's cancel button and the
     * confirmation's button all call the parent's cancel handler and change
     * nothing here.
     */
    method Cancel() returns (effects: seq<Effect>)
      requires pet.Some?
      ensures effects == [OnCancel]
    {
      effects := [OnCancel];
    }
  }
}
