/** The two-step pet-listing wizard: details, then at least three of five images, then success. */
module Listing {
  import opened Wrappers
  import opened Text
  import opened Validation
  import Filters

  datatype DraftField =
    AdoptionType | Description | Title | PetType | Breed | Age | Gender | Vaccination | State | City

  /** Keys of the error map: the ten text fields and `images`. */
  datatype ListingKey = FieldKey(field: DraftField) | ImagesKey

  /** A chosen file; its contents play no part in the logic. */
  datatype ImageFile = ImageFile(name: string)

  datatype Draft = Draft(
    adoptionType: string, description: string, title: string, petType: string, breed: string,
    age: string, gender: string, vaccination: string, state: string, city: string,
    images: seq<Option<ImageFile>>)
  {
    function Get(f: DraftField): string {
      match f
      case AdoptionType => adoptionType
      case Description => description
      case Title => title
      case PetType => petType
      case Breed => breed
      case Age => age
      case Gender => gender
      case Vaccination => vaccination
      case State => state
      case City => city
    }

    /** `{ ...prev, [field]: value }`: only the named field changes, images included. */
    function Set(f: DraftField, value: string): (d: Draft)
      ensures d.Get(f) == value && d.images == images
      ensures forall g :: g != f ==> d.Get(g) == Get(g)
    {
      match f
      case AdoptionType => this.(adoptionType := value)
      case Description => this.(description := value)
      case Title => this.(title := value)
      case PetType => this.(petType := value)
      case Breed => this.(breed := value)
      case Age => this.(age := value)
      case Gender => this.(gender := value)
      case Vaccination => this.(vaccination := value)
      case State => this.(state := value)
      case City => this.(city := value)
    }
  }

  const ImageSlots: nat := 5
  const MinImages: nat := 3

  /** Ten empty fields and five empty image slots. */
  const InitState: Draft := Draft("", "", "", "", "", "", "", "", "", "", [None, None, None, None, None])

  lemma InitStateIsEmpty()
    ensures forall f :: InitState.Get(f) == ""
    ensures |InitState.images| == ImageSlots && forall i :: 0 <= i < ImageSlots ==> InitState.images[i] == None
  {
  }

  /** The order in which `validateStep1` checks the fields. */
  const Step1Order: seq<DraftField> :=
    [AdoptionType, Description, Title, PetType, Breed, Age, Gender, Vaccination, State, City]

  /** The four free-text fields are checked after trimming; the six selects on the raw value. */
  predicate Trimmed(f: DraftField) {
    f == Description || f == Title || f == Breed || f == City
  }

  predicate FieldMissing(d: Draft, f: DraftField) {
    if Trimmed(f) then IsBlank(d.Get(f)) else d.Get(f) == ""
  }

  function FieldCheck(d: Draft, f: DraftField): Option<Message> {
    if FieldMissing(d, f) then Some(Required) else None
  }

  /** The map after the first `n` checks, taken in the given order. */
  function ErrorsUpTo(d: Draft, order: seq<DraftField>, n: nat): map<ListingKey, Message>
    requires n <= |order|
  {
    if n == 0 then map[]
    else Record(ErrorsUpTo(d, order, n - 1), FieldKey(order[n - 1]), FieldCheck(d, order[n - 1]))
  }

  function Step1Errors(d: Draft): map<ListingKey, Message> {
    ErrorsUpTo(d, Step1Order, |Step1Order|)
  }

  lemma {:induction false} ErrorsUpToExact(d: Draft, order: seq<DraftField>, n: nat, k: ListingKey)
    requires n <= |order|
    ensures k in ErrorsUpTo(d, order, n) <==> k.FieldKey? && k.field in order[..n] && FieldMissing(d, k.field)
    ensures k in ErrorsUpTo(d, order, n) ==> ErrorsUpTo(d, order, n)[k] == Required
  {
    if n > 0 {
      ErrorsUpToExact(d, order, n - 1, k);
      var f, prev := order[n - 1], ErrorsUpTo(d, order, n - 1);
      assert order[..n] == order[..n - 1] + [f];
      assert ErrorsUpTo(d, order, n) == Record(prev, FieldKey(f), FieldCheck(d, f));
      if k == FieldKey(f) {
        assert f in order[..n];
      } else {
        assert k in ErrorsUpTo(d, order, n) <==> k in prev;
        assert k.FieldKey? ==> (k.field in order[..n] <==> k.field in order[..n - 1]);
      }
    }
  }

  /**
   * `validateStep1` puts "Required" on exactly the missing fields and
   * never on `images`; a whitespace-only title is missing, a whitespace-only
   * select value is not.
   */
  lemma Step1ErrorsExact(d: Draft, k: ListingKey)
    ensures k in Step1Errors(d) <==> k.FieldKey? && FieldMissing(d, k.field)
    ensures k in Step1Errors(d) ==> Step1Errors(d)[k] == Required
  {
    ErrorsUpToExact(d, Step1Order, |Step1Order|, k);
    assert Step1Order[..|Step1Order|] == Step1Order;
    if k.FieldKey? {
      EveryFieldChecked(k.field);
    }
  }

  /** The order lists each of the ten fields. */
  lemma EveryFieldChecked(f: DraftField)
    ensures f in Step1Order
  {
    match f
    case AdoptionType => assert Step1Order[0] == f;
    case Description => assert Step1Order[1] == f;
    case Title => assert Step1Order[2] == f;
    case PetType => assert Step1Order[3] == f;
    case Breed => assert Step1Order[4] == f;
    case Age => assert Step1Order[5] == f;
    case Gender => assert Step1Order[6] == f;
    case Vaccination => assert Step1Order[7] == f;
    case State => assert Step1Order[8] == f;
    case City => assert Step1Order[9] == f;
  }

  lemma Step1ValidIff(d: Draft)
    ensures Step1Errors(d) == map[] <==> forall f :: !FieldMissing(d, f)
  {
    if Step1Errors(d) != map[] {
      var k :| k in Step1Errors(d);
      Step1ErrorsExact(d, k);
    } else {
      forall f
        ensures !FieldMissing(d, f)
      {
        Step1ErrorsExact(d, FieldKey(f));
      }
    }
  }

  lemma BlankTitleIsMissing(d: Draft)
    requires AllSpace(d.title)
    ensures FieldKey(Title) in Step1Errors(d)
  {
    BlankIffAllSpace(d.title);
    Step1ErrorsExact(d, FieldKey(Title));
  }

  predicate IsFilled(slot: Option<ImageFile>) {
    slot.Some?
  }

  /** `images.filter((img) => img !== null).length`. */
  function CountFilled(images: seq<Option<ImageFile>>): nat {
    |Filters.Filter(images, IsFilled)|
  }

  /** The count is the number of slots that are not empty. */
  lemma {:induction false} CountFilledSpec(images: seq<Option<ImageFile>>)
    ensures CountFilled(images) == |images| - multiset(images)[None]
    decreases |images|
  {
    if images != [] {
      CountFilledSpec(images[1..]);
      assert images == [images[0]] + images[1..];
      assert multiset(images) == multiset{images[0]} + multiset(images[1..]);
    }
  }

  /** Replacing one slot changes the count by what was removed and what was put there. */
  lemma CountFilledUpdate(images: seq<Option<ImageFile>>, i: nat, file: Option<ImageFile>)
    requires i < |images|
    ensures CountFilled(images[i := file]) ==
      CountFilled(images) - (if images[i].Some? then 1 else 0) + (if file.Some? then 1 else 0)
  {
    CountFilledSpec(images);
    CountFilledSpec(images[i := file]);
  }

  function Step2Errors(d: Draft): map<ListingKey, Message> {
    if CountFilled(d.images) < MinImages then map[ImagesKey := ImagesTooFew] else map[]
  }

  /**
   * Step 2 passes exactly when at least three slots hold a file, whichever
   * slots they are; only `images` can ever be reported.
   */
  lemma Step2ValidIff(d: Draft)
    ensures Step2Errors(d) == map[] <==> |d.images| - multiset(d.images)[None] >= MinImages
    ensures Step2Errors(d).Keys <= {ImagesKey}
  {
    CountFilledSpec(d.images);
    if Step2Errors(d) == map[] {
      assert ImagesKey !in Step2Errors(d);
    }
  }

  /** Callbacks the wizard invokes on its parent. */
  datatype Effect = OnClose

  /** What the component renders. */
  datatype Screen = Nothing | SuccessModal | WizardStep(step: int)

  class ListingWizard {
    var step: int
    var formData: Draft
    var errors: map<ListingKey, Message>
    var isSubmitting: bool
    var showSuccess: bool

    /** Steps are 1 and 2, the five slots stay five, and the submit delay is one atomic step. */
    ghost predicate Valid()
      reads this
    {
      (step == 1 || step == 2) && |formData.images| == ImageSlots && !isSubmitting
    }

    constructor()
      ensures Valid()
      ensures step == 1 && formData == InitState && errors == map[]
      ensures !isSubmitting && !showSuccess
    {
      step := 1;
      formData := InitState;
      errors := map[];
      isSubmitting := false;
      showSuccess := false;
    }

    /** Closed and not succeeded: nothing; succeeded: the success modal; else the current step. */
    function View(isOpen: bool): (s: Screen)
      reads this
      ensures s == Nothing <==> !isOpen && !showSuccess
      ensures s == SuccessModal <==> showSuccess
      ensures s.WizardStep? ==> s.step == step
    {
      if !isOpen && !showSuccess then Nothing
      else if showSuccess then SuccessModal
      else WizardStep(step)
    }

    /** The success action: back to the initial step, draft, errors and panel, then close. */
    method HandleClose() returns (effects: seq<Effect>)
      requires Valid()
      modifies this
      ensures Valid()
      ensures step == 1 && formData == InitState && errors == map[] && !showSuccess
      ensures isSubmitting == old(isSubmitting)
      ensures effects == [OnClose]
      ensures View(false) == Nothing && View(true) == WizardStep(1)
    {
      step := 1;
      formData := InitState;
      errors := map[];
      showSuccess := false;
      effects := [OnClose];
    }

    /** The header close button calls the parent's `onClose` only: the draft and step are kept. */
    method HeaderClose() returns (effects: seq<Effect>)
      ensures effects == [OnClose]
    {
      effects := [OnClose];
    }

    /** Sets one text field and clears that field's error only. */
    method HandleChange(field: DraftField, value: string)
      requires Valid()
      modifies this
      ensures Valid()
      ensures formData == old(formData).Set(field, value)
      ensures errors == old(errors) - {FieldKey(field)}
      ensures step == old(step) && isSubmitting == old(isSubmitting) && showSuccess == old(showSuccess)
    {
      formData := formData.Set(field, value);
      errors := ClearError(errors, FieldKey(field));
    }

    /** Replaces one of the five slots and clears the `images` error. */
    method HandleImageChange(index: nat, file: Option<ImageFile>)
      requires Valid() && index < ImageSlots
      modifies this
      ensures Valid()
      ensures formData == old(formData).(images := old(formData).images[index := file])
      ensures errors == old(errors) - {ImagesKey}
      ensures CountFilled(formData.images) == CountFilled(old(formData).images)
        - (if old(formData).images[index].Some? then 1 else 0) + (if file.Some? then 1 else 0)
      ensures step == old(step) && isSubmitting == old(isSubmitting) && showSuccess == old(showSuccess)
    {
      CountFilledUpdate(formData.images, index, file);
      var newImages := formData.images[index := file];
      formData := formData.(images := newImages);
      errors := ClearError(errors, ImagesKey);
    }

    /**
     * Replaces the error map with the step-1 checks and reports whether none
     * failed. The ten checks have one shape, so they run as one pass over
     * the fields in the source's order.
     */
    method ValidateStep1() returns (ok: bool)
      requires Valid()
      modifies this
      ensures Valid()
      ensures errors == Step1Errors(formData) && ok == (errors == map[])
      ensures step == old(step) && formData == old(formData)
      ensures isSubmitting == old(isSubmitting) && showSuccess == old(showSuccess)
    {
      var newErrors: map<ListingKey, Message> := map[];
      for n := 0 to |Step1Order|
        invariant newErrors == ErrorsUpTo(formData, Step1Order, n)
      {
        var field := Step1Order[n];
        var missing := if Trimmed(field) then IsBlank(formData.Get(field)) else formData.Get(field) == "";
        if missing {
          newErrors := newErrors[FieldKey(field) := Required];
        }
      }
      errors := newErrors;
      ok := |newErrors| == 0;
    }

    /** Moves to step 2 exactly when step 1 validates; the draft is kept either way. */
    method HandleProceed()
      requires Valid()
      modifies this
      ensures Valid()
      ensures errors == Step1Errors(formData) && formData == old(formData)
      ensures step == (if Step1Errors(formData) == map[] then 2 else old(step))
      ensures isSubmitting == old(isSubmitting) && showSuccess == old(showSuccess)
      ensures Step1Errors(formData) == map[] && !showSuccess ==> View(true) == WizardStep(2)
    {
      var ok := ValidateStep1();
      if ok {
        step := 2;
      }
    }

    /** Replaces the error map with the image check and reports whether it passed. */
    method ValidateStep2() returns (ok: bool)
      requires Valid()
      modifies this
      ensures Valid()
      ensures errors == Step2Errors(formData) && ok == (errors == map[])
      ensures step == old(step) && formData == old(formData)
      ensures isSubmitting == old(isSubmitting) && showSuccess == old(showSuccess)
    {
      var newErrors: map<ListingKey, Message> := map[];
      var imgCount := |Filters.Filter(formData.images, IsFilled)|;
      if imgCount < 3 {
        newErrors := newErrors[ImagesKey := ImagesTooFew];
      }
      errors := newErrors;
      ok := |newErrors| == 0;
    }

    /**
     * On a failed image check only the error map changes. Otherwise the
     * mocked 1500 ms request runs as one step and the success modal opens.
     */
    method HandleSubmit()
      requires Valid()
      modifies this
      ensures Valid()
      ensures errors == Step2Errors(old(formData))
      ensures step == old(step) && formData == old(formData)
      ensures showSuccess == (old(showSuccess) || Step2Errors(old(formData)) == map[])
      ensures Step2Errors(old(formData)) == map[] ==> View(true) == SuccessModal && View(false) == SuccessModal
    {
      var ok := ValidateStep2();
      if !ok {
        return;
      }
      isSubmitting := true;
      isSubmitting := false;
      showSuccess := true;
    }

    /** The Back button on step 2 returns to step 1 with the draft and errors kept. */
    method Back()
      requires Valid()
      modifies this
      ensures Valid()
      ensures step == 1
      ensures formData == old(formData) && errors == old(errors)
      ensures isSubmitting == old(isSubmitting) && showSuccess == old(showSuccess)
    {
      step := 1;
    }
  }
}
