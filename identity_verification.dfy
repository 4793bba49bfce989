/** The identity-verification modal: NIN entry, then a success or failure panel. */
module IdentityVerification {
  import opened Text
  import opened Wrappers
  import Validation
  import Register

  datatype ModalStep = Input | Success | Failed

  /** Callbacks the modal invokes on its parent. */
  datatype Effect = OnClose | OnSuccess

  /** The buttons the three panels render. */
  datatype Button = CloseIcon | VerifyLater | VerifyNow | BackToHome | RetryVerification

  /** The regular expression `^\d+$`: one ASCII digit, then `\d*` up to the end. */
  predicate DigitsPlus(s: string)
    decreases |s|
  {
    |s| >= 1 && IsDigit(s[0]) && (|s| == 1 || DigitsPlus(s[1..]))
  }

  /** The pattern accepts exactly the non-empty strings of ASCII digits. */
  lemma {:induction false} DigitsPlusIff(s: string)
    ensures DigitsPlus(s) <==> s != [] && forall k :: 0 <= k < |s| ==> IsDigit(s[k])
    decreases |s|
  {
    if |s| > 1 {
      DigitsPlusIff(s[1..]);
      assert forall k :: 1 <= k < |s| ==> s[k] == s[1..][k - 1];
    }
  }

  /** `handleVerifyNow`'s test: JavaScript length 10 and the digit pattern. */
  predicate NinAccepted(nin: string) {
    Utf16Length(nin) == 10 && DigitsPlus(nin)
  }

  /** A NIN passes the modal exactly when it is ten ASCII digits. */
  lemma NinAcceptedIff(nin: string)
    ensures NinAccepted(nin) <==> |nin| == 10 && forall k :: 0 <= k < |nin| ==> IsDigit(nin[k])
  {
    DigitsPlusIff(nin);
    if forall k :: 0 <= k < |nin| ==> IsDigit(nin[k]) {
      Utf16LengthBmp(nin);
    }
  }

  lemma TenDigitsAccepted()
    ensures NinAccepted("1234567890")
  {
    var s := "1234567890";
    assert forall k :: 0 <= k < |s| ==> IsDigit(s[k]);
    NinAcceptedIff(s);
  }

  /** A NIN whose length is not ten is refused, whatever its characters. */
  lemma WrongLengthRejected(nin: string)
    requires |nin| != 10
    ensures !NinAccepted(nin)
  {
    NinAcceptedIff(nin);
  }

  /** A NIN with a character that is not an ASCII digit is refused. */
  lemma NonDigitRejected(nin: string, k: nat)
    requires k < |nin| && !IsDigit(nin[k])
    ensures !NinAccepted(nin)
  {
    NinAcceptedIff(nin);
  }

  /** Nine or eleven digits, the empty string and a short word are refused for their length. */
  lemma NinWrongLengthExamples()
    ensures !NinAccepted("123456789") && !NinAccepted("12345678901") && !NinAccepted("") && !NinAccepted("abc")
  {
    WrongLengthRejected("123456789");
    WrongLengthRejected("12345678901");
    WrongLengthRejected("");
    WrongLengthRejected("abc");
  }

  /** Ten characters with a space or letters among them are refused for the pattern. */
  lemma NinNonDigitExamples()
    ensures !NinAccepted(" 123456789") && !NinAccepted("12345abcde")
  {
    NonDigitRejected(" 123456789", 0);
    NonDigitRejected("12345abcde", 5);
  }

  /**
   * The modal and the register form disagree: every NIN this modal accepts
   * (ten digits) is too short for the register rule (eleven characters).
   */
  lemma NinRulesDisagree(nin: string)
    requires NinAccepted(nin)
    ensures Register.NinError(nin) == Some(Validation.NinTooShort)
  {
    NinAcceptedIff(nin);
    BlankIffAllSpace(nin);
    assert !IsSpace(nin[0]);
    Utf16LengthBmp(nin);
  }

  /** Buttons offered by each panel. */
  function Buttons(step: ModalStep): (r: set<Button>)
    ensures VerifyNow in r <==> step == Input
    ensures BackToHome in r <==> step == Success
    ensures RetryVerification in r <==> step == Failed
  {
    match step
    case Input => {CloseIcon, VerifyLater, VerifyNow}
    case Success => {BackToHome}
    case Failed => {VerifyLater, RetryVerification}
  }

  class IdentityModal {
    /** Whether the parent passed `onSuccess`. */
    const hasOnSuccess: bool
    var step: ModalStep
    var nin: string

    constructor(hasOnSuccess: bool)
      ensures this.hasOnSuccess == hasOnSuccess
      ensures step == Input && nin == ""
    {
      this.hasOnSuccess := hasOnSuccess;
      step := Input;
      nin := "";
    }

    /** Rendering returns nothing while closed; otherwise the current panel's buttons. */
    function Offered(isOpen: bool): (r: set<Button>)
      reads this
      ensures !isOpen ==> r == {}
      ensures isOpen ==> r == Buttons(step)
    {
      if isOpen then Buttons(step) else {}
    }

    /** Typing into the NIN input. */
    method SetNin(value: string)
      modifies this
      ensures nin == value && step == old(step)
    {
      nin := value;
    }

    /** Moves to the success panel exactly when the NIN is accepted; the NIN is kept. */
    method HandleVerifyNow()
      modifies this
      ensures step == (if NinAccepted(old(nin)) then Success else Failed)
      ensures nin == old(nin)
    {
      var isValid := Utf16Length(nin) == 10 && DigitsPlus(nin);
      if isValid {
        step := Success;
      } else {
        step := Failed;
      }
    }

    /** Resets the modal and tells the parent to close it. */
    method HandleClose() returns (effects: seq<Effect>)
      modifies this
      ensures step == Input && nin == ""
      ensures effects == [OnClose]
    {
      step := Input;
      nin := "";
      effects := [OnClose];
    }

    /** Back to the input panel with an empty NIN; the modal stays open. */
    method HandleRetry()
      modifies this
      ensures step == Input && nin == ""
    {
      step := Input;
      nin := "";
    }

    /** `onSuccess` (when given) runs before the close sequence. */
    method HandleSuccessClose() returns (effects: seq<Effect>)
      modifies this
      ensures step == Input && nin == ""
      ensures effects == (if hasOnSuccess then [OnSuccess, OnClose] else [OnClose])
    {
      effects := [];
      if hasOnSuccess {
        effects := [OnSuccess];
      }
      var closing := HandleClose();
      effects := effects + closing;
    }

    /**
     * A click on a rendered button runs the handler it is wired to. The
     * parent hears `OnSuccess` only from the success panel, and every
     * button but Verify Now and Retry closes the modal.
     */
    method Click(isOpen: bool, b: Button) returns (effects: seq<Effect>)
      requires b in Offered(isOpen)
      modifies this
      ensures OnSuccess in effects ==> old(step) == Success && hasOnSuccess
      ensures OnClose in effects <==> b !in {VerifyNow, RetryVerification}
      ensures b != VerifyNow ==> step == Input && nin == ""
      ensures b == VerifyNow ==> step == (if NinAccepted(old(nin)) then Success else Failed) && nin == old(nin)
    {
      match b
      case CloseIcon =>
        effects := HandleClose();
      case VerifyLater =>
        effects := HandleClose();
      case VerifyNow =>
        HandleVerifyNow();
        effects := [];
      case BackToHome =>
        effects := HandleSuccessClose();
      case RetryVerification =>
        HandleRetry();
        effects := [];
    }
  }
}
