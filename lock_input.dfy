/** LockInput: one lock's code field. It knows whether its lock is open, clamps what is typed,
    and guards the submission. */
module LockInput {
  import opened Wrappers
  import opened Text
  import opened Dto

  /** `isUnlocked`: the flag of the lock type, strictly `=== true`; false without a state or
      for an unknown type. */
  function IsUnlocked(gameState: Option<GameStateDTO>, lockType: string): (r: bool)
    ensures gameState.None? ==> !r
    ensures gameState.Some? && lockType == "cell-drawer" ==> (r <==> gameState.value.cellDrawerUnlocked == Some(true))
    ensures gameState.Some? && lockType == "cell-door" ==> (r <==> gameState.value.cellDoorUnlocked == Some(true))
    ensures gameState.Some? && lockType == "desk-drawer" ==> (r <==> gameState.value.deskDrawerUnlocked == Some(true))
    ensures gameState.Some? && lockType == "final-door" ==> (r <==> gameState.value.finalDoorUnlocked == Some(true))
    ensures lockType !in ["cell-drawer", "cell-door", "desk-drawer", "final-door"] ==> !r
  {
    if gameState.None? then false
    else match lockType
      case "cell-drawer" => Truthy(gameState.value.cellDrawerUnlocked)
      case "cell-door" => Truthy(gameState.value.cellDoorUnlocked)
      case "desk-drawer" => Truthy(gameState.value.deskDrawerUnlocked)
      case "final-door" => Truthy(gameState.value.finalDoorUnlocked)
      case _ => false
  }

  /** `value.slice(0, maxLength)`. */
  function Clamp(value: string, maxLength: nat): (r: string)
    ensures |r| <= maxLength && |r| <= |value|
    ensures r == value[..|r|]
    ensures |value| <= maxLength ==> r == value
    ensures |value| > maxLength ==> |r| == maxLength
  {
    if |value| <= maxLength then value else value[..maxLength]
  }

  lemma ClampIdempotent(value: string, maxLength: nat)
    ensures Clamp(Clamp(value, maxLength), maxLength) == Clamp(value, maxLength)
  {
  }

  /** The `handleSubmit` guard: the trimmed answer to send, or None when it is blank, the lock
      is open or a submission is in flight. */
  function SubmitGuard(answer: string, unlocked: bool, isSubmitting: bool): (r: Option<string>)
    ensures r.Some? <==> JsTrim(answer) != "" && !unlocked && !isSubmitting
    ensures r.Some? ==> r.value == JsTrim(answer) && |r.value| <= |answer|
    ensures r.Some? ==> !IsJsWhitespace(r.value[0]) && !IsJsWhitespace(r.value[|r.value| - 1])
  {
    if JsTrim(answer) == "" || unlocked || isSubmitting then None else Some(JsTrim(answer))
  }

  /** An answer made only of whitespace is never sent. */
  lemma BlankAnswerNotSent(answer: string, unlocked: bool, isSubmitting: bool)
    requires forall k | 0 <= k < |answer| :: IsJsWhitespace(answer[k])
    ensures SubmitGuard(answer, unlocked, isSubmitting) == None
  {
  }

  /** What the validation call answers: its verdict and message, or an exception. */
  datatype LockResult = Answered(correct: bool, message: Option<string>) | Thrown

  /** The message shown: the result's message when it is a non-empty string; otherwise the
      fallback labels, which the text constants do not define, so nothing (`undefined`). */
  function ShownMessage(result: LockResult): (m: Option<string>)
    ensures result.Answered? && result.message.Some? && result.message.value != "" ==> m == result.message
    ensures !(result.Answered? && result.message.Some? && result.message.value != "") ==> m.None?
    ensures m.Some? ==> m.value != ""
  {
    match result
    case Answered(_, message) => if message.Some? && message.value != "" then message else None
    case Thrown => None
  }

  class LockInputState {
    const lockType: string
    const maxLength: nat
    var answer: string
    var isSubmitting: bool
    var message: Option<string>
    var showMessage: bool

    constructor (lockType: string, maxLength: nat)
      ensures this.lockType == lockType && this.maxLength == maxLength
      ensures answer == "" && !isSubmitting && message == Some("") && !showMessage
    {
      this.lockType := lockType;
      this.maxLength := maxLength;
      answer := "";
      isSubmitting := false;
      message := Some("");
      showMessage := false;
    }

    ghost predicate Valid()
      reads this
    {
      |answer| <= maxLength
    }

    /** `onChange`: the stored answer is the typed value cut to `maxLength`. */
    method OnChange(value: string)
      modifies this
      ensures answer == Clamp(value, maxLength)
      ensures Valid()
      ensures isSubmitting == old(isSubmitting) && message == old(message) && showMessage == old(showMessage)
    {
      answer := Clamp(value, maxLength);
    }

    /** The synchronous start of `handleSubmit`: the trimmed answer to send, if the guard lets it
        through, and then a submission is in flight. */
    method BeginSubmit(gameState: Option<GameStateDTO>) returns (request: Option<string>)
      modifies this
      ensures request == SubmitGuard(old(answer), IsUnlocked(gameState, lockType), old(isSubmitting))
      ensures request.None? ==> unchanged(this)
      ensures request.Some? ==> isSubmitting && !showMessage && answer == old(answer) && message == old(message)
    {
      request := SubmitGuard(answer, IsUnlocked(gameState, lockType), isSubmitting);
      if request.None? {
        return;
      }
      isSubmitting := true;
      showMessage := false;
    }

    /** The end of `handleSubmit`: the message is shown, a correct answer clears the field, and
        the submission is over. */
    method CompleteSubmit(result: LockResult)
      requires Valid()
      modifies this
      ensures Valid()
      ensures message == ShownMessage(result) && showMessage && !isSubmitting
      ensures result.Answered? && result.correct ==> answer == ""
      ensures !(result.Answered? && result.correct) ==> answer == old(answer)
    {
      message := ShownMessage(result);
      showMessage := true;
      if result.Answered? && result.correct {
        answer := "";
      }
      isSubmitting := false;
    }
  }

  /** After a correct result the field is empty, so submitting again is refused until something is typed. */
  lemma NoResubmitAfterCorrect(unlocked: bool)
    ensures SubmitGuard("", unlocked, false) == None
  {
  }
}
