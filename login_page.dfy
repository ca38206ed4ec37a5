/** LoginPage: the masked password field. The field shows every character but the last as '*',
    and the real password is rebuilt from the edits made to that masked text. */
module LoginPage {

  function Stars(n: nat): (r: string)
    ensures |r| == n && forall k | 0 <= k < n :: r[k] == '*'
  {
    if n == 0 then "" else Stars(n - 1) + "*"
  }

  /** `maskPassword`. */
  function MaskPassword(pwd: string): (r: string)
    ensures |r| == |pwd|
    ensures |pwd| <= 1 ==> r == pwd
    ensures |pwd| >= 2 ==> r[|r| - 1] == pwd[|pwd| - 1] && forall k | 0 <= k < |r| - 1 :: r[k] == '*'
  {
    if |pwd| == 0 then ""
    else if |pwd| == 1 then pwd
    else Stars(|pwd| - 1) + [pwd[|pwd| - 1]]
  }

  /** JavaScript renders the missing element `input[-1]` of an empty string as "undefined"
      when it is concatenated. */
  const UNDEFINED := "undefined"

  /** The new stored value after an input event: in show mode the raw input; in masked mode a
      shorter input drops the last stored character and any other input appends its own last
      character. */
  function MaskedInputValue(value: string, input: string, showFlag: bool): (r: string)
    ensures showFlag ==> r == input
    ensures !showFlag && |input| < |value| ==> r == value[..|value| - 1]
    ensures !showFlag && |input| >= |value| && |input| > 0 ==> r == value + [input[|input| - 1]] && |r| == |value| + 1
    ensures !showFlag && |input| == 0 && |value| == 0 ==> r == UNDEFINED
  {
    if showFlag then input
    else if |input| < |value| then value[..|value| - 1]
    else if |input| == 0 then value + UNDEFINED
    else value + [input[|input| - 1]]
  }

  /** Typing a character after the masked text appends exactly that character. */
  lemma TypingAppends(value: string, c: char)
    ensures MaskedInputValue(value, MaskPassword(value) + [c], false) == value + [c]
  {
  }

  /** Backspace on the masked text removes the last real character. */
  lemma BackspaceRemovesLast(value: string)
    requires |value| > 0
    ensures MaskedInputValue(value, MaskPassword(value)[..|value| - 1], false) == value[..|value| - 1]
  {
  }

  /** Typing and then deleting restores the stored password. */
  lemma TypeThenDelete(value: string, c: char)
    ensures var typed := MaskedInputValue(value, MaskPassword(value) + [c], false);
            MaskedInputValue(typed, MaskPassword(typed)[..|typed| - 1], false) == value
  {
  }

  /** The password field (`value` is the stored password, `showFlag` the show toggle). */
  class PasswordField {
    var value: string
    var showFlag: bool

    constructor ()
      ensures value == "" && !showFlag
    {
      value := "";
      showFlag := false;
    }

    /** What the field displays. */
    function Displayed(): (r: string)
      reads this
      ensures |r| == |value|
      ensures showFlag ==> r == value
    {
      if showFlag then value else MaskPassword(value)
    }

    /** `handleMaskedInput`, through `setValue`. */
    method HandleMaskedInput(input: string)
      modifies this
      ensures value == MaskedInputValue(old(value), input, showFlag)
      ensures showFlag == old(showFlag)
    {
      if showFlag {
        value := input;
      } else if |input| < |value| {
        value := value[..|value| - 1];
      } else if |input| == 0 {
        value := value + UNDEFINED;
      } else {
        value := value + [input[|input| - 1]];
      }
    }
  }
}
