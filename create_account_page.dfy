/** CreateAccPage: the password rules shown while signing up, and the checks made before the
    sign-up request is sent. */
module CreateAccountPage {

  datatype Requirement = Length | Capital | Number

  /** The rules in display order. */
  const PASSWORD_REQUIREMENTS: seq<Requirement> := [Length, Capital, Number]

  const REQUIREMENTS_ERROR := "Password does not meet requirements."
  const MISMATCH_ERROR := "Passwords don't match!"

  predicate HasCapital(pwd: string)
  {
    exists i | 0 <= i < |pwd| :: 'A' <= pwd[i] <= 'Z'
  }

  predicate HasDigit(pwd: string)
  {
    exists i | 0 <= i < |pwd| :: '0' <= pwd[i] <= '9'
  }

  /** A requirement's test. */
  predicate Meets(req: Requirement, pwd: string)
  {
    match req
    case Length => |pwd| >= 8
    case Capital => HasCapital(pwd)
    case Number => HasDigit(pwd)
  }

  /** `filter(req => !req.test(pwd))`: the failing requirements, in their original order. */
  function FilterUnmet(reqs: seq<Requirement>, pwd: string): (r: seq<Requirement>)
    ensures |r| <= |reqs|
    ensures forall x | x in r :: x in reqs && !Meets(x, pwd)
    ensures forall x | x in reqs && !Meets(x, pwd) :: x in r
  {
    if |reqs| == 0 then []
    else
      var rest := FilterUnmet(reqs[1..], pwd);
      if Meets(reqs[0], pwd) then rest else [reqs[0]] + rest
  }

  /** A single requirement is kept exactly when it fails. */
  lemma FilterUnmetSingle(x: Requirement, pwd: string)
    ensures FilterUnmet([x], pwd) == if Meets(x, pwd) then [] else [x]
  {
  }

  /** Filtering keeps the order: the failing part of `a + b` is the failing part of `a`
      followed by that of `b`, each requirement kept as often as it occurs. */
  lemma {:induction false} FilterUnmetAppend(a: seq<Requirement>, b: seq<Requirement>, pwd: string)
    ensures FilterUnmet(a + b, pwd) == FilterUnmet(a, pwd) + FilterUnmet(b, pwd)
  {
    if |a| == 0 {
      assert a + b == b;
    } else {
      assert (a + b)[0] == a[0];
      assert (a + b)[1..] == a[1..] + b;
      FilterUnmetAppend(a[1..], b, pwd);
    }
  }

  /** The list that fails for `pwd`: each requirement that fails, length before capital before number. */
  function UnmetRequirements(pwd: string): (r: seq<Requirement>)
    ensures r == (if Meets(Length, pwd) then [] else [Length])
               + (if Meets(Capital, pwd) then [] else [Capital])
               + (if Meets(Number, pwd) then [] else [Number])
  {
    assert [Number][1..] == [] && [Capital, Number][1..] == [Number];
    assert PASSWORD_REQUIREMENTS[1..] == [Capital, Number];
    assert FilterUnmet([Number], pwd) == if Meets(Number, pwd) then [] else [Number];
    assert FilterUnmet([Capital, Number], pwd) == (if Meets(Capital, pwd) then [] else [Capital]) + FilterUnmet([Number], pwd);
    FilterUnmet(PASSWORD_REQUIREMENTS, pwd)
  }

  predicate PasswordValid(pwd: string)
  {
    |UnmetRequirements(pwd)| == 0
  }

  /** A password is valid exactly when it has 8 or more characters, an ASCII capital and an ASCII digit. */
  lemma PasswordValidIff(pwd: string)
    ensures PasswordValid(pwd) <==> |pwd| >= 8 && HasCapital(pwd) && HasDigit(pwd)
  {
  }

  /** The unmet list of the empty password is every requirement, in order. */
  lemma EmptyPasswordMeetsNothing()
    ensures UnmetRequirements("") == PASSWORD_REQUIREMENTS
  {
  }

  predicate PasswordsMatch(pwd: string, retype: string)
  {
    PasswordValid(pwd) && retype == pwd
  }

  /** The sign-up form's state. */
  class SignUpForm {
    var password: string
    var retypePassword: string
    var error: string

    constructor ()
      ensures password == "" && retypePassword == "" && error == ""
    {
      password := "";
      retypePassword := "";
      error := "";
    }

    /** The pre-checks of `handleSubmit`: the error is cleared, then set by the first failing
        check; `send` says whether the request goes out. */
    method SubmitPreChecks() returns (send: bool)
      modifies this
      ensures password == old(password) && retypePassword == old(retypePassword)
      ensures send <==> PasswordsMatch(password, retypePassword)
      ensures !PasswordValid(password) ==> error == REQUIREMENTS_ERROR
      ensures PasswordValid(password) && !PasswordsMatch(password, retypePassword) ==> error == MISMATCH_ERROR
      ensures send ==> error == ""
    {
      error := "";
      if !PasswordValid(password) {
        error := REQUIREMENTS_ERROR;
        return false;
      }
      if !PasswordsMatch(password, retypePassword) {
        error := MISMATCH_ERROR;
        return false;
      }
      return true;
    }
  }
}
