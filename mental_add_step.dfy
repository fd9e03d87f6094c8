/**
 * The step-by-step mental addition: the tens digit of the sum is entered
 * first, then the ones digit; a key is only taken when it is the expected
 * digit, so the step completes only with the right answer.
 */
module MentalAdd {
  import opened Wrappers
  import opened JsNumbers
  import P = PlaySession

  datatype Step = Tens | Ones | Complete

  /** A box holding exactly the digit `d`. */
  predicate Holds(s: string, d: int) {
    |s| == 1 && IsDigit(s[0]) && DigitValue(s[0]) == d
  }

  /**
   * The two parts of a two-digit sum as the hint works them out: the tens
   * of both numbers plus one when the ones carry, then the ones of the ones sum.
   */
  function Parts(a: nat, b: nat): (int, int) {
    (a / 10 + b / 10 + (if a % 10 + b % 10 >= 10 then 1 else 0), (a % 10 + b % 10) % 10)
  }

  /** For a sum from 10 to 99 the parts are its two digits and spell it. */
  lemma PartsSpellSum(a: nat, b: nat)
    requires 10 <= a + b <= 99
    ensures var (t, o) := Parts(a, b);
            0 < t <= 9 && 0 <= o <= 9 && IntToString(t) + IntToString(o) == IntToString(a + b)
  {
    var (t, o) := Parts(a, b);
    assert t == (a + b) / 10 && o == (a + b) % 10;
    assert IntToString(a + b) == NatToString((a + b) / 10) + [DigitChar((a + b) % 10)];
  }

  class MentalAddStep {
    const tensPart: int
    const onesPart: int
    var step: Step
    var tensInput: string
    var onesInput: string

    ghost predicate Valid()
      reads this
    {
      (step != Tens ==> Holds(tensInput, tensPart))
      && (step == Complete ==> Holds(onesInput, onesPart))
    }

    /** A new question: the tens step, both boxes empty. */
    constructor (tensPart: int, onesPart: int)
      ensures this.tensPart == tensPart && this.onesPart == onesPart
      ensures step == Tens && tensInput == "" && onesInput == ""
      ensures Valid()
    {
      this.tensPart, this.onesPart := tensPart, onesPart;
      step, tensInput, onesInput := Tens, "", "";
    }

    /**
     * `handleInput`. `ENTER` does nothing. `DEL` empties the ones box or,
     * when it is empty, goes back to the tens step; on the tens step it
     * empties the tens box. A digit is taken only when it is the expected
     * part of the current step; taking the ones digit completes the step
     * and reports the two parts written one after the other. Nothing is
     * taken once complete.
     */
    method HandleInput(key: P.Key) returns (answer: Option<string>)
      requires Valid()
      modifies this
      ensures Valid()
      ensures answer.Some? <==> old(step) == Ones && step == Complete
      ensures answer.Some? ==>
                answer.value == IntToString(tensPart) + IntToString(onesPart)
                && 0 <= tensPart <= 9 && 0 <= onesPart <= 9
      ensures key.Enter? || old(step) == Complete ==>
                step == old(step) && tensInput == old(tensInput) && onesInput == old(onesInput)
      ensures key.Del? && old(step) == Tens ==> step == Tens && tensInput == "" && onesInput == old(onesInput)
      ensures key.Del? && old(step) == Ones ==>
                tensInput == old(tensInput) && onesInput == ""
                && step == (if old(onesInput) != "" then Ones else Tens)
      ensures key.Digit? && old(step) == Tens ==>
                var taken := IsDigit(key.c) && DigitValue(key.c) == tensPart;
                step == (if taken then Ones else Tens)
                && tensInput == (if taken then [key.c] else old(tensInput)) && onesInput == old(onesInput)
      ensures key.Digit? && old(step) == Ones ==>
                var taken := IsDigit(key.c) && DigitValue(key.c) == onesPart;
                step == (if taken then Complete else Ones)
                && onesInput == (if taken then [key.c] else old(onesInput)) && tensInput == old(tensInput)
    {
      answer := None;
      match key
      case Enter =>
      case Del =>
        if step == Ones {
          if onesInput != "" {
            onesInput := "";
          } else {
            step := Tens;
          }
        } else if step == Tens {
          tensInput := "";
        }
      case Digit(c) =>
        if !IsDigit(c) {
          return;
        }
        var inputNum := DigitValue(c);
        if step == Tens {
          if inputNum == tensPart {
            tensInput := [c];
            step := Ones;
          }
        } else if step == Ones {
          if inputNum == onesPart {
            onesInput := [c];
            step := Complete;
            answer := Some(IntToString(tensPart) + IntToString(onesPart));
          }
        }
    }
  }

  /**
   * Given the parts of a two-digit sum, typing its tens digit and then its
   * ones digit completes the step with the sum as the answer.
   */
  method TypeSum(a: nat, b: nat) returns (answer: Option<string>)
    requires 10 <= a + b <= 99
    ensures answer == Some(IntToString(a + b))
  {
    PartsSpellSum(a, b);
    var (t, o) := Parts(a, b);
    var w := new MentalAddStep(t, o);
    answer := w.HandleInput(P.Digit(DigitChar(t)));
    answer := w.HandleInput(P.Digit(DigitChar(o)));
  }

  /** A tens part that is no single digit can never be entered: every key leaves the step on tens. */
  method StuckOnTens(tensPart: int, onesPart: int, keys: seq<P.Key>) returns (answers: seq<Option<string>>)
    requires !(0 <= tensPart <= 9)
    ensures |answers| == |keys| && forall i :: 0 <= i < |answers| ==> answers[i].None?
  {
    var w := new MentalAddStep(tensPart, onesPart);
    answers := [];
    var i := 0;
    while i < |keys|
      invariant 0 <= i <= |keys| && |answers| == i && w.Valid() && w.step == Tens
      invariant w.tensPart == tensPart
      invariant forall j :: 0 <= j < i ==> answers[j].None?
    {
      var answer := w.HandleInput(keys[i]);
      answers := answers + [answer];
      i := i + 1;
    }
  }
}
