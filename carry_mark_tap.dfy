/**
 * The carry-mark tap: a two-digit addition is shown in columns and the
 * learner decides whether the ones column carries, by toggling a small
 * "1" above the tens column and then checking.
 */
module CarryMark {
  import opened Wrappers
  import opened JsNumbers
  import opened Curriculum
  import opened Columns
  import W = WrittenGenerators

  /** The two numbers of the question (`metadata.a || 0`, `metadata.b || 0`). */
  function Operands(m: Meta): (int, int) {
    if m.CarryTapInfo? then (m.tapA, m.tapB) else (0, 0)
  }

  /**
   * `getDigit`: the digit `place` columns left of the ones in the number's
   * rendering; empty when the number is shorter than that.
   */
  function DigitAt(num: int, place: nat): (r: string)
    ensures |r| <= 1
  {
    ColumnDigit(IntToString(num), place)
  }

  /** The tens and ones shown for a number below 100 spell it, the ones being its last digit. */
  lemma ShownDigits(n: nat)
    requires n <= 99
    ensures DigitAt(n, 1) + DigitAt(n, 0) == NatToString(n)
    ensures DigitAt(n, 0) == [DigitChar(n % 10)]
    ensures DigitAt(n, 1) == if n < 10 then "" else [DigitChar(n / 10)]
  {
    NatWidth(n);
    RightAligned(NatToString(n));
    ColumnsOfNat(n, 0);
    if n >= 10 {
      assert NatToString(n / 10) == [DigitChar(n / 10)];
      ColumnsOfNat(n, 1);
      ColumnsOfNat(n / 10, 0);
    } else {
      ColumnsOfNat(n, 1);
    }
  }

  class CarryMarkTap {
    const a: int
    const b: int
    /** Whether the ones digits add up to ten or more (`%` keeps the sign of a negative number). */
    const hasCarry: bool
    var marked: bool
    var submitted: bool
    var isCorrect: Option<bool>

    ghost predicate Valid()
      reads this
    {
      hasCarry == W.HasCarry(a, b) && (submitted <==> isCorrect.Some?)
    }

    /** A new question: nothing marked, nothing submitted. */
    constructor (q: Question)
      ensures (a, b) == Operands(q.meta) && hasCarry == W.HasCarry(a, b)
      ensures !marked && !submitted && isCorrect.None?
      ensures Valid()
    {
      var ab := Operands(q.meta);
      a, b := ab.0, ab.1;
      hasCarry := W.HasCarry(ab.0, ab.1);
      marked, submitted, isCorrect := false, false, None;
    }

    /** `handleToggleMark`: flips the mark unless the answer is submitted. */
    method ToggleMark()
      requires Valid()
      modifies this
      ensures Valid() && submitted == old(submitted) && isCorrect == old(isCorrect)
      ensures marked == if old(submitted) then old(marked) else !old(marked)
    {
      if !submitted {
        marked := !marked;
      }
    }

    /**
     * `handleSubmit`, at most once: right exactly when the mark is set if and
     * only if the ones column carries.
     */
    method Submit() returns (outcome: Option<bool>)
      requires Valid()
      modifies this
      ensures Valid() && marked == old(marked) && submitted
      ensures old(submitted) ==> outcome.None? && isCorrect == old(isCorrect)
      ensures !old(submitted) ==> outcome == Some(marked <==> hasCarry) && isCorrect == outcome
    {
      if submitted {
        return None;
      }
      var correct := (hasCarry && marked) || (!hasCarry && !marked);
      submitted := true;
      isCorrect := Some(correct);
      outcome := Some(correct);
    }
  }

  /**
   * Marking exactly when the question's answer is "tens", then checking, is
   * judged right.
   */
  method MarkAsAnswered(x: int, y: int, i: nat, now: int) returns (outcome: Option<bool>)
    ensures outcome == Some(true)
  {
    var q := W.CarryMarkQuestion(x, y, i, now);
    var w := new CarryMarkTap(q);
    if q.answer == "tens" {
      w.ToggleMark();
    }
    outcome := w.Submit();
  }

  /**
   * Checking without marking is right exactly when there is no carry; for
   * numbers that are not negative that is when the ones digits stay below ten.
   */
  method SubmitUnmarked(x: int, y: int, i: nat, now: int) returns (outcome: Option<bool>)
    ensures outcome == Some(!W.HasCarry(x, y))
    ensures 0 <= x && 0 <= y ==> (outcome == Some(true) <==> x % 10 + y % 10 < 10)
  {
    var w := new CarryMarkTap(W.CarryMarkQuestion(x, y, i, now));
    outcome := w.Submit();
  }

  /** Toggling twice leaves the mark as it was; a second check is ignored. */
  method ToggleTwice(w: CarryMarkTap) returns (first: Option<bool>, second: Option<bool>)
    requires w.Valid() && !w.submitted
    modifies w
    ensures w.marked == old(w.marked)
    ensures first == Some(w.marked <==> w.hasCarry) && second.None?
  {
    w.ToggleMark();
    w.ToggleMark();
    first := w.Submit();
    second := w.Submit();
  }
}
