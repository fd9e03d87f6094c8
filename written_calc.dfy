/**
 * The column-addition input: the answer is written digit by digit from the
 * ones column leftwards, and a column is left only after the carry into the
 * next one has been marked. The same widget serves the check-by-subtraction
 * questions, whose expected answer comes with the question.
 */
module WrittenCalc {
  import opened Wrappers
  import opened JsNumbers
  import opened Curriculum
  import opened Columns
  import P = PlaySession
  import W = WrittenGenerators

  /** The two numbers written one above the other (`metadata.a || 0`, `metadata.b || 0`). */
  function Operands(m: Meta): (int, int) {
    if m.WrittenAddInfo? then (m.wa, m.wb)
    else if m.VerifyInfo? then (m.verifyTop, m.verifyBottom)
    else if m.CarryTapInfo? then (m.tapA, m.tapB)
    else (0, 0)
  }

  /**
   * The answer the input is judged against: the question's own expected
   * answer when it has one (`parseInt` of a rendered integer gives the
   * integer back, see `ParseIntOfIntToString`), else the sum.
   */
  function ExpectedOf(m: Meta): int {
    if m.VerifyInfo? then m.expectedAnswer else Operands(m).0 + Operands(m).1
  }

  /** The carry out of the tens column, counting the carry out of the ones column. */
  predicate CarryToHundreds(a: int, b: int) {
    a / 10 + b / 10 + (if W.HasCarry(a, b) then 1 else 0) >= 10
  }

  /** Leaving column `col` waits for the carry mark into the next column. */
  predicate Blocked(a: int, b: int, col: nat, marks: seq<bool>)
    requires |marks| == 2
  {
    (col == 0 && W.HasCarry(a, b) && !marks[0]) || (col == 1 && CarryToHundreds(a, b) && !marks[1])
  }

  /** One answer column: empty or a single digit. */
  predicate Cell(s: string) {
    s == "" || (|s| == 1 && IsDigit(s[0]))
  }

  /** The columns, ones first, read as text from the highest column down. */
  function Reading(ins: seq<string>): string {
    if ins == [] then "" else Reading(ins[1..]) + ins[0]
  }

  /** Writing `v` into column `col`; writing one past the end extends the columns. */
  function Put(ins: seq<string>, col: nat, v: string): (r: seq<string>)
    requires col <= |ins|
    ensures |r| == if col < |ins| then |ins| else |ins| + 1
    ensures r[col] == v && forall i :: 0 <= i < |ins| && i != col ==> r[i] == ins[i]
  {
    if col < |ins| then ins[col := v] else ins + [v]
  }

  predicate AllEmpty(ins: seq<string>) {
    forall i :: 0 <= i < |ins| ==> ins[i] == ""
  }

  /**
   * Columns holding single digits read as a digit string, which is empty
   * exactly when every column is.
   */
  lemma {:induction false} ReadingDigits(ins: seq<string>)
    requires forall i :: 0 <= i < |ins| ==> Cell(ins[i])
    ensures IsDigits(Reading(ins))
    ensures Reading(ins) == "" <==> AllEmpty(ins)
    decreases |ins|
  {
    if ins != [] {
      assert forall i :: 0 <= i < |ins| - 1 ==> ins[1..][i] == ins[i + 1];
      ReadingDigits(ins[1..]);
      if AllEmpty(ins[1..]) && ins[0] == "" {
        assert forall i :: 0 <= i < |ins| ==> ins[i] == "" by {
          forall i | 0 <= i < |ins| ensures ins[i] == "" {
            if i > 0 { assert ins[i] == ins[1..][i - 1]; }
          }
        }
      }
    }
  }

  /**
   * What the check compares: when some column is filled, the reading parses
   * to the value of the digits from the highest column down, empty columns
   * skipped.
   */
  lemma ReadingValue(ins: seq<string>)
    requires forall i :: 0 <= i < |ins| ==> Cell(ins[i])
    requires !AllEmpty(ins)
    ensures IsDigits(Reading(ins)) && ParseInt(Reading(ins)) == Some(DigitsValue(Reading(ins)) as int)
  {
    ReadingDigits(ins);
    ParseIntOfDigits(Reading(ins));
  }

  /** The three columns of a number, ones first, "" where it has no digit. */
  function ColumnsOf(n: nat): (r: seq<string>)
    ensures |r| == 3 && forall i :: 0 <= i < 3 ==> Cell(r[i])
  {
    NatToStringShape(n);
    var s := NatToString(n);
    [ColumnDigit(s, 0), ColumnDigit(s, 1), ColumnDigit(s, 2)]
  }

  /** Writing a number of at most three digits into its columns reads back as that number. */
  lemma ColumnsReadBack(n: nat)
    requires n <= 999
    ensures Reading(ColumnsOf(n)) == NatToString(n)
    ensures ParseInt(Reading(ColumnsOf(n))) == Some(n)
  {
    var s := NatToString(n);
    var c := ColumnsOf(n);
    NatWidth(n);
    assert Reading(c[2..]) == c[2] by { assert c[2..][1..] == []; }
    assert c[1..][1..] == c[2..];
    assert Reading(c) == c[2] + c[1] + c[0];
    RightAligned(s);
    ParseIntOfNatToString(n);
  }

  class WrittenCalcInput {
    const a: int
    const b: int
    const expected: int
    /** Answer columns, index 0 the ones. */
    var inputs: seq<string>
    /** Index 0: the carry into the tens; index 1: the carry into the hundreds. */
    var carryMarks: seq<bool>
    var activeCol: Option<nat>
    var submitted: bool
    var isCorrect: Option<bool>

    ghost predicate Valid()
      reads this
    {
      |inputs| >= 3 && |carryMarks| == 2
      && (forall i :: 0 <= i < |inputs| ==> Cell(inputs[i]))
      && (submitted <==> activeCol.None?)
      && (submitted <==> isCorrect.Some?)
      && (activeCol.Some? ==> activeCol.value <= |inputs|)
    }

    /** The highest column the cursor advances to: one less than the digits of `a + b`. */
    function MaxIndex(): int {
      |IntToString(a + b)| - 1
    }

    /** Whether the columns read as the expected answer. */
    predicate Judge(ins: seq<string>) {
      ParseInt(Reading(ins)) == Some(expected)
    }

    /** A new question: empty columns, no marks, the cursor on the ones. */
    constructor (q: Question)
      ensures a == Operands(q.meta).0 && b == Operands(q.meta).1 && expected == ExpectedOf(q.meta)
      ensures inputs == ["", "", ""] && carryMarks == [false, false] && activeCol == Some(0)
      ensures !submitted && isCorrect.None?
      ensures Valid()
    {
      a, b := Operands(q.meta).0, Operands(q.meta).1;
      expected := ExpectedOf(q.meta);
      inputs := ["", "", ""];
      carryMarks := [false, false];
      activeCol := Some(0);
      submitted := false;
      isCorrect := None;
    }

    /**
     * `checkAnswer`: nothing while every column is empty; otherwise the
     * verdict is whether the reading equals the expected answer, the input
     * is closed and the verdict is handed on.
     */
    method Check() returns (outcome: Option<bool>)
      requires Valid() && !submitted
      modifies this
      ensures Valid()
      ensures inputs == old(inputs) && carryMarks == old(carryMarks)
      ensures AllEmpty(inputs) ==> outcome.None? && activeCol == old(activeCol) && !submitted && isCorrect.None?
      ensures !AllEmpty(inputs) ==>
                outcome == Some(Judge(inputs)) && isCorrect == outcome && submitted && activeCol.None?
      ensures !AllEmpty(inputs) ==>
                IsDigits(Reading(inputs)) && (Judge(inputs) <==> DigitsValue(Reading(inputs)) == expected)
    {
      if forall i :: 0 <= i < |inputs| ==> inputs[i] == "" {
        return None;
      }
      ReadingValue(inputs);
      var correct := ParseInt(Reading(inputs)) == Some(expected);
      submitted := true;
      isCorrect := Some(correct);
      activeCol := None;
      outcome := Some(correct);
    }

    /**
     * `handleInput`: ignored once submitted. `DEL` empties the current
     * column, or moves one column right (towards the ones) when it is
     * already empty; `ENTER` checks; a digit fills the current column and
     * moves one column left unless that is the last column, where it checks,
     * or the carry into the next column is still unmarked.
     */
    method HandleInput(key: P.Key) returns (outcome: Option<bool>)
      requires Valid()
      modifies this
      ensures Valid() && carryMarks == old(carryMarks)
      ensures old(submitted) ==> outcome.None? && inputs == old(inputs) && submitted
      ensures !old(submitted) && key.Del? ==>
                var col := old(activeCol).value;
                outcome.None? && !submitted
                && (col < |old(inputs)| && old(inputs)[col] != "" ==>
                      inputs == old(inputs)[col := ""] && activeCol == old(activeCol))
                && (!(col < |old(inputs)| && old(inputs)[col] != "") ==>
                      inputs == old(inputs) && activeCol == Some(if col > 0 then col - 1 else col))
      ensures !old(submitted) && key.Enter? ==>
                inputs == old(inputs)
                && (AllEmpty(inputs) ==> outcome.None? && !submitted && activeCol == old(activeCol))
                && (!AllEmpty(inputs) ==> outcome == Some(Judge(inputs)) && submitted)
      ensures !old(submitted) && key.Digit? && !IsDigit(key.c) ==>
                outcome.None? && inputs == old(inputs) && activeCol == old(activeCol) && !submitted
      ensures !old(submitted) && key.Digit? && IsDigit(key.c) ==>
                var col := old(activeCol).value;
                inputs == Put(old(inputs), col, [key.c])
                && (col < MaxIndex() ==>
                      outcome.None? && !submitted
                      && activeCol == Some(if Blocked(a, b, col, carryMarks) then col else col + 1))
                && (col >= MaxIndex() ==> outcome == Some(Judge(inputs)) && submitted)
    {
      if submitted || activeCol.None? {
        return None;
      }
      var col := activeCol.value;
      match key
      case Del =>
        if col < |inputs| && inputs[col] != "" {
          inputs := inputs[col := ""];
        } else if col > 0 {
          activeCol := Some(col - 1);
        }
        return None;
      case Enter =>
        outcome := Check();
      case Digit(c) =>
        if !IsDigit(c) {
          return None;
        }
        inputs := Put(inputs, col, [c]);
        if col < MaxIndex() {
          if col == 0 && W.HasCarry(a, b) && !carryMarks[0] {
            return None;
          }
          if col == 1 && CarryToHundreds(a, b) && !carryMarks[1] {
            return None;
          }
          activeCol := Some(col + 1);
          return None;
        } else {
          outcome := Check();
        }
    }

    /**
     * `toggleCarryMark`: ignored once submitted; flips the mark, and turning
     * on the mark a filled column was waiting for moves the cursor on.
     */
    method ToggleCarryMark(colIdx: nat)
      requires Valid() && colIdx < 2
      modifies this
      ensures Valid() && inputs == old(inputs) && submitted == old(submitted) && isCorrect == old(isCorrect)
      ensures old(submitted) ==> carryMarks == old(carryMarks) && activeCol == old(activeCol)
      ensures !old(submitted) ==>
                carryMarks == old(carryMarks)[colIdx := !old(carryMarks)[colIdx]]
                && activeCol == (if !old(carryMarks)[colIdx] && old(activeCol) == Some(colIdx)
                                    && inputs[colIdx] != ""
                                 then Some(colIdx + 1) else old(activeCol))
    {
      if submitted {
        return;
      }
      var turningOn := !carryMarks[colIdx];
      carryMarks := carryMarks[colIdx := !carryMarks[colIdx]];
      if turningOn {
        if activeCol == Some(0) && colIdx == 0 && inputs[0] != "" {
          activeCol := Some(1);
        }
        if activeCol == Some(1) && colIdx == 1 && inputs[1] != "" {
          activeCol := Some(2);
        }
      }
    }

    /** Tapping an answer column puts the cursor there, unless the answer is submitted. */
    method SelectColumn(col: nat)
      requires Valid() && col <= 2
      modifies this
      ensures Valid() && inputs == old(inputs) && carryMarks == old(carryMarks)
      ensures submitted == old(submitted) && isCorrect == old(isCorrect)
      ensures activeCol == if old(submitted) then old(activeCol) else Some(col)
    {
      if !submitted {
        activeCol := Some(col);
      }
    }
  }

  /**
   * The carry gates of a written addition agree with the question: the ones
   * column carries exactly when the question says it does, and the tens
   * column carries exactly when the sum has a hundreds digit.
   */
  lemma GatesMatchQuestion(a: int, b: int, inputOrder: Option<string>, n: nat, now: int)
    requires 0 <= a <= 99 && 0 <= b <= 99
    ensures var m := W.ColumnAddition(a, b, inputOrder, n, now).meta;
            Operands(m) == (a, b) && ExpectedOf(m) == a + b
            && (W.HasCarry(a, b) <==> m.hasCarry)
            && (CarryToHundreds(a, b) <==> m.answerHundreds.Some?)
  {
    W.ColumnAdditionDigits(a, b, inputOrder, n, now);
    W.ColumnArithmetic(a, b);
  }

  /** The gates on two numbers below 100: a carry out of the ones means a sum of at least 10, one out of the tens a sum of at least 100. */
  lemma GateArithmetic(a: int, b: int)
    requires 0 <= a <= 99 && 0 <= b <= 99
    ensures W.HasCarry(a, b) ==> a + b >= 10
    ensures CarryToHundreds(a, b) <==> a + b >= 100
  {
    W.ColumnArithmetic(a, b);
  }

  /**
   * Writing the sum of a written addition column by column, marking each
   * carry when the cursor waits for it, is judged correct.
   */
  method SolveColumnAddition(a: int, b: int, inputOrder: Option<string>, n: nat, now: int)
    returns (outcome: Option<bool>)
    requires 0 <= a <= 99 && 0 <= b <= 99
    ensures outcome == Some(true)
  {
    var q := W.ColumnAddition(a, b, inputOrder, n, now);
    GatesMatchQuestion(a, b, inputOrder, n, now);
    var w := new WrittenCalcInput(q);
    outcome := TypeSum(w);
  }

  /** The moves of `SolveColumnAddition` on a fresh input for `a + b`. */
  method TypeSum(w: WrittenCalcInput) returns (outcome: Option<bool>)
    requires w.Valid() && 0 <= w.a <= 99 && 0 <= w.b <= 99 && w.expected == w.a + w.b
    requires w.inputs == ["", "", ""] && w.carryMarks == [false, false] && w.activeCol == Some(0)
    modifies w
    ensures outcome == Some(true)
  {
    GateArithmetic(w.a, w.b);
    var sum: nat := w.a + w.b;
    NatWidth(sum);
    ColumnsReadBack(sum);
    var cols := ColumnsOf(sum);
    assert w.MaxIndex() == |NatToString(sum)| - 1;
    outcome := w.HandleInput(P.Digit(cols[0][0]));
    if sum < 10 {
      assert w.inputs == cols;
      return;
    }
    if W.HasCarry(w.a, w.b) {
      w.ToggleCarryMark(0);
    }
    assert w.activeCol == Some(1);
    outcome := w.HandleInput(P.Digit(cols[1][0]));
    if sum < 100 {
      assert w.inputs == cols;
      return;
    }
    w.ToggleCarryMark(1);
    assert w.activeCol == Some(2);
    outcome := w.HandleInput(P.Digit(cols[2][0]));
    assert w.inputs == cols;
  }

  /**
   * The check by subtraction uses the same gates, computed from the
   * addition of the two numbers shown: for 57 − 23 the cursor waits on the
   * ones column for a carry mark although the subtraction has no borrow.
   */
  method VerifyWaitsForAdditionCarry(now: int) returns (w: WrittenCalcInput)
    ensures w.expected == 34 && w.inputs == ["4", "", ""] && w.activeCol == Some(0) && !w.submitted
  {
    var q := W.VerifyQuestion(34, 23, false, 0, now);
    w := new WrittenCalcInput(q);
    assert W.HasCarry(57, 23);
    NatWidth(80);
    var outcome := w.HandleInput(P.Digit('4'));
  }
}
