/**
 * The place-value input: a number is shown and its digits are entered one
 * box per place (tens and ones, or hundreds, tens and ones), left to right.
 */
module PlaceValue {
  import opened Wrappers
  import opened JsNumbers
  import opened Curriculum
  import P = PlaySession
  import W = WrittenGenerators

  /**
   * The expected box contents: the rendered hundreds, tens and ones of a
   * three-digit question, the tens and ones otherwise (empty where the
   * question carries no such field).
   */
  function ExpectedOf(m: Meta): (r: seq<string>)
    ensures |r| == if m.PlaceValue3? then 3 else 2
  {
    if m.PlaceValue3? then [IntToString(m.pv3Hundreds), IntToString(m.pv3Tens), IntToString(m.pv3Ones)]
    else if m.PlaceValue2? then [IntToString(m.pv2Tens), IntToString(m.pv2Ones)]
    else ["", ""]
  }

  /** One box: empty or a single digit. */
  predicate Box(s: string) {
    s == "" || (|s| == 1 && IsDigit(s[0]))
  }

  function Blank(n: nat): (r: seq<string>)
    ensures |r| == n && forall i :: 0 <= i < n ==> r[i] == ""
  {
    if n == 0 then [] else Blank(n - 1) + [""]
  }

  class PlaceValueInput {
    const expected: seq<string>
    var values: seq<string>
    var activeIndex: nat
    var submitted: bool

    ghost predicate Valid()
      reads this
    {
      |expected| >= 2 && |values| == |expected| && activeIndex < |values|
      && forall i :: 0 <= i < |values| ==> Box(values[i])
    }

    /** A new question: one empty box per place, the cursor on the first. */
    constructor (q: Question)
      ensures expected == ExpectedOf(q.meta) && values == Blank(|expected|)
      ensures activeIndex == 0 && !submitted
      ensures Valid()
    {
      expected := ExpectedOf(q.meta);
      values := Blank(|ExpectedOf(q.meta)|);
      activeIndex := 0;
      submitted := false;
    }

    /**
     * `checkAnswer`: ignored once submitted; the boxes are correct when each
     * holds exactly the expected text (both rows have the same number of
     * boxes, so that is equality of the rows). Only an expected row of single
     * digits can be matched: a tens value of 10 or more never is.
     */
    method Check() returns (outcome: Option<bool>)
      requires Valid()
      modifies this
      ensures Valid() && values == old(values) && activeIndex == old(activeIndex) && submitted
      ensures old(submitted) ==> outcome.None?
      ensures !old(submitted) ==> outcome == Some(values == expected)
      ensures outcome == Some(true) ==> forall i :: 0 <= i < |expected| ==> Box(expected[i])
    {
      if submitted {
        return None;
      }
      outcome := Some(values == expected);
      submitted := true;
    }

    /**
     * `handleInput`: ignored once submitted. `DEL` empties the current box,
     * or moves back one box when it is already empty; `ENTER` checks once
     * every box is filled; a digit fills the current box and moves on, or
     * checks on the last box.
     */
    method HandleInput(key: P.Key) returns (outcome: Option<bool>)
      requires Valid()
      modifies this
      ensures Valid()
      ensures old(submitted) ==> outcome.None? && values == old(values) && submitted
      ensures !old(submitted) && key.Del? ==>
                var i := old(activeIndex);
                outcome.None? && !submitted
                && (old(values)[i] != "" ==> values == old(values)[i := ""] && activeIndex == i)
                && (old(values)[i] == "" ==> values == old(values) && activeIndex == if i > 0 then i - 1 else i)
      ensures !old(submitted) && key.Enter? ==>
                values == old(values) && activeIndex == old(activeIndex)
                && ((forall i :: 0 <= i < |values| ==> values[i] != "") <==> submitted)
                && (submitted ==> outcome == Some(values == expected))
                && (!submitted ==> outcome.None?)
      ensures !old(submitted) && key.Digit? && !IsDigit(key.c) ==>
                outcome.None? && values == old(values) && activeIndex == old(activeIndex) && !submitted
      ensures !old(submitted) && key.Digit? && IsDigit(key.c) ==>
                var i := old(activeIndex);
                values == old(values)[i := [key.c]]
                && (i < |values| - 1 ==> outcome.None? && !submitted && activeIndex == i + 1)
                && (i == |values| - 1 ==> submitted && activeIndex == i && outcome == Some(values == expected))
    {
      if submitted {
        return None;
      }
      var i := activeIndex;
      match key
      case Del =>
        if values[i] != "" {
          values := values[i := ""];
        } else if i > 0 {
          activeIndex := i - 1;
        }
        return None;
      case Enter =>
        if forall j :: 0 <= j < |values| ==> values[j] != "" {
          outcome := Check();
        } else {
          outcome := None;
        }
      case Digit(c) =>
        if !IsDigit(c) {
          return None;
        }
        values := values[i := [c]];
        if i < |values| - 1 {
          activeIndex := i + 1;
          return None;
        }
        outcome := Check();
    }

    /** Tapping a box puts the cursor there, unless the answer is submitted. */
    method SelectBox(idx: nat)
      requires Valid() && idx < |values|
      modifies this
      ensures Valid() && values == old(values) && submitted == old(submitted)
      ensures activeIndex == if old(submitted) then old(activeIndex) else idx
    {
      if !submitted {
        activeIndex := idx;
      }
    }
  }

  /** The boxes of a two-digit question hold the number's two digits, in order. */
  lemma TwoDigitBoxes(num: int, i: nat, now: int)
    requires 10 <= num <= 99
    ensures var e := ExpectedOf(W.PlaceValue2Question(num, i, now).meta);
            e == [[DigitChar(num / 10)], [DigitChar(num % 10)]] && e[0] + e[1] == IntToString(num)
  {
    assert IntToString(num / 10) == [DigitChar(num / 10)];
    assert IntToString(num % 10) == [DigitChar(num % 10)];
  }

  /** The boxes of a three-digit question hold the number's three digits, in order. */
  lemma ThreeDigitBoxes(num: int, i: nat, now: int)
    requires 100 <= num <= 999
    ensures var e := ExpectedOf(W.PlaceValue3Question(num, i, now).meta);
            e == [[DigitChar(num / 100)], [DigitChar(num / 10 % 10)], [DigitChar(num % 10)]]
            && e[0] + e[1] + e[2] == IntToString(num)
  {
    var q := num / 10;
    W.DivMod100(num, q / 10, 10 * (q % 10) + num % 10);
    W.DivMod10(num % 100, q % 10, num % 10);
    assert IntToString(num / 100) == [DigitChar(num / 100)];
    assert IntToString(num / 10 % 10) == [DigitChar(num / 10 % 10)];
    assert IntToString(num % 10) == [DigitChar(num % 10)];
    assert num / 10 / 10 == num / 100;
    assert NatToString(num / 10) == NatToString(num / 100) + [DigitChar(num / 10 % 10)];
  }

  /** Typing the digits of a two-digit question's number, in order, is judged correct. */
  method SolveTwoDigit(num: int, i: nat, now: int) returns (outcome: Option<bool>)
    requires 10 <= num <= 99
    ensures outcome == Some(true)
  {
    TwoDigitBoxes(num, i, now);
    var w := new PlaceValueInput(W.PlaceValue2Question(num, i, now));
    outcome := TypeExpected(w);
  }

  /** Typing the digits of a three-digit question's number, in order, is judged correct. */
  method SolveThreeDigit(num: int, i: nat, now: int) returns (outcome: Option<bool>)
    requires 100 <= num <= 999
    ensures outcome == Some(true)
  {
    ThreeDigitBoxes(num, i, now);
    var w := new PlaceValueInput(W.PlaceValue3Question(num, i, now));
    outcome := TypeExpected(w);
  }

  /** Typing each expected digit in turn, from a fresh input. */
  method TypeExpected(w: PlaceValueInput) returns (outcome: Option<bool>)
    requires w.Valid() && w.values == Blank(|w.expected|) && w.activeIndex == 0 && !w.submitted
    requires forall j :: 0 <= j < |w.expected| ==> |w.expected[j]| == 1 && IsDigit(w.expected[j][0])
    modifies w
    ensures outcome == Some(true)
  {
    var e := w.expected;
    var n := |e|;
    var j := 0;
    outcome := None;
    while j < n
      invariant 0 <= j <= n && w.Valid() && w.expected == e
      invariant j < n ==> !w.submitted && w.activeIndex == j && outcome.None?
      invariant w.values == e[..j] + Blank(n)[j..]
      invariant j == n ==> outcome == Some(w.values == e)
      modifies w
    {
      outcome := w.HandleInput(P.Digit(e[j][0]));
      assert e[j] == [e[j][0]];
      j := j + 1;
    }
  }
}
