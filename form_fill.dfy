/**
 * The written-form fill-in: the second number of an addition is written
 * into a row of three boxes (hundreds, tens, ones), right-aligned under the
 * first, one digit per box from left to right.
 */
module FormFill {
  import opened Wrappers
  import opened JsNumbers
  import opened Curriculum
  import opened Columns
  import P = PlaySession
  import W = WrittenGenerators

  /** The number to write (`metadata.bottomNumber || 0`). */
  function Bottom(m: Meta): int {
    if m.FormFillInfo? then m.fillBottom else 0
  }

  /** The boxes a rendering fills: box `j` holds the digit `2 - j` places from its right end. */
  function Slots(s: string): (r: seq<string>)
    ensures |r| == 3
  {
    [ColumnDigit(s, 2), ColumnDigit(s, 1), ColumnDigit(s, 0)]
  }

  /** The first box a rendering fills (`findIndex` of a non-empty box, 2 when there is none). */
  function StartIndex(e: seq<string>): (r: nat)
    requires |e| == 3
    ensures r <= 2
  {
    if e[0] != "" then 0 else if e[1] != "" then 1 else 2
  }

  /**
   * The loop filling the expected boxes from the rendering's last character
   * backwards; characters beyond the third from the right have no box.
   */
  method ExpectedBoxes(s: string) returns (expected: seq<string>)
    ensures expected == Slots(s)
  {
    expected := ["", "", ""];
    var i := 0;
    while i < |s|
      invariant 0 <= i <= |s| && |expected| == 3
      invariant forall j :: 0 <= j < 3 ==> expected[j] == if 2 - j < i then ColumnDigit(s, 2 - j) else ""
    {
      if 2 - i >= 0 {
        expected := expected[2 - i := [s[|s| - 1 - i]]];
      }
      i := i + 1;
    }
  }

  /**
   * The boxes of a number below 1000 spell it from the first filled box on,
   * the boxes before that are empty, and each filled box holds one digit.
   */
  lemma SlotsSpellNumber(n: nat)
    requires n <= 999
    ensures var e := Slots(NatToString(n));
            var k := StartIndex(e);
            k == 3 - |NatToString(n)|
            && e[0] + e[1] + e[2] == NatToString(n)
            && (forall j :: 0 <= j < k ==> e[j] == "")
            && (forall j :: k <= j < 3 ==> |e[j]| == 1 && IsDigit(e[j][0]))
  {
    var s := NatToString(n);
    NatToStringShape(n);
    NatWidth(n);
    RightAligned(s);
  }

  class FormFillInput {
    const expected: seq<string>
    var inputs: seq<string>
    var activeIndex: Option<nat>
    var submitted: bool
    var isCorrect: Option<bool>

    ghost predicate Valid()
      reads this
    {
      |expected| == 3 && |inputs| == 3
      && (submitted <==> activeIndex.None?)
      && (submitted <==> isCorrect.Some?)
      && (activeIndex.Some? ==> activeIndex.value <= 2)
    }

    /** A new question: empty boxes, the cursor on the first box the answer fills. */
    constructor (q: Question)
      ensures expected == Slots(IntToString(Bottom(q.meta)))
      ensures inputs == ["", "", ""] && activeIndex == Some(StartIndex(expected))
      ensures !submitted && isCorrect.None?
      ensures Valid()
    {
      var e := ExpectedBoxes(IntToString(Bottom(q.meta)));
      expected := e;
      inputs := ["", "", ""];
      activeIndex := Some(StartIndex(e));
      submitted := false;
      isCorrect := None;
    }

    /**
     * `checkAnswer`: the boxes are correct when each holds exactly what is
     * expected of it (both rows have three boxes, so box-by-box agreement is
     * equality of the rows).
     */
    method Check() returns (outcome: Option<bool>)
      requires Valid()
      modifies this
      ensures Valid() && inputs == old(inputs)
      ensures old(submitted) ==> outcome.None? && activeIndex == old(activeIndex) && isCorrect == old(isCorrect)
      ensures !old(submitted) ==>
                outcome == Some(inputs == expected)
                && submitted && isCorrect == outcome && activeIndex.None?
    {
      if submitted {
        return None;
      }
      var correct := inputs == expected;
      submitted := true;
      isCorrect := Some(correct);
      activeIndex := None;
      outcome := Some(correct);
    }

    /**
     * `handleInput`: ignored once submitted. `DEL` empties the current box,
     * or moves one box left when it is already empty; `ENTER` checks; a
     * digit fills the current box and moves right, or checks on the last box.
     */
    method HandleInput(key: P.Key) returns (outcome: Option<bool>)
      requires Valid()
      modifies this
      ensures Valid()
      ensures old(submitted) ==> outcome.None? && inputs == old(inputs) && submitted
      ensures !old(submitted) && key.Del? ==>
                var i := old(activeIndex).value;
                outcome.None? && !submitted
                && (old(inputs)[i] != "" ==> inputs == old(inputs)[i := ""] && activeIndex == old(activeIndex))
                && (old(inputs)[i] == "" ==>
                      inputs == old(inputs) && activeIndex == Some(if i > 0 then i - 1 else i))
      ensures !old(submitted) && key.Enter? ==>
                inputs == old(inputs) && submitted
                && outcome == Some(inputs == expected)
      ensures !old(submitted) && key.Digit? && !IsDigit(key.c) ==>
                outcome.None? && inputs == old(inputs) && activeIndex == old(activeIndex) && !submitted
      ensures !old(submitted) && key.Digit? && IsDigit(key.c) ==>
                var i := old(activeIndex).value;
                inputs == old(inputs)[i := [key.c]]
                && (i < 2 ==> outcome.None? && !submitted && activeIndex == Some(i + 1))
                && (i == 2 ==> submitted && outcome == Some(inputs == expected))
    {
      if submitted || activeIndex.None? {
        return None;
      }
      var i := activeIndex.value;
      match key
      case Del =>
        if inputs[i] != "" {
          inputs := inputs[i := ""];
        } else if i > 0 {
          activeIndex := Some(i - 1);
        }
        return None;
      case Enter =>
        outcome := Check();
      case Digit(c) =>
        if !IsDigit(c) {
          return None;
        }
        inputs := inputs[i := [c]];
        if i < 2 {
          activeIndex := Some(i + 1);
          return None;
        }
        outcome := Check();
    }

    /** Tapping a box puts the cursor there, unless the answer is submitted. */
    method SelectBox(idx: nat)
      requires Valid() && idx <= 2
      modifies this
      ensures Valid() && inputs == old(inputs) && submitted == old(submitted) && isCorrect == old(isCorrect)
      ensures activeIndex == if old(submitted) then old(activeIndex) else Some(idx)
    {
      if !submitted {
        activeIndex := Some(idx);
      }
    }
  }

  /**
   * Typing the digits of the bottom number of a fill question, starting
   * where the cursor starts, is judged correct.
   */
  method SolveFormFill(a: int, b: int, format: FillFormat, i: nat, now: int) returns (outcome: Option<bool>)
    requires 0 <= b <= 999
    ensures outcome == Some(true)
  {
    var q := W.FormFillQuestion(a, b, format, i, now);
    var w := new FormFillInput(q);
    outcome := TypeDigits(w, b);
  }

  /** The moves of `SolveFormFill`: one key per digit, most significant first. */
  method TypeDigits(w: FormFillInput, n: nat) returns (outcome: Option<bool>)
    requires w.Valid() && n <= 999 && w.expected == Slots(NatToString(n))
    requires w.inputs == ["", "", ""] && w.activeIndex == Some(StartIndex(w.expected)) && !w.submitted
    modifies w
    ensures outcome == Some(true)
  {
    var e := w.expected;
    SlotsSpellNumber(n);
    var k := StartIndex(e);
    var j := k;
    outcome := None;
    while j < 3
      invariant k <= j <= 3 && w.Valid() && w.expected == e
      invariant j < 3 ==> !w.submitted && w.activeIndex == Some(j) && outcome.None?
      invariant w.inputs == e[..j] + ["", "", ""][j..]
      invariant j == 3 ==> outcome == Some(w.inputs == e)
      modifies w
    {
      outcome := w.HandleInput(P.Digit(e[j][0]));
      assert e[j] == [e[j][0]];
      j := j + 1;
    }
  }
}
