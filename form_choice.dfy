/**
 * The written-form choice: three ways of writing an addition in columns
 * are shown, one aligned correctly and the others with a row shifted, and
 * the learner taps the correct one.
 */
module FormChoice {
  import opened Wrappers
  import opened JsNumbers
  import opened Curriculum
  import opened Columns
  import W = WrittenGenerators

  /**
   * How far each row of a layout is moved left, top row then bottom row.
   * A right shift moves the top row left by one and, through an earlier
   * assignment that is never undone, the bottom row right by one.
   */
  function Shifts(l: Layout): (r: (int, int))
    ensures l == CorrectLayout || l == UndefinedLayout <==> r == (0, 0)
  {
    match l
    case LeftShift => (0, 1)
    case RightShift => (1, -1)
    case BlankShift => (0, 2)
    case _ => (0, 0)
  }

  /** `getColumn`: the digit shown in visual column `col` (0 hundreds, 2 ones) of a row moved left by `shift`. */
  function GetColumn(s: string, col: int, shift: int): (r: string)
    ensures |r| <= 1
  {
    ColumnDigit(s, 2 - col - shift)
  }

  /** The three visual columns of a row. */
  function Row(s: string, shift: int): (r: seq<string>)
    ensures |r| == 3
  {
    [GetColumn(s, 0, shift), GetColumn(s, 1, shift), GetColumn(s, 2, shift)]
  }

  /** The rows a choice draws for the question's two numbers. */
  function Rows(top: int, bottom: int, l: Layout): (seq<string>, seq<string>) {
    (Row(IntToString(top), Shifts(l).0), Row(IntToString(bottom), Shifts(l).1))
  }

  /**
   * In the correct layout each row spells its number, right-aligned, for
   * numbers below 1000.
   */
  lemma CorrectRowsSpell(top: nat, bottom: nat)
    requires top <= 999 && bottom <= 999
    ensures var (t, b) := Rows(top, bottom, CorrectLayout);
            t[0] + t[1] + t[2] == NatToString(top) && b[0] + b[1] + b[2] == NatToString(bottom)
  {
    NatWidth(top);
    NatWidth(bottom);
    RightAligned(NatToString(top));
    RightAligned(NatToString(bottom));
  }

  /**
   * Every other layout is visibly wrong: exactly the correct layout (or a
   * missing one) shows a digit in the ones column of both rows.
   */
  lemma OnlyCorrectFillsOnes(top: int, bottom: int, l: Layout)
    ensures var (t, b) := Rows(top, bottom, l);
            (t[2] != "" && b[2] != "") <==> l == CorrectLayout || l == UndefinedLayout
  {
  }

  class FormChoiceInput {
    const top: int
    const bottom: int
    const choices: seq<Choice>
    var selectedIdx: Option<nat>
    var submitted: bool
    var isCorrect: Option<bool>

    ghost predicate Valid()
      reads this
    {
      (submitted <==> selectedIdx.Some?) && (submitted <==> isCorrect.Some?)
      && (selectedIdx.Some? ==>
            selectedIdx.value < |choices| && isCorrect == Some(choices[selectedIdx.value].isCorrect))
    }

    /** A new question: its numbers and choices, nothing selected. */
    constructor (q: Question)
      ensures q.meta.FormChoiceInfo? ==>
                top == q.meta.choiceTop && bottom == q.meta.choiceBottom && choices == q.meta.choices
      ensures !q.meta.FormChoiceInfo? ==> top == 0 && bottom == 0 && choices == []
      ensures selectedIdx.None? && !submitted && isCorrect.None?
      ensures Valid()
    {
      if q.meta.FormChoiceInfo? {
        top, bottom, choices := q.meta.choiceTop, q.meta.choiceBottom, q.meta.choices;
      } else {
        top, bottom, choices := 0, 0, [];
      }
      selectedIdx, submitted, isCorrect := None, false, None;
    }

    /** `handleSelect`, at most once: the tapped choice is kept and judged by its own flag. */
    method Select(idx: nat) returns (outcome: Option<bool>)
      requires Valid() && idx < |choices|
      modifies this
      ensures Valid() && submitted
      ensures old(submitted) ==>
                outcome.None? && selectedIdx == old(selectedIdx) && isCorrect == old(isCorrect)
      ensures !old(submitted) ==>
                selectedIdx == Some(idx) && outcome == Some(choices[idx].isCorrect) && isCorrect == outcome
    {
      if submitted {
        return None;
      }
      var correct := choices[idx].isCorrect;
      selectedIdx := Some(idx);
      submitted := true;
      isCorrect := Some(correct);
      outcome := Some(correct);
    }
  }

  /**
   * On a generated question, tapping a choice is judged right exactly when
   * it is the one the answer names, and that choice shows the correct layout.
   */
  method Choose(q: Question, i: nat, now: int, aRange: Range, bRange: Range, layouts: seq<Layout>, idx: nat)
    returns (outcome: Option<bool>)
    requires W.FormChoiceOk(q, i, now, aRange, bRange, layouts) && idx < 3
    ensures outcome == Some(ParseInt(q.answer) == Some(idx))
    ensures outcome == Some(true) ==> q.meta.choices[idx].layout == CorrectLayout
  {
    W.FormChoiceAnswer(q, i, now, aRange, bRange, layouts);
    var w := new FormChoiceInput(q);
    outcome := w.Select(idx);
  }
}
