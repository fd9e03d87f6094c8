/**
 * The skip-counting boxes: the numbers `from, from + step, …` up to `to`
 * are entered one box at a time, the shown numbers prefilled; a box is
 * judged when it is submitted, a wrong entry is replaced by the right
 * number, and the round ends when every box has been judged.
 */
module SequenceBoxes {
  import opened Wrappers
  import opened JsNumbers
  import P = PlaySession
  import M = MulGenerators

  /** The first index at or after `start` whose number is not shown, or -1. */
  function FirstUnshown(s: seq<int>, shown: seq<int>, start: nat): (r: int)
    requires start <= |s|
    ensures r == -1 || start <= r < |s|
    ensures r == -1 ==> forall i :: start <= i < |s| ==> s[i] in shown
    ensures r != -1 ==> s[r] !in shown && forall i :: start <= i < r ==> s[i] in shown
    decreases |s| - start
  {
    if start == |s| then -1
    else if s[start] !in shown then start
    else FirstUnshown(s, shown, start + 1)
  }

  /** The first index at or after `start` whose box is not yet judged, or -1. */
  function NextOpen(submitted: seq<bool>, start: nat): (r: int)
    requires start <= |submitted|
    ensures r == -1 || start <= r < |submitted|
    ensures r == -1 ==> forall i :: start <= i < |submitted| ==> submitted[i]
    ensures r != -1 ==> !submitted[r] && forall i :: start <= i < r ==> submitted[i]
    decreases |submitted| - start
  {
    if start == |submitted| then -1
    else if !submitted[start] then start
    else NextOpen(submitted, start + 1)
  }

  /** The initial box texts: the shown numbers rendered, the rest empty. */
  function Prefill(s: seq<int>, shown: seq<int>): (r: seq<string>)
    ensures |r| == |s|
    ensures forall i :: 0 <= i < |s| ==> r[i] == if s[i] in shown then IntToString(s[i]) else ""
  {
    seq(|s|, i requires 0 <= i < |s| => if s[i] in shown then IntToString(s[i]) else "")
  }

  /** The initial judged flags: exactly the shown numbers. */
  function Shown(s: seq<int>, shown: seq<int>): (r: seq<bool>)
    ensures |r| == |s| && forall i :: 0 <= i < |s| ==> (r[i] <==> s[i] in shown)
  {
    seq(|s|, i requires 0 <= i < |s| => s[i] in shown)
  }

  /** The numbers of the boxes judged wrong, in order. */
  function WrongNumbers(s: seq<int>, correct: seq<bool>): (r: seq<int>)
    requires |correct| == |s|
    decreases |s|
  {
    if s == [] then []
    else WrongNumbers(s[..|s| - 1], correct[..|s| - 1]) + (if correct[|s| - 1] then [] else [s[|s| - 1]])
  }

  /** How many boxes were judged wrong. */
  function CountWrong(correct: seq<bool>): nat
    decreases |correct|
  {
    if correct == [] then 0 else CountWrong(correct[..|correct| - 1]) + (if correct[|correct| - 1] then 0 else 1)
  }

  /**
   * The reported mistakes as the completion code computes them: it filters
   * the wrong boxes and then maps each to the number at the filtered
   * position, which is the first `CountWrong` numbers of the sequence.
   */
  function MistakesAsWritten(s: seq<int>, correct: seq<bool>): (r: seq<int>)
    requires |correct| == |s|
    ensures |r| == CountWrong(correct)
  {
    CountWrongBound(correct);
    LeadingNumbers(s, CountWrong(correct))
  }

  /** `map((_, i) => sequence[i])` over a list of `n` entries: the first `n` numbers. */
  function LeadingNumbers(s: seq<int>, n: nat): (r: seq<int>)
    requires n <= |s|
    ensures |r| == n
  {
    if n == 0 then [] else LeadingNumbers(s, n - 1) + [s[n - 1]]
  }

  lemma {:induction false} CountWrongBound(correct: seq<bool>)
    ensures CountWrong(correct) <= |correct|
    decreases |correct|
  {
    if correct != [] {
      CountWrongBound(correct[..|correct| - 1]);
    }
  }

  /**
   * The corrected report lists exactly the numbers of the wrong boxes, one
   * per wrong box, in order.
   */
  lemma WrongNumbersListed(s: seq<int>, correct: seq<bool>)
    requires |correct| == |s|
    ensures |WrongNumbers(s, correct)| == CountWrong(correct)
    ensures forall x :: x in WrongNumbers(s, correct) <==> exists i :: 0 <= i < |s| && !correct[i] && s[i] == x
  {
    WrongNumbersCount(s, correct);
    forall x
      ensures x in WrongNumbers(s, correct) <==> exists i :: 0 <= i < |s| && !correct[i] && s[i] == x
    {
      WrongNumbersMember(s, correct, x);
    }
  }

  lemma {:induction false} WrongNumbersCount(s: seq<int>, correct: seq<bool>)
    requires |correct| == |s|
    ensures |WrongNumbers(s, correct)| == CountWrong(correct)
    decreases |s|
  {
    if s != [] {
      var n := |s| - 1;
      WrongNumbersCount(s[..n], correct[..n]);
    }
  }

  lemma {:induction false} WrongNumbersMember(s: seq<int>, correct: seq<bool>, x: int)
    requires |correct| == |s|
    ensures x in WrongNumbers(s, correct) <==> exists i :: 0 <= i < |s| && !correct[i] && s[i] == x
    decreases |s|
  {
    if s != [] {
      var n := |s| - 1;
      var s0, c0 := s[..n], correct[..n];
      WrongNumbersMember(s0, c0, x);
      assert WrongNumbers(s, correct) == WrongNumbers(s0, c0) + (if correct[n] then [] else [s[n]]);
      if x in WrongNumbers(s0, c0) {
        var i :| 0 <= i < n && !c0[i] && s0[i] == x;
        assert !correct[i] && s[i] == x;
      }
      if exists i :: 0 <= i < |s| && !correct[i] && s[i] == x {
        var i :| 0 <= i < |s| && !correct[i] && s[i] == x;
        if i < n {
          assert !c0[i] && s0[i] == x;
        }
      }
    }
  }

  /**
   * The report as written has one entry per wrong box, like the corrected
   * one; only its entries differ.
   */
  lemma MistakesAsWrittenCount(s: seq<int>, correct: seq<bool>)
    requires |correct| == |s|
    ensures |MistakesAsWritten(s, correct)| == |WrongNumbers(s, correct)| == CountWrong(correct)
  {
    WrongNumbersCount(s, correct);
  }

  /**
   * The report as written names the wrong numbers only by luck: for the
   * sequence 2, 4, 6 with the 4 answered wrongly it reports 2, where the
   * wrong number is 4.
   */
  lemma MistakesAsWrittenMisreport()
    ensures MistakesAsWritten([2, 4, 6], [true, false, true]) == [2]
    ensures WrongNumbers([2, 4, 6], [true, false, true]) == [4]
  {
    assert CountWrong([true, false, true]) == 1 by {
      assert [true, false, true][..2] == [true, false];
      assert [true, false][..1] == [true];
      assert [true][..0] == [];
    }
    assert [2, 4, 6][..2] == [2, 4] && [true, false, true][..2] == [true, false];
    assert [2, 4][..1] == [2] && [true, false][..1] == [true];
    assert [2][..0] == [] && [true][..0] == [];
  }

  /** What a completed round hands on: whether every box was right, and the wrong numbers. */
  datatype Completion = Completion(allCorrect: bool, mistakes: seq<int>)

  class SkipCountBoxes {
    const sequence: seq<int>
    const prefilled: seq<int>
    var values: seq<string>
    var currentIndex: int
    var submitted: seq<bool>
    var correct: seq<bool>
    var isComplete: bool

    ghost predicate Valid()
      reads this
    {
      |values| == |sequence| && |submitted| == |sequence| && |correct| == |sequence|
      && -1 <= currentIndex <= |sequence|
      // every box before the cursor is judged; with no cursor, all are
      && (currentIndex == -1 ==> forall i :: 0 <= i < |sequence| ==> submitted[i])
      && (forall i :: 0 <= i < |sequence| && i < currentIndex ==> submitted[i])
      && (isComplete ==> forall i :: 0 <= i < |sequence| ==> submitted[i])
      // shown numbers are judged right from the start
      && (forall i :: 0 <= i < |sequence| && sequence[i] in prefilled ==> submitted[i] && correct[i])
      && (forall i :: 0 <= i < |sequence| && correct[i] ==> submitted[i])
      // a judged box shows its number
      && (forall i :: 0 <= i < |sequence| && submitted[i] ==> ParseInt(values[i]) == Some(sequence[i]))
    }

    /**
     * The boxes for `from, from + step, …, to`, the numbers in `prefilled`
     * filled in and judged right; the cursor starts on the first box, or on
     * the first box to fill when the first number is shown.
     */
    constructor (step: int, from: int, to: int, prefilled: seq<int>)
      requires step > 0 || from > to
      ensures sequence == M.SkipSequence(from, to, step) && this.prefilled == prefilled
      ensures values == Prefill(sequence, prefilled)
      ensures submitted == Shown(sequence, prefilled) && correct == Shown(sequence, prefilled)
      ensures currentIndex == if |sequence| > 0 && sequence[0] in prefilled then FirstUnshown(sequence, prefilled, 0) else 0
      ensures !isComplete
      ensures Valid()
    {
      var s := M.BuildSkipSequence(from, to, step);
      sequence := s;
      this.prefilled := prefilled;
      values := Prefill(s, prefilled);
      submitted := Shown(s, prefilled);
      correct := Shown(s, prefilled);
      currentIndex := if |s| > 0 && s[0] in prefilled then FirstUnshown(s, prefilled, 0) else 0;
      isComplete := false;
      new;
      forall i | 0 <= i < |s| && s[i] in prefilled
        ensures ParseInt(values[i]) == Some(s[i])
      {
        ParseIntOfIntToString(s[i]);
      }
    }

    /** Whether the keypad reaches a box: not complete, the cursor on a box not yet judged. */
    predicate Open()
      reads this
    {
      !isComplete && 0 <= currentIndex < |sequence| && currentIndex < |submitted| && !submitted[currentIndex]
    }

    /**
     * What submitting box `i` leaves, from the values, judgements and verdicts
     * `v0`, `s0` and `c0` before it. The box is judged right when its text
     * parses to the box's number, and a wrong text is replaced by that number.
     * The cursor moves to the next box not yet judged. When there is none, the
     * round is complete and reports whether every box was right and the
     * mistakes as the completion code computes them.
     */
    predicate SubmittedFrom(i: int, v0: seq<string>, s0: seq<bool>, c0: seq<bool>, done: Option<Completion>)
      reads this
    {
      0 <= i < |sequence| && |v0| == |s0| == |c0| == |sequence|
      && var ok := ParseInt(v0[i]) == Some(sequence[i]);
      submitted == s0[i := true] && correct == c0[i := ok]
      && values == (if ok then v0 else v0[i := IntToString(sequence[i])])
      && (NextOpen(submitted, i + 1) != -1 ==>
            done.None? && !isComplete && currentIndex == NextOpen(submitted, i + 1))
      && (NextOpen(submitted, i + 1) == -1 ==>
            isComplete && currentIndex == i
            && done == Some(Completion(forall j :: 0 <= j < |correct| ==> correct[j],
                                       MistakesAsWritten(sequence, correct))))
    }

    /** `submitAnswer` on the cursor's box, as `SubmittedFrom` describes it. */
    method Submit() returns (done: Option<Completion>)
      requires Valid() && Open()
      modifies this
      ensures Valid()
      ensures SubmittedFrom(old(currentIndex), old(values), old(submitted), old(correct), done)
    {
      var i := currentIndex;
      var ok := ParseInt(values[i]) == Some(sequence[i]);
      submitted := submitted[i := true];
      correct := correct[i := ok];
      if !ok {
        ParseIntOfIntToString(sequence[i]);
        values := values[i := IntToString(sequence[i])];
      }
      var next := NextOpen(submitted, i + 1);
      if next != -1 {
        currentIndex := next;
        return None;
      }
      isComplete := true;
      done := Some(Completion(forall j :: 0 <= j < |correct| ==> correct[j], MistakesAsWritten(sequence, correct)));
    }

    /**
     * `handleInput`: ignored unless a box is open. `DEL` drops the box's
     * last character, `ENTER` submits a non-empty box, any other key is
     * appended while the box holds fewer than two characters.
     */
    method HandleInput(key: P.Key) returns (done: Option<Completion>)
      requires Valid()
      modifies this
      ensures Valid()
      ensures !old(Open()) ==>
                done.None? && values == old(values) && submitted == old(submitted)
                && currentIndex == old(currentIndex) && isComplete == old(isComplete)
      ensures old(Open()) && key.Del? ==>
                var i := currentIndex;
                done.None? && i == old(currentIndex) && values == old(values)[i := DropLast(old(values)[i])]
                && submitted == old(submitted) && correct == old(correct) && !isComplete
      ensures old(Open()) && key.Digit? ==>
                var i := currentIndex;
                done.None? && i == old(currentIndex) && submitted == old(submitted) && correct == old(correct)
                && !isComplete
                && values == if |old(values)[i]| >= 2 then old(values) else old(values)[i := old(values)[i] + [key.c]]
      ensures old(Open()) && key.Enter? && old(values)[old(currentIndex)] == "" ==>
                done.None? && values == old(values) && submitted == old(submitted)
                && currentIndex == old(currentIndex) && !isComplete
      ensures old(Open()) && key.Enter? && old(values)[old(currentIndex)] != "" ==>
                SubmittedFrom(old(currentIndex), old(values), old(submitted), old(correct), done)
      ensures done.Some? ==> isComplete && forall i :: 0 <= i < |sequence| ==> submitted[i]
    {
      if isComplete || currentIndex < 0 || currentIndex >= |sequence| || submitted[currentIndex] {
        return None;
      }
      var i := currentIndex;
      match key
      case Del =>
        values := values[i := DropLast(values[i])];
        return None;
      case Enter =>
        if values[i] != "" {
          done := Submit();
        } else {
          done := None;
        }
      case Digit(c) =>
        if |values[i]| >= 2 {
          return None;
        }
        values := values[i := values[i] + [c]];
        return None;
    }
  }

  /**
   * The page passes the first and last number of a question's sequence:
   * rebuilding from those with the same step gives the question's sequence
   * back.
   */
  lemma {:induction false} RebuildsSequence(from: int, to: int, step: int)
    requires step > 0
    ensures var s := M.SkipSequence(from, to, step);
            |s| > 0 ==> M.SkipSequence(s[0], s[|s| - 1], step) == s
    decreases if from <= to then to - from + 1 else 0
  {
    var s := M.SkipSequence(from, to, step);
    if |s| > 0 {
      var t := M.SkipSequence(from + step, to, step);
      assert s == [from] + t;
      if |t| == 0 {
        assert M.SkipSequence(from + step, from, step) == [];
      } else {
        RebuildsSequence(from + step, to, step);
        M.SkipSequenceAt(from + step, to, step);
        var last := t[|t| - 1];
        assert last >= from + step;
        assert s[|s| - 1] == last;
        assert M.SkipSequence(from, last, step) == [from] + M.SkipSequence(from + step, last, step);
      }
    }
  }

  /**
   * When every number is shown there is no box to fill: the cursor is off
   * the boxes, so no key is taken and the round never completes.
   */
  method AllShownNeverCompletes(step: int, from: int, to: int, key: P.Key) returns (done: Option<Completion>)
    requires step > 0
    ensures done.None?
  {
    var s := M.BuildSkipSequence(from, to, step);
    var b := new SkipCountBoxes(step, from, to, s);
    if |s| > 0 {
      assert s[0] in s;
      assert b.currentIndex == -1;
    }
    done := b.HandleInput(key);
  }
}
