/**
 * One play session of a stage: the questions are answered through the
 * standard keypad input, the make-10 ("sakuranbo") step input or a dedicated
 * widget; every answer is recorded, a second mistake ends the round early on
 * most paths, and the round's score decides the pass.
 *
 * The feedback and transition delays are taken to run their continuation at
 * once, the clock comes in as `now`, and per-question times are left out.
 */
module PlaySession {
  import opened Wrappers
  import opened JsNumbers
  import opened Curriculum
  import opened SequentialPairs
  import A = AddGenerators
  import S = SubGenerators

  /** A keypad token: a digit, `DEL` or `ENTER`. */
  datatype Key = Digit(c: char) | Del | Enter

  // ---------------------------------------------------------------- routing

  /** The input a question is shown with, in the order the page tests for them. */
  datatype Widget = PlaceValueW | FormFillW | FormChoiceW | SkipTapW | SequenceBoxesW
                  | SakuranboW | WrittenCalcW | CarryMarkW | StandardW

  function WidgetOf(q: Question): Widget {
    if q.meta.PlaceValue2? || q.meta.PlaceValue3? then PlaceValueW
    else if q.meta.FormFillInfo? then FormFillW
    else if q.meta.FormChoiceInfo? then FormChoiceW
    else if q.meta.SkipTapInfo? then SkipTapW
    else if q.meta.SkipSeq? then SequenceBoxesW
    else if q.qtype == FillQ then SakuranboW
    else if q.meta.WrittenAddInfo? || q.meta.VerifyInfo? then WrittenCalcW
    else if q.meta.CarryTapInfo? then CarryMarkW
    else StandardW
  }

  /** Where a keypad token goes. */
  datatype KeyTarget = ToBoxes | ToFormFill | ToPlaceValue | ToWrittenCalc | ToSakuranbo | ToStandard

  function KeyTargetOf(q: Question): KeyTarget {
    if q.meta.SkipSeq? then ToBoxes
    else if q.meta.FormFillInfo? then ToFormFill
    else if q.meta.PlaceValue2? || q.meta.PlaceValue3? then ToPlaceValue
    else if q.meta.WrittenAddInfo? || q.meta.VerifyInfo? then ToWrittenCalc
    else if q.qtype == FillQ then ToSakuranbo
    else ToStandard
  }

  /**
   * Keys reach the widget on screen for the keypad-driven widgets; for the
   * layout choice, the tap game and the carry-mark tap, which have buttons of
   * their own, keys fall through to the standard input.
   */
  lemma KeysFollowWidget(q: Question)
    requires q.qtype == FillQ ==> q.meta.CarryProc? || q.meta.BorrowProc?
    ensures WidgetOf(q) == PlaceValueW <==> KeyTargetOf(q) == ToPlaceValue
    ensures WidgetOf(q) == FormFillW <==> KeyTargetOf(q) == ToFormFill
    ensures WidgetOf(q) == SequenceBoxesW <==> KeyTargetOf(q) == ToBoxes
    ensures WidgetOf(q) == WrittenCalcW <==> KeyTargetOf(q) == ToWrittenCalc
    ensures WidgetOf(q) == SakuranboW <==> KeyTargetOf(q) == ToSakuranbo
    ensures KeyTargetOf(q) == ToStandard <==>
              WidgetOf(q) in {StandardW, FormChoiceW, SkipTapW, CarryMarkW}
  {
  }

  /** Does the answer path of this widget end the round at the second mistake? */
  predicate StopsEarly(w: Widget) {
    w != SkipTapW && w != SequenceBoxesW && w != CarryMarkW
  }

  // ---------------------------------------------------------------- make-10 steps

  /** A subtraction procedure: the metadata has a (non-zero) minuend. */
  predicate IsSubtraction(m: Meta) {
    m.BorrowProc? && m.minuend != 0
  }

  predicate IsSplitOnly(m: Meta) {
    (m.CarryProc? && m.carryMode == SplitOnly) || (m.BorrowProc? && m.borrowMode == SplitOnly)
  }

  /** The index of the last step: 1 for subtraction or split-only, 2 for the full addition. */
  function FinalStep(m: Meta): nat {
    if IsSubtraction(m) || IsSplitOnly(m) then 1 else 2
  }

  /** The value step `i` expects, "" where the metadata has none. */
  function ExpectedStep(q: Question, i: nat): string {
    if IsSubtraction(q.meta) then
      if i == 0 then IntToString(q.meta.step1)
      else if i == 1 then IntToString(q.meta.step2)
      else ""
    else if i == 0 then (if q.meta.CarryProc? then IntToString(q.meta.complement) else "")
    else if i == 1 then (if q.meta.CarryProc? then IntToString(q.meta.remainder) else "")
    else if i == 2 then q.answer
    else ""
  }

  /** The step input: three entries, the active step, and the lock held while a check is pending. */
  datatype Steps = Steps(inputs: seq<string>, index: nat, locked: bool)

  const FreshSteps: Steps := Steps(["", "", ""], 0, false)

  predicate StepsOk(q: Question, st: Steps) {
    |st.inputs| == 3 && st.index <= FinalStep(q.meta)
  }

  /** A step that now holds its expected value: lock and check at the last step, else move on. */
  function Accept(q: Question, st: Steps, v: string): (Steps, Option<string>)
    requires StepsOk(q, st)
  {
    if st.index == FinalStep(q.meta) then (st.(locked := true), Some(v))
    else (st.(index := st.index + 1), None)
  }

  /**
   * `handleSakuranboInput`: the new step state and the value whose check it
   * schedules, if any.
   */
  function SakuranboStep(q: Question, st: Steps, key: Key): (Steps, Option<string>)
    requires StepsOk(q, st)
  {
    if st.locked || q.meta.NoMeta? then (st, None)
    else
      var cur := st.inputs[st.index];
      var expected := ExpectedStep(q, st.index);
      match key
      case Del =>
        if |cur| > 0 then (st.(inputs := st.inputs[st.index := cur[..|cur| - 1]]), None)
        else if st.index > 0 then (st.(index := st.index - 1), None)
        else (st, None)
      case Enter =>
        if cur == "" || cur != expected then (st, None)
        else Accept(q, st, cur)
      case Digit(c) =>
        if |cur| >= 2 then (st, None)
        else
          var next := cur + [c];
          var st' := st.(inputs := st.inputs[st.index := next]);
          if next == expected then Accept(q, st', next) else (st', None)
  }

  /**
   * The step machine keeps its shape and never passes the final step; while a
   * check is pending nothing changes; a check is scheduled only at the final
   * step, for exactly the value that step expects, and then locks the input;
   * `ENTER` on an empty or wrong step changes nothing.
   */
  lemma SakuranboStepFacts(q: Question, st: Steps, key: Key)
    requires StepsOk(q, st)
    ensures var (st', check) := SakuranboStep(q, st, key);
            StepsOk(q, st')
            && (st.locked ==> st' == st && check.None?)
            && (check.Some? ==> !st.locked && st.index == FinalStep(q.meta) && st'.index == st.index
                                && check.value == ExpectedStep(q, st.index) && st'.locked)
            && (check.None? && !st.locked ==> !st'.locked)
            && (key == Enter && st.inputs[st.index] != ExpectedStep(q, st.index) ==> st' == st && check.None?)
  {
  }

  /**
   * `DEL` shortens a non-empty step by one character and otherwise steps back;
   * a digit is refused once the step holds two characters and otherwise is
   * appended, the machine advancing only when the step now matches.
   */
  lemma SakuranboKeys(q: Question, st: Steps, c: char)
    requires StepsOk(q, st) && !st.locked && !q.meta.NoMeta?
    ensures var cur := st.inputs[st.index];
            var (d, _) := SakuranboStep(q, st, Del);
            (|cur| > 0 ==> d.index == st.index && d.inputs[st.index] == cur[..|cur| - 1])
            && (|cur| == 0 && st.index > 0 ==> d.index == st.index - 1 && d.inputs == st.inputs)
    ensures var cur := st.inputs[st.index];
            var (g, check) := SakuranboStep(q, st, Digit(c));
            (|cur| >= 2 ==> g == st && check.None?)
            && (|cur| < 2 ==> g.inputs[st.index] == cur + [c]
                              && (g.index != st.index ==> g.index == st.index + 1 && cur + [c] == ExpectedStep(q, st.index)))
  {
  }

  /**
   * The verdict `checkAnswer` reaches for a typed value: equal to the answer,
   * or in split-only mode equal to the remainder. A split-only subtraction has
   * no remainder and the check fails before reaching a verdict.
   */
  function Verdict(q: Question, val: string): Option<bool> {
    if IsSplitOnly(q.meta) then
      if q.meta.CarryProc? then Some(val == IntToString(q.meta.remainder)) else None
    else Some(val == q.answer)
  }

  /**
   * On a generated carry question, the value the last step expects is the
   * one the check accepts: the answer, or the remainder in split-only mode.
   */
  lemma CarryStepsAccepted(a: int, b: int, suffix: string, v: Variant)
    ensures var q := A.CarryQuestion(a, b, suffix, v);
            !IsSubtraction(q.meta)
            && ExpectedStep(q, 0) == IntToString(10 - a)
            && ExpectedStep(q, 1) == IntToString(b - (10 - a))
            && FinalStep(q.meta) == (if v == SplitOnly then 1 else 2)
            && Verdict(q, ExpectedStep(q, FinalStep(q.meta))) == Some(true)
  {
  }

  /**
   * On a generated borrow question the steps end on `step2`, which the check
   * compares with the answer: typing every expected step is judged correct
   * exactly when the minuend is at most 19. In split-only mode the check
   * finds no remainder and reaches no verdict.
   */
  lemma BorrowStepsJudged(m: int, s: int, v: Variant, suffix: string)
    requires Keeps(BorrowFilter, m, s)
    ensures var q := S.BorrowQuestion(m, s, v, suffix);
            IsSubtraction(q.meta) && FinalStep(q.meta) == 1
            && ExpectedStep(q, 0) == IntToString(10 - s)
            && ExpectedStep(q, 1) == IntToString(q.meta.step2)
            && (v != SplitOnly ==> Verdict(q, ExpectedStep(q, 1)) == Some(m <= 19))
            && (v == SplitOnly ==> Verdict(q, ExpectedStep(q, 1)).None?)
  {
    var q := S.BorrowQuestion(m, s, v, suffix);
    S.BorrowStepsReachAnswer(m, s, v, suffix);
    IntToStringInjective(q.meta.step2, m - s);
  }

  // ---------------------------------------------------------------- scoring

  datatype Outcome = Outcome(q: Question, correct: bool)

  function CorrectCount(rs: seq<Outcome>): nat {
    if rs == [] then 0 else CorrectCount(rs[..|rs| - 1]) + (if rs[|rs| - 1].correct then 1 else 0)
  }

  function MistakeCount(rs: seq<Outcome>): nat {
    if rs == [] then 0 else MistakeCount(rs[..|rs| - 1]) + (if rs[|rs| - 1].correct then 0 else 1)
  }

  /** Every result is either correct or a mistake. */
  lemma {:induction false} CountsAddUp(rs: seq<Outcome>)
    ensures CorrectCount(rs) + MistakeCount(rs) == |rs|
  {
    if rs != [] {
      CountsAddUp(rs[..|rs| - 1]);
    }
  }

  /** `Math.round(correct / total * 100) || 0`, on exact rationals. */
  function Accuracy(correct: nat, total: nat): int {
    if total == 0 then 0 else (200 * correct + total) / (2 * total)
  }

  /** Multiplying by a natural number keeps the order. */
  lemma {:induction false} MulMono(d: nat, a: int, b: int)
    requires a <= b
    ensures d * a <= d * b
  {
    if d > 0 {
      MulMono(d - 1, a, b);
      assert d * a == (d - 1) * a + a && d * b == (d - 1) * b + b;
    }
  }

  /** The quotient is the one `q` with `d·q <= x < d·q + d`. */
  lemma DivUnique(x: int, d: int, q: int)
    requires d > 0 && d * q <= x < d * q + d
    ensures x / d == q
  {
    var a := x / d;
    assert x == d * a + x % d && 0 <= x % d < d;
    if a < q {
      MulMono(d, a + 1, q);
      assert false;
    } else if a > q {
      MulMono(d, q + 1, a);
      assert false;
    }
  }

  /**
   * The accuracy is the percentage rounded to the nearest integer, halves
   * upwards: 100·correct/total lies in [a - 1/2, a + 1/2). It is 0 for no
   * results and between 0 and 100; it is 100 when every result is correct, and
   * also when the wrong ones are at most half a percent of the total.
   */
  lemma AccuracyRounds(correct: nat, total: nat)
    requires correct <= total
    ensures var a := Accuracy(correct, total);
            0 <= a <= 100
            && (total == 0 ==> a == 0)
            && (total > 0 ==> 2 * total * a <= 200 * correct + total < 2 * total * a + 2 * total)
            && (total > 0 ==> (a == 100 <==> 200 * (total - correct) <= total))
            && (correct == total ==> total == 0 || a == 100)
  {
    if total > 0 {
      var x := 200 * correct + total;
      var d := 2 * total;
      var a := x / d;
      assert x == d * a + x % d && 0 <= x % d < d;
      if a < 0 {
        MulMono(d, a, -1);
        assert false;
      }
      if 200 * (total - correct) <= total {
        DivUnique(x, d, 100);
      } else if a >= 100 {
        MulMono(d, 100, a);
        assert false;
      }
    }
  }

  /** More correct answers never lower the accuracy. */
  lemma AccuracyMonotone(c1: nat, c2: nat, total: nat)
    requires c1 <= c2
    ensures Accuracy(c1, total) <= Accuracy(c2, total)
  {
    if total > 0 {
      var d := 2 * total;
      var x1 := 200 * c1 + total;
      var x2 := 200 * c2 + total;
      var a1 := x1 / d;
      var a2 := x2 / d;
      assert x1 == d * a1 + x1 % d && 0 <= x1 % d < d;
      assert x2 == d * a2 + x2 % d && 0 <= x2 % d < d;
      assert d * (a2 + 1) == d * a2 + d;
      if a1 > a2 {
        MulMono(d, a2 + 1, a1);
        assert false;
      }
    }
  }

  predicate Passes(accuracy: int, passAccuracy: Option<int>) {
    accuracy >= OrDefault(passAccuracy, 0)
  }

  /** With an 80% rule, 8 of 10 passes and 7 of 10 fails; without a rule every round passes. */
  lemma PassExamples()
    ensures Accuracy(8, 10) == 80 && Passes(Accuracy(8, 10), Some(80))
    ensures Accuracy(7, 10) == 70 && !Passes(Accuracy(7, 10), Some(80))
    ensures forall c: nat, n: nat :: c <= n ==> Passes(Accuracy(c, n), None)
  {
    forall c: nat, n: nat | c <= n
      ensures Passes(Accuracy(c, n), None)
    {
      AccuracyRounds(c, n);
    }
  }

  /** The fresh weak-question record a mistake produces. */
  function MistakeRecord(q: Question, now: int): WeakQuestion {
    WeakQuestion(q.id, 1, now, 0, q)
  }

  /** The incorrect results, in order, as fresh weak-question records. */
  function Mistakes(rs: seq<Outcome>, now: int): seq<WeakQuestion> {
    if rs == [] then []
    else
      var last := rs[|rs| - 1];
      Mistakes(rs[..|rs| - 1], now) + (if last.correct then [] else [MistakeRecord(last.q, now)])
  }

  /** There is one reported mistake per incorrect result. */
  lemma {:induction false} MistakesCounted(rs: seq<Outcome>, now: int)
    ensures |Mistakes(rs, now)| == MistakeCount(rs)
  {
    if rs != [] {
      MistakesCounted(rs[..|rs| - 1], now);
    }
  }

  /** Each reported mistake is a fresh record of an incorrectly answered question. */
  lemma {:induction false} MistakesSound(rs: seq<Outcome>, now: int)
    ensures forall j :: 0 <= j < |Mistakes(rs, now)| ==>
              exists i :: 0 <= i < |rs| && !rs[i].correct && Mistakes(rs, now)[j] == MistakeRecord(rs[i].q, now)
  {
    if rs != [] {
      var init := rs[..|rs| - 1];
      MistakesSound(init, now);
      var ms0 := Mistakes(init, now);
      var ms := Mistakes(rs, now);
      assert ms[..|ms0|] == ms0;
      forall j | 0 <= j < |ms|
        ensures exists i :: 0 <= i < |rs| && !rs[i].correct && ms[j] == MistakeRecord(rs[i].q, now)
      {
        if j < |ms0| {
          assert ms[j] == ms0[j];
          var i :| 0 <= i < |init| && !init[i].correct && ms0[j] == MistakeRecord(init[i].q, now);
          assert rs[i] == init[i];
        } else {
          var i := |rs| - 1;
          assert !rs[i].correct && ms[j] == MistakeRecord(rs[i].q, now);
        }
      }
    } else {
      assert Mistakes(rs, now) == [];
    }
  }

  /** Every incorrectly answered question is reported. */
  lemma {:induction false} MistakesComplete(rs: seq<Outcome>, now: int)
    ensures forall i :: 0 <= i < |rs| && !rs[i].correct ==> MistakeRecord(rs[i].q, now) in Mistakes(rs, now)
  {
    if rs != [] {
      var init := rs[..|rs| - 1];
      MistakesComplete(init, now);
      assert forall i :: 0 <= i < |init| ==> rs[i] == init[i];
    }
  }

  /** What `finishGame` hands to the ledger, less the total time. */
  datatype Report = Report(accuracy: int, passed: bool, mistakes: seq<WeakQuestion>)

  function Score(rs: seq<Outcome>, passAccuracy: Option<int>, now: int): Report {
    var accuracy := Accuracy(CorrectCount(rs), |rs|);
    Report(accuracy, Passes(accuracy, passAccuracy), Mistakes(rs, now))
  }

  /**
   * A round with every answer right passes whatever the rule (up to 100); a
   * round with no results scores 0.
   */
  lemma ScoreFacts(rs: seq<Outcome>, passAccuracy: Option<int>, now: int)
    ensures var r := Score(rs, passAccuracy, now);
            0 <= r.accuracy <= 100
            && (rs == [] ==> r.accuracy == 0 && r.mistakes == [])
            && (rs != [] && MistakeCount(rs) == 0 ==>
                  r.accuracy == 100 && (OrDefault(passAccuracy, 0) <= 100 ==> r.passed))
            && |r.mistakes| == MistakeCount(rs)
  {
    CountsAddUp(rs);
    AccuracyRounds(CorrectCount(rs), |rs|);
    MistakesCounted(rs, now);
  }

  // ---------------------------------------------------------------- the session

  datatype Phase = ReviewPhase | NewPhase
  datatype Status = Ready | Playing | Finished

  /** How a result arrived: through `checkAnswer`, or from a widget's completion. */
  datatype Path = ByCheck | ByWidget(w: Widget)

  predicate EarlyStopOn(p: Path) {
    p.ByCheck? || StopsEarly(p.w)
  }

  /** The session's state at one moment, so that a step can be described from the state before it. */
  datatype SessionView = SessionView(
    reviewList: seq<Question>, newList: seq<Question>, phase: Phase, questions: seq<Question>,
    currentIndex: nat, currentInput: string, status: Status, inputReady: bool,
    results: seq<Outcome>, mistakes: seq<WeakQuestion>, steps: Steps, passAccuracy: Option<int>, report: Option<Report>)

  /**
   * The continuation after feedback, from state `b` to state `a`: the result
   * for the current question is appended, with a mistake record when it is
   * wrong. At the second mistake, on a path that has the early stop, the round
   * finishes with exactly the results so far. Otherwise it moves to the next
   * question, switches from the review list to the new list (only on the
   * checked path), or finishes after the last question. A new question starts
   * with fresh steps. The phase changes only at the switch. The finish
   * leaves the input and the steps as they were.
   */
  predicate RecordedFrom(b: SessionView, a: SessionView, correct: bool, path: Path, now: int) {
    b.currentIndex < |b.questions|
    && var q := b.questions[b.currentIndex];
    a.results == b.results + [Outcome(q, correct)]
    && a.mistakes == b.mistakes + (if correct then [] else [MistakeRecord(q, now)])
    && var stop := !correct && EarlyStopOn(path) && MistakeCount(a.results) >= 2;
    var more := b.currentIndex < |b.questions| - 1;
    var switch := !stop && !more && path.ByCheck? && b.phase == ReviewPhase && |b.newList| > 0;
    (stop ==> a.status == Finished && a.report == Some(Score(a.results, a.passAccuracy, now))
              && a.questions == b.questions && a.currentIndex == b.currentIndex && a.phase == b.phase
              && a.currentInput == b.currentInput && a.steps == b.steps)
    && (!stop && more ==> a.status == b.status && a.report == b.report && a.questions == b.questions && a.phase == b.phase
                          && a.currentIndex == b.currentIndex + 1 && a.steps == FreshSteps
                          && a.currentInput == (if path.ByCheck? then "" else b.currentInput))
    && (switch ==> a.status == b.status && a.report == b.report && a.phase == NewPhase
                   && a.questions == b.newList && a.currentIndex == 0 && a.currentInput == "" && a.steps == FreshSteps)
    && (!stop && !more && !switch ==> a.status == Finished && a.report == Some(Score(a.results, a.passAccuracy, now))
                                      && a.questions == b.questions && a.currentIndex == b.currentIndex
                                      && a.phase == b.phase && a.currentInput == b.currentInput && a.steps == b.steps)
    && a.newList == b.newList && a.reviewList == b.reviewList && a.passAccuracy == b.passAccuracy
    && a.inputReady == b.inputReady
  }

  class Session {
    var reviewList: seq<Question>
    var newList: seq<Question>
    var phase: Phase
    var questions: seq<Question>
    var currentIndex: nat
    var currentInput: string
    var status: Status
    var inputReady: bool
    var results: seq<Outcome>
    var mistakes: seq<WeakQuestion>
    var steps: Steps
    var passAccuracy: Option<int>
    var report: Option<Report>

    function View(): SessionView
      reads this
    {
      SessionView(reviewList, newList, phase, questions, currentIndex, currentInput, status, inputReady,
                  results, mistakes, steps, passAccuracy, report)
    }

    ghost predicate Valid()
      reads this
    {
      |steps.inputs| == 3 && steps.index <= 2
      && (currentIndex < |questions| ==> StepsOk(questions[currentIndex], steps))
    }

    /** The stage set-up: review is switched off, so the round starts on the new questions. */
    constructor (newQuestions: seq<Question>, passAccuracy: Option<int>)
      ensures Valid()
      ensures reviewList == [] && newList == newQuestions && phase == NewPhase && questions == newQuestions
      ensures currentIndex == 0 && currentInput == "" && status == Ready && !inputReady
      ensures results == [] && mistakes == [] && steps == FreshSteps
      ensures this.passAccuracy == passAccuracy && report.None?
    {
      reviewList := [];
      newList := newQuestions;
      phase := NewPhase;
      questions := newQuestions;
      currentIndex := 0;
      currentInput := "";
      status := Ready;
      inputReady := false;
      results := [];
      mistakes := [];
      steps := FreshSteps;
      this.passAccuracy := passAccuracy;
      report := None;
    }

    /** `startGame`: playing, with input accepted once the debounce has passed. */
    method Start()
      requires Valid()
      modifies this
      ensures Valid()
      ensures status == Playing && inputReady
      ensures questions == old(questions) && currentIndex == old(currentIndex) && results == old(results)
      ensures steps == old(steps) && currentInput == old(currentInput) && report == old(report)
    {
      status := Playing;
      inputReady := true;
    }

    /** `finishGame`: the round is over and its score is reported. */
    method Finish(now: int)
      modifies this
      ensures status == Finished && report == Some(Score(results, passAccuracy, now))
      ensures results == old(results) && mistakes == old(mistakes) && questions == old(questions)
      ensures currentIndex == old(currentIndex) && steps == old(steps) && currentInput == old(currentInput)
      ensures phase == old(phase) && newList == old(newList) && reviewList == old(reviewList)
      ensures passAccuracy == old(passAccuracy) && inputReady == old(inputReady)
    {
      status := Finished;
      report := Some(Score(results, passAccuracy, now));
    }

    /**
     * The end of the continuation: the next question, the switch from the
     * review list to the new list (only on the checked path), or the finish.
     */
    method Advance(path: Path, now: int)
      requires Valid()
      modifies this
      ensures Valid()
      ensures var more := old(currentIndex) < |old(questions)| - 1;
              var switch := !more && path.ByCheck? && old(phase) == ReviewPhase && |old(newList)| > 0;
              (more ==> status == old(status) && report == old(report) && questions == old(questions)
                        && phase == old(phase) && currentIndex == old(currentIndex) + 1 && steps == FreshSteps
                        && currentInput == (if path.ByCheck? then "" else old(currentInput)))
              && (switch ==> status == old(status) && report == old(report) && phase == NewPhase
                             && questions == old(newList) && currentIndex == 0 && currentInput == "" && steps == FreshSteps)
              && (!more && !switch ==> status == Finished && report == Some(Score(results, passAccuracy, now))
                                       && questions == old(questions) && currentIndex == old(currentIndex)
                                       && phase == old(phase) && currentInput == old(currentInput) && steps == old(steps))
      ensures results == old(results) && mistakes == old(mistakes)
      ensures newList == old(newList) && reviewList == old(reviewList) && passAccuracy == old(passAccuracy)
      ensures inputReady == old(inputReady)
    {
      if currentIndex < |questions| - 1 {
        currentIndex := currentIndex + 1;
        if path.ByCheck? {
          currentInput := "";
        }
        steps := FreshSteps;
      } else if path.ByCheck? && phase == ReviewPhase && |newList| > 0 {
        phase := NewPhase;
        questions := newList;
        currentIndex := 0;
        currentInput := "";
        steps := FreshSteps;
      } else {
        Finish(now);
      }
    }

    /** The continuation after feedback, as `RecordedFrom` describes it. */
    method Record(correct: bool, path: Path, now: int)
      requires Valid() && currentIndex < |questions|
      modifies this
      ensures Valid()
      ensures RecordedFrom(old(View()), View(), correct, path, now)
    {
      var q := questions[currentIndex];
      results := results + [Outcome(q, correct)];
      if !correct {
        mistakes := mistakes + [MistakeRecord(q, now)];
        if EarlyStopOn(path) && MistakeCount(results) >= 2 {
          Finish(now);
          return;
        }
      }
      Advance(path, now);
    }

    /**
     * `checkAnswer` on a value: the verdict for the current question is
     * recorded and the round continues as `RecordedFrom` says; without a
     * current question, or without a verdict, nothing happens.
     */
    method CheckAnswer(val: string, now: int)
      requires Valid()
      modifies this
      ensures Valid()
      ensures old(currentIndex) >= |old(questions)| || Verdict(old(questions)[old(currentIndex)], val).None? ==>
                View() == old(View())
      ensures old(currentIndex) < |old(questions)| && Verdict(old(questions)[old(currentIndex)], val).Some? ==>
                RecordedFrom(old(View()), View(), Verdict(old(questions)[old(currentIndex)], val).value, ByCheck, now)
      ensures old(results) <= results && |results| <= |old(results)| + 1
      ensures newList == old(newList) && passAccuracy == old(passAccuracy) && inputReady == old(inputReady)
    {
      if currentIndex >= |questions| {
        return;
      }
      var verdict := Verdict(questions[currentIndex], val);
      if verdict.None? {
        return;
      }
      Record(verdict.value, ByCheck, now);
    }

    /** The per-question timer ran out: the standard input as it stands is checked. */
    method TimeUp(now: int)
      requires Valid()
      modifies this
      ensures Valid()
      ensures old(status) != Playing ==> View() == old(View())
      ensures old(status) == Playing
              && (old(currentIndex) >= |old(questions)| || Verdict(old(questions)[old(currentIndex)], old(currentInput)).None?)
              ==> View() == old(View())
      ensures old(status) == Playing && old(currentIndex) < |old(questions)|
              && Verdict(old(questions)[old(currentIndex)], old(currentInput)).Some? ==>
                RecordedFrom(old(View()), View(), Verdict(old(questions)[old(currentIndex)], old(currentInput)).value,
                             ByCheck, now)
    {
      if status != Playing {
        return;
      }
      CheckAnswer(currentInput, now);
    }

    /**
     * A widget reported its outcome for the current question. The round
     * continues as `RecordedFrom` says, with the early stop only for the
     * widgets that have one.
     */
    method WidgetComplete(correct: bool, now: int)
      requires Valid()
      modifies this
      ensures Valid()
      ensures old(status) != Playing || old(currentIndex) >= |old(questions)| ==> View() == old(View())
      ensures old(status) == Playing && old(currentIndex) < |old(questions)| ==>
                RecordedFrom(old(View()), View(), correct, ByWidget(WidgetOf(old(questions)[old(currentIndex)])), now)
    {
      if status != Playing || currentIndex >= |questions| {
        return;
      }
      Record(correct, ByWidget(WidgetOf(questions[currentIndex])), now);
    }

    /**
     * `handleInput`: ignored unless playing and ready; keys for a
     * keypad-driven widget are handed to it (the returned target); keys for a
     * make-10 question drive the step machine, whose final step checks the
     * value it expects; other keys edit the standard input, `ENTER` checking it.
     * `checked` is the value handed to `checkAnswer`, if any.
     */
    method HandleInput(key: Key, now: int) returns (target: Option<KeyTarget>, checked: Option<string>)
      requires Valid()
      modifies this
      ensures Valid()
      ensures old(status) != Playing || !old(inputReady) || old(currentIndex) >= |old(questions)| ==>
                target.None? && checked.None? && View() == old(View())
      ensures target.Some? ==> old(currentIndex) < |old(questions)| && target.value == KeyTargetOf(old(questions)[old(currentIndex)])
      ensures target.Some? && target.value in {ToBoxes, ToFormFill, ToPlaceValue, ToWrittenCalc} ==>
                checked.None? && View() == old(View())
      ensures target == Some(ToSakuranbo) ==>
                var (st, check) := SakuranboStep(old(questions)[old(currentIndex)], old(steps), key);
                checked == check
                && (check.None? ==> View() == old(View()).(steps := st))
                && (check.Some? && Verdict(old(questions)[old(currentIndex)], check.value).None? ==>
                      View() == old(View()).(steps := st))
                && (check.Some? && Verdict(old(questions)[old(currentIndex)], check.value).Some? ==>
                      RecordedFrom(old(View()).(steps := st), View(),
                                   Verdict(old(questions)[old(currentIndex)], check.value).value, ByCheck, now))
      ensures target == Some(ToStandard) ==>
                (key == Del ==> checked.None? && View() == old(View()).(currentInput := DropLast(old(currentInput))))
                && (key.Digit? ==> checked.None? && View() == old(View()).(currentInput := old(currentInput) + [key.c]))
                && (key == Enter ==> checked == Some(old(currentInput)))
                && (key == Enter && Verdict(old(questions)[old(currentIndex)], old(currentInput)).None? ==>
                      View() == old(View()))
                && (key == Enter && Verdict(old(questions)[old(currentIndex)], old(currentInput)).Some? ==>
                      RecordedFrom(old(View()), View(),
                                   Verdict(old(questions)[old(currentIndex)], old(currentInput)).value, ByCheck, now))
    {
      target, checked := None, None;
      if status != Playing || !inputReady || currentIndex >= |questions| {
        return;
      }
      var t := KeyTargetOf(questions[currentIndex]);
      target := Some(t);
      if t == ToSakuranbo {
        checked := SakuranboKey(key, now);
      } else if t == ToStandard {
        checked := StandardKey(key, now);
      }
    }

    /** A key for a make-10 question drives its step machine; the final step's value is checked. */
    method SakuranboKey(key: Key, now: int) returns (checked: Option<string>)
      requires Valid() && currentIndex < |questions|
      modifies this
      ensures Valid()
      ensures var q := old(questions)[old(currentIndex)];
              var (st, check) := SakuranboStep(q, old(steps), key);
              checked == check
              && (check.None? || Verdict(q, check.value).None? ==> View() == old(View()).(steps := st))
              && (check.Some? && Verdict(q, check.value).Some? ==>
                    RecordedFrom(old(View()).(steps := st), View(), Verdict(q, check.value).value, ByCheck, now))
    {
      var q := questions[currentIndex];
      var (st, check) := SakuranboStep(q, steps, key);
      SakuranboStepFacts(q, steps, key);
      steps := st;
      checked := check;
      if check.Some? {
        CheckAnswer(check.value, now);
      }
    }

    /** A key for the standard input: `DEL` and digits edit it, `ENTER` checks it. */
    method StandardKey(key: Key, now: int) returns (checked: Option<string>)
      requires Valid() && currentIndex < |questions|
      modifies this
      ensures Valid()
      ensures var q := old(questions)[old(currentIndex)];
              (key == Del ==> checked.None? && View() == old(View()).(currentInput := DropLast(old(currentInput))))
              && (key.Digit? ==> checked.None? && View() == old(View()).(currentInput := old(currentInput) + [key.c]))
              && (key == Enter ==> checked == Some(old(currentInput)))
              && (key == Enter && Verdict(q, old(currentInput)).None? ==> View() == old(View()))
              && (key == Enter && Verdict(q, old(currentInput)).Some? ==>
                    RecordedFrom(old(View()), View(), Verdict(q, old(currentInput)).value, ByCheck, now))
    {
      checked := None;
      match key
      case Del =>
        currentInput := DropLast(currentInput);
      case Digit(c) =>
        currentInput := currentInput + [c];
      case Enter =>
        checked := Some(currentInput);
        CheckAnswer(currentInput, now);
    }
  }
}
