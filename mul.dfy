/**
 * The multiplication and skip-counting generators: skip-count boxes,
 * elevator addition, addition/multiplication links, the times table in
 * order or at random, multi-table review and mix, and the tap game.
 */
module MulGenerators {
  import opened Wrappers
  import opened JsNumbers
  import opened Oracle
  import opened Curriculum
  import opened SequentialPairs

  // ---------------------------------------------------------------- skip-count sequence

  /** `from, from + step, ...` while `<= to`. */
  function SkipSequence(from: int, to: int, step: int): seq<int>
    requires step > 0 || from > to
    decreases if from <= to then to - from + 1 else 0
  {
    if from > to then [] else [from] + SkipSequence(from + step, to, step)
  }

  /** The j-th number is `from + j * step`; all are `<= to` and the next one would not be. */
  lemma {:induction false} SkipSequenceAt(from: int, to: int, step: int)
    requires step > 0
    ensures var s := SkipSequence(from, to, step);
            (forall j :: 0 <= j < |s| ==> s[j] == from + j * step && s[j] <= to)
            && from + |s| * step > to
    decreases if from <= to then to - from + 1 else 0
  {
    if from <= to {
      SkipSequenceAt(from + step, to, step);
      var s, t := SkipSequence(from, to, step), SkipSequence(from + step, to, step);
      assert s == [from] + t;
      forall j | 0 < j < |s| ensures s[j] == from + j * step {
        assert s[j] == t[j - 1];
        ShiftMul(j, step);
      }
      ShiftMul(|s|, step);
    }
  }

  lemma SkipSequenceStep(s: seq<int>, n: int, to: int, step: int)
    requires n <= to && step > 0
    ensures s + SkipSequence(n, to, step) == (s + [n]) + SkipSequence(n + step, to, step)
  {
    assert SkipSequence(n, to, step) == [n] + SkipSequence(n + step, to, step);
  }

  lemma ShiftMul(j: int, step: int)
    ensures (j - 1) * step + step == j * step
  {
  }

  /** The `for (n = from; n <= to; n += step)` loop that builds the sequence. */
  method BuildSkipSequence(from: int, to: int, step: int) returns (s: seq<int>)
    requires step > 0 || from > to
    ensures s == SkipSequence(from, to, step)
  {
    s := [];
    var n := from;
    assert s + SkipSequence(n, to, step) == SkipSequence(from, to, step);
    while n <= to
      invariant step > 0 || n > to
      invariant s + SkipSequence(n, to, step) == SkipSequence(from, to, step)
      decreases if n <= to then to - n + 1 else 0
    {
      SkipSequenceStep(s, n, to, step);
      s := s + [n];
      n := n + step;
    }
    assert SkipSequence(n, to, step) == [];
  }

  /** The indices below `n` whose numbers are not shown, ascending. */
  function BlankIndices(s: seq<int>, show: seq<int>, n: nat): (b: seq<nat>)
    requires n <= |s|
    ensures forall i :: 0 <= i < |b| ==> b[i] < n && s[b[i]] !in show
    ensures forall i, j :: 0 <= i < j < |b| ==> b[i] < b[j]
    ensures forall j :: 0 <= j < n && s[j] !in show ==> j in b
  {
    if n == 0 then []
    else BlankIndices(s, show, n - 1) + (if s[n - 1] !in show then [n - 1] else [])
  }

  /** The `forEach` that collects the blanks. */
  method FindBlanks(s: seq<int>, show: seq<int>) returns (b: seq<nat>)
    ensures b == BlankIndices(s, show, |s|)
  {
    b := [];
    var idx := 0;
    while idx < |s|
      invariant idx <= |s| && b == BlankIndices(s, show, idx)
    {
      if s[idx] !in show {
        b := b + [idx];
      }
      idx := idx + 1;
    }
  }

  /** The boxes as shown while blank `at` is asked: earlier blanks filled in, the rest empty. */
  function Display(s: seq<int>, show: seq<int>, blanks: seq<nat>, at: nat): seq<string> {
    seq(|s|, idx requires 0 <= idx < |s| =>
      if s[idx] in show then IntToString(s[idx])
      else if idx < at && idx in blanks then IntToString(s[idx])
      else "□")
  }

  function SkipQuestion(step: int, s: seq<int>, show: seq<int>, blanks: seq<nat>, i: nat): Question
    requires i < |blanks| && blanks[i] < |s|
  {
    var at := blanks[i];
    Question("skip_" + IntToString(step) + "_" + IntToString(at) + "_" + IntToString(i),
             Join(Display(s, show, blanks, at), " → "), IntToString(s[at]), InputQ,
             SkipSeq(step, s, at, show), false)
  }

  /** `showNumbers` when given (an array is truthy even when empty), else the two ends. */
  function ShownNumbers(from: int, to: int, showNumbers: Option<seq<int>>): seq<int> {
    if showNumbers.Some? then showNumbers.value else [from, to]
  }

  predicate SkipQuestionsOk(qs: seq<Question>, step: int, s: seq<int>, show: seq<int>, blanks: seq<nat>)
    requires forall i :: 0 <= i < |blanks| ==> blanks[i] < |s|
  {
    |qs| <= |blanks| && forall j :: 0 <= j < |qs| ==> qs[j] == SkipQuestion(step, s, show, blanks, j)
  }

  lemma SkipQuestionsSnoc(qs: seq<Question>, step: int, s: seq<int>, show: seq<int>, blanks: seq<nat>)
    requires forall i :: 0 <= i < |blanks| ==> blanks[i] < |s|
    requires SkipQuestionsOk(qs, step, s, show, blanks) && |qs| < |blanks|
    ensures SkipQuestionsOk(qs + [SkipQuestion(step, s, show, blanks, |qs|)], step, s, show, blanks)
  {
  }

  /** One question per blank, in order, at most `count`. */
  method GenerateSkipCount(step: int, from: int, to: int, showNumbers: Option<seq<int>>, count: nat)
    returns (qs: seq<Question>)
    requires step > 0 || from > to
    ensures var s := SkipSequence(from, to, step);
            var show := ShownNumbers(from, to, showNumbers);
            var b := BlankIndices(s, show, |s|);
            |qs| == (if count < |b| then count else |b|)
            && forall i :: 0 <= i < |qs| ==> qs[i] == SkipQuestion(step, s, show, b, i)
  {
    var s := BuildSkipSequence(from, to, step);
    var show := ShownNumbers(from, to, showNumbers);
    var blanks := FindBlanks(s, show);
    qs := [];
    var i := 0;
    while i < |blanks| && |qs| < count
      invariant i <= |blanks| && |qs| == i <= count
      invariant SkipQuestionsOk(qs, step, s, show, blanks)
    {
      SkipQuestionsSnoc(qs, step, s, show, blanks);
      qs := qs + [SkipQuestion(step, s, show, blanks, i)];
      i := i + 1;
    }
  }

  /**
   * Question i asks for a number of the sequence that is not shown, the
   * blank positions of successive questions strictly increase, and every
   * box before the current blank shows its number.
   */
  lemma SkipCountAsksBlanks(step: int, s: seq<int>, show: seq<int>, i: nat, j: nat)
    requires i < j < |BlankIndices(s, show, |s|)|
    ensures var b := BlankIndices(s, show, |s|);
            var q, r := SkipQuestion(step, s, show, b, i), SkipQuestion(step, s, show, b, j);
            q.meta.SkipSeq? && r.meta.SkipSeq?
            && s[q.meta.blankIndex] !in show && q.answer == IntToString(s[q.meta.blankIndex])
            && q.meta.blankIndex < r.meta.blankIndex
            && Display(s, show, b, r.meta.blankIndex)[q.meta.blankIndex] == q.answer
            && Display(s, show, b, q.meta.blankIndex)[q.meta.blankIndex] == "□"
  {
  }

  // ---------------------------------------------------------------- elevator addition

  function ElevQuestion(add: int, start: int, stepNum: int): Question {
    var current := start + (stepNum - 1) * add;
    Question("elev_add_" + IntToString(add) + "_" + IntToString(stepNum), Infix(current, "+", add),
             IntToString(current + add), InputQ, Elevator(stepNum, add), false)
  }

  predicate ElevOk(qs: seq<Question>, add: int, start: int, lo: int) {
    forall i :: 0 <= i < |qs| ==> qs[i] == ElevQuestion(add, start, lo + i)
  }

  lemma ElevSnoc(qs: seq<Question>, add: int, start: int, lo: int)
    requires ElevOk(qs, add, start, lo)
    ensures ElevOk(qs + [ElevQuestion(add, start, lo + |qs|)], add, start, lo)
  {
    var qs' := qs + [ElevQuestion(add, start, lo + |qs|)];
    forall i | 0 <= i < |qs'| ensures qs'[i] == ElevQuestion(add, start, lo + i) {
      if i < |qs| {
        assert qs'[i] == qs[i];
      }
    }
  }

  /** Steps `minStep, minStep + 1, ...` in order, as many as the range and `count` allow. */
  method GenerateElevAdd(add: int, start: int, stepsRange: Range, count: nat) returns (qs: seq<Question>)
    ensures var n := if stepsRange.lo <= stepsRange.hi then stepsRange.hi - stepsRange.lo + 1 else 0;
            |qs| == (if count < n then count else n)
    ensures forall i :: 0 <= i < |qs| ==> qs[i] == ElevQuestion(add, start, stepsRange.lo + i)
  {
    qs := [];
    var stepNum := stepsRange.lo;
    while stepNum <= stepsRange.hi && |qs| < count
      invariant stepsRange.lo <= stepNum && (stepNum <= stepsRange.hi + 1 || stepNum == stepsRange.lo)
      invariant |qs| == stepNum - stepsRange.lo <= count
      invariant ElevOk(qs, add, start, stepsRange.lo)
      decreases stepsRange.hi - stepNum
    {
      ElevSnoc(qs, add, start, stepsRange.lo);
      qs := qs + [ElevQuestion(add, start, stepNum)];
      stepNum := stepNum + 1;
    }
  }

  /** The ride goes on: the answer of one step is the first operand of the next. */
  lemma ElevatorChains(add: int, start: int, stepNum: int)
    ensures ElevQuestion(add, start, stepNum).answer == IntToString(start + stepNum * add)
    ensures ElevQuestion(add, start, stepNum + 1).text == Infix(start + stepNum * add, "+", add)
  {
    assert start + (stepNum - 1) * add + add == start + stepNum * add;
  }

  // ---------------------------------------------------------------- addition / multiplication link

  function Repeat(x: string, m: nat): (r: seq<string>)
    ensures |r| == m && forall j :: 0 <= j < m ==> r[j] == x
  {
    seq(m, j => x)
  }

  /** `n+n+...+n = n×□`, the answer being the number of addends. */
  function LinkAddToMul(n: int, multiplier: int, i: nat): Question
    requires multiplier >= 0
  {
    Question("mul_link_atm_" + IntToString(n) + "_" + IntToString(multiplier) + "_" + IntToString(i),
             Join(Repeat(IntToString(n), multiplier), "+") + " = " + IntToString(n) + "×□",
             IntToString(multiplier), InputQ, MulLinkInfo(n, multiplier, true), false)
  }

  /** `n×m = n+...+n+□` with one addend short, the answer being `n`. */
  function LinkMulToAdd(n: int, multiplier: int, i: nat): Question
    requires multiplier >= 1
  {
    Question("mul_link_mta_" + IntToString(n) + "_" + IntToString(multiplier) + "_" + IntToString(i),
             IntToString(n) + "×" + IntToString(multiplier) + " = " + Join(Repeat(IntToString(n), multiplier - 1), "+") + "+□",
             IntToString(n), InputQ, MulLinkInfo(n, multiplier, false), false)
  }

  /** The smallest value `randomInt(r.lo, r.hi)` can return. */
  function Least(r: Range): int {
    if r.lo <= r.hi then r.lo else r.hi + 1
  }

  predicate LinkOk(q: Question, multiplier: int, i: nat, n: int, range: Range, direction: LinkDirection) {
    Within(multiplier, range)
    && (direction == AddToMul ==> multiplier >= 0 && q == LinkAddToMul(n, multiplier, i))
    && (direction == MulToAdd ==> multiplier >= 1 && q == LinkMulToAdd(n, multiplier, i))
    && (direction == Both ==> (multiplier >= 0 && q == LinkAddToMul(n, multiplier, i))
                              || (multiplier >= 1 && q == LinkMulToAdd(n, multiplier, i)))
  }

  /**
   * The copies `Array(m)` needs: `multiplier` for the addition form and
   * `multiplier - 1` for the multiplication form; a negative length throws
   * a `RangeError`.
   */
  predicate LinkThrows(multiplier: int, addToMul: bool) {
    if addToMul then multiplier < 0 else multiplier < 1
  }

  /**
   * `count` link questions in the requested direction (either at random for
   * `both`), unless a drawn multiplier is too small for the form chosen:
   * then the source throws, and that multiplier is the last one drawn. A
   * range whose every value is large enough never throws.
   */
  method GenerateMulLink(n: int, range: Range, direction: LinkDirection, count: nat, rng: Stream, k0: nat)
    returns (qs: seq<Question>, k: nat, threw: bool, ghost ms: seq<int>)
    ensures k0 <= k
    ensures !threw ==> |qs| == count && |ms| == count
    ensures threw ==> |qs| < count && |ms| == |qs| + 1 && Within(ms[|qs|], range) && ms[|qs|] < 1
                      && (direction == AddToMul ==> ms[|qs|] < 0)
    ensures Least(range) >= (if direction == AddToMul then 0 else 1) ==> !threw
    ensures forall i :: 0 <= i < |qs| ==> LinkOk(qs[i], ms[i], i, n, range, direction)
  {
    qs, k, ms, threw := [], k0, [], false;
    var i := 0;
    while i < count
      invariant i <= count && |qs| == i && |ms| == i && k0 <= k
      invariant forall j :: 0 <= j < i ==> LinkOk(qs[j], ms[j], j, n, range, direction)
    {
      var multiplier := RandomInt(rng(k), range.lo, range.hi);
      k := k + 1;
      var isAddToMul: bool;
      if direction == AddToMul {
        isAddToMul := true;
      } else if direction == MulToAdd {
        isAddToMul := false;
      } else {
        isAddToMul := Unit(rng(k)) > 0.5;
        k := k + 1;
      }
      if LinkThrows(multiplier, isAddToMul) {
        return qs, k, true, ms + [multiplier];
      }
      var q := if isAddToMul then LinkAddToMul(n, multiplier, i) else LinkMulToAdd(n, multiplier, i);
      qs := qs + [q];
      ms := ms + [multiplier];
      i := i + 1;
    }
  }

  /**
   * Both link forms are answered by the number the blank stands for: the
   * count of addends, or the addend missing from `multiplier` copies of `n`.
   */
  lemma LinkAnswers(n: int, multiplier: int, i: nat)
    requires multiplier >= 1
    ensures ParseInt(LinkAddToMul(n, multiplier, i).answer) == Some(multiplier)
    ensures ParseInt(LinkMulToAdd(n, multiplier, i).answer) == Some(n)
  {
    ParseIntOfIntToString(multiplier);
    ParseIntOfIntToString(n);
  }

  // ---------------------------------------------------------------- times table

  function TableQuestion(n: int, m: int, suffix: string): Question {
    Question("mul_table_" + IntToString(n) + "_" + IntToString(m) + "_" + suffix,
             IntToString(n) + "×" + IntToString(m), IntToString(n * m), InputQ, MulFact(n, m), false)
  }

  /** The ordered times table: `min..max` three times over, (round, m) pairs in order. */
  function TableOrder(range: Range): seq<(int, int)> {
    Grid(0, 2, range.lo, range.hi)
  }

  predicate TableOrderOk(qs: seq<Question>, ops: seq<(int, int)>, n: int) {
    |qs| == |ops|
    && forall j :: 0 <= j < |qs| ==> qs[j] == TableQuestion(n, ops[j].1, "r" + IntToString(ops[j].0))
  }


  /** `qs` asks the first |ops| facts of the ordered table. */
  predicate TablePrefix(qs: seq<Question>, ops: seq<(int, int)>, n: int, range: Range) {
    TableOrderOk(qs, ops, n) && |ops| <= |TableOrder(range)| && ops == TableOrder(range)[..|ops|]
  }

  /** Asking the next fact of the ordered table keeps the questions a prefix of it. */
  lemma TablePrefixStep(qs: seq<Question>, ops: seq<(int, int)>, n: int, range: Range, repeat: int, m: int)
    requires TablePrefix(qs, ops, n, range) && 0 <= repeat < 3 && range.lo <= m <= range.hi
    requires |ops| == |Grid(0, repeat - 1, range.lo, range.hi)| + (m - range.lo)
    ensures TablePrefix(qs + [TableQuestion(n, m, "r" + IntToString(repeat))], ops + [(repeat, m)], n, range)
  {
    GridAt(0, 2, range.lo, range.hi, repeat, m - range.lo);
    var all := TableOrder(range);
    assert all[..|ops| + 1] == all[..|ops|] + [all[|ops|]];
  }

  /** One pass `m = min..max` of the ordered table, stopping at `count`. */
  method TableRound(n: int, range: Range, count: nat, repeat: int, qs0: seq<Question>, ghost ops0: seq<(int, int)>)
    returns (qs: seq<Question>, ghost ops: seq<(int, int)>)
    requires 0 <= repeat < 3 && |qs0| < count && TablePrefix(qs0, ops0, n, range)
    requires |ops0| == |Grid(0, repeat - 1, range.lo, range.hi)|
    ensures |qs| <= count && TablePrefix(qs, ops, n, range)
    ensures |qs| < count ==> |ops| == |Grid(0, repeat, range.lo, range.hi)|
  {
    qs, ops := qs0, ops0;
    var m := range.lo;
    while m <= range.hi && |qs| < count
      invariant range.lo <= m && (m <= range.hi + 1 || m == range.lo)
      invariant |qs| <= count && TablePrefix(qs, ops, n, range)
      invariant |qs| < count ==> |ops| == |Grid(0, repeat - 1, range.lo, range.hi)| + (m - range.lo)
      decreases range.hi - m
    {
      TablePrefixStep(qs, ops, n, range, repeat, m);
      qs := qs + [TableQuestion(n, m, "r" + IntToString(repeat))];
      ops := ops + [(repeat, m)];
      m := m + 1;
    }
    if range.lo <= range.hi {
      GridAt(0, 2, range.lo, range.hi, repeat, 0);
    }
  }

  /**
   * The ordered branch (sequential stages and `order: asc`): the table
   * `min..max` three times over, cut to `count`.
   */
  method GenerateMulTableInOrder(n: int, range: Range, count: nat)
    returns (qs: seq<Question>, ghost ops: seq<(int, int)>)
    ensures var all := TableOrder(range);
            |qs| == (if count < |all| then count else |all|) && ops == all[..|qs|]
    ensures TableOrderOk(qs, ops, n)
  {
    GridLength(0, 2, range.lo, range.hi);
    qs, ops := [], [];
    var repeat := 0;
    while repeat < 3 && |qs| < count
      invariant 0 <= repeat <= 3 && |qs| <= count && TablePrefix(qs, ops, n, range)
      invariant |qs| < count ==> |ops| == |Grid(0, repeat - 1, range.lo, range.hi)|
    {
      qs, ops := TableRound(n, range, count, repeat, qs, ops);
      repeat := repeat + 1;
    }
  }

  /** In the ordered table, round r asks `n × (min + x)` at position `r * width + x`. */
  lemma TableOrderAt(range: Range, r: int, x: int)
    requires 0 <= r < 3 && 0 <= x <= range.hi - range.lo
    ensures var w := range.hi - range.lo + 1;
            |TableOrder(range)| == 3 * w && TableOrder(range)[r * w + x] == (r, range.lo + x)
  {
    GridLength(0, 2, range.lo, range.hi);
    GridLength(0, r - 1, range.lo, range.hi);
    GridAt(0, 2, range.lo, range.hi, r, x);
  }

  predicate TableRandomOk(q: Question, m: int, i: nat, n: int, range: Range) {
    Within(m, range) && q == TableQuestion(n, m, IntToString(i))
  }

  /** The random branch: exactly `count` facts of the `n` table. */
  method GenerateMulTableRandom(n: int, range: Range, count: nat, rng: Stream, k0: nat)
    returns (qs: seq<Question>, k: nat, ghost ms: seq<int>)
    ensures |qs| == count && |ms| == count && k == k0 + count
    ensures forall i :: 0 <= i < count ==> TableRandomOk(qs[i], ms[i], i, n, range)
  {
    qs, k, ms := [], k0, [];
    var i := 0;
    while i < count
      invariant i <= count && |qs| == i && |ms| == i && k == k0 + i
      invariant forall j :: 0 <= j < i ==> TableRandomOk(qs[j], ms[j], j, n, range)
    {
      var m := RandomInt(rng(k), range.lo, range.hi);
      qs := qs + [TableQuestion(n, m, IntToString(i))];
      ms := ms + [m];
      i, k := i + 1, k + 1;
    }
  }

  // ---------------------------------------------------------------- review and mix

  function ReviewQuestion(n: int, m: int, pos: nat): Question {
    Question("mul_review_" + IntToString(n) + "_" + IntToString(m) + "_" + IntToString(pos),
             IntToString(n) + "×" + IntToString(m), IntToString(n * m), InputQ, MulFact(n, m), false)
  }

  predicate ReviewFact(q: Question, fact: (int, int), pos: nat, range: Range) {
    Within(fact.1, range) && q == ReviewQuestion(fact.0, fact.1, pos)
  }

  predicate ReviewOk(qs: seq<Question>, facts: seq<(int, int)>, range: Range) {
    |qs| == |facts| && forall j :: 0 <= j < |qs| ==> ReviewFact(qs[j], facts[j], j, range)
  }

  /** Facts `0..|qs|-1` follow the (table, repetition) enumeration of the guaranteed part. */
  predicate ReviewPrefix(qs: seq<Question>, facts: seq<(int, int)>, range: Range, g: seq<(int, int)>) {
    |qs| == |facts| <= |g|
    && forall j :: 0 <= j < |qs| ==> ReviewFact(qs[j], facts[j], j, range) && facts[j].0 == g[j].0
  }

  lemma ReviewPrefixSnoc(qs: seq<Question>, facts: seq<(int, int)>, range: Range, g: seq<(int, int)>, n: int, m: int)
    requires ReviewPrefix(qs, facts, range, g) && |qs| < |g| && g[|qs|].0 == n && Within(m, range)
    ensures ReviewPrefix(qs + [ReviewQuestion(n, m, |qs|)], facts + [(n, m)], range, g)
  {
    var qs', facts' := qs + [ReviewQuestion(n, m, |qs|)], facts + [(n, m)];
    forall j | 0 <= j < |qs'| ensures ReviewFact(qs'[j], facts'[j], j, range) && facts'[j].0 == g[j].0 {
      if j < |qs| {
        assert qs'[j] == qs[j] && facts'[j] == facts[j];
      }
    }
  }

  lemma ReviewOkSnoc(qs: seq<Question>, facts: seq<(int, int)>, range: Range, n: int, m: int)
    requires ReviewOk(qs, facts, range) && Within(m, range)
    ensures ReviewOk(qs + [ReviewQuestion(n, m, |qs|)], facts + [(n, m)], range)
  {
    var qs', facts' := qs + [ReviewQuestion(n, m, |qs|)], facts + [(n, m)];
    forall j | 0 <= j < |qs'| ensures ReviewFact(qs'[j], facts'[j], j, range) {
      if j < |qs| {
        assert qs'[j] == qs[j] && facts'[j] == facts[j];
      }
    }
  }

  /** `minPerN` facts of table `n`, stopping at `count`; they fill the block of `g` where table `n` sits. */
  method ReviewTable(n: int, range: Range, minPerN: int, count: nat, rng: Stream, k0: nat,
                     qs0: seq<Question>, ghost facts0: seq<(int, int)>, ghost g: seq<(int, int)>)
    returns (qs: seq<Question>, k: nat, ghost facts: seq<(int, int)>)
    requires minPerN > 0 && |qs0| < count && ReviewPrefix(qs0, facts0, range, g)
    requires |qs0| + minPerN <= |g| && forall p :: |qs0| <= p < |qs0| + minPerN ==> g[p].0 == n
    ensures ReviewPrefix(qs, facts, range, g) && k0 <= k && |qs| <= count
    ensures |qs| < count ==> |qs| == |qs0| + minPerN
  {
    qs, k, facts := qs0, k0, facts0;
    var j := 0;
    while j < minPerN && |qs| < count
      invariant 0 <= j <= minPerN
      invariant ReviewPrefix(qs, facts, range, g) && k0 <= k && |qs| <= count
      invariant |qs| < count ==> |qs| == |qs0| + j
    {
      var m := RandomInt(rng(k), range.lo, range.hi);
      ReviewPrefixSnoc(qs, facts, range, g, n, m);
      qs := qs + [ReviewQuestion(n, m, |qs|)];
      facts := facts + [(n, m)];
      k := k + 1;
      j := j + 1;
    }
  }

  /** Table `n` takes the `minPerN` places after the tables before it. */
  lemma ReviewBlock(fromN: int, toN: int, minPerN: int, n: int)
    requires minPerN > 0 && fromN <= n <= toN
    ensures var g, before := Grid(fromN, toN, 0, minPerN - 1), |Grid(fromN, n - 1, 0, minPerN - 1)|;
            before + minPerN <= |g| && (forall p :: before <= p < before + minPerN ==> g[p].0 == n)
            && |Grid(fromN, n, 0, minPerN - 1)| == before + minPerN
  {
    var g, before := Grid(fromN, toN, 0, minPerN - 1), |Grid(fromN, n - 1, 0, minPerN - 1)|;
    GridAt(fromN, toN, 0, minPerN - 1, n, minPerN - 1);
    forall p | before <= p < before + minPerN ensures g[p].0 == n {
      GridAt(fromN, toN, 0, minPerN - 1, n, p - before);
    }
  }

  /**
   * The guaranteed part: `minPerN` facts of each table `fromN..toN` in
   * turn, stopping at `count`; fact j belongs to table `G[j].0` of the
   * (table, repetition) enumeration G.
   */
  method ReviewGuaranteed(fromN: int, toN: int, range: Range, minPerN: int, count: nat, rng: Stream, k0: nat)
    returns (qs: seq<Question>, k: nat, ghost facts: seq<(int, int)>)
    requires minPerN > 0
    ensures var g := Grid(fromN, toN, 0, minPerN - 1);
            |qs| == (if count < |g| then count else |g|) && ReviewPrefix(qs, facts, range, g)
    ensures k0 <= k
  {
    ghost var g := Grid(fromN, toN, 0, minPerN - 1);
    qs, k, facts := [], k0, [];
    var n := fromN;
    while n <= toN
      invariant fromN <= n && (n <= toN + 1 || n == fromN)
      invariant ReviewPrefix(qs, facts, range, g) && k0 <= k && |qs| <= count
      invariant |qs| < count ==> |qs| == |Grid(fromN, n - 1, 0, minPerN - 1)|
      decreases toN - n
    {
      if |qs| < count {
        ReviewBlock(fromN, toN, minPerN, n);
        qs, k, facts := ReviewTable(n, range, minPerN, count, rng, k, qs, facts, g);
      }
      n := n + 1;
    }
    assert |qs| < count ==> |qs| == |g|;
  }

  /** The filling part: random facts from tables `fromN..toN` until there are `count`. */
  method ReviewFill(qs0: seq<Question>, ghost facts0: seq<(int, int)>, fromN: int, toN: int, range: Range,
                    count: nat, rng: Stream, k0: nat)
    returns (qs: seq<Question>, k: nat, ghost facts: seq<(int, int)>)
    requires ReviewOk(qs0, facts0, range)
    ensures |qs| == (if count < |qs0| then |qs0| else count)
    ensures qs0 <= qs && facts0 <= facts && ReviewOk(qs, facts, range) && k0 <= k
    ensures forall j :: |qs0| <= j < |qs| ==> Within(facts[j].0, Range(fromN, toN))
  {
    qs, k, facts := qs0, k0, facts0;
    while |qs| < count
      invariant |qs0| <= |qs| && (|qs| <= count || qs == qs0)
      invariant qs0 <= qs && facts0 <= facts && ReviewOk(qs, facts, range) && k0 <= k
      invariant forall j :: |qs0| <= j < |qs| ==> Within(facts[j].0, Range(fromN, toN))
      decreases count - |qs|
    {
      var n := RandomInt(rng(k), fromN, toN);
      var m := RandomInt(rng(k + 1), range.lo, range.hi);
      ReviewOkSnoc(qs, facts, range, n, m);
      qs := qs + [ReviewQuestion(n, m, |qs|)];
      facts := facts + [(n, m)];
      k := k + 2;
    }
  }

  /**
   * Always exactly `count` questions: the guaranteed facts of each table
   * (as far as `count` allows) and random ones after them, then shuffled.
   */
  method GenerateMulReview(fromN: int, toN: int, range: Range, minPerN: Option<int>, count: nat, rng: Stream, k0: nat)
    returns (qs: seq<Question>, k: nat, built: seq<Question>, ghost facts: seq<(int, int)>)
    ensures |qs| == count && multiset(qs) == multiset(built) && ReviewOk(built, facts, range) && k0 <= k
    ensures OrDefault(minPerN, 0) > 0 ==>
              var g := Grid(fromN, toN, 0, OrDefault(minPerN, 0) - 1);
              forall j :: 0 <= j < |built| && j < |g| ==> facts[j].0 == g[j].0
    ensures forall j :: 0 <= j < |built| ==>
              (OrDefault(minPerN, 0) > 0 && j < |Grid(fromN, toN, 0, OrDefault(minPerN, 0) - 1)|)
              || Within(facts[j].0, Range(fromN, toN))
  {
    var per := OrDefault(minPerN, 0);
    var first: seq<Question> := [];
    ghost var firstFacts: seq<(int, int)> := [];
    k := k0;
    if per > 0 {
      first, k, firstFacts := ReviewGuaranteed(fromN, toN, range, per, count, rng, k);
    }
    built, k, facts := ReviewFill(first, firstFacts, fromN, toN, range, count, rng, k);
    qs := Shuffle(built, rng, k);
    k := k + |built|;
  }

  predicate MixOk(q: Question, fact: (int, int), i: nat, fromN: int, toN: int, range: Range) {
    Within(fact.0, Range(fromN, toN)) && Within(fact.1, range)
    && q == Question("mul_mix_" + IntToString(fact.0) + "_" + IntToString(fact.1) + "_" + IntToString(i),
                     IntToString(fact.0) + "×" + IntToString(fact.1), IntToString(fact.0 * fact.1), InputQ,
                     MulFact(fact.0, fact.1), false)
  }

  /** Exactly `count` random facts from tables `fromN..toN`. */
  method GenerateMulMix(fromN: int, toN: int, range: Range, count: nat, rng: Stream, k0: nat)
    returns (qs: seq<Question>, k: nat, ghost facts: seq<(int, int)>)
    ensures |qs| == count && |facts| == count && k == k0 + 2 * count
    ensures forall i :: 0 <= i < count ==> MixOk(qs[i], facts[i], i, fromN, toN, range)
  {
    qs, k, facts := [], k0, [];
    var i := 0;
    while i < count
      invariant i <= count && |qs| == i && |facts| == i && k == k0 + 2 * i
      invariant forall j :: 0 <= j < i ==> MixOk(qs[j], facts[j], j, fromN, toN, range)
    {
      var n := RandomInt(rng(k), fromN, toN);
      var m := RandomInt(rng(k + 1), range.lo, range.hi);
      qs := qs + [Question("mul_mix_" + IntToString(n) + "_" + IntToString(m) + "_" + IntToString(i),
                           IntToString(n) + "×" + IntToString(m), IntToString(n * m), InputQ, MulFact(n, m), false)];
      facts := facts + [(n, m)];
      i, k := i + 1, k + 2;
    }
  }

  /** A multiplication question's answer reads back as the product. */
  lemma FactAnswer(n: int, m: int, pos: nat)
    ensures ParseInt(ReviewQuestion(n, m, pos).answer) == Some(n * m)
    ensures ParseInt(TableQuestion(n, m, "r0").answer) == Some(n * m)
  {
    ParseIntOfIntToString(n * m);
  }

  // ---------------------------------------------------------------- skip tap

  function SkipTapQuestion(step: int, from: int, to: int, totalNumbers: Option<int>, timeLimit: Option<int>,
                           i: nat, now: int): Question {
    Question("skip_tap_" + IntToString(step) + "_" + IntToString(i) + "_" + IntToString(now),
             IntToString(step) + "とびの数をタップ", "", TapQ,
             SkipTapInfo(step, from, to, OrDefault(totalNumbers, 12), OrDefault(timeLimit, 15)), false)
  }

  /** Exactly `count` tap rounds; a missing or zero size reads as 12 numbers and 15 seconds. */
  method GenerateSkipTap(step: int, from: int, to: int, totalNumbers: Option<int>, timeLimit: Option<int>,
                         count: nat, now: int)
    returns (qs: seq<Question>)
    ensures |qs| == count
    ensures forall i :: 0 <= i < count ==> qs[i] == SkipTapQuestion(step, from, to, totalNumbers, timeLimit, i, now)
    ensures forall i :: 0 <= i < count ==>
              qs[i].meta.SkipTapInfo?
              && qs[i].meta.totalNumbers == (if Truthy(totalNumbers) then totalNumbers.value else 12)
              && qs[i].meta.timeLimit == (if Truthy(timeLimit) then timeLimit.value else 15)
  {
    qs := [];
    var i := 0;
    while i < count
      invariant i <= count && |qs| == i
      invariant forall j :: 0 <= j < i ==> qs[j] == SkipTapQuestion(step, from, to, totalNumbers, timeLimit, j, now)
    {
      qs := qs + [SkipTapQuestion(step, from, to, totalNumbers, timeLimit, i, now)];
      i := i + 1;
    }
  }
}
