/**
 * The subtraction generators, in the same shape as the addition ones: the
 * pool's fields, the count, the random stream and its next index in; the
 * questions and the next unused index out.
 */
module SubGenerators {
  import opened Wrappers
  import opened JsNumbers
  import opened Oracle
  import opened Curriculum
  import opened SequentialPairs

  // ---------------------------------------------------------------- subtraction pairs

  function SubPairQuestion(m: int, s: int, suffix: string): Question {
    Question("sub_pair_" + IntToString(m) + "_" + IntToString(s) + "_" + suffix,
             Infix(m, "-", s), IntToString(m - s), InputQ, NoMeta, false)
  }

  /** The sequential branch: every accepted pair in ascending order, cut to `count`. */
  method GenerateSubPairsSequential(minuendRange: Range, subtrahendRange: Range, c: Constraints, count: nat)
    returns (qs: seq<Question>)
    ensures var ps := Kept(Grid(minuendRange.lo, minuendRange.hi, subtrahendRange.lo, subtrahendRange.hi),
                           SubFilter(c.resultMin, c.resultMax));
            |qs| == (if count < |ps| then count else |ps|)
            && forall i :: 0 <= i < |qs| ==> qs[i] == SubPairQuestion(ps[i].0, ps[i].1, "seq")
  {
    var ps := AscendingPairs(minuendRange.lo, minuendRange.hi, subtrahendRange.lo, subtrahendRange.hi,
                             SubFilter(c.resultMin, c.resultMax));
    var all := seq(|ps|, i requires 0 <= i < |ps| => SubPairQuestion(ps[i].0, ps[i].1, "seq"));
    qs := if count < |all| then all[..count] else all;
  }

  predicate SubPairOk(q: Question, op: (int, int), i: nat, minuendRange: Range, subtrahendRange: Range, c: Constraints) {
    Within(op.0, minuendRange) && Within(op.1, subtrahendRange)
    && Keeps(SubFilter(c.resultMin, c.resultMax), op.0, op.1)
    && q == SubPairQuestion(op.0, op.1, IntToString(i))
  }

  /** The random branch: at most `count` non-negative, bounded differences from `20 * count` attempts. */
  method GenerateSubPairsRandom(minuendRange: Range, subtrahendRange: Range, c: Constraints, count: nat, rng: Stream, k0: nat)
    returns (qs: seq<Question>, k: nat, ghost ops: seq<(int, int)>)
    ensures |qs| <= count && |ops| == |qs|
    ensures k0 <= k <= k0 + 2 * (20 * count)
    ensures |qs| < count ==> k == k0 + 2 * (20 * count)
    ensures forall i :: 0 <= i < |qs| ==> SubPairOk(qs[i], ops[i], i, minuendRange, subtrahendRange, c)
  {
    qs, k, ops := [], k0, [];
    var attempts := 0;
    while |qs| < count && attempts < count * 20
      invariant attempts <= count * 20 && |qs| <= count && |ops| == |qs|
      invariant k == k0 + 2 * attempts
      invariant forall i :: 0 <= i < |qs| ==> SubPairOk(qs[i], ops[i], i, minuendRange, subtrahendRange, c)
    {
      attempts := attempts + 1;
      var m := RandomInt(rng(k), minuendRange.lo, minuendRange.hi);
      var s := RandomInt(rng(k + 1), subtrahendRange.lo, subtrahendRange.hi);
      k := k + 2;
      if Keeps(SubFilter(c.resultMin, c.resultMax), m, s) {
        qs := qs + [SubPairQuestion(m, s, IntToString(|qs|))];
        ops := ops + [(m, s)];
      }
    }
  }

  // ---------------------------------------------------------------- borrow procedure

  /**
   * `createSubBorrowQuestion`: subtract from ten, then add the ones digit
   * (13 - 9: 10 - 9 = 1, 1 + 3 = 4).
   */
  function BorrowQuestion(m: int, s: int, v: Variant, suffix: string): Question {
    var unit := JsMod(m, 10);
    var step1 := 10 - s;
    Question("sub_proc_" + IntToString(m) + "_" + IntToString(s) + "_" + suffix,
             Infix(m, "-", s), IntToString(m - s), FillQ,
             BorrowProc(m, s, 10, unit, step1, step1 + unit, v), false)
  }

  /**
   * For a pair the borrow filters accept, the two steps add up to the
   * answer exactly when the minuend is in 10..19: for larger minuends the
   * tens beyond the first ten are lost.
   */
  lemma BorrowStepsReachAnswer(m: int, s: int, v: Variant, suffix: string)
    requires Keeps(BorrowFilter, m, s)
    ensures var q := BorrowQuestion(m, s, v, suffix);
            q.meta.step1 == 10 - s && q.meta.step2 == q.meta.step1 + q.meta.borrowGuest
            && 0 <= q.meta.borrowGuest < s
            && (q.meta.step2 == m - s <==> m <= 19)
            && ParseInt(q.answer) == Some(m - s)
  {
    ParseIntOfIntToString(m - s);
  }

  /** 23 - 5: the steps give 5 + 3 = 8, not 18. */
  lemma BorrowStepsMissTheTens()
    ensures Keeps(BorrowFilter, 23, 5)
    ensures BorrowQuestion(23, 5, Full, "seq").meta.step2 == 8
    ensures BorrowQuestion(23, 5, Full, "seq").answer == "18"
  {
  }

  /** The sequential branch: every borrowing pair in ascending order, cut to `count`. */
  method GenerateSubBorrowSequential(minuendRange: Range, subtrahendRange: Range, v: Variant, count: nat)
    returns (qs: seq<Question>)
    ensures var ps := Kept(Grid(minuendRange.lo, minuendRange.hi, subtrahendRange.lo, subtrahendRange.hi), BorrowFilter);
            |qs| == (if count < |ps| then count else |ps|)
            && forall i :: 0 <= i < |qs| ==> qs[i] == BorrowQuestion(ps[i].0, ps[i].1, v, "seq")
  {
    var ps := AscendingPairs(minuendRange.lo, minuendRange.hi, subtrahendRange.lo, subtrahendRange.hi, BorrowFilter);
    var all := seq(|ps|, i requires 0 <= i < |ps| => BorrowQuestion(ps[i].0, ps[i].1, v, "seq"));
    qs := if count < |all| then all[..count] else all;
  }

  predicate BorrowOk(q: Question, op: (int, int), i: nat, minuendRange: Range, subtrahendRange: Range, v: Variant) {
    Within(op.0, minuendRange) && Within(op.1, subtrahendRange) && Keeps(BorrowFilter, op.0, op.1)
    && q == BorrowQuestion(op.0, op.1, v, IntToString(i))
  }

  /** The random branch: at most `count` borrowing questions from `20 * count` attempts. */
  method GenerateSubBorrowRandom(minuendRange: Range, subtrahendRange: Range, v: Variant, count: nat, rng: Stream, k0: nat)
    returns (qs: seq<Question>, k: nat, ghost ops: seq<(int, int)>)
    ensures |qs| <= count && |ops| == |qs|
    ensures k0 <= k <= k0 + 2 * (20 * count)
    ensures |qs| < count ==> k == k0 + 2 * (20 * count)
    ensures forall i :: 0 <= i < |qs| ==> BorrowOk(qs[i], ops[i], i, minuendRange, subtrahendRange, v)
  {
    qs, k, ops := [], k0, [];
    var attempts := 0;
    while |qs| < count && attempts < count * 20
      invariant attempts <= count * 20 && |qs| <= count && |ops| == |qs|
      invariant k == k0 + 2 * attempts
      invariant forall i :: 0 <= i < |qs| ==> BorrowOk(qs[i], ops[i], i, minuendRange, subtrahendRange, v)
    {
      attempts := attempts + 1;
      var m := RandomInt(rng(k), minuendRange.lo, minuendRange.hi);
      var s := RandomInt(rng(k + 1), subtrahendRange.lo, subtrahendRange.hi);
      k := k + 2;
      if Keeps(BorrowFilter, m, s) {
        qs := qs + [BorrowQuestion(m, s, v, IntToString(|qs|))];
        ops := ops + [(m, s)];
      }
    }
  }

  // ---------------------------------------------------------------- subtraction stair

  /** `start, start + 1, ...`, `len` numbers. */
  function Consecutive(start: int, len: int): (row: seq<int>)
    ensures |row| == (if len > 0 then len else 0)
    ensures forall j :: 0 <= j < |row| ==> row[j] == start + j
    decreases len
  {
    if len <= 0 then [] else Consecutive(start, len - 1) + [start + len - 1]
  }

  /** Each number of the row minus the subtrahend. */
  function Differences(row: seq<int>, base: int): (d: seq<int>)
    ensures |d| == |row| && forall j :: 0 <= j < |row| ==> d[j] == row[j] - base
  {
    seq(|row|, j requires 0 <= j < |row| => row[j] - base)
  }

  function StairQuestion(base: int, start: int, topRowLength: int, i: nat): Question {
    var row := Consecutive(start, topRowLength);
    Question("sub_stair_" + IntToString(base) + "_" + IntToString(i), "stair:" + IntToString(base),
             Join(Strings(Differences(row, base)), ","), InputQ, StairRow(row, base), false)
  }

  /**
   * The stair over an `undefined` base: its start is NaN, so the row is
   * `topRowLength` NaNs and so is every difference.
   */
  function NaNStairQuestion(topRowLength: int, i: nat): Question {
    var width := if topRowLength > 0 then topRowLength else 0;
    Question("sub_stair_undefined_" + IntToString(i), "stair:undefined",
             Join(seq(width, j => "NaN"), ","), InputQ, NaNStairRow(width), false)
  }

  /**
   * A listed subtrahend with a row starting 1..5 above it, or, exactly when
   * the list is empty, the NaN stair.
   */
  predicate SubStairOk(q: Question, op: Option<(int, int)>, i: nat, baseNumbers: seq<int>, topRowLength: int) {
    (op.Some? <==> |baseNumbers| > 0)
    && (op.Some? ==> op.value.0 in baseNumbers && op.value.0 + 1 <= op.value.1 <= op.value.0 + 5
                     && q == StairQuestion(op.value.0, op.value.1, topRowLength, i))
    && (op.None? ==> q == NaNStairQuestion(topRowLength, i))
  }

  /**
   * Exactly `count` stair questions, each on a listed subtrahend with a row
   * starting 1..5 above it; an empty list of subtrahends gives NaN stairs.
   */
  method GenerateSubStair(baseNumbers: seq<int>, topRowLength: int, count: nat, rng: Stream, k0: nat)
    returns (qs: seq<Question>, k: nat, ghost ops: seq<Option<(int, int)>>)
    ensures |qs| == count && |ops| == count && k == k0 + 2 * count
    ensures forall i :: 0 <= i < count ==> SubStairOk(qs[i], ops[i], i, baseNumbers, topRowLength)
  {
    qs, k, ops := [], k0, [];
    var i := 0;
    while i < count
      invariant i <= count && |qs| == i && |ops| == i && k == k0 + 2 * i
      invariant forall j :: 0 <= j < i ==> SubStairOk(qs[j], ops[j], j, baseNumbers, topRowLength)
    {
      var idx := RandomInt(rng(k), 0, |baseNumbers| - 1);
      if idx < |baseNumbers| {
        var base := baseNumbers[idx];
        var start := RandomInt(rng(k + 1), base + 1, base + 5);
        qs := qs + [StairQuestion(base, start, topRowLength, i)];
        ops := ops + [Some((base, start))];
      } else {
        // `randomInt(NaN, NaN)` still consumes its draw
        qs := qs + [NaNStairQuestion(topRowLength, i)];
        ops := ops + [None];
      }
      i, k := i + 1, k + 2;
    }
  }

  /**
   * The stair's row climbs by one from its start, and the differences it
   * asks for climb with it, starting between 1 and 5.
   */
  lemma StairDifferences(q: Question, op: (int, int), i: nat, baseNumbers: seq<int>, topRowLength: int, j: int)
    requires SubStairOk(q, Some(op), i, baseNumbers, topRowLength) && 0 <= j < topRowLength
    ensures q.meta.StairRow? && |q.meta.row| == topRowLength
    ensures j + 1 <= q.meta.row[j] - q.meta.stairBase <= j + 5
  {
  }

  // ---------------------------------------------------------------- 2-digit - 1-digit

  /** The filters of `generateSub2D1D`. */
  predicate Sub2D1DKeeps(m: int, s: int, c: Constraints) {
    m - s >= 0
    && !(c.noBorrow && JsMod(m, 10) < s)
    && !(c.borrow && JsMod(m, 10) >= s)
  }

  function Sub2D1DQuestion(m: int, s: int, n: nat): Question {
    Question("sub_2d1d_" + IntToString(m) + "_" + IntToString(s) + "_" + IntToString(n),
             Infix(m, "-", s), IntToString(m - s), InputQ, NoMeta, false)
  }

  predicate Sub2D1DOk(q: Question, op: (int, int), i: nat, twoDigitRange: Range, oneDigitRange: Range, c: Constraints) {
    Within(op.0, twoDigitRange) && Within(op.1, oneDigitRange) && Sub2D1DKeeps(op.0, op.1, c)
    && q == Sub2D1DQuestion(op.0, op.1, i)
  }

  /** At most `count` questions from `20 * count` attempts, each borrowing or not as demanded. */
  method GenerateSub2D1D(twoDigitRange: Range, oneDigitRange: Range, c: Constraints, count: nat, rng: Stream, k0: nat)
    returns (qs: seq<Question>, k: nat, ghost ops: seq<(int, int)>)
    ensures |qs| <= count && |ops| == |qs|
    ensures k0 <= k <= k0 + 2 * (20 * count)
    ensures |qs| < count ==> k == k0 + 2 * (20 * count)
    ensures forall i :: 0 <= i < |qs| ==> Sub2D1DOk(qs[i], ops[i], i, twoDigitRange, oneDigitRange, c)
  {
    qs, k, ops := [], k0, [];
    var attempts := 0;
    while |qs| < count && attempts < count * 20
      invariant attempts <= count * 20 && |qs| <= count && |ops| == |qs|
      invariant k == k0 + 2 * attempts
      invariant forall i :: 0 <= i < |qs| ==> Sub2D1DOk(qs[i], ops[i], i, twoDigitRange, oneDigitRange, c)
    {
      attempts := attempts + 1;
      var m := RandomInt(rng(k), twoDigitRange.lo, twoDigitRange.hi);
      var s := RandomInt(rng(k + 1), oneDigitRange.lo, oneDigitRange.hi);
      k := k + 2;
      if Sub2D1DKeeps(m, s, c) {
        qs := qs + [Sub2D1DQuestion(m, s, |qs|)];
        ops := ops + [(m, s)];
      }
    }
  }

  // ---------------------------------------------------------------- base - a + b

  function SubAddQuestion(base: int, a: int, b: int, n: nat): Question {
    Question("sub_add_" + IntToString(base) + "_" + IntToString(a) + "_" + IntToString(b) + "_" + IntToString(n),
             IntToString(base) + " - " + IntToString(a) + " + " + IntToString(b),
             IntToString(base - a + b), InputQ, NoMeta, false)
  }

  predicate SubAddOk(q: Question, op: (int, int), i: nat, base: Option<int>, subtrahendRange: Range, addendRange: Range) {
    var b0 := OrDefault(base, 10);
    Within(op.0, subtrahendRange) && Within(op.1, addendRange) && b0 - op.0 + op.1 >= 0
    && q == SubAddQuestion(b0, op.0, op.1, i)
  }

  predicate AllSubAddOk(qs: seq<Question>, ops: seq<(int, int)>, base: Option<int>, subtrahendRange: Range,
                        addendRange: Range) {
    |qs| == |ops| && forall i :: 0 <= i < |qs| ==> SubAddOk(qs[i], ops[i], i, base, subtrahendRange, addendRange)
  }

  lemma SubAddSnoc(qs: seq<Question>, ops: seq<(int, int)>, base: Option<int>, subtrahendRange: Range,
                   addendRange: Range, a: int, b: int)
    requires AllSubAddOk(qs, ops, base, subtrahendRange, addendRange)
    requires Within(a, subtrahendRange) && Within(b, addendRange) && OrDefault(base, 10) - a + b >= 0
    ensures AllSubAddOk(qs + [SubAddQuestion(OrDefault(base, 10), a, b, |qs|)], ops + [(a, b)], base,
                        subtrahendRange, addendRange)
  {
    var qs', ops' := qs + [SubAddQuestion(OrDefault(base, 10), a, b, |qs|)], ops + [(a, b)];
    forall i | 0 <= i < |qs'| ensures SubAddOk(qs'[i], ops'[i], i, base, subtrahendRange, addendRange) {
      if i < |qs| {
        assert qs'[i] == qs[i] && ops'[i] == ops[i];
      }
    }
  }

  /** At most `count` questions `base - a + b` with a non-negative value; a base of 0 or none reads as 10. */
  method GenerateSubAddMixed(base: Option<int>, subtrahendRange: Range, addendRange: Range, count: nat, rng: Stream, k0: nat)
    returns (qs: seq<Question>, k: nat, ghost ops: seq<(int, int)>)
    ensures |qs| <= count && |ops| == |qs|
    ensures k0 <= k <= k0 + 2 * (20 * count)
    ensures |qs| < count ==> k == k0 + 2 * (20 * count)
    ensures forall i :: 0 <= i < |qs| ==> SubAddOk(qs[i], ops[i], i, base, subtrahendRange, addendRange)
  {
    qs, k, ops := [], k0, [];
    var attempts := 0;
    while |qs| < count && attempts < count * 20
      invariant attempts <= count * 20 && |qs| <= count && |ops| == |qs|
      invariant k == k0 + 2 * attempts
      invariant AllSubAddOk(qs, ops, base, subtrahendRange, addendRange)
    {
      attempts := attempts + 1;
      var b0 := OrDefault(base, 10);
      var a := RandomInt(rng(k), subtrahendRange.lo, subtrahendRange.hi);
      var b := RandomInt(rng(k + 1), addendRange.lo, addendRange.hi);
      k := k + 2;
      if b0 - a + b >= 0 {
        SubAddSnoc(qs, ops, base, subtrahendRange, addendRange, a, b);
        qs := qs + [SubAddQuestion(b0, a, b, |qs|)];
        ops := ops + [(a, b)];
      }
    }
  }
}
