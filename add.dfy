/**
 * The addition generators. Every generator takes the pool's fields, the
 * question count, the random stream with the index of its next draw, and
 * (where ids carry a timestamp) the clock value; it returns the questions and
 * the index of the next unused draw. Where the questions are built from drawn
 * operands, a ghost list of those operands states what each question is.
 */
module AddGenerators {
  import opened Wrappers
  import opened JsNumbers
  import opened Oracle
  import opened Curriculum
  import opened SequentialPairs

  // ---------------------------------------------------------------- ten complement

  /**
   * The question about `num`; an `undefined` number prints as such and
   * `10 - undefined` is NaN.
   */
  function TenComplementQuestion(num: Option<int>, i: nat, now: int): Question {
    Question("ten_comp_" + ShowOrUndefined(num) + "_" + IntToString(i) + "_" + IntToString(now),
             ShowOrUndefined(num) + " + ? = 10", if num.Some? then IntToString(10 - num.value) else "NaN",
             InputQ, TenItems([num]), false)
  }

  /**
   * `spec.numbers[randomInt(0, length - 1)]`: a listed number; for an empty
   * list the index drawn is 0 and the read gives `undefined`.
   */
  function Pick(numbers: seq<int>, raw: nat): (r: Option<int>)
    ensures r.Some? <==> |numbers| > 0
    ensures r.Some? ==> r.value in numbers
  {
    var idx := RandomInt(raw, 0, |numbers| - 1);
    if idx < |numbers| then Some(numbers[idx]) else None
  }

  /** Question `j` asks about the number the `j`-th draw picks. */
  function TenComplementAt(numbers: seq<int>, rng: Stream, k0: nat, now: int): nat -> Question {
    (j: nat) => TenComplementQuestion(Pick(numbers, rng(k0 + j)), j, now)
  }

  /**
   * Exactly `count` questions, each about a number drawn from `numbers`; an
   * empty list gives questions about `undefined`.
   */
  method GenerateTenComplement(numbers: seq<int>, count: nat, rng: Stream, k0: nat, now: int)
    returns (qs: seq<Question>, k: nat)
    ensures |qs| == count && k == k0 + count
    ensures forall i :: 0 <= i < count ==> qs[i] == TenComplementQuestion(Pick(numbers, rng(k0 + i)), i, now)
  {
    ghost var at := TenComplementAt(numbers, rng, k0, now);
    qs, k := [], k0;
    var i := 0;
    while i < count
      invariant i <= count && |qs| == i && k == k0 + i
      invariant forall j :: 0 <= j < i ==> qs[j] == at(j)
    {
      var num := Pick(numbers, rng(k));
      SnocAt(qs, TenComplementQuestion(num, i, now), at);
      qs := qs + [TenComplementQuestion(num, i, now)];
      i, k := i + 1, k + 1;
    }
  }

  /** The answer is the complement: it reads back as a number that makes 10 with `num`. */
  lemma TenComplementAnswer(num: int, i: nat, now: int)
    ensures var q := TenComplementQuestion(Some(num), i, now);
            ParseInt(q.answer).Some? && num + ParseInt(q.answer).value == 10
  {
    ParseIntOfIntToString(10 - num);
  }

  /**
   * From an empty list every question asks about `undefined` and expects
   * "NaN", which no typed number equals.
   */
  lemma EmptyNumbersAskNaN(rng: Stream, raw: nat, i: nat, now: int, n: int)
    ensures var q := TenComplementQuestion(Pick([], raw), i, now);
            q.text == "undefined + ? = 10" && q.answer == "NaN" && q.answer != IntToString(n)
  {
    EndsInDigit(n);
  }

  // ---------------------------------------------------------------- add pairs

  /** The three `continue`s of `generateAddPairs`; its bounds are compared with undefined. */
  predicate AddPairsKeeps(a: int, b: int, c: Constraints) {
    !(c.sumMax.Some? && a + b > c.sumMax.value)
    && !(c.sumMin.Some? && a + b < c.sumMin.value)
    && !(c.onesNoCarry && JsMod(a, 10) + JsMod(b, 10) >= 10)
  }

  function AddPairQuestion(a: int, b: int, n: nat, now: int): Question {
    Question("add_pair_" + IntToString(a) + "_" + IntToString(b) + "_" + IntToString(n) + "_" + IntToString(now),
             Infix(a, "+", b), IntToString(a + b), InputQ, NoMeta, false)
  }

  /** `q` is the add-pairs question at position `i` built from a pair drawn and accepted. */
  predicate AddPairOk(q: Question, op: (int, int), i: nat, aRange: Range, bRange: Range, c: Constraints, now: int) {
    Within(op.0, aRange) && Within(op.1, bRange) && AddPairsKeeps(op.0, op.1, c)
    && q == AddPairQuestion(op.0, op.1, i, now)
  }

  predicate AllAddPairsOk(qs: seq<Question>, ops: seq<(int, int)>, aRange: Range, bRange: Range, c: Constraints, now: int) {
    |qs| == |ops| && forall i :: 0 <= i < |qs| ==> AddPairOk(qs[i], ops[i], i, aRange, bRange, c, now)
  }

  lemma AddPairSnoc(qs: seq<Question>, ops: seq<(int, int)>, aRange: Range, bRange: Range, c: Constraints, now: int,
                    a: int, b: int)
    requires AllAddPairsOk(qs, ops, aRange, bRange, c, now)
    requires Within(a, aRange) && Within(b, bRange) && AddPairsKeeps(a, b, c)
    ensures AllAddPairsOk(qs + [AddPairQuestion(a, b, |qs|, now)], ops + [(a, b)], aRange, bRange, c, now)
  {
    var qs', ops' := qs + [AddPairQuestion(a, b, |qs|, now)], ops + [(a, b)];
    forall i | 0 <= i < |qs'| ensures AddPairOk(qs'[i], ops'[i], i, aRange, bRange, c, now) {
      if i < |qs| {
        assert qs'[i] == qs[i] && ops'[i] == ops[i];
      }
    }
  }

  /**
   * Rejection sampling with at most `10 * count` attempts of two draws each:
   * at most `count` questions, fewer only when every attempt was used, and
   * every emitted pair drawn from its ranges and accepted by the filters.
   */
  method GenerateAddPairs(aRange: Range, bRange: Range, c: Constraints, count: nat, rng: Stream, k0: nat, now: int)
    returns (qs: seq<Question>, k: nat, ghost ops: seq<(int, int)>)
    ensures |qs| <= count && |ops| == |qs|
    ensures k0 <= k <= k0 + 2 * (10 * count)
    ensures |qs| < count ==> k == k0 + 2 * (10 * count)
    ensures forall i :: 0 <= i < |qs| ==>
              AddPairOk(qs[i], ops[i], i, aRange, bRange, c, now)
  {
    qs, k, ops := [], k0, [];
    var attempts := 0;
    var limit := 10 * count;
    while |qs| < count && attempts < limit
      invariant attempts <= limit && |qs| <= count && |ops| == |qs|
      invariant k == k0 + 2 * attempts
      invariant AllAddPairsOk(qs, ops, aRange, bRange, c, now)
    {
      attempts := attempts + 1;
      var a := RandomInt(rng(k), aRange.lo, aRange.hi);
      var b := RandomInt(rng(k + 1), bRange.lo, bRange.hi);
      k := k + 2;
      if AddPairsKeeps(a, b, c) {
        AddPairSnoc(qs, ops, aRange, bRange, c, now, a, b);
        qs := qs + [AddPairQuestion(a, b, |qs|, now)];
        ops := ops + [(a, b)];
      }
    }
  }

  // ---------------------------------------------------------------- three numbers

  /**
   * What one iteration of `generateAddThreeNumbers` draws before the optional
   * shuffle: a listed make-10 pair and a third number; three numbers from the
   * three ranges, or, when a make-10 pair is demanded, `p, 10 - p, q` with
   * `p, q` in 1..9. `make10_visible` without `pairs` leaves the list empty.
   */
  predicate ThreeDrawn(t: Template, pairs: Option<seq<(int, int)>>, thirdRange: Option<Range>,
                       ranges: Ranges3, c: Constraints, nums: seq<int>) {
    if t == Make10Visible then
      if pairs.Some? then |nums| == 3 && (nums[0], nums[1]) in pairs.value && WithinGiven(nums[2], thirdRange)
      else nums == []
    else if c.mustContainMake10Pair then
      |nums| == 3 && 1 <= nums[0] <= 9 && nums[1] == 10 - nums[0] && 1 <= nums[2] <= 9
    else
      |nums| == 3 && WithinGiven(nums[0], ranges.0) && WithinGiven(nums[1], ranges.1) && WithinGiven(nums[2], ranges.2)
  }

  /** `aRange`, `bRange` and `cRange`, each of which a pool may leave out. */
  type Ranges3 = (Option<Range>, Option<Range>, Option<Range>)

  /** A range that is given, and holds `x`. */
  predicate WithinGiven(x: int, r: Option<Range>) {
    r.Some? && Within(x, r.value)
  }

  function ThreeQuestion(nums: seq<int>, i: nat): Question {
    if |nums| == 3 then
      Question("add_3num_" + Join(Strings(nums), "_") + "_" + IntToString(i),
               IntToString(nums[0]) + " + " + IntToString(nums[1]) + " + " + IntToString(nums[2]),
               IntToString(nums[0] + nums[1] + nums[2]), InputQ, NoMeta, false)
    else
      // an empty list prints three `undefined`s and sums to NaN
      Question("add_3num__" + IntToString(i), "undefined + undefined + undefined", "NaN", InputQ, NoMeta, false)
  }

  /** `q` shows a reordering of what was drawn, the drawn order itself under `fixedOrder`. */
  predicate ThreeOk(q: Question, nums: seq<int>, shown: seq<int>, i: nat, t: Template, pairs: Option<seq<(int, int)>>,
                    thirdRange: Option<Range>, ranges: Ranges3, c: Constraints) {
    ThreeDrawn(t, pairs, thirdRange, ranges, c, nums)
    && multiset(shown) == multiset(nums)
    && (c.fixedOrder ==> shown == nums)
    && q == ThreeQuestion(shown, i)
  }

  /**
   * When an iteration throws a `TypeError`. For `make10_visible` with a list
   * of pairs, that happens without a `thirdRange`, and on an empty list,
   * whose `pair[0]` is read from `undefined`. For the other two templates it
   * happens when any of `aRange`, `bRange` or `cRange` is missing, because
   * all three are read before the make-10 override.
   */
  predicate ThreeThrows(t: Template, pairs: Option<seq<(int, int)>>, thirdRange: Option<Range>, ranges: Ranges3) {
    if t == Make10Visible then pairs.Some? && (pairs.value == [] || thirdRange.None?)
    else ranges.0.None? || ranges.1.None? || ranges.2.None?
  }

  predicate AllThreeOk(qs: seq<Question>, drawn: seq<seq<int>>, shown: seq<seq<int>>, t: Template,
                      pairs: Option<seq<(int, int)>>, thirdRange: Option<Range>, ranges: Ranges3, c: Constraints) {
    |qs| == |drawn| == |shown|
    && forall j :: 0 <= j < |qs| ==> ThreeOk(qs[j], drawn[j], shown[j], j, t, pairs, thirdRange, ranges, c)
  }

  lemma ThreeSnoc(qs: seq<Question>, drawn: seq<seq<int>>, shown: seq<seq<int>>, t: Template,
                  pairs: Option<seq<(int, int)>>, thirdRange: Option<Range>, ranges: Ranges3, c: Constraints,
                  nums: seq<int>, display: seq<int>)
    requires AllThreeOk(qs, drawn, shown, t, pairs, thirdRange, ranges, c)
    requires ThreeDrawn(t, pairs, thirdRange, ranges, c, nums)
    requires multiset(display) == multiset(nums) && (c.fixedOrder ==> display == nums)
    ensures AllThreeOk(qs + [ThreeQuestion(display, |qs|)], drawn + [nums], shown + [display],
                       t, pairs, thirdRange, ranges, c)
  {
    var ok := (q: Question, n: seq<int>, sh: seq<int>, j: nat) => ThreeOk(q, n, sh, j, t, pairs, thirdRange, ranges, c);
    assert ok(ThreeQuestion(display, |qs|), nums, display, |qs|);
    SnocEach3(qs, drawn, shown, ThreeQuestion(display, |qs|), nums, display, ok);
  }

  /**
   * Exactly `count` questions. Each shows a reordering of what was drawn,
   * and the drawn order itself when `fixedOrder` is set. When its pairs or
   * ranges are missing (`ThreeThrows`), the first iteration throws a `TypeError`.
   */
  method GenerateAddThreeNumbers(t: Template, pairs: Option<seq<(int, int)>>, thirdRange: Option<Range>,
                                 ranges: Ranges3, c: Constraints,
                                 count: nat, rng: Stream, k0: nat)
    returns (qs: seq<Question>, k: nat, threw: bool, ghost drawn: seq<seq<int>>, ghost shown: seq<seq<int>>)
    ensures threw <==> count > 0 && ThreeThrows(t, pairs, thirdRange, ranges)
    ensures k0 <= k
    ensures !threw ==> |qs| == count && |drawn| == count && |shown| == count
    ensures !threw ==> forall i :: 0 <= i < count ==>
              ThreeOk(qs[i], drawn[i], shown[i], i, t, pairs, thirdRange, ranges, c)
  {
    qs, k, drawn, shown, threw := [], k0, [], [], false;
    var i := 0;
    while i < count
      invariant i <= count && |qs| == i && k0 <= k
      invariant i > 0 ==> !ThreeThrows(t, pairs, thirdRange, ranges)
      invariant AllThreeOk(qs, drawn, shown, t, pairs, thirdRange, ranges, c)
    {
      var nums, display, k', thrown := DrawThree(t, pairs, thirdRange, ranges, c, rng, k);
      k := k';
      if thrown {
        return qs, k, true, drawn, shown;
      }
      ThreeSnoc(qs, drawn, shown, t, pairs, thirdRange, ranges, c, nums, display);
      qs := qs + [ThreeQuestion(display, i)];
      drawn := drawn + [nums];
      shown := shown + [display];
      i := i + 1;
    }
  }

  /** One iteration's draws: the numbers and the order they are shown in, or the throw. */
  method DrawThree(t: Template, pairs: Option<seq<(int, int)>>, thirdRange: Option<Range>,
                   ranges: Ranges3, c: Constraints, rng: Stream, k0: nat)
    returns (nums: seq<int>, display: seq<int>, k: nat, threw: bool)
    ensures threw <==> ThreeThrows(t, pairs, thirdRange, ranges)
    ensures !threw ==> ThreeDrawn(t, pairs, thirdRange, ranges, c, nums)
    ensures !threw ==> multiset(display) == multiset(nums) && (c.fixedOrder ==> display == nums)
    ensures k0 <= k
  {
    nums, k, threw := DrawNumbers(t, pairs, thirdRange, ranges, c, rng, k0);
    display := nums;
    if threw {
      return;
    }
    if !c.fixedOrder {
      if Unit(rng(k)) > 0.5 {
        display := Shuffle(nums, rng, k + 1);
        k := k + |nums|;
      }
      k := k + 1;
    }
  }

  /** The numbers one iteration draws, before any reordering; or the throw on a missing range or pair. */
  method DrawNumbers(t: Template, pairs: Option<seq<(int, int)>>, thirdRange: Option<Range>,
                     ranges: Ranges3, c: Constraints, rng: Stream, k0: nat)
    returns (nums: seq<int>, k: nat, threw: bool)
    ensures threw <==> ThreeThrows(t, pairs, thirdRange, ranges)
    ensures !threw ==> ThreeDrawn(t, pairs, thirdRange, ranges, c, nums)
    ensures k0 <= k
  {
    k, threw := k0, false;
    nums := [];
    if t == Make10Visible && pairs.Some? {
      var idx := RandomInt(rng(k), 0, |pairs.value| - 1);
      if thirdRange.None? {
        // `thirdRange![0]` is read from `undefined`
        return nums, k + 1, true;
      }
      var third := RandomInt(rng(k + 1), thirdRange.value.lo, thirdRange.value.hi);
      if idx >= |pairs.value| {
        // the index drawn for an empty list is 0, past its end, and `pair[0]` throws
        return nums, k + 2, true;
      }
      var pair := pairs.value[idx];
      assert pair in pairs.value;
      nums := [pair.0, pair.1, third];
      k := k + 2;
    } else if t == Make10Find || t == Mixed {
      // each range is read in turn, and the first missing one throws
      if ranges.0.None? {
        return nums, k, true;
      }
      var a := RandomInt(rng(k), ranges.0.value.lo, ranges.0.value.hi);
      if ranges.1.None? {
        return nums, k + 1, true;
      }
      var b := RandomInt(rng(k + 1), ranges.1.value.lo, ranges.1.value.hi);
      if ranges.2.None? {
        return nums, k + 2, true;
      }
      var d := RandomInt(rng(k + 2), ranges.2.value.lo, ranges.2.value.hi);
      nums := [a, b, d];
      k := k + 3;
      if c.mustContainMake10Pair {
        var p1 := RandomInt(rng(k), 1, 9);
        var p3 := RandomInt(rng(k + 1), 1, 9);
        nums := [p1, 10 - p1, p3];
        k := k + 2;
      }
    }
  }

  function Sum(s: seq<int>): int {
    if s == [] then 0 else s[0] + Sum(s[1..])
  }

  lemma {:induction false} SumConcat(s: seq<int>, t: seq<int>)
    ensures Sum(s + t) == Sum(s) + Sum(t)
  {
    if s == [] {
      assert s + t == t;
    } else {
      assert (s + t)[1..] == s[1..] + t;
      SumConcat(s[1..], t);
    }
  }

  lemma SumOfThree(s: seq<int>)
    requires |s| == 3
    ensures Sum(s) == s[0] + s[1] + s[2]
  {
    assert s[1..][1..] == [s[2]] && s[1..][1..][1..] == [];
    assert Sum(s[1..][1..]) == s[2] + Sum([]);
  }

  /** Taking one element out of a list takes it out of the sum. */
  lemma SumRemove(t: seq<int>, j: nat)
    requires j < |t|
    ensures Sum(t) == t[j] + Sum(t[..j] + t[j + 1..])
  {
    assert t == t[..j] + ([t[j]] + t[j + 1..]);
    SumConcat(t[..j], [t[j]] + t[j + 1..]);
    SumConcat([t[j]], t[j + 1..]);
    assert Sum([t[j]]) == t[j] by { assert [t[j]][1..] == []; }
    SumConcat(t[..j], t[j + 1..]);
  }

  lemma MultisetRemove(s: seq<int>, t: seq<int>, j: nat)
    requires multiset(s) == multiset(t) && s != [] && j < |t| && t[j] == s[0]
    ensures multiset(s[1..]) == multiset(t[..j] + t[j + 1..])
  {
    assert s == [s[0]] + s[1..];
    assert t == t[..j] + [t[j]] + t[j + 1..];
    calc {
      multiset(s[1..]);
    ==
      multiset(s) - multiset{s[0]};
    ==
      multiset(t) - multiset{t[j]};
    ==
      multiset(t[..j] + t[j + 1..]);
    }
  }

  /** Reordering keeps the sum. */
  lemma {:induction false} SumPermutation(s: seq<int>, t: seq<int>)
    requires multiset(s) == multiset(t)
    ensures Sum(s) == Sum(t)
    decreases |s|
  {
    if s != [] {
      assert s[0] in multiset(t);
      var j :| 0 <= j < |t| && t[j] == s[0];
      var rest := t[..j] + t[j + 1..];
      MultisetRemove(s, t, j);
      SumPermutation(s[1..], rest);
      SumRemove(t, j);
    } else {
      assert |t| == |multiset(t)| == 0;
    }
  }

  /**
   * A demanded make-10 pair survives the shuffle: both numbers of the pair
   * are shown, and the shown numbers add up to 10 plus the third.
   */
  lemma ShownMake10Pair(q: Question, nums: seq<int>, shown: seq<int>, i: nat, t: Template,
                        pairs: Option<seq<(int, int)>>, thirdRange: Option<Range>, ranges: Ranges3, c: Constraints)
    requires t != Make10Visible && c.mustContainMake10Pair
    requires ThreeOk(q, nums, shown, i, t, pairs, thirdRange, ranges, c)
    ensures nums[0] in shown && 10 - nums[0] in shown && 1 <= nums[0] <= 9
    ensures |shown| == 3 && ParseInt(q.answer) == Some(10 + nums[2])
  {
    assert ThreeDrawn(t, pairs, thirdRange, ranges, c, nums);
    assert multiset(shown) == multiset(nums) && q == ThreeQuestion(shown, i);
    Make10Shown(nums, shown);
    ThreeAnswer(shown, i);
  }

  /** A reordering of `p, 10 - p, x` shows both numbers of the pair and adds up to `10 + x`. */
  lemma Make10Shown(nums: seq<int>, shown: seq<int>)
    requires |nums| == 3 && nums[1] == 10 - nums[0] && multiset(shown) == multiset(nums)
    ensures nums[0] in shown && 10 - nums[0] in shown
    ensures |shown| == 3 && shown[0] + shown[1] + shown[2] == 10 + nums[2]
  {
    assert nums[0] in multiset(nums) && nums[1] in multiset(nums);
    assert |shown| == |multiset(shown)| == 3;
    SumPermutation(shown, nums);
    SumOfThree(shown);
    SumOfThree(nums);
  }

  lemma ThreeAnswer(shown: seq<int>, i: nat)
    requires |shown| == 3
    ensures ParseInt(ThreeQuestion(shown, i).answer) == Some(shown[0] + shown[1] + shown[2])
  {
    ParseIntOfIntToString(shown[0] + shown[1] + shown[2]);
  }

  // ---------------------------------------------------------------- stair addition

  /** `base + other`; an `undefined` base prints as such and the sum is NaN. */
  function StairQuestion(base: Option<int>, other: int, i: nat): Question {
    Question("stair_" + ShowOrUndefined(base) + "_" + IntToString(other) + "_" + IntToString(i),
             ShowOrUndefined(base) + " + " + IntToString(other),
             if base.Some? then IntToString(base.value + other) else "NaN", InputQ, NoMeta, false)
  }

  /** A listed base (`undefined` exactly when the list is empty) and `other` in 1..topRowLength. */
  predicate StairOk(q: Question, op: (Option<int>, int), i: nat, baseNumbers: seq<int>, topRowLength: int) {
    (op.0.Some? <==> |baseNumbers| > 0) && (op.0.Some? ==> op.0.value in baseNumbers)
    && Within(op.1, Range(1, topRowLength)) && q == StairQuestion(op.0, op.1, i)
  }

  /**
   * Exactly `count` questions `base + other`, with `base` listed and `other`
   * in 1..topRowLength; an empty list of bases gives NaN questions.
   */
  method GenerateStairAddition(baseNumbers: seq<int>, topRowLength: int, count: nat, rng: Stream, k0: nat)
    returns (qs: seq<Question>, k: nat, ghost ops: seq<(Option<int>, int)>)
    ensures |qs| == count && |ops| == count && k == k0 + 2 * count
    ensures forall i :: 0 <= i < count ==>
              StairOk(qs[i], ops[i], i, baseNumbers, topRowLength)
  {
    qs, k, ops := [], k0, [];
    var i := 0;
    while i < count
      invariant i <= count && |qs| == i && |ops| == i && k == k0 + 2 * i
      invariant forall j :: 0 <= j < i ==>
                  StairOk(qs[j], ops[j], j, baseNumbers, topRowLength)
    {
      var base := Pick(baseNumbers, rng(k));
      var other := RandomInt(rng(k + 1), 1, topRowLength);
      qs := qs + [StairQuestion(base, other, i)];
      ops := ops + [(base, other)];
      i, k := i + 1, k + 2;
    }
  }

  // ---------------------------------------------------------------- 2-digit + 1-digit

  /** The filters of `generateAdd2D1D`; `sumMax` is read by truthiness. */
  predicate Add2D1DKeeps(a: int, b: int, c: Constraints) {
    !(c.onesNoCarry && JsMod(a, 10) + b >= 10)
    && !(c.onesCarry && JsMod(a, 10) + b < 10)
    && !(Truthy(c.sumMax) && a + b > c.sumMax.value)
  }

  function Add2D1DQuestion(a: int, b: int, n: nat): Question {
    Question("add_2d1d_" + IntToString(a) + "_" + IntToString(b) + "_" + IntToString(n),
             Infix(a, "+", b), IntToString(a + b), InputQ, NoMeta, false)
  }

  predicate Add2D1DOk(q: Question, op: (int, int), i: nat, twoDigitRange: Range, oneDigitRange: Range, c: Constraints) {
    Within(op.0, twoDigitRange) && Within(op.1, oneDigitRange) && Add2D1DKeeps(op.0, op.1, c)
    && q == Add2D1DQuestion(op.0, op.1, i)
  }

  /** At most `count` questions after at most `20 * count` attempts, all accepted by the filters. */
  method GenerateAdd2D1D(twoDigitRange: Range, oneDigitRange: Range, c: Constraints, count: nat, rng: Stream, k0: nat)
    returns (qs: seq<Question>, k: nat, ghost ops: seq<(int, int)>)
    ensures |qs| <= count && |ops| == |qs|
    ensures k0 <= k <= k0 + 2 * (20 * count)
    ensures |qs| < count ==> k == k0 + 2 * (20 * count)
    ensures forall i :: 0 <= i < |qs| ==>
              Add2D1DOk(qs[i], ops[i], i, twoDigitRange, oneDigitRange, c)
  {
    qs, k, ops := [], k0, [];
    var attempts := 0;
    while |qs| < count && attempts < count * 20
      invariant attempts <= count * 20 && |qs| <= count && |ops| == |qs|
      invariant k == k0 + 2 * attempts
      invariant forall i :: 0 <= i < |qs| ==>
                  Add2D1DOk(qs[i], ops[i], i, twoDigitRange, oneDigitRange, c)
    {
      attempts := attempts + 1;
      var a := RandomInt(rng(k), twoDigitRange.lo, twoDigitRange.hi);
      var b := RandomInt(rng(k + 1), oneDigitRange.lo, oneDigitRange.hi);
      k := k + 2;
      if Add2D1DKeeps(a, b, c) {
        qs := qs + [Add2D1DQuestion(a, b, |qs|)];
        ops := ops + [(a, b)];
      }
    }
  }

  // ---------------------------------------------------------------- 1-digit + 2-digit

  /** The one filter of `generateAdd1D2D`, by truthiness. */
  predicate Add1D2DKeeps(a: int, b: int, c: Constraints) {
    !(Truthy(c.sumMax) && a + b > c.sumMax.value)
  }

  function Add1D2DQuestion(a: int, b: int, n: nat): Question {
    Question("add_1d2d_" + IntToString(a) + "_" + IntToString(b) + "_" + IntToString(n),
             Infix(a, "+", b), IntToString(a + b), InputQ, NoMeta, false)
  }

  predicate Add1D2DOk(q: Question, op: (int, int), i: nat, oneDigitRange: Range, twoDigitRange: Range, c: Constraints) {
    Within(op.0, oneDigitRange) && Within(op.1, twoDigitRange) && Add1D2DKeeps(op.0, op.1, c)
    && q == Add1D2DQuestion(op.0, op.1, i)
  }

  /** At most `count` questions after at most `20 * count` attempts, all within the sum bound. */
  method GenerateAdd1D2D(oneDigitRange: Range, twoDigitRange: Range, c: Constraints, count: nat, rng: Stream, k0: nat)
    returns (qs: seq<Question>, k: nat, ghost ops: seq<(int, int)>)
    ensures |qs| <= count && |ops| == |qs|
    ensures k0 <= k <= k0 + 2 * (20 * count)
    ensures |qs| < count ==> k == k0 + 2 * (20 * count)
    ensures forall i :: 0 <= i < |qs| ==>
              Add1D2DOk(qs[i], ops[i], i, oneDigitRange, twoDigitRange, c)
  {
    qs, k, ops := [], k0, [];
    var attempts := 0;
    while |qs| < count && attempts < count * 20
      invariant attempts <= count * 20 && |qs| <= count && |ops| == |qs|
      invariant k == k0 + 2 * attempts
      invariant forall i :: 0 <= i < |qs| ==>
                  Add1D2DOk(qs[i], ops[i], i, oneDigitRange, twoDigitRange, c)
    {
      attempts := attempts + 1;
      var a := RandomInt(rng(k), oneDigitRange.lo, oneDigitRange.hi);
      var b := RandomInt(rng(k + 1), twoDigitRange.lo, twoDigitRange.hi);
      k := k + 2;
      if Add1D2DKeeps(a, b, c) {
        qs := qs + [Add1D2DQuestion(a, b, |qs|)];
        ops := ops + [(a, b)];
      }
    }
  }

  /**
   * A sum bound of 0 is ignored where it is read by truthiness, but not in
   * `generateAddPairs`, which compares it with undefined.
   */
  lemma ZeroSumBound(a: int, b: int, c: Constraints)
    requires c.sumMax == Some(0)
    ensures Add2D1DKeeps(a, b, c) == Add2D1DKeeps(a, b, c.(sumMax := None))
    ensures Add1D2DKeeps(a, b, c)
    ensures Keeps(CarryFilter(c.sumMax, c.sumMin), a, b) == Keeps(CarryFilter(None, c.sumMin), a, b)
    ensures a + b > 0 ==> !AddPairsKeeps(a, b, c)
  {
  }

  // ---------------------------------------------------------------- carry procedure

  function CarryQuestion(a: int, b: int, suffix: string, v: Variant): Question {
    Question("proc_" + IntToString(a) + "_" + IntToString(b) + "_" + suffix,
             Infix(a, "+", b), IntToString(a + b), FillQ, CarryProc(a, b, 10 - a, b - (10 - a), v), false)
  }

  /**
   * The make-10 decomposition a carry question carries: the complement makes
   * 10 with the first operand, and 10 plus the remainder is the answer.
   */
  lemma CarryDecomposition(a: int, b: int, suffix: string, v: Variant)
    ensures var q := CarryQuestion(a, b, suffix, v);
            q.meta.splitHost + q.meta.complement == 10
            && 10 + q.meta.remainder == q.meta.splitHost + q.meta.splitGuest
            && ParseInt(q.answer) == Some(10 + q.meta.remainder)
  {
    ParseIntOfIntToString(a + b);
  }

  /**
   * The sequential branch: every accepted pair of the two ranges in ascending
   * (a, b) order, cut to the first `count`.
   */
  method GenerateAddCarrySequential(aRange: Range, bRange: Range, c: Constraints, v: Variant, count: nat)
    returns (qs: seq<Question>)
    ensures var ps := Kept(Grid(aRange.lo, aRange.hi, bRange.lo, bRange.hi), CarryFilter(c.sumMax, c.sumMin));
            |qs| == (if count < |ps| then count else |ps|)
            && forall i :: 0 <= i < |qs| ==> qs[i] == CarryQuestion(ps[i].0, ps[i].1, "seq", v)
  {
    var ps := AscendingPairs(aRange.lo, aRange.hi, bRange.lo, bRange.hi, CarryFilter(c.sumMax, c.sumMin));
    var all := seq(|ps|, i requires 0 <= i < |ps| => CarryQuestion(ps[i].0, ps[i].1, "seq", v));
    qs := if count < |all| then all[..count] else all;
  }

  predicate CarryOk(q: Question, op: (int, int), i: nat, aRange: Range, bRange: Range, c: Constraints, v: Variant) {
    Within(op.0, aRange) && Within(op.1, bRange) && Keeps(CarryFilter(c.sumMax, c.sumMin), op.0, op.1)
    && q == CarryQuestion(op.0, op.1, IntToString(i), v)
  }

  predicate AllCarryOk(qs: seq<Question>, ops: seq<(int, int)>, aRange: Range, bRange: Range, c: Constraints, v: Variant) {
    |qs| == |ops| && forall i :: 0 <= i < |qs| ==> CarryOk(qs[i], ops[i], i, aRange, bRange, c, v)
  }

  lemma CarryOkSnoc(qs: seq<Question>, ops: seq<(int, int)>, aRange: Range, bRange: Range, c: Constraints, v: Variant,
                    a: int, b: int)
    requires AllCarryOk(qs, ops, aRange, bRange, c, v)
    requires Within(a, aRange) && Within(b, bRange) && Keeps(CarryFilter(c.sumMax, c.sumMin), a, b)
    ensures AllCarryOk(qs + [CarryQuestion(a, b, IntToString(|qs|), v)], ops + [(a, b)], aRange, bRange, c, v)
  {
    var qs', ops' := qs + [CarryQuestion(a, b, IntToString(|qs|), v)], ops + [(a, b)];
    forall i | 0 <= i < |qs'| ensures CarryOk(qs'[i], ops'[i], i, aRange, bRange, c, v) {
      if i < |qs| {
        assert qs'[i] == qs[i] && ops'[i] == ops[i];
      }
    }
  }

  /** The random branch: at most `count` carrying questions from at most `20 * count` attempts. */
  method GenerateAddCarryRandom(aRange: Range, bRange: Range, c: Constraints, v: Variant, count: nat, rng: Stream, k0: nat)
    returns (qs: seq<Question>, k: nat, ghost ops: seq<(int, int)>)
    ensures |qs| <= count && |ops| == |qs|
    ensures k0 <= k <= k0 + 2 * (20 * count)
    ensures |qs| < count ==> k == k0 + 2 * (20 * count)
    ensures forall i :: 0 <= i < |qs| ==>
              CarryOk(qs[i], ops[i], i, aRange, bRange, c, v)
  {
    qs, k, ops := [], k0, [];
    var attempts := 0;
    var limit := 20 * count;
    while |qs| < count && attempts < limit
      invariant attempts <= limit && |qs| <= count && |ops| == |qs|
      invariant k == k0 + 2 * attempts
      invariant AllCarryOk(qs, ops, aRange, bRange, c, v)
    {
      attempts := attempts + 1;
      var a := RandomInt(rng(k), aRange.lo, aRange.hi);
      var b := RandomInt(rng(k + 1), bRange.lo, bRange.hi);
      k := k + 2;
      if Keeps(CarryFilter(c.sumMax, c.sumMin), a, b) {
        CarryOkSnoc(qs, ops, aRange, bRange, c, v, a, b);
        qs := qs + [CarryQuestion(a, b, IntToString(|qs|), v)];
        ops := ops + [(a, b)];
      }
    }
  }
}
