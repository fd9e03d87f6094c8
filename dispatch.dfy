/**
 * The question factory `generateQuestionsForStage`: review questions copied
 * from the weak set, new questions from the generator the pool names, the two
 * kinds of composite pool, the fixed carry set and the final shuffle.
 */
module Dispatch {
  import opened Wrappers
  import opened JsNumbers
  import opened Oracle
  import opened Curriculum
  import opened SequentialPairs
  import A = AddGenerators
  import S = SubGenerators
  import M = MulGenerators
  import W = WrittenGenerators

  function Min(a: nat, b: nat): nat {
    if a < b then a else b
  }

  /** `s.slice(0, n)` for a non-negative `n`. */
  function Cut<T>(s: seq<T>, n: nat): (r: seq<T>)
    ensures |r| == Min(n, |s|) && r <= s
  {
    if n < |s| then s[..n] else s
  }

  // ---------------------------------------------------------------- roulette

  function RealSum(ws: seq<real>): real {
    if ws == [] then 0.0 else ws[0] + RealSum(ws[1..])
  }

  function Shift(o: Option<nat>, offset: nat): Option<nat> {
    if o.Some? then Some(o.value + offset) else None
  }

  /**
   * The walk shared by `pickWeighted` and the V2 composite: subtract the
   * weights one by one from `random` and stop at the first index where what
   * is left is no longer positive; `None` when the walk runs off the end.
   */
  function Roulette(ws: seq<real>, random: real): (r: Option<nat>)
    ensures r.Some? ==> r.value < |ws|
  {
    if ws == [] then None
    else if random - ws[0] <= 0.0 then Some(0)
    else Shift(Roulette(ws[1..], random - ws[0]), 1)
  }

  /** The walk as the source writes it: a loop over the weights. */
  method RouletteWalk(ws: seq<real>, random: real) returns (r: Option<nat>)
    ensures r == Roulette(ws, random)
  {
    var rnd := random;
    var j := 0;
    assert ws[0..] == ws;
    while j < |ws|
      invariant 0 <= j <= |ws|
      invariant Roulette(ws, random) == Shift(Roulette(ws[j..], rnd), j)
    {
      assert ws[j..][1..] == ws[j + 1..];
      assert Roulette(ws[j..], rnd)
             == if rnd - ws[j] <= 0.0 then Some(0) else Shift(Roulette(ws[j + 1..], rnd - ws[j]), 1);
      rnd := rnd - ws[j];
      if rnd <= 0.0 {
        return Some(j);
      }
      j := j + 1;
    }
    assert ws[j..] == [];
    return None;
  }

  /** The running total of the weights up to and including index `j`. */
  function Running(ws: seq<real>, j: nat): real
    requires j < |ws|
  {
    RealSum(ws[..j + 1])
  }

  lemma RunningStep(ws: seq<real>, j: nat)
    requires j < |ws|
    ensures j == 0 ==> Running(ws, j) == ws[0]
    ensures j > 0 ==> Running(ws, j) == ws[0] + Running(ws[1..], j - 1)
  {
    if j == 0 {
      assert ws[..1][1..] == [];
      assert RealSum(ws[..1]) == ws[..1][0] + RealSum(ws[..1][1..]);
    } else {
      assert ws[..j + 1][1..] == ws[1..][..(j - 1) + 1];
    }
  }

  /**
   * The walk picks the first index whose running total of weights reaches
   * `random`: every earlier running total falls short of it, and `None`
   * means none reaches it.
   */
  lemma {:induction false} RouletteFirst(ws: seq<real>, random: real)
    ensures var r := Roulette(ws, random);
            (r.Some? ==> random - Running(ws, r.value) <= 0.0
                         && forall j :: 0 <= j < r.value ==> random - Running(ws, j) > 0.0)
            && (r.None? ==> forall j :: 0 <= j < |ws| ==> random - Running(ws, j) > 0.0)
    decreases |ws|
  {
    if ws != [] {
      RunningStep(ws, 0);
      if random - ws[0] > 0.0 {
        var rest := random - ws[0];
        RouletteFirst(ws[1..], rest);
        var r' := Roulette(ws[1..], rest);
        var r := Roulette(ws, random);
        assert r == Shift(r', 1);
        forall j | 0 < j < |ws| && (r.None? || j < r.value)
          ensures random - Running(ws, j) > 0.0
        {
          RunningStep(ws, j);
        }
        if r.Some? {
          RunningStep(ws, r.value);
        }
      }
    }
  }

  /** When `random` does not exceed the total, the walk always stops inside the list. */
  lemma {:induction false} RouletteFinds(ws: seq<real>, random: real)
    requires |ws| > 0 && random <= RealSum(ws)
    ensures Roulette(ws, random).Some?
    decreases |ws|
  {
    if random - ws[0] > 0.0 && |ws| > 1 {
      RouletteFinds(ws[1..], random - ws[0]);
    }
  }

  /** With a positive `random` the walk never stops on a weight that is not positive. */
  lemma {:induction false} RouletteLandsOnPositive(ws: seq<real>, random: real)
    requires random > 0.0
    ensures var r := Roulette(ws, random); r.Some? ==> ws[r.value] > 0.0
    decreases |ws|
  {
    if ws != [] && random - ws[0] > 0.0 {
      RouletteLandsOnPositive(ws[1..], random - ws[0]);
    }
  }

  lemma {:induction false} RealSumNonNegative(ws: seq<real>)
    requires forall i :: 0 <= i < |ws| ==> ws[i] >= 0.0
    ensures RealSum(ws) >= 0.0
    decreases |ws|
  {
    if ws != [] {
      RealSumNonNegative(ws[1..]);
    }
  }


  // ---------------------------------------------------------------- pickWeighted

  /** `Math.random() * total`: the point on the weight line the walk looks for. */
  function Scale(u: real, total: real): real {
    u * total
  }

  /** A draw in [0, 1) scales a non-negative total to a point inside it. */
  lemma ScaleWithin(u: real, total: real)
    requires 0.0 <= u < 1.0 && total >= 0.0
    ensures 0.0 <= Scale(u, total) <= total
  {
    var rest := 1.0 - u;
    assert rest * total >= 0.0;
    assert total - u * total == rest * total;
  }

  function Weights(table: seq<(string, real)>): (ws: seq<real>)
    ensures |ws| == |table| && forall i :: 0 <= i < |table| ==> ws[i] == table[i].1
  {
    if table == [] then [] else [table[0].1] + Weights(table[1..])
  }

  /**
   * `pickWeighted` for the draw `u`: the key where the walk stops, the first
   * key when it runs off the end, nothing for an empty table.
   */
  function PickWeighted(table: seq<(string, real)>, u: real): (key: Option<string>)
    ensures key.Some? <==> |table| > 0
    ensures key.Some? ==> exists i :: 0 <= i < |table| && key.value == table[i].0
  {
    var ws := Weights(table);
    var r := Roulette(ws, Scale(u, RealSum(ws)));
    if r.Some? then Some(table[r.value].0)
    else if |table| > 0 then Some(table[0].0)
    else None
  }

  method PickWeightedWalk(table: seq<(string, real)>, u: real) returns (key: Option<string>)
    ensures key == PickWeighted(table, u)
  {
    var ws := Weights(table);
    var total := RealSum(ws);
    var r := RouletteWalk(ws, Scale(u, total));
    if r.Some? {
      key := Some(table[r.value].0);
    } else if |table| > 0 {
      key := Some(table[0].0);
    } else {
      key := None;
    }
  }

  /**
   * With non-negative weights and a draw in [0, 1) the fallback to the first
   * key is never taken: the key picked is the first whose running total
   * reaches `u` times the total.
   */
  lemma PickWeightedNoFallback(table: seq<(string, real)>, u: real)
    requires |table| > 0 && 0.0 <= u < 1.0
    requires forall i :: 0 <= i < |table| ==> table[i].1 >= 0.0
    ensures var ws := Weights(table);
            var random := Scale(u, RealSum(ws));
            exists i :: 0 <= i < |table| && PickWeighted(table, u) == Some(table[i].0)
                        && random - Running(ws, i) <= 0.0
                        && forall j :: 0 <= j < i ==> random - Running(ws, j) > 0.0
  {
    var ws := Weights(table);
    var total := RealSum(ws);
    RealSumNonNegative(ws);
    ScaleWithin(u, total);
    RouletteFinds(ws, Scale(u, total));
    RouletteFirst(ws, Scale(u, total));
    var i := Roulette(ws, Scale(u, total)).value;
    assert PickWeighted(table, u) == Some(table[i].0);
  }

  // ---------------------------------------------------------------- fixed carry set

  function FixedSetQuestion(a: int, b: int): Question {
    Question("fix_" + IntToString(a) + "_" + IntToString(b), Infix(a, "+", b), IntToString(a + b), InputQ, NoMeta, false)
  }

  /** Two digits 1..9 that make at least 10. */
  predicate CarryingDigits(p: (int, int)) {
    1 <= p.0 <= 9 && 1 <= p.1 <= 9 && p.0 + p.1 >= 10
  }

  /** The pairs of the nested loops: every carrying pair once, in ascending order. */
  ghost predicate IsFixedPairs(ps: seq<(int, int)>) {
    Ascending(ps) && forall p :: p in ps <==> CarryingDigits(p)
  }

  /** The fixed-set questions of the pairs `ps`, in their order. */
  function FixedQuestions(ps: seq<(int, int)>): (qs: seq<Question>)
    ensures |qs| == |ps|
    ensures forall i :: 0 <= i < |qs| ==> qs[i] == FixedSetQuestion(ps[i].0, ps[i].1)
  {
    if ps == [] then []
    else
      var p := ps[|ps| - 1];
      FixedQuestions(ps[..|ps| - 1]) + [FixedSetQuestion(p.0, p.1)]
  }

  /** Each fixed-set question asks for the sum of its pair. */
  lemma FixedAnswers(ps: seq<(int, int)>)
    ensures forall i :: 0 <= i < |ps| ==> ParseInt(FixedQuestions(ps)[i].answer) == Some(ps[i].0 + ps[i].1)
  {
    forall i | 0 <= i < |ps|
      ensures ParseInt(FixedQuestions(ps)[i].answer) == Some(ps[i].0 + ps[i].1)
    {
      ParseIntOfIntToString(ps[i].0 + ps[i].1);
    }
  }

  /**
   * The fixed list is well defined: any two lists of the carrying pairs in
   * ascending order are the same, and each question's answer is a sum of at
   * least 10.
   */
  lemma FixedSetContents(ps: seq<(int, int)>, other: seq<(int, int)>)
    requires IsFixedPairs(ps) && IsFixedPairs(other)
    ensures ps == other
    ensures forall i :: 0 <= i < |ps| ==>
              ParseInt(FixedQuestions(ps)[i].answer) == Some(ps[i].0 + ps[i].1) && ps[i].0 + ps[i].1 >= 10
  {
    AscendingUnique(ps, other);
    FixedAnswers(ps);
    assert forall i :: 0 <= i < |ps| ==> ps[i] in ps;
  }

  /** The nested loops of the fixed set over the digits `lo..hi`. */
  method CarryingPairs(lo: int, hi: int) returns (ps: seq<(int, int)>)
    ensures Ascending(ps)
    ensures forall p :: p in ps <==> lo <= p.0 <= hi && lo <= p.1 <= hi && p.0 + p.1 >= 10
  {
    ps := AscendingPairs(lo, hi, lo, hi, FixedCarryFilter);
    forall p
      ensures p in ps <==> lo <= p.0 <= hi && lo <= p.1 <= hi && p.0 + p.1 >= 10
    {
      SequentialEnumeration(lo, hi, lo, hi, FixedCarryFilter, p);
    }
    SequentialEnumeration(lo, hi, lo, hi, FixedCarryFilter, (lo, lo));
  }

  lemma PrefixSubMultiset<T>(s: seq<T>, t: seq<T>, n: nat)
    requires n <= |s| && multiset(s) == multiset(t)
    ensures multiset(s[..n]) <= multiset(t)
  {
    assert s == s[..n] + s[n..];
  }

  /** The loop turning the pairs into questions. */
  method AskFixed(ps: seq<(int, int)>) returns (all: seq<Question>)
    ensures all == FixedQuestions(ps)
  {
    all := [];
    var i := 0;
    while i < |ps|
      invariant i <= |ps| && all == FixedQuestions(ps[..i])
    {
      assert ps[..i + 1][..i] == ps[..i];
      all := all + [FixedSetQuestion(ps[i].0, ps[i].1)];
      i := i + 1;
    }
    assert ps[..i] == ps;
  }

  /** The first `count` of `all`, shuffled first when `random`. */
  method TakeFixed(all: seq<Question>, random: bool, count: nat, rng: Stream, k0: nat)
    returns (qs: seq<Question>, k: nat)
    ensures !random ==> qs == Cut(all, count) && k == k0
    ensures random ==> |qs| == Min(count, |all|) && multiset(qs) <= multiset(all) && k == k0 + |all|
  {
    if random {
      var shuffled := Shuffle(all, rng, k0);
      PrefixSubMultiset(shuffled, all, Min(count, |shuffled|));
      qs, k := Cut(shuffled, count), k0 + |all|;
    } else {
      qs, k := Cut(all, count), k0;
    }
  }

  /** The first `count` questions of the fixed list. */
  ghost predicate FixedPrefix(qs: seq<Question>, count: nat) {
    exists ps :: IsFixedPairs(ps) && qs == Cut(FixedQuestions(ps), count)
  }

  /** `count` of the fixed list's questions (all of them when fewer), each at most once. */
  ghost predicate FixedSample(qs: seq<Question>, count: nat) {
    exists ps :: IsFixedPairs(ps) && |qs| == Min(count, |ps|) && multiset(qs) <= multiset(FixedQuestions(ps))
  }

  /** `fixed_set` keeps the first `count`; `fixed_set_random` the first `count` of a shuffle. */
  method GenerateFixedSet(random: bool, count: nat, rng: Stream, k0: nat)
    returns (qs: seq<Question>, k: nat)
    ensures !random ==> FixedPrefix(qs, count) && k == k0
    ensures random ==> FixedSample(qs, count) && k0 <= k
  {
    var ps := CarryingPairs(1, 9);
    assert IsFixedPairs(ps);
    var all := AskFixed(ps);
    qs, k := TakeFixed(all, random, count, rng, k0);
  }

  // ---------------------------------------------------------------- review questions

  /** Review applies outside the sequential and fill modes, and only with weak questions on record. */
  predicate ReviewApplies(mode: Mode, weakSet: seq<WeakQuestion>) {
    mode != SEQ && mode != FILL && |weakSet| > 0
  }

  /** `Math.min(Math.floor(count * 0.3), weakSet.length)`. */
  function ReviewCount(count: nat, weak: nat): nat {
    Min((3 * count) / 10, weak)
  }

  /** The stored question, renamed with the time and its position and marked as a review. */
  function ReviewCopy(wq: WeakQuestion, i: nat, now: int): Question {
    wq.data.(id := wq.data.id + "_review_" + IntToString(now) + "_" + IntToString(i), isReview := true)
  }

  /**
   * The review block: a shuffle of the weak set, then copies of its first
   * `ReviewCount` entries, so no weak question is asked twice.
   */
  method SelectReview(mode: Mode, count: nat, weakSet: seq<WeakQuestion>, rng: Stream, k0: nat, now: int)
    returns (review: seq<Question>, k: nat, ghost shuffled: seq<WeakQuestion>)
    ensures !ReviewApplies(mode, weakSet) ==> review == [] && k == k0
    ensures ReviewApplies(mode, weakSet) ==>
              multiset(shuffled) == multiset(weakSet)
              && |review| == ReviewCount(count, |weakSet|) <= |shuffled|
              && multiset(shuffled[..|review|]) <= multiset(weakSet)
              && forall i :: 0 <= i < |review| ==> review[i] == ReviewCopy(shuffled[i], i, now)
    ensures k0 <= k
  {
    review, k, shuffled := [], k0, [];
    if ReviewApplies(mode, weakSet) {
      var weakCount := ReviewCount(count, |weakSet|);
      var shuffledWeak := Shuffle(weakSet, rng, k0);
      k := k0 + |weakSet|;
      shuffled := shuffledWeak;
      var i := 0;
      while i < weakCount
        invariant i <= weakCount && |review| == i
        invariant forall j :: 0 <= j < i ==> review[j] == ReviewCopy(shuffledWeak[j], j, now)
      {
        review := review + [ReviewCopy(shuffledWeak[i], i, now)];
        i := i + 1;
      }
      PrefixSubMultiset(shuffledWeak, weakSet, weakCount);
    }
  }

  /**
   * A review copy asks the stored question unchanged (text, answer, kind,
   * metadata), flags itself as a review, and keeps the stored id as a prefix.
   */
  lemma ReviewCopyFacts(wq: WeakQuestion, i: nat, now: int)
    ensures var q := ReviewCopy(wq, i, now);
            q.isReview && q.text == wq.data.text && q.answer == wq.data.answer
            && q.qtype == wq.data.qtype && q.meta == wq.data.meta
            && wq.data.id + "_review_" <= q.id
            && (i != 0 || now != 0 ==> q != wq.data.(isReview := true))
  {
    var q := ReviewCopy(wq, i, now);
    if i != 0 || now != 0 {
      assert |q.id| > |wq.data.id|;
    }
  }

  /** Never more review questions than 30% of the round (rounded down). */
  lemma ReviewShare(count: nat, weak: nat)
    ensures 10 * ReviewCount(count, weak) <= 3 * count
    ensures ReviewCount(count, weak) <= weak
    ensures weak > 0 && count >= 4 ==> ReviewCount(count, weak) >= 1
  {
  }

  // ---------------------------------------------------------------- how a run ends

  /** A generator call returns its questions, never returns, or throws. */
  datatype Run = Done | Hung | Threw

  /**
   * The pools whose generator can throw: three numbers with a missing range
   * or an empty list of make-10 pairs reads from `undefined`, a link range reaching below the
   * length `Array(m)` accepts is a `RangeError`, and a V2 composite whose
   * walk can land past its includes builds a stage from `undefined`.
   */
  predicate MayThrow(pool: PoolSpec) {
    match pool
    case AddThreeNumbers(t, pairs, thirdRange, ranges, _) => A.ThreeThrows(t, pairs, thirdRange, ranges)
    case MulLink(_, range, direction) => M.Least(range) < (if direction == AddToMul then 0 else 1)
    case CompositeV2(includes, weights) =>
      |includes| == 0 || |weights| > |includes| || exists i :: 0 <= i < |includes| && MayThrow(includes[i])
    case _ => false
  }

  /**
   * The pools whose generator can loop forever: the two-digit place-value
   * redraw, and a skip count whose step never carries it past its end.
   */
  predicate MayHang(pool: PoolSpec) {
    match pool
    case PlaceValue2D(_) => true
    case SkipCount(step, from, to, _) => step <= 0 && from <= to
    case CompositeV2(includes, _) => exists i :: 0 <= i < |includes| && MayHang(includes[i])
    case _ => false
  }

  /** The pools whose generator always returns exactly `count` questions. */
  predicate ExactCount(pool: PoolSpec, mode: Mode) {
    match pool
    case TenComplement(_) => true
    case AddThreeNumbers(_, _, _, _, _) => true
    case StairAddition(_, _) => true
    case SubStair(_, _) => true
    case MulLink(_, _, _) => true
    case MulTable(_, _, order) => !(mode == SEQ || order == Some(Asc))
    case MulReview(_, _, _, _) => true
    case MulMix(_, _, _) => true
    case SkipTap(_, _, _, _, _) => true
    case PlaceValue2D(_) => true
    case PlaceValue3D(_, _) => true
    case WrittenFormFillPool(_, _, _) => true
    case WrittenFormChoicePool(_, _, _) => true
    case CarryMarkTapPool(_, _, _) => true
    case WrittenVerifyPool(_, _, _) => true
    case CompositeV2(includes, _) => forall i :: 0 <= i < |includes| ==> ExactCount(includes[i], mode)
    case _ => false
  }

  // ---------------------------------------------------------------- the sequential orders

  /** The sequential carry list: the accepted pairs in ascending order, cut to `count`. */
  predicate CarryOrder(qs: seq<Question>, aRange: Range, bRange: Range, c: Constraints, v: Variant, count: nat) {
    var ps := Kept(Grid(aRange.lo, aRange.hi, bRange.lo, bRange.hi), CarryFilter(c.sumMax, c.sumMin));
    |qs| == Min(count, |ps|) && forall i :: 0 <= i < |qs| ==> qs[i] == A.CarryQuestion(ps[i].0, ps[i].1, "seq", v)
  }

  predicate SubPairOrder(qs: seq<Question>, minuendRange: Range, subtrahendRange: Range, c: Constraints, count: nat) {
    var ps := Kept(Grid(minuendRange.lo, minuendRange.hi, subtrahendRange.lo, subtrahendRange.hi),
                   SubFilter(c.resultMin, c.resultMax));
    |qs| == Min(count, |ps|) && forall i :: 0 <= i < |qs| ==> qs[i] == S.SubPairQuestion(ps[i].0, ps[i].1, "seq")
  }

  predicate BorrowOrder(qs: seq<Question>, minuendRange: Range, subtrahendRange: Range, v: Variant, count: nat) {
    var ps := Kept(Grid(minuendRange.lo, minuendRange.hi, subtrahendRange.lo, subtrahendRange.hi), BorrowFilter);
    |qs| == Min(count, |ps|) && forall i :: 0 <= i < |qs| ==> qs[i] == S.BorrowQuestion(ps[i].0, ps[i].1, v, "seq")
  }

  predicate TableInOrder(qs: seq<Question>, n: int, range: Range, count: nat) {
    var all := M.TableOrder(range);
    |qs| == Min(count, |all|) && M.TableOrderOk(qs, all[..|qs|], n)
  }

  predicate SkipCountOrder(qs: seq<Question>, step: int, from: int, to: int, showNumbers: Option<seq<int>>, count: nat) {
    (step > 0 || from > to)
    && var s := M.SkipSequence(from, to, step);
       var show := M.ShownNumbers(from, to, showNumbers);
       var b := M.BlankIndices(s, show, |s|);
       |qs| == Min(count, |b|) && forall i :: 0 <= i < |qs| ==> qs[i] == M.SkipQuestion(step, s, show, b, i)
  }

  predicate ElevOrder(qs: seq<Question>, add: int, start: int, stepsRange: Range, count: nat) {
    var n := if stepsRange.lo <= stepsRange.hi then stepsRange.hi - stepsRange.lo + 1 else 0;
    |qs| == Min(count, n) && forall i :: 0 <= i < |qs| ==> qs[i] == M.ElevQuestion(add, start, stepsRange.lo + i)
  }

  /**
   * What the dispatcher's new-question list is, pool by pool, before the
   * final shuffle. For the fixed sets `all` is the full fixed list.
   */
  ghost predicate ListFacts(pool: PoolSpec, mode: Mode, count: nat, now: int, qs: seq<Question>) {
    match pool
    case AddCarryProcedure(v, aRange, bRange, c) => mode == SEQ ==> CarryOrder(qs, aRange, bRange, c, v, count)
    case SubPairs(mr, sr, c) => mode == SEQ ==> SubPairOrder(qs, mr, sr, c, count)
    case SubBorrowProcedure(mr, sr, v) => mode == SEQ ==> BorrowOrder(qs, mr, sr, v, count)
    case SkipCount(step, from, to, show) => SkipCountOrder(qs, step, from, to, show, count)
    case ElevAdd(add, start, stepsRange) => ElevOrder(qs, add, start, stepsRange, count)
    case MulTable(n, range, order) => (mode == SEQ || order == Some(Asc)) ==> TableInOrder(qs, n, range, count)
    case SkipTap(step, from, to, total, limit) =>
      forall i :: 0 <= i < |qs| ==> qs[i] == M.SkipTapQuestion(step, from, to, total, limit, i, now)
    case WrittenAddPool(_, _) => qs == []
    case MentalAddStep(_, _) => qs == []
    case FixedSet => FixedPrefix(qs, count)
    case FixedSetRandom => FixedSample(qs, count)
    case _ => true
  }

  ghost predicate NewListOk(pool: PoolSpec, mode: Mode, count: nat, now: int, qs: seq<Question>) {
    |qs| <= count && (ExactCount(pool, mode) ==> |qs| == count) && ListFacts(pool, mode, count, now, qs)
  }

  // ---------------------------------------------------------------- dispatch by family

  method NewAdd(pool: PoolSpec, mode: Mode, count: nat, rng: Stream, k0: nat, now: int)
    returns (qs: seq<Question>, k: nat, threw: bool)
    requires pool.TenComplement? || pool.AddPairs? || pool.AddThreeNumbers? || pool.StairAddition?
             || pool.Add2D1D? || pool.Add1D2D? || pool.AddCarryProcedure?
    ensures !threw ==> NewListOk(pool, mode, count, now, qs)
    ensures threw ==> MayThrow(pool)
    ensures k0 <= k
  {
    ghost var ops: seq<(int, int)>;
    threw := false;
    match pool {
      case TenComplement(numbers) =>
        qs, k := A.GenerateTenComplement(numbers, count, rng, k0, now);
      case AddPairs(aRange, bRange, c) =>
        qs, k, ops := A.GenerateAddPairs(aRange, bRange, c, count, rng, k0, now);
      case AddThreeNumbers(t, pairs, thirdRange, ranges, c) =>
        ghost var drawn, shown;
        qs, k, threw, drawn, shown := A.GenerateAddThreeNumbers(t, pairs, thirdRange, ranges, c, count, rng, k0);
      case StairAddition(baseNumbers, topRowLength) =>
        ghost var stairOps;
        qs, k, stairOps := A.GenerateStairAddition(baseNumbers, topRowLength, count, rng, k0);
      case Add2D1D(twoDigitRange, oneDigitRange, c) =>
        qs, k, ops := A.GenerateAdd2D1D(twoDigitRange, oneDigitRange, c, count, rng, k0);
      case Add1D2D(oneDigitRange, twoDigitRange, c) =>
        qs, k, ops := A.GenerateAdd1D2D(oneDigitRange, twoDigitRange, c, count, rng, k0);
      case AddCarryProcedure(v, aRange, bRange, c) =>
        if mode == SEQ {
          qs := A.GenerateAddCarrySequential(aRange, bRange, c, v, count);
          k := k0;
        } else {
          qs, k, ops := A.GenerateAddCarryRandom(aRange, bRange, c, v, count, rng, k0);
        }
    }
  }

  method NewSub(pool: PoolSpec, mode: Mode, count: nat, rng: Stream, k0: nat, now: int)
    returns (qs: seq<Question>, k: nat)
    requires pool.SubPairs? || pool.SubBorrowProcedure? || pool.SubStair? || pool.Sub2D1D? || pool.SubAddMixed?
    ensures NewListOk(pool, mode, count, now, qs) && k0 <= k
  {
    ghost var ops: seq<(int, int)>;
    match pool {
      case SubPairs(mr, sr, c) =>
        if mode == SEQ {
          qs := S.GenerateSubPairsSequential(mr, sr, c, count);
          k := k0;
        } else {
          qs, k, ops := S.GenerateSubPairsRandom(mr, sr, c, count, rng, k0);
        }
      case SubBorrowProcedure(mr, sr, v) =>
        if mode == SEQ {
          qs := S.GenerateSubBorrowSequential(mr, sr, v, count);
          k := k0;
        } else {
          qs, k, ops := S.GenerateSubBorrowRandom(mr, sr, v, count, rng, k0);
        }
      case SubStair(baseNumbers, topRowLength) =>
        ghost var stairOps;
        qs, k, stairOps := S.GenerateSubStair(baseNumbers, topRowLength, count, rng, k0);
      case Sub2D1D(twoDigitRange, oneDigitRange, c) =>
        qs, k, ops := S.GenerateSub2D1D(twoDigitRange, oneDigitRange, c, count, rng, k0);
      case SubAddMixed(base, sr, ar) =>
        qs, k, ops := S.GenerateSubAddMixed(base, sr, ar, count, rng, k0);
    }
  }

  /**
   * The counting branches: the skip count, the elevator and the tap game. A
   * skip count whose step never passes its end loops forever instead of
   * returning.
   */
  method NewCounting(pool: PoolSpec, mode: Mode, count: nat, k0: nat, now: int)
    returns (qs: seq<Question>, k: nat, run: Run)
    requires pool.SkipCount? || pool.ElevAdd? || pool.SkipTap?
    ensures run == Done ==> NewListOk(pool, mode, count, now, qs)
    ensures run != Threw && (run == Hung ==> MayHang(pool))
    ensures k == k0
  {
    run, k := Done, k0;
    match pool {
      case SkipCount(step, from, to, showNumbers) =>
        if step <= 0 && from <= to {
          qs, run := [], Hung;
        } else {
          qs := M.GenerateSkipCount(step, from, to, showNumbers, count);
        }
      case ElevAdd(add, start, stepsRange) =>
        qs := M.GenerateElevAdd(add, start, stepsRange, count);
      case SkipTap(step, from, to, totalNumbers, timeLimit) =>
        qs := M.GenerateSkipTap(step, from, to, totalNumbers, timeLimit, count, now);
    }
  }

  /** The multiplication branches; only the link pool can throw. */
  method NewMul(pool: PoolSpec, mode: Mode, count: nat, rng: Stream, k0: nat, now: int)
    returns (qs: seq<Question>, k: nat, threw: bool)
    requires pool.MulLink? || pool.MulTable? || pool.MulReview? || pool.MulMix?
    ensures !threw ==> NewListOk(pool, mode, count, now, qs)
    ensures threw ==> MayThrow(pool)
    ensures k0 <= k
  {
    ghost var ms: seq<int>;
    ghost var facts: seq<(int, int)>;
    threw := false;
    match pool {
      case MulLink(n, range, direction) =>
        qs, k, threw, ms := M.GenerateMulLink(n, range, direction, count, rng, k0);
      case MulTable(n, range, order) =>
        if mode == SEQ || order == Some(Asc) {
          ghost var ops;
          qs, ops := M.GenerateMulTableInOrder(n, range, count);
          k := k0;
        } else {
          qs, k, ms := M.GenerateMulTableRandom(n, range, count, rng, k0);
        }
      case MulReview(fromN, toN, range, minPerN) =>
        var built;
        qs, k, built, facts := M.GenerateMulReview(fromN, toN, range, minPerN, count, rng, k0);
      case MulMix(fromN, toN, range) =>
        qs, k, facts := M.GenerateMulMix(fromN, toN, range, count, rng, k0);
    }
  }

  method NewWritten(pool: PoolSpec, mode: Mode, count: nat, rng: Stream, k0: nat, now: int, fuel: nat)
    returns (qs: seq<Question>, k: nat, run: Run)
    requires pool.PlaceValue2D? || pool.PlaceValue3D? || pool.WrittenFormFillPool? || pool.WrittenFormChoicePool?
             || pool.WrittenAdd2D2D? || pool.CarryMarkTapPool? || pool.WrittenVerifyPool?
    ensures run == Done ==> NewListOk(pool, mode, count, now, qs)
    ensures run != Threw && (run == Hung ==> MayHang(pool))
    ensures k0 <= k
  {
    ghost var pairs: seq<(int, int)>;
    run := Done;
    match pool {
      case PlaceValue2D(range) =>
        var hung;
        qs, hung, k := W.GeneratePlaceValue2D(range, count, rng, k0, now, fuel);
        if hung {
          run := Hung;
        } else {
          W.PlaceValue2RunFacts(range, 0, count, {}, W.Streak(-1, 0), rng, k0, now, fuel);
        }
      case PlaceValue3D(range, includeZeroMiddle) =>
        ghost var nums;
        qs, k, nums := W.GeneratePlaceValue3D(range, includeZeroMiddle, count, rng, k0, now);
      case WrittenFormFillPool(aRange, bRange, format) =>
        qs, k, pairs := W.GenerateWrittenFormFill(aRange, bRange, format, count, rng, k0, now);
      case WrittenFormChoicePool(aRange, bRange, errorTypes) =>
        qs, k := W.GenerateWrittenFormChoice(aRange, bRange, errorTypes, count, rng, k0, now);
      case WrittenAdd2D2D(aRange, bRange, carryRequired, noCarry, inputOrder) =>
        qs, k, pairs := W.GenerateWrittenAdd2D2D(aRange, bRange, carryRequired, noCarry, inputOrder, count, rng, k0, now);
      case CarryMarkTapPool(aRange, bRange, carryRatio) =>
        ghost var wanted, starts;
        qs, k, pairs, wanted, starts := W.GenerateCarryMarkTap(aRange, bRange, carryRatio, count, rng, k0, now);
      case WrittenVerifyPool(aRange, bRange, verifyType) =>
        ghost var flips;
        qs, k, pairs, flips := W.GenerateWrittenVerify(aRange, bRange, verifyType, count, rng, k0, now);
    }
  }

  /**
   * The `if` chain on `pool.type`; pools without a branch give no new
   * questions. A run that does not return is one the pool allows.
   */
  method GenerateNew(pool: PoolSpec, mode: Mode, count: nat, rng: Stream, k0: nat, now: int, fuel: nat)
    returns (qs: seq<Question>, k: nat, run: Run)
    ensures run == Done ==> NewListOk(pool, mode, count, now, qs)
    ensures run == Hung ==> MayHang(pool)
    ensures run == Threw ==> MayThrow(pool)
    ensures k0 <= k
    decreases pool, 1
  {
    run := Done;
    if pool.TenComplement? || pool.AddPairs? || pool.AddThreeNumbers? || pool.StairAddition?
       || pool.Add2D1D? || pool.Add1D2D? || pool.AddCarryProcedure? {
      var threw;
      qs, k, threw := NewAdd(pool, mode, count, rng, k0, now);
      if threw {
        run := Threw;
      }
    } else if pool.SubPairs? || pool.SubBorrowProcedure? || pool.SubStair? || pool.Sub2D1D? || pool.SubAddMixed? {
      qs, k := NewSub(pool, mode, count, rng, k0, now);
    } else if pool.SkipCount? || pool.ElevAdd? || pool.SkipTap? {
      qs, k, run := NewCounting(pool, mode, count, k0, now);
    } else if pool.MulLink? || pool.MulTable? || pool.MulReview? || pool.MulMix? {
      var threw;
      qs, k, threw := NewMul(pool, mode, count, rng, k0, now);
      if threw {
        run := Threw;
      }
    } else if pool.PlaceValue2D? || pool.PlaceValue3D? || pool.WrittenFormFillPool? || pool.WrittenFormChoicePool?
              || pool.WrittenAdd2D2D? || pool.CarryMarkTapPool? || pool.WrittenVerifyPool? {
      qs, k, run := NewWritten(pool, mode, count, rng, k0, now, fuel);
    } else if pool.CompositeV2? {
      ghost var picks;
      qs, k, run, picks := NewCompositeV2(pool, mode, count, rng, k0, now, fuel);
    } else if pool.CompositeV1? {
      ghost var keys;
      qs, k, keys := NewCompositeV1(pool.weightTable, count, rng, k0, now);
    } else if pool.FixedSet? || pool.FixedSetRandom? {
      qs, k := GenerateFixedSet(pool.FixedSetRandom?, count, rng, k0);
    } else {
      qs, k := [], k0;
    }
  }

  /** `newQuestions.sort(() => Math.random() - 0.5)` in the RND and MIX modes. */
  method FinalOrder(mode: Mode, qs: seq<Question>, rng: Stream, k0: nat) returns (out: seq<Question>, k: nat)
    ensures mode == RND || mode == MIX ==> |out| == |qs| && multiset(out) == multiset(qs) && k == k0 + |qs|
    ensures !(mode == RND || mode == MIX) ==> out == qs && k == k0
  {
    if mode == RND || mode == MIX {
      out, k := Shuffle(qs, rng, k0), k0 + |qs|;
    } else {
      out, k := qs, k0;
    }
  }

  /** Reordering a list of at most one question leaves it as it was. */
  lemma {:induction false} ShortReorder(a: seq<Question>, b: seq<Question>)
    requires |a| <= 1 && |b| == |a| && multiset(b) == multiset(a)
    ensures b == a
  {
    if |a| == 1 {
      assert b[0] in multiset(a);
    }
  }

  /** The V2 walk's index: where the walk stops, or the first include. */
  function V2Index(weights: seq<real>, u: real): (i: nat)
    ensures i == 0 || i < |weights|
  {
    Roulette(weights, Scale(u, RealSum(weights))).GetOr(0)
  }

  /**
   * `q` is what the V2 composite emits for include `p`: an index the
   * weighted walk can return, and the question of a one-question stage of
   * that include.
   */
  ghost predicate V2Pick(pool: PoolSpec, mode: Mode, now: int, p: nat, q: Question) {
    pool.CompositeV2? && p < |pool.includes|
    && (exists u: real :: 0.0 <= u < 1.0 && V2Index(pool.weights, u) == p)
    && NewListOk(pool.includes[p], mode, 1, now, [q])
  }

  /**
   * The V2 composite: per question a weighted pick of an include and the
   * first question of a one-question stage built from it (with the same
   * mode, so its own final shuffle runs too). Over includes that always give
   * a question, the round is full; a pick past the last include throws.
   */
  method NewCompositeV2(pool: PoolSpec, mode: Mode, count: nat, rng: Stream, k0: nat, now: int, fuel: nat)
    returns (qs: seq<Question>, k: nat, run: Run, ghost picks: seq<nat>)
    requires pool.CompositeV2?
    ensures run == Done ==> |qs| <= count && (ExactCount(pool, mode) ==> |qs| == count)
    ensures run == Done ==> |picks| == |qs| && forall j :: 0 <= j < |qs| ==> V2Pick(pool, mode, now, picks[j], qs[j])
    ensures run == Hung ==> MayHang(pool)
    ensures run == Threw ==> MayThrow(pool)
    ensures k0 <= k
    decreases pool, 0
  {
    qs, k, run, picks := [], k0, Done, [];
    var i := 0;
    while i < count
      invariant i <= count && |qs| <= i && k0 <= k && |picks| == |qs|
      invariant ExactCount(pool, mode) ==> |qs| == i
      invariant forall j :: 0 <= j < |qs| ==> V2Pick(pool, mode, now, picks[j], qs[j])
    {
      var u := Unit(rng(k));
      k := k + 1;
      var sel := RouletteWalk(pool.weights, Scale(u, RealSum(pool.weights)));
      var idx := sel.GetOr(0);
      assert idx == V2Index(pool.weights, u);
      if idx >= |pool.includes| {
        return qs, k, Threw, picks;
      }
      var sub := pool.includes[idx];
      var subQs, k1, r := GenerateNew(sub, mode, 1, rng, k, now, fuel);
      if r != Done {
        return qs, k1, r, picks;
      }
      var ordered, k2 := FinalOrder(mode, subQs, rng, k1);
      if mode == RND || mode == MIX {
        ShortReorder(subQs, ordered);
      }
      k := k2;
      if |ordered| > 0 {
        assert [ordered[0]] == subQs;
        qs, picks := qs + [ordered[0]], picks + [idx];
      }
      i := i + 1;
    }
  }

  /** The skill names a V1 composite resolves; any other key yields nothing. */
  predicate KnownSkill(key: string) {
    key == "NUM10_MAKE" || key == "ADD_1D_NO_CARRY" || key == "ADD_1D_CARRY"
    || key == "ADD_3NUM_MAKE10" || key == "ADD_2D1D"
  }

  /**
   * `q` is a question of the named skill: the ten-complement of a number
   * 1-9, a one-digit sum up to 9, a one-digit sum from 10, three one-digit
   * numbers in the mixed template, or a teen plus a digit up to 28.
   */
  ghost predicate SkillQuestion(key: string, q: Question, now: int) {
    var r := Range(1, 9);
    if key == "NUM10_MAKE" then
      exists x :: 1 <= x <= 9 && q == A.TenComplementQuestion(Some(x), 0, now)
    else if key == "ADD_1D_NO_CARRY" then
      exists op :: A.AddPairOk(q, op, 0, r, r, NoConstraints.(sumMax := Some(9)), now)
    else if key == "ADD_1D_CARRY" then
      exists op :: A.AddPairOk(q, op, 0, r, r, NoConstraints.(sumMin := Some(10)), now)
    else if key == "ADD_3NUM_MAKE10" then
      exists nums, shown :: A.ThreeOk(q, nums, shown, 0, Mixed, None, None, (Some(r), Some(r), Some(r)), NoConstraints)
    else if key == "ADD_2D1D" then
      exists op :: A.Add2D1DOk(q, op, 0, Range(11, 19), r, NoConstraints.(sumMax := Some(28)))
    else
      false
  }

  /** One question of a named skill, through the fixed pool the V1 composite builds for it. */
  method SkillQuestions(key: string, rng: Stream, k0: nat, now: int) returns (qs: seq<Question>, k: nat)
    ensures |qs| <= 1 && k0 <= k
    ensures !KnownSkill(key) ==> qs == [] && k == k0
    ensures key == "NUM10_MAKE" || key == "ADD_3NUM_MAKE10" ==> |qs| == 1
    ensures forall j :: 0 <= j < |qs| ==> SkillQuestion(key, qs[j], now)
  {
    ghost var ops: seq<(int, int)>;
    var oneToNine := Range(1, 9);
    if key == "NUM10_MAKE" {
      qs, k := A.GenerateTenComplement([1, 2, 3, 4, 5, 6, 7, 8, 9], 1, rng, k0, now);
      ghost var x := A.Pick([1, 2, 3, 4, 5, 6, 7, 8, 9], rng(k0));
      assert qs[0] == A.TenComplementQuestion(Some(x.value), 0, now);
    } else if key == "ADD_1D_NO_CARRY" {
      qs, k, ops := A.GenerateAddPairs(oneToNine, oneToNine, NoConstraints.(sumMax := Some(9)), 1, rng, k0, now);
      if |qs| > 0 {
        assert A.AddPairOk(qs[0], ops[0], 0, oneToNine, oneToNine, NoConstraints.(sumMax := Some(9)), now);
      }
    } else if key == "ADD_1D_CARRY" {
      qs, k, ops := A.GenerateAddPairs(oneToNine, oneToNine, NoConstraints.(sumMin := Some(10)), 1, rng, k0, now);
      if |qs| > 0 {
        assert A.AddPairOk(qs[0], ops[0], 0, oneToNine, oneToNine, NoConstraints.(sumMin := Some(10)), now);
      }
    } else if key == "ADD_3NUM_MAKE10" {
      ghost var drawn, shown;
      var threw;
      var given := Some(oneToNine);
      qs, k, threw, drawn, shown := A.GenerateAddThreeNumbers(Mixed, None, None, (given, given, given),
                                                              NoConstraints, 1, rng, k0);
      assert A.ThreeOk(qs[0], drawn[0], shown[0], 0, Mixed, None, None, (given, given, given), NoConstraints);
    } else if key == "ADD_2D1D" {
      qs, k, ops := A.GenerateAdd2D1D(Range(11, 19), oneToNine, NoConstraints.(sumMax := Some(28)), 1, rng, k0);
      if |qs| > 0 {
        assert A.Add2D1DOk(qs[0], ops[0], 0, Range(11, 19), oneToNine, NoConstraints.(sumMax := Some(28)));
      }
    } else {
      qs, k := [], k0;
    }
  }

  /** `key` is the key of one of the table's entries. */
  predicate InTable(table: seq<(string, real)>, key: string) {
    exists t :: 0 <= t < |table| && key == table[t].0
  }

  /**
   * The V1 composite: per question a key from the weight table and one
   * question of that skill. A table naming no known skill gives an empty
   * round; a non-empty table of always-successful skills a full one.
   */
  method NewCompositeV1(table: seq<(string, real)>, count: nat, rng: Stream, k0: nat, now: int)
    returns (qs: seq<Question>, k: nat, ghost keys: seq<string>)
    ensures |qs| <= count && k0 <= k && |keys| == |qs|
    ensures forall j :: 0 <= j < |qs| ==> InTable(table, keys[j]) && SkillQuestion(keys[j], qs[j], now)
    ensures (forall j :: 0 <= j < |table| ==> !KnownSkill(table[j].0)) ==> qs == []
    ensures |table| > 0 && (forall j :: 0 <= j < |table| ==> table[j].0 in {"NUM10_MAKE", "ADD_3NUM_MAKE10"})
            ==> |qs| == count
  {
    qs, k, keys := [], k0, [];
    var i := 0;
    while i < count
      invariant i <= count && |qs| <= i && k0 <= k && |keys| == |qs|
      invariant forall j :: 0 <= j < |qs| ==> InTable(table, keys[j]) && SkillQuestion(keys[j], qs[j], now)
      invariant (forall j :: 0 <= j < |table| ==> !KnownSkill(table[j].0)) ==> qs == []
      invariant |table| > 0 && (forall j :: 0 <= j < |table| ==> table[j].0 in {"NUM10_MAKE", "ADD_3NUM_MAKE10"})
                ==> |qs| == i
    {
      var u := Unit(rng(k));
      k := k + 1;
      var key := PickWeightedWalk(table, u);
      if key.Some? {
        var subQ: seq<Question>;
        subQ, k := SkillQuestions(key.value, rng, k, now);
        if |subQ| > 0 {
          qs, keys := qs + [subQ[0]], keys + [key.value];
        }
      }
      i := i + 1;
    }
  }

  // ---------------------------------------------------------------- the stage

  /**
   * `generateQuestionsForStage`: the review block, then the new questions of
   * the pool (not reduced by the review), shuffled in the RND and MIX modes.
   * A run that loops or throws is one the pool allows.
   */
  method GenerateForStage(stage: Stage, weakSet: seq<WeakQuestion>, rng: Stream, k0: nat, now: int, fuel: nat)
    returns (review: seq<Question>, newQs: seq<Question>, k: nat, run: Run,
             ghost shuffledWeak: seq<WeakQuestion>, ghost generated: seq<Question>)
    requires stage.round.questions >= 0
    ensures var count := stage.round.questions as nat;
            (!ReviewApplies(stage.mode, weakSet) ==> review == [])
            && (ReviewApplies(stage.mode, weakSet) ==>
                  multiset(shuffledWeak) == multiset(weakSet)
                  && |review| == ReviewCount(count, |weakSet|) <= |shuffledWeak|
                  && multiset(shuffledWeak[..|review|]) <= multiset(weakSet)
                  && forall i :: 0 <= i < |review| ==> review[i] == ReviewCopy(shuffledWeak[i], i, now))
    ensures run == Done ==> NewListOk(stage.poolSpec, stage.mode, stage.round.questions as nat, now, generated)
    ensures run == Done && (stage.mode == RND || stage.mode == MIX) ==>
              |newQs| == |generated| && multiset(newQs) == multiset(generated)
    ensures run == Done && !(stage.mode == RND || stage.mode == MIX) ==> newQs == generated
    ensures run == Hung ==> MayHang(stage.poolSpec)
    ensures run == Threw ==> MayThrow(stage.poolSpec)
    ensures k0 <= k
  {
    var count := stage.round.questions as nat;
    review, k, shuffledWeak := SelectReview(stage.mode, count, weakSet, rng, k0, now);
    var qs;
    qs, k, run := GenerateNew(stage.poolSpec, stage.mode, count, rng, k, now, fuel);
    generated := qs;
    newQs := qs;
    if run == Done {
      newQs, k := FinalOrder(stage.mode, qs, rng, k);
    }
  }
}
