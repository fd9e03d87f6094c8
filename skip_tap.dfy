/**
 * The skip-counting tap game: the multiples `from, from + step, …` up to
 * `to` are mixed with distractors in a shuffled grid and must be tapped in
 * order before the time runs out; tapping a distractor counts against the
 * round, tapping a multiple out of order does nothing.
 */
module SkipTap {
  import opened Wrappers
  import opened Oracle
  import M = MulGenerators

  predicate Increasing(s: seq<int>) {
    forall i, j :: 0 <= i < j < |s| ==> s[i] < s[j]
  }

  predicate Distinct(s: seq<int>) {
    forall i, j :: 0 <= i < j < |s| ==> s[i] != s[j]
  }

  /** The multiples of a skip count strictly increase. */
  lemma {:induction false} TargetsIncrease(from: int, to: int, step: int)
    requires step > 0 || from > to
    ensures Increasing(M.SkipSequence(from, to, step))
    decreases if from <= to then to - from + 1 else 0
  {
    if from <= to {
      var s, t := M.SkipSequence(from, to, step), M.SkipSequence(from + step, to, step);
      TargetsIncrease(from + step, to, step);
      assert s == [from] + t;
      if |t| > 0 {
        assert t == [from + step] + M.SkipSequence(from + step + step, to, step);
        assert forall j :: 0 <= j < |t| ==> t[0] <= t[j];
      }
    }
  }

  /**
   * The loop collecting the possible distractors: every number from 1 to
   * `to + 5` that is not a multiple, ascending.
   */
  method Candidates(targets: seq<int>, to: int) returns (cands: seq<int>)
    ensures Increasing(cands)
    ensures forall x :: x in cands <==> 1 <= x <= to + 5 && x !in targets
  {
    cands := [];
    var i := 1;
    while i <= to + 5
      invariant Increasing(cands) && (i <= to + 6 || i == 1)
      invariant forall x :: x in cands <==> 1 <= x < i && x !in targets
      invariant forall j :: 0 <= j < |cands| ==> cands[j] < i
      decreases 5 + to - i
    {
      if i !in targets {
        cands := cands + [i];
      }
      i := i + 1;
    }
  }

  /** Removing the element at `idx` from a sequence without repeats. */
  lemma RemoveAt(pool: seq<int>, idx: nat)
    requires Distinct(pool) && idx < |pool|
    ensures var rest := pool[..idx] + pool[idx + 1..];
            Distinct(rest) && |rest| == |pool| - 1
            && forall y :: y in rest <==> y in pool && y != pool[idx]
  {
    var rest := pool[..idx] + pool[idx + 1..];
    forall i, j | 0 <= i < j < |rest| ensures rest[i] != rest[j] {
      var i', j' := if i < idx then i else i + 1, if j < idx then j else j + 1;
      assert rest[i] == pool[i'] && rest[j] == pool[j'] && i' < j';
    }
    forall y ensures y in rest <==> y in pool && y != pool[idx] {
      if y in pool && y != pool[idx] {
        var i :| 0 <= i < |pool| && pool[i] == y;
        if i < idx { assert rest[i] == y; } else { assert rest[i - 1] == y; }
      }
      if y in rest {
        var i :| 0 <= i < |rest| && rest[i] == y;
        if i < idx { assert pool[i] == y; } else { assert pool[i + 1] == y; }
      }
    }
  }

  /**
   * The grid of the round: the multiples, then as many distractors as the
   * grid has room for (never more than there are candidates), each drawn
   * once from the candidates, all shuffled. The grid holds each multiple
   * and each distractor exactly once.
   */
  method DealNumbers(targets: seq<int>, totalNumbers: int, to: int, rng: Stream, k0: nat)
    returns (numbers: seq<int>, ghost distractors: seq<int>, k: nat)
    requires Increasing(targets)
    ensures multiset(numbers) == multiset(targets + distractors)
    ensures Distinct(targets + distractors)
    ensures forall x :: x in distractors ==> 1 <= x <= to + 5 && x !in targets
    ensures var room := if totalNumbers - |targets| > 0 then totalNumbers - |targets| else 0;
            |distractors| <= room
            && (|distractors| < room ==> forall x :: 1 <= x <= to + 5 && x !in targets ==> x in distractors)
  {
    var pool := Candidates(targets, to);
    var distractorCount := totalNumbers - |targets|;
    var all := targets;
    ghost var picked: seq<int> := [];
    k := k0;
    var i := 0;
    while i < distractorCount && |pool| > 0
      invariant all == targets + picked && |picked| == i && i >= 0 && (i <= distractorCount || i == 0)
      invariant Distinct(picked) && Distinct(pool)
      invariant forall x :: x in picked ==> x !in pool
      invariant forall x :: (x in picked || x in pool) <==> 1 <= x <= to + 5 && x !in targets
      decreases |pool|
    {
      var randIdx := RandomInt(rng(k), 0, |pool| - 1);
      RemoveAt(pool, randIdx);
      var x := pool[randIdx];
      assert x !in picked;
      all := all + [x];
      picked := picked + [x];
      pool := pool[..randIdx] + pool[randIdx + 1..];
      k := k + 1;
      i := i + 1;
    }
    forall p, q | 0 <= p < q < |all| ensures all[p] != all[q] {
      if q >= |targets| && p < |targets| {
        assert all[q] in picked && all[p] in targets;
      }
    }
    numbers := Shuffle(all, rng, k);
    k := k + |all|;
    distractors := picked;
  }

  /** How a finished round is reported: all right, multiples tapped, multiples in all. */
  datatype TapResult = TapResult(allCorrect: bool, score: nat, total: nat)

  class SkipTapGame {
    const targets: seq<int>
    const numbers: seq<int>
    /** The non-multiples dealt into the grid. */
    ghost const distractors: seq<int>
    /** The multiples tapped so far; they are always the first ones, in order. */
    var tapped: set<int>
    var wrongTaps: set<int>
    var isComplete: bool

    ghost predicate Valid()
      reads this
    {
      Increasing(targets)
      && |tapped| <= |targets| && tapped == (set i | 0 <= i < |tapped| :: targets[i])
      && (forall x :: x in wrongTaps ==> x !in targets)
    }

    predicate AllTapped()
      reads this
    {
      forall t :: t in targets ==> t in tapped
    }

    /**
     * A new round: the multiples, and a grid that is a reordering of the
     * multiples and the dealt distractors, as `DealNumbers` describes; nothing
     * is tapped.
     */
    constructor (step: int, from: int, to: int, totalNumbers: int, rng: Stream, k: nat)
      requires step > 0 || from > to
      ensures targets == M.SkipSequence(from, to, step)
      ensures forall t :: t in targets ==> t in numbers
      ensures multiset(numbers) == multiset(targets + distractors) && Distinct(targets + distractors)
      ensures forall x :: x in distractors ==> 1 <= x <= to + 5 && x !in targets
      ensures var room := if totalNumbers - |targets| > 0 then totalNumbers - |targets| else 0;
              |distractors| <= room
              && (|distractors| < room ==> forall x :: 1 <= x <= to + 5 && x !in targets ==> x in distractors)
      ensures tapped == {} && wrongTaps == {} && !isComplete
      ensures Valid()
    {
      var ts := M.BuildSkipSequence(from, to, step);
      TargetsIncrease(from, to, step);
      var ns, ds, k' := DealNumbers(ts, totalNumbers, to, rng, k);
      targets := ts;
      numbers := ns;
      distractors := ds;
      tapped := {};
      wrongTaps := {};
      isComplete := false;
      new;
      forall t | t in ts ensures t in ns {
        assert t in multiset(ts + ds);
      }
    }

    /**
     * `finishGame`, at most once: the round is right when every multiple was
     * tapped and no distractor was; the score is the number of multiples
     * tapped.
     */
    method Finish() returns (result: Option<TapResult>)
      requires Valid()
      modifies this
      ensures Valid() && tapped == old(tapped) && wrongTaps == old(wrongTaps) && isComplete
      ensures old(isComplete) ==> result.None?
      ensures !old(isComplete) ==>
                result == Some(TapResult(AllTapped() && wrongTaps == {}, |tapped|, |targets|))
      ensures result.Some? ==> result.value.score <= result.value.total
      ensures result.Some? ==> (result.value.allCorrect <==> result.value.score == result.value.total && wrongTaps == {})
    {
      if isComplete {
        return None;
      }
      isComplete := true;
      var correctTaps := set n | n in tapped && n in targets;
      assert correctTaps == tapped;
      TappedAllIffCount();
      result := Some(TapResult(AllTapped() && wrongTaps == {}, |correctTaps|, |targets|));
    }

    /** All multiples are tapped exactly when as many were tapped as there are. */
    lemma TappedAllIffCount()
      requires Valid()
      ensures AllTapped() <==> |tapped| == |targets|
    {
      if |tapped| < |targets| {
        assert targets[|tapped|] !in tapped;
      }
    }

    /** The effect that ends the round as soon as every multiple is tapped. */
    method Settle() returns (result: Option<TapResult>)
      requires Valid()
      modifies this
      ensures Valid() && tapped == old(tapped) && wrongTaps == old(wrongTaps)
      ensures !old(isComplete) && AllTapped() ==>
                isComplete && result == Some(TapResult(wrongTaps == {}, |targets|, |targets|))
      ensures old(isComplete) || !AllTapped() ==> isComplete == old(isComplete) && result.None?
    {
      if !isComplete && forall t :: t in targets ==> t in tapped {
        TappedAllIffCount();
        result := Finish();
      } else {
        result := None;
      }
    }

    /**
     * `handleTap`: ignored once the round is over or the number is already
     * tapped; the next multiple in order is tapped, a number that is no
     * multiple is a wrong tap, a multiple out of order changes nothing.
     * Tapping the last multiple ends the round.
     */
    method HandleTap(num: int) returns (result: Option<TapResult>)
      requires Valid()
      modifies this
      ensures Valid()
      ensures old(isComplete) || num in old(tapped) ==>
                result.None? && tapped == old(tapped) && wrongTaps == old(wrongTaps) && isComplete == old(isComplete)
      ensures !old(isComplete) && num !in old(tapped) ==>
                var n := |old(tapped)|;
                var next := n < |targets| && num == targets[n];
                tapped == (if next then old(tapped) + {num} else old(tapped))
                && wrongTaps == (if !next && num !in targets then old(wrongTaps) + {num} else old(wrongTaps))
                && (AllTapped() ==> isComplete && result == Some(TapResult(wrongTaps == {}, |targets|, |targets|)))
                && (!AllTapped() ==> !isComplete && result.None?)
    {
      if isComplete || num in tapped {
        return None;
      }
      var n := |tapped|;
      if n < |targets| && num == targets[n] {
        assert num !in tapped;
        tapped := tapped + {num};
        assert tapped == (set i | 0 <= i < n + 1 :: targets[i]);
      } else if num !in targets {
        wrongTaps := wrongTaps + {num};
      }
      result := Settle();
    }

    /** The time limit ran out: the round ends with what was tapped. */
    method TimeUp() returns (result: Option<TapResult>)
      requires Valid()
      modifies this
      ensures Valid() && tapped == old(tapped) && wrongTaps == old(wrongTaps) && isComplete
      ensures old(isComplete) ==> result.None?
      ensures !old(isComplete) ==>
                result == Some(TapResult(AllTapped() && wrongTaps == {}, |tapped|, |targets|))
    {
      result := Finish();
    }
  }

  /**
   * Tapping the multiples in order, and nothing else, ends the round right
   * with full score; with no multiples the round ends right at once.
   */
  method TapInOrder(step: int, from: int, to: int, totalNumbers: int, rng: Stream, k: nat)
    returns (result: Option<TapResult>)
    requires step > 0
    ensures var n := |M.SkipSequence(from, to, step)|;
            result == Some(TapResult(true, n, n))
  {
    var g := new SkipTapGame(step, from, to, totalNumbers, rng, k);
    var ts := g.targets;
    if |ts| == 0 {
      result := g.Settle();
      return;
    }
    assert ts[0] in ts && ts[0] !in g.tapped;
    result := g.Settle();
    var j := 0;
    while j < |ts|
      invariant 0 <= j <= |ts| && g.Valid() && g.targets == ts && g.wrongTaps == {}
      invariant |g.tapped| == j
      invariant j < |ts| ==> !g.isComplete && result.None?
      invariant j == |ts| ==> result == Some(TapResult(true, |ts|, |ts|))
      modifies g
    {
      assert ts[j] !in g.tapped;
      result := g.HandleTap(ts[j]);
      if j + 1 < |ts| {
        assert ts[j + 1] !in g.tapped;
      }
      j := j + 1;
    }
  }
}
