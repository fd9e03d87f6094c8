/**
 * Randomness as an oracle. The application draws from `Math.random()`; the
 * model replaces it by an arbitrary stream of raw draws, so every statement
 * proved below holds whatever the random source returns.
 */
module Oracle {
  /** The k-th raw draw of the random source. */
  type Stream = nat -> nat

  /** Resolution of the model's `Math.random()`: 2^53, as in a double. */
  const Den: nat := 9007199254740992

  /** `Math.random()`: a number in [0, 1). */
  function Unit(raw: nat): (u: real)
    ensures 0.0 <= u < 1.0
  {
    (raw % Den) as real / Den as real
  }

  /**
   * `randomInt(min, max)` = `Math.floor(Math.random() * (max - min + 1)) + min`.
   * For `min <= max` it is some value of [min, max]; for an empty range the
   * formula still yields a number, one of [max + 1, min].
   */
  function RandomInt(raw: nat, lo: int, hi: int): (r: int)
    ensures lo <= hi ==> lo <= r <= hi
    ensures hi < lo ==> hi < r <= lo
  {
    if lo <= hi then lo + raw % (hi - lo + 1) else lo - raw % (lo - hi)
  }

  /** The oracle constrains nothing: every value of the range can be drawn. */
  lemma RandomIntReachesAll(lo: int, hi: int, v: int)
    requires lo <= v <= hi
    ensures RandomInt((v - lo) as nat, lo, hi) == v
  {
  }

  /**
   * A random reordering of `s` using draws `k, k+1, ...`: the model of both
   * `shuffle` and `arr.sort(() => Math.random() - 0.5)`. Only the fact that
   * the result is a permutation is relied on.
   */
  function Shuffle<T>(s: seq<T>, rng: Stream, k: nat): (r: seq<T>)
    ensures |r| == |s|
    ensures multiset(r) == multiset(s)
    decreases |s|
  {
    if |s| == 0 then []
    else
      var i := RandomInt(rng(k), 0, |s| - 1);
      var rest := s[..i] + s[i + 1..];
      assert s == s[..i] + [s[i]] + s[i + 1..];
      [s[i]] + Shuffle(rest, rng, k + 1)
  }

  /** Permutation in terms of elements: both directions of membership. */
  lemma ShuffleSameElements<T>(s: seq<T>, rng: Stream, k: nat, x: T)
    ensures x in Shuffle(s, rng, k) <==> x in s
  {
    var r := Shuffle(s, rng, k);
    assert x in r <==> x in multiset(r);
    assert x in s <==> x in multiset(s);
  }
}
