/**
 * The "sequential" branches of the generators: two nested ascending `for`
 * loops over `a` and `b` that skip the pairs a filter rejects. The method
 * `AscendingPairs` is proved equal to `Kept(Grid(...))`, and the lemmas say
 * what that enumeration is: exactly the accepted pairs of the rectangle, in
 * strictly ascending (a, b) order.
 */
module SequentialPairs {
  import opened Wrappers
  import opened JsNumbers
  import opened Curriculum

  /** The filters the sequential branches apply. */
  datatype PairFilter =
    | CarryFilter(sumMax: Option<int>, sumMin: Option<int>)
    | SubFilter(resultMin: Option<int>, resultMax: Option<int>)
    | BorrowFilter
    | FixedCarryFilter

  /** Does the sequential loop of the given generator emit (a, b)? */
  predicate Keeps(f: PairFilter, a: int, b: int) {
    match f
    // addition carry procedure: carry and not exactly 10; bounds read by truthiness
    case CarryFilter(sumMax, sumMin) =>
      a + b > 10
      && !(Truthy(sumMax) && a + b > sumMax.value)
      && !(Truthy(sumMin) && a + b < sumMin.value)
    // subtraction pairs: non-negative result; bounds checked against undefined
    case SubFilter(resultMin, resultMax) =>
      a - b >= 0
      && !(resultMin.Some? && a - b < resultMin.value)
      && !(resultMax.Some? && a - b > resultMax.value)
    // borrow procedure: non-negative, minuend at least 10, ones digit below subtrahend
    case BorrowFilter =>
      a - b >= 0 && a >= 10 && JsMod(a, 10) < b
    // the fixed carry set: the two digits make at least 10
    case FixedCarryFilter =>
      a + b >= 10
  }

  /** (a, bLo), ..., (a, bHi). */
  function Row(a: int, bLo: int, bHi: int): seq<(int, int)>
    decreases bHi - bLo
  {
    if bHi < bLo then [] else Row(a, bLo, bHi - 1) + [(a, bHi)]
  }

  /** The rows aLo..aHi, one after another. */
  function Grid(aLo: int, aHi: int, bLo: int, bHi: int): seq<(int, int)>
    decreases aHi - aLo
  {
    if aHi < aLo then [] else Grid(aLo, aHi - 1, bLo, bHi) + Row(aHi, bLo, bHi)
  }

  /** The pairs of `s` that `f` keeps, in their order. */
  function Kept(s: seq<(int, int)>, f: PairFilter): seq<(int, int)>
  {
    if s == [] then []
    else
      var p := s[|s| - 1];
      Kept(s[..|s| - 1], f) + (if Keeps(f, p.0, p.1) then [p] else [])
  }

  lemma KeptSnoc(s: seq<(int, int)>, p: (int, int), f: PairFilter)
    ensures Kept(s + [p], f) == Kept(s, f) + (if Keeps(f, p.0, p.1) then [p] else [])
  {
    assert (s + [p])[..|s|] == s;
  }

  /** Filtering distributes over concatenation. */
  lemma {:induction false} KeptAppend(s: seq<(int, int)>, t: seq<(int, int)>, f: PairFilter)
    ensures Kept(s + t, f) == Kept(s, f) + Kept(t, f)
    decreases |t|
  {
    if t == [] {
      assert s + t == s;
    } else {
      var t', p := t[..|t| - 1], t[|t| - 1];
      SplitLast(s, t);
      KeptAppend(s, t', f);
      KeptSnoc(s + t', p, f);
      KeptSnoc(t', p, f);
    }
  }

  lemma SplitLast(s: seq<(int, int)>, t: seq<(int, int)>)
    requires t != []
    ensures t == t[..|t| - 1] + [t[|t| - 1]]
    ensures s + t == (s + t[..|t| - 1]) + [t[|t| - 1]]
  {
  }

  /** The nested loops of the sequential branches. */
  method AscendingPairs(aLo: int, aHi: int, bLo: int, bHi: int, f: PairFilter)
    returns (ps: seq<(int, int)>)
    ensures ps == Kept(Grid(aLo, aHi, bLo, bHi), f)
  {
    ps := [];
    var a := aLo;
    while a <= aHi
      invariant aLo <= a && (a <= aHi + 1 || a == aLo)
      invariant ps == Kept(Grid(aLo, a - 1, bLo, bHi), f)
      decreases aHi - a
    {
      var row := ScanRow(a, bLo, bHi, f);
      KeptAppend(Grid(aLo, a - 1, bLo, bHi), Row(a, bLo, bHi), f);
      ps := ps + row;
      a := a + 1;
    }
  }

  lemma KeptRowStep(a: int, bLo: int, b: int, f: PairFilter)
    requires bLo <= b
    ensures Kept(Row(a, bLo, b), f) == Kept(Row(a, bLo, b - 1), f) + (if Keeps(f, a, b) then [(a, b)] else [])
  {
    KeptSnoc(Row(a, bLo, b - 1), (a, b), f);
  }

  /** The inner loop: the kept pairs of one row. */
  method ScanRow(a: int, bLo: int, bHi: int, f: PairFilter) returns (ps: seq<(int, int)>)
    ensures ps == Kept(Row(a, bLo, bHi), f)
  {
    ps := [];
    var b := bLo;
    while b <= bHi
      invariant bLo <= b && (b <= bHi + 1 || b == bLo)
      invariant ps == Kept(Row(a, bLo, b - 1), f)
      decreases bHi - b
    {
      KeptRowStep(a, bLo, b, f);
      if Keeps(f, a, b) {
        ps := ps + [(a, b)];
      }
      b := b + 1;
    }
  }

  lemma {:induction false} RowMember(a: int, bLo: int, bHi: int, p: (int, int))
    ensures p in Row(a, bLo, bHi) <==> p.0 == a && bLo <= p.1 <= bHi
    decreases bHi - bLo
  {
    if bLo <= bHi {
      RowMember(a, bLo, bHi - 1, p);
    }
  }

  /** The grid holds exactly the pairs of the rectangle. */
  lemma {:induction false} GridMember(aLo: int, aHi: int, bLo: int, bHi: int, p: (int, int))
    ensures p in Grid(aLo, aHi, bLo, bHi) <==> aLo <= p.0 <= aHi && bLo <= p.1 <= bHi
    decreases aHi - aLo
  {
    if aLo <= aHi {
      GridMember(aLo, aHi - 1, bLo, bHi, p);
      RowMember(aHi, bLo, bHi, p);
    }
  }

  /** Filtering keeps exactly the members the filter accepts. */
  lemma {:induction false} KeptMember(s: seq<(int, int)>, f: PairFilter, p: (int, int))
    ensures p in Kept(s, f) <==> p in s && Keeps(f, p.0, p.1)
  {
    if s != [] {
      KeptMember(s[..|s| - 1], f, p);
      assert s == s[..|s| - 1] + [s[|s| - 1]];
    }
  }

  /** Strict (a, b) order. */
  predicate LexLess(p: (int, int), q: (int, int)) {
    p.0 < q.0 || (p.0 == q.0 && p.1 < q.1)
  }

  predicate Ascending(s: seq<(int, int)>) {
    forall i, j :: 0 <= i < j < |s| ==> LexLess(s[i], s[j])
  }

  lemma {:induction false} RowAscending(a: int, bLo: int, bHi: int)
    ensures Ascending(Row(a, bLo, bHi))
    ensures forall p :: p in Row(a, bLo, bHi) ==> p.0 == a && p.1 <= bHi
    decreases bHi - bLo
  {
    if bLo <= bHi {
      RowAscending(a, bLo, bHi - 1);
      var r := Row(a, bLo, bHi - 1);
      assert forall i :: 0 <= i < |r| ==> r[i] in r;
    }
  }

  lemma {:induction false} GridAscending(aLo: int, aHi: int, bLo: int, bHi: int)
    ensures Ascending(Grid(aLo, aHi, bLo, bHi))
    ensures forall p :: p in Grid(aLo, aHi, bLo, bHi) ==> p.0 <= aHi
    decreases aHi - aLo
  {
    if aLo <= aHi {
      GridAscending(aLo, aHi - 1, bLo, bHi);
      RowAscending(aHi, bLo, bHi);
      var g, r := Grid(aLo, aHi - 1, bLo, bHi), Row(aHi, bLo, bHi);
      assert forall i :: 0 <= i < |g| ==> g[i] in g;
      assert forall i :: 0 <= i < |r| ==> r[i] in r;
    }
  }

  lemma {:induction false} KeptAscending(s: seq<(int, int)>, f: PairFilter)
    requires Ascending(s)
    ensures Ascending(Kept(s, f))
  {
    if s != [] {
      var init := s[..|s| - 1];
      KeptAscending(init, f);
      var k := Kept(init, f);
      forall i | 0 <= i < |k| ensures LexLess(k[i], s[|s| - 1]) {
        KeptMember(init, f, k[i]);
        var j :| 0 <= j < |init| && init[j] == k[i];
      }
    }
  }

  /**
   * The sequential enumeration is complete, sound and ordered: a pair occurs
   * iff it lies in the rectangle and passes the filter, and the pairs are in
   * strictly ascending (a, b) order (so each occurs once).
   */
  lemma SequentialEnumeration(aLo: int, aHi: int, bLo: int, bHi: int, f: PairFilter, p: (int, int))
    ensures p in Kept(Grid(aLo, aHi, bLo, bHi), f) <==>
              aLo <= p.0 <= aHi && bLo <= p.1 <= bHi && Keeps(f, p.0, p.1)
    ensures Ascending(Kept(Grid(aLo, aHi, bLo, bHi), f))
  {
    KeptMember(Grid(aLo, aHi, bLo, bHi), f, p);
    GridMember(aLo, aHi, bLo, bHi, p);
    GridAscending(aLo, aHi, bLo, bHi);
    KeptAscending(Grid(aLo, aHi, bLo, bHi), f);
  }

  lemma {:induction false} GridPrefix(aLo: int, a: int, aHi: int, bLo: int, bHi: int)
    requires a <= aHi
    ensures Grid(aLo, a, bLo, bHi) <= Grid(aLo, aHi, bLo, bHi)
    decreases aHi - a
  {
    if a < aHi {
      GridPrefix(aLo, a, aHi - 1, bLo, bHi);
    }
  }

  lemma {:induction false} RowLength(a: int, bLo: int, bHi: int)
    ensures |Row(a, bLo, bHi)| == (if bLo <= bHi then bHi - bLo + 1 else 0)
    decreases bHi - bLo
  {
    if bLo <= bHi {
      RowLength(a, bLo, bHi - 1);
    }
  }

  /** The rectangle has (rows) * (columns) pairs. */
  lemma {:induction false} GridLength(aLo: int, aHi: int, bLo: int, bHi: int)
    ensures |Grid(aLo, aHi, bLo, bHi)| ==
              (if aLo <= aHi then aHi - aLo + 1 else 0) * (if bLo <= bHi then bHi - bLo + 1 else 0)
    decreases aHi - aLo
  {
    RowLength(aHi, bLo, bHi);
    if aLo <= aHi {
      GridLength(aLo, aHi - 1, bLo, bHi);
    }
  }

  /** Column x of row a is (a, bLo + x). */
  lemma {:induction false} RowAt(a: int, bLo: int, bHi: int, x: int)
    requires 0 <= x <= bHi - bLo
    ensures |Row(a, bLo, bHi)| == bHi - bLo + 1 && Row(a, bLo, bHi)[x] == (a, bLo + x)
    decreases bHi - bLo
  {
    RowLength(a, bLo, bHi);
    if x < bHi - bLo {
      RowAt(a, bLo, bHi - 1, x);
    }
  }

  /**
   * The nested loops visit (a, bLo + x) right after the rows before `a`
   * and the first x columns of row `a`; row `a` ends `width` further on.
   */
  lemma GridAt(aLo: int, aHi: int, bLo: int, bHi: int, a: int, x: int)
    requires aLo <= a <= aHi && 0 <= x <= bHi - bLo
    ensures var before := |Grid(aLo, a - 1, bLo, bHi)|;
            before + x < |Grid(aLo, aHi, bLo, bHi)|
            && Grid(aLo, aHi, bLo, bHi)[before + x] == (a, bLo + x)
            && |Grid(aLo, a, bLo, bHi)| == before + (bHi - bLo + 1)
  {
    var g, row := Grid(aLo, a - 1, bLo, bHi), Row(a, bLo, bHi);
    RowAt(a, bLo, bHi, x);
    GridPrefix(aLo, a, aHi, bLo, bHi);
    assert Grid(aLo, a, bLo, bHi) == g + row;
    assert (g + row)[|g| + x] == (a, bLo + x);
  }

  lemma HeadIn(s: seq<(int, int)>)
    requires s != []
    ensures s[0] in s
  {
  }

  /** An ascending list starts with its least element. */
  lemma AscendingHead(s: seq<(int, int)>, p: (int, int))
    requires Ascending(s) && p in s
    ensures s[0] == p || LexLess(s[0], p)
  {
    var i :| 0 <= i < |s| && s[i] == p;
    if i > 0 {
      assert LexLess(s[0], s[i]);
    }
  }

  /** The tail of an ascending list holds everything but its head. */
  lemma AscendingTail(s: seq<(int, int)>, p: (int, int))
    requires Ascending(s) && s != []
    ensures p in s[1..] <==> p in s && p != s[0]
  {
    assert s == [s[0]] + s[1..];
    if p in s[1..] {
      var i :| 0 <= i < |s[1..]| && s[1..][i] == p;
      assert LexLess(s[0], s[i + 1]);
    }
  }

  /** A strictly ascending list is determined by the pairs it holds. */
  lemma {:induction false} AscendingUnique(s: seq<(int, int)>, t: seq<(int, int)>)
    requires Ascending(s) && Ascending(t)
    requires forall p :: p in s <==> p in t
    ensures s == t
    decreases |s|
  {
    if s != [] && t != [] {
      AscendingHead(s, t[0]);
      AscendingHead(t, s[0]);
      forall p
        ensures p in s[1..] <==> p in t[1..]
      {
        AscendingTail(s, p);
        AscendingTail(t, p);
      }
      AscendingUnique(s[1..], t[1..]);
      assert s == [s[0]] + s[1..] && t == [t[0]] + t[1..];
    } else if s != [] {
      HeadIn(s);
      assert false;
    } else if t != [] {
      HeadIn(t);
      assert false;
    }
  }
}
