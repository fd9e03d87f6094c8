/**
 * The written-calculation generators: place-value drills for two and
 * three digits, the layout drills for the column form, column addition,
 * the carry-mark drill and the check-by-subtraction drill.
 */
module WrittenGenerators {
  import opened Wrappers
  import opened JsNumbers
  import opened Oracle
  import opened Curriculum

  // ---------------------------------------------------------------- two-digit place value

  /** The tens digit `Math.floor(num / 10)` and the ones digit `num % 10`. */
  function Tens(num: int): int { num / 10 }
  function Ones(num: int): int { JsMod(num, 10) }

  function PlaceValue2Question(num: int, i: nat, now: int): Question {
    Question("pv_2d_" + IntToString(num) + "_" + IntToString(i) + "_" + IntToString(now), IntToString(num),
             IntToString(Tens(num)) + "," + IntToString(Ones(num)), PlaceValueQ,
             PlaceValue2(num, Tens(num), Ones(num)), false)
  }

  /** The tens digit last drawn and how many draws in a row have had it. */
  datatype Streak = Streak(lastTens: int, tensStreak: int)

  /**
   * The streak bookkeeping of one pass of the drawing loop, and whether
   * the pass reaches `attempts++`: a third (or later) draw in a row with
   * the same tens digit skips straight to the loop condition.
   */
  function StreakStep(st: Streak, num: int): (Streak, bool) {
    if Tens(num) == st.lastTens then
      var st' := Streak(st.lastTens, st.tensStreak + 1);
      (st', st'.tensStreak < 3)
    else (Streak(Tens(num), 1), true)
  }

  /**
   * The `do ... while (usedNumbers.has(num) && attempts < 50)` loop for one
   * question: the number it settles on, the streak after it and the next
   * draw, or None when it needs more than `fuel` draws.
   */
  function DrawUnused(range: Range, used: set<int>, st: Streak, attempts: int, rng: Stream, k: nat, fuel: nat)
    : Option<(int, Streak, nat)>
    decreases fuel
  {
    if fuel == 0 then None
    else
      var num := RandomInt(rng(k), range.lo, range.hi);
      var (st', counted) := StreakStep(st, num);
      var attempts' := if counted then attempts + 1 else attempts;
      if num in used && attempts' < 50 then DrawUnused(range, used, st', attempts', rng, k + 1, fuel - 1)
      else Some((num, st', k + 1))
  }

  /** Questions `i..count-1` of a run, or None if one of them needs more than `fuel` draws. */
  function PlaceValue2Run(range: Range, i: nat, count: nat, used: set<int>, st: Streak, rng: Stream, k: nat,
                          now: int, fuel: nat): Option<seq<Question>>
    decreases count - i
  {
    if i >= count then Some([])
    else match DrawUnused(range, used, st, 0, rng, k, fuel)
      case None => None
      case Some((num, st', k')) =>
        var rest := PlaceValue2Run(range, i + 1, count, used + {num}, st', rng, k', now, fuel);
        if rest.None? then None else Some([PlaceValue2Question(num, i, now)] + rest.value)
  }

  /** `prefix` followed by `rest`, failing when `rest` fails. */
  function Prepend(prefix: seq<Question>, rest: Option<seq<Question>>): Option<seq<Question>> {
    if rest.None? then None else Some(prefix + rest.value)
  }

  /** One question's drawing loop, at most `fuel` draws. */
  method DrawPlaceValue2(range: Range, used: set<int>, st0: Streak, rng: Stream, k0: nat, fuel: nat)
    returns (r: Option<(int, Streak, nat)>)
    ensures r == DrawUnused(range, used, st0, 0, rng, k0, fuel)
    ensures r.Some? ==> r.value.2 > k0
  {
    var attempts := 0;
    var st := st0;
    var k: nat := k0;
    var left: nat := fuel;
    while true
      invariant k == k0 + (fuel - left) && left <= fuel
      invariant DrawUnused(range, used, st, attempts, rng, k, left) == DrawUnused(range, used, st0, 0, rng, k0, fuel)
      decreases left
    {
      if left == 0 {
        return None;
      }
      var num := RandomInt(rng(k), range.lo, range.hi);
      var counted: bool;
      st, counted := StreakStep(st, num).0, StreakStep(st, num).1;
      if counted {
        attempts := attempts + 1;
      }
      k, left := k + 1, left - 1;
      if !(num in used && attempts < 50) {
        return Some((num, st, k));
      }
    }
  }

  /** One question of the run, as the generator's loop takes it. */
  lemma RunStep(range: Range, i: nat, count: nat, used: set<int>, st: Streak, rng: Stream, k: nat, now: int,
                fuel: nat, qs: seq<Question>)
    requires i < count
    ensures var r := DrawUnused(range, used, st, 0, rng, k, fuel);
            var prev := Prepend(qs, PlaceValue2Run(range, i, count, used, st, rng, k, now, fuel));
            (r.None? ==> prev.None?)
            && (r.Some? ==> prev == Prepend(qs + [PlaceValue2Question(r.value.0, i, now)],
                                            PlaceValue2Run(range, i + 1, count, used + {r.value.0}, r.value.1, rng,
                                                           r.value.2, now, fuel)))
  {
    var r := DrawUnused(range, used, st, 0, rng, k, fuel);
    if r.Some? {
      var rest := PlaceValue2Run(range, i + 1, count, used + {r.value.0}, r.value.1, rng, r.value.2, now, fuel);
      if rest.Some? {
        assert qs + ([PlaceValue2Question(r.value.0, i, now)] + rest.value)
               == (qs + [PlaceValue2Question(r.value.0, i, now)]) + rest.value;
      }
    }
  }

  /**
   * The two-digit place-value generator: `count` questions, or `hung` when
   * some question's drawing loop needs more than `fuel` draws (the source
   * can loop for ever there).
   */
  method GeneratePlaceValue2D(range: Range, count: nat, rng: Stream, k0: nat, now: int, fuel: nat)
    returns (qs: seq<Question>, hung: bool, k: nat)
    ensures hung <==> PlaceValue2Run(range, 0, count, {}, Streak(-1, 0), rng, k0, now, fuel).None?
    ensures k0 <= k
    ensures !hung ==> Some(qs) == PlaceValue2Run(range, 0, count, {}, Streak(-1, 0), rng, k0, now, fuel)
  {
    var used: set<int> := {};
    var st := Streak(-1, 0);
    k := k0;
    qs := [];
    var i := 0;
    ghost var run := PlaceValue2Run(range, 0, count, {}, Streak(-1, 0), rng, k0, now, fuel);
    if run.Some? {
      assert [] + run.value == run.value;
    }
    while i < count
      invariant i <= count
      invariant Prepend(qs, PlaceValue2Run(range, i, count, used, st, rng, k, now, fuel)) == run
      invariant k0 <= k
    {
      RunStep(range, i, count, used, st, rng, k, now, fuel, qs);
      var r := DrawPlaceValue2(range, used, st, rng, k, fuel);
      if r.None? {
        return qs, true, k;
      }
      var num := r.value.0;
      used := used + {num};
      st, k := r.value.1, r.value.2;
      qs := qs + [PlaceValue2Question(num, i, now)];
      i := i + 1;
    }
    assert qs + [] == qs;
    hung := false;
  }

  /** The answer "tens,ones" splits a non-negative number: `10 * tens + ones == num`. */
  lemma PlaceValue2Digits(num: int, i: nat, now: int)
    requires num >= 0
    ensures var q := PlaceValue2Question(num, i, now);
            q.meta.PlaceValue2? && 10 * q.meta.pv2Tens + q.meta.pv2Ones == num && 0 <= q.meta.pv2Ones <= 9
            && q.answer == IntToString(q.meta.pv2Tens) + "," + IntToString(q.meta.pv2Ones)
            && (10 <= num <= 99 ==> 1 <= q.meta.pv2Tens <= 9)
  {
  }

  /** Each question asks for the digits of a number of the range, numbered on from `i`. */
  predicate PlaceValue2Shaped(qs: seq<Question>, range: Range, i: nat, now: int) {
    forall j :: 0 <= j < |qs| ==> PlaceValue2At(qs[j], range, i + j, now)
  }

  /** One question asking for the digits of a number of the range, as question `n`. */
  predicate PlaceValue2At(q: Question, range: Range, n: nat, now: int) {
    q.meta.PlaceValue2? && Within(q.meta.pv2Number, range) && q == PlaceValue2Question(q.meta.pv2Number, n, now)
  }

  /** Every question of a completed run asks for the digits of a number the range can give. */
  lemma {:induction false} PlaceValue2RunFacts(range: Range, i: nat, count: nat, used: set<int>, st: Streak,
                                               rng: Stream, k: nat, now: int, fuel: nat)
    requires PlaceValue2Run(range, i, count, used, st, rng, k, now, fuel).Some?
    ensures var qs := PlaceValue2Run(range, i, count, used, st, rng, k, now, fuel).value;
            |qs| == (if i <= count then count - i else 0) && PlaceValue2Shaped(qs, range, i, now)
    decreases count - i
  {
    if i < count {
      var (num, st', k') := DrawUnused(range, used, st, 0, rng, k, fuel).value;
      DrawUnusedWithin(range, used, st, 0, rng, k, fuel);
      PlaceValue2RunFacts(range, i + 1, count, used + {num}, st', rng, k', now, fuel);
      var rest := PlaceValue2Run(range, i + 1, count, used + {num}, st', rng, k', now, fuel).value;
      PlaceValue2Cons(num, rest, range, i, now);
    }
  }

  /** Putting a question for a number of the range in front of a well-shaped rest keeps the shape. */
  lemma PlaceValue2Cons(num: int, rest: seq<Question>, range: Range, i: nat, now: int)
    requires Within(num, range) && PlaceValue2Shaped(rest, range, i + 1, now)
    ensures PlaceValue2Shaped([PlaceValue2Question(num, i, now)] + rest, range, i, now)
  {
    var qs := [PlaceValue2Question(num, i, now)] + rest;
    forall j | 0 <= j < |qs| ensures PlaceValue2At(qs[j], range, i + j, now) {
      if j == 0 {
        PlaceValue2AtOf(num, range, i, now);
      } else {
        PlaceValue2Tail(PlaceValue2Question(num, i, now), rest, range, i, now, j);
      }
    }
  }

  /** Behind a new head, the entries of a well-shaped rest keep their shape, one place further on. */
  lemma PlaceValue2Tail(q: Question, rest: seq<Question>, range: Range, i: nat, now: int, j: nat)
    requires PlaceValue2Shaped(rest, range, i + 1, now) && 1 <= j <= |rest|
    ensures PlaceValue2At(([q] + rest)[j], range, i + j, now)
  {
    var k := j - 1;
    assert (i + 1) + k == i + j;
    assert ([q] + rest)[j] == rest[k] && PlaceValue2At(rest[k], range, (i + 1) + k, now);
  }

  /** The question built for a number of the range has the shape of question `i`. */
  lemma PlaceValue2AtOf(num: int, range: Range, i: nat, now: int)
    requires Within(num, range)
    ensures PlaceValue2At(PlaceValue2Question(num, i, now), range, i, now)
  {
    assert PlaceValue2Question(num, i, now).meta.pv2Number == num;
  }

  lemma {:induction false} DrawUnusedWithin(range: Range, used: set<int>, st: Streak, attempts: int, rng: Stream,
                                            k: nat, fuel: nat)
    requires DrawUnused(range, used, st, attempts, rng, k, fuel).Some?
    ensures Within(DrawUnused(range, used, st, attempts, rng, k, fuel).value.0, range)
    decreases fuel
  {
    var num := RandomInt(rng(k), range.lo, range.hi);
    var (st', counted) := StreakStep(st, num);
    var attempts' := if counted then attempts + 1 else attempts;
    if num in used && attempts' < 50 {
      DrawUnusedWithin(range, used, st', attempts', rng, k + 1, fuel - 1);
    }
  }

  /**
   * Once the same tens digit has come up twice in a row and the only
   * number of the range is used, the skipped `attempts++` means the
   * drawing loop never ends, whatever the fuel.
   */
  lemma {:induction false} StuckDraw(used: set<int>, st: Streak, attempts: int, rng: Stream, k: nat, fuel: nat)
    requires 40 in used && st.lastTens == 4 && st.tensStreak >= 2 && attempts < 50
    ensures DrawUnused(Range(40, 40), used, st, attempts, rng, k, fuel).None?
    decreases fuel
  {
    if fuel > 0 {
      var num := RandomInt(rng(k), 40, 40);
      assert num == 40 && Tens(num) == 4;
      StuckDraw(used, Streak(4, st.tensStreak + 1), attempts, rng, k + 1, fuel - 1);
    }
  }

  /** With range [40, 40] the second question never gets a number: the generator hangs. */
  lemma PlaceValue2Hangs(rng: Stream, k: nat, now: int, fuel: nat)
    ensures PlaceValue2Run(Range(40, 40), 0, 2, {}, Streak(-1, 0), rng, k, now, fuel).None?
  {
    var r := Range(40, 40);
    if fuel > 0 {
      assert RandomInt(rng(k), 40, 40) == 40;
      assert DrawUnused(r, {}, Streak(-1, 0), 0, rng, k, fuel) == Some((40, Streak(4, 1), k + 1));
      assert RandomInt(rng(k + 1), 40, 40) == 40;
      StuckDraw({40}, Streak(4, 2), 1, rng, k + 2, fuel - 1);
      assert DrawUnused(r, {40}, Streak(4, 1), 0, rng, k + 1, fuel).None?;
      assert {} + {40} == {40};
      assert PlaceValue2Run(r, 1, 2, {40}, Streak(4, 1), rng, k + 1, now, fuel).None?;
    }
  }

  /**
   * The streak guard does not keep a tens digit from coming up three
   * times in a row: draws 40, 41, 42 give three questions in the forties.
   */
  lemma PlaceValue2ThirdTens(rng: Stream, k: nat, now: int, fuel: nat)
    requires fuel >= 1
    requires RandomInt(rng(k), 40, 49) == 40 && RandomInt(rng(k + 1), 40, 49) == 41
    requires RandomInt(rng(k + 2), 40, 49) == 42
    ensures PlaceValue2Run(Range(40, 49), 0, 3, {}, Streak(-1, 0), rng, k, now, fuel)
            == Some([PlaceValue2Question(40, 0, now), PlaceValue2Question(41, 1, now), PlaceValue2Question(42, 2, now)])
  {
    var r := Range(40, 49);
    var q0, q1, q2 := PlaceValue2Question(40, 0, now), PlaceValue2Question(41, 1, now), PlaceValue2Question(42, 2, now);
    assert DrawUnused(r, {}, Streak(-1, 0), 0, rng, k, fuel) == Some((40, Streak(4, 1), k + 1));
    assert DrawUnused(r, {40}, Streak(4, 1), 0, rng, k + 1, fuel) == Some((41, Streak(4, 2), k + 2));
    assert DrawUnused(r, {40, 41}, Streak(4, 2), 0, rng, k + 2, fuel) == Some((42, Streak(4, 3), k + 3));
    assert {} + {40} == {40} && {40} + {41} == {40, 41} && {40, 41} + {42} == {40, 41, 42};
    assert PlaceValue2Run(r, 3, 3, {40, 41, 42}, Streak(4, 3), rng, k + 3, now, fuel) == Some([]);
    assert [q2] + [] == [q2] && [q1] + [q2] == [q1, q2] && [q0] + [q1, q2] == [q0, q1, q2];
    assert PlaceValue2Run(r, 2, 3, {40, 41}, Streak(4, 2), rng, k + 2, now, fuel) == Some([q2]);
    assert PlaceValue2Run(r, 1, 3, {40}, Streak(4, 1), rng, k + 1, now, fuel) == Some([q1, q2]);
  }

  // ---------------------------------------------------------------- three-digit place value

  function Hundreds(num: int): int { num / 100 }
  function MiddleTens(num: int): int { JsMod(num, 100) / 10 }

  function PlaceValue3Question(num: int, i: nat, now: int): Question {
    Question("pv_3d_" + IntToString(num) + "_" + IntToString(i) + "_" + IntToString(now), IntToString(num),
             IntToString(Hundreds(num)) + "," + IntToString(MiddleTens(num)) + "," + IntToString(Ones(num)),
             PlaceValueQ,
             PlaceValue3(num, Hundreds(num), MiddleTens(num), Ones(num), MiddleTens(num) == 0), false)
  }

  /** A number `h * 100 + o` made by the zero-middle injection. */
  predicate ZeroMiddle(num: int) {
    1 <= num / 100 <= 9 && 0 <= num % 100 <= 9
  }

  predicate PlaceValue3Ok(q: Question, num: int, i: nat, now: int, range: Range, includeZeroMiddle: bool) {
    (Within(num, range) || (includeZeroMiddle && ZeroMiddle(num))) && q == PlaceValue3Question(num, i, now)
  }

  predicate AllPlaceValue3Ok(qs: seq<Question>, nums: seq<int>, now: int, range: Range, includeZeroMiddle: bool) {
    |qs| == |nums| && forall j :: 0 <= j < |qs| ==> PlaceValue3Ok(qs[j], nums[j], j, now, range, includeZeroMiddle)
  }

  lemma PlaceValue3Snoc(qs: seq<Question>, nums: seq<int>, now: int, range: Range, includeZeroMiddle: bool, num: int)
    requires AllPlaceValue3Ok(qs, nums, now, range, includeZeroMiddle)
    requires Within(num, range) || (includeZeroMiddle && ZeroMiddle(num))
    ensures AllPlaceValue3Ok(qs + [PlaceValue3Question(num, |qs|, now)], nums + [num], now, range, includeZeroMiddle)
  {
    var qs', nums' := qs + [PlaceValue3Question(num, |qs|, now)], nums + [num];
    forall j | 0 <= j < |qs'| ensures PlaceValue3Ok(qs'[j], nums'[j], j, now, range, includeZeroMiddle) {
      if j < |qs| {
        assert qs'[j] == qs[j] && nums'[j] == nums[j];
      }
    }
  }

  /** One question's drawing loop (at most 50 passes, each counted). */
  method DrawPlaceValue3(range: Range, includeZeroMiddle: bool, used: set<int>, rng: Stream, k0: nat)
    returns (num: int, k: nat)
    ensures Within(num, range) || (includeZeroMiddle && ZeroMiddle(num))
    ensures k0 < k
  {
    var attempts := 0;
    k := k0;
    // a placeholder inside the range and not a draw: the first pass draws the number
    num := range.lo;
    while true
      invariant 0 <= attempts <= 50 && k0 <= k
      invariant Within(num, range) || (includeZeroMiddle && ZeroMiddle(num))
      decreases 50 - attempts
    {
      num := RandomInt(rng(k), range.lo, range.hi);
      k := k + 1;
      if includeZeroMiddle {
        var u := Unit(rng(k));
        k := k + 1;
        if u < 0.3 && attempts < 20 {
          var h := RandomInt(rng(k), 1, 9);
          var o := RandomInt(rng(k + 1), 0, 9);
          k := k + 2;
          num := h * 100 + o;
          assert num / 100 == h && num % 100 == o;
        }
      }
      attempts := attempts + 1;
      if !(num in used && attempts < 50) {
        return;
      }
    }
  }

  /** Exactly `count` three-digit place-value questions. */
  method GeneratePlaceValue3D(range: Range, includeZeroMiddle: bool, count: nat, rng: Stream, k0: nat, now: int)
    returns (qs: seq<Question>, k: nat, ghost nums: seq<int>)
    ensures |qs| == count && |nums| == count && k0 <= k
    ensures forall i :: 0 <= i < count ==> PlaceValue3Ok(qs[i], nums[i], i, now, range, includeZeroMiddle)
  {
    var used: set<int> := {};
    qs, k, nums := [], k0, [];
    var i := 0;
    while i < count
      invariant i <= count && |qs| == i && k0 <= k
      invariant AllPlaceValue3Ok(qs, nums, now, range, includeZeroMiddle)
    {
      var num;
      num, k := DrawPlaceValue3(range, includeZeroMiddle, used, rng, k);
      PlaceValue3Snoc(qs, nums, now, range, includeZeroMiddle, num);
      used := used + {num};
      qs := qs + [PlaceValue3Question(num, i, now)];
      nums := nums + [num];
      i := i + 1;
    }
  }

  /**
   * The answer "h,t,o" splits a non-negative number: `100h + 10t + o == num`,
   * and `hasZeroMiddle` holds exactly when the tens digit is 0.
   */
  lemma PlaceValue3Digits(num: int, i: nat, now: int)
    requires num >= 0
    ensures var q := PlaceValue3Question(num, i, now);
            q.meta.PlaceValue3?
            && 100 * q.meta.pv3Hundreds + 10 * q.meta.pv3Tens + q.meta.pv3Ones == num
            && 0 <= q.meta.pv3Tens <= 9 && 0 <= q.meta.pv3Ones <= 9
            && (q.meta.hasZeroMiddle <==> q.meta.pv3Tens == 0)
            && (100 <= num <= 999 ==> 1 <= q.meta.pv3Hundreds <= 9)
  {
  }

  /** The injected numbers `h * 100 + o` all have a zero tens digit: "h,0,o". */
  lemma ZeroMiddleAnswer(h: int, o: int, i: nat, now: int)
    requires 1 <= h <= 9 && 0 <= o <= 9
    ensures var q := PlaceValue3Question(h * 100 + o, i, now);
            q.answer == IntToString(h) + ",0," + IntToString(o) && q.meta.hasZeroMiddle
  {
    assert Hundreds(h * 100 + o) == h && MiddleTens(h * 100 + o) == 0 && Ones(h * 100 + o) == o;
  }

  /** 47 reads "4,7"; 405 reads "4,0,5" and has a zero middle. */
  lemma PlaceValueExamples(i: nat, now: int)
    ensures PlaceValue2Question(47, i, now).answer == "4,7"
    ensures PlaceValue3Question(405, i, now).answer == "4,0,5"
    ensures PlaceValue3Question(405, i, now).meta.hasZeroMiddle
  {
    assert IntToString(4) == "4" && IntToString(7) == "7" && IntToString(0) == "0" && IntToString(5) == "5";
  }

  // ---------------------------------------------------------------- layout drills

  function FormFillQuestion(a: int, b: int, format: FillFormat, i: nat, now: int): Question {
    Question("wf_fill_" + IntToString(a) + "_" + IntToString(b) + "_" + IntToString(i) + "_" + IntToString(now),
             Infix(a, "+", b), if a < 10 then "ones" else "tens", WrittenFormFillQ,
             FormFillInfo(format, a, b, IntToString(a), IntToString(b)), false)
  }

  predicate FormFillOk(q: Question, ab: (int, int), i: nat, now: int, aRange: Range, bRange: Range, format: FillFormat) {
    Within(ab.0, aRange) && Within(ab.1, bRange) && q == FormFillQuestion(ab.0, ab.1, format, i, now)
  }

  /** Exactly `count` fill questions; a one-digit top number is aligned to the ones column. */
  method GenerateWrittenFormFill(aRange: Range, bRange: Range, format: FillFormat, count: nat, rng: Stream, k0: nat, now: int)
    returns (qs: seq<Question>, k: nat, ghost pairs: seq<(int, int)>)
    ensures |qs| == count && |pairs| == count && k == k0 + 2 * count
    ensures forall i :: 0 <= i < count ==> FormFillOk(qs[i], pairs[i], i, now, aRange, bRange, format)
  {
    qs, k, pairs := [], k0, [];
    var i := 0;
    while i < count
      invariant i <= count && |qs| == i && |pairs| == i && k == k0 + 2 * i
      invariant forall j :: 0 <= j < i ==> FormFillOk(qs[j], pairs[j], j, now, aRange, bRange, format)
    {
      var a := RandomInt(rng(k), aRange.lo, aRange.hi);
      var b := RandomInt(rng(k + 1), bRange.lo, bRange.hi);
      qs := qs + [FormFillQuestion(a, b, format, i, now)];
      pairs := pairs + [(a, b)];
      i, k := i + 1, k + 2;
    }
  }

  /** The error layouts to pick from: the given list (even an empty one), else the three shifts. */
  function ErrorLayouts(errorTypes: Option<seq<Layout>>): seq<Layout> {
    if errorTypes.Some? then errorTypes.value else [RightShift, LeftShift, BlankShift]
  }

  /** `errorTypes[randomInt(0, length - 1)]`; indexing an empty list gives `undefined`. */
  function PickLayout(layouts: seq<Layout>, raw: nat): (l: Layout)
    ensures |layouts| > 0 ==> l in layouts
    ensures |layouts| == 0 ==> l == UndefinedLayout
  {
    var idx := RandomInt(raw, 0, |layouts| - 1);
    if |layouts| == 0 then UndefinedLayout else layouts[idx]
  }

  /** A drawn error layout: `undefined` from an empty list, else one of the list. */
  predicate DrawnLayout(l: Layout, layouts: seq<Layout>) {
    (|layouts| == 0 ==> l == UndefinedLayout) && (|layouts| > 0 ==> l in layouts)
  }

  predicate ChoicesOk(choices: seq<Choice>, correctIndex: int, layouts: seq<Layout>) {
    |choices| == 3
    && forall j :: 0 <= j < 3 ==>
         (choices[j].isCorrect <==> j == correctIndex)
         && (j == correctIndex ==> choices[j].layout == CorrectLayout)
         && (j != correctIndex ==> DrawnLayout(choices[j].layout, layouts))
  }

  /** The three choices: the correct layout at `correctIndex`, a drawn error layout elsewhere. */
  method BuildChoices(correctIndex: int, layouts: seq<Layout>, rng: Stream, k0: nat)
    returns (choices: seq<Choice>, k: nat)
    ensures ChoicesOk(choices, correctIndex, layouts) && k0 <= k
  {
    choices, k := [], k0;
    var j := 0;
    while j < 3
      invariant 0 <= j <= 3 && |choices| == j && k0 <= k
      invariant forall x :: 0 <= x < j ==>
                  (choices[x].isCorrect <==> x == correctIndex)
                  && (x == correctIndex ==> choices[x].layout == CorrectLayout)
                  && (x != correctIndex ==> DrawnLayout(choices[x].layout, layouts))
    {
      if j == correctIndex {
        choices := choices + [Choice(CorrectLayout, true)];
      } else {
        choices := choices + [Choice(PickLayout(layouts, rng(k)), false)];
        k := k + 1;
      }
      j := j + 1;
    }
  }

  function FormChoiceQuestion(a: int, b: int, choices: seq<Choice>, correctIndex: int, i: nat, now: int): Question {
    Question("wf_choice_" + IntToString(a) + "_" + IntToString(b) + "_" + IntToString(i) + "_" + IntToString(now),
             Infix(a, "+", b), IntToString(correctIndex), WrittenFormChoiceQ,
             FormChoiceInfo(a, b, choices, correctIndex), false)
  }

  predicate FormChoiceOk(q: Question, i: nat, now: int, aRange: Range, bRange: Range, layouts: seq<Layout>) {
    q.meta.FormChoiceInfo? && Within(q.meta.choiceTop, aRange) && Within(q.meta.choiceBottom, bRange)
    && 0 <= q.meta.correctIndex <= 2 && ChoicesOk(q.meta.choices, q.meta.correctIndex, layouts)
    && q == FormChoiceQuestion(q.meta.choiceTop, q.meta.choiceBottom, q.meta.choices, q.meta.correctIndex, i, now)
  }

  predicate AllFormChoiceOk(qs: seq<Question>, now: int, aRange: Range, bRange: Range, layouts: seq<Layout>) {
    forall j :: 0 <= j < |qs| ==> FormChoiceOk(qs[j], j, now, aRange, bRange, layouts)
  }

  lemma FormChoiceSnoc(qs: seq<Question>, now: int, aRange: Range, bRange: Range, layouts: seq<Layout>, q: Question)
    requires AllFormChoiceOk(qs, now, aRange, bRange, layouts) && FormChoiceOk(q, |qs|, now, aRange, bRange, layouts)
    ensures AllFormChoiceOk(qs + [q], now, aRange, bRange, layouts)
  {
    var qs' := qs + [q];
    forall j | 0 <= j < |qs'| ensures FormChoiceOk(qs'[j], j, now, aRange, bRange, layouts) {
      if j < |qs| {
        assert qs'[j] == qs[j];
      }
    }
  }

  /**
   * Exactly `count` choice questions, each with three layouts of which
   * exactly the one at the answer index is correct.
   */
  method GenerateWrittenFormChoice(aRange: Range, bRange: Range, errorTypes: Option<seq<Layout>>, count: nat,
                                   rng: Stream, k0: nat, now: int)
    returns (qs: seq<Question>, k: nat)
    ensures |qs| == count && k0 <= k
    ensures forall i :: 0 <= i < count ==> FormChoiceOk(qs[i], i, now, aRange, bRange, ErrorLayouts(errorTypes))
  {
    var layouts := ErrorLayouts(errorTypes);
    qs, k := [], k0;
    var i := 0;
    while i < count
      invariant i <= count && |qs| == i && k0 <= k
      invariant AllFormChoiceOk(qs, now, aRange, bRange, layouts)
    {
      var a := RandomInt(rng(k), aRange.lo, aRange.hi);
      var b := RandomInt(rng(k + 1), bRange.lo, bRange.hi);
      var correctIndex := RandomInt(rng(k + 2), 0, 2);
      var choices;
      choices, k := BuildChoices(correctIndex, layouts, rng, k + 3);
      FormChoiceSnoc(qs, now, aRange, bRange, layouts, FormChoiceQuestion(a, b, choices, correctIndex, i, now));
      qs := qs + [FormChoiceQuestion(a, b, choices, correctIndex, i, now)];
      i := i + 1;
    }
  }

  /** The answer names the one correct choice. */
  lemma FormChoiceAnswer(q: Question, i: nat, now: int, aRange: Range, bRange: Range, layouts: seq<Layout>)
    requires FormChoiceOk(q, i, now, aRange, bRange, layouts)
    ensures ParseInt(q.answer) == Some(q.meta.correctIndex)
    ensures forall j :: 0 <= j < 3 ==> (q.meta.choices[j].isCorrect <==> Some(j) == ParseInt(q.answer))
  {
    ParseIntOfIntToString(q.meta.correctIndex);
  }

  // ---------------------------------------------------------------- column addition

  predicate HasCarry(a: int, b: int) { JsMod(a, 10) + JsMod(b, 10) >= 10 }

  function ColumnAddition(a: int, b: int, inputOrder: Option<string>, n: nat, now: int): Question {
    Question("wa_2d2d_" + IntToString(a) + "_" + IntToString(b) + "_" + IntToString(n) + "_" + IntToString(now),
             Infix(a, "+", b), IntToString(a + b), WrittenAddQ, ColumnMeta(a, b, inputOrder), false)
  }

  /** The column facts the question carries. */
  function ColumnMeta(a: int, b: int, inputOrder: Option<string>): Meta {
    var sum := a + b;
    var onesSum := JsMod(a, 10) + JsMod(b, 10);
    var carry := if onesSum >= 10 then 1 else 0;
    WrittenAddInfo(a, b, sum, JsMod(a, 10), a / 10, JsMod(b, 10), b / 10, onesSum,
                   a / 10 + b / 10 + carry, onesSum >= 10, carry,
                   JsMod(sum, 10), JsMod(sum, 100) / 10,
                   if sum >= 100 then Some(sum / 100) else None,
                   if inputOrder.Some? && inputOrder.value != "" then inputOrder.value else "ones_first")
  }

  /** The carry filters: `carryRequired` wants a carry, `noCarry` wants none and a sum below 100. */
  predicate ColumnKeeps(a: int, b: int, carryRequired: bool, noCarry: bool) {
    !(carryRequired && !HasCarry(a, b)) && !(noCarry && HasCarry(a, b)) && !(noCarry && a + b >= 100)
  }

  predicate ColumnOk(q: Question, ab: (int, int), n: nat, now: int, aRange: Range, bRange: Range,
                     carryRequired: bool, noCarry: bool, inputOrder: Option<string>) {
    Within(ab.0, aRange) && Within(ab.1, bRange) && ColumnKeeps(ab.0, ab.1, carryRequired, noCarry)
    && q == ColumnAddition(ab.0, ab.1, inputOrder, n, now)
  }

  predicate AllColumnOk(qs: seq<Question>, pairs: seq<(int, int)>, now: int, aRange: Range, bRange: Range,
                        carryRequired: bool, noCarry: bool, inputOrder: Option<string>) {
    |qs| == |pairs|
    && forall i :: 0 <= i < |qs| ==> ColumnOk(qs[i], pairs[i], i, now, aRange, bRange, carryRequired, noCarry, inputOrder)
  }

  lemma ColumnSnoc(qs: seq<Question>, pairs: seq<(int, int)>, now: int, aRange: Range, bRange: Range,
                   carryRequired: bool, noCarry: bool, inputOrder: Option<string>, a: int, b: int)
    requires AllColumnOk(qs, pairs, now, aRange, bRange, carryRequired, noCarry, inputOrder)
    requires Within(a, aRange) && Within(b, bRange) && ColumnKeeps(a, b, carryRequired, noCarry)
    ensures AllColumnOk(qs + [ColumnAddition(a, b, inputOrder, |qs|, now)], pairs + [(a, b)], now, aRange, bRange,
                        carryRequired, noCarry, inputOrder)
  {
    var qs', pairs' := qs + [ColumnAddition(a, b, inputOrder, |qs|, now)], pairs + [(a, b)];
    forall i | 0 <= i < |qs'|
      ensures ColumnOk(qs'[i], pairs'[i], i, now, aRange, bRange, carryRequired, noCarry, inputOrder)
    {
      if i < |qs| {
        assert qs'[i] == qs[i] && pairs'[i] == pairs[i];
      }
    }
  }

  /** Rejection sampling: at most `count` questions from at most `count * 20` attempts. */
  method GenerateWrittenAdd2D2D(aRange: Range, bRange: Range, carryRequired: bool, noCarry: bool,
                                inputOrder: Option<string>, count: nat, rng: Stream, k0: nat, now: int)
    returns (qs: seq<Question>, k: nat, ghost pairs: seq<(int, int)>)
    ensures |qs| <= count && |pairs| == |qs| && k0 <= k <= k0 + 2 * (20 * count)
    ensures |qs| < count ==> k == k0 + 2 * (20 * count)
    ensures forall i :: 0 <= i < |qs| ==> ColumnOk(qs[i], pairs[i], i, now, aRange, bRange, carryRequired, noCarry, inputOrder)
  {
    qs, k, pairs := [], k0, [];
    var attempts := 0;
    while |qs| < count && attempts < count * 20
      invariant attempts <= count * 20 && |qs| <= count && |pairs| == |qs|
      invariant k == k0 + 2 * attempts
      invariant AllColumnOk(qs, pairs, now, aRange, bRange, carryRequired, noCarry, inputOrder)
    {
      attempts := attempts + 1;
      var a := RandomInt(rng(k), aRange.lo, aRange.hi);
      var b := RandomInt(rng(k + 1), bRange.lo, bRange.hi);
      k := k + 2;
      if ColumnKeeps(a, b, carryRequired, noCarry) {
        ColumnSnoc(qs, pairs, now, aRange, bRange, carryRequired, noCarry, inputOrder, a, b);
        qs := qs + [ColumnAddition(a, b, inputOrder, |qs|, now)];
        pairs := pairs + [(a, b)];
      }
    }
  }

  /**
   * The column facts add up: for two numbers below 100 the ones digit of
   * the sum is the ones-column sum mod 10, the tens digit is the tens
   * column (with the carry) mod 10, the hundreds digit is present exactly
   * when the sum reaches 100 and is the carry out of the tens column, and
   * the three digits spell the sum.
   */
  lemma ColumnAdditionDigits(a: int, b: int, inputOrder: Option<string>, n: nat, now: int)
    requires 0 <= a <= 99 && 0 <= b <= 99
    ensures var m := ColumnAddition(a, b, inputOrder, n, now).meta;
            m.WrittenAddInfo?
            && (m.hasCarry <==> m.aOnes + m.bOnes >= 10)
            && m.tensSum == m.aTens + m.bTens + m.carryValue
            && m.answerOnes == m.onesSum % 10
            && m.answerTens == m.tensSum % 10
            && (m.answerHundreds.Some? <==> m.sum >= 100)
            && (m.answerHundreds.Some? ==> m.answerHundreds.value == m.tensSum / 10 == 1)
            && m.sum == 100 * m.answerHundreds.GetOr(0) + 10 * m.answerTens + m.answerOnes
            && 10 * m.aTens + m.aOnes == a && 10 * m.bTens + m.bOnes == b
  {
    var m := ColumnMeta(a, b, inputOrder);
    assert ColumnAddition(a, b, inputOrder, n, now).meta == m;
    ColumnArithmetic(a, b);
    assert m.aOnes == a % 10 && m.bOnes == b % 10 && m.aTens == a / 10 && m.bTens == b / 10;
    assert m.sum == a + b && m.answerOnes == (a + b) % 10 && m.answerTens == (a + b) % 100 / 10;
    assert m.answerHundreds.GetOr(0) == (a + b) / 100;
  }

  /** Column addition of two numbers below 100, digit by digit. */
  lemma ColumnArithmetic(a: int, b: int)
    requires 0 <= a <= 99 && 0 <= b <= 99
    ensures var c := if a % 10 + b % 10 >= 10 then 1 else 0;
            var t := a / 10 + b / 10 + c;
            (a + b) % 10 == (a % 10 + b % 10) % 10 && (a + b) / 10 == t
            && (a + b) % 100 / 10 == t % 10 && (a + b) / 100 == t / 10
            && 0 <= t <= 19 && (a + b >= 100 <==> t >= 10)
            && a + b == 100 * (t / 10) + 10 * (t % 10) + (a + b) % 10
  {
    var c := if a % 10 + b % 10 >= 10 then 1 else 0;
    var t := a / 10 + b / 10 + c;
    var o := a % 10 + b % 10 - 10 * c;
    assert a + b == 10 * t + o && 0 <= o <= 9;
    DivMod10(a + b, t, o);
    DivMod10(t, t / 10, t % 10);
    DivMod100(a + b, t / 10, 10 * (t % 10) + o);
    DivMod10((a + b) % 100, t % 10, o);
  }

  /** Division by ten is determined by quotient and remainder. */
  lemma DivMod10(n: int, q: int, r: int)
    requires n == 10 * q + r && 0 <= r < 10
    ensures n / 10 == q && n % 10 == r
  {
  }

  /** Division by a hundred is determined by quotient and remainder. */
  lemma DivMod100(n: int, q: int, r: int)
    requires n == 100 * q + r && 0 <= r < 100
    ensures n / 100 == q && n % 100 == r
  {
  }

  /** The answer reads back as the sum. */
  lemma ColumnAdditionAnswer(a: int, b: int, inputOrder: Option<string>, n: nat, now: int)
    ensures ParseInt(ColumnAddition(a, b, inputOrder, n, now).answer) == Some(a + b)
  {
    ParseIntOfIntToString(a + b);
  }

  // ---------------------------------------------------------------- carry mark

  function CarryMarkQuestion(a: int, b: int, i: nat, now: int): Question {
    Question("cm_tap_" + IntToString(a) + "_" + IntToString(b) + "_" + IntToString(i) + "_" + IntToString(now),
             Infix(a, "+", b), if HasCarry(a, b) then "tens" else "none", CarryMarkTapQ,
             CarryTapInfo(a, b, HasCarry(a, b)), false)
  }

  /** Attempt `t` of the redraw loop whose first draw is at stream position `k0`. */
  function CarryAttempt(aRange: Range, bRange: Range, rng: Stream, k0: nat, t: nat): (ab: (int, int))
    ensures Within(ab.0, aRange) && Within(ab.1, bRange)
  {
    (RandomInt(rng(k0 + 2 * t), aRange.lo, aRange.hi), RandomInt(rng(k0 + 2 * t + 1), bRange.lo, bRange.hi))
  }

  predicate AttemptMatches(aRange: Range, bRange: Range, wanted: bool, rng: Stream, k0: nat, t: nat) {
    var ab := CarryAttempt(aRange, bRange, rng, k0, t);
    HasCarry(ab.0, ab.1) == wanted
  }

  /**
   * `ab` is what the loop keeps after `tries` attempts: the first attempt
   * whose carry matches `wanted`, or the fiftieth when none of them does.
   */
  predicate FirstCarryMatch(aRange: Range, bRange: Range, wanted: bool, rng: Stream, k0: nat, tries: nat, ab: (int, int)) {
    1 <= tries <= 50 && ab == CarryAttempt(aRange, bRange, rng, k0, tries - 1)
    && (forall t :: 0 <= t < tries - 1 ==> !AttemptMatches(aRange, bRange, wanted, rng, k0, t))
    && (AttemptMatches(aRange, bRange, wanted, rng, k0, tries - 1) || tries == 50)
  }

  /**
   * One question's pair: drawn until its carry matches `wanted`, at most 50
   * times; a mismatch means all 50 attempts were spent.
   */
  method DrawCarryPair(aRange: Range, bRange: Range, wanted: bool, rng: Stream, k0: nat)
    returns (a: int, b: int, k: nat)
    ensures Within(a, aRange) && Within(b, bRange)
    ensures HasCarry(a, b) == wanted || k == k0 + 100
    ensures k0 < k <= k0 + 100 && (k - k0) % 2 == 0
    ensures FirstCarryMatch(aRange, bRange, wanted, rng, k0, (k - k0) / 2, (a, b))
  {
    var attempts := 0;
    k := k0;
    while true
      invariant 0 <= attempts < 50 && k == k0 + 2 * attempts
      invariant forall t :: 0 <= t < attempts ==> !AttemptMatches(aRange, bRange, wanted, rng, k0, t)
      decreases 50 - attempts
    {
      a := RandomInt(rng(k), aRange.lo, aRange.hi);
      b := RandomInt(rng(k + 1), bRange.lo, bRange.hi);
      assert (a, b) == CarryAttempt(aRange, bRange, rng, k0, attempts);
      k := k + 2;
      assert (k - k0) / 2 == attempts + 1;
      if HasCarry(a, b) == wanted {
        assert AttemptMatches(aRange, bRange, wanted, rng, k0, attempts);
        return;
      }
      attempts := attempts + 1;
      if attempts >= 50 {
        return;
      }
    }
  }

  /** `carryRatio ?? 0.5`: only a missing ratio takes the default. */
  function CarryRatio(carryRatio: Option<real>): real {
    if carryRatio.Some? then carryRatio.value else 0.5
  }

  predicate CarryMarkOk(q: Question, ab: (int, int), i: nat, now: int, aRange: Range, bRange: Range) {
    Within(ab.0, aRange) && Within(ab.1, bRange) && q == CarryMarkQuestion(ab.0, ab.1, i, now)
  }

  /**
   * Question `i` spent the stream from `s` to `e`: one draw deciding whether
   * it should carry, then the redraw loop for its pair. The pair carries as
   * wanted unless all 50 attempts missed.
   */
  predicate CarryStep(aRange: Range, bRange: Range, carryRatio: Option<real>, rng: Stream, s: nat, e: nat,
                      wanted: bool, ab: (int, int)) {
    wanted == (Unit(rng(s)) < CarryRatio(carryRatio))
    && s + 1 < e && (e - s - 1) % 2 == 0
    && FirstCarryMatch(aRange, bRange, wanted, rng, s + 1, (e - s - 1) / 2, ab)
    && (HasCarry(ab.0, ab.1) == wanted || e == s + 101)
  }

  /** A wanted carry drawn at `s`, then `DrawCarryPair` from `s + 1` to `e`, make one question's step. */
  lemma CarryStepOfDraw(aRange: Range, bRange: Range, carryRatio: Option<real>, rng: Stream, s: nat, e: nat,
                        wanted: bool, a: int, b: int)
    requires wanted == (Unit(rng(s)) < CarryRatio(carryRatio))
    requires HasCarry(a, b) == wanted || e == s + 1 + 100
    requires s + 1 < e <= s + 1 + 100 && (e - (s + 1)) % 2 == 0
    requires FirstCarryMatch(aRange, bRange, wanted, rng, s + 1, (e - (s + 1)) / 2, (a, b))
    ensures CarryStep(aRange, bRange, carryRatio, rng, s, e, wanted, (a, b))
  {
    assert e - (s + 1) == e - s - 1;
  }

  predicate AllCarryMarkOk(qs: seq<Question>, pairs: seq<(int, int)>, wanted: seq<bool>, starts: seq<nat>, now: int,
                           aRange: Range, bRange: Range, carryRatio: Option<real>, rng: Stream) {
    |qs| == |pairs| == |wanted| && |starts| == |qs| + 1
    && forall j :: 0 <= j < |qs| ==>
         CarryMarkOk(qs[j], pairs[j], j, now, aRange, bRange)
         && CarryStep(aRange, bRange, carryRatio, rng, starts[j], starts[j + 1], wanted[j], pairs[j])
  }

  lemma CarryMarkSnoc(qs: seq<Question>, pairs: seq<(int, int)>, wanted: seq<bool>, starts: seq<nat>, now: int,
                      aRange: Range, bRange: Range, carryRatio: Option<real>, rng: Stream,
                      a: int, b: int, w: bool, e: nat)
    requires AllCarryMarkOk(qs, pairs, wanted, starts, now, aRange, bRange, carryRatio, rng)
    requires Within(a, aRange) && Within(b, bRange)
    requires CarryStep(aRange, bRange, carryRatio, rng, starts[|qs|], e, w, (a, b))
    ensures AllCarryMarkOk(qs + [CarryMarkQuestion(a, b, |qs|, now)], pairs + [(a, b)], wanted + [w], starts + [e],
                           now, aRange, bRange, carryRatio, rng)
  {
    var qs', pairs', wanted', starts' := qs + [CarryMarkQuestion(a, b, |qs|, now)], pairs + [(a, b)],
                                         wanted + [w], starts + [e];
    forall j | 0 <= j < |qs'|
      ensures CarryMarkOk(qs'[j], pairs'[j], j, now, aRange, bRange)
              && CarryStep(aRange, bRange, carryRatio, rng, starts'[j], starts'[j + 1], wanted'[j], pairs'[j])
    {
      if j < |qs| {
        assert qs'[j] == qs[j] && pairs'[j] == pairs[j] && wanted'[j] == wanted[j];
        assert starts'[j] == starts[j] && starts'[j + 1] == starts[j + 1];
      }
    }
  }

  /**
   * Exactly `count` carry-mark questions; the answer is "tens" exactly when
   * the ones column carries. Question `i` first draws whether it should
   * carry (`Math.random() < carryRatio`) and then keeps the first pair that
   * does as wanted, or the fiftieth when none does.
   */
  method GenerateCarryMarkTap(aRange: Range, bRange: Range, carryRatio: Option<real>, count: nat,
                              rng: Stream, k0: nat, now: int)
    returns (qs: seq<Question>, k: nat, ghost pairs: seq<(int, int)>, ghost wanted: seq<bool>, ghost starts: seq<nat>)
    ensures |qs| == count && |pairs| == count && |wanted| == count && |starts| == count + 1
    ensures starts[0] == k0 && starts[count] == k && k0 <= k
    ensures forall i :: 0 <= i < count ==> CarryMarkOk(qs[i], pairs[i], i, now, aRange, bRange)
    ensures forall i :: 0 <= i < count ==>
              CarryStep(aRange, bRange, carryRatio, rng, starts[i], starts[i + 1], wanted[i], pairs[i])
  {
    var ratio := CarryRatio(carryRatio);
    qs, k, pairs, wanted, starts := [], k0, [], [], [k0];
    var i := 0;
    while i < count
      invariant i <= count && |qs| == i
      invariant AllCarryMarkOk(qs, pairs, wanted, starts, now, aRange, bRange, carryRatio, rng)
      invariant starts[i] == k && starts[0] == k0 && k0 <= k
    {
      var shouldHaveCarry := Unit(rng(k)) < ratio;
      var a, b, k';
      a, b, k' := DrawCarryPair(aRange, bRange, shouldHaveCarry, rng, k + 1);
      CarryStepOfDraw(aRange, bRange, carryRatio, rng, k, k', shouldHaveCarry, a, b);
      CarryMarkSnoc(qs, pairs, wanted, starts, now, aRange, bRange, carryRatio, rng, a, b, shouldHaveCarry, k');
      qs := qs + [CarryMarkQuestion(a, b, i, now)];
      pairs := pairs + [(a, b)];
      wanted := wanted + [shouldHaveCarry];
      starts := starts + [k'];
      k := k';
      i := i + 1;
    }
  }

  /** The answer and the flag agree with the ones column. */
  lemma CarryMarkAnswer(a: int, b: int, i: nat, now: int)
    requires 0 <= a && 0 <= b
    ensures var q := CarryMarkQuestion(a, b, i, now);
            q.meta.CarryTapInfo? && (q.meta.tapHasCarry <==> a % 10 + b % 10 >= 10)
            && (q.answer == "tens" <==> a % 10 + b % 10 >= 10)
  {
  }

  // ---------------------------------------------------------------- check by subtraction

  function VerifyQuestion(a: int, b: int, subtractA: bool, i: nat, now: int): Question {
    var bottom := if subtractA then a else b;
    var expected := if subtractA then b else a;
    Question("wv_" + IntToString(a) + "_" + IntToString(b) + "_" + IntToString(i) + "_" + IntToString(now),
             Infix(a + b, "-", bottom), IntToString(expected), WrittenVerifyQ,
             VerifyInfo(a + b, bottom, expected), false)
  }

  predicate VerifyOk(q: Question, ab: (int, int), subtractA: bool, i: nat, now: int, aRange: Range, bRange: Range,
                     verifyType: VerifyType) {
    Within(ab.0, aRange) && Within(ab.1, bRange)
    && (verifyType == SubtractA ==> subtractA) && (verifyType == SubtractB ==> !subtractA)
    && q == VerifyQuestion(ab.0, ab.1, subtractA, i, now)
  }

  /** One check question: the two addends, then (for `random`) which one to subtract. */
  method DrawVerify(aRange: Range, bRange: Range, verifyType: VerifyType, i: nat, rng: Stream, k0: nat, now: int)
    returns (q: Question, k: nat, ghost ab: (int, int), ghost subtractA: bool)
    ensures VerifyOk(q, ab, subtractA, i, now, aRange, bRange, verifyType) && k0 < k
  {
    var a := RandomInt(rng(k0), aRange.lo, aRange.hi);
    var b := RandomInt(rng(k0 + 1), bRange.lo, bRange.hi);
    k := k0 + 2;
    var flip := verifyType == SubtractA;
    if verifyType == RandomVerify {
      flip := Unit(rng(k)) < 0.5;
      k := k + 1;
    }
    q, ab, subtractA := VerifyQuestion(a, b, flip, i, now), (a, b), flip;
  }

  predicate AllVerifyOk(qs: seq<Question>, pairs: seq<(int, int)>, flips: seq<bool>, now: int, aRange: Range,
                        bRange: Range, verifyType: VerifyType) {
    |qs| == |pairs| == |flips|
    && forall j :: 0 <= j < |qs| ==> VerifyOk(qs[j], pairs[j], flips[j], j, now, aRange, bRange, verifyType)
  }

  lemma VerifySnoc(qs: seq<Question>, pairs: seq<(int, int)>, flips: seq<bool>, now: int, aRange: Range,
                   bRange: Range, verifyType: VerifyType, q: Question, ab: (int, int), flip: bool)
    requires AllVerifyOk(qs, pairs, flips, now, aRange, bRange, verifyType)
    requires VerifyOk(q, ab, flip, |qs|, now, aRange, bRange, verifyType)
    ensures AllVerifyOk(qs + [q], pairs + [ab], flips + [flip], now, aRange, bRange, verifyType)
  {
    var ok := (q: Question, ab: (int, int), flip: bool, j: nat) => VerifyOk(q, ab, flip, j, now, aRange, bRange, verifyType);
    SnocEach3(qs, pairs, flips, q, ab, flip, ok);
  }

  /** Exactly `count` checks `sum - a` or `sum - b`, as `verifyType` says (at random for `random`). */
  method GenerateWrittenVerify(aRange: Range, bRange: Range, verifyType: VerifyType, count: nat,
                               rng: Stream, k0: nat, now: int)
    returns (qs: seq<Question>, k: nat, ghost pairs: seq<(int, int)>, ghost flips: seq<bool>)
    ensures |qs| == count && |pairs| == count && |flips| == count && k0 <= k
    ensures forall i :: 0 <= i < count ==> VerifyOk(qs[i], pairs[i], flips[i], i, now, aRange, bRange, verifyType)
  {
    qs, k, pairs, flips := [], k0, [], [];
    var i := 0;
    while i < count
      invariant i <= count && |qs| == i && |pairs| == i && |flips| == i && k0 <= k
      invariant AllVerifyOk(qs, pairs, flips, now, aRange, bRange, verifyType)
    {
      var q;
      ghost var ab, flip;
      q, k, ab, flip := DrawVerify(aRange, bRange, verifyType, i, rng, k, now);
      VerifySnoc(qs, pairs, flips, now, aRange, bRange, verifyType, q, ab, flip);
      qs := qs + [q];
      pairs := pairs + [ab];
      flips := flips + [flip];
      i := i + 1;
    }
  }

  /** The subtraction undoes the addition: top − bottom is the expected answer, the other addend. */
  lemma VerifyUndoesAddition(a: int, b: int, subtractA: bool, i: nat, now: int)
    ensures var m := VerifyQuestion(a, b, subtractA, i, now).meta;
            m.VerifyInfo? && m.verifyTop - m.verifyBottom == m.expectedAnswer
            && (subtractA ==> m.verifyBottom == a && m.expectedAnswer == b)
            && (!subtractA ==> m.verifyBottom == b && m.expectedAnswer == a)
    ensures ParseInt(VerifyQuestion(a, b, subtractA, i, now).answer)
            == Some(VerifyQuestion(a, b, subtractA, i, now).meta.expectedAnswer)
  {
    ParseIntOfIntToString(if subtractA then b else a);
  }
}
