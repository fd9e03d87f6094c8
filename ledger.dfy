/**
 * The progress ledger: the per-stage record update after a round and the
 * merge of new mistakes into the weak-question set. The stage map is a
 * value (the update copies it); the weak-set merge fills an insertion-ordered
 * map in two loops, sorts it by recency and keeps the first 50.
 */
module Ledger {
  import opened Wrappers
  import opened Curriculum

  // ---------------------------------------------------------------- stage progress

  /** JS truthiness of an optional string: present and non-empty. */
  predicate Named(o: Option<string>) {
    o.Some? && o.value != ""
  }

  /** JS truthiness of an optional time: present and non-zero. */
  predicate TimeSet(o: Option<real>) {
    o.Some? && o.value != 0.0
  }

  /** The record a stage without an entry starts from. */
  function Fresh(stageId: string, unlocked: bool): (p: StageProgress)
    ensures p.stageId == stageId && p.consecutivePasses == 0 && p.bestTimeSec.None?
    ensures p.unlocked == unlocked && !p.cleared
  {
    StageProgress(stageId, 0, None, unlocked, false)
  }

  /** `map[id] || default`: the entry, or a fresh record. */
  function EntryOr(m: map<string, StageProgress>, id: string, unlocked: bool): StageProgress {
    if id in m then m[id] else Fresh(id, unlocked)
  }

  /** The running minimum of the best time; a zero or absent time never counts. */
  function BestTime(time: Option<real>, prev: Option<real>): (best: Option<real>)
    ensures best == prev || best == time
    ensures TimeSet(time) && (!TimeSet(prev) || time.value < prev.value) <==> best == time && best != prev
  {
    if TimeSet(time) && (!TimeSet(prev) || time.value < prev.value) then time else prev
  }

  /** The stage's own record after a round. */
  function Played(prev: StageProgress, passed: bool, time: Option<real>): StageProgress {
    prev.(consecutivePasses := if passed then prev.consecutivePasses + 1 else 0,
          cleared := passed || prev.cleared,
          bestTimeSec := BestTime(time, prev.bestTimeSec))
  }

  /**
   * `updateStageProgress`: the stage's record after the round, then on a pass
   * the successor's record unlocked; `now` is the clock reading stored as
   * `lastPlayedAt`.
   */
  function UpdateStageProgress(current: UserProgress, stageId: string, passed: bool, time: Option<real>,
                               nextStageId: Option<string>, now: int): (r: UserProgress)
    ensures r.currentTrackId == current.currentTrackId && r.currentStageId == current.currentStageId
    ensures r.weakSet == current.weakSet && r.lastPlayedAt == now
    ensures stageId in r.stageProgressMap
    ensures passed && Named(nextStageId) ==> nextStageId.value in r.stageProgressMap
  {
    var m := current.stageProgressMap;
    var m1 := m[stageId := Played(EntryOr(m, stageId, true), passed, time)];
    var m2 := if passed && Named(nextStageId)
              then m1[nextStageId.value := EntryOr(m1, nextStageId.value, false).(unlocked := true)]
              else m1;
    current.(stageProgressMap := m2, lastPlayedAt := now)
  }

  /** The successor named on a pass, if any. */
  predicate Unlocks(passed: bool, nextStageId: Option<string>, id: string) {
    passed && Named(nextStageId) && nextStageId.value == id
  }

  /**
   * The played stage's record: passes count up on a pass and reset on a fail,
   * a pass clears the stage, a fail keeps the old flag, and the best time
   * follows the running minimum; a missing record starts unlocked.
   */
  lemma PlayedStage(current: UserProgress, stageId: string, passed: bool, time: Option<real>,
                    nextStageId: Option<string>, now: int)
    ensures var prev := EntryOr(current.stageProgressMap, stageId, true);
            var e := UpdateStageProgress(current, stageId, passed, time, nextStageId, now).stageProgressMap[stageId];
            (stageId !in current.stageProgressMap ==> prev == StageProgress(stageId, 0, None, true, false))
            && (passed ==> e.consecutivePasses == prev.consecutivePasses + 1 && e.cleared)
            && (!passed ==> e.consecutivePasses == 0 && e.cleared == prev.cleared)
            && e.bestTimeSec == BestTime(time, prev.bestTimeSec)
            && e.stageId == prev.stageId
            && (e.unlocked == prev.unlocked || (Unlocks(passed, nextStageId, stageId) && e.unlocked))
  {
    var m := current.stageProgressMap;
    var m1 := m[stageId := Played(EntryOr(m, stageId, true), passed, time)];
    if Unlocks(passed, nextStageId, stageId) {
      assert EntryOr(m1, stageId, false) == m1[stageId];
    }
  }

  /**
   * On a pass with a successor, the successor's record is unlocked and keeps
   * its other fields; a successor without a record starts with no passes and
   * not cleared.
   */
  lemma SuccessorUnlocked(current: UserProgress, stageId: string, time: Option<real>, nextId: string, now: int)
    requires nextId != "" && nextId != stageId
    ensures var r := UpdateStageProgress(current, stageId, true, time, Some(nextId), now).stageProgressMap;
            r[nextId] == EntryOr(current.stageProgressMap, nextId, false).(unlocked := true)
            && (nextId !in current.stageProgressMap ==> r[nextId] == StageProgress(nextId, 0, None, true, false))
  {
    var m := current.stageProgressMap;
    var m1 := m[stageId := Played(EntryOr(m, stageId, true), true, time)];
    assert EntryOr(m1, nextId, false) == EntryOr(m, nextId, false);
  }

  /** Only the played stage and, on a pass, the successor change; no other key appears. */
  lemma OthersUnchanged(current: UserProgress, stageId: string, passed: bool, time: Option<real>,
                        nextStageId: Option<string>, now: int, id: string)
    requires id != stageId && !Unlocks(passed, nextStageId, id)
    ensures var r := UpdateStageProgress(current, stageId, passed, time, nextStageId, now).stageProgressMap;
            (id in r <==> id in current.stageProgressMap)
            && (id in r ==> r[id] == current.stageProgressMap[id])
  {
  }

  /** `unlocked` and `cleared` never go from true to false. */
  lemma FlagsMonotone(current: UserProgress, stageId: string, passed: bool, time: Option<real>,
                      nextStageId: Option<string>, now: int, id: string)
    requires id in current.stageProgressMap
    ensures var r := UpdateStageProgress(current, stageId, passed, time, nextStageId, now).stageProgressMap;
            id in r
            && (current.stageProgressMap[id].unlocked ==> r[id].unlocked)
            && (current.stageProgressMap[id].cleared ==> r[id].cleared)
  {
    var m := current.stageProgressMap;
    var m1 := m[stageId := Played(EntryOr(m, stageId, true), passed, time)];
    assert id in m1 && (m[id].unlocked ==> m1[id].unlocked) && (m[id].cleared ==> m1[id].cleared);
    if Unlocks(passed, nextStageId, id) {
      assert EntryOr(m1, id, false) == m1[id];
    }
  }

  // ---------------------------------------------------------------- weak set

  /** Index of the entry with `id` in an insertion-ordered map held as a list. */
  function Find(entries: seq<WeakQuestion>, id: string): (r: Option<nat>)
    ensures r.Some? ==> r.value < |entries| && entries[r.value].questionId == id
    ensures r.None? <==> forall i :: 0 <= i < |entries| ==> entries[i].questionId != id
  {
    if entries == [] then None
    else if entries[|entries| - 1].questionId == id then Some(|entries| - 1)
    else Find(entries[..|entries| - 1], id)
  }

  /** No two entries share a question id. */
  predicate DistinctIds(entries: seq<WeakQuestion>) {
    forall i, j :: 0 <= i < j < |entries| ==> entries[i].questionId != entries[j].questionId
  }

  /** `Map.set`: replace the entry with the same id in place, or append. */
  function Put(entries: seq<WeakQuestion>, w: WeakQuestion): (r: seq<WeakQuestion>)
    ensures DistinctIds(entries) ==> DistinctIds(r)
    ensures exists i :: 0 <= i < |r| && r[i] == w
  {
    match Find(entries, w.questionId)
    case Some(i) =>
      assert entries[i := w][i] == w;
      entries[i := w]
    case None =>
      assert (entries + [w])[|entries|] == w;
      entries + [w]
  }

  /** The entry merged for a repeated mistake: one more mistake, now, the new data. */
  function Bump(existing: WeakQuestion, m: WeakQuestion, now: int): WeakQuestion {
    existing.(mistakeCount := existing.mistakeCount + 1, lastMistakeAt := now, data := m.data)
  }

  /** One step of the second loop: bump a known id, insert an unseen one as given. */
  function Merge(entries: seq<WeakQuestion>, m: WeakQuestion, now: int): seq<WeakQuestion> {
    match Find(entries, m.questionId)
    case Some(i) => Put(entries, Bump(entries[i], m, now))
    case None => Put(entries, m)
  }

  /** The map after the first loop over `current`. */
  function Loaded(current: seq<WeakQuestion>): seq<WeakQuestion> {
    if current == [] then [] else Put(Loaded(current[..|current| - 1]), current[|current| - 1])
  }

  /** The map after the second loop over `mistakes`. */
  function Merged(entries: seq<WeakQuestion>, mistakes: seq<WeakQuestion>, now: int): seq<WeakQuestion> {
    if mistakes == [] then entries
    else Merge(Merged(entries, mistakes[..|mistakes| - 1], now), mistakes[|mistakes| - 1], now)
  }

  /**
   * A merge step: a known id gets one more mistake, the time `now` and the
   * new data, keeping its place and other fields; an unseen id is appended
   * as given; every other entry stays as it was, and ids stay distinct.
   */
  lemma MergeStep(entries: seq<WeakQuestion>, m: WeakQuestion, now: int)
    requires DistinctIds(entries)
    ensures var r := Merge(entries, m, now);
            DistinctIds(r)
            && match Find(entries, m.questionId)
               case Some(i) =>
                 |r| == |entries| && r[i] == Bump(entries[i], m, now)
                 && r[i].solvedCount == entries[i].solvedCount
                 && forall j :: 0 <= j < |r| && j != i ==> r[j] == entries[j]
               case None =>
                 r == entries + [m]
  {
    match Find(entries, m.questionId) {
      case Some(i) =>
        assert Find(entries, Bump(entries[i], m, now).questionId) == Some(i);
      case None =>
    }
  }

  lemma {:induction false} LoadedDistinct(current: seq<WeakQuestion>)
    ensures DistinctIds(Loaded(current))
  {
    if current != [] {
      LoadedDistinct(current[..|current| - 1]);
    }
  }

  lemma {:induction false} MergedDistinct(entries: seq<WeakQuestion>, mistakes: seq<WeakQuestion>, now: int)
    requires DistinctIds(entries)
    ensures DistinctIds(Merged(entries, mistakes, now))
  {
    if mistakes != [] {
      MergedDistinct(entries, mistakes[..|mistakes| - 1], now);
      MergeStep(Merged(entries, mistakes[..|mistakes| - 1], now), mistakes[|mistakes| - 1], now);
    }
  }

  /** Descending order of `lastMistakeAt`. */
  predicate ByRecency(s: seq<WeakQuestion>) {
    forall i, j :: 0 <= i < j < |s| ==> s[i].lastMistakeAt >= s[j].lastMistakeAt
  }

  /** `w` inserted before the first entry older than it. */
  function InsertByRecency(s: seq<WeakQuestion>, w: WeakQuestion): (r: seq<WeakQuestion>)
    requires ByRecency(s)
    ensures |r| == |s| + 1 && multiset(r) == multiset(s) + multiset{w}
    ensures r[0] == w || (s != [] && r[0] == s[0])
  {
    if s == [] then [w]
    else if s[0].lastMistakeAt < w.lastMistakeAt then [w] + s
    else
      assert s == [s[0]] + s[1..];
      [s[0]] + InsertByRecency(s[1..], w)
  }

  lemma {:induction false} InsertKeepsRecency(s: seq<WeakQuestion>, w: WeakQuestion)
    requires ByRecency(s)
    ensures ByRecency(InsertByRecency(s, w))
  {
    if s != [] && s[0].lastMistakeAt >= w.lastMistakeAt {
      var rest := InsertByRecency(s[1..], w);
      InsertKeepsRecency(s[1..], w);
      assert forall i :: 0 <= i < |rest| ==> rest[i].lastMistakeAt <= rest[0].lastMistakeAt <= s[0].lastMistakeAt;
    }
  }

  /** `sort((a, b) => b.lastMistakeAt - a.lastMistakeAt)`: the entries, most recent first. */
  function SortByRecency(s: seq<WeakQuestion>): (r: seq<WeakQuestion>)
    ensures |r| == |s| && multiset(r) == multiset(s) && ByRecency(r)
  {
    if s == [] then []
    else
      assert s == s[..|s| - 1] + [s[|s| - 1]];
      InsertKeepsRecency(SortByRecency(s[..|s| - 1]), s[|s| - 1]);
      InsertByRecency(SortByRecency(s[..|s| - 1]), s[|s| - 1])
  }

  /** The most entries the weak set keeps. */
  const WeakSetCap: nat := 50

  /** `slice(0, 50)`'s length. */
  function Capped(n: nat): nat {
    if n < WeakSetCap then n else WeakSetCap
  }

  /**
   * `updateWeakSet`: load `current` into an insertion-ordered map, merge the
   * new mistakes (stamped `now`), sort by recency and keep the first 50.
   */
  method UpdateWeakSet(current: seq<WeakQuestion>, newMistakes: seq<WeakQuestion>, now: int)
    returns (result: seq<WeakQuestion>)
    ensures var merged := Merged(Loaded(current), newMistakes, now);
            |result| == Capped(|merged|) && result == SortByRecency(merged)[..|result|]
  {
    var entries := LoadAll(current);
    entries := MergeAll(entries, newMistakes, now);
    var sorted := SortByRecency(entries);
    if |sorted| < WeakSetCap {
      result := sorted;
    } else {
      result := sorted[..WeakSetCap];
    }
  }

  /** `current.forEach(w => map.set(w.questionId, w))`. */
  method LoadAll(current: seq<WeakQuestion>) returns (entries: seq<WeakQuestion>)
    ensures entries == Loaded(current)
  {
    entries := [];
    var i := 0;
    while i < |current|
      invariant i <= |current| && entries == Loaded(current[..i])
    {
      assert current[..i + 1][..i] == current[..i];
      entries := Put(entries, current[i]);
      i := i + 1;
    }
    assert current[..i] == current;
  }

  /** `newMistakes.forEach(...)`: bump a known id, insert an unseen one. */
  method MergeAll(loaded: seq<WeakQuestion>, newMistakes: seq<WeakQuestion>, now: int) returns (entries: seq<WeakQuestion>)
    ensures entries == Merged(loaded, newMistakes, now)
  {
    entries := loaded;
    var j := 0;
    while j < |newMistakes|
      invariant j <= |newMistakes| && entries == Merged(loaded, newMistakes[..j], now)
    {
      assert newMistakes[..j + 1][..j] == newMistakes[..j];
      var m := newMistakes[j];
      var found := Find(entries, m.questionId);
      if found.Some? {
        entries := Put(entries, Bump(entries[found.value], m, now));
      } else {
        entries := Put(entries, m);
      }
      j := j + 1;
    }
    assert newMistakes[..j] == newMistakes;
  }

  /**
   * What the kept weak set is: at most 50 entries with distinct ids, most
   * recent first, each one of the merged entries, all of them when there are
   * at most 50, and no dropped entry more recent than a kept one.
   */
  lemma WeakSetKept(current: seq<WeakQuestion>, newMistakes: seq<WeakQuestion>, now: int)
    ensures var merged := Merged(Loaded(current), newMistakes, now);
            var sorted := SortByRecency(merged);
            var n := Capped(|merged|);
            DistinctIds(merged) && KeptPrefix(merged, sorted, n)
  {
    var merged := Merged(Loaded(current), newMistakes, now);
    LoadedDistinct(current);
    MergedDistinct(Loaded(current), newMistakes, now);
    PrefixKept(merged, SortByRecency(merged), Capped(|merged|));
  }

  /** `result` (the first `n` of `sorted`) as the weak set promises it. */
  predicate KeptPrefix(merged: seq<WeakQuestion>, sorted: seq<WeakQuestion>, n: nat) {
    n <= |sorted|
    && var result := sorted[..n];
       |result| <= WeakSetCap && DistinctIds(result) && ByRecency(result)
       && multiset(result) <= multiset(merged)
       && (|merged| <= WeakSetCap ==> multiset(result) == multiset(merged))
       && forall i, j :: 0 <= i < n <= j < |sorted| ==> result[i].lastMistakeAt >= sorted[j].lastMistakeAt
  }

  lemma PrefixKept(merged: seq<WeakQuestion>, sorted: seq<WeakQuestion>, n: nat)
    requires DistinctIds(merged) && |sorted| == |merged| && multiset(sorted) == multiset(merged)
    requires ByRecency(sorted) && n == Capped(|merged|)
    ensures KeptPrefix(merged, sorted, n)
  {
    assert sorted == sorted[..n] + sorted[n..];
    PermutationDistinct(merged, sorted);
    if |merged| <= WeakSetCap {
      assert sorted[..n] == sorted;
    }
  }

  /** Reordering a list with distinct ids keeps them distinct. */
  lemma PermutationDistinct(s: seq<WeakQuestion>, t: seq<WeakQuestion>)
    requires DistinctIds(s) && multiset(s) == multiset(t)
    ensures DistinctIds(t)
  {
    forall i, j | 0 <= i < j < |t|
      ensures t[i].questionId != t[j].questionId
    {
      assert t[i] in multiset(s) && t[j] in multiset(s);
      var a :| 0 <= a < |s| && s[a] == t[i];
      var b :| 0 <= b < |s| && s[b] == t[j];
      if t[i] == t[j] {
        TwoOccurrences(t, i, j);
        DistinctCount(s, a);
        assert false;
      }
      assert a != b;
    }
  }

  /** An entry found at two positions occurs at least twice. */
  lemma TwoOccurrences(t: seq<WeakQuestion>, i: nat, j: nat)
    requires i < j < |t| && t[i] == t[j]
    ensures multiset(t)[t[i]] >= 2
  {
    assert t == t[..i] + [t[i]] + t[i + 1..j] + [t[j]] + t[j + 1..];
  }

  /** An entry of a list with distinct ids occurs once. */
  lemma DistinctCount(s: seq<WeakQuestion>, a: nat)
    requires DistinctIds(s) && a < |s|
    ensures multiset(s)[s[a]] == 1
  {
    assert s == s[..a] + [s[a]] + s[a + 1..];
    assert forall k :: 0 <= k < |s[..a]| ==> s[..a][k] != s[a];
    assert forall k :: a < k < |s| ==> s[k] != s[a];
  }
}
