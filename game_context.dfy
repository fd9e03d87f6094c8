/**
 * The game context: the merged curriculum and the user's progress, held as
 * state that the load, the unlock actions and the round recording replace.
 * Loading the curricula and the stored progress, and saving, are I/O: their
 * results come in as parameters.
 */
module GameContext {
  import opened Wrappers
  import opened JsNumbers
  import opened Curriculum
  import opened Ledger

  /** One curriculum with the stages of all four in order, the rest taken from the first. */
  function MergeCurricula(add: Curriculum, sub: Curriculum, mul: Curriculum, written: Curriculum): Curriculum {
    add.(stages := add.stages + sub.stages + mul.stages + written.stages)
  }

  /**
   * The merged curriculum keeps the addition curriculum's track, rules and
   * start stage, lists its stages first, and holds exactly the stages of the
   * four.
   */
  lemma MergedStages(add: Curriculum, sub: Curriculum, mul: Curriculum, written: Curriculum, s: Stage)
    ensures var c := MergeCurricula(add, sub, mul, written);
            c.track == add.track && c.globalRules == add.globalRules && c.startStageId == add.startStageId
            && add.stages <= c.stages
            && |c.stages| == |add.stages| + |sub.stages| + |mul.stages| + |written.stages|
            && (s in c.stages <==> s in add.stages || s in sub.stages || s in mul.stages || s in written.stages)
  {
    var c := MergeCurricula(add, sub, mul, written);
    assert c.stages == add.stages + (sub.stages + mul.stages + written.stages);
  }

  /** The start-stage loop: each named start stage without a record gets an unlocked fresh one. */
  function WithStarts(m: map<string, StageProgress>, starts: seq<string>): map<string, StageProgress> {
    if starts == [] then m
    else
      var m' := WithStarts(m, starts[..|starts| - 1]);
      var id := starts[|starts| - 1];
      if id != "" && id !in m' then m'[id := Fresh(id, true)] else m'
  }

  /**
   * After the start-stage loop every named start stage has a record, one that
   * was missing is unlocked with no passes, existing records are untouched and
   * no other key appears.
   */
  lemma {:induction false} StartsPresent(m: map<string, StageProgress>, starts: seq<string>)
    ensures var r := WithStarts(m, starts);
            (forall id :: id in m ==> id in r && r[id] == m[id])
            && (forall i :: 0 <= i < |starts| && starts[i] != "" ==> starts[i] in r)
            && (forall id :: id in r && id !in m ==> id in starts && r[id] == Fresh(id, true))
  {
    if starts != [] {
      StartsPresent(m, starts[..|starts| - 1]);
      var init := starts[..|starts| - 1];
      assert forall i :: 0 <= i < |init| ==> starts[i] == init[i];
      assert forall id :: id in init ==> id in starts;
    }
  }

  /** `unlockStage`'s map: a missing stage gets an unlocked fresh record, an existing one is unlocked. */
  function Unlock(m: map<string, StageProgress>, id: string): map<string, StageProgress> {
    if id !in m then m[id := Fresh(id, true)] else m[id := m[id].(unlocked := true)]
  }

  /**
   * After an unlock the stage has an unlocked record that keeps its other
   * fields (or a fresh one), and every other record is unchanged.
   */
  lemma UnlockFacts(m: map<string, StageProgress>, id: string, other: string)
    ensures var r := Unlock(m, id);
            id in r && r[id].unlocked
            && (id in m ==> r[id] == m[id].(unlocked := true))
            && (id !in m ==> r[id] == StageProgress(id, 0, None, true, false))
            && (other != id ==> (other in r <==> other in m) && (other in m ==> r[other] == m[other]))
  {
  }

  /** `unlockAllStages`'s loop over the stages, in order. */
  function UnlockEach(m: map<string, StageProgress>, stages: seq<Stage>): map<string, StageProgress> {
    if stages == [] then m else Unlock(UnlockEach(m, stages[..|stages| - 1]), stages[|stages| - 1].id)
  }

  /** After unlocking all stages every stage has an unlocked record; records of other ids are untouched. */
  lemma {:induction false} AllUnlocked(m: map<string, StageProgress>, stages: seq<Stage>)
    ensures var r := UnlockEach(m, stages);
            (forall i :: 0 <= i < |stages| ==> stages[i].id in r && r[stages[i].id].unlocked)
            && (forall id :: (forall i :: 0 <= i < |stages| ==> stages[i].id != id) ==>
                  (id in r <==> id in m) && (id in m ==> r[id] == m[id]))
  {
    if stages != [] {
      var init := stages[..|stages| - 1];
      AllUnlocked(m, init);
      var prev := UnlockEach(m, init);
      forall id {
        UnlockFacts(prev, stages[|stages| - 1].id, id);
      }
      assert forall i :: 0 <= i < |init| ==> stages[i] == init[i];
    }
  }

  /** The first stage with the given id, as `find` returns it. */
  function FindStage(stages: seq<Stage>, id: string): (r: Option<Stage>)
    ensures r.Some? ==> r.value in stages && r.value.id == id
    ensures r.None? <==> forall i :: 0 <= i < |stages| ==> stages[i].id != id
  {
    if stages == [] then None
    else if stages[0].id == id then Some(stages[0])
    else FindStage(stages[1..], id)
  }

  /** `currentStage?.nextStageId`. */
  function NextOf(stages: seq<Stage>, id: string): Option<string> {
    match FindStage(stages, id)
    case Some(s) => s.nextStageId
    case None => None
  }

  /**
   * The ledger update already unlocks the successor on a pass, so the context's
   * own unlock after enough consecutive passes finds it unlocked and changes
   * nothing.
   */
  lemma ExtraUnlockRedundant(p: UserProgress, stageId: string, time: Option<real>, next: Option<string>, now: int)
    requires Named(next)
    ensures var m := UpdateStageProgress(p, stageId, true, time, next, now).stageProgressMap;
            next.value in m && m[next.value].unlocked
            && m[next.value := EntryOr(m, next.value, false).(unlocked := true)] == m
  {
    var m := UpdateStageProgress(p, stageId, true, time, next, now).stageProgressMap;
    var m0 := p.stageProgressMap;
    var m1 := m0[stageId := Played(EntryOr(m0, stageId, true), true, time)];
    assert m == m1[next.value := EntryOr(m1, next.value, false).(unlocked := true)];
    assert m[next.value := EntryOr(m, next.value, false).(unlocked := true)] == m;
  }

  class Game {
    var curriculum: Option<Curriculum>
    var progress: Option<UserProgress>
    var loading: bool

    constructor ()
      ensures curriculum.None? && progress.None? && loading
    {
      curriculum := None;
      progress := None;
      loading := true;
    }

    /**
     * The initial load: merge the four curricula and make sure each one's
     * start stage has a record in the stored progress `loaded`.
     */
    method Init(add: Curriculum, sub: Curriculum, mul: Curriculum, written: Curriculum, loaded: UserProgress)
      modifies this
      ensures curriculum == Some(MergeCurricula(add, sub, mul, written))
      ensures progress == Some(loaded.(stageProgressMap := WithStarts(loaded.stageProgressMap,
                 [add.startStageId, sub.startStageId, mul.startStageId, written.startStageId])))
      ensures !loading
    {
      var merged := MergeCurricula(add, sub, mul, written);
      var starts := [add.startStageId, sub.startStageId, mul.startStageId, written.startStageId];
      var m := loaded.stageProgressMap;
      var i := 0;
      while i < |starts|
        invariant i <= |starts| && m == WithStarts(loaded.stageProgressMap, starts[..i])
      {
        assert starts[..i + 1][..i] == starts[..i];
        var startId := starts[i];
        if startId != "" && startId !in m {
          m := m[startId := StageProgress(startId, 0, None, true, false)];
        }
        i := i + 1;
      }
      assert starts[..i] == starts;
      curriculum := Some(merged);
      progress := Some(loaded.(stageProgressMap := m));
      loading := false;
    }

    /** `unlockStage`: nothing without progress, else the stage unlocked. */
    method UnlockStage(stageId: string)
      modifies this
      ensures old(progress).None? ==> progress.None?
      ensures old(progress).Some? ==>
                progress == Some(old(progress).value.(stageProgressMap :=
                                   Unlock(old(progress).value.stageProgressMap, stageId)))
      ensures curriculum == old(curriculum) && loading == old(loading)
    {
      if progress.None? {
        return;
      }
      var m := progress.value.stageProgressMap;
      if stageId !in m {
        m := m[stageId := StageProgress(stageId, 0, None, true, false)];
      } else {
        m := m[stageId := m[stageId].(unlocked := true)];
      }
      progress := Some(progress.value.(stageProgressMap := m));
    }

    /** `unlockAllStages`: every stage of the curriculum unlocked. */
    method UnlockAllStages()
      modifies this
      ensures old(progress).None? || old(curriculum).None? ==> progress == old(progress)
      ensures old(progress).Some? && old(curriculum).Some? ==>
                progress == Some(old(progress).value.(stageProgressMap :=
                                   UnlockEach(old(progress).value.stageProgressMap, old(curriculum).value.stages)))
      ensures curriculum == old(curriculum) && loading == old(loading)
    {
      if progress.None? || curriculum.None? {
        return;
      }
      var stages := curriculum.value.stages;
      var m := progress.value.stageProgressMap;
      var i := 0;
      while i < |stages|
        invariant i <= |stages| && m == UnlockEach(progress.value.stageProgressMap, stages[..i])
      {
        assert stages[..i + 1][..i] == stages[..i];
        var id := stages[i].id;
        if id !in m {
          m := m[id := StageProgress(id, 0, None, true, false)];
        } else {
          m := m[id := m[id].(unlocked := true)];
        }
        i := i + 1;
      }
      assert stages[..i] == stages;
      progress := Some(progress.value.(stageProgressMap := m));
    }

    /**
     * `recordStageResult`: the ledger update with the stage's successor, then
     * the successor unlocked once the passes reach the rule; the weak set is
     * left as it was. The result is exactly the ledger update.
     */
    method RecordStageResult(stageId: string, passed: bool, timeUsed: real, mistakes: seq<WeakQuestion>, now: int)
      modifies this
      ensures old(progress).None? || old(curriculum).None? ==> progress == old(progress)
      ensures old(progress).Some? && old(curriculum).Some? ==>
                progress == Some(UpdateStageProgress(old(progress).value, stageId, passed, Some(timeUsed),
                                                     NextOf(old(curriculum).value.stages, stageId), now))
      ensures old(progress).Some? && progress.Some? ==> progress.value.weakSet == old(progress).value.weakSet
      ensures curriculum == old(curriculum) && loading == old(loading)
    {
      if progress.None? || curriculum.None? {
        return;
      }
      var stages := curriculum.value.stages;
      var currentStage := FindStage(stages, stageId);
      var nextStageId := if currentStage.Some? then currentStage.value.nextStageId else None;
      var newProg := UpdateStageProgress(progress.value, stageId, passed, Some(timeUsed), nextStageId, now);
      var rule := OrDefault(curriculum.value.globalRules.consecutivePassesRequired, 2);
      var stageP := newProg.stageProgressMap[stageId];
      if passed && stageP.consecutivePasses >= rule && Named(nextStageId) {
        var m := newProg.stageProgressMap;
        var nextP := EntryOr(m, nextStageId.value, false);
        ExtraUnlockRedundant(progress.value, stageId, Some(timeUsed), nextStageId, now);
        newProg := newProg.(stageProgressMap := m[nextStageId.value := nextP.(unlocked := true)]);
      }
      progress := Some(newProg);
    }
  }
}
