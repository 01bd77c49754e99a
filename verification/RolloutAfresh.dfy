/** Commands that pass over a recovery file: with --ignore-recovery-file, or because reading it fails, which the program
    takes for there being none. The theorems about runs hold for exactly the histories in which this does not happen
    while a file is there. */
module RolloutAfresh {
  import opened Collections
  import opened Cloud
  import opened Rollout
  import opened RolloutInvariant
  import opened RolloutMoves
  import opened RolloutTheorems
  import opened RolloutRecovery
  import opened RolloutWitnesses

  /** A new process starts from an empty state although there is a file, be it readable or torn. */
  ghost predicate StartAfresh(w: World, w': World) {
    !w.proc.Alive? && !w.disk.Absent? && w' == w.(proc := Alive(Enter(Gather)), mem := Fresh)
  }

  ghost predicate HistoryStep(w: World, w': World) {
    Step(w, w') || StartAfresh(w, w')
  }

  ghost predicate HistoryStepAt(h: seq<World>, i: nat)
    requires i + 1 < |h|
  {
    HistoryStep(h[i], h[i + 1])
  }

  /** Any number of commands, also such as start afresh. */
  ghost predicate IsHistory(h: seq<World>) {
    h != [] && Init(h[0]) && forall i: nat :: i + 1 < |h| ==> HistoryStepAt(h, i)
  }

  ghost predicate AfreshAt(h: seq<World>, i: nat)
    requires i + 1 < |h|
  {
    StartAfresh(h[i], h[i + 1])
  }

  lemma RunIsHistory(run: seq<World>)
    requires IsRun(run)
    ensures IsHistory(run)
  {
    hide Step;
    forall i: nat | i + 1 < |run| ensures HistoryStepAt(run, i) {
      assert StepAt(run, i);
    }
  }

  lemma FileIsGathered(w: World)
    requires Inv(w) && w.disk.Valid?
    ensures w.disk.saved.gatherDone
  {
    hide Meaning, ProcOk;
  }

  lemma AfreshIsNoStep(w: World, w': World)
    requires Inv(w) && StartAfresh(w, w')
    ensures !Step(w, w')
  {
    hide Inv, StageStep;
    if w.disk.Valid? {
      FileIsGathered(w);
    }
    NoStageWhenStopped(w, w');
  }

  lemma NoStageWhenStopped(w: World, w': World)
    requires !w.proc.Alive?
    ensures !StageStep(w, w')
  {
  }

  /** The runs are the histories in which no command starts afresh over a file. */
  lemma RunIffNeverAfresh(h: seq<World>)
    requires IsHistory(h)
    ensures IsRun(h) <==> forall i: nat :: i + 1 < |h| ==> !AfreshAt(h, i)
  {
    hide Inv, Step, StartAfresh;
    if IsRun(h) {
      forall i: nat | i + 1 < |h| ensures !AfreshAt(h, i) {
        RunInv(h, i);
        assert StepAt(h, i);
        if AfreshAt(h, i) {
          AfreshIsNoStep(h[i], h[i + 1]);
        }
      }
    }
    if forall i: nat :: i + 1 < |h| ==> !AfreshAt(h, i) {
      forall i: nat | i + 1 < |h| ensures StepAt(h, i) {
        assert HistoryStepAt(h, i) && !AfreshAt(h, i);
      }
    }
  }

  // ---- what a command that starts afresh records ----

  /** The record of the group as it is now, when the group is settled. */
  ghost predicate RegathersAs(w: World, d: Saved) {
    exists u, v, ids :: StartAfresh(w, u) && GatherNow(u, v, ids) && v.mem == d
  }

  ghost predicate SameOriginals(d: Saved, d': Saved)
    requires d.asgs != [] && d'.asgs != []
  {
    && d'.asgs[0].originalCapacity == d.asgs[0].originalCapacity
    && d'.asgs[0].originalMaxCapacity == d.asgs[0].originalMaxCapacity
    && Elements(d'.asgs[0].originalInstances) == Elements(d.asgs[0].originalInstances)
  }

  /** A command that starts afresh over a readable file records the same originals exactly when the group still has the
      sizes and the instances it had before the rollout. */
  lemma RegathersSameIff(run: seq<World>, k: nat, d': Saved)
    requires IsRun(run) && k < |run| && run[k].disk.Valid? && RegathersAs(run[k], d')
    ensures run[k].past.Rollout? && run[k].disk.saved.asgs != [] && d'.asgs != []
    ensures var b, c := run[k].past.before, run[k].cloud;
      SameOriginals(run[k].disk.saved, d') <==>
        c.desired == b.desired && c.maxSize == b.maxSize && c.members == b.members
  {
    hide Inv, IsRun, Step;
    RunInv(run, k);
    RecordIsOriginal(run[k]);
    var u, v, ids :| StartAfresh(run[k], u) && GatherNow(u, v, ids) && v.mem == d';
    assert d'.asgs[0] == Asg(u.cloud.desired, 0, u.cloud.maxSize, ids, []);
  }

  lemma RecordIsOriginal(w: World)
    requires Inv(w) && w.disk.Valid?
    ensures w.past.Rollout? && OriginalsMatch(w.disk.saved, w.past) && Lists(w.past.originals, w.past.before.members)
  {
    hide CapacityOk, EffectsOk, InstancesOk, EnoughNew, LossFree, ProcOk;
  }

  /** In particular it never does once the group was scaled up, until draining is flagged: the capacity recorded is
      then twice the original one. */
  lemma RegathersDoubled(run: seq<World>, k: nat, d': Saved)
    requires IsRun(run) && k < |run| && run[k].disk.Valid? && RegathersAs(run[k], d')
    requires run[k].disk.saved.scaleUpDone && !run[k].mem.drainDone
    ensures run[k].disk.saved.asgs != [] && d'.asgs != []
    ensures d'.asgs[0].originalCapacity == 2 * run[k].disk.saved.asgs[0].originalCapacity
  {
    hide Inv, IsRun, Step;
    RunInv(run, k);
    RecordIsOriginal(run[k]);
    StillDoubled(run[k]);
    var u, v, ids :| StartAfresh(run[k], u) && GatherNow(u, v, ids) && v.mem == d';
    assert d'.asgs[0] == Asg(u.cloud.desired, 0, u.cloud.maxSize, ids, []);
  }

  lemma StillDoubled(w: World)
    requires Inv(w) && w.disk.Valid? && w.disk.saved.scaleUpDone && !w.mem.drainDone
    ensures w.past.Rollout? && w.cloud.desired == 2 * w.past.before.desired
  {
    hide InstancesOk, EnoughNew, LossFree, ProcOk;
    var o := Originals(w.disk.saved);
    assert o * w.cloud.detached == {};
  }

  // ---- a history that loses the originals ----

  lemma ExtendHistory(h: seq<World>, w: World)
    requires IsHistory(h) && HistoryStep(h[|h| - 1], w)
    ensures IsHistory(h + [w])
  {
    hide HistoryStep;
    forall i: nat | i + 1 < |h + [w]| ensures HistoryStepAt(h + [w], i) {
      if i + 1 < |h| {
        assert HistoryStepAt(h, i);
      }
    }
  }

  /** A run stopped with the group doubled and all of it there. */
  lemma StopsDoubled(w: World) returns (run: seq<World>)
    requires Init(w) && |w.cloud.members| == w.cloud.desired > 0
    ensures run != [] && IsRun(run) && run[0] == w
    ensures var last := run[|run| - 1];
      && last.proc.Dead? && last.disk.Valid? && last.disk.saved.asgs != []
      && last.disk.saved.asgs[0].originalCapacity == w.cloud.desired
      && |last.cloud.members| == last.cloud.desired == 2 * w.cloud.desired
  {
    hide Inv, Step, Reaches, IsRun, Good;
    var u := SettledGroupRecorded(w);
    var v := Advances(u, SetMax, WaitNodes);
    HasNew(v);
    OnDisk(v, WaitNodes);
    Facts(v);
    RecordIsOriginal(v);
    StillDoubled(v);
    var w' := v.(proc := Dead);
    ByStop(v, w');
    ReachesStep(v, w');
    ReachesTrans(w, u, v);
    ReachesTrans(w, v, w');
    run := RunTo(w, w');
  }

  /** A command that starts afresh on a settled group replaces the file. */
  lemma Regathers(h: seq<World>) returns (h': seq<World>)
    requires h != [] && IsHistory(h) && h[|h| - 1].proc.Dead? && h[|h| - 1].disk.Valid?
    requires |h[|h| - 1].cloud.members| == h[|h| - 1].cloud.desired
    ensures h <= h' && |h'| > |h| && IsHistory(h')
    ensures var d := h'[|h'| - 1].disk;
      d.Valid? && d.saved.asgs != [] && d.saved.asgs[0].originalCapacity == h[|h| - 1].cloud.desired
  {
    hide IsHistory, Step;
    var w := h[|h| - 1];
    var w1 := w.(proc := Alive(Enter(Gather)), mem := Fresh);
    ExtendHistory(h, w1);
    var ids := ListingExists(w1.cloud.members);
    ElementsSize(ids);
    var w2 := w1.(proc := Alive(Persisting(Gather)), mem := Recorded(Fresh, w1.cloud, ids),
                  past := Rollout(w1.cloud, ids, true), lost := {});
    ByGatherRecord(w1, w2, ids);
    ExtendHistory(h + [w1], w2);
    var w3 := w2.(proc := Alive(Writing(Gather)), disk := Corrupt);
    ByTruncate(w2, w3);
    ExtendHistory(h + [w1] + [w2], w3);
    var w4 := w3.(proc := Alive(AfterWrite(Gather)), disk := Valid(w3.mem));
    ByWrite(w3, w4);
    ExtendHistory(h + [w1] + [w2] + [w3], w4);
    h' := h + [w1] + [w2] + [w3] + [w4];
  }

  /** For every settled group there is a history after which the file names twice the original capacity. */
  lemma OriginalsLostHappens(w: World) returns (h: seq<World>, k: nat)
    requires Init(w) && |w.cloud.members| == w.cloud.desired > 0
    ensures IsHistory(h) && h[0] == w && k + 1 < |h| && h[k].disk.Valid? && h[|h| - 1].disk.Valid?
    ensures var d, d' := h[k].disk.saved, h[|h| - 1].disk.saved;
      && d.asgs != [] && d'.asgs != []
      && d.asgs[0].originalCapacity == w.cloud.desired && d'.asgs[0].originalCapacity == 2 * w.cloud.desired
  {
    hide IsHistory, IsRun;
    var run := StopsDoubled(w);
    RunIsHistory(run);
    k := |run| - 1;
    h := Regathers(run);
  }
}
