/** What the invariant of the rollout machine means for its users, over every run with any number of crashes,
    failed calls, restarts and failing instances. */
module RolloutTheorems {
  import opened Collections
  import opened Cloud
  import opened Rollout
  import opened RolloutInvariant

  lemma RunInv(run: seq<World>, k: nat)
    requires IsRun(run) && k < |run|
    ensures Inv(run[k])
  {
    InitInv(run[0]);
    PathInv(run, k);
  }

  // ---- the recovery file describes the cloud, at most one stage behind ----

  /** The effect of a stage is in place. The maximum and desired sizes are wound back by later stages. */
  ghost predicate Happened(s: Stage, d: Saved, w: World)
    requires w.past.Rollout?
  {
    var o, n, c, b := Originals(d), NewOnes(d), w.cloud, w.past.before;
    match s
    case Gather => OriginalsMatch(d, w.past)
    case SetMax => !d.terminateDone ==> c.maxSize >= 2 * b.desired
    case ScaleUp =>
      && n !! o && n <= c.members + w.lost && b.desired <= |n + (w.lost - o)|
      && (!d.terminateDone ==> c.desired == 2 * b.desired - |o * c.detached|)
    case WaitNodes => n <= c.ready + w.lost
    case Cordon => o <= c.cordoned
    case Drain => o <= c.drained
    case Detach => o <= c.detached && o !! c.members
    case Terminate => o <= c.attempted
    case Restore => false
  }

  /** Nothing of a stage can be seen. Gathering and waiting have no effect on the cloud. */
  ghost predicate Untouched(s: Stage, d: Saved, w: World)
    requires w.past.Rollout?
  {
    var c, b := w.cloud, w.past.before;
    match s
    case Gather => true
    case SetMax => c.maxSize == b.maxSize
    case ScaleUp => c.desired == b.desired
    case WaitNodes => true
    case Cordon => c.cordoned == b.cordoned
    case Drain => c.drained == b.drained
    case Detach => c.detached == b.detached
    case Terminate => c.attempted == b.attempted
    case Restore => d.setMaxDone ==> c.maxSize == Max(b.maxSize, 2 * b.desired)
  }

  lemma EffectInPlace(s: Stage, d: Saved, w: World)
    requires w.cloud.WellFormed() && d.gatherDone && Meaning(d, w.cloud, w.past, w.lost) && Index(s) < Level(d)
    ensures Happened(s, d, w)
  {
  }

  lemma NoEffectBeyond(s: Stage, d: Saved, w: World)
    requires w.cloud.WellFormed() && d.gatherDone && Meaning(d, w.cloud, w.past, w.lost) && Index(s) > Level(d)
    ensures Untouched(s, d, w)
  {
  }

  lemma DiskLagsAtMostOneStage(run: seq<World>, k: nat, s: Stage)
    requires IsRun(run) && k < |run| && run[k].disk.Valid?
    ensures var w := run[k]; var d := w.disk.saved;
      && w.past.Rollout?
      && PrefixFlags(d) && d.gatherDone
      && (d.Done(s) <==> Index(s) < Level(d))
      && (Index(s) < Level(d) ==> Happened(s, d, w))
      && (Index(s) > Level(d) ==> Untouched(s, d, w))
      && Level(d) <= Level(w.mem) <= Level(d) + 1
  {
    RunInv(run, k);
    var w := run[k];
    if Index(s) < Level(w.disk.saved) {
      EffectInPlace(s, w.disk.saved, w);
    } else if Index(s) > Level(w.disk.saved) {
      NoEffectBeyond(s, w.disk.saved, w);
    }
  }

  /** While a file on disk is not readable and no process is left to finish writing it, the rollout is over: no
      command gets past reading the file, and nothing but the environment moves the cloud. */
  lemma {:induction false} CorruptNeverResumes(run: seq<World>, i: nat, k: nat)
    requires IsRun(run) && i <= k < |run|
    requires run[i].disk.Corrupt? && !run[i].proc.Alive?
    ensures run[k].disk.Corrupt? && !run[k].proc.Alive?
    ensures run[k].cloud.Worked() == run[i].cloud.Worked()
    ensures run[k].cloud.desired == run[i].cloud.desired && run[k].cloud.maxSize == run[i].cloud.maxSize
  {
    if i < k {
      CorruptNeverResumes(run, i, k - 1);
      assert StepAt(run, k - 1);
      DeadStep(run[k - 1], run[k]);
    }
  }

  lemma DeadStep(w: World, w': World)
    requires Step(w, w') && w.disk.Corrupt? && !w.proc.Alive?
    ensures w'.disk == w.disk && w'.proc == w.proc
    ensures w'.cloud.Worked() == w.cloud.Worked()
    ensures w'.cloud.desired == w.cloud.desired && w'.cloud.maxSize == w.cloud.maxSize
  {
    assert EnvStep(w, w');
  }

  /** A process stops between truncating the file and writing it. */
  ghost predicate Torn(run: seq<World>, i: nat)
    requires i + 1 < |run|
  {
    run[i].proc.Alive? && run[i].proc.pc.Writing? && run[i + 1].proc == Dead
  }

  lemma TornIsCorrupt(run: seq<World>, i: nat)
    requires IsRun(run) && i + 1 < |run| && Torn(run, i)
    ensures run[i + 1].disk.Corrupt? && !run[i + 1].proc.Alive?
  {
    hide Step;
    RunInv(run, i);
    assert StepAt(run, i);
    TornStep(run[i], run[i + 1]);
  }

  lemma CorruptBefore(run: seq<World>, k: nat)
    requires IsRun(run) && k + 1 < |run| && run[k + 1].disk.Corrupt? && !run[k + 1].proc.Alive?
    ensures Torn(run, k) || (run[k].disk.Corrupt? && !run[k].proc.Alive?)
  {
    hide Step;
    RunInv(run, k);
    assert StepAt(run, k);
    if run[k].proc.Alive? {
      BecomesCorrupt(run[k], run[k + 1]);
    } else {
      StaysCorrupt(run[k], run[k + 1]);
    }
  }

  /** The only way to lose the recovery file, and it always does. */
  lemma {:induction false} CorruptIffTorn(run: seq<World>, k: nat)
    requires IsRun(run) && k < |run|
    ensures run[k].disk.Corrupt? && !run[k].proc.Alive? <==> exists i: nat :: i < k && Torn(run, i)
  {
    forall i: nat | i < k && Torn(run, i)
      ensures run[k].disk.Corrupt? && !run[k].proc.Alive?
    {
      TornIsCorrupt(run, i);
      CorruptNeverResumes(run, i + 1, k);
    }
    if k > 0 && run[k].disk.Corrupt? && !run[k].proc.Alive? {
      CorruptBefore(run, k - 1);
      if !Torn(run, k - 1) {
        CorruptIffTorn(run, k - 1);
      }
    }
  }

  lemma TornStep(w: World, w': World)
    requires ProcOk(w) && Step(w, w') && w.proc.Alive? && w.proc.pc.Writing? && w'.proc == Dead
    ensures w'.disk.Corrupt?
  {
    assert Stop(w, w');
  }

  lemma StageEndsByDeleting(w: World, w': World)
    requires StageStep(w, w') && w.proc.Alive? && !w'.proc.Alive?
    ensures exists ok :: DeleteFile(w, w', ok)
  {
    hide ProcOk;
  }

  lemma BecomesCorrupt(w: World, w': World)
    requires ProcOk(w) && Step(w, w') && w.proc.Alive? && !w'.proc.Alive? && w'.disk.Corrupt?
    ensures w.proc.pc.Writing? && w'.proc == Dead
  {
    hide StageStep;
    if !Stop(w, w') {
      StageEndsByDeleting(w, w');
      assert false;
    }
  }

  lemma StaysCorrupt(w: World, w': World)
    requires Step(w, w') && !w.proc.Alive? && !w'.proc.Alive? && w'.disk.Corrupt?
    ensures w.disk.Corrupt?
  {
    assert EnvStep(w, w');
  }

  // ---- write-ahead of the originals ----

  /** Nothing is changed in the cloud before the originals are on disk, and whatever readable file is there later
      has them, as does every process that has read one. */
  lemma WriteAhead(run: seq<World>, k: nat)
    requires IsRun(run) && k < |run|
    requires run[k].past.Rollout? && run[k].past.active && Changed(run[k].past.before, run[k].cloud)
    ensures !run[k].disk.Absent?
    ensures run[k].disk.Valid? ==> OriginalsMatch(run[k].disk.saved, run[k].past)
    ensures run[k].mem.gatherDone ==> OriginalsMatch(run[k].mem, run[k].past)
  {
    RunInv(run, k);
  }

  lemma PastFrozenStep(w: World, w': World)
    requires Inv(w) && Step(w, w') && !w.disk.Absent? && !w'.disk.Absent?
    ensures w'.past == w.past
  {
    if EnvStep(w, w') {
    } else if Stop(w, w') {
    } else if Restart(w, w') {
    } else {
      PastFrozenStage(w, w');
    }
  }

  lemma PastFrozenStage(w: World, w': World)
    requires ProcOk(w) && PrefixFlags(w.mem) && (w.disk.Valid? ==> w.disk.saved.gatherDone)
    requires StageStep(w, w') && !w.disk.Absent? && !w'.disk.Absent?
    ensures w'.past == w.past
  {
  }

  lemma {:induction false} PastFrozen(run: seq<World>, i: nat, k: nat)
    requires IsRun(run) && i <= k < |run|
    requires forall j :: i <= j <= k ==> !run[j].disk.Absent?
    ensures run[k].past == run[i].past
  {
    if i < k {
      PastFrozen(run, i, k - 1);
      PastFrozenNext(run, k - 1);
    }
  }

  lemma PastFrozenNext(run: seq<World>, k: nat)
    requires IsRun(run) && k + 1 < |run| && !run[k].disk.Absent? && !run[k + 1].disk.Absent?
    ensures run[k + 1].past == run[k].past
  {
    RunInv(run, k);
    assert StepAt(run, k);
    PastFrozenStep(run[k], run[k + 1]);
  }

  lemma FileMatches(run: seq<World>, k: nat)
    requires IsRun(run) && k < |run| && run[k].disk.Valid?
    ensures OriginalsMatch(run[k].disk.saved, run[k].past)
  {
    RunInv(run, k);
  }

  /** From the first record until the file is deleted, the recorded originals never change. */
  lemma OriginalsFrozen(run: seq<World>, i: nat, k: nat)
    requires IsRun(run) && i <= k < |run|
    requires forall j :: i <= j <= k ==> !run[j].disk.Absent?
    requires run[i].disk.Valid? && run[k].disk.Valid?
    ensures
      && run[i].disk.saved.asgs != [] && run[k].disk.saved.asgs != []
      && var a, a' := run[i].disk.saved.asgs[0], run[k].disk.saved.asgs[0];
      && a'.originalCapacity == a.originalCapacity
      && a'.originalMaxCapacity == a.originalMaxCapacity
      && a'.originalInstances == a.originalInstances
  {
    PastFrozen(run, i, k);
    FileMatches(run, i);
    FileMatches(run, k);
  }

  // ---- zero downtime ----

  /** The nodes in service: members of the group, originals or new and ready, that no request of this program has
      touched and that have not failed on their own. */
  function Serving(w: World): set<Id> {
    set i | i in Originals(w.mem) + NewOnes(w.mem) && i in w.cloud.members
            && i !in w.cloud.Worked() && i !in w.lost
            && (i in NewOnes(w.mem) ==> i in w.cloud.ready)
  }

  /** The rollout itself never costs capacity: nodes in service and nodes that failed on their own always add up
      to at least the original capacity. */
  lemma ZeroDowntime(run: seq<World>, k: nat)
    requires IsRun(run) && k < |run| && run[k].mem.gatherDone
    ensures run[k].past.Rollout?
    ensures run[k].past.before.desired <= |Serving(run[k])| + |run[k].lost|
    ensures run[k].lost == {} ==> run[k].past.before.desired <= |Serving(run[k])|
  {
    RunInv(run, k);
    ServingEnough(run[k]);
  }

  lemma ServingEnough(w: World)
    requires Meaning(w.mem, w.cloud, w.past, w.lost) && w.mem.gatherDone
    requires w.cloud.terminated <= w.cloud.attempted
    ensures w.past.before.desired <= |Serving(w)| + |w.lost|
  {
    var o, n, lost := Originals(w.mem), NewOnes(w.mem), w.lost;
    if w.mem.waitDone {
      UnionSize(n - lost, lost);
      SubsetSize(n + (lost - o), (n - lost) + lost);
      assert n - lost <= Serving(w);
      SubsetSize(n - lost, Serving(w));
    } else {
      UnionSize(o - lost, lost);
      SubsetSize(o + lost, (o - lost) + lost);
      OriginalsUntouched(w);
      assert o - lost <= Serving(w);
      SubsetSize(o - lost, Serving(w));
    }
  }

  lemma OriginalsUntouched(w: World)
    requires Meaning(w.mem, w.cloud, w.past, w.lost) && w.mem.gatherDone && !w.mem.waitDone
    requires w.cloud.terminated <= w.cloud.attempted
    ensures Originals(w.mem) !! w.cloud.Worked()
    ensures Originals(w.mem) !! NewOnes(w.mem)
  {
  }

  /** No original is cordoned, drained, detached or terminated before the new instances were found ready. */
  lemma NoOriginalTouchedEarly(run: seq<World>, k: nat)
    requires IsRun(run) && k < |run| && run[k].mem.gatherDone && !run[k].mem.waitDone
    ensures Originals(run[k].mem) !! run[k].cloud.Worked()
  {
    RunInv(run, k);
    OriginalsUntouched(run[k]);
  }

  // ---- capacity ----

  /** The group's sizes stay in order at every step, and from the end of scaling up until the maximum is restored
      the desired capacity is twice the original less one for each original detached so far. */
  lemma CapacityConserved(run: seq<World>, k: nat)
    requires IsRun(run) && k < |run|
    ensures run[k].cloud.minSize <= run[k].cloud.desired <= run[k].cloud.maxSize
    ensures run[k].mem.scaleUpDone && !run[k].mem.terminateDone ==>
      && run[k].past.Rollout?
      && run[k].cloud.desired == 2 * run[k].past.before.desired - |Originals(run[k].mem) * run[k].cloud.detached|
      && |run[k].cloud.members| <= run[k].cloud.desired
  {
    RunInv(run, k);
  }

  // ---- the end ----

  /** The desired size a rollout ends with: it was doubled, each recorded original took one unit with it, and restoring
      the maximum cuts off what is above. */
  function FinalDesired(before: Cloud): int {
    var left := 2 * before.desired - |before.members|;
    if left <= before.maxSize then left else before.maxSize
  }

  /** The cloud a rollout leaves behind. Which instances were launched and are left, what is ready, the ids handed out
      and whether the terminations worked are not determined by the rollout. */
  function FinalCloud(before: Cloud, c: Cloud): Cloud {
    before.(desired := FinalDesired(before),
            cordoned := before.cordoned + before.members,
            drained := before.drained + before.members,
            detached := before.detached + before.members,
            attempted := before.attempted + before.members,
            members := c.members, ready := c.ready, terminated := c.terminated, seen := c.seen)
  }

  /** The goal of a rollout, reached by every command that reports success. The maximum is back, and every instance of
      the group as it was recorded is out of it and was asked to terminate. The desired size is back exactly if the
      group was recorded complete, or had no room above it. Besides those that failed on their own, enough new
      instances are there and ready; if none failed, the group consists of just these and of as many as before. */
  ghost predicate RolledOut(w: World) {
    && w.past.Rollout?
    && var b, c, n := w.past.before, w.cloud, NewOnes(w.mem);
    && c == FinalCloud(b, c)
    && (c.desired == b.desired <==> |b.members| == b.desired || b.maxSize == b.desired)
    && b.members !! c.members
    && n <= c.members + w.lost && n <= c.ready + w.lost && b.desired <= |n + w.lost|
    && (w.lost == {} ==> c.members == n && |n| == b.desired == c.desired && n <= c.ready)
  }

  /** Every command that reports success has reached the goal, after however many crashes and resumes. */
  lemma FinishedCloud(run: seq<World>, k: nat)
    requires IsRun(run) && k < |run| && run[k].proc.Finished?
    ensures RolledOut(run[k])
  {
    hide IsRun;
    RunInv(run, k);
    FinishedRolledOut(run[k]);
  }

  lemma FinishedRolledOut(w: World)
    requires Inv(w) && w.proc.Finished?
    ensures RolledOut(w)
  {
    hide Inv;
    FinishedEffects(w);
    FinishedSizes(w);
    FinishedNew(w);
  }

  lemma FinishedEffects(w: World)
    requires Inv(w) && w.proc.Finished?
    ensures w.past.Rollout? && Originals(w.mem) == w.past.before.members
    ensures w.cloud.cordoned == w.past.before.cordoned + Originals(w.mem)
    ensures w.cloud.drained == w.past.before.drained + Originals(w.mem)
    ensures w.cloud.detached == w.past.before.detached + Originals(w.mem)
    ensures w.cloud.attempted == w.past.before.attempted + Originals(w.mem)
    ensures Originals(w.mem) !! w.cloud.members
  {
    hide CapacityOk, InstancesOk, EnoughNew, LossFree, DiskOk;
  }

  lemma FinishedSizes(w: World)
    requires Inv(w) && w.proc.Finished?
    ensures w.past.Rollout? && w.cloud.minSize == w.past.before.minSize && w.cloud.maxSize == w.past.before.maxSize
    ensures w.cloud.desired == FinalDesired(w.past.before)
    ensures var b := w.past.before;
      w.cloud.desired == b.desired <==> |b.members| == b.desired || b.maxSize == b.desired
  {
    hide EffectsOk, InstancesOk, EnoughNew, LossFree, DiskOk;
    ElementsSize(w.past.originals);
  }

  lemma LossFreeFinish(m: Saved, c: Cloud, before: Cloud)
    requires LossFree(m, c, before) && m.scaleUpDone && Originals(m) <= c.detached
    ensures c.members == NewOnes(m) && |NewOnes(m)| == before.desired == |Originals(m)|
  {
    assert Originals(m) - c.detached == {};
  }

  lemma FinishedNew(w: World)
    requires Inv(w) && w.proc.Finished?
    ensures var b, c, n := w.past.before, w.cloud, NewOnes(w.mem);
      && n <= c.members + w.lost && n <= c.ready + w.lost && b.desired <= |n + w.lost|
      && (w.lost == {} ==> c.members == n && |n| == b.desired == |Originals(w.mem)|)
  {
    hide CapacityOk, LossFree, DiskOk;
    var n, lost := NewOnes(w.mem), w.lost;
    SubsetSize(n + (lost - Originals(w.mem)), n + lost);
    if lost == {} {
      LossFreeFinish(w.mem, w.cloud, w.past.before);
    }
  }

  /** Crashes and resumes make no difference to the outcome: two successful runs from the same group end in the same
      cloud, up to the instances that were launched and what became of them. */
  lemma ResumeConfluence(run: seq<World>, run': seq<World>, k: nat, k': nat)
    requires IsRun(run) && k < |run| && run[k].proc.Finished?
    requires IsRun(run') && k' < |run'| && run'[k'].proc.Finished?
    requires run[k].past.Rollout? && run'[k'].past.Rollout? && run[k].past.before == run'[k'].past.before
    ensures var c, c' := run[k].cloud, run'[k'].cloud;
      && c' == c.(members := c'.members, ready := c'.ready, terminated := c'.terminated, seen := c'.seen)
      && (run[k].lost == run'[k'].lost == {} ==>
            && c.members == NewOnes(run[k].mem) && c'.members == NewOnes(run'[k'].mem)
            && |c.members| == |c'.members| == run[k].past.before.desired)
  {
    hide IsRun;
    FinishedCloud(run, k);
    FinishedCloud(run', k');
  }
}
