/** Runs that do go wrong, one for each way in which the theorems say a rollout can. */
module RolloutWitnesses {
  import opened Collections
  import opened Cloud
  import opened Rollout
  import opened RolloutInvariant
  import opened RolloutMoves
  import opened RolloutTheorems
  import opened RolloutRecovery

  lemma RunTo(w: World, w': World) returns (run: seq<World>)
    requires Init(w) && Reaches(w, w')
    ensures run != [] && IsRun(run) && run[0] == w && run[|run| - 1] == w'
  {
    run :| IsPath(run) && run[0] == w && run[|run| - 1] == w';
  }

  // ---- a stop in the middle of detaching ----

  lemma AtDetaching(w: World)
    requires DetachGood(w)
    ensures w.disk == Valid(w.mem) && !w.mem.detachDone
    ensures Elements(w.mem.asgs[0].originalInstances[..w.proc.pc.covered]) <= w.cloud.detached
  {
    hide RecordOk, CapacityOk, EffectsOk, InstancesOk, EnoughNew, LossFree, DiskOk, Elements;
  }

  lemma AmidDetach(w: World)
    requires DetachGood(w) && w.proc.pc.covered > 0
    ensures w.disk == Valid(w.mem) && !w.mem.detachDone && Originals(w.mem) * w.cloud.detached != {}
  {
    hide Inv;
    AtDetaching(w);
    var o, k := w.mem.asgs[0].originalInstances, w.proc.pc.covered;
    assert o[0] == o[..k][0];
    assert o[0] in Elements(o[..k]);
    assert o[0] in Originals(w.mem) * w.cloud.detached;
  }

  lemma HasOriginals(w: World)
    requires Inv(w) && w.mem.gatherDone && w.past.Rollout? && w.past.before.members != {}
    ensures w.mem.asgs != [] && w.mem.asgs[0].originalInstances != []
  {
    hide CapacityOk, EffectsOk, InstancesOk, EnoughNew, LossFree, DiskOk, ProcOk;
    assert Elements(w.past.originals) != {};
  }

  /** The first batch is detached, and the command stops. */
  lemma StopsAfterBatch(w: World) returns (w': World)
    requires Poised(w, Detach) && w.past.Rollout? && w.past.before.members != {}
    ensures Reaches(w, w') && w'.proc.Dead? && w'.disk.Valid? && !w'.disk.saved.detachDone
    ensures Originals(w'.disk.saved) * w'.cloud.detached != {}
  {
    hide Inv, Step, Reaches;
    Place(w);
    HasOriginals(w);
    var u := w.(proc := Alive(Detaching(0)));
    ByDetachStart(w, u);
    ReachesStep(w, u);
    assert u.mem.asgs[0].originalInstances[0..] == u.mem.asgs[0].originalInstances;
    var v := DetachNext(u);
    AmidDetach(v);
    w' := v.(proc := Dead);
    ByStop(v, w');
    ReachesStep(v, w');
    ReachesTrans(w, u, v);
    ReachesTrans(w, v, w');
  }

  /** For every settled group there is a run that ends in a stop from which no later command gets to success. */
  lemma StopAmidDetachHappens(w: World) returns (run: seq<World>)
    requires Init(w) && |w.cloud.members| == w.cloud.desired && w.cloud.members != {}
    ensures run != [] && IsRun(run) && run[0] == w
    ensures var last := run[|run| - 1];
      && last.proc.Dead? && last.disk.Valid? && !last.disk.saved.detachDone
      && Originals(last.disk.saved) * last.cloud.detached != {} && !CanFinish(last)
  {
    hide Inv, Step, Reaches, Poised, IsRun, CanFinish;
    var u := SettledGroupRecorded(w);
    var v := Advances(u, SetMax, Detach);
    var w' := StopsAfterBatch(v);
    ReachesTrans(w, u, v);
    ReachesTrans(w, v, w');
    run := RunTo(w, w');
    StopAmidDetachIsFinal(run, |run| - 1);
  }

  // ---- a new instance that is lost before the wait for it is over ----

  lemma OnDisk(w: World, s: Stage)
    requires Poised(w, s)
    ensures w.disk == Valid(w.mem)
  {
    hide CapacityOk, EffectsOk, InstancesOk, EnoughNew, LossFree, DiskOk;
  }

  lemma NewPresent(m: Saved, c: Cloud, before: Cloud)
    requires LossFree(m, c, before) && InstancesOk(m, c, {}) && m.scaleUpDone && before.desired > 0
    ensures NewOnes(m) != {} && NewOnes(m) <= c.members && |c.members| == c.desired
  {
  }

  lemma HasNew(w: World)
    requires Poised(w, WaitNodes) && w.past.Rollout? && w.past.before.desired > 0 && w.lost == {}
    ensures NewOnes(w.mem) != {} && NewOnes(w.mem) <= w.cloud.members && |w.cloud.members| == w.cloud.desired
    ensures w.mem.scaleUpDone && !w.mem.waitDone
  {
    hide CapacityOk, EffectsOk, InstancesOk, LossFree, EnoughNew, DiskOk, ProcOk;
    NewPresent(w.mem, w.cloud, w.past.before);
  }

  /** For every settled group there is a run that stops while it waits for an instance that has come and gone; no later
      command gets to success. */
  lemma NewInstanceGoneHappens(w: World) returns (run: seq<World>)
    requires Init(w) && |w.cloud.members| == w.cloud.desired > 0
    ensures run != [] && IsRun(run) && run[0] == w
    ensures var last := run[|run| - 1];
      && last.proc.Dead? && last.disk.Valid? && last.disk.saved.scaleUpDone && !last.disk.saved.waitDone
      && !(NewOnes(last.disk.saved) <= last.cloud.members + last.cloud.ready) && !CanFinish(last)
  {
    hide Inv, Step, Reaches, IsRun, CanFinish, Good;
    var u := SettledGroupRecorded(w);
    var v := Advances(u, SetMax, WaitNodes);
    HasNew(v);
    OnDisk(v, WaitNodes);
    var i :| i in NewOnes(v.mem);
    var x := v.(cloud := v.cloud.(members := v.cloud.members - {i}, ready := v.cloud.ready - {i}),
                lost := v.lost + {i});
    ByFail(v, x, i, true);
    ReachesStep(v, x);
    var w' := x.(proc := Dead);
    ByStop(x, w');
    ReachesStep(x, w');
    ReachesTrans(w, u, v);
    ReachesTrans(w, v, x);
    ReachesTrans(w, x, w');
    run := RunTo(w, w');
    RecoverableIff(run, |run| - 1);
  }

  // ---- a torn recovery file ----

  /** For every settled group there is a run in which the command stops while it writes its first record. */
  lemma TornFileHappens(w: World) returns (run: seq<World>)
    requires Init(w) && |w.cloud.members| == w.cloud.desired
    ensures run != [] && IsRun(run) && run[0] == w && run[|run| - 1].disk.Corrupt? && run[|run| - 1].proc.Dead?
  {
    hide Inv, Step, Reaches, IsRun;
    var u := Starts(w);
    var v := PassGather(u);
    var x := v.(proc := Alive(Writing(Gather)), disk := Corrupt);
    ByTruncate(v, x);
    ReachesStep(v, x);
    var w' := x.(proc := Dead);
    ByStop(x, w');
    ReachesStep(x, w');
    ReachesTrans(w, u, v);
    ReachesTrans(w, v, x);
    ReachesTrans(w, x, w');
    run := RunTo(w, w');
  }

  // ---- a group that ends larger than it was ----

  lemma StartsWaiting(w: World) returns (w': World)
    requires Init(w) && |w.cloud.members| != w.cloud.desired
    ensures Reaches(w, w') && Inv(w') && w' == w.(proc := Alive(GatherWaiting))
  {
    hide Inv, Step, Reaches;
    var u := Starts(w);
    w' := u.(proc := Alive(GatherWaiting));
    ByGatherWait(u, w');
    ReachesStep(u, w');
    ReachesTrans(w, u, w');
  }

  /** The missing instance comes, and the first wait is over. */
  lemma Settles(w: World, i: Id) returns (w': World)
    requires Init(w) && |w.cloud.members| + 1 == w.cloud.desired && i !in w.cloud.seen
    ensures Reaches(w, w') && Inv(w') && At(w', GatherReread) && w'.mem == Fresh
    ensures w'.cloud == w.cloud.(members := w.cloud.members + {i}, seen := w.cloud.seen + {i})
  {
    hide Inv, Step, Reaches;
    var u := StartsWaiting(w);
    var v := u.(cloud := w.cloud.(members := w.cloud.members + {i}, seen := w.cloud.seen + {i}));
    ByLaunch(u, v, i);
    ReachesStep(u, v);
    w' := v.(proc := Alive(GatherReread), lost := {});
    ByGatherSettled(v, w');
    ReachesStep(v, w');
    ReachesTrans(w, u, v);
    ReachesTrans(w, v, w');
  }

  /** An instance fails and leaves before the group is described again, and the rest is recorded. */
  lemma RecordsTooFew(w: World, i: Id) returns (w': World)
    requires Inv(w) && At(w, GatherReread) && w.mem == Fresh && i in w.cloud.members
    ensures Reaches(w, w') && Passed(w', Gather) && w'.past.Rollout? && w'.past.before.members == w.cloud.members - {i}
    ensures w'.past.before.desired == w.cloud.desired && w'.past.before.maxSize == w.cloud.maxSize
  {
    hide Inv, Step, Reaches;
    var v := w.(cloud := w.cloud.(members := w.cloud.members - {i}, ready := w.cloud.ready - {i}),
                lost := w.lost + {i});
    ByFail(w, v, i, true);
    ReachesStep(w, v);
    var ids := ListingExists(v.cloud.members);
    w' := v.(proc := Alive(Persisting(Gather)), mem := Recorded(Fresh, v.cloud, ids),
             past := Rollout(v.cloud, ids, true));
    ByGatherRecord(v, w', ids);
    ReachesStep(v, w');
    ReachesTrans(w, v, w');
  }

  /** For every group that waits for one instance and has room above its size there is a run that succeeds and leaves
      one more instance wanted than before: one fails between the end of the wait and the second look. */
  lemma EndsTooLargeHappens(w: World) returns (run: seq<World>)
    requires Init(w) && |w.cloud.members| + 1 == w.cloud.desired < w.cloud.maxSize
    ensures run != [] && IsRun(run) && run[0] == w && run[|run| - 1].proc.Finished?
    ensures run[|run| - 1].cloud.desired == w.cloud.desired + 1
  {
    hide Inv, Step, Reaches, IsRun, Good;
    var i := FreshId(w.cloud.seen);
    var u := Settles(w, i);
    var v := RecordsTooFew(u, i);
    assert v.past.before.members == w.cloud.members by {
      NewToGroup(w, i);
    }
    var x := Written(v, Gather);
    var w' := FinishesFrom(x, SetMax);
    FinishedRolledOut(w');
    ReachesTrans(w, u, v);
    ReachesTrans(w, v, x);
    ReachesTrans(w, x, w');
    run := RunTo(w, w');
  }

  lemma NewToGroup(w: World, i: Id)
    requires w.cloud.WellFormed() && i !in w.cloud.seen
    ensures w.cloud.members + {i} - {i} == w.cloud.members
  {
  }

  /** A group of three, with room for ten, that waits for its third instance. */
  const TwoOfThree := Cloud(1, 3, 10, {"a", "b"}, {"a", "b"}, {}, {}, {}, {}, {}, {"a", "b"})

  lemma ThreeBecomeFour() returns (run: seq<World>)
    ensures run != [] && IsRun(run) && run[0].cloud == TwoOfThree && run[0].cloud.desired == 3
    ensures run[|run| - 1].proc.Finished? && run[|run| - 1].cloud.desired == 4
  {
    assert |TwoOfThree.members| == 2;
    run := EndsTooLargeHappens(World(Dead, Fresh, Absent, TwoOfThree, NoRollout, {}));
  }
}
