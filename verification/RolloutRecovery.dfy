/** Exactly when a stopped rollout can still be completed from its recovery file. */
module RolloutRecovery {
  import opened Collections
  import opened Cloud
  import opened Rollout
  import opened RolloutInvariant
  import opened RolloutMoves
  import opened RolloutTheorems

  ghost predicate Reaches(w: World, w': World) {
    exists run :: IsPath(run) && run[0] == w && run[|run| - 1] == w'
  }

  /** Some behaviour of the calls, the group and the operator brings the command to report success. */
  ghost predicate CanFinish(w: World) {
    exists w' :: Reaches(w, w') && w'.proc.Finished?
  }

  /** What an operator can check before resuming: no recorded original has left the group unless detaching is
      flagged as done, and no recorded new instance is gone while the file still waits for it. */
  predicate Recoverable(w: World)
    requires w.disk.Valid?
  {
    var d, c := w.disk.saved, w.cloud;
    && (!d.detachDone ==> Originals(d) <= c.members)
    && (d.scaleUpDone && !d.waitDone ==> NewOnes(d) <= c.members + c.ready)
  }

  // ---- paths ----

  lemma ReachesSelf(w: World)
    ensures Reaches(w, w)
  {
    assert IsPath([w]);
  }

  lemma ReachesStep(w: World, w': World)
    requires Step(w, w')
    ensures Reaches(w, w') && (Inv(w) ==> Inv(w'))
  {
    hide Inv;
    if Inv(w) {
      StepInv(w, w');
    }
    var run := [w, w'];
    assert StepAt(run, 0);
    assert IsPath(run);
  }

  lemma ReachesTrans(a: World, b: World, c: World)
    requires Reaches(a, b) && Reaches(b, c)
    ensures Reaches(a, c)
  {
    hide Step;
    var r :| IsPath(r) && r[0] == a && r[|r| - 1] == b;
    var s :| IsPath(s) && s[0] == b && s[|s| - 1] == c;
    var run := r + s[1..];
    forall i: nat | i + 1 < |run| ensures StepAt(run, i) {
      if i + 1 < |r| {
        assert StepAt(r, i);
      } else {
        assert StepAt(s, i + 1 - |r|);
      }
    }
    assert IsPath(run);
  }

  // ---- an original that has left blocks detaching for ever ----

  ghost predicate NeverDetaches(w: World, originals: seq<Id>, x: Id) {
    && x in originals && x !in w.cloud.members && x in w.cloud.seen
    && !w.disk.Absent? && !w.proc.Finished?
    && (w.disk.Valid? ==> var d := w.disk.saved;
          d.gatherDone && !d.detachDone && d.asgs != [] && d.asgs[0].originalInstances == originals)
    && (w.proc.Alive? ==>
          && w.mem.gatherDone && !w.mem.detachDone
          && w.mem.asgs != [] && w.mem.asgs[0].originalInstances == originals
          && (w.proc.pc.Detaching? ==> w.proc.pc.covered <= |originals| && x !in originals[..w.proc.pc.covered]))
  }

  lemma DetachBatchMisses(w: World, w': World, originals: seq<Id>, x: Id)
    requires NeverDetaches(w, originals, x) && DetachBatch(w, w')
    ensures NeverDetaches(w', originals, x)
  {
    var k := w.proc.pc.covered;
    var e := BatchEnd(|originals|, k, DETACH_LIMIT);
    BatchElements(originals, k, DETACH_LIMIT);
    assert x !in Elements(originals[..k]) + Batch(originals, k, DETACH_LIMIT);
    assert x !in Elements(originals[..e]);
  }

  lemma NeverDetachesFile(w: World, w': World, originals: seq<Id>, x: Id)
    requires NeverDetaches(w, originals, x) && FileStep(w, w') && !w.proc.pc.Deleting?
    ensures NeverDetaches(w', originals, x)
  {
  }

  lemma NeverDetachesEarly(w: World, w': World, originals: seq<Id>, x: Id)
    requires NeverDetaches(w, originals, x)
    requires || SetMaxStep(w, w') || ScaleUpStep(w, w') || WaitStep(w, w') || CordonStep(w, w') || DrainStep(w, w')
             || SkipStep(w, w')
    ensures NeverDetaches(w', originals, x)
  {
  }

  lemma NeverDetachesDetach(w: World, w': World, originals: seq<Id>, x: Id)
    requires NeverDetaches(w, originals, x) && DetachStep(w, w')
    ensures NeverDetaches(w', originals, x)
  {
    assert originals[..|originals|] == originals;
    if DetachBatch(w, w') {
      DetachBatchMisses(w, w', originals, x);
    }
  }

  lemma NeverDetachesOutside(w: World, w': World, originals: seq<Id>, x: Id)
    requires NeverDetaches(w, originals, x) && (EnvStep(w, w') || Stop(w, w') || Restart(w, w'))
    ensures NeverDetaches(w', originals, x)
  {
  }

  lemma NeverDetachesStep(w: World, w': World, originals: seq<Id>, x: Id)
    requires Inv(w) && NeverDetaches(w, originals, x) && Step(w, w')
    ensures NeverDetaches(w', originals, x)
  {
    hide Inv;
    if w.proc.Alive? {
      Place(w);
    }
    if EnvStep(w, w') || Stop(w, w') || Restart(w, w') {
      NeverDetachesOutside(w, w', originals, x);
    } else if FileStep(w, w') {
      NeverDetachesFile(w, w', originals, x);
    } else if DetachStep(w, w') {
      NeverDetachesDetach(w, w', originals, x);
    } else {
      assert !GatherStep(w, w') && !TerminateStep(w, w') && !RestoreStep(w, w');
      NeverDetachesEarly(w, w', originals, x);
    }
  }

  lemma {:induction false} NeverDetachesPath(run: seq<World>, k: nat, originals: seq<Id>, x: Id)
    requires IsPath(run) && k < |run| && Inv(run[0]) && NeverDetaches(run[0], originals, x)
    ensures NeverDetaches(run[k], originals, x)
  {
    hide Inv, NeverDetaches;
    if k > 0 {
      NeverDetachesPath(run, k - 1, originals, x);
      PathInv(run, k - 1);
      assert StepAt(run, k - 1);
      NeverDetachesStep(run[k - 1], run[k], originals, x);
    }
  }

  // ---- a recorded new instance that is gone blocks waiting for ever ----

  ghost predicate NeverReady(w: World, x: Id) {
    && x !in w.cloud.members && x !in w.cloud.ready && x in w.cloud.seen
    && w.disk.Valid? && !w.proc.Finished?
    && var d := w.disk.saved;
    && d.gatherDone && d.scaleUpDone && !d.waitDone && x in NewOnes(d)
    && (w.proc.Alive? ==> w.mem == d && w.proc.pc.Enter?)
  }

  lemma NeverReadyStage(w: World, w': World, x: Id)
    requires NeverReady(w, x) && StageStep(w, w') && PrefixFlags(w.mem) && Index(w.proc.pc.stage) <= Level(w.mem)
    ensures NeverReady(w', x)
  {
    assert SkipStep(w, w');
  }

  lemma NeverReadyStep(w: World, w': World, x: Id)
    requires Inv(w) && NeverReady(w, x) && Step(w, w')
    ensures NeverReady(w', x)
  {
    hide Inv;
    if EnvStep(w, w') || Stop(w, w') || Restart(w, w') {
    } else {
      Place(w);
      NeverReadyStage(w, w', x);
    }
  }

  lemma {:induction false} NeverReadyPath(run: seq<World>, k: nat, x: Id)
    requires IsPath(run) && k < |run| && Inv(run[0]) && NeverReady(run[0], x)
    ensures NeverReady(run[k], x)
  {
    hide Inv, NeverReady;
    if k > 0 {
      NeverReadyPath(run, k - 1, x);
      PathInv(run, k - 1);
      assert StepAt(run, k - 1);
      NeverReadyStep(run[k - 1], run[k], x);
    }
  }

  lemma NewGone(w: World, x: Id)
    requires Inv(w) && w.proc.Dead? && w.disk.Valid?
    requires w.disk.saved.scaleUpDone && !w.disk.saved.waitDone
    requires x in NewOnes(w.disk.saved) && x !in w.cloud.members && x !in w.cloud.ready
    ensures NeverReady(w, x)
  {
  }

  lemma OriginalGone(w: World, x: Id)
    requires Inv(w) && w.proc.Dead? && w.disk.Valid? && !w.disk.saved.detachDone
    requires x in Originals(w.disk.saved) && x !in w.cloud.members
    ensures w.disk.saved.asgs != [] && NeverDetaches(w, w.disk.saved.asgs[0].originalInstances, x)
  {
  }

  lemma UnrecoverableNeverFinishes(w: World, w': World)
    requires Inv(w) && w.proc.Dead? && w.disk.Valid? && !Recoverable(w) && Reaches(w, w')
    ensures !w'.proc.Finished?
  {
    hide Inv, Step;
    var run :| IsPath(run) && run[0] == w && run[|run| - 1] == w';
    var d := w.disk.saved;
    if !d.detachDone && !(Originals(d) <= w.cloud.members) {
      var x :| x in Originals(d) && x !in w.cloud.members;
      OriginalGone(w, x);
      NeverDetachesPath(run, |run| - 1, d.asgs[0].originalInstances, x);
    } else {
      var x :| x in NewOnes(d) && x !in w.cloud.members && x !in w.cloud.ready;
      NewGone(w, x);
      NeverReadyPath(run, |run| - 1, x);
    }
  }

  // ---- otherwise every stage can be passed ----

  /** The rollout under way, if there is one, is the same, and no instance fails. */
  ghost predicate SameRollout(w: World, w': World) {
    && w'.lost == w.lost
    && (w.past.Rollout? ==>
          w'.past.Rollout? && w'.past.before == w.past.before && w'.past.originals == w.past.originals)
  }

  ghost predicate Goes(w: World, w': World) {
    Reaches(w, w') && SameRollout(w, w')
  }

  lemma GoesSelf(w: World)
    ensures Goes(w, w)
  {
    ReachesSelf(w);
  }

  lemma GoesStep(w: World, w': World)
    requires Step(w, w') && SameRollout(w, w')
    ensures Goes(w, w') && (Inv(w) ==> Inv(w'))
  {
    hide Inv, Step;
    ReachesStep(w, w');
  }

  lemma GoesTrans(a: World, b: World, c: World)
    requires Goes(a, b) && Goes(b, c)
    ensures Goes(a, c)
  {
    hide Reaches;
    ReachesTrans(a, b, c);
  }

  ghost predicate Good(w: World) {
    && (!w.mem.detachDone ==> Originals(w.mem) <= w.cloud.members)
    && (w.mem.scaleUpDone && !w.mem.waitDone ==> NewOnes(w.mem) <= w.cloud.members + w.cloud.ready)
  }

  /** Ready to run stage s, whose turn it is, with everything it needs still there. */
  ghost predicate Poised(w: World, s: Stage) {
    Inv(w) && w.mem.gatherDone && At(w, Enter(s)) && Level(w.mem) == Index(s) && Good(w)
  }

  /** Stage s is done in memory and about to be written down. */
  ghost predicate Passed(w: World, s: Stage) {
    && Inv(w) && w.mem.gatherDone && At(w, Persisting(s)) && Good(w)
    && Level(w.mem) == (if s == Restore then 8 else Index(s) + 1)
  }

  lemma {:induction false} LongerThanAll(xs: set<Id>) returns (n: nat)
    ensures forall x :: x in xs ==> |x| < n
  {
    if xs == {} {
      n := 0;
    } else {
      var x :| x in xs;
      var m := LongerThanAll(xs - {x});
      n := if m <= |x| then |x| + 1 else m;
      forall y | y in xs ensures |y| < n {
        if y != x { assert y in xs - {x}; }
      }
    }
  }

  lemma FreshId(xs: set<Id>) returns (i: Id)
    ensures i !in xs
  {
    var n := LongerThanAll(xs);
    i := seq(n, _ => 'i');
  }

  lemma PassSetMax(w: World) returns (w': World)
    requires Poised(w, SetMax)
    ensures Goes(w, w') && Passed(w', SetMax)
  {
    hide Inv, Step;
    Place(w);
    Facts(w);
    var n := 2 * w.past.before.desired;
    w' := w.(proc := Alive(Persisting(SetMax)), mem := RaisedMax(w.mem),
             cloud := if w.mem.asgs[0].originalMaxCapacity < n then w.cloud.WithMaxSize(n) else w.cloud);
    BySetMax(w, w');
    GoesStep(w, w');
  }

  /** The group launches instances until it holds as many as desired. */
  lemma {:induction false} LaunchAll(w: World) returns (w': World)
    requires Inv(w) && At(w, ScaleWaiting) && Good(w)
    ensures Goes(w, w') && Inv(w') && At(w', ScaleWaiting) && Good(w') && |w'.cloud.members| == w'.cloud.desired
    decreases w.cloud.desired - |w.cloud.members|
  {
    hide Inv, Step;
    Place(w);
    Facts(w);
    if |w.cloud.members| == w.cloud.desired {
      GoesSelf(w);
      w' := w;
    } else {
      var i := FreshId(w.cloud.seen);
      var v := w.(cloud := w.cloud.(members := w.cloud.members + {i}, seen := w.cloud.seen + {i}));
      ByLaunch(w, v, i);
      GoesStep(w, v);
      w' := LaunchAll(v);
      GoesTrans(w, v, w');
    }
  }

  lemma ScaleRequested(w: World) returns (w': World)
    requires Poised(w, ScaleUp)
    ensures Goes(w, w') && Inv(w') && At(w', ScaleWaiting) && Good(w')
  {
    hide Inv, Step;
    Place(w);
    Facts(w);
    w' := w.(proc := Alive(ScaleWaiting), cloud := w.cloud.(desired := w.mem.asgs[0].maxCapacityForUpdate));
    ByScaleRequest(w, w');
    GoesStep(w, w');
  }

  lemma ScaleCollected(w: World) returns (w': World)
    requires Inv(w) && At(w, ScaleWaiting) && Good(w) && |w.cloud.members| == w.cloud.desired
    ensures Goes(w, w') && Passed(w', ScaleUp)
  {
    hide Inv, Step;
    Place(w);
    Facts(w);
    var v := w.(proc := Alive(ScaleReading));
    ByScaleReached(w, v);
    GoesStep(w, v);
    var ids := ListingExists(v.cloud.members - Elements(v.mem.asgs[0].originalInstances));
    w' := v.(proc := Alive(Persisting(ScaleUp)), mem := WithNew(v.mem, ids));
    ByScaleRead(v, w', ids);
    GoesStep(v, w');
    GoesTrans(w, v, w');
  }

  lemma PassScaleUp(w: World) returns (w': World)
    requires Poised(w, ScaleUp)
    ensures Goes(w, w') && Passed(w', ScaleUp)
  {
    var u := ScaleRequested(w);
    var v := LaunchAll(u);
    w' := ScaleCollected(v);
    GoesTrans(w, u, v);
    GoesTrans(w, v, w');
  }

  lemma {:induction false} ReadyAll(w: World) returns (w': World)
    requires Poised(w, WaitNodes)
    ensures Goes(w, w') && Poised(w', WaitNodes) && NewOnes(w'.mem) <= w'.cloud.ready
    decreases NewOnes(w.mem) - w.cloud.ready
  {
    hide Inv, Step;
    Place(w);
    Facts(w);
    if NewOnes(w.mem) <= w.cloud.ready {
      GoesSelf(w);
      w' := w;
    } else {
      var i :| i in NewOnes(w.mem) && i !in w.cloud.ready;
      var v := w.(cloud := w.cloud.(ready := w.cloud.ready + {i}));
      ByBecomeReady(w, v, i);
      GoesStep(w, v);
      w' := ReadyAll(v);
      GoesTrans(w, v, w');
    }
  }

  lemma BalancersTurnReady(w: World) returns (w': World)
    requires Inv(w) && w.mem.gatherDone && At(w, LbWaiting) && Level(w.mem) == Index(WaitNodes) && Good(w)
    ensures Goes(w, w') && Passed(w', WaitNodes)
  {
    hide Inv, Step, Goes;
    Facts(w);
    w' := w.(proc := Alive(Persisting(WaitNodes)), mem := w.mem.(waitDone := true));
    ByBalancersReady(w, w');
    GoesStep(w, w');
  }

  lemma WaitOver(w: World) returns (w': World)
    requires Poised(w, WaitNodes) && NewOnes(w.mem) <= w.cloud.ready
    ensures Goes(w, w') && Passed(w', WaitNodes)
  {
    hide Inv, Step, Goes;
    Facts(w);
    var v := w.(proc := Alive(LbWaiting));
    ByNodesReady(w, v);
    GoesStep(w, v);
    w' := BalancersTurnReady(v);
    GoesTrans(w, v, w');
  }

  lemma PassWait(w: World) returns (w': World)
    requires Poised(w, WaitNodes)
    ensures Goes(w, w') && Passed(w', WaitNodes)
  {
    hide Inv, Step;
    var v := ReadyAll(w);
    w' := WaitOver(v);
    GoesTrans(w, v, w');
  }

  lemma {:induction false} CordonAll(w: World) returns (w': World)
    requires Inv(w) && Good(w) && w.proc.Alive? && w.proc.pc.Cordoning? && !w.proc.pc.failed
    ensures Goes(w, w') && Passed(w', Cordon)
    decreases if w.proc.Alive? && w.proc.pc.Cordoning? then w.proc.pc.todo else {}
  {
    hide Inv, Step;
    Place(w);
    Facts(w);
    if w.proc.pc.todo == {} {
      w' := w.(proc := Alive(Persisting(Cordon)), mem := w.mem.(cordonDone := true));
      ByCordonEnd(w, w');
      GoesStep(w, w');
    } else {
      var i :| i in w.proc.pc.todo;
      var v := w.(proc := Alive(Cordoning(w.proc.pc.todo - {i}, false)),
                  cloud := w.cloud.(cordoned := w.cloud.cordoned + {i}));
      ByCordonOne(w, v, i, true, true);
      GoesStep(w, v);
      w' := CordonAll(v);
      GoesTrans(w, v, w');
    }
  }

  lemma PassCordon(w: World) returns (w': World)
    requires Poised(w, Cordon)
    ensures Goes(w, w') && Passed(w', Cordon)
  {
    hide Inv, Step;
    Place(w);
    Facts(w);
    var v := w.(proc := Alive(Cordoning(Elements(w.mem.asgs[0].originalInstances), false)));
    ByCordonStart(w, v);
    GoesStep(w, v);
    w' := CordonAll(v);
    GoesTrans(w, v, w');
  }

  lemma {:induction false} DrainAll(w: World) returns (w': World)
    requires Inv(w) && Good(w) && w.proc.Alive? && w.proc.pc.Draining? && !w.proc.pc.failed
    ensures Goes(w, w') && Passed(w', Drain)
    decreases if w.proc.Alive? && w.proc.pc.Draining? then w.proc.pc.todo else {}
  {
    hide Inv, Step;
    Place(w);
    Facts(w);
    if w.proc.pc.todo == {} {
      w' := w.(proc := Alive(Persisting(Drain)), mem := w.mem.(drainDone := true));
      ByDrainEnd(w, w');
      GoesStep(w, w');
    } else {
      var i :| i in w.proc.pc.todo;
      var v := w.(proc := Alive(Draining(w.proc.pc.todo - {i}, false)),
                  cloud := w.cloud.(cordoned := w.cloud.cordoned + {i}, drained := w.cloud.drained + {i}));
      ByDrainOne(w, v, i, true, true);
      GoesStep(w, v);
      w' := DrainAll(v);
      GoesTrans(w, v, w');
    }
  }

  lemma PassDrain(w: World) returns (w': World)
    requires Poised(w, Drain)
    ensures Goes(w, w') && Passed(w', Drain)
  {
    hide Inv, Step;
    Place(w);
    Facts(w);
    var v := w.(proc := Alive(Draining(Elements(w.mem.asgs[0].originalInstances), false)));
    ByDrainStart(w, v);
    GoesStep(w, v);
    w' := DrainAll(v);
    GoesTrans(w, v, w');
  }

  /** The instances still to be detached are all members. */
  ghost predicate DetachGood(w: World) {
    && Inv(w) && w.proc.Alive? && w.proc.pc.Detaching?
    && w.mem.asgs != [] && w.proc.pc.covered <= |w.mem.asgs[0].originalInstances|
    && Elements(w.mem.asgs[0].originalInstances[w.proc.pc.covered..]) <= w.cloud.members
  }

  lemma BatchAccepted(m: Saved, c: Cloud, batch: set<Id>, past: Past, lost: set<Id>)
    requires c.WellFormed() && Meaning(m, c, past, lost) && Level(m) == 6
    requires batch <= Originals(m) && batch <= c.members
    ensures c.AcceptsDetach(batch)
  {
    var o := Originals(m);
    assert (o * c.detached) !! batch;
    SubsetSize((o * c.detached) + batch, o);
    assert |(o * c.detached) + batch| == |o * c.detached| + |batch|;
  }

  lemma SplitDisjoint(o: seq<Id>, k: nat, e: nat)
    requires NoDuplicates(o) && k <= e <= |o|
    ensures Elements(o[k..e]) !! Elements(o[e..])
  {
    forall x | x in Elements(o[k..e]) ensures x !in Elements(o[e..]) {
      var i :| 0 <= i < e - k && o[k..e][i] == x;
      assert forall j :: 0 <= j < |o| - e ==> o[e..][j] == o[e + j] != o[k + i];
    }
  }

  lemma BatchFits(w: World)
    requires DetachGood(w) && w.proc.pc.covered < |w.mem.asgs[0].originalInstances|
    ensures var o, k := w.mem.asgs[0].originalInstances, w.proc.pc.covered;
      var batch := Batch(o, k, DETACH_LIMIT);
      && w.cloud.AcceptsDetach(batch)
      && Elements(o[BatchEnd(|o|, k, DETACH_LIMIT)..]) <= w.cloud.members - batch
  {
    hide Inv, Step;
    Place(w);
    Facts(w);
    var o, k := w.mem.asgs[0].originalInstances, w.proc.pc.covered;
    var e := BatchEnd(|o|, k, DETACH_LIMIT);
    assert o[k..] == o[k..e] + o[e..];
    BatchElements(o, k, DETACH_LIMIT);
    SplitDisjoint(o, k, e);
    BatchAcceptedHere(w, Batch(o, k, DETACH_LIMIT));
  }

  lemma BatchAcceptedHere(w: World, batch: set<Id>)
    requires Inv(w) && w.mem.gatherDone && Level(w.mem) == 6 && batch <= Originals(w.mem) && batch <= w.cloud.members
    ensures w.cloud.AcceptsDetach(batch)
  {
    BatchAccepted(w.mem, w.cloud, batch, w.past, w.lost);
  }

  lemma DetachNext(w: World) returns (w': World)
    requires DetachGood(w) && w.proc.pc.covered < |w.mem.asgs[0].originalInstances|
    ensures Goes(w, w') && DetachGood(w') && w'.mem == w.mem && w'.proc.pc.covered > w.proc.pc.covered
  {
    hide Inv, Step;
    BatchFits(w);
    var o, k := w.mem.asgs[0].originalInstances, w.proc.pc.covered;
    w' := w.(proc := Alive(Detaching(BatchEnd(|o|, k, DETACH_LIMIT))),
             cloud := w.cloud.Detach(Batch(o, k, DETACH_LIMIT)));
    ByDetachBatch(w, w');
    GoesStep(w, w');
  }

  lemma {:induction false} DetachAll(w: World) returns (w': World)
    requires DetachGood(w)
    ensures Goes(w, w') && Passed(w', Detach)
    decreases if DetachGood(w) then |w.mem.asgs[0].originalInstances| - w.proc.pc.covered else 0
  {
    hide Inv, Step;
    Place(w);
    Facts(w);
    if w.proc.pc.covered == |w.mem.asgs[0].originalInstances| {
      w' := w.(proc := Alive(Persisting(Detach)), mem := w.mem.(detachDone := true));
      ByDetachEnd(w, w');
      GoesStep(w, w');
    } else {
      var v := DetachNext(w);
      w' := DetachAll(v);
      GoesTrans(w, v, w');
    }
  }

  lemma PassDetach(w: World) returns (w': World)
    requires Poised(w, Detach)
    ensures Goes(w, w') && Passed(w', Detach)
  {
    hide Inv, Step;
    Place(w);
    Facts(w);
    var v := w.(proc := Alive(Detaching(0)));
    ByDetachStart(w, v);
    GoesStep(w, v);
    assert v.mem.asgs[0].originalInstances[0..] == v.mem.asgs[0].originalInstances;
    w' := DetachAll(v);
    GoesTrans(w, v, w');
  }

  lemma {:induction false} TerminateAll(w: World) returns (w': World)
    requires Inv(w) && w.proc.Alive? && w.proc.pc.Terminating?
    requires w.mem.asgs != [] && w.proc.pc.covered <= |w.mem.asgs[0].originalInstances|
    ensures Goes(w, w') && Passed(w', Terminate)
    decreases if w.mem.asgs != [] && w.proc.Alive? && w.proc.pc.Terminating?
              then |w.mem.asgs[0].originalInstances| - w.proc.pc.covered else 0
  {
    hide Inv, Step;
    Place(w);
    Facts(w);
    var o, k := w.mem.asgs[0].originalInstances, w.proc.pc.covered;
    if k == |o| {
      w' := w.(proc := Alive(Persisting(Terminate)), mem := w.mem.(terminateDone := true));
      ByTerminateEnd(w, w');
      GoesStep(w, w');
    } else {
      var batch := Batch(o, k, TERMINATE_LIMIT);
      var v := w.(proc := Alive(Terminating(BatchEnd(|o|, k, TERMINATE_LIMIT))),
                  cloud := w.cloud.(attempted := w.cloud.attempted + batch, terminated := w.cloud.terminated + batch));
      ByTerminateBatch(w, v, true);
      GoesStep(w, v);
      w' := TerminateAll(v);
      GoesTrans(w, v, w');
    }
  }

  lemma PassTerminate(w: World) returns (w': World)
    requires Poised(w, Terminate)
    ensures Goes(w, w') && Passed(w', Terminate)
  {
    hide Inv, Step;
    Place(w);
    Facts(w);
    var v := w.(proc := Alive(Terminating(0)));
    ByTerminateStart(w, v);
    GoesStep(w, v);
    w' := TerminateAll(v);
    GoesTrans(w, v, w');
  }

  lemma PassRestore(w: World) returns (w': World)
    requires Poised(w, Restore)
    ensures Goes(w, w') && Passed(w', Restore)
  {
    hide Inv, Step;
    Place(w);
    Facts(w);
    w' := w.(proc := Alive(Persisting(Restore)), cloud := w.cloud.WithMaxSize(w.mem.asgs[0].originalMaxCapacity));
    ByRestore(w, w');
    GoesStep(w, w');
  }

  lemma Written(w: World, s: Stage) returns (w': World)
    requires Passed(w, s)
    ensures Goes(w, w') && Inv(w') && Good(w') && w'.mem == w.mem && At(w', AfterWrite(s)) && w'.disk == Valid(w'.mem)
  {
    hide Inv, Step;
    Place(w);
    Facts(w);
    var v := w.(proc := Alive(Writing(s)), disk := Corrupt);
    ByTruncate(w, v);
    GoesStep(w, v);
    w' := v.(proc := Alive(AfterWrite(s)), disk := Valid(v.mem));
    ByWrite(v, w');
    GoesStep(v, w');
    GoesTrans(w, v, w');
  }

  lemma PassStage(w: World, s: Stage) returns (w': World)
    requires Poised(w, s)
    ensures Goes(w, w') && Passed(w', s)
  {
    match s
    case Gather =>
    case SetMax => w' := PassSetMax(w);
    case ScaleUp => w' := PassScaleUp(w);
    case WaitNodes => w' := PassWait(w);
    case Cordon => w' := PassCordon(w);
    case Drain => w' := PassDrain(w);
    case Detach => w' := PassDetach(w);
    case Terminate => w' := PassTerminate(w);
    case Restore => w' := PassRestore(w);
  }

  /** From one stage to a later one, with the file written after each. */
  lemma {:induction false} Advances(w: World, s: Stage, t: Stage) returns (w': World)
    requires Poised(w, s) && Index(s) <= Index(t)
    ensures Goes(w, w') && Poised(w', t)
    decreases Index(t) - Index(s)
  {
    hide Inv, Step, Goes, Good;
    if s == t {
      GoesSelf(w);
      w' := w;
    } else {
      var u := PassStage(w, s);
      var v := Written(u, s);
      w' := Advances(v, Next(s), t);
      GoesTrans(w, u, v);
      GoesTrans(w, v, w');
    }
  }

  lemma FinishesFrom(w: World, s: Stage) returns (w': World)
    requires Poised(w, s)
    ensures Goes(w, w') && Inv(w') && w'.proc.Finished?
  {
    hide Inv, Step, Goes, Good;
    var t := Advances(w, s, Restore);
    var u := PassStage(t, Restore);
    var v := Written(u, Restore);
    Place(v);
    w' := v.(proc := Finished, disk := Absent, past := v.past.(active := false));
    ByDeleteFile(v, w', true);
    GoesStep(v, w');
    GoesTrans(w, t, u);
    GoesTrans(w, u, v);
    GoesTrans(w, v, w');
  }

  /** A resumed command skips to the first stage that is not flagged. */
  lemma {:induction false} SkipsTo(w: World, s: Stage) returns (w': World, t: Stage)
    requires Inv(w) && w.mem.gatherDone && At(w, Enter(s)) && Good(w)
    ensures Goes(w, w') && Poised(w', t)
    decreases 8 - Index(s)
  {
    hide Inv, Step;
    Place(w);
    Facts(w);
    if Level(w.mem) == Index(s) {
      GoesSelf(w);
      w', t := w, s;
    } else {
      var v := w.(proc := Alive(Enter(Next(s))));
      BySkip(w, v);
      GoesStep(w, v);
      w', t := SkipsTo(v, Next(s));
      GoesTrans(w, v, w');
    }
  }

  lemma RecoverableFinishes(w: World)
    requires Inv(w) && w.proc.Dead? && w.disk.Valid? && Recoverable(w)
    ensures CanFinish(w)
  {
    var u := w.(proc := Alive(Enter(Gather)), mem := w.disk.saved);
    ByRestart(w, u);
    GoesStep(w, u);
    var v, s := SkipsTo(u, Gather);
    var w' := FinishesFrom(v, s);
    GoesTrans(w, u, v);
    GoesTrans(w, v, w');
  }

  lemma Starts(w: World) returns (w': World)
    requires Init(w)
    ensures Reaches(w, w') && Inv(w') && w' == w.(proc := Alive(Enter(Gather))) && w'.mem == Fresh
  {
    hide Inv, Step, Reaches;
    InitInv(w);
    w' := w.(proc := Alive(Enter(Gather)));
    ByRestart(w, w');
    ReachesStep(w, w');
  }

  lemma PassGather(w: World) returns (w': World)
    requires Inv(w) && At(w, Enter(Gather)) && w.mem == Fresh && |w.cloud.members| == w.cloud.desired
    ensures Reaches(w, w') && Passed(w', Gather)
    ensures w'.past.Rollout? && w'.past.before == w.cloud && w'.lost == {}
  {
    hide Inv, Step, Reaches;
    var ids := ListingExists(w.cloud.members);
    ElementsSize(ids);
    w' := w.(proc := Alive(Persisting(Gather)), mem := Recorded(Fresh, w.cloud, ids),
             past := Rollout(w.cloud, ids, true), lost := {});
    ByGatherRecord(w, w', ids);
    ReachesStep(w, w');
  }

  /** A command on a settled group gets its record written. */
  lemma SettledGroupRecorded(w: World) returns (w': World)
    requires Init(w) && |w.cloud.members| == w.cloud.desired
    ensures Reaches(w, w') && Poised(w', SetMax)
    ensures w'.past.Rollout? && w'.past.before == w.cloud && w'.lost == {}
  {
    hide Inv, Step, Reaches, Good;
    var u := Starts(w);
    var v := PassGather(u);
    w' := Written(v, Gather);
    ReachesTrans(w, u, v);
    ReachesTrans(w, v, w');
  }

  /** A rollout of a settled group can always be completed: no stage asks for something that cannot happen. */
  lemma SettledGroupFinishes(w: World)
    requires Init(w) && |w.cloud.members| == w.cloud.desired
    ensures CanFinish(w)
  {
    hide Inv, Step, Reaches, Poised;
    var v := SettledGroupRecorded(w);
    var w' := FinishesFrom(v, SetMax);
    ReachesTrans(w, v, w');
  }

  /** After a crash or an error, at any point of any run that left a readable file, resuming can still complete
      the rollout if and only if the recorded instances the remaining stages depend on are still there. */
  lemma RecoverableIff(run: seq<World>, k: nat)
    requires IsRun(run) && k < |run| && run[k].proc.Dead? && run[k].disk.Valid?
    ensures CanFinish(run[k]) <==> Recoverable(run[k])
  {
    RunInv(run, k);
    if Recoverable(run[k]) {
      RecoverableFinishes(run[k]);
    } else if CanFinish(run[k]) {
      var w' :| Reaches(run[k], w') && w'.proc.Finished?;
      UnrecoverableNeverFinishes(run[k], w');
    }
  }

  /** A stop between the first accepted detach batch and the write of the detach flag can never be resumed to the
      end: the whole list is sent again, and the group rejects a batch that holds an instance it no longer has. */
  lemma StopAmidDetachIsFinal(run: seq<World>, k: nat)
    requires IsRun(run) && k < |run| && run[k].proc.Dead? && run[k].disk.Valid?
    requires !run[k].disk.saved.detachDone && Originals(run[k].disk.saved) * run[k].cloud.detached != {}
    ensures !CanFinish(run[k])
  {
    RunInv(run, k);
    RecoverableIff(run, k);
    var x :| x in Originals(run[k].disk.saved) * run[k].cloud.detached;
    assert x !in run[k].cloud.members;
  }
}
