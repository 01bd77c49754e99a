/** The actions of the rollout machine one by one as steps, and the facts about its worlds that callers need; with
    these the definitions of the invariant and of a step can stay hidden. */
module RolloutMoves {
  import opened Collections
  import opened Cloud
  import opened Rollout
  import opened RolloutInvariant

  lemma BySetMax(w: World, w': World)
    requires SetMaxStep(w, w')
    ensures Step(w, w')
  {
  }

  lemma ByScaleRequest(w: World, w': World)
    requires ScaleRequest(w, w')
    ensures Step(w, w')
  {
  }

  lemma ByScaleReached(w: World, w': World)
    requires ScaleReached(w, w')
    ensures Step(w, w')
  {
  }

  lemma ByScaleRead(w: World, w': World, ids: seq<Id>)
    requires ScaleRead(w, w', ids)
    ensures Step(w, w')
  {
  }

  lemma ByNodesReady(w: World, w': World)
    requires NodesReady(w, w')
    ensures Step(w, w')
  {
  }

  lemma ByBalancersReady(w: World, w': World)
    requires BalancersReady(w, w')
    ensures Step(w, w')
  {
  }

  lemma ByCordonStart(w: World, w': World)
    requires CordonStart(w, w')
    ensures Step(w, w')
  {
  }

  lemma ByCordonOne(w: World, w': World, i: Id, ok: bool, worked: bool)
    requires CordonOne(w, w', i, ok, worked)
    ensures Step(w, w')
  {
  }

  lemma ByCordonEnd(w: World, w': World)
    requires CordonEnd(w, w')
    ensures Step(w, w')
  {
  }

  lemma ByDrainStart(w: World, w': World)
    requires DrainStart(w, w')
    ensures Step(w, w')
  {
  }

  lemma ByDrainOne(w: World, w': World, i: Id, ok: bool, worked: bool)
    requires DrainOne(w, w', i, ok, worked)
    ensures Step(w, w')
  {
  }

  lemma ByDrainEnd(w: World, w': World)
    requires DrainEnd(w, w')
    ensures Step(w, w')
  {
  }

  lemma ByDetachStart(w: World, w': World)
    requires DetachStart(w, w')
    ensures Step(w, w')
  {
  }

  lemma ByDetachBatch(w: World, w': World)
    requires DetachBatch(w, w')
    ensures Step(w, w')
  {
  }

  lemma ByDetachEnd(w: World, w': World)
    requires DetachEnd(w, w')
    ensures Step(w, w')
  {
  }

  lemma ByTerminateStart(w: World, w': World)
    requires TerminateStart(w, w')
    ensures Step(w, w')
  {
  }

  lemma ByTerminateBatch(w: World, w': World, worked: bool)
    requires TerminateBatch(w, w', worked)
    ensures Step(w, w')
  {
  }

  lemma ByTerminateEnd(w: World, w': World)
    requires TerminateEnd(w, w')
    ensures Step(w, w')
  {
  }

  lemma ByRestore(w: World, w': World)
    requires RestoreStep(w, w')
    ensures Step(w, w')
  {
  }

  lemma ByTruncate(w: World, w': World)
    requires Truncate(w, w')
    ensures Step(w, w')
  {
  }

  lemma ByWrite(w: World, w': World)
    requires Write(w, w')
    ensures Step(w, w')
  {
  }

  lemma ByDeleteFile(w: World, w': World, ok: bool)
    requires DeleteFile(w, w', ok)
    ensures Step(w, w')
  {
  }

  lemma BySkip(w: World, w': World)
    requires SkipStep(w, w')
    ensures Step(w, w')
  {
  }

  lemma ByLaunch(w: World, w': World, i: Id)
    requires Launch(w.cloud, w'.cloud, i) && w' == w.(cloud := w'.cloud)
    ensures Step(w, w')
  {
  }

  lemma ByBecomeReady(w: World, w': World, i: Id)
    requires BecomeReady(w.cloud, w'.cloud, i) && w' == w.(cloud := w'.cloud)
    ensures Step(w, w')
  {
  }

  lemma ByFail(w: World, w': World, i: Id, leaves: bool)
    requires Fail(w.cloud, w'.cloud, i, leaves) && w' == w.(cloud := w'.cloud, lost := w.lost + {i})
    ensures Step(w, w')
  {
  }

  lemma ByStop(w: World, w': World)
    requires Stop(w, w')
    ensures Step(w, w')
  {
  }

  lemma ByRestart(w: World, w': World)
    requires Restart(w, w')
    ensures Step(w, w')
  {
  }

  lemma ByGatherWait(w: World, w': World)
    requires GatherWait(w, w')
    ensures Step(w, w')
  {
  }

  lemma ByGatherSettled(w: World, w': World)
    requires GatherSettled(w, w')
    ensures Step(w, w')
  {
  }

  lemma ByGatherRecord(w: World, w': World, ids: seq<Id>)
    requires (GatherNow(w, w', ids) || GatherAgain(w, w', ids))
    ensures Step(w, w')
  {
  }

  /** Where the process is bounds how far its record has come. */
  lemma Place(w: World)
    requires Inv(w) && w.proc.Alive?
    ensures var m, pc := w.mem, w.proc.pc;
      && PrefixFlags(m)
      && (pc.Enter? ==> Index(pc.stage) <= Level(m))
      && (pc.ScaleWaiting? || pc.ScaleReading? ==> Level(m) == 2)
      && (pc.LbWaiting? ==> Level(m) == 3)
      && (pc.Cordoning? ==> Level(m) == 4 && pc.todo <= Originals(m))
      && (pc.Draining? ==> Level(m) == 5 && pc.todo <= Originals(m))
      && (pc.Detaching? ==> Level(m) == 6 && m.asgs != [] && pc.covered <= |m.asgs[0].originalInstances|)
      && (pc.Terminating? ==> Level(m) == 7 && m.asgs != [] && pc.covered <= |m.asgs[0].originalInstances|)
      && (pc.Deleting? ==> Level(m) == 8 && w.past.Rollout?)
      && (pc.GatherWaiting? || pc.GatherReread? ==> Level(m) == 0)
      && (pc.Persisting? || pc.Writing? ==> Level(m) == (if pc.stage == Restore then 8 else Index(pc.stage) + 1))
      && (pc.Persisting? || pc.Writing? || m.gatherDone || w.disk.Absent?)
  {
  }

  /** What a stage may rely on once the group is recorded. */
  lemma Facts(w: World)
    requires Inv(w) && w.mem.gatherDone
    ensures PrefixFlags(w.mem) && OriginalsMatch(w.mem, w.past) && NoDuplicates(w.past.originals)
    ensures w.cloud.minSize <= w.past.before.desired && 0 <= w.past.before.desired
    ensures w.cloud.minSize <= w.past.before.maxSize
    ensures w.mem.setMaxDone ==> w.mem.asgs[0].maxCapacityForUpdate == 2 * w.past.before.desired
    ensures w.mem.setMaxDone && !w.mem.terminateDone ==> w.cloud.maxSize >= 2 * w.past.before.desired
    ensures !w.mem.terminateDone ==> |w.cloud.members| <= w.cloud.desired
    ensures !w.mem.scaleUpDone ==> NewOnes(w.mem) == {}
    ensures NewOnes(w.mem) !! Originals(w.mem)
    ensures w.cloud.members <= w.cloud.seen
  {
  }
}
