/** What the memory of the process looks like at every point of every history, also after a command has passed over a
    recovery file: enough for each stage to find the group it works on. */
module RolloutMemory {
  import opened Collections
  import opened Cloud
  import opened Rollout
  import opened RolloutAfresh

  ghost predicate Shaped(s: Saved) {
    if s.gatherDone then s.asgs != [] else s == Fresh
  }

  ghost predicate MemoryOk(w: World) {
    && Shaped(w.mem)
    && (w.disk.Valid? ==> w.disk.saved.gatherDone && Shaped(w.disk.saved))
    && (w.proc.Alive? ==>
          match w.proc.pc
          case Enter(s) => s == Gather || w.mem.gatherDone
          case GatherWaiting => !w.mem.gatherDone
          case GatherReread => !w.mem.gatherDone
          case _ => w.mem.gatherDone)
  }

  lemma SkippingKeepsMemory(w: World, w': World)
    requires MemoryOk(w) && SkipStep(w, w')
    ensures MemoryOk(w')
  {
    assert w.mem.gatherDone;
  }

  lemma GatheringKeepsMemory(w: World, w': World)
    requires MemoryOk(w) && GatherStep(w, w')
    ensures MemoryOk(w')
  {
    if !GatherWait(w, w') && !GatherSettled(w, w') {
      assert w'.proc == Alive(Persisting(Gather)) && w'.mem.gatherDone && w'.mem.asgs != [];
    }
  }

  lemma GrowingKeepsMemory(w: World, w': World)
    requires MemoryOk(w) && (SetMaxStep(w, w') || ScaleUpStep(w, w') || WaitStep(w, w'))
    ensures MemoryOk(w')
  {
  }

  lemma LateStagesKeepMemory(w: World, w': World)
    requires MemoryOk(w)
    requires || CordonStep(w, w') || DrainStep(w, w') || DetachStep(w, w') || TerminateStep(w, w') || RestoreStep(w, w')
             || FileStep(w, w')
    ensures MemoryOk(w')
  {
  }

  lemma StepKeepsMemory(w: World, w': World)
    requires MemoryOk(w) && HistoryStep(w, w')
    ensures MemoryOk(w')
  {
    if StageStep(w, w') {
      hide MemoryOk;
      if SkipStep(w, w') {
        SkippingKeepsMemory(w, w');
      } else if GatherStep(w, w') {
        GatheringKeepsMemory(w, w');
      } else if SetMaxStep(w, w') || ScaleUpStep(w, w') || WaitStep(w, w') {
        GrowingKeepsMemory(w, w');
      } else {
        LateStagesKeepMemory(w, w');
      }
    }
  }

  /** At every point of every history a process past the first stage has a recorded group. */
  lemma {:induction false} HistoryKeepsMemory(h: seq<World>, k: nat)
    requires IsHistory(h) && k < |h|
    ensures MemoryOk(h[k])
  {
    hide HistoryStep, MemoryOk;
    if k == 0 {
      InitialMemory(h[0]);
    } else {
      HistoryKeepsMemory(h, k - 1);
      assert HistoryStepAt(h, k - 1);
      StepKeepsMemory(h[k - 1], h[k]);
    }
  }

  lemma InitialMemory(w: World)
    requires Init(w)
    ensures MemoryOk(w)
  {
  }
}
