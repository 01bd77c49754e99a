/** The rolling deployment as a state machine: the process with its memory, the recovery file, and the cloud.
    The process may stop between any two steps, because it crashed or because a call returned an error, and may
    be started again from whatever the recovery file then holds. */
module Rollout {
  import opened Collections
  import opened Cloud

  const DETACH_LIMIT: nat := 20
  const TERMINATE_LIMIT: nat := 1000

  datatype Stage = Gather | SetMax | ScaleUp | WaitNodes | Cordon | Drain | Detach | Terminate | Restore

  function Next(s: Stage): Stage {
    match s
    case Gather => SetMax
    case SetMax => ScaleUp
    case ScaleUp => WaitNodes
    case WaitNodes => Cordon
    case Cordon => Drain
    case Drain => Detach
    case Detach => Terminate
    case Terminate => Restore
    case Restore => Restore
  }

  datatype Asg = Asg(
    originalCapacity: int,
    maxCapacityForUpdate: int,
    originalMaxCapacity: int,
    originalInstances: seq<Id>,
    newInstances: seq<Id>)

  /** The exported fields of DeployState, which are what the recovery file holds. */
  datatype Saved = Saved(
    gatherDone: bool,
    setMaxDone: bool,
    scaleUpDone: bool,
    waitDone: bool,
    cordonDone: bool,
    drainDone: bool,
    detachDone: bool,
    terminateDone: bool,
    restoreDone: bool,
    asgs: seq<Asg>)
  {
    predicate Done(s: Stage) {
      match s
      case Gather => gatherDone
      case SetMax => setMaxDone
      case ScaleUp => scaleUpDone
      case WaitNodes => waitDone
      case Cordon => cordonDone
      case Drain => drainDone
      case Detach => detachDone
      case Terminate => terminateDone
      case Restore => restoreDone
    }
  }

  const Fresh := Saved(false, false, false, false, false, false, false, false, false, [])

  /** A file is rewritten by truncating it and then writing it, so it can be caught half-written. */
  datatype Disk = Absent | Corrupt | Valid(saved: Saved)

  /** Where a running process is. Detaching and Terminating carry how many instances the batches have covered. */
  datatype Pc =
    | Enter(stage: Stage)
    | GatherWaiting
    | GatherReread
    | ScaleWaiting
    | ScaleReading
    | LbWaiting
    | Cordoning(todo: set<Id>, failed: bool)
    | Draining(todo: set<Id>, failed: bool)
    | Detaching(covered: nat)
    | Terminating(covered: nat)
    | Persisting(stage: Stage)
    | Writing(stage: Stage)
    | Deleting

  datatype Proc = Dead | Finished | Alive(pc: Pc)

  /** History: the cloud the rollout found and the instances it recorded. `active` lasts until the recovery file
      is deleted. */
  datatype Past = NoRollout | Rollout(before: Cloud, originals: seq<Id>, active: bool)

  /** `mem` is the memory of the process; once the process is gone it is history. `lost` is history too: the
      instances that failed, through no request of ours, since the group was last found at its desired capacity
      by the gather stage. */
  datatype World = World(proc: Proc, mem: Saved, disk: Disk, cloud: Cloud, past: Past, lost: set<Id>)

  // ---- the environment, crashes and restarts ----

  ghost predicate EnvStep(w: World, w': World) {
    || (exists i :: Launch(w.cloud, w'.cloud, i) && w' == w.(cloud := w'.cloud))
    || (exists i :: BecomeReady(w.cloud, w'.cloud, i) && w' == w.(cloud := w'.cloud))
    || (exists i, leaves :: Fail(w.cloud, w'.cloud, i, leaves) && w' == w.(cloud := w'.cloud, lost := w.lost + {i}))
  }

  /** A crash, or any return with an error. */
  ghost predicate Stop(w: World, w': World) {
    w.proc.Alive? && w' == w.(proc := Dead)
  }

  /** initDeployState when the file, if there is one, is not ignored and can be read; one that does not parse ends the
      command at once. */
  ghost predicate Restart(w: World, w': World) {
    && !w.proc.Alive?
    && !w.disk.Corrupt?
    && w' == w.(proc := Alive(Enter(Gather)), mem := if w.disk.Valid? then w.disk.saved else Fresh)
  }

  // ---- the stages ----

  ghost predicate At(w: World, pc: Pc) {
    w.proc == Alive(pc)
  }

  ghost predicate Begins(w: World, s: Stage) {
    At(w, Enter(s)) && !w.mem.Done(s)
  }

  ghost predicate SkipStep(w: World, w': World) {
    && w.proc.Alive? && w.proc.pc.Enter?
    && var s := w.proc.pc.stage;
    && w.mem.Done(s)
    && w' == w.(proc := Alive(if s == Restore then Deleting else Enter(Next(s))))
  }

  function Recorded(mem: Saved, c: Cloud, ids: seq<Id>): Saved {
    mem.(gatherDone := true, asgs := mem.asgs + [Asg(c.desired, 0, c.maxSize, ids, [])])
  }

  /** The first look finds the group settled and records it. */
  ghost predicate GatherNow(w: World, w': World, ids: seq<Id>) {
    && Begins(w, Gather)
    && Lists(ids, w.cloud.members)
    && |ids| == w.cloud.desired
    && w' == w.(proc := Alive(Persisting(Gather)), mem := Recorded(w.mem, w.cloud, ids),
                past := Rollout(w.cloud, ids, true), lost := {})
  }

  ghost predicate GatherWait(w: World, w': World) {
    && Begins(w, Gather)
    && |w.cloud.members| != w.cloud.desired
    && w' == w.(proc := Alive(GatherWaiting))
  }

  ghost predicate GatherSettled(w: World, w': World) {
    && At(w, GatherWaiting)
    && |w.cloud.members| == w.cloud.desired
    && w' == w.(proc := Alive(GatherReread), lost := {})
  }

  /** The second look records the group without checking again that it is settled. */
  ghost predicate GatherAgain(w: World, w': World, ids: seq<Id>) {
    && At(w, GatherReread)
    && Lists(ids, w.cloud.members)
    && w' == w.(proc := Alive(Persisting(Gather)), mem := Recorded(w.mem, w.cloud, ids),
                past := Rollout(w.cloud, ids, true))
  }

  ghost predicate GatherStep(w: World, w': World) {
    || (exists ids :: GatherNow(w, w', ids))
    || GatherWait(w, w')
    || GatherSettled(w, w')
    || (exists ids :: GatherAgain(w, w', ids))
  }

  function RaisedMax(mem: Saved): Saved
    requires mem.asgs != []
  {
    mem.(setMaxDone := true,
         asgs := mem.asgs[0 := mem.asgs[0].(maxCapacityForUpdate := mem.asgs[0].originalCapacity * 2)])
  }

  ghost predicate SetMaxStep(w: World, w': World) {
    && Begins(w, SetMax)
    && w.mem.asgs != []
    && var a := w.mem.asgs[0];
    && var n := a.originalCapacity * 2;
    && (a.originalMaxCapacity < n ==> w.cloud.minSize <= n)
    && w' == w.(proc := Alive(Persisting(SetMax)), mem := RaisedMax(w.mem),
                cloud := if a.originalMaxCapacity < n then w.cloud.WithMaxSize(n) else w.cloud)
  }

  ghost predicate ScaleRequest(w: World, w': World) {
    && Begins(w, ScaleUp)
    && w.mem.asgs != []
    && var n := w.mem.asgs[0].maxCapacityForUpdate;
    && w.cloud.minSize <= n <= w.cloud.maxSize
    && w' == w.(proc := Alive(ScaleWaiting), cloud := w.cloud.(desired := n))
  }

  ghost predicate ScaleReached(w: World, w': World) {
    && At(w, ScaleWaiting)
    && |w.cloud.members| == w.cloud.desired
    && w' == w.(proc := Alive(ScaleReading))
  }

  function WithNew(mem: Saved, ids: seq<Id>): Saved
    requires mem.asgs != []
  {
    mem.(scaleUpDone := true, asgs := mem.asgs[0 := mem.asgs[0].(newInstances := ids)])
  }

  /** The new instances are the members that were not recorded as originals. */
  ghost predicate ScaleRead(w: World, w': World, ids: seq<Id>) {
    && At(w, ScaleReading)
    && w.mem.asgs != []
    && Lists(ids, w.cloud.members - Elements(w.mem.asgs[0].originalInstances))
    && w' == w.(proc := Alive(Persisting(ScaleUp)), mem := WithNew(w.mem, ids))
  }

  ghost predicate ScaleUpStep(w: World, w': World) {
    || ScaleRequest(w, w')
    || ScaleReached(w, w')
    || (exists ids :: ScaleRead(w, w', ids))
  }

  ghost predicate NodesReady(w: World, w': World) {
    && Begins(w, WaitNodes)
    && w.mem.asgs != []
    && Elements(w.mem.asgs[0].newInstances) <= w.cloud.ready
    && w' == w.(proc := Alive(LbWaiting))
  }

  ghost predicate BalancersReady(w: World, w': World) {
    && At(w, LbWaiting)
    && w' == w.(proc := Alive(Persisting(WaitNodes)), mem := w.mem.(waitDone := true))
  }

  ghost predicate WaitStep(w: World, w': World) {
    NodesReady(w, w') || BalancersReady(w, w')
  }

  ghost predicate CordonStart(w: World, w': World) {
    && Begins(w, Cordon)
    && w.mem.asgs != []
    && w' == w.(proc := Alive(Cordoning(Elements(w.mem.asgs[0].originalInstances), false)))
  }

  /** One `kubectl cordon` ends; a command that reports an error may have worked all the same. */
  ghost predicate CordonOne(w: World, w': World, i: Id, ok: bool, worked: bool) {
    && w.proc.Alive? && w.proc.pc.Cordoning?
    && i in w.proc.pc.todo
    && (ok ==> worked)
    && w' == w.(proc := Alive(Cordoning(w.proc.pc.todo - {i}, w.proc.pc.failed || !ok)),
                cloud := if worked then w.cloud.(cordoned := w.cloud.cordoned + {i}) else w.cloud)
  }

  ghost predicate CordonEnd(w: World, w': World) {
    && At(w, Cordoning({}, false))
    && w' == w.(proc := Alive(Persisting(Cordon)), mem := w.mem.(cordonDone := true))
  }

  ghost predicate CordonStep(w: World, w': World) {
    || CordonStart(w, w')
    || (exists i, ok, worked :: CordonOne(w, w', i, ok, worked))
    || CordonEnd(w, w')
  }

  ghost predicate DrainStart(w: World, w': World) {
    && Begins(w, Drain)
    && w.mem.asgs != []
    && w' == w.(proc := Alive(Draining(Elements(w.mem.asgs[0].originalInstances), false)))
  }

  /** One `kubectl drain` ends; it also cordons its node. */
  ghost predicate DrainOne(w: World, w': World, i: Id, ok: bool, worked: bool) {
    && w.proc.Alive? && w.proc.pc.Draining?
    && i in w.proc.pc.todo
    && (ok ==> worked)
    && w' == w.(proc := Alive(Draining(w.proc.pc.todo - {i}, w.proc.pc.failed || !ok)),
                cloud := if worked
                         then w.cloud.(cordoned := w.cloud.cordoned + {i}, drained := w.cloud.drained + {i})
                         else w.cloud)
  }

  ghost predicate DrainEnd(w: World, w': World) {
    && At(w, Draining({}, false))
    && w' == w.(proc := Alive(Persisting(Drain)), mem := w.mem.(drainDone := true))
  }

  ghost predicate DrainStep(w: World, w': World) {
    || DrainStart(w, w')
    || (exists i, ok, worked :: DrainOne(w, w', i, ok, worked))
    || DrainEnd(w, w')
  }

  ghost predicate DetachStart(w: World, w': World) {
    Begins(w, Detach) && w.mem.asgs != [] && w' == w.(proc := Alive(Detaching(0)))
  }

  /** The batch of `originals` that follows the first `k`. */
  function Batch(originals: seq<Id>, k: nat, limit: nat): set<Id>
    requires k <= |originals| && limit > 0
  {
    Elements(originals[k..BatchEnd(|originals|, k, limit)])
  }

  ghost predicate DetachBatch(w: World, w': World) {
    && w.proc.Alive? && w.proc.pc.Detaching?
    && w.mem.asgs != []
    && var o, k := w.mem.asgs[0].originalInstances, w.proc.pc.covered;
    && k < |o|
    && var batch := Batch(o, k, DETACH_LIMIT);
    && w.cloud.AcceptsDetach(batch)
    && w' == w.(proc := Alive(Detaching(BatchEnd(|o|, k, DETACH_LIMIT))), cloud := w.cloud.Detach(batch))
  }

  ghost predicate DetachEnd(w: World, w': World) {
    && w.mem.asgs != []
    && At(w, Detaching(|w.mem.asgs[0].originalInstances|))
    && w' == w.(proc := Alive(Persisting(Detach)), mem := w.mem.(detachDone := true))
  }

  ghost predicate DetachStep(w: World, w': World) {
    DetachStart(w, w') || DetachBatch(w, w') || DetachEnd(w, w')
  }

  ghost predicate TerminateStart(w: World, w': World) {
    Begins(w, Terminate) && w.mem.asgs != [] && w' == w.(proc := Alive(Terminating(0)))
  }

  /** Every batch is attempted whether or not the one before it failed. */
  ghost predicate TerminateBatch(w: World, w': World, worked: bool) {
    && w.proc.Alive? && w.proc.pc.Terminating?
    && w.mem.asgs != []
    && var o, k := w.mem.asgs[0].originalInstances, w.proc.pc.covered;
    && k < |o|
    && var batch := Batch(o, k, TERMINATE_LIMIT);
    && w' == w.(proc := Alive(Terminating(BatchEnd(|o|, k, TERMINATE_LIMIT))),
                cloud := w.cloud.(attempted := w.cloud.attempted + batch,
                                  terminated := if worked then w.cloud.terminated + batch else w.cloud.terminated))
  }

  ghost predicate TerminateEnd(w: World, w': World) {
    && w.mem.asgs != []
    && At(w, Terminating(|w.mem.asgs[0].originalInstances|))
    && w' == w.(proc := Alive(Persisting(Terminate)), mem := w.mem.(terminateDone := true))
  }

  ghost predicate TerminateStep(w: World, w': World) {
    TerminateStart(w, w') || (exists worked :: TerminateBatch(w, w', worked)) || TerminateEnd(w, w')
  }

  /** The flag of this stage is not set. */
  ghost predicate RestoreStep(w: World, w': World) {
    && Begins(w, Restore)
    && w.mem.asgs != []
    && var n := w.mem.asgs[0].originalMaxCapacity;
    && w.cloud.minSize <= n
    && w' == w.(proc := Alive(Persisting(Restore)), cloud := w.cloud.WithMaxSize(n))
  }

  // ---- the recovery file ----

  ghost predicate Truncate(w: World, w': World) {
    && w.proc.Alive? && w.proc.pc.Persisting?
    && w' == w.(proc := Alive(Writing(w.proc.pc.stage)), disk := Corrupt)
  }

  function AfterWrite(s: Stage): Pc {
    if s == Restore then Deleting else Enter(Next(s))
  }

  ghost predicate Write(w: World, w': World) {
    && w.proc.Alive? && w.proc.pc.Writing?
    && w' == w.(proc := Alive(AfterWrite(w.proc.pc.stage)), disk := Valid(w.mem))
  }

  /** A failure to delete the file is only logged; the command reports success either way. */
  ghost predicate DeleteFile(w: World, w': World, ok: bool) {
    && At(w, Deleting)
    && w' == if ok && w.past.Rollout?
             then w.(proc := Finished, disk := Absent, past := w.past.(active := false))
             else w.(proc := Finished, disk := if ok then Absent else w.disk)
  }

  ghost predicate FileStep(w: World, w': World) {
    Truncate(w, w') || Write(w, w') || (exists ok :: DeleteFile(w, w', ok))
  }

  ghost predicate StageStep(w: World, w': World) {
    || SkipStep(w, w')
    || GatherStep(w, w')
    || SetMaxStep(w, w')
    || ScaleUpStep(w, w')
    || WaitStep(w, w')
    || CordonStep(w, w')
    || DrainStep(w, w')
    || DetachStep(w, w')
    || TerminateStep(w, w')
    || RestoreStep(w, w')
    || FileStep(w, w')
  }

  ghost predicate Step(w: World, w': World) {
    EnvStep(w, w') || Stop(w, w') || Restart(w, w') || StageStep(w, w')
  }

  ghost predicate Init(w: World) {
    && w.proc == Dead
    && w.mem == Fresh
    && w.disk == Absent
    && w.past == NoRollout
    && w.lost == {}
    && w.cloud.WellFormed()
    && w.cloud.Worked() !! w.cloud.members
  }

  ghost predicate StepAt(run: seq<World>, i: nat)
    requires i + 1 < |run|
  {
    Step(run[i], run[i + 1])
  }

  ghost predicate IsPath(run: seq<World>) {
    run != [] && forall i: nat :: i + 1 < |run| ==> StepAt(run, i)
  }

  /** Any number of commands, crashes, failures and environment moves, from a group no rollout has touched. */
  ghost predicate IsRun(run: seq<World>) {
    IsPath(run) && Init(run[0])
  }
}
