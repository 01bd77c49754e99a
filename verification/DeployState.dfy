/** The deployment command itself: DeployState with its stage methods, proved to take only steps of the rollout
    machine, whatever the calls it makes answer. */
module Deploy {
  import opened Collections
  import opened Cloud
  import opened Rollout
  import opened RolloutInvariant
  import opened RolloutMoves
  import opened RolloutTheorems
  import opened RolloutAfresh
  import opened RolloutMemory
  import opened RetryBudget
  import FanOut
  import Instances
  import LoadBalancers
  import NodeReadiness
  import Paging

  datatype Verb = KubectlCordon | KubectlDrain

  /** A kubectl command and how it ended. */
  datatype Command = Command(verb: Verb, node: Id, end: Option<FanOut.Error>)

  /** What is remembered of the calls: how many failed, how often the command slept, how many descriptions found the
      group unsettled, the listings of the nodes, and the kubectl commands in the order in which they ended. */
  datatype Log = Log(
    failures: nat,
    slept: nat,
    unsettled: nat,
    listings: seq<NodeReadiness.Answer>,
    commands: seq<Command>)
  {
    function Call(ok: bool): Log {
      if ok then this else this.(failures := failures + 1)
    }

    predicate Extends(earlier: Log) {
      && earlier.failures <= failures && earlier.slept <= slept && earlier.unsettled <= unsettled
      && earlier.listings <= listings && earlier.commands <= commands
    }

    /** Every listing since then was had and failed the check. */
    ghost predicate NonePassed(earlier: Log, names: seq<string>) {
      forall i :: |earlier.listings| <= i < |listings| ==>
        listings[i].Nodes? && !NodeReadiness.Counted(listings[i].nodes, names)
    }
  }

  /** What the command talks to: AWS, Kubernetes and the file system. Every call may fail, and a call that reports
      an error may have taken effect all the same. `trace` is every world so far, of this and earlier commands. */
  class Outside {
    var cloud: Cloud
    var disk: Disk
    ghost var trace: seq<World>
    /** Whether some command has passed over a recovery file that was there. */
    ghost var afresh: bool
    ghost var log: Log
    /** The services of the last listing. */
    ghost var services: seq<LoadBalancers.Service>
    const elb: LoadBalancers.Elb

    ghost predicate Since(trace: seq<World>, log: Log)
      reads this
    {
      trace <= this.trace && this.log.Extends(log)
    }

    ghost method Note(ok: bool)
      modifies this`log
      ensures log == old(log).Call(ok)
    {
      log := log.Call(ok);
    }

    ghost function Now(): World
      requires trace != []
      reads this
    {
      trace[|trace| - 1]
    }

    ghost predicate Valid()
      reads this
    {
      && trace != [] && IsHistory(trace) && (!afresh ==> IsRun(trace))
      && MemoryOk(Now()) && Now().cloud == cloud && Now().disk == disk
    }

    constructor (c: Cloud)
      requires c.WellFormed() && c.Worked() !! c.members
      ensures Valid() && !afresh && Now().proc == Dead && disk == Absent && cloud == c && fresh(elb)
    {
      cloud, disk := c, Absent;
      log, services := Log(0, 0, 0, [], []), [];
      elb := new LoadBalancers.Elb();
      trace, afresh := [World(Dead, Fresh, Absent, c, NoRollout, {})], false;
    }

    ghost method Record(w: World)
      requires trace != [] && IsHistory(trace) && (!afresh ==> IsRun(trace)) && MemoryOk(Now())
      requires Step(Now(), w) && w.cloud == cloud && w.disk == disk
      modifies this`trace
      ensures Valid() && Now() == w && trace == old(trace) + [w]
    {
      hide MemoryOk, Step, IsHistory, IsRun;
      StepKeepsMemory(Now(), w);
      ExtendHistory(trace, w);
      if !afresh {
        ExtendRun(trace, w);
      }
      trace := trace + [w];
    }

    ghost method RecordAfresh(w: World)
      requires Valid() && StartAfresh(Now(), w)
      modifies this`trace, this`afresh
      ensures Valid() && afresh && Now() == w && trace == old(trace) + [w]
    {
      hide MemoryOk, IsHistory, IsRun;
      StepKeepsMemory(Now(), w);
      ExtendHistory(trace, w);
      trace, afresh := trace + [w], true;
    }

    /** The group, its nodes and time move on by themselves. */
    method Interfere()
      requires Valid()
      modifies this`cloud, this`trace
      ensures Valid() && old(trace) <= trace
      ensures Now() == old(Now()).(cloud := cloud, lost := Now().lost)
      ensures cloud.desired == old(cloud.desired) && cloud.maxSize == old(cloud.maxSize)
    {
      hide MemoryOk, Step, IsHistory, IsRun;
      var moves: int := *;
      while moves > 0
        invariant Valid() && old(trace) <= trace
        invariant Now() == old(Now()).(cloud := cloud, lost := Now().lost)
        invariant cloud.desired == old(cloud.desired) && cloud.maxSize == old(cloud.maxSize)
      {
        Move();
        moves := moves - 1;
      }
    }

    method Move()
      requires Valid()
      modifies this`cloud, this`trace
      ensures Valid() && old(trace) <= trace
      ensures Now() == old(Now()).(cloud := cloud, lost := Now().lost)
      ensures cloud.desired == old(cloud.desired) && cloud.maxSize == old(cloud.maxSize)
    {
      hide MemoryOk, Step, IsHistory, IsRun;
      var i: Id := *;
      ghost var w := Now();
      if |cloud.members| < cloud.desired && i !in cloud.seen {
        cloud := cloud.(members := cloud.members + {i}, seen := cloud.seen + {i});
        ByLaunch(w, w.(cloud := cloud), i);
        Record(w.(cloud := cloud));
      } else if i in cloud.members {
        var event: nat := *;
        if event == 0 {
          cloud := cloud.(ready := cloud.ready + {i});
          ByBecomeReady(w, w.(cloud := cloud), i);
          Record(w.(cloud := cloud));
        } else {
          var leaves := event == 1;
          cloud := cloud.(ready := cloud.ready - {i}, members := if leaves then cloud.members - {i} else cloud.members);
          ByFail(w, w.(cloud := cloud, lost := w.lost + {i}), i, leaves);
          Record(w.(cloud := cloud, lost := w.lost + {i}));
        }
      }
    }

    method Sleep()
      requires Valid()
      modifies this`cloud, this`trace, this`log
      ensures Valid() && old(trace) <= trace && log == old(log).(slept := old(log.slept) + 1)
      ensures Now() == old(Now()).(cloud := cloud, lost := Now().lost)
      ensures cloud.desired == old(cloud.desired) && cloud.maxSize == old(cloud.maxSize)
    {
      hide MemoryOk, Step, IsHistory, IsRun;
      log := log.(slept := log.slept + 1);
      Interfere();
    }

    /** GetAsgByName: the sizes and a listing of the instances, in any order. */
    method DescribeGroup() returns (ok: bool, desired: int, max: int, ids: seq<Id>)
      modifies this`log
      ensures ok ==> desired == cloud.desired && max == cloud.maxSize && Lists(ids, cloud.members)
      ensures log == if !ok || |ids| == desired then old(log).Call(ok)
                     else old(log).(unsettled := old(log).unsettled + 1)
    {
      ok := *;
      desired, max, ids := cloud.desired, cloud.maxSize, [];
      var left := cloud.members;
      while left != {}
        invariant left <= cloud.members && NoDuplicates(ids) && Elements(ids) == cloud.members - left
        decreases left
      {
        var i :| i in left;
        assert i !in Elements(ids);
        assert Elements(ids + [i]) == Elements(ids) + {i};
        ids := ids + [i];
        left := left - {i};
      }
      log := if !ok || |ids| == desired then log.Call(ok) else log.(unsettled := log.unsettled + 1);
    }

    /** DescribeInstances: the node names of these instances, in any order. A node has its instance's id as its name. */
    method NodeNames(ids: seq<Id>) returns (ok: bool, names: seq<string>)
      modifies this`log
      ensures log == old(log).Call(ok)
      ensures ok ==> Elements(names) == Elements(ids)
    {
      ok, names := *, ids;
      Note(ok);
      var turn: int := *;
      if 0 <= turn <= |ids| {
        names := ids[turn..] + ids[..turn];
        assert ids == ids[..turn] + ids[turn..];
      }
    }

    /** The listing of the nodes: some nodes, each under its own name, and none reported ready that is not. */
    method ListNodes() returns (answer: NodeReadiness.Answer)
      modifies this`log
      ensures log == old(log).Call(answer.Nodes?).(listings := old(log).listings + [answer])
      ensures answer.Nodes? ==> NoDuplicates(NodeReadiness.Names(answer.nodes))
      ensures answer.Nodes? ==>
        forall i :: 0 <= i < |answer.nodes| && NodeReadiness.IsReady(answer.nodes[i]) ==>
          answer.nodes[i].name in cloud.ready
    {
      var answers: bool := *;
      if !answers {
        log := log.Call(false).(listings := log.listings + [NodeReadiness.ApiError]);
        return NodeReadiness.ApiError;
      }
      var nodes: seq<NodeReadiness.Node> := [];
      var left := cloud.seen + cloud.ready;
      while left != {}
        invariant NoDuplicates(NodeReadiness.Names(nodes))
        invariant forall i :: 0 <= i < |nodes| ==> nodes[i].name !in left
        invariant forall i :: 0 <= i < |nodes| && NodeReadiness.IsReady(nodes[i]) ==> nodes[i].name in cloud.ready
        decreases left
      {
        var name :| name in left;
        left := left - {name};
        var listed: bool, status: NodeReadiness.Status := *, *;
        if listed {
          var seen := if name in cloud.ready then status else NodeReadiness.Unknown;
          var node := NodeReadiness.Node(name, [NodeReadiness.Condition(NodeReadiness.NODE_READY, seen)]);
          assert NodeReadiness.Names(nodes + [node]) == NodeReadiness.Names(nodes) + [name];
          nodes := nodes + [node];
        }
      }
      answer := NodeReadiness.Nodes(nodes);
      log := log.(listings := log.listings + [answer]);
    }

    /** The services of the cluster, on any number of pages, of which some may fail to come. */
    method Services() returns (api: Paging.Listing<LoadBalancers.Service>)
      modifies this`log, this`services
      ensures fresh(api) && api.pages != [] && api.served <= |api.pages| && services == Flatten(api.pages)
      ensures log == old(log).Call(api.Complete())
    {
      var pages: seq<seq<LoadBalancers.Service>>, served: nat := *, *;
      if pages == [] {
        pages := [[]];
      }
      api := new Paging.Listing(pages, if served <= |pages| then served else |pages|);
      services := Flatten(pages);
      Note(api.Complete());
    }

    method SetMaxSize(n: int) returns (ok: bool)
      modifies this`cloud, this`log
      ensures log == old(log).Call(ok)
      ensures ok || cloud != old(cloud) ==> old(cloud).minSize <= n && cloud == old(cloud).WithMaxSize(n)
    {
      var arrives, answers: bool := *, *;
      ok := false;
      if arrives && cloud.minSize <= n {
        cloud := cloud.WithMaxSize(n);
        ok := answers;
      }
      Note(ok);
    }

    method SetDesired(n: int) returns (ok: bool)
      modifies this`cloud, this`log
      ensures log == old(log).Call(ok)
      ensures ok || cloud != old(cloud) ==>
        old(cloud).minSize <= n <= old(cloud).maxSize && cloud == old(cloud).(desired := n)
    {
      var arrives, answers: bool := *, *;
      ok := false;
      if arrives && cloud.minSize <= n <= cloud.maxSize {
        cloud := cloud.(desired := n);
        ok := answers;
      }
      Note(ok);
    }

    /** A batch of at most twenty; one with an instance that is not in the group is rejected as a whole. */
    method DetachInstances(batch: seq<Id>) returns (ok: bool)
      requires |batch| <= 20
      modifies this`cloud, this`log
      ensures log == old(log).Call(ok)
      ensures ok || cloud != old(cloud) ==>
        old(cloud).AcceptsDetach(Elements(batch)) && cloud == old(cloud).Detach(Elements(batch))
    {
      var arrives, answers: bool := *, *;
      ok := false;
      if arrives && cloud.AcceptsDetach(Elements(batch)) {
        cloud := cloud.Detach(Elements(batch));
        ok := answers;
      }
      Note(ok);
    }

    /** TerminateInstances and the wait for it, for at most a thousand. */
    method TerminateInstances(batch: seq<Id>) returns (ok: bool, ghost worked: bool)
      requires |batch| <= 1000
      modifies this`cloud, this`log
      ensures ok ==> worked
      ensures log == old(log).Call(ok)
      ensures cloud == old(cloud).(
        attempted := old(cloud).attempted + Elements(batch),
        terminated := if worked then old(cloud).terminated + Elements(batch) else old(cloud).terminated)
    {
      var arrives, answers: bool := *, *;
      worked := arrives;
      ok := arrives && answers;
      cloud := cloud.(attempted := cloud.attempted + Elements(batch),
                      terminated := if arrives then cloud.terminated + Elements(batch) else cloud.terminated);
      Note(ok);
    }

    method Cordon(i: Id) returns (end: Option<FanOut.Error>, ghost worked: bool)
      modifies this`cloud, this`log
      ensures end.None? ==> worked
      ensures log == old(log).Call(end.None?).(commands := old(log).commands + [Command(KubectlCordon, i, end)])
      ensures cloud == if worked then old(cloud).(cordoned := old(cloud).cordoned + {i}) else old(cloud)
    {
      var arrives, answers: bool, message: FanOut.Error := *, *, *;
      worked := arrives;
      end := if arrives && answers then None else Some(message);
      log := log.Call(end.None?).(commands := log.commands + [Command(KubectlCordon, i, end)]);
      if arrives {
        cloud := cloud.(cordoned := cloud.cordoned + {i});
      }
    }

    method Drain(i: Id) returns (end: Option<FanOut.Error>, ghost worked: bool)
      modifies this`cloud, this`log
      ensures end.None? ==> worked
      ensures log == old(log).Call(end.None?).(commands := old(log).commands + [Command(KubectlDrain, i, end)])
      ensures cloud == if worked
                       then old(cloud).(cordoned := old(cloud).cordoned + {i}, drained := old(cloud).drained + {i})
                       else old(cloud)
    {
      var arrives, answers: bool, message: FanOut.Error := *, *, *;
      worked := arrives;
      end := if arrives && answers then None else Some(message);
      log := log.Call(end.None?).(commands := log.commands + [Command(KubectlDrain, i, end)]);
      if arrives {
        cloud := cloud.(cordoned := cloud.cordoned + {i}, drained := cloud.drained + {i});
      }
    }

    /** ReadFile: a missing file is an error like any other. */
    method ReadFile() returns (file: Option<Disk>)
      modifies this`log
      ensures file.Some? ==> file.value == disk && !disk.Absent?
      ensures log == old(log).Call(file.Some? || disk.Absent?)
    {
      var ok: bool := *;
      file := if ok && !disk.Absent? then Some(disk) else None;
      Note(file.Some? || disk.Absent?);
    }

    method OpenTruncated() returns (ok: bool)
      modifies this`disk, this`log
      ensures log == old(log).Call(ok)
      ensures disk == if ok then Corrupt else old(disk)
    {
      ok := *;
      Note(ok);
      if ok {
        disk := Corrupt;
      }
    }

    method WriteAll(s: Saved) returns (ok: bool)
      modifies this`disk, this`log
      ensures log == old(log).Call(ok)
      ensures disk == if ok then Disk.Valid(s) else old(disk)
    {
      ok := *;
      Note(ok);
      if ok {
        disk := Disk.Valid(s);
      }
    }

    method Remove() returns (ok: bool)
      modifies this`disk, this`log
      ensures log == old(log).Call(ok)
      ensures disk == if ok then Absent else old(disk)
    {
      ok := *;
      Note(ok);
      if ok {
        disk := Absent;
      }
    }
  }

  lemma ExtendRun(run: seq<World>, w: World)
    requires IsRun(run) && Step(run[|run| - 1], w)
    ensures IsRun(run + [w])
  {
    hide Step;
    forall i: nat | i + 1 < |run + [w]| ensures StepAt(run + [w], i) {
      if i + 1 < |run| {
        assert StepAt(run, i);
      }
    }
  }

  lemma TakesBatch(w: World, c: Cloud, k: nat)
    requires w.proc == Alive(Detaching(k)) && w.mem.asgs != [] && k < |w.mem.asgs[0].originalInstances|
    requires var o := w.mem.asgs[0].originalInstances;
      var batch := Elements(o[k..BatchEnd(|o|, k, DETACH_LIMIT)]);
      w.cloud.AcceptsDetach(batch) && c == w.cloud.Detach(batch)
    ensures var e := BatchEnd(|w.mem.asgs[0].originalInstances|, k, DETACH_LIMIT);
      DetachBatch(w, w.(proc := Alive(Detaching(e)), cloud := c))
  {
  }

  lemma Restores(w: World, c: Cloud)
    requires w.proc == Alive(Enter(Restore)) && w.mem.asgs != [] && !w.mem.Done(Restore)
    requires var n := w.mem.asgs[0].originalMaxCapacity; w.cloud.minSize <= n && c == w.cloud.WithMaxSize(n)
    ensures RestoreStep(w, w.(proc := Alive(Persisting(Restore)), cloud := c))
  {
  }

  /** Did some command end with an error? */
  ghost predicate SomeError(ends: map<Id, Option<FanOut.Error>>) {
    exists i :: i in ends && ends[i].Some?
  }

  lemma OneMoreEnd(ends: map<Id, Option<FanOut.Error>>, i: Id, end: Option<FanOut.Error>)
    requires i !in ends
    ensures SomeError(ends[i := end]) <==> SomeError(ends) || end.Some?
  {
    assert i in ends[i := end];
    if SomeError(ends) {
      var j :| j in ends && ends[j].Some?;
      assert j in ends[i := end];
    }
  }

  function EndsInOrder(ids: seq<Id>, ends: map<Id, Option<FanOut.Error>>): seq<Option<FanOut.Error>>
    requires forall i :: i in ids ==> i in ends
  {
    seq(|ids|, k requires 0 <= k < |ids| => ends[ids[k]])
  }

  lemma ErrorsCollected(ids: seq<Id>, ends: map<Id, Option<FanOut.Error>>)
    requires ends.Keys == Elements(ids)
    ensures FanOut.Errors(EndsInOrder(ids, ends)) != [] <==> SomeError(ends)
  {
    var out := EndsInOrder(ids, ends);
    FanOut.ErrorsEmpty(out);
    if SomeError(ends) {
      var i :| i in ends && ends[i].Some?;
      var k :| 0 <= k < |ids| && ids[k] == i;
      assert out[k].Some?;
    } else {
      forall k | 0 <= k < |out| ensures out[k].None? {
        assert ids[k] in ends;
      }
    }
  }

  /** The ids that are not among these, in their order. */
  function Without(ids: seq<Id>, existing: seq<Id>): seq<Id> {
    Keep(ids, (i: Id) => i !in existing)
  }

  /** There was one wait for each service whose load balancer routes to instances, for these instances, and all of
      them succeeded. */
  ghost predicate Registered(waits: seq<LoadBalancers.Wait>, services: seq<LoadBalancers.Service>, ids: seq<Id>) {
    && LoadBalancers.Failed(waits) == []
    && exists at :: LoadBalancers.WaitsFor(waits, LoadBalancers.LoadBalancerServices(services), ids, at)
  }

  /** A service cannot be described, or a wait failed. */
  ghost predicate NotVerified(waits: seq<LoadBalancers.Wait>, services: seq<LoadBalancers.Service>) {
    || !LoadBalancers.AllDescribable(LoadBalancers.LoadBalancerServices(services))
    || LoadBalancers.Failed(waits) != []
  }

  class DeployState {
    var gatherAsgInfoDone: bool
    var setMaxCapacityDone: bool
    var scaleUpDone: bool
    var waitForNodesDone: bool
    var cordonNodesDone: bool
    var drainNodesDone: bool
    var detachInstancesDone: bool
    var terminateInstancesDone: bool
    var restoreCapacityDone: bool
    var asgs: seq<Asg>
    var maxRetries: int
    const sleepBetweenRetries: int
    const outside: Outside

    /** The fields that are written to the recovery file. */
    function Exported(): Saved
      reads this
    {
      Saved(gatherAsgInfoDone, setMaxCapacityDone, scaleUpDone, waitForNodesDone, cordonNodesDone, drainNodesDone,
            detachInstancesDone, terminateInstancesDone, restoreCapacityDone, asgs)
    }

    /** The process is at pc of the machine, and the machine's memory is this object. */
    ghost predicate At(pc: Pc)
      reads this, outside
    {
      outside.Valid() && outside.Now().proc == Alive(pc) && outside.Now().mem == Exported()
    }

    /** The command stopped because a call failed. */
    ghost predicate Failed(before: Log)
      reads outside
    {
      Stopped() && before.failures < outside.log.failures
    }

    /** It stopped because a call failed or because a wait ran out of retries. */
    ghost predicate GaveUp(before: Log)
      reads this, outside
    {
      Failed(before) || (Stopped() && before.slept + maxRetries <= outside.log.slept)
    }

    /** Without retries set, a sleep of less than a second makes the program divide by zero. */
    predicate DividesByZero(setting: int) {
      setting == 0 && -1_000_000_000 < sleepBetweenRetries < 1_000_000_000
    }

    ghost predicate Stopped()
      reads outside
    {
      outside.Valid() && outside.Now().proc == Dead
    }

    /** initDeployState once the file has been read: a missing file gives a fresh state. */
    constructor (outside: Outside, saved: Saved, maxRetries: int, sleep: int)
      ensures this.outside == outside && Exported() == saved
      ensures this.maxRetries == maxRetries && sleepBetweenRetries == sleep
    {
      this.outside := outside;
      gatherAsgInfoDone, setMaxCapacityDone, scaleUpDone := saved.gatherDone, saved.setMaxDone, saved.scaleUpDone;
      waitForNodesDone, cordonNodesDone, drainNodesDone := saved.waitDone, saved.cordonDone, saved.drainDone;
      detachInstancesDone, terminateInstancesDone := saved.detachDone, saved.terminateDone;
      restoreCapacityDone, asgs := saved.restoreDone, saved.asgs;
      this.maxRetries, sleepBetweenRetries := maxRetries, sleep;
    }

    /** Return with an error. */
    ghost method Fail()
      requires outside.Valid() && outside.Now().proc.Alive?
      modifies outside`trace
      ensures Stopped() && old(outside.trace) <= outside.trace
    {
      hide MemoryOk, Step, IsHistory, IsRun;
      ghost var w := outside.Now().(proc := Dead);
      ByStop(outside.Now(), w);
      outside.Record(w);
    }

    ghost method Skip(s: Stage)
      requires At(Enter(s)) && Exported().Done(s)
      modifies outside`trace
      ensures At(if s == Restore then Deleting else Enter(Next(s))) && old(outside.trace) <= outside.trace
    {
      hide MemoryOk, Step, IsHistory, IsRun;
      ghost var w := outside.Now().(proc := Alive(if s == Restore then Deleting else Enter(Next(s))));
      BySkip(outside.Now(), w);
      outside.Record(w);
    }

    /** How often a wait asks at most. */
    function Tries(): nat
      reads this
    {
      if maxRetries < 0 then 0 else maxRetries
    }

    /** persist: success means the file holds exactly this object. */
    method Persist(ghost s: Stage) returns (ok: bool)
      requires At(Persisting(s))
      modifies outside`disk, outside`trace, outside`log
      ensures outside.Since(old(outside.trace), old(outside.log))
      ensures ok ==> At(AfterWrite(s)) && outside.disk == Disk.Valid(Exported())
      ensures !ok ==> Failed(old(outside.log))
    {
      hide MemoryOk, Step, IsHistory, IsRun;
      ok := outside.OpenTruncated();
      if !ok {
        Fail();
        return;
      }
      ghost var w := outside.Now().(proc := Alive(Writing(s)), disk := Corrupt);
      ByTruncate(outside.Now(), w);
      outside.Record(w);
      ok := outside.WriteAll(Exported());
      if !ok {
        Fail();
        return;
      }
      w := outside.Now().(proc := Alive(AfterWrite(s)), disk := Disk.Valid(Exported()));
      ByWrite(outside.Now(), w);
      outside.Record(w);
    }

    /** The end of every stage: the step into the world w, which has this object in memory, and then persist. */
    method Checkpoint(ghost s: Stage, ghost w: World) returns (ok: bool)
      requires outside.Valid() && Step(outside.Now(), w)
      requires w.proc == Alive(Persisting(s)) && w.mem == Exported() && w.cloud == outside.cloud
      requires w.disk == outside.disk
      modifies outside`disk, outside`trace, outside`log
      ensures outside.Since(old(outside.trace), old(outside.log))
      ensures ok ==> At(AfterWrite(s)) && outside.disk == Disk.Valid(Exported())
      ensures !ok ==> Failed(old(outside.log))
    {
      hide MemoryOk, Step, IsHistory, IsRun;
      outside.Record(w);
      ok := Persist(s);
    }

    /** waitForCapacity. A wait without success slept once for each retry, each time after the group was found
        unsettled, unless a call failed. */
    method WaitForCapacity() returns (met: bool)
      requires outside.Valid()
      modifies outside`cloud, outside`trace, outside`log
      ensures outside.Valid() && outside.Since(old(outside.trace), old(outside.log))
      ensures outside.Now() == old(outside.Now()).(cloud := outside.cloud, lost := outside.Now().lost)
      ensures outside.cloud.desired == old(outside.cloud.desired)
      ensures met ==> |outside.cloud.members| == outside.cloud.desired
      ensures outside.log.slept <= old(outside.log.slept) + Tries()
      ensures met ==> outside.log.failures == old(outside.log.failures)
      ensures !met && outside.log.failures == old(outside.log.failures) ==>
        && outside.log.slept == old(outside.log.slept) + Tries()
        && outside.log.unsettled == old(outside.log.unsettled) + Tries()
    {
      hide MemoryOk, Step, IsHistory, IsRun;
      met := false;
      var i := 0;
      while i < maxRetries
        invariant outside.Valid() && outside.Since(old(outside.trace), old(outside.log))
        invariant outside.Now() == old(outside.Now()).(cloud := outside.cloud, lost := outside.Now().lost)
        invariant outside.cloud.desired == old(outside.cloud.desired)
        invariant 0 <= i <= Tries() && outside.log.failures == old(outside.log.failures)
        invariant outside.log.slept == old(outside.log.slept) + i
        invariant outside.log.unsettled == old(outside.log.unsettled) + i
      {
        var ok, desired, max, ids := outside.DescribeGroup();
        if !ok {
          return;
        }
        if |ids| == desired {
          ElementsSize(ids);
          met := true;
          return;
        }
        outside.Sleep();
        i := i + 1;
      }
    }

    /** The wait of a group that was not settled when first described. */
    method WaitForSteadyState() returns (ok: bool)
      requires At(Enter(Gather)) && !gatherAsgInfoDone && |outside.cloud.members| != outside.cloud.desired
      modifies outside`cloud, outside`trace, outside`log
      ensures outside.Since(old(outside.trace), old(outside.log))
      ensures ok ==> At(GatherReread) && outside.cloud.desired == old(outside.cloud.desired)
      ensures !ok ==> GaveUp(old(outside.log))
    {
      hide MemoryOk, Step, IsHistory, IsRun;
      ghost var w := outside.Now().(proc := Alive(GatherWaiting));
      ByGatherWait(outside.Now(), w);
      outside.Record(w);
      ok := WaitForCapacity();
      if !ok {
        Fail();
        return;
      }
      w := outside.Now().(proc := Alive(GatherReread), lost := {});
      ByGatherSettled(outside.Now(), w);
      outside.Record(w);
    }

    /** After the wait the group is described again, without another look at whether it is settled. */
    method AwaitSteadyState() returns (ok: bool, desired: int, max: int, ids: seq<Id>)
      requires At(Enter(Gather)) && !gatherAsgInfoDone && |outside.cloud.members| != outside.cloud.desired
      modifies outside`cloud, outside`trace, outside`log
      ensures outside.Since(old(outside.trace), old(outside.log))
      ensures ok ==> At(GatherReread) && desired == outside.cloud.desired == old(outside.cloud.desired)
      ensures ok ==> max == outside.cloud.maxSize && Lists(ids, outside.cloud.members)
      ensures !ok ==> GaveUp(old(outside.log))
    {
      hide MemoryOk, Step, IsHistory, IsRun;
      desired, max, ids := 0, 0, [];
      ok := WaitForSteadyState();
      if !ok {
        return;
      }
      outside.Interfere();
      ok, desired, max, ids := outside.DescribeGroup();
      if !ok {
        Fail();
      }
    }

    /** The last part of gathering: remember the group and save. */
    method RecordGroup(capacity: int, max: int, ids: seq<Id>) returns (ok: bool)
      requires !gatherAsgInfoDone && (At(GatherReread) || (At(Enter(Gather)) && |ids| == capacity))
      requires capacity == outside.cloud.desired && max == outside.cloud.maxSize && Lists(ids, outside.cloud.members)
      modifies this`gatherAsgInfoDone, this`asgs, outside`disk, outside`trace, outside`log
      ensures outside.Since(old(outside.trace), old(outside.log))
      ensures ok ==> At(Enter(SetMax)) && gatherAsgInfoDone && asgs == old(asgs) + [Asg(capacity, 0, max, ids, [])]
      ensures ok ==> outside.disk == Disk.Valid(Exported())
      ensures !ok ==> Failed(old(outside.log))
    {
      hide MemoryOk, Step, IsHistory, IsRun;
      ghost var w := outside.Now();
      gatherAsgInfoDone := true;
      asgs := asgs + [Asg(capacity, 0, max, ids, [])];
      w := w.(proc := Alive(Persisting(Gather)), mem := Exported(), past := Rollout(outside.cloud, ids, true),
              lost := if w.proc.pc.GatherReread? then w.lost else {});
      ByGatherRecord(outside.Now(), w, ids);
      ok := Checkpoint(Gather, w);
    }

    /** A resumed process only recomputes its retry budget. */
    method KeepGathered() returns (ok: bool)
      requires At(Enter(Gather)) && gatherAsgInfoDone
      modifies this`maxRetries, outside`trace, outside`log
      ensures outside.Since(old(outside.trace), old(outside.log))
      ensures ok <==> !DividesByZero(old(maxRetries))
      ensures ok ==> At(Enter(SetMax)) && asgs != []
      ensures old(maxRetries) != 0 ==> maxRetries == old(maxRetries)
      ensures ok ==> IsBudget(maxRetries, old(maxRetries), sleepBetweenRetries, asgs[0].originalCapacity)
      ensures !ok ==> Stopped() && maxRetries == old(maxRetries)
    {
      hide MemoryOk, Step, IsHistory, IsRun, IsDefaultBudget, EnsureMaxRetries;
      HasRecord(outside.Now());
      EnsureMaxRetriesMeans(maxRetries, sleepBetweenRetries, asgs[0].originalCapacity);
      var kept := EnsureMaxRetries(maxRetries, sleepBetweenRetries, asgs[0].originalCapacity);
      if kept.Panics? {
        Fail();
        return false;
      }
      maxRetries := kept.count;
      Skip(Gather);
      return true;
    }

    /** The rest of gathering once the group was described for the first time. */
    method GatherFrom(firstCapacity: int, firstMax: int, firstIds: seq<Id>) returns (ok: bool)
      requires At(Enter(Gather)) && !gatherAsgInfoDone
      requires firstCapacity == outside.cloud.desired && firstMax == outside.cloud.maxSize
      requires Lists(firstIds, outside.cloud.members)
      modifies this`gatherAsgInfoDone, this`asgs, outside`cloud, outside`disk, outside`trace, outside`log
      ensures outside.Since(old(outside.trace), old(outside.log))
      ensures ok ==> At(Enter(SetMax)) && gatherAsgInfoDone && asgs != [] && asgs[0].originalCapacity == firstCapacity
      ensures !ok ==> GaveUp(old(outside.log))
    {
      hide MemoryOk, Step, IsHistory, IsRun;
      FreshAsgs(outside.Now());
      var capacity, max, ids := firstCapacity, firstMax, firstIds;
      if capacity != |ids| {
        ElementsSize(ids);
        ok, capacity, max, ids := AwaitSteadyState();
        if !ok {
          return;
        }
      }
      ok := RecordGroup(capacity, max, ids);
    }

    method GatherAsgInfo() returns (ok: bool)
      requires At(Enter(Gather))
      modifies this`maxRetries, this`gatherAsgInfoDone, this`asgs
      modifies outside`cloud, outside`disk, outside`trace, outside`log
      ensures outside.Since(old(outside.trace), old(outside.log))
      ensures DividesByZero(old(maxRetries)) ==> !ok
      ensures ok ==> At(Enter(SetMax)) && gatherAsgInfoDone && asgs != []
      ensures old(maxRetries) != 0 ==> maxRetries == old(maxRetries)
      ensures ok ==> IsBudget(maxRetries, old(maxRetries), sleepBetweenRetries, asgs[0].originalCapacity)
      ensures !ok ==> GaveUp(old(outside.log)) || (Stopped() && DividesByZero(old(maxRetries)))
    {
      hide MemoryOk, Step, IsHistory, IsRun, IsDefaultBudget, EnsureMaxRetries;
      outside.Interfere();
      if gatherAsgInfoDone {
        ok := KeepGathered();
        return;
      }
      var found, capacity, max, ids := outside.DescribeGroup();
      if !found {
        Fail();
        return false;
      }
      EnsureMaxRetriesMeans(maxRetries, sleepBetweenRetries, capacity);
      var budget := EnsureMaxRetries(maxRetries, sleepBetweenRetries, capacity);
      if budget.Panics? {
        Fail();
        return false;
      }
      maxRetries := budget.count;
      ok := GatherFrom(capacity, max, ids);
    }

    method SetMaxCapacity() returns (ok: bool)
      requires At(Enter(SetMax))
      modifies this`setMaxCapacityDone, this`asgs, outside`cloud, outside`disk, outside`trace, outside`log
      ensures outside.Since(old(outside.trace), old(outside.log))
      ensures ok ==> At(Enter(Stage.ScaleUp)) && setMaxCapacityDone
      ensures !ok ==> Failed(old(outside.log))
    {
      hide MemoryOk, Step, IsHistory, IsRun;
      outside.Interfere();
      if setMaxCapacityDone {
        Skip(SetMax);
        return true;
      }
      ok := RaiseMaxSize();
      if !ok {
        return;
      }
      setMaxCapacityDone := true;
      asgs := asgs[0 := asgs[0].(maxCapacityForUpdate := asgs[0].originalCapacity * 2)];
      ok := Persist(SetMax);
    }

    /** The request for a higher maximum, made only where the group's own maximum is too low. */
    method RaiseMaxSize() returns (ok: bool)
      requires At(Enter(SetMax)) && !setMaxCapacityDone
      modifies outside`cloud, outside`trace, outside`log
      ensures outside.Since(old(outside.trace), old(outside.log)) && asgs != []
      ensures ok ==>
        outside.Valid() && outside.Now().proc == Alive(Persisting(SetMax)) && outside.Now().mem == RaisedMax(Exported())
      ensures !ok ==> Failed(old(outside.log))
    {
      hide MemoryOk, Step, IsHistory, IsRun;
      HasGroup(outside.Now());
      var maxCapacityForUpdate := asgs[0].originalCapacity * 2;
      if asgs[0].originalMaxCapacity < maxCapacityForUpdate {
        ok := RequestMaxSize(maxCapacityForUpdate);
        return;
      }
      ok := true;
      ghost var w := outside.Now();
      w := w.(proc := Alive(Persisting(SetMax)), mem := RaisedMax(w.mem));
      BySetMax(outside.Now(), w);
      outside.Record(w);
    }

    method RequestMaxSize(n: int) returns (ok: bool)
      requires At(Enter(SetMax)) && !setMaxCapacityDone && asgs != []
      requires asgs[0].originalMaxCapacity < n == asgs[0].originalCapacity * 2
      modifies outside`cloud, outside`trace, outside`log
      ensures outside.Since(old(outside.trace), old(outside.log))
      ensures ok ==>
        outside.Valid() && outside.Now().proc == Alive(Persisting(SetMax)) && outside.Now().mem == RaisedMax(Exported())
      ensures !ok ==> Failed(old(outside.log))
    {
      hide MemoryOk, Step, IsHistory, IsRun;
      ghost var w, c := outside.Now(), outside.cloud;
      ok := outside.SetMaxSize(n);
      if ok || outside.cloud != c {
        w := w.(proc := Alive(Persisting(SetMax)), mem := RaisedMax(w.mem), cloud := outside.cloud);
        BySetMax(outside.Now(), w);
        outside.Record(w);
      }
      if !ok {
        Fail();
      }
    }

    /** getLaunchedInstanceIds: the instances in the group that were not there before, in the group's order. */
    static method LaunchedIds(ids: seq<Id>, existing: seq<Id>) returns (launched: seq<Id>)
      requires NoDuplicates(ids)
      ensures Lists(launched, Elements(ids) - Elements(existing)) && launched == Without(ids, existing)
    {
      launched := [];
      for k := 0 to |ids|
        invariant launched == Without(ids[..k], existing)
        invariant Lists(launched, Elements(ids[..k]) - Elements(existing))
      {
        assert ids[..k + 1] == ids[..k] + [ids[k]] && ids[..k + 1][..k] == ids[..k];
        assert ids[k] !in ids[..k];
        if ids[k] !in existing {
          assert Elements(launched + [ids[k]]) == Elements(launched) + {ids[k]};
          launched := launched + [ids[k]];
        }
      }
      assert ids[..|ids|] == ids;
    }

    method ScaleUp() returns (ok: bool)
      requires At(Enter(Stage.ScaleUp))
      modifies this`scaleUpDone, this`asgs, outside`cloud, outside`disk, outside`trace, outside`log
      ensures outside.Since(old(outside.trace), old(outside.log))
      ensures ok ==> At(Enter(WaitNodes)) && scaleUpDone
      ensures !ok ==> GaveUp(old(outside.log))
    {
      hide MemoryOk, Step, IsHistory, IsRun;
      outside.Interfere();
      if scaleUpDone {
        Skip(Stage.ScaleUp);
        return true;
      }
      var launched;
      ok, launched := LaunchNew();
      if !ok {
        return;
      }
      ghost var w := outside.Now();
      scaleUpDone := true;
      asgs := asgs[0 := asgs[0].(newInstances := launched)];
      w := w.(proc := Alive(Persisting(Stage.ScaleUp)), mem := Exported());
      ByScaleRead(outside.Now(), w, launched);
      ok := Checkpoint(Stage.ScaleUp, w);
    }

    /** The function scaleUp: request the capacity, wait for it, and list what was launched. */
    method LaunchNew() returns (ok: bool, launched: seq<Id>)
      requires At(Enter(Stage.ScaleUp)) && !scaleUpDone
      modifies outside`cloud, outside`trace, outside`log
      ensures outside.Since(old(outside.trace), old(outside.log)) && asgs != []
      ensures ok ==> At(ScaleReading) && Lists(launched, outside.cloud.members - Elements(asgs[0].originalInstances))
      ensures !ok ==> GaveUp(old(outside.log))
    {
      hide MemoryOk, Step, IsHistory, IsRun;
      HasGroup(outside.Now());
      launched := [];
      ok := ReachCapacity();
      if !ok {
        return;
      }
      outside.Interfere();
      var found, _, _, ids := outside.DescribeGroup();
      if !found {
        Fail();
        return false, [];
      }
      launched := LaunchedIds(ids, asgs[0].originalInstances);
    }

    method ReachCapacity() returns (ok: bool)
      requires At(Enter(Stage.ScaleUp)) && !scaleUpDone && asgs != []
      modifies outside`cloud, outside`trace, outside`log
      ensures outside.Since(old(outside.trace), old(outside.log))
      ensures ok ==> At(ScaleReading)
      ensures !ok ==> GaveUp(old(outside.log))
    {
      hide MemoryOk, Step, IsHistory, IsRun;
      ok := RequestCapacity();
      if !ok {
        return;
      }
      ok := AwaitCapacity();
    }

    method AwaitCapacity() returns (ok: bool)
      requires At(ScaleWaiting)
      modifies outside`cloud, outside`trace, outside`log
      ensures outside.Since(old(outside.trace), old(outside.log))
      ensures ok ==> At(ScaleReading)
      ensures !ok ==> GaveUp(old(outside.log))
    {
      hide MemoryOk, Step, IsHistory, IsRun;
      ok := WaitForCapacity();
      if !ok {
        Fail();
        return;
      }
      ghost var w := outside.Now().(proc := Alive(ScaleReading));
      ByScaleReached(outside.Now(), w);
      outside.Record(w);
    }

    method RequestCapacity() returns (ok: bool)
      requires At(Enter(Stage.ScaleUp)) && !scaleUpDone && asgs != []
      modifies outside`cloud, outside`trace, outside`log
      ensures outside.Since(old(outside.trace), old(outside.log))
      ensures ok ==> At(ScaleWaiting)
      ensures !ok ==> Failed(old(outside.log))
    {
      hide MemoryOk, Step, IsHistory, IsRun;
      ghost var w, c := outside.Now(), outside.cloud;
      ok := outside.SetDesired(asgs[0].maxCapacityForUpdate);
      if ok || outside.cloud != c {
        w := w.(proc := Alive(ScaleWaiting), cloud := outside.cloud);
        ByScaleRequest(outside.Now(), w);
        outside.Record(w);
      }
      if !ok {
        Fail();
      }
    }

    method WaitForNodes() returns (ok: bool, ghost waits: seq<LoadBalancers.Wait>)
      requires At(Enter(WaitNodes))
      modifies this`waitForNodesDone, outside`cloud, outside`disk, outside`trace, outside`log
      modifies outside`services, outside.elb
      ensures outside.Since(old(outside.trace), old(outside.log))
      ensures ok ==> At(Enter(Stage.Cordon)) && waitForNodesDone
      ensures outside.elb.waits == old(outside.elb.waits) + waits
      ensures ok && !old(waitForNodesDone) ==> asgs != [] && Registered(waits, outside.services, asgs[0].newInstances)
      ensures !ok ==> GaveUp(old(outside.log)) || (Stopped() && NotVerified(waits, outside.services))
    {
      hide Registered, NotVerified, MemoryOk, Step, IsHistory, IsRun;
      waits := [];
      outside.Interfere();
      if waitForNodesDone {
        Skip(WaitNodes);
        return true, waits;
      }
      ok, waits := WaitAndVerify();
      if !ok {
        return;
      }
      ok := EndWait();
    }

    method EndWait() returns (ok: bool)
      requires At(LbWaiting)
      modifies this`waitForNodesDone, outside`cloud, outside`disk, outside`trace, outside`log
      ensures outside.Since(old(outside.trace), old(outside.log))
      ensures ok ==> At(Enter(Stage.Cordon)) && waitForNodesDone
      ensures !ok ==> Failed(old(outside.log))
    {
      hide MemoryOk, Step, IsHistory, IsRun;
      outside.Interfere();
      waitForNodesDone := true;
      ghost var w := outside.Now().(proc := Alive(Persisting(WaitNodes)), mem := Exported());
      ByBalancersReady(outside.Now(), w);
      ok := Checkpoint(WaitNodes, w);
    }

    /** WaitForNodesReady for the nodes of the new instances: that as many nodes as instances are listed and ready is
        enough to know that each instance is. */
    method WaitForNewNodes() returns (ok: bool, ghost names: seq<string>)
      requires At(Enter(WaitNodes)) && !waitForNodesDone
      modifies outside`cloud, outside`trace, outside`log
      ensures outside.Since(old(outside.trace), old(outside.log)) && asgs != []
      ensures ok ==> At(Enter(WaitNodes)) && Elements(asgs[0].newInstances) <= outside.cloud.ready
      ensures Elements(names) == Elements(asgs[0].newInstances) || Failed(old(outside.log))
      ensures !ok && outside.log.failures == old(outside.log.failures) ==>
        && outside.log.slept == old(outside.log.slept) + Tries()
        && |outside.log.listings| == |old(outside.log.listings)| + Tries()
        && outside.log.NonePassed(old(outside.log), names)
      ensures !ok ==> GaveUp(old(outside.log))
    {
      hide MemoryOk, Step, IsHistory, IsRun, NodeReadiness.Counted;
      HasGroup(outside.Now());
      var found, nodeNames := outside.NodeNames(asgs[0].newInstances);
      names := nodeNames;
      if !found {
        Fail();
        return false, names;
      }
      var i := 0;
      while i < maxRetries
        invariant At(Enter(WaitNodes)) && outside.Since(old(outside.trace), old(outside.log))
        invariant 0 <= i <= Tries() && outside.log.failures == old(outside.log.failures)
        invariant outside.log.slept == old(outside.log.slept) + i
        invariant |outside.log.listings| == |old(outside.log.listings)| + i
        invariant outside.log.NonePassed(old(outside.log), names)
      {
        var answer := outside.ListNodes();
        if answer.ApiError? {
          Fail();
          return false, names;
        }
        var passes := NodeReadiness.CheckNodes(answer.nodes, nodeNames);
        if passes {
          CountedAreReady(answer.nodes, nodeNames, outside.cloud.ready);
          return true, names;
        }
        outside.Sleep();
        i := i + 1;
      }
      Fail();
      ok := false;
    }

    method NodesJoin() returns (ok: bool)
      requires At(Enter(WaitNodes)) && !waitForNodesDone
      modifies outside`cloud, outside`trace, outside`log
      ensures outside.Since(old(outside.trace), old(outside.log)) && asgs != []
      ensures ok ==> At(LbWaiting)
      ensures !ok ==> GaveUp(old(outside.log))
    {
      hide MemoryOk, Step, IsHistory, IsRun;
      ghost var names;
      ok, names := WaitForNewNodes();
      if ok {
        ghost var w := outside.Now().(proc := Alive(LbWaiting));
        ByNodesReady(outside.Now(), w);
        outside.Record(w);
      }
    }

    /** waitAndVerifyNewInstances: the nodes, then the load balancers of all services. */
    method WaitAndVerify() returns (ok: bool, ghost waits: seq<LoadBalancers.Wait>)
      requires At(Enter(WaitNodes)) && !waitForNodesDone
      modifies outside`cloud, outside`trace, outside`log, outside`services, outside.elb
      ensures outside.Since(old(outside.trace), old(outside.log)) && outside.elb.waits == old(outside.elb.waits) + waits
      ensures ok ==> At(LbWaiting) && asgs != [] && Registered(waits, outside.services, asgs[0].newInstances)
      ensures !ok ==> GaveUp(old(outside.log)) || (Stopped() && NotVerified(waits, outside.services))
    {
      hide Registered, NotVerified, MemoryOk, Step, IsHistory, IsRun;
      waits := [];
      ok := NodesJoin();
      if !ok {
        return;
      }
      ok, waits := VerifyBalancers();
    }

    /** All reasons for which a command stops once it has its state. */
    ghost predicate HadReason(setting: int, before: Log, waits: seq<LoadBalancers.Wait>)
      reads this, outside
    {
      || GaveUp(before)
      || (Stopped() && DividesByZero(setting))
      || (Stopped() && NotVerified(waits, outside.services))
    }

    method VerifyBalancers() returns (ok: bool, ghost waits: seq<LoadBalancers.Wait>)
      requires At(LbWaiting) && asgs != []
      modifies outside`trace, outside`log, outside`services, outside.elb
      ensures outside.Since(old(outside.trace), old(outside.log)) && outside.elb.waits == old(outside.elb.waits) + waits
      ensures ok ==> At(LbWaiting) && Registered(waits, outside.services, asgs[0].newInstances)
      ensures !ok ==> Failed(old(outside.log)) || (Stopped() && NotVerified(waits, outside.services))
    {
      hide MemoryOk, Step, IsHistory, IsRun, LoadBalancers.Describable, LoadBalancers.IsDescribed;
      hide LoadBalancers.WaitsFor, LoadBalancers.Failed;
      var services := outside.Services();
      var listed, errors;
      ghost var at;
      listed, errors, waits, at := LoadBalancers.VerifyLoadBalancers(services, outside.elb, asgs[0].newInstances);
      ok := listed && errors == [];
      if !ok {
        Fail();
      }
    }

    /** All `kubectl cordon` commands are started together and end in any order. The errors are collected in the order
        of the nodes, which is what every interleaving of the goroutines comes to. */
    method CordonAll(ids: seq<Id>) returns (errors: seq<FanOut.Error>, ghost out: seq<Option<FanOut.Error>>)
      requires At(Cordoning(Elements(ids), false))
      modifies outside`cloud, outside`trace, outside`log
      ensures At(Cordoning({}, errors != [])) && outside.Since(old(outside.trace), old(outside.log))
      ensures |out| == |ids| && FanOut.FailuresInOrder(out, errors)
      ensures forall k :: 0 <= k < |ids| ==>
        Command(KubectlCordon, ids[k], out[k]) in outside.log.commands[|old(outside.log.commands)|..]
      ensures errors == [] <==> outside.log.failures == old(outside.log.failures)
    {
      hide MemoryOk, Step, IsHistory, IsRun;
      var ends: map<Id, Option<FanOut.Error>> := map[];
      var todo := Elements(ids);
      ghost var before := |outside.log.commands|;
      while todo != {}
        invariant todo <= Elements(ids) && ends.Keys == Elements(ids) - todo
        invariant At(Cordoning(todo, SomeError(ends))) && outside.Since(old(outside.trace), old(outside.log))
        invariant SomeError(ends) <==> outside.log.failures != old(outside.log.failures)
        invariant forall i :: i in ends ==> Command(KubectlCordon, i, ends[i]) in outside.log.commands[before..]
        decreases todo
      {
        var i :| i in todo;
        ghost var commands := outside.log.commands;
        var end := CordonOne(i, todo, SomeError(ends));
        assert outside.log.commands[before..] == commands[before..] + [Command(KubectlCordon, i, end)];
        OneMoreEnd(ends, i, end);
        todo, ends := todo - {i}, ends[i := end];
      }
      out := EndsInOrder(ids, ends);
      errors := FanOut.Errors(EndsInOrder(ids, ends));
      ErrorsCollected(ids, ends);
      ghost var at := FanOut.ErrorsAt(out);
    }

    /** One of the commands ends. */
    method CordonOne(i: Id, ghost todo: set<Id>, ghost failed: bool) returns (end: Option<FanOut.Error>)
      requires At(Cordoning(todo, failed)) && i in todo
      modifies outside`cloud, outside`trace, outside`log
      ensures At(Cordoning(todo - {i}, failed || end.Some?)) && old(outside.trace) <= outside.trace
      ensures outside.log ==
        old(outside.log).Call(end.None?).(commands := old(outside.log.commands) + [Command(KubectlCordon, i, end)])
    {
      hide MemoryOk, Step, IsHistory, IsRun;
      outside.Interfere();
      ghost var w := outside.Now();
      ghost var worked;
      end, worked := outside.Cordon(i);
      w := w.(proc := Alive(Cordoning(todo - {i}, failed || end.Some?)), cloud := outside.cloud);
      ByCordonOne(outside.Now(), w, i, end.None?, worked);
      outside.Record(w);
    }

    method CordonNodes() returns (ok: bool)
      requires At(Enter(Stage.Cordon))
      modifies this`cordonNodesDone, outside`cloud, outside`disk, outside`trace, outside`log
      ensures outside.Since(old(outside.trace), old(outside.log))
      ensures ok ==> At(Enter(Stage.Drain)) && cordonNodesDone
      ensures !ok ==> Failed(old(outside.log))
    {
      hide MemoryOk, Step, IsHistory, IsRun;
      outside.Interfere();
      if cordonNodesDone {
        Skip(Stage.Cordon);
        return true;
      }
      ok := CordonNodesInAsg();
      if !ok {
        return;
      }
      cordonNodesDone := true;
      ghost var w := outside.Now().(proc := Alive(Persisting(Stage.Cordon)), mem := Exported());
      ByCordonEnd(outside.Now(), w);
      ok := Checkpoint(Stage.Cordon, w);
    }

    method CordonNodesInAsg() returns (ok: bool)
      requires At(Enter(Stage.Cordon)) && !cordonNodesDone
      modifies outside`cloud, outside`trace, outside`log
      ensures outside.Since(old(outside.trace), old(outside.log))
      ensures ok ==> At(Cordoning({}, false))
      ensures !ok ==> Failed(old(outside.log))
    {
      hide MemoryOk, Step, IsHistory, IsRun;
      HasGroup(outside.Now());
      var found, names := outside.NodeNames(asgs[0].originalInstances);
      if !found {
        Fail();
        return false;
      }
      ghost var w := outside.Now().(proc := Alive(Cordoning(Elements(names), false)));
      ByCordonStart(outside.Now(), w);
      outside.Record(w);
      var errors;
      ghost var out;
      errors, out := CordonAll(names);
      ok := errors == [];
      if !ok {
        Fail();
      }
    }

    /** The same for `kubectl drain`. */
    method DrainAll(ids: seq<Id>) returns (errors: seq<FanOut.Error>, ghost out: seq<Option<FanOut.Error>>)
      requires At(Draining(Elements(ids), false))
      modifies outside`cloud, outside`trace, outside`log
      ensures At(Draining({}, errors != [])) && outside.Since(old(outside.trace), old(outside.log))
      ensures |out| == |ids| && FanOut.FailuresInOrder(out, errors)
      ensures forall k :: 0 <= k < |ids| ==>
        Command(KubectlDrain, ids[k], out[k]) in outside.log.commands[|old(outside.log.commands)|..]
      ensures errors == [] <==> outside.log.failures == old(outside.log.failures)
    {
      hide MemoryOk, Step, IsHistory, IsRun;
      var ends: map<Id, Option<FanOut.Error>> := map[];
      var todo := Elements(ids);
      ghost var before := |outside.log.commands|;
      while todo != {}
        invariant todo <= Elements(ids) && ends.Keys == Elements(ids) - todo
        invariant At(Draining(todo, SomeError(ends))) && outside.Since(old(outside.trace), old(outside.log))
        invariant SomeError(ends) <==> outside.log.failures != old(outside.log.failures)
        invariant forall i :: i in ends ==> Command(KubectlDrain, i, ends[i]) in outside.log.commands[before..]
        decreases todo
      {
        var i :| i in todo;
        ghost var commands := outside.log.commands;
        var end := DrainOne(i, todo, SomeError(ends));
        assert outside.log.commands[before..] == commands[before..] + [Command(KubectlDrain, i, end)];
        OneMoreEnd(ends, i, end);
        todo, ends := todo - {i}, ends[i := end];
      }
      out := EndsInOrder(ids, ends);
      errors := FanOut.Errors(EndsInOrder(ids, ends));
      ErrorsCollected(ids, ends);
      ghost var at := FanOut.ErrorsAt(out);
    }

    /** One of the commands ends. */
    method DrainOne(i: Id, ghost todo: set<Id>, ghost failed: bool) returns (end: Option<FanOut.Error>)
      requires At(Draining(todo, failed)) && i in todo
      modifies outside`cloud, outside`trace, outside`log
      ensures At(Draining(todo - {i}, failed || end.Some?)) && old(outside.trace) <= outside.trace
      ensures outside.log ==
        old(outside.log).Call(end.None?).(commands := old(outside.log.commands) + [Command(KubectlDrain, i, end)])
    {
      hide MemoryOk, Step, IsHistory, IsRun;
      outside.Interfere();
      ghost var w := outside.Now();
      ghost var worked;
      end, worked := outside.Drain(i);
      w := w.(proc := Alive(Draining(todo - {i}, failed || end.Some?)), cloud := outside.cloud);
      ByDrainOne(outside.Now(), w, i, end.None?, worked);
      outside.Record(w);
    }

    method DrainNodes() returns (ok: bool)
      requires At(Enter(Stage.Drain))
      modifies this`drainNodesDone, outside`cloud, outside`disk, outside`trace, outside`log
      ensures outside.Since(old(outside.trace), old(outside.log))
      ensures ok ==> At(Enter(Stage.Detach)) && drainNodesDone
      ensures !ok ==> Failed(old(outside.log))
    {
      hide MemoryOk, Step, IsHistory, IsRun;
      outside.Interfere();
      if drainNodesDone {
        Skip(Stage.Drain);
        return true;
      }
      ok := DrainNodesInAsg();
      if !ok {
        return;
      }
      drainNodesDone := true;
      ghost var w := outside.Now().(proc := Alive(Persisting(Stage.Drain)), mem := Exported());
      ByDrainEnd(outside.Now(), w);
      ok := Checkpoint(Stage.Drain, w);
    }

    method DrainNodesInAsg() returns (ok: bool)
      requires At(Enter(Stage.Drain)) && !drainNodesDone
      modifies outside`cloud, outside`trace, outside`log
      ensures outside.Since(old(outside.trace), old(outside.log))
      ensures ok ==> At(Draining({}, false))
      ensures !ok ==> Failed(old(outside.log))
    {
      hide MemoryOk, Step, IsHistory, IsRun;
      HasGroup(outside.Now());
      var found, names := outside.NodeNames(asgs[0].originalInstances);
      if !found {
        Fail();
        return false;
      }
      ghost var w := outside.Now().(proc := Alive(Draining(Elements(names), false)));
      ByDrainStart(outside.Now(), w);
      outside.Record(w);
      var errors;
      ghost var out;
      errors, out := DrainAll(names);
      ok := errors == [];
      if !ok {
        Fail();
      }
    }

    /** Groups of twenty, in order; the first rejected group ends it. */
    method DetachBatches() returns (ok: bool)
      requires At(Enter(Stage.Detach)) && !detachInstancesDone
      modifies outside`cloud, outside`trace, outside`log
      ensures outside.Since(old(outside.trace), old(outside.log)) && asgs != []
      ensures ok ==> At(Detaching(|asgs[0].originalInstances|))
      ensures !ok ==> Failed(old(outside.log))
    {
      hide MemoryOk, Step, IsHistory, IsRun, Batches;
      HasGroup(outside.Now());
      ghost var u := outside.Now().(proc := Alive(Detaching(0)));
      ByDetachStart(outside.Now(), u);
      outside.Record(u);
      var idList := asgs[0].originalInstances;
      var left := Batches(idList, DETACH_LIMIT);
      ghost var covered: nat := 0;
      assert idList[0..] == idList;
      FirstBatch(idList, 0, DETACH_LIMIT);
      while left != []
        invariant covered <= |idList| && left == Batches(idList[covered..], DETACH_LIMIT)
        invariant At(Detaching(covered)) && outside.Since(old(outside.trace), old(outside.log))
        invariant left == [] <==> covered == |idList|
        decreases |left|
      {
        FirstBatch(idList, covered, DETACH_LIMIT);
        ok := DetachBatch(left[0], covered);
        if !ok {
          return;
        }
        left := left[1..];
        covered := BatchEnd(|idList|, covered, DETACH_LIMIT);
        FirstBatch(idList, covered, DETACH_LIMIT);
      }
      ok := true;
    }

    method DetachBatch(batch: seq<Id>, ghost covered: nat) returns (ok: bool)
      requires At(Detaching(covered)) && asgs != [] && covered < |asgs[0].originalInstances|
      requires var o := asgs[0].originalInstances; batch == o[covered..BatchEnd(|o|, covered, DETACH_LIMIT)]
      modifies outside`cloud, outside`trace, outside`log
      ensures outside.Since(old(outside.trace), old(outside.log))
      ensures ok ==> At(Detaching(BatchEnd(|asgs[0].originalInstances|, covered, DETACH_LIMIT)))
      ensures |batch| == if covered + 20 <= |asgs[0].originalInstances| then 20
                         else |asgs[0].originalInstances| - covered
      ensures !ok ==> Failed(old(outside.log))
    {
      hide MemoryOk, Step, IsHistory, IsRun, Elements, Rollout.DetachBatch;
      outside.Interfere();
      ghost var w, c := outside.Now(), outside.cloud;
      ok := outside.DetachInstances(batch);
      if ok || outside.cloud != c {
        TakesBatch(w, outside.cloud, covered);
        w := w.(proc := Alive(Detaching(BatchEnd(|asgs[0].originalInstances|, covered, DETACH_LIMIT))),
                cloud := outside.cloud);
        ByDetachBatch(outside.Now(), w);
        outside.Record(w);
      }
      if !ok {
        Fail();
      }
    }

    method DetachInstances() returns (ok: bool)
      requires At(Enter(Stage.Detach))
      modifies this`detachInstancesDone, outside`cloud, outside`disk, outside`trace, outside`log
      ensures outside.Since(old(outside.trace), old(outside.log))
      ensures ok ==> At(Enter(Stage.Terminate)) && detachInstancesDone
      ensures !ok ==> Failed(old(outside.log))
    {
      hide MemoryOk, Step, IsHistory, IsRun;
      outside.Interfere();
      if detachInstancesDone {
        Skip(Stage.Detach);
        return true;
      }
      ok := DetachBatches();
      if !ok {
        return;
      }
      detachInstancesDone := true;
      ghost var w := outside.Now().(proc := Alive(Persisting(Stage.Detach)), mem := Exported());
      ByDetachEnd(outside.Now(), w);
      ok := Checkpoint(Stage.Detach, w);
    }

    /** The function terminateInstances: groups of a thousand, in order. A group that fails does not stop the next, and
        as the errors are added to a copy of the list, none is reported. */
    method TerminateBatches() returns (ok: bool)
      requires At(Enter(Stage.Terminate)) && !terminateInstancesDone
      modifies outside`cloud, outside`trace, outside`log
      ensures outside.Since(old(outside.trace), old(outside.log)) && asgs != []
      ensures ok && At(Terminating(|asgs[0].originalInstances|))
    {
      hide MemoryOk, Step, IsHistory, IsRun, Batches;
      HasGroup(outside.Now());
      ghost var u := outside.Now().(proc := Alive(Terminating(0)));
      ByTerminateStart(outside.Now(), u);
      outside.Record(u);
      var errors := Instances.TerminateErrors([]);
      var idList := asgs[0].originalInstances;
      var left := Batches(idList, TERMINATE_LIMIT);
      ghost var covered: nat := 0;
      assert idList[0..] == idList;
      FirstBatch(idList, 0, TERMINATE_LIMIT);
      while left != []
        invariant covered <= |idList| && left == Batches(idList[covered..], TERMINATE_LIMIT)
        invariant At(Terminating(covered)) && outside.Since(old(outside.trace), old(outside.log))
        invariant left == [] <==> covered == |idList|
        decreases |left|
      {
        FirstBatch(idList, covered, TERMINATE_LIMIT);
        var terminated := TerminateBatch(left[0], covered);
        if !terminated {
          errors.AddError("terminate");
        }
        left := left[1..];
        covered := BatchEnd(|idList|, covered, TERMINATE_LIMIT);
        FirstBatch(idList, covered, TERMINATE_LIMIT);
      }
      ok := errors.IsEmpty();
    }

    method TerminateBatch(batch: seq<Id>, ghost covered: nat) returns (ok: bool)
      requires At(Terminating(covered)) && asgs != [] && covered < |asgs[0].originalInstances|
      requires var o := asgs[0].originalInstances; batch == o[covered..BatchEnd(|o|, covered, TERMINATE_LIMIT)]
      modifies outside`cloud, outside`trace, outside`log
      ensures outside.Since(old(outside.trace), old(outside.log))
      ensures At(Terminating(BatchEnd(|asgs[0].originalInstances|, covered, TERMINATE_LIMIT)))
      ensures |batch| == if covered + 1000 <= |asgs[0].originalInstances| then 1000
                         else |asgs[0].originalInstances| - covered
      ensures ok ==> Elements(batch) <= outside.cloud.terminated
    {
      hide MemoryOk, Step, IsHistory, IsRun;
      outside.Interfere();
      ghost var w := outside.Now();
      ghost var worked;
      ok, worked := outside.TerminateInstances(batch);
      w := w.(proc := Alive(Terminating(BatchEnd(|asgs[0].originalInstances|, covered, TERMINATE_LIMIT))),
              cloud := outside.cloud);
      ByTerminateBatch(outside.Now(), w, worked);
      outside.Record(w);
    }

    method TerminateInstances() returns (ok: bool)
      requires At(Enter(Stage.Terminate))
      modifies this`terminateInstancesDone, outside`cloud, outside`disk, outside`trace, outside`log
      ensures outside.Since(old(outside.trace), old(outside.log))
      ensures ok ==> At(Enter(Restore)) && terminateInstancesDone
      ensures !ok ==> Failed(old(outside.log))
    {
      hide MemoryOk, Step, IsHistory, IsRun;
      outside.Interfere();
      if terminateInstancesDone {
        Skip(Stage.Terminate);
        return true;
      }
      ok := TerminateBatches();
      // No error is ever reported, so the branch for one is dead.
      assert ok;
      terminateInstancesDone := true;
      ghost var w := outside.Now().(proc := Alive(Persisting(Stage.Terminate)), mem := Exported());
      ByTerminateEnd(outside.Now(), w);
      ok := Checkpoint(Stage.Terminate, w);
    }

    /** The flag of this stage stays unset. */
    method RestoreCapacity() returns (ok: bool)
      requires At(Enter(Restore))
      modifies outside`cloud, outside`disk, outside`trace, outside`log
      ensures outside.Since(old(outside.trace), old(outside.log))
      ensures ok ==> At(Deleting)
      ensures !ok ==> Failed(old(outside.log))
    {
      hide MemoryOk, Step, IsHistory, IsRun, RestoreStep;
      outside.Interfere();
      if restoreCapacityDone {
        Skip(Restore);
        return true;
      }
      HasGroup(outside.Now());
      ghost var w, c := outside.Now(), outside.cloud;
      ok := outside.SetMaxSize(asgs[0].originalMaxCapacity);
      if ok || outside.cloud != c {
        Restores(w, outside.cloud);
        w := w.(proc := Alive(Persisting(Restore)), cloud := outside.cloud);
        ByRestore(outside.Now(), w);
        outside.Record(w);
      }
      if !ok {
        Fail();
        return;
      }
      ok := Persist(Restore);
    }

    /** The program ends whether or not the file can be removed. */
    method Delete()
      requires At(Deleting)
      modifies outside`disk, outside`trace, outside`log
      ensures outside.Since(old(outside.trace), old(outside.log))
      ensures outside.Valid() && outside.Now().proc == Finished
      ensures outside.disk.Absent? || outside.log.failures > old(outside.log.failures)
    {
      hide MemoryOk, Step, IsHistory, IsRun;
      var ok := outside.Remove();
      ghost var w := outside.Now();
      w := if ok && w.past.Rollout? then w.(proc := Finished, disk := Absent, past := w.past.(active := false))
           else w.(proc := Finished, disk := if ok then Absent else w.disk);
      ByDeleteFile(outside.Now(), w, ok);
      outside.Record(w);
    }
  }

  /** By counting, the instances whose nodes pass the check are ready. */
  lemma CountedAreReady(nodes: seq<NodeReadiness.Node>, names: seq<string>, ready: set<Id>)
    requires NoDuplicates(NodeReadiness.Names(nodes)) && NodeReadiness.Counted(nodes, names)
    requires forall i :: 0 <= i < |nodes| && NodeReadiness.IsReady(nodes[i]) ==> nodes[i].name in ready
    ensures Elements(names) <= ready
  {
    NodeReadiness.CountingIsEnough(nodes, names);
    forall name | name in Elements(names) ensures name in ready {
      assert NodeReadiness.RegisteredReady(nodes, name);
    }
  }

  lemma FreshAsgs(w: World)
    requires MemoryOk(w) && !w.mem.gatherDone
    ensures w.mem == Fresh
  {
  }

  lemma HasRecord(w: World)
    requires MemoryOk(w) && w.mem.gatherDone
    ensures w.mem.asgs != []
  {
  }

  /** Past the first stage there is a recorded group. */
  lemma HasGroup(w: World)
    requires MemoryOk(w) && w.proc.Alive? && w.proc.pc.Enter? && w.proc.pc.stage != Gather
    ensures w.mem.gatherDone && w.mem.asgs != []
  {
  }

  /** What reading the recovery file comes to. */
  datatype Reading = Parsed(saved: Saved) | NoState | BadFile

  /** The reading part of initDeployState: the file is not even opened when it is to be ignored, and any error of
      opening or reading it counts as no file. */
  method ReadState(outside: Outside, ignoreFile: bool) returns (reading: Reading)
    modifies outside`log
    ensures outside.log.Extends(old(outside.log))
    ensures reading.NoState? <==>
      ignoreFile || outside.disk.Absent? || outside.log.failures > old(outside.log.failures)
    ensures reading.Parsed? ==> outside.disk == Disk.Valid(reading.saved)
    ensures reading.BadFile? ==> outside.disk.Corrupt?
    ensures ignoreFile ==> outside.log == old(outside.log)
  {
    if ignoreFile {
      return NoState;
    }
    var file := outside.ReadFile();
    if file.None? {
      return NoState;
    }
    reading := if file.value.Valid? then Parsed(file.value.saved) else BadFile;
  }

  /** initDeployState: the state of the file, or an empty one. `passed` tells whether a file that is there was passed
      over. */
  method InitDeployState(outside: Outside, ignoreFile: bool, maxRetries: int, sleep: int)
    returns (state: DeployState?, ghost passed: bool)
    requires outside.Valid() && !outside.Now().proc.Alive?
    modifies outside`trace, outside`afresh, outside`log
    ensures outside.Since(old(outside.trace), old(outside.log))
    ensures outside.afresh == (old(outside.afresh) || passed)
    ensures passed <==>
      !outside.disk.Absent? && (ignoreFile || outside.log.failures > old(outside.log.failures))
    ensures !passed && outside.disk.Corrupt? <==> state == null
    ensures state == null ==> outside.Valid() && outside.trace == old(outside.trace)
    ensures state != null ==>
      && fresh(state) && state.outside == outside && state.At(Enter(Gather))
      && state.maxRetries == maxRetries && state.sleepBetweenRetries == sleep
      && state.Exported() == (if outside.disk.Valid? && !passed then outside.disk.saved else Fresh)
  {
    hide MemoryOk, Step, IsHistory, IsRun;
    var reading := ReadState(outside, ignoreFile);
    passed := reading.NoState? && !outside.disk.Absent?;
    if reading.BadFile? {
      return null, passed;
    }
    var saved := if reading.Parsed? then reading.saved else Fresh;
    state := new DeployState(outside, saved, maxRetries, sleep);
    ghost var w := outside.Now().(proc := Alive(Enter(Gather)), mem := saved);
    if passed {
      outside.RecordAfresh(w);
    } else {
      ByRestart(outside.Now(), w);
      outside.Record(w);
    }
  }

  /** One `eks deploy` command. Success is reported only at the end of the last stage, and means that the goal is
      reached unless this or an earlier command passed over a recovery file. A file that does not parse ends the
      command before it does anything. */
  method RollOutDeployment(outside: Outside, maxRetries: int, sleep: int, ignoreFile: bool)
    returns (ok: bool, ghost passed: bool, ghost budget: int, ghost waits: seq<LoadBalancers.Wait>)
    requires outside.Valid() && !outside.Now().proc.Alive?
    modifies outside, outside.elb
    ensures outside.Valid() && outside.Since(old(outside.trace), old(outside.log))
    ensures outside.afresh == (old(outside.afresh) || passed)
    ensures ignoreFile ==> (passed <==> !old(outside.disk).Absent?)
    ensures passed ==> !old(outside.disk).Absent? && (ignoreFile || outside.log.failures > old(outside.log.failures))
    ensures ok ==> outside.Now().proc == Finished
    ensures ok ==> outside.disk.Absent? || outside.log.failures > old(outside.log.failures)
    ensures ok && !outside.afresh ==> RolledOut(outside.Now())
    ensures !ok ==> outside.Now().proc == Dead || outside.trace == old(outside.trace)
    ensures old(outside.disk).Corrupt? && !passed ==>
      !ok && outside.trace == old(outside.trace) && outside.cloud == old(outside.cloud)
    ensures maxRetries != 0 ==> budget == maxRetries
    ensures outside.elb.waits == old(outside.elb.waits) + waits
    ensures !ok ==>
      || (old(outside.disk).Corrupt? && !passed)
      || outside.log.failures > old(outside.log.failures)
      || outside.log.slept >= old(outside.log.slept) + budget
      || (maxRetries == 0 && -1_000_000_000 < sleep < 1_000_000_000)
      || NotVerified(waits, outside.services)
  {
    hide MemoryOk, Step, IsHistory, IsRun;
    var state;
    state, passed := InitDeployState(outside, ignoreFile, maxRetries, sleep);
    if state == null {
      return false, passed, maxRetries, [];
    }
    ok, waits := RunStages(state);
    budget := state.maxRetries;
    if ok && !outside.afresh {
      FinishedMeansRolledOut(outside.trace);
    }
  }

  lemma FinishedMeansRolledOut(run: seq<World>)
    requires IsRun(run) && run[|run| - 1].proc.Finished?
    ensures RolledOut(run[|run| - 1])
  {
    FinishedCloud(run, |run| - 1);
  }

  method RunStages(state: DeployState) returns (ok: bool, ghost waits: seq<LoadBalancers.Wait>)
    requires state.At(Enter(Gather))
    modifies state, state.outside`cloud, state.outside`disk, state.outside`trace, state.outside`log
    modifies state.outside`services, state.outside.elb
    ensures state.outside.Valid() && state.outside.Since(old(state.outside.trace), old(state.outside.log))
    ensures state.outside.Now().proc == if ok then Finished else Dead
    ensures ok ==> state.outside.disk.Absent? || state.outside.log.failures > old(state.outside.log.failures)
    ensures state.outside.elb.waits == old(state.outside.elb.waits) + waits
    ensures old(state.maxRetries) != 0 ==> state.maxRetries == old(state.maxRetries)
    ensures !ok ==> state.HadReason(old(state.maxRetries), old(state.outside.log), waits)
  {
    hide MemoryOk, Step, IsHistory, IsRun;
    ok, waits := LaunchReplacements(state);
    if !ok { return; }
    ok := RetireOriginals(state);
    if !ok { return; }
    state.Delete();
  }

  method GatherAndRaise(state: DeployState) returns (ok: bool)
    requires state.At(Enter(Gather))
    modifies state, state.outside`cloud, state.outside`disk, state.outside`trace, state.outside`log
    ensures state.outside.Since(old(state.outside.trace), old(state.outside.log))
    ensures old(state.maxRetries) != 0 ==> state.maxRetries == old(state.maxRetries)
    ensures ok ==> state.At(Enter(Stage.ScaleUp))
    ensures !ok ==> state.GaveUp(old(state.outside.log)) ||
                    (state.Stopped() && state.DividesByZero(old(state.maxRetries)))
  {
    hide MemoryOk, Step, IsHistory, IsRun, IsBudget;
    ok := state.GatherAsgInfo();
    if !ok { return; }
    ok := state.SetMaxCapacity();
  }

  method LaunchAndWait(state: DeployState) returns (ok: bool, ghost waits: seq<LoadBalancers.Wait>)
    requires state.At(Enter(Stage.ScaleUp))
    modifies state, state.outside`cloud, state.outside`disk, state.outside`trace, state.outside`log
    modifies state.outside`services, state.outside.elb
    ensures state.outside.Since(old(state.outside.trace), old(state.outside.log))
    ensures state.outside.elb.waits == old(state.outside.elb.waits) + waits
    ensures state.maxRetries == old(state.maxRetries)
    ensures ok ==> state.At(Enter(Cordon))
    ensures !ok ==> state.GaveUp(old(state.outside.log)) ||
                    (state.Stopped() && NotVerified(waits, state.outside.services))
  {
    hide MemoryOk, Step, IsHistory, IsRun, NotVerified, Registered;
    waits := [];
    ok := state.ScaleUp();
    if !ok { return; }
    ok, waits := state.WaitForNodes();
  }

  method LaunchReplacements(state: DeployState) returns (ok: bool, ghost waits: seq<LoadBalancers.Wait>)
    requires state.At(Enter(Gather))
    modifies state, state.outside`cloud, state.outside`disk, state.outside`trace, state.outside`log
    modifies state.outside`services, state.outside.elb
    ensures state.outside.Since(old(state.outside.trace), old(state.outside.log))
    ensures state.outside.elb.waits == old(state.outside.elb.waits) + waits
    ensures old(state.maxRetries) != 0 ==> state.maxRetries == old(state.maxRetries)
    ensures if ok then state.At(Enter(Cordon))
      else state.HadReason(old(state.maxRetries), old(state.outside.log), waits)
  {
    hide MemoryOk, Step, IsHistory, IsRun, NotVerified;
    waits := [];
    ok := GatherAndRaise(state);
    if !ok { return; }
    ok, waits := LaunchAndWait(state);
  }

  method EvictPods(state: DeployState) returns (ok: bool)
    requires state.At(Enter(Cordon))
    modifies state, state.outside`cloud, state.outside`disk, state.outside`trace, state.outside`log
    ensures state.outside.Since(old(state.outside.trace), old(state.outside.log))
    ensures state.maxRetries == old(state.maxRetries)
    ensures if ok then state.At(Enter(Stage.Detach)) else state.Failed(old(state.outside.log))
  {
    hide MemoryOk, Step, IsHistory, IsRun;
    ok := state.CordonNodes();
    if !ok { return; }
    ok := state.DrainNodes();
  }

  method RemoveInstances(state: DeployState) returns (ok: bool)
    requires state.At(Enter(Stage.Detach))
    modifies state, state.outside`cloud, state.outside`disk, state.outside`trace, state.outside`log
    ensures state.outside.Since(old(state.outside.trace), old(state.outside.log))
    ensures state.maxRetries == old(state.maxRetries)
    ensures if ok then state.At(Deleting) else state.Failed(old(state.outside.log))
  {
    hide MemoryOk, Step, IsHistory, IsRun;
    ok := state.DetachInstances();
    if !ok { return; }
    ok := state.TerminateInstances();
    if !ok { return; }
    ok := state.RestoreCapacity();
  }

  method RetireOriginals(state: DeployState) returns (ok: bool)
    requires state.At(Enter(Cordon))
    modifies state, state.outside`cloud, state.outside`disk, state.outside`trace, state.outside`log
    ensures state.outside.Since(old(state.outside.trace), old(state.outside.log))
    ensures state.maxRetries == old(state.maxRetries)
    ensures if ok then state.At(Deleting) else state.Failed(old(state.outside.log))
  {
    hide MemoryOk, Step, IsHistory, IsRun;
    ok := EvictPods(state);
    if !ok { return; }
    ok := RemoveInstances(state);
  }
}
