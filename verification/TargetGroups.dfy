/** Waiting for an instance to be registered with every target group of a load balancer: one goroutine for each
    group, with a channel of capacity one, in every interleaving. `out[i]` is how the retry loop of group i ends. */
module TargetGroups {
  import opened Collections
  import opened Totals

  type Error = string

  /** The retry loop ends without error, gives up, or stops on an error of the API. */
  datatype Outcome = Registered | GaveUp(error: Error) | Fatal(underlying: Error)

  /** After a fatal error the worker sends the underlying error and then, like every worker, what the loop returned.
      Only Done is deferred. */
  datatype Worker = Waiting | SendingFatal | Sending | Finishing | Exited

  /** The map of channels is read in an arbitrary order. */
  datatype Caller = Joining | Collecting(left: set<nat>, failed: set<nat>) | Returned(failed: set<nat>)

  datatype State = State(caller: Caller, workers: seq<Worker>, channels: seq<seq<Option<Error>>>, waitGroup: int)

  const CAPACITY := 1

  /** The indices below n. */
  function All(n: nat): (all: set<nat>)
    ensures forall i: nat :: i in all <==> i < n
    ensures |all| == n
  {
    if n == 0 then {} else All(n - 1) + {n - 1}
  }

  /** The counter of the WaitGroup is set before the first worker starts, so all may be taken as started. */
  ghost predicate Init(s: State, out: seq<Outcome>) {
    s == State(Joining, seq(|out|, _ => Waiting), seq(|out|, _ => []), |out|)
  }

  ghost predicate LoopEnds(s: State, s': State, i: nat, out: seq<Outcome>) {
    && i < |s.workers| && i < |out| && s.workers[i] == Waiting
    && s' == s.(workers := s.workers[i := if out[i].Fatal? then SendingFatal else Sending])
  }

  ghost predicate SendFatal(s: State, s': State, i: nat, out: seq<Outcome>) {
    && i < |s.workers| && i < |s.channels| && i < |out| && s.workers[i] == SendingFatal && out[i].Fatal?
    && |s.channels[i]| < CAPACITY
    && s' == s.(workers := s.workers[i := Sending],
                channels := s.channels[i := s.channels[i] + [Some(out[i].underlying)]])
  }

  /** What the loop returned: nothing, the error of giving up, or the fatal error itself. */
  function Message(o: Outcome): Option<Error> {
    match o
    case Registered => None
    case GaveUp(e) => Some(e)
    case Fatal(e) => Some(e)
  }

  ghost predicate Send(s: State, s': State, i: nat, out: seq<Outcome>) {
    && i < |s.workers| && i < |s.channels| && i < |out| && s.workers[i] == Sending
    && |s.channels[i]| < CAPACITY
    && s' == s.(workers := s.workers[i := Finishing], channels := s.channels[i := s.channels[i] + [Message(out[i])]])
  }

  ghost predicate Done(s: State, s': State, i: nat) {
    && i < |s.workers| && s.workers[i] == Finishing && s.waitGroup > 0
    && s' == s.(workers := s.workers[i := Exited], waitGroup := s.waitGroup - 1)
  }

  ghost predicate Join(s: State, s': State) {
    s.caller == Joining && s.waitGroup == 0 && s' == s.(caller := Collecting(All(|s.channels|), {}))
  }

  /** A receive blocks while the channel is empty; nobody closes it. */
  ghost predicate Receive(s: State, s': State, i: nat) {
    && s.caller.Collecting? && i in s.caller.left && i < |s.channels|
    && s.channels[i] != []
    && s' == s.(caller := Collecting(s.caller.left - {i},
                                     if s.channels[i][0].Some? then s.caller.failed + {i} else s.caller.failed),
                channels := s.channels[i := s.channels[i][1..]])
  }

  ghost predicate Return(s: State, s': State) {
    s.caller.Collecting? && s.caller.left == {} && s' == s.(caller := Returned(s.caller.failed))
  }

  ghost predicate IndexStep(s: State, s': State, i: nat, out: seq<Outcome>) {
    LoopEnds(s, s', i, out) || SendFatal(s, s', i, out) || Send(s, s', i, out) || Done(s, s', i) || Receive(s, s', i)
  }

  ghost predicate Step(s: State, s': State, out: seq<Outcome>) {
    Join(s, s') || Return(s, s') || exists i: nat :: IndexStep(s, s', i, out)
  }

  ghost predicate StepAt(run: seq<State>, i: nat, out: seq<Outcome>)
    requires i + 1 < |run|
  {
    Step(run[i], run[i + 1], out)
  }

  ghost predicate IsRun(run: seq<State>, out: seq<Outcome>) {
    && run != [] && Init(run[0], out)
    && forall i: nat :: i + 1 < |run| ==> StepAt(run, i, out)
  }

  // ---- invariant ----

  function Pending(w: Worker): nat {
    if w == Exited then 0 else 1
  }

  /** How many workers have not exited. */
  function Unfinished(ws: seq<Worker>): nat {
    Total(ws, Pending)
  }

  /** A worker with a fatal outcome never gets past its second send. */
  ghost predicate WorkerOk(w: Worker, channel: seq<Option<Error>>, o: Outcome, read: bool) {
    match w
    case Waiting => channel == []
    case SendingFatal => channel == [] && o.Fatal?
    case Sending => channel == if o.Fatal? then [Some(o.underlying)] else []
    case Finishing => !o.Fatal? && channel == [Message(o)]
    case Exited => !o.Fatal? && channel == if read then [] else [Message(o)]
  }

  predicate Read(s: State, i: nat) {
    match s.caller
    case Joining => false
    case Collecting(left, _) => i !in left
    case Returned(_) => true
  }

  /** The groups that did not get an instance. */
  function Failing(out: seq<Outcome>): set<nat> {
    set i: nat | i < |out| && !out[i].Registered?
  }

  ghost predicate Inv(s: State, out: seq<Outcome>) {
    && |s.workers| == |s.channels| == |out|
    && s.waitGroup == Unfinished(s.workers)
    && (forall i: nat :: i < |out| ==> WorkerOk(s.workers[i], s.channels[i], out[i], Read(s, i)))
    && match s.caller
       case Joining => true
       case Collecting(left, failed) =>
         s.waitGroup == 0 && left <= All(|out|) && failed == Failing(out) - left
       case Returned(failed) => s.waitGroup == 0 && failed == Failing(out)
  }

  lemma StepInv(s: State, s': State, out: seq<Outcome>)
    requires Inv(s, out) && Step(s, s', out)
    ensures Inv(s', out)
  {
    if Join(s, s') {
    } else if Return(s, s') {
    } else {
      var i: nat :| IndexStep(s, s', i, out);
      IndexInv(s, s', i, out);
    }
  }

  lemma ReceiveInv(s: State, s': State, i: nat, out: seq<Outcome>)
    requires Inv(s, out) && Receive(s, s', i)
    ensures Inv(s', out)
  {
    TotalAtLeast(s.workers, Pending, i);
    assert s.workers[i] == Exited;
    assert s.channels[i][0] == Message(out[i]);
    assert i in Failing(out) <==> s.channels[i][0].Some?;
  }

  lemma IndexInv(s: State, s': State, i: nat, out: seq<Outcome>)
    requires Inv(s, out) && IndexStep(s, s', i, out)
    ensures Inv(s', out)
  {
    if Receive(s, s', i) {
      ReceiveInv(s, s', i, out);
    } else {
      hide Failing, Total;
      TotalAtLeast(s.workers, Pending, i);
      TotalUpdate(s.workers, Pending, i, s'.workers[i]);
    }
  }

  lemma {:induction false} RunInv(run: seq<State>, k: nat, out: seq<Outcome>)
    requires IsRun(run, out) && k < |run|
    ensures Inv(run[k], out)
  {
    if k == 0 {
      TotalConstant(run[0].workers, Pending, Waiting);
    } else {
      RunInv(run, k - 1, out);
      assert StepAt(run, k - 1, out);
      StepInv(run[k - 1], run[k], out);
    }
  }

  // ---- theorems ----

  /** If no group ends in a fatal error, every run that returns reports exactly the groups that gave up, whatever
      the interleaving. */
  lemma ReportsFailing(run: seq<State>, k: nat, out: seq<Outcome>)
    requires IsRun(run, out) && k < |run| && run[k].caller.Returned?
    ensures run[k].caller.failed == Failing(out)
    ensures run[k].caller.failed == {} <==> forall i :: 0 <= i < |out| ==> out[i].Registered?
  {
    RunInv(run, k, out);
    if run[k].caller.failed == {} {
      forall i | 0 <= i < |out| ensures out[i].Registered? {
        assert i !in Failing(out);
      }
    }
  }

  ghost predicate AnyFatal(out: seq<Outcome>) {
    exists i: nat :: i < |out| && out[i].Fatal?
  }

  /** One fatal error keeps the caller waiting for the WaitGroup in every state of every run. */
  lemma FatalNeverJoins(run: seq<State>, k: nat, out: seq<Outcome>)
    requires IsRun(run, out) && k < |run| && AnyFatal(out)
    ensures run[k].caller == Joining && run[k].waitGroup > 0
  {
    RunInv(run, k, out);
    var i: nat :| i < |out| && out[i].Fatal?;
    assert WorkerOk(run[k].workers[i], run[k].channels[i], out[i], Read(run[k], i));
    TotalAtLeast(run[k].workers, Pending, i);
  }

  ghost predicate Stuck(s: State, out: seq<Outcome>) {
    !exists s' :: Step(s, s', out)
  }

  /** Without a fatal error no state but the last is stuck. */
  lemma NeverStuck(run: seq<State>, k: nat, out: seq<Outcome>)
    requires IsRun(run, out) && k < |run| && !AnyFatal(out) && !run[k].caller.Returned?
    ensures !Stuck(run[k], out)
  {
    RunInv(run, k, out);
    var s := run[k];
    if s.waitGroup > 0 {
      var i := SomePositive(s.workers, Pending);
      WorkerMoves(s, i, out);
    } else {
      CallerMoves(s, out);
    }
  }

  lemma WorkerMoves(s: State, i: nat, out: seq<Outcome>)
    requires Inv(s, out) && i < |out| && s.workers[i] != Exited
    requires !(s.workers[i] == Sending && out[i].Fatal?)
    ensures !Stuck(s, out)
  {
    TotalAtLeast(s.workers, Pending, i);
    assert WorkerOk(s.workers[i], s.channels[i], out[i], Read(s, i));
    var s';
    match s.workers[i] {
      case Waiting => s' := s.(workers := s.workers[i := if out[i].Fatal? then SendingFatal else Sending]);
      case SendingFatal =>
        s' := s.(workers := s.workers[i := Sending],
                 channels := s.channels[i := s.channels[i] + [Some(out[i].underlying)]]);
      case Sending =>
        s' := s.(workers := s.workers[i := Finishing], channels := s.channels[i := s.channels[i] + [Message(out[i])]]);
      case Finishing => s' := s.(workers := s.workers[i := Exited], waitGroup := s.waitGroup - 1);
    }
    assert IndexStep(s, s', i, out);
    assert Step(s, s', out);
  }

  lemma CallerMoves(s: State, out: seq<Outcome>)
    requires Inv(s, out) && s.waitGroup == 0 && !s.caller.Returned?
    ensures !Stuck(s, out)
  {
    match s.caller
    case Joining =>
      var s' := s.(caller := Collecting(All(|s.channels|), {}));
      assert Join(s, s');
      assert Step(s, s', out);
    case Collecting(left, failed) =>
      if left == {} {
        var s' := s.(caller := Returned(failed));
        assert Return(s, s');
        assert Step(s, s', out);
      } else {
        var i :| i in left;
        TotalAtLeast(s.workers, Pending, i);
        assert WorkerOk(s.workers[i], s.channels[i], out[i], Read(s, i));
        var s' := s.(caller := Collecting(left - {i}, if s.channels[i][0].Some? then failed + {i} else failed),
                     channels := s.channels[i := s.channels[i][1..]]);
        assert Receive(s, s', i);
        assert IndexStep(s, s', i, out);
        assert Step(s, s', out);
      }
  }

  function WorkerLeft(w: Worker): nat {
    match w
    case Waiting => 4
    case SendingFatal => 3
    case Sending => 2
    case Finishing => 1
    case Exited => 0
  }

  function WorkersLeft(ws: seq<Worker>): nat {
    Total(ws, WorkerLeft)
  }

  function Measure(s: State): nat {
    WorkersLeft(s.workers) +
    match s.caller
    case Joining => |s.channels| + 2
    case Collecting(left, _) => |left| + 1
    case Returned(_) => 0
  }

  lemma IndexStepDecreases(s: State, s': State, i: nat, out: seq<Outcome>)
    requires Inv(s, out) && IndexStep(s, s', i, out)
    ensures Measure(s') < Measure(s)
  {
    hide WorkerOk, Failing, Unfinished, Total;
    if !Receive(s, s', i) {
      TotalUpdate(s.workers, WorkerLeft, i, s'.workers[i]);
    }
  }

  lemma StepDecreases(s: State, s': State, out: seq<Outcome>)
    requires Inv(s, out) && Step(s, s', out)
    ensures Measure(s') < Measure(s)
  {
    hide WorkerOk, Failing, Unfinished, Total, IndexStep;
    if !Join(s, s') && !Return(s, s') {
      var i: nat :| IndexStep(s, s', i, out);
      IndexStepDecreases(s, s', i, out);
    }
  }

  /** Every run is over after at most 5n + 2 steps, whether it returned or hangs. */
  lemma {:induction false} RunsEnd(run: seq<State>, k: nat, out: seq<Outcome>)
    requires IsRun(run, out) && k < |run|
    ensures Measure(run[k]) <= 5 * |out| + 2 - k
  {
    if k == 0 {
      TotalConstant(run[0].workers, WorkerLeft, Waiting);
    } else {
      RunsEnd(run, k - 1, out);
      RunInv(run, k - 1, out);
      assert StepAt(run, k - 1, out);
      StepDecreases(run[k - 1], run[k], out);
    }
  }

  /** A run that cannot go on has returned if and only if no group ended in a fatal error; otherwise the call hangs
      for good, with every failing worker blocked on its second send. */
  lemma HangsIffFatal(run: seq<State>, out: seq<Outcome>)
    requires IsRun(run, out) && Stuck(run[|run| - 1], out)
    ensures run[|run| - 1].caller.Returned? <==> !AnyFatal(out)
    ensures |run[|run| - 1].workers| == |run[|run| - 1].channels| == |out|
    ensures AnyFatal(out) ==> forall i :: 0 <= i < |out| && out[i].Fatal? ==>
              run[|run| - 1].workers[i] == Sending && run[|run| - 1].channels[i] == [Some(out[i].underlying)]
  {
    var k := |run| - 1;
    RunInv(run, k, out);
    if AnyFatal(out) {
      FatalNeverJoins(run, k, out);
      forall i | 0 <= i < |out| && out[i].Fatal?
        ensures run[k].workers[i] == Sending && run[k].channels[i] == [Some(out[i].underlying)]
      {
        assert WorkerOk(run[k].workers[i], run[k].channels[i], out[i], Read(run[k], i));
        if run[k].workers[i] != Sending {
          WorkerMoves(run[k], i, out);
        }
      }
    } else if !run[k].caller.Returned? {
      NeverStuck(run, k, out);
    }
  }

  /** Every run can be continued until nothing is left to do. */
  lemma {:induction false} ExtendToStuck(run: seq<State>, out: seq<Outcome>) returns (full: seq<State>)
    requires IsRun(run, out)
    ensures run <= full && full != [] && IsRun(full, out) && Stuck(full[|full| - 1], out)
    decreases 5 * |out| + 3 - |run|
  {
    hide Init, Step;
    RunsEnd(run, |run| - 1, out);
    if Stuck(run[|run| - 1], out) {
      full := run;
    } else {
      var s' :| Step(run[|run| - 1], s', out);
      var more := run + [s'];
      forall i: nat | i + 1 < |more| ensures StepAt(more, i, out) {
        if i + 1 < |run| {
          assert StepAt(run, i, out);
        }
      }
      full := ExtendToStuck(more, out);
    }
  }

  /** So with a fatal error there is a run that hangs, and each run ends that way. */
  lemma FatalHangs(run: seq<State>, out: seq<Outcome>) returns (full: seq<State>)
    requires IsRun(run, out) && AnyFatal(out)
    ensures run <= full && full != [] && IsRun(full, out) && Stuck(full[|full| - 1], out)
    ensures !full[|full| - 1].caller.Returned?
  {
    hide Init, Step, IsRun, Stuck;
    full := ExtendToStuck(run, out);
    HangsIffFatal(full, out);
  }

  /** A call with one group whose wait ends in a fatal error. */
  lemma HangHappens() returns (run: seq<State>, out: seq<Outcome>)
    ensures run != [] && IsRun(run, out) && out == [Fatal("AccessDenied")]
    ensures Stuck(run[|run| - 1], out) && !run[|run| - 1].caller.Returned?
  {
    out := [Fatal("AccessDenied")];
    var s := State(Joining, seq(1, _ => Waiting), seq(1, _ => []), 1);
    assert out[0].Fatal?;
    run := FatalHangs([s], out);
  }
}
