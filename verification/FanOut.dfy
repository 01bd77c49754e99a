/** Running one kubectl command per node at the same time (DrainNodes and CordonNodes): goroutines, a channel of
    capacity one each, and a WaitGroup, in every interleaving. `out[i]` is how the command of node i ends. */
module FanOut {

  import opened Collections
  import opened Totals

  type Error = string

  /** The worker's deferred calls run in reverse: close, then Done. */
  datatype Worker = Running | Sending | Closing | Finishing | Exited

  datatype Channel = Channel(buffer: seq<Option<Error>>, closed: bool)

  /** The caller starts the workers, waits for all, then reads the channels in node order. */
  datatype Caller = Spawning(next: nat) | Waiting | Collecting(next: nat, errs: seq<Error>) | Returned(errs: seq<Error>)

  /** `zeroReads` counts receives from a closed, empty channel, which Go answers with a zero value. */
  datatype State = State(caller: Caller, workers: seq<Worker>, channels: seq<Channel>, waitGroup: int, zeroReads: nat)

  const CAPACITY := 1

  ghost predicate Init(s: State) {
    s == State(Spawning(0), [], [], 0, 0)
  }

  ghost predicate Spawn(s: State, s': State, n: nat) {
    && s.caller.Spawning? && s.caller.next < n
    && s' == s.(caller := Spawning(s.caller.next + 1), workers := s.workers + [Running],
                channels := s.channels + [Channel([], false)], waitGroup := s.waitGroup + 1)
  }

  ghost predicate StartWaiting(s: State, s': State, n: nat) {
    s.caller == Spawning(n) && s' == s.(caller := Waiting)
  }

  ghost predicate StopWaiting(s: State, s': State) {
    s.caller == Waiting && s.waitGroup == 0 && s' == s.(caller := Collecting(0, []))
  }

  function With(errs: seq<Error>, message: Option<Error>): seq<Error> {
    if message.Some? then errs + [message.value] else errs
  }

  ghost predicate Receive(s: State, s': State, n: nat) {
    && s.caller.Collecting? && s.caller.next < n && s.caller.next < |s.channels|
    && var k := s.caller.next;
    && var c := s.channels[k];
    && if c.buffer != []
       then s' == s.(caller := Collecting(k + 1, With(s.caller.errs, c.buffer[0])),
                     channels := s.channels[k := c.(buffer := c.buffer[1..])])
       else c.closed && s' == s.(caller := Collecting(k + 1, s.caller.errs), zeroReads := s.zeroReads + 1)
  }

  ghost predicate Return(s: State, s': State, n: nat) {
    s.caller.Collecting? && s.caller.next == n && s' == s.(caller := Returned(s.caller.errs))
  }

  ghost predicate CommandEnds(s: State, s': State, i: nat) {
    && i < |s.workers| && s.workers[i] == Running
    && s' == s.(workers := s.workers[i := Sending])
  }

  ghost predicate Send(s: State, s': State, i: nat, out: seq<Option<Error>>) {
    && i < |s.workers| && i < |s.channels| && i < |out| && s.workers[i] == Sending
    && var c := s.channels[i];
    && !c.closed && |c.buffer| < CAPACITY
    && s' == s.(workers := s.workers[i := Closing], channels := s.channels[i := c.(buffer := c.buffer + [out[i]])])
  }

  ghost predicate Close(s: State, s': State, i: nat) {
    && i < |s.workers| && i < |s.channels| && s.workers[i] == Closing
    && !s.channels[i].closed
    && s' == s.(workers := s.workers[i := Finishing], channels := s.channels[i := s.channels[i].(closed := true)])
  }

  ghost predicate Done(s: State, s': State, i: nat) {
    && i < |s.workers| && s.workers[i] == Finishing
    && s.waitGroup > 0
    && s' == s.(workers := s.workers[i := Exited], waitGroup := s.waitGroup - 1)
  }

  ghost predicate WorkerStep(s: State, s': State, i: nat, out: seq<Option<Error>>) {
    CommandEnds(s, s', i) || Send(s, s', i, out) || Close(s, s', i) || Done(s, s', i)
  }

  ghost predicate CallerStep(s: State, s': State, n: nat) {
    Spawn(s, s', n) || StartWaiting(s, s', n) || StopWaiting(s, s') || Receive(s, s', n) || Return(s, s', n)
  }

  ghost predicate Step(s: State, s': State, out: seq<Option<Error>>) {
    CallerStep(s, s', |out|) || exists i: nat :: WorkerStep(s, s', i, out)
  }

  ghost predicate IsRun(run: seq<State>, out: seq<Option<Error>>) {
    && run != [] && Init(run[0])
    && forall i: nat :: i + 1 < |run| ==> StepAt(run, i, out)
  }

  ghost predicate StepAt(run: seq<State>, i: nat, out: seq<Option<Error>>)
    requires i + 1 < |run|
  {
    Step(run[i], run[i + 1], out)
  }

  // ---- invariant ----

  function Pending(w: Worker): nat {
    if w == Exited then 0 else 1
  }

  /** How many of the workers started have not exited. */
  function Unfinished(ws: seq<Worker>): nat {
    Total(ws, Pending)
  }

  /** What the errors reported in node order are. */
  function Errors(out: seq<Option<Error>>): seq<Error> {
    if out == [] then [] else With(Errors(out[..|out| - 1]), out[|out| - 1])
  }

  /** The channel of worker i, given how far the worker is and whether it has been read. */
  ghost predicate ChannelOk(w: Worker, c: Channel, message: Option<Error>, read: bool) {
    match w
    case Running => c == Channel([], false)
    case Sending => c == Channel([], false)
    case Closing => c == Channel([message], false)
    case Finishing => c == Channel([message], true)
    case Exited => c == Channel(if read then [] else [message], true)
  }

  /** How many channels the caller has read. */
  function ReadCount(s: State): nat {
    match s.caller
    case Collecting(k, _) => k
    case Returned(_) => |s.workers|
    case _ => 0
  }

  ghost predicate Inv(s: State, out: seq<Option<Error>>) {
    && |s.workers| == |s.channels| <= |out|
    && s.waitGroup == Unfinished(s.workers)
    && s.zeroReads == 0
    && (forall i :: 0 <= i < |s.workers| ==> ChannelOk(s.workers[i], s.channels[i], out[i], i < ReadCount(s)))
    && match s.caller
       case Spawning(k) => k == |s.workers|
       case Waiting => |s.workers| == |out|
       case Collecting(k, errs) => k <= |out| == |s.workers| && s.waitGroup == 0 && errs == Errors(out[..k])
       case Returned(errs) => |s.workers| == |out| && s.waitGroup == 0 && errs == Errors(out)
  }

  lemma WorkerInv(s: State, s': State, i: nat, out: seq<Option<Error>>)
    requires Inv(s, out) && WorkerStep(s, s', i, out)
    ensures Inv(s', out)
  {
    hide Total, Errors;
    TotalUpdate(s.workers, Pending, i, s'.workers[i]);
    TotalAtLeast(s.workers, Pending, i);
  }

  lemma SpawnInv(s: State, s': State, out: seq<Option<Error>>)
    requires Inv(s, out) && Spawn(s, s', |out|)
    ensures Inv(s', out)
  {
    assert s'.workers[..|s'.workers| - 1] == s.workers;
  }

  lemma ReceiveInv(s: State, s': State, out: seq<Option<Error>>)
    requires Inv(s, out) && Receive(s, s', |out|)
    ensures Inv(s', out)
  {
    var k := s.caller.next;
    TotalAtLeast(s.workers, Pending, k);
    assert out[..k + 1][..k] == out[..k];
  }

  lemma CallerInv(s: State, s': State, out: seq<Option<Error>>)
    requires Inv(s, out) && CallerStep(s, s', |out|)
    ensures Inv(s', out)
  {
    hide Spawn, Receive, ChannelOk, Unfinished, Total;
    if Spawn(s, s', |out|) {
      SpawnInv(s, s', out);
    } else if Receive(s, s', |out|) {
      ReceiveInv(s, s', out);
    } else if Return(s, s', |out|) {
      assert out[..|out|] == out;
    }
  }

  lemma {:induction false} RunInv(run: seq<State>, k: nat, out: seq<Option<Error>>)
    requires IsRun(run, out) && k < |run|
    ensures Inv(run[k], out)
  {
    if k > 0 {
      RunInv(run, k - 1, out);
      assert StepAt(run, k - 1, out);
      if CallerStep(run[k - 1], run[k], |out|) {
        CallerInv(run[k - 1], run[k], out);
      } else {
        var i: nat :| WorkerStep(run[k - 1], run[k], i, out);
        WorkerInv(run[k - 1], run[k], i, out);
      }
    }
  }

  // ---- theorems ----

  /** The WaitGroup is at zero after all workers were started only when every channel holds exactly one message and
      is closed, and the caller never reads the zero value of an empty one. */
  lemma WaitGroupZero(run: seq<State>, k: nat, out: seq<Option<Error>>)
    requires IsRun(run, out) && k < |run|
    ensures run[k].zeroReads == 0
    ensures run[k].caller.Waiting? && run[k].waitGroup == 0 ==>
      && |run[k].channels| == |out|
      && forall i :: 0 <= i < |out| ==> run[k].channels[i] == Channel([out[i]], true)
  {
    RunInv(run, k, out);
    var s := run[k];
    if s.caller.Waiting? && s.waitGroup == 0 {
      forall i | 0 <= i < |out| ensures s.channels[i] == Channel([out[i]], true) {
        TotalAtLeast(s.workers, Pending, i);
      }
    }
  }

  lemma {:induction false} ErrorsEmpty(out: seq<Option<Error>>)
    ensures Errors(out) == [] <==> forall i :: 0 <= i < |out| ==> out[i].None?
  {
    if out != [] {
      var init := out[..|out| - 1];
      ErrorsEmpty(init);
      assert (forall i :: 0 <= i < |out| ==> out[i].None?) <==>
             (forall i :: 0 <= i < |init| ==> init[i].None?) && out[|out| - 1].None?;
    }
  }

  /** The errors are the messages at exactly the failing positions `at`, in order. */
  ghost predicate FailingAt(out: seq<Option<Error>>, at: seq<nat>, errs: seq<Error>) {
    && |at| == |errs|
    && (forall i :: 0 <= i < |at| ==> at[i] < |out| && out[at[i]] == Some(errs[i]))
    && (forall i, j :: 0 <= i < j < |at| ==> at[i] < at[j])
    && (forall k: nat :: k < |out| && out[k].Some? ==> k in at)
  }

  ghost predicate FailuresInOrder(out: seq<Option<Error>>, errs: seq<Error>) {
    exists at :: FailingAt(out, at, errs)
  }

  lemma OneMoreFailing(out: seq<Option<Error>>, at: seq<nat>, errs: seq<Error>, last: Option<Error>)
    returns (all: seq<nat>)
    requires FailingAt(out, at, errs)
    ensures FailingAt(out + [last], all, With(errs, last))
  {
    all := if last.Some? then at + [|out|] else at;
    forall k: nat | k < |out + [last]| && (out + [last])[k].Some? ensures k in all {
      if k < |out| {
        assert out[k].Some? && k in at;
      } else {
        assert all[|at|] == k;
      }
    }
  }

  lemma {:induction false} ErrorsAt(out: seq<Option<Error>>) returns (at: seq<nat>)
    ensures FailingAt(out, at, Errors(out))
  {
    if out == [] {
      at := [];
    } else {
      var n := |out| - 1;
      at := ErrorsAt(out[..n]);
      at := OneMoreFailing(out[..n], at, Errors(out[..n]), out[n]);
      assert out[..n] + [out[n]] == out;
    }
  }

  /** Whatever the interleaving, the call returns the failures in node order, and success exactly when every
      command succeeded. */
  lemma ScheduleIndependent(run: seq<State>, k: nat, out: seq<Option<Error>>)
    requires IsRun(run, out) && k < |run| && run[k].caller.Returned?
    ensures run[k].caller.errs == Errors(out) && FailuresInOrder(out, run[k].caller.errs)
    ensures run[k].caller.errs == [] <==> forall i :: 0 <= i < |out| ==> out[i].None?
  {
    RunInv(run, k, out);
    ErrorsEmpty(out);
    var at := ErrorsAt(out);
  }

  /** No state but the last is stuck: no deadlock, no send on a full or closed channel, no double close. */
  lemma NeverStuck(run: seq<State>, k: nat, out: seq<Option<Error>>)
    requires IsRun(run, out) && k < |run| && !run[k].caller.Returned?
    ensures exists s' :: Step(run[k], s', out)
  {
    RunInv(run, k, out);
    var s := run[k];
    if s.waitGroup > 0 {
      var i := SomePositive(s.workers, Pending);
      var s' := WorkerMoves(s, i, out);
    } else {
      CallerMoves(s, out);
    }
  }

  lemma WorkerMoves(s: State, i: nat, out: seq<Option<Error>>) returns (s': State)
    requires Inv(s, out) && i < |s.workers| && s.workers[i] != Exited
    ensures Step(s, s', out)
  {
    TotalAtLeast(s.workers, Pending, i);
    var c := s.channels[i];
    match s.workers[i]
    case Running =>
      s' := s.(workers := s.workers[i := Sending]);
      assert CommandEnds(s, s', i);
      assert WorkerStep(s, s', i, out);
    case Sending =>
      s' := s.(workers := s.workers[i := Closing], channels := s.channels[i := c.(buffer := c.buffer + [out[i]])]);
      assert Send(s, s', i, out);
      assert WorkerStep(s, s', i, out);
    case Closing =>
      s' := s.(workers := s.workers[i := Finishing], channels := s.channels[i := c.(closed := true)]);
      assert Close(s, s', i);
      assert WorkerStep(s, s', i, out);
    case Finishing =>
      s' := s.(workers := s.workers[i := Exited], waitGroup := s.waitGroup - 1);
      assert Done(s, s', i);
      assert WorkerStep(s, s', i, out);
  }

  lemma CallerMoves(s: State, out: seq<Option<Error>>)
    requires Inv(s, out) && s.waitGroup == 0 && !s.caller.Returned?
    ensures exists s' :: Step(s, s', out)
  {
    var n := |out|;
    match s.caller
    case Spawning(k) =>
      if k < n {
        var s' := s.(caller := Spawning(k + 1), workers := s.workers + [Running],
                     channels := s.channels + [Channel([], false)], waitGroup := s.waitGroup + 1);
        assert Spawn(s, s', n);
        assert Step(s, s', out);
      } else {
        var s' := s.(caller := Waiting);
        assert StartWaiting(s, s', n);
        assert Step(s, s', out);
      }
    case Waiting =>
      var s' := s.(caller := Collecting(0, []));
      assert StopWaiting(s, s');
      assert Step(s, s', out);
    case Collecting(k, errs) =>
      if k < n {
        TotalAtLeast(s.workers, Pending, k);
        var c := s.channels[k];
        var s' := s.(caller := Collecting(k + 1, With(errs, c.buffer[0])),
                     channels := s.channels[k := c.(buffer := c.buffer[1..])]);
        assert Receive(s, s', n);
        assert Step(s, s', out);
      } else {
        var s' := s.(caller := Returned(errs));
        assert Return(s, s', n);
        assert Step(s, s', out);
      }
  }

  /** Steps left to a worker and to the caller. */
  function WorkerLeft(w: Worker): nat {
    match w
    case Running => 4
    case Sending => 3
    case Closing => 2
    case Finishing => 1
    case Exited => 0
  }

  function WorkersLeft(ws: seq<Worker>): nat {
    Total(ws, WorkerLeft)
  }

  function CallerLeft(c: Caller, n: nat): int {
    match c
    case Spawning(k) => 5 * (n - k) + n + 3
    case Waiting => n + 2
    case Collecting(k, _) => n - k + 1
    case Returned(_) => 0
  }

  function Measure(s: State, n: nat): int {
    CallerLeft(s.caller, n) + WorkersLeft(s.workers)
  }

  lemma CallerStepDecreases(s: State, s': State, out: seq<Option<Error>>)
    requires Inv(s, out) && CallerStep(s, s', |out|)
    ensures 0 <= Measure(s', |out|) < Measure(s, |out|)
  {
    hide ChannelOk, Unfinished, Errors;
    if Spawn(s, s', |out|) {
      assert s'.workers[..|s'.workers| - 1] == s.workers;
    }
  }

  lemma StepDecreases(s: State, s': State, out: seq<Option<Error>>)
    requires Inv(s, out) && Step(s, s', out)
    ensures 0 <= Measure(s', |out|) < Measure(s, |out|)
  {
    hide ChannelOk, Unfinished, Errors, CallerStep;
    if CallerStep(s, s', |out|) {
      CallerStepDecreases(s, s', out);
    } else {
      var i: nat :| WorkerStep(s, s', i, out);
      TotalUpdate(s.workers, WorkerLeft, i, s'.workers[i]);
    }
  }

  /** Every run is over after at most 6n + 3 steps; with NeverStuck, every schedule ends in a return. */
  lemma {:induction false} RunsEnd(run: seq<State>, k: nat, out: seq<Option<Error>>)
    requires IsRun(run, out) && k < |run|
    ensures 0 <= Measure(run[k], |out|) <= 6 * |out| + 3 - k
  {
    if k > 0 {
      RunsEnd(run, k - 1, out);
      RunInv(run, k - 1, out);
      assert StepAt(run, k - 1, out);
      StepDecreases(run[k - 1], run[k], out);
    }
  }
}
