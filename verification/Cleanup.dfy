/** Deleting the security groups of a cluster: for every group its network interfaces are detached, awaited, deleted and
    awaited again before the group itself goes, against an API that is only eventually consistent. */
module Cleanup {
  import opened Collections

  type Id = string

  const WAIT_MAX_RETRIES: nat := 30

  /** An interface as the listing shows it: attached unless it has no attachment or its status is "detached". */
  datatype NetworkInterface = NetworkInterface(id: Id, attached: bool)

  datatype Call = Detach | PollAttachment | Delete | PollExistence | DeleteGroup

  /** What a call reported. `Good` is success (for PollAttachment: it is detached, for PollExistence: it still exists),
      `NotYet` is an attachment that is still there or an interface still in use. */
  datatype Answer = Good | NotFound | NotYet | Failure

  datatype Event = Event(call: Call, id: Id, answer: Answer)

  /** One security group's turn: the interfaces listed for it and every call made since. */
  datatype Turn = Turn(group: Id, listed: seq<NetworkInterface>, events: seq<Event>) {

    function Append(es: seq<Event>): Turn {
      this.(events := events + es)
    }
  }

  datatype Verdict = Stop | Again | Fatal

  /** How each of the switch statements sorts the answer to its call. */
  function Judge(call: Call, answer: Answer): Verdict {
    match call
    case PollExistence =>
      (match answer case NotFound => Stop case Good => Again case NotYet => Fatal case Failure => Fatal)
    case Detach =>
      (match answer case Good => Stop case NotFound => Stop case NotYet => Fatal case Failure => Fatal)
    case DeleteGroup =>
      (match answer case Good => Stop case NotFound => Stop case NotYet => Fatal case Failure => Fatal)
    case PollAttachment =>
      (match answer case Good => Stop case NotFound => Stop case NotYet => Again case Failure => Fatal)
    case Delete =>
      (match answer case Good => Stop case NotFound => Stop case NotYet => Again case Failure => Fatal)
  }

  /** The answers after which a call is not made again for the same interface. */
  ghost predicate Settles(call: Call, answer: Answer) {
    answer == NotFound || (answer == Good && call != PollExistence)
  }

  /** The answers after which it is tried again: not detached yet, still in use, still there. */
  ghost predicate AsksAgain(call: Call, answer: Answer) {
    (answer == NotYet && call in {PollAttachment, Delete}) || (answer == Good && call == PollExistence)
  }

  /** The switch statements tell these apart, and everything else ends the command. */
  lemma JudgeSorts(call: Call, answer: Answer)
    ensures Judge(call, answer) == Stop <==> Settles(call, answer)
    ensures Judge(call, answer) == Again <==> AsksAgain(call, answer)
    ensures !(Settles(call, answer) && AsksAgain(call, answer))
  {
  }

  // ---- the order that protects resources in use ----

  /** Some call of this kind for this interface was answered for good. */
  ghost predicate Settled(es: seq<Event>, call: Call, id: Id) {
    exists k :: 0 <= k < |es| && SettledAt(es, k, call, id)
  }

  ghost predicate SettledAt(es: seq<Event>, k: nat, call: Call, id: Id)
    requires k < |es|
  {
    es[k].call == call && es[k].id == id && Settles(call, es[k].answer)
  }

  /** A phase is over when its call settled for every interface it concerns. */
  ghost predicate Complete(es: seq<Event>, call: Call, listed: seq<NetworkInterface>) {
    forall i :: 0 <= i < |listed| && (call.Detach? ==> listed[i].attached) ==> Settled(es, call, listed[i].id)
  }

  ghost predicate Listed(t: Turn, id: Id) {
    exists i :: 0 <= i < |t.listed| && t.listed[i].id == id
  }

  /** When a call may be made, given the events so far. */
  ghost predicate Allowed(t: Turn, es: seq<Event>, call: Call, id: Id) {
    match call
    case Detach => (exists i :: 0 <= i < |t.listed| && t.listed[i] == NetworkInterface(id, true))
    case PollAttachment => Listed(t, id) && Complete(es, Detach, t.listed)
    case Delete => Listed(t, id) && Complete(es, PollAttachment, t.listed)
    case PollExistence => Listed(t, id) && Complete(es, Delete, t.listed)
    case DeleteGroup => id == t.group && Complete(es, PollExistence, t.listed)
  }

  ghost predicate Ordered(t: Turn) {
    forall k :: 0 <= k < |t.events| ==> Allowed(t, t.events[..k], t.events[k].call, t.events[k].id)
  }

  lemma OrderedAppend(t: Turn, e: Event)
    requires Ordered(t) && Allowed(t, t.events, e.call, e.id)
    ensures Ordered(t.Append([e]))
  {
    var u := t.Append([e]);
    forall k | 0 <= k < |u.events| ensures Allowed(u, u.events[..k], u.events[k].call, u.events[k].id) {
      if k < |t.events| {
        assert u.events[..k] == t.events[..k];
        assert Allowed(t, t.events[..k], t.events[k].call, t.events[k].id);
      } else {
        assert u.events[..k] == t.events;
      }
    }
  }

  lemma SettledGrows(es: seq<Event>, more: seq<Event>, call: Call, id: Id)
    requires Settled(es, call, id) || Settled(more, call, id)
    ensures Settled(es + more, call, id)
  {
    if Settled(es, call, id) {
      var k :| 0 <= k < |es| && SettledAt(es, k, call, id);
      assert SettledAt(es + more, k, call, id);
    } else {
      var k :| 0 <= k < |more| && SettledAt(more, k, call, id);
      assert SettledAt(es + more, |es| + k, call, id);
    }
  }

  lemma CompleteGrows(es: seq<Event>, more: seq<Event>, call: Call, listed: seq<NetworkInterface>)
    requires Complete(es, call, listed) || Complete(more, call, listed)
    ensures Complete(es + more, call, listed)
  {
    forall i | 0 <= i < |listed| && (call.Detach? ==> listed[i].attached)
      ensures Settled(es + more, call, listed[i].id)
    {
      SettledGrows(es, more, call, listed[i].id);
    }
  }

  /** In an ordered turn a settled call is preceded by the settled calls of all earlier phases, for every interface. */
  lemma EarlierPhase(t: Turn, k: nat, earlier: Call, id: Id) returns (j: nat)
    requires Ordered(t) && k < |t.events| && Listed(t, id)
    requires match t.events[k].call
      case Delete => earlier == PollAttachment
      case PollExistence => earlier == Delete
      case DeleteGroup => earlier == PollExistence
      case _ => false
    ensures j < k && SettledAt(t.events, j, earlier, id)
  {
    var es := t.events[..k];
    assert Allowed(t, es, t.events[k].call, t.events[k].id);
    var i :| 0 <= i < |t.listed| && t.listed[i].id == id;
    assert Settled(es, earlier, t.listed[i].id);
    j :| 0 <= j < |es| && SettledAt(es, j, earlier, id);
    assert es[j] == t.events[j];
  }

  /** No interface is deleted while any interface of the group may still be in use: before the first delete request
      every listed interface was seen detached or missing. */
  lemma DeletesWaitForDetachment(t: Turn, k: nat, id: Id)
    requires Ordered(t) && k < |t.events| && t.events[k].call == Delete && Listed(t, id)
    ensures exists j ::
      && 0 <= j < k && t.events[j].call == PollAttachment && t.events[j].id == id
      && (t.events[j].answer == Good || t.events[j].answer == NotFound)
  {
    var j := EarlierPhase(t, k, PollAttachment, id);
  }

  /** The steps that lead to the deletion of a group, for each of its interfaces. */
  ghost predicate Retired(t: Turn, id: Id, a: nat, b: nat, c: nat) {
    && a < b < c < |t.events|
    && SettledAt(t.events, a, PollAttachment, id)
    && SettledAt(t.events, b, Delete, id)
    && t.events[c] == Event(PollExistence, id, NotFound)
  }

  /** A group is only deleted after each interface was seen detached, then deleted, then seen missing. */
  lemma GroupOutlivesInterfaces(t: Turn, k: nat, id: Id)
    requires Ordered(t) && k < |t.events| && t.events[k].call == DeleteGroup && Listed(t, id)
    ensures exists a: nat, b: nat, c: nat :: c < k && Retired(t, id, a, b, c)
  {
    var c := EarlierPhase(t, k, PollExistence, id);
    var b := EarlierPhase(t, c, Delete, id);
    var a := EarlierPhase(t, b, PollAttachment, id);
    assert Retired(t, id, a, b, c);
  }

  /** An interface that is never seen detached or missing keeps the group and all its interfaces alive. */
  lemma AttachedBlocksDeletion(t: Turn, id: Id)
    requires Ordered(t) && Listed(t, id) && !Settled(t.events, PollAttachment, id)
    ensures forall k :: 0 <= k < |t.events| ==> t.events[k].call == Detach || t.events[k].call == PollAttachment
  {
    forall k | 0 <= k < |t.events| ensures t.events[k].call == Detach || t.events[k].call == PollAttachment {
      match t.events[k].call
      case Detach =>
      case PollAttachment =>
      case Delete =>
        var a := EarlierPhase(t, k, PollAttachment, id);
      case PollExistence =>
        var b := EarlierPhase(t, k, Delete, id);
        var a := EarlierPhase(t, b, PollAttachment, id);
      case DeleteGroup =>
        var c := EarlierPhase(t, k, PollExistence, id);
        var b := EarlierPhase(t, c, Delete, id);
        var a := EarlierPhase(t, b, PollAttachment, id);
    }
  }

  // ---- the API ----

  /** One request for the interfaces of a group, and whether it was answered. */
  datatype Listing = Listing(group: Id, ok: bool)

  /** One request for the groups tagged for a cluster in a VPC, how many turns there had been, and the answer. */
  datatype Lookup = Lookup(vpc: Id, cluster: Id, after: nat, groups: Option<seq<Id>>)

  /** The EC2 API. Nothing is known about its answers; the histories are what was asked and answered, by this and
      earlier commands. */
  class Ec2 {
    ghost var turns: seq<Turn>
    ghost var listings: seq<Listing>
    ghost var lookups: seq<Lookup>

    constructor ()
      ensures turns == [] && listings == [] && lookups == []
    {
      turns, listings, lookups := [], [], [];
    }

    ghost predicate Valid()
      reads this
    {
      forall i :: 0 <= i < |turns| ==> Ordered(turns[i])
    }

    ghost function Current(): Turn
      requires turns != []
      reads this
    {
      turns[|turns| - 1]
    }

    ghost function With(es: seq<Event>): seq<Turn>
      requires turns != []
      reads this
    {
      turns[..|turns| - 1] + [Current().Append(es)]
    }

    /** DescribeNetworkInterfaces with the group as filter. */
    method ListInterfaces(group: Id) returns (ok: bool, listed: seq<NetworkInterface>)
      requires Valid()
      modifies this`turns, this`listings
      ensures Valid() && turns == old(turns) + (if ok then [Turn(group, listed, [])] else [])
      ensures listings == old(listings) + [Listing(group, ok)]
    {
      ok, listed := *, *;
      listings := listings + [Listing(group, ok)];
      if ok {
        turns := turns + [Turn(group, listed, [])];
      }
    }

    method Ask(call: Call, id: Id) returns (answer: Answer)
      requires Valid() && turns != [] && Allowed(Current(), Current().events, call, id)
      modifies this`turns
      ensures Valid() && turns == old(With([Event(call, id, answer)]))
    {
      answer := *;
      OrderedAppend(Current(), Event(call, id, answer));
      turns := With([Event(call, id, answer)]);
    }

    /** DescribeSecurityGroups by the VPC and the tag of the load balancer controller. */
    method LookupGroups(vpc: Id, cluster: Id) returns (groups: Option<seq<Id>>)
      modifies this`lookups
      ensures lookups == old(lookups) + [Lookup(vpc, cluster, |turns|, groups)]
    {
      var ok: bool, ids: seq<Id> := *, *;
      groups := if ok then Some(ids) else None;
      lookups := lookups + [Lookup(vpc, cluster, |turns|, groups)];
    }
  }

  lemma WithNothing(turns: seq<Turn>)
    requires turns != []
    ensures turns[..|turns| - 1] + [turns[|turns| - 1].Append([])] == turns
  {
    assert turns[|turns| - 1].events + [] == turns[|turns| - 1].events;
  }

  lemma WithTwice(turns: seq<Turn>, es: seq<Event>, more: seq<Event>)
    requires turns != []
    ensures var last := turns[|turns| - 1];
      turns[..|turns| - 1] + [last.Append(es).Append(more)] == turns[..|turns| - 1] + [last.Append(es + more)]
  {
    assert turns[|turns| - 1].events + es + more == turns[|turns| - 1].events + (es + more);
  }

  // ---- retries ----

  datatype Outcome = Done | Exhausted | Broken

  /** The calls of one bounded retry: only answers to try again, and at the end the one that decided. */
  ghost predicate Tried(es: seq<Event>, call: Call, id: Id, maxRetries: nat, outcome: Outcome) {
    && 1 <= |es| <= maxRetries + 1
    && (forall k :: 0 <= k < |es| ==> es[k].call == call && es[k].id == id)
    && (forall k :: 0 <= k < |es| - 1 ==> AsksAgain(call, es[k].answer))
    && var last := es[|es| - 1].answer;
       match outcome
       case Done => Settles(call, last)
       case Exhausted => |es| == maxRetries + 1 && AsksAgain(call, last)
       case Broken => !Settles(call, last) && !AsksAgain(call, last)
  }

  /** retry.DoWithRetry around one call: it is made once and then again up to maxRetries times. */
  method DoWithRetry(ec2: Ec2, call: Call, id: Id, maxRetries: nat) returns (outcome: Outcome, ghost es: seq<Event>)
    requires ec2.Valid() && ec2.turns != [] && Allowed(ec2.Current(), ec2.Current().events, call, id)
    requires !call.DeleteGroup?
    modifies ec2`turns
    ensures ec2.Valid() && ec2.turns == old(ec2.With(es))
    ensures Tried(es, call, id, maxRetries, outcome)
  {
    hide Ordered, Allowed;
    es := [];
    var attempts := 0;
    WithNothing(ec2.turns);
    while attempts <= maxRetries
      invariant attempts <= maxRetries + 1 && |es| == attempts
      invariant ec2.Valid() && ec2.turns != [] && ec2.turns == old(ec2.With(es))
      invariant attempts > 0 ==> Tried(es, call, id, attempts - 1, Exhausted)
      invariant Allowed(ec2.Current(), ec2.Current().events, call, id)
    {
      label before:
      var answer := ec2.Ask(call, id);
      var e := [Event(call, id, answer)];
      WithTwice(old(ec2.turns), es, e);
      StillAllowed(old@before(ec2.Current()), e, call, id);
      es := es + e;
      attempts := attempts + 1;
      JudgeSorts(call, answer);
      match Judge(call, answer)
      case Stop => return Done, es;
      case Fatal => return Broken, es;
      case Again =>
    }
    outcome := Exhausted;
  }

  lemma StillAllowed(t: Turn, es: seq<Event>, call: Call, id: Id)
    requires Allowed(t, t.events, call, id)
    ensures Allowed(t.Append(es), t.Append(es).events, call, id)
  {
    match call
    case Detach =>
    case PollAttachment => CompleteGrows(t.events, es, Detach, t.listed);
    case Delete => CompleteGrows(t.events, es, PollAttachment, t.listed);
    case PollExistence => CompleteGrows(t.events, es, Delete, t.listed);
    case DeleteGroup => CompleteGrows(t.events, es, PollExistence, t.listed);
  }

  // ---- the four phases ----

  datatype Error = AwsError | MaxRetriesExceeded | DetachedTimeout(id: Id) | DeletedTimeout(id: Id)

  datatype Result = Ok | Err(error: Error)

  /** The events of a phase that retried its call for every interface in turn until it settled. */
  ghost predicate Runs(es: seq<Event>, call: Call, listed: seq<NetworkInterface>, maxRetries: nat)
    decreases |listed|
  {
    if listed == [] then es == []
    else exists m :: 0 <= m <= |es| && RunsTo(es, m, call, listed, maxRetries)
  }

  ghost predicate RunsTo(es: seq<Event>, m: nat, call: Call, listed: seq<NetworkInterface>, maxRetries: nat)
    requires m <= |es| && listed != []
    decreases |listed|, 0
  {
    && Runs(es[..m], call, listed[..|listed| - 1], maxRetries)
    && Tried(es[m..], call, listed[|listed| - 1].id, maxRetries, Done)
  }

  /** The events of a phase that got stuck on some interface, with the error it reports. */
  ghost predicate Stuck(es: seq<Event>, call: Call, listed: seq<NetworkInterface>, maxRetries: nat, error: Error) {
    exists i, m :: 0 <= i < |listed| && 0 <= m <= |es| && StuckAt(es, i, m, call, listed, maxRetries, error)
  }

  ghost predicate StuckAt(es: seq<Event>, i: nat, m: nat, call: Call, listed: seq<NetworkInterface>, maxRetries: nat,
                          error: Error)
    requires i < |listed| && m <= |es|
  {
    && Runs(es[..m], call, listed[..i], maxRetries)
    && var id := listed[i].id;
       if error == AwsError then Tried(es[m..], call, id, maxRetries, Broken)
       else
         && Tried(es[m..], call, id, maxRetries, Exhausted)
         && error == (match call
                      case PollAttachment => DetachedTimeout(id)
                      case PollExistence => DeletedTimeout(id)
                      case _ => MaxRetriesExceeded)
  }

  lemma RunsOneMore(es: seq<Event>, more: seq<Event>, call: Call, listed: seq<NetworkInterface>, i: nat,
                    maxRetries: nat)
    requires i < |listed| && Runs(es, call, listed[..i], maxRetries)
    requires Tried(more, call, listed[i].id, maxRetries, Done)
    ensures Runs(es + more, call, listed[..i + 1], maxRetries)
  {
    assert listed[..i + 1][..i] == listed[..i];
    assert (es + more)[..|es|] == es && (es + more)[|es|..] == more;
    assert RunsTo(es + more, |es|, call, listed[..i + 1], maxRetries);
  }

  lemma StuckHere(es: seq<Event>, more: seq<Event>, call: Call, listed: seq<NetworkInterface>, i: nat,
                  maxRetries: nat, error: Error)
    requires i < |listed| && Runs(es, call, listed[..i], maxRetries)
    requires StuckAt(more, 0, 0, call, [listed[i]], maxRetries, error)
    ensures Stuck(es + more, call, listed, maxRetries, error)
  {
    assert (es + more)[..|es|] == es && (es + more)[|es|..] == more;
    assert more[0..] == more;
    assert StuckAt(es + more, i, |es|, call, listed, maxRetries, error);
  }

  /** A phase that ran through has settled its call for every interface. */
  lemma {:induction false} RunsComplete(es: seq<Event>, call: Call, listed: seq<NetworkInterface>, maxRetries: nat)
    requires Runs(es, call, listed, maxRetries)
    ensures Complete(es, call, listed)
    decreases |listed|
  {
    if listed != [] {
      var n := |listed| - 1;
      var m :| 0 <= m <= |es| && RunsTo(es, m, call, listed, maxRetries);
      RunsComplete(es[..m], call, listed[..n], maxRetries);
      assert es[..m] + es[m..] == es;
      assert SettledAt(es[m..], |es[m..]| - 1, call, listed[n].id);
      forall i | 0 <= i < |listed| && (call.Detach? ==> listed[i].attached) ensures Settled(es, call, listed[i].id) {
        if i < n {
          assert listed[..n][i] == listed[i];
        }
        SettledGrows(es[..m], es[m..], call, listed[i].id);
      }
    }
  }

  /** One detach request for every interface the listing showed attached, in order, each accepted or moot. */
  ghost predicate DetachRuns(es: seq<Event>, listed: seq<NetworkInterface>) {
    if listed == [] then es == []
    else
      var n := |listed| - 1;
      if !listed[n].attached then DetachRuns(es, listed[..n])
      else
        && es != []
        && SettledAt(es, |es| - 1, Detach, listed[n].id)
        && DetachRuns(es[..|es| - 1], listed[..n])
  }

  lemma {:induction false} DetachRunsComplete(es: seq<Event>, listed: seq<NetworkInterface>)
    requires DetachRuns(es, listed)
    ensures Complete(es, Detach, listed)
    decreases |listed|
  {
    if listed != [] {
      var n := |listed| - 1;
      var before := if listed[n].attached then es[..|es| - 1] else es;
      DetachRunsComplete(before, listed[..n]);
      assert before + es[|before|..] == es;
      forall i | 0 <= i < |listed| && listed[i].attached ensures Settled(es, Detach, listed[i].id) {
        if i < n {
          assert listed[..n][i] == listed[i];
          SettledGrows(before, es[|before|..], Detach, listed[i].id);
        } else {
          assert SettledAt(es, |es| - 1, Detach, listed[i].id);
        }
      }
    }
  }

  method DetachNetworkInterfaces(ec2: Ec2, listed: seq<NetworkInterface>) returns (ok: bool, ghost es: seq<Event>)
    requires ec2.Valid() && ec2.turns != [] && ec2.Current().listed == listed
    modifies ec2`turns
    ensures ec2.Valid() && ec2.turns == old(ec2.With(es))
    ensures ok ==> DetachRuns(es, listed)
    ensures !ok ==> exists i, a :: 0 <= i < |listed| && DetachBroken(es, listed, i, a)
  {
    es := [];
    WithNothing(ec2.turns);
    for i := 0 to |listed|
      invariant ec2.Valid() && ec2.turns != [] && ec2.turns == old(ec2.With(es))
      invariant DetachRuns(es, listed[..i])
    {
      assert listed[..i + 1][..i] == listed[..i];
      if !listed[i].attached {
        continue;
      }
      assert ec2.Current().listed[i] == NetworkInterface(listed[i].id, true);
      var answer := ec2.Ask(Detach, listed[i].id);
      WithTwice(old(ec2.turns), es, [Event(Detach, listed[i].id, answer)]);
      ghost var before := es;
      es := es + [Event(Detach, listed[i].id, answer)];
      assert es[..|es| - 1] == before;
      JudgeSorts(Detach, answer);
      if Judge(Detach, answer) != Stop {
        assert DetachBroken(es, listed, i, answer);
        return false, es;
      }
      assert SettledAt(es, |es| - 1, Detach, listed[i].id);
    }
    assert listed[..|listed|] == listed;
    ok := true;
  }

  ghost predicate DetachBroken(es: seq<Event>, listed: seq<NetworkInterface>, i: nat, a: Answer)
    requires i < |listed|
  {
    && listed[i].attached && es != [] && !Settles(Detach, a)
    && es[|es| - 1] == Event(Detach, listed[i].id, a)
    && DetachRuns(es[..|es| - 1], listed[..i])
  }

  method WaitForDetached(ec2: Ec2, listed: seq<NetworkInterface>, maxRetries: nat)
    returns (result: Result, ghost es: seq<Event>)
    requires ec2.Valid() && ec2.turns != [] && ec2.Current().listed == listed
    requires Complete(ec2.Current().events, Detach, listed)
    modifies ec2`turns
    ensures ec2.Valid() && ec2.turns == old(ec2.With(es))
    ensures result.Ok? ==> Runs(es, PollAttachment, listed, maxRetries)
    ensures result.Err? ==> Stuck(es, PollAttachment, listed, maxRetries, result.error)
  {
    es := [];
    WithNothing(ec2.turns);
    for i := 0 to |listed|
      invariant ec2.Valid() && ec2.turns != [] && ec2.turns == old(ec2.With(es))
      invariant Runs(es, PollAttachment, listed[..i], maxRetries)
    {
      CompleteGrows(old(ec2.Current().events), es, Detach, listed);
      var outcome, more := DoWithRetry(ec2, PollAttachment, listed[i].id, maxRetries);
      WithTwice(old(ec2.turns), es, more);
      if outcome != Done {
        result := Err(if outcome == Exhausted then DetachedTimeout(listed[i].id) else AwsError);
        assert more[0..] == more;
        StuckHere(es, more, PollAttachment, listed, i, maxRetries, result.error);
        return result, es + more;
      }
      RunsOneMore(es, more, PollAttachment, listed, i, maxRetries);
      es := es + more;
    }
    assert listed[..|listed|] == listed;
    result := Ok;
  }

  method DeleteNetworkInterfaces(ec2: Ec2, listed: seq<NetworkInterface>, maxRetries: nat)
    returns (result: Result, ghost es: seq<Event>)
    requires ec2.Valid() && ec2.turns != [] && ec2.Current().listed == listed
    requires Complete(ec2.Current().events, PollAttachment, listed)
    modifies ec2`turns
    ensures ec2.Valid() && ec2.turns == old(ec2.With(es))
    ensures result.Ok? ==> Runs(es, Delete, listed, maxRetries)
    ensures result.Err? ==> Stuck(es, Delete, listed, maxRetries, result.error)
  {
    es := [];
    WithNothing(ec2.turns);
    for i := 0 to |listed|
      invariant ec2.Valid() && ec2.turns != [] && ec2.turns == old(ec2.With(es))
      invariant Runs(es, Delete, listed[..i], maxRetries)
    {
      CompleteGrows(old(ec2.Current().events), es, PollAttachment, listed);
      var outcome, more := DoWithRetry(ec2, Delete, listed[i].id, maxRetries);
      WithTwice(old(ec2.turns), es, more);
      if outcome != Done {
        result := Err(if outcome == Exhausted then MaxRetriesExceeded else AwsError);
        assert more[0..] == more;
        StuckHere(es, more, Delete, listed, i, maxRetries, result.error);
        return result, es + more;
      }
      RunsOneMore(es, more, Delete, listed, i, maxRetries);
      es := es + more;
    }
    assert listed[..|listed|] == listed;
    result := Ok;
  }

  method WaitForDeleted(ec2: Ec2, listed: seq<NetworkInterface>, maxRetries: nat)
    returns (result: Result, ghost es: seq<Event>)
    requires ec2.Valid() && ec2.turns != [] && ec2.Current().listed == listed
    requires Complete(ec2.Current().events, Delete, listed)
    modifies ec2`turns
    ensures ec2.Valid() && ec2.turns == old(ec2.With(es))
    ensures result.Ok? ==> Runs(es, PollExistence, listed, maxRetries)
    ensures result.Err? ==> Stuck(es, PollExistence, listed, maxRetries, result.error)
  {
    es := [];
    WithNothing(ec2.turns);
    for i := 0 to |listed|
      invariant ec2.Valid() && ec2.turns != [] && ec2.turns == old(ec2.With(es))
      invariant Runs(es, PollExistence, listed[..i], maxRetries)
    {
      CompleteGrows(old(ec2.Current().events), es, Delete, listed);
      var outcome, more := DoWithRetry(ec2, PollExistence, listed[i].id, maxRetries);
      WithTwice(old(ec2.turns), es, more);
      if outcome != Done {
        result := Err(if outcome == Exhausted then DeletedTimeout(listed[i].id) else AwsError);
        assert more[0..] == more;
        StuckHere(es, more, PollExistence, listed, i, maxRetries, result.error);
        return result, es + more;
      }
      RunsOneMore(es, more, PollExistence, listed, i, maxRetries);
      es := es + more;
    }
    assert listed[..|listed|] == listed;
    result := Ok;
  }

  // ---- one group ----

  /** The events of the four phases of one turn. */
  datatype Trail = Trail(detach: seq<Event>, await: seq<Event>, delete: seq<Event>, confirm: seq<Event>) {

    function Events(): seq<Event> {
      detach + await + delete + confirm
    }
  }

  /** What a result says about the phases: on success each ran through; on an error one got stuck and no later one
      began. */
  ghost predicate Explains(trail: Trail, listed: seq<NetworkInterface>, result: Result) {
    match result
    case Ok =>
      && DetachRuns(trail.detach, listed)
      && Runs(trail.await, PollAttachment, listed, 30)
      && Runs(trail.delete, Delete, listed, 30)
      && Runs(trail.confirm, PollExistence, listed, 30)
    case Err(error) =>
      if trail.await == [] then
        && error == AwsError && trail.delete == [] && trail.confirm == []
        && exists i, a :: 0 <= i < |listed| && DetachBroken(trail.detach, listed, i, a)
      else if trail.delete == [] then
        && DetachRuns(trail.detach, listed) && trail.confirm == []
        && Stuck(trail.await, PollAttachment, listed, 30, error)
      else if trail.confirm == [] then
        && DetachRuns(trail.detach, listed)
        && Runs(trail.await, PollAttachment, listed, 30)
        && Stuck(trail.delete, Delete, listed, 30, error)
      else
        && DetachRuns(trail.detach, listed)
        && Runs(trail.await, PollAttachment, listed, 30)
        && Runs(trail.delete, Delete, listed, 30)
        && Stuck(trail.confirm, PollExistence, listed, 30, error)
  }

  lemma StuckMadeCalls(es: seq<Event>, call: Call, listed: seq<NetworkInterface>, maxRetries: nat, error: Error)
    requires Stuck(es, call, listed, maxRetries, error)
    ensures es != [] && listed != []
  {
    var i, m :| 0 <= i < |listed| && 0 <= m <= |es| && StuckAt(es, i, m, call, listed, maxRetries, error);
  }

  lemma RunsMadeCalls(es: seq<Event>, call: Call, listed: seq<NetworkInterface>, maxRetries: nat)
    requires Runs(es, call, listed, maxRetries)
    ensures es == [] <==> listed == []
  {
  }

  method DeleteDependencies(ec2: Ec2, group: Id) returns (result: Result, ghost listing: seq<Turn>, ghost trail: Trail)
    requires ec2.Valid()
    modifies ec2`turns, ec2`listings
    ensures ec2.Valid() && ec2.turns == old(ec2.turns) + listing
    ensures ec2.listings == old(ec2.listings) + [Listing(group, listing != [])]
    ensures if listing == [] then result == Err(AwsError)
      else
        && |listing| == 1 && listing[0].group == group && listing[0].events == trail.Events()
        && Explains(trail, listing[0].listed, result)
    ensures result.Ok? ==> Complete(ec2.Current().events, PollExistence, ec2.Current().listed)
  {
    hide Runs, Stuck, DetachRuns, Complete;
    listing, trail := [], Trail([], [], [], []);
    var ok, listed := ec2.ListInterfaces(group);
    if !ok {
      return Err(AwsError), listing, trail;
    }
    ghost var t0 := Turn(group, listed, []);
    assert ec2.turns == old(ec2.turns) + [t0];
    ghost var es;
    ok, es := DetachNetworkInterfaces(ec2, listed);
    trail := trail.(detach := es);
    listing := [t0.Append(trail.Events())];
    assert trail.Events() == es;
    assert ec2.turns == old(ec2.turns) + listing;
    if !ok {
      return Err(AwsError), listing, trail;
    }
    DetachRunsComplete(es, listed);
    assert ec2.Current().events == es;
    if |listed| > 0 {
      result, es := WaitForDetached(ec2, listed, WAIT_MAX_RETRIES);
      trail := trail.(await := es);
      assert t0.Append(trail.detach).Append(es) == t0.Append(trail.Events());
      listing := [t0.Append(trail.Events())];
      assert ec2.turns == old(ec2.turns) + listing;
      if result.Err? {
        StuckMadeCalls(es, PollAttachment, listed, WAIT_MAX_RETRIES, result.error);
        return;
      }
    } else {
      NothingToRun(PollAttachment, listed);
    }
    RunsComplete(trail.await, PollAttachment, listed, WAIT_MAX_RETRIES);
    RunsMadeCalls(trail.await, PollAttachment, listed, WAIT_MAX_RETRIES);
    CompleteGrows(trail.detach, trail.await, PollAttachment, listed);
    assert trail.Events() == trail.detach + trail.await;
    assert ec2.Current().events == trail.Events();

    result, es := DeleteNetworkInterfaces(ec2, listed, WAIT_MAX_RETRIES);
    assert t0.Append(trail.Events()).Append(es) == t0.Append(trail.(delete := es).Events());
    trail := trail.(delete := es);
    listing := [t0.Append(trail.Events())];
    assert ec2.turns == old(ec2.turns) + listing;
    if result.Err? {
      StuckMadeCalls(es, Delete, listed, WAIT_MAX_RETRIES, result.error);
      return;
    }
    RunsComplete(es, Delete, listed, WAIT_MAX_RETRIES);
    RunsMadeCalls(es, Delete, listed, WAIT_MAX_RETRIES);
    CompleteGrows(trail.detach + trail.await, es, Delete, listed);
    assert trail.Events() == trail.detach + trail.await + es;
    assert ec2.Current().events == trail.Events();

    result, es := WaitForDeleted(ec2, listed, WAIT_MAX_RETRIES);
    trail := trail.(confirm := es);
    listing := [t0.Append(trail.Events())];
    assert t0.Append(trail.detach + trail.await + trail.delete).Append(es) == t0.Append(trail.Events());
    assert ec2.turns == old(ec2.turns) + listing;
    if result.Err? {
      StuckMadeCalls(es, PollExistence, listed, WAIT_MAX_RETRIES, result.error);
      return;
    }
    RunsComplete(es, PollExistence, listed, WAIT_MAX_RETRIES);
    CompleteGrows(trail.detach + trail.await + trail.delete, es, PollExistence, listed);
    assert ec2.Current().events == trail.detach + trail.await + trail.delete + es;
  }

  lemma NothingToRun(call: Call, listed: seq<NetworkInterface>)
    requires listed == []
    ensures Runs([], call, listed, WAIT_MAX_RETRIES)
  {
  }

  // ---- all groups ----

  /** The turn went through all phases and ended with this answer to the deletion of the group. */
  ghost predicate EndedWith(t: Turn, answer: Answer) {
    && t.events != [] && t.events[|t.events| - 1] == Event(DeleteGroup, t.group, answer)
  }

  ghost predicate AllDeleted(ts: seq<Turn>) {
    forall i :: 0 <= i < |ts| ==> EndedWith(ts[i], Good)
  }

  /** The turns belong to these groups, in this order. */
  ghost predicate TurnsOf(ts: seq<Turn>, groups: seq<Id>) {
    |ts| <= |groups| && forall i :: 0 <= i < |ts| ==> ts[i].group == groups[i]
  }

  /** The last group was already gone and ended the command. */
  ghost predicate EndedEarly(ts: seq<Turn>) {
    ts != [] && AllDeleted(ts[..|ts| - 1]) && EndedWith(ts[|ts| - 1], NotFound)
  }

  /** The group's turn got stuck with an error, or the group itself was not deleted. */
  ghost predicate TurnFailed(t: Turn) {
    || EndedWith(t, Failure) || EndedWith(t, NotYet)
    || exists trail: Trail, error: Error :: t.events == trail.Events() && Explains(trail, t.listed, Err(error))
  }

  datatype Removal = Removed | AlreadyGone | RemovalFailed

  /** The turn of one group: its dependencies, then the group. */
  method DeleteGroupWithDependencies(ec2: Ec2, group: Id) returns (removal: Removal, ghost listing: seq<Turn>)
    requires ec2.Valid()
    modifies ec2`turns, ec2`listings
    ensures ec2.Valid() && ec2.turns == old(ec2.turns) + listing && |listing| <= 1
    ensures ec2.listings == old(ec2.listings) + [Listing(group, listing != [])]
    ensures forall t :: t in listing ==> t.group == group
    ensures removal.RemovalFailed? ==> listing == [] || TurnFailed(listing[0])
    ensures removal.Removed? <==> listing != [] && EndedWith(listing[0], Good)
    ensures removal.AlreadyGone? <==> listing != [] && EndedWith(listing[0], NotFound)
  {
    hide Complete;
    ghost var trail;
    var result;
    result, listing, trail := DeleteDependencies(ec2, group);
    if result.Err? {
      if listing != [] {
        NoGroupDeleted(trail, listing[0].listed, result);
        assert Explains(trail, listing[0].listed, Err(result.error));
      }
      return RemovalFailed, listing;
    }
    var answer := ec2.Ask(DeleteGroup, group);
    listing := [listing[0].Append([Event(DeleteGroup, group, answer)])];
    removal := match answer case Good => Removed case NotFound => AlreadyGone case _ => RemovalFailed;
  }

  lemma {:induction false} OnlyCalls(es: seq<Event>, call: Call, listed: seq<NetworkInterface>, maxRetries: nat)
    requires Runs(es, call, listed, maxRetries)
    ensures forall e :: e in es ==> e.call == call
    decreases |listed|
  {
    if listed != [] {
      var m :| 0 <= m <= |es| && RunsTo(es, m, call, listed, maxRetries);
      OnlyCalls(es[..m], call, listed[..|listed| - 1], maxRetries);
      assert es == es[..m] + es[m..];
    }
  }

  lemma {:induction false} OnlyDetaches(es: seq<Event>, listed: seq<NetworkInterface>)
    requires DetachRuns(es, listed)
    ensures forall e :: e in es ==> e.call == Detach
    decreases |listed|
  {
    if listed != [] {
      var n := |listed| - 1;
      if listed[n].attached {
        OnlyDetaches(es[..|es| - 1], listed[..n]);
        assert es == es[..|es| - 1] + [es[|es| - 1]];
      } else {
        OnlyDetaches(es, listed[..n]);
      }
    }
  }

  lemma OnlyCallsWhenStuck(es: seq<Event>, call: Call, listed: seq<NetworkInterface>, maxRetries: nat, error: Error)
    requires Stuck(es, call, listed, maxRetries, error)
    ensures es != [] && es[|es| - 1].call == call
  {
    var i, m :| 0 <= i < |listed| && 0 <= m <= |es| && StuckAt(es, i, m, call, listed, maxRetries, error);
    assert es[m..][|es[m..]| - 1] == es[|es| - 1];
  }

  /** A turn that failed does not end with the deletion of its group. */
  lemma NoGroupDeleted(trail: Trail, listed: seq<NetworkInterface>, result: Result)
    requires result.Err? && Explains(trail, listed, result)
    ensures trail.Events() != [] && trail.Events()[|trail.Events()| - 1].call != DeleteGroup
  {
    hide Runs, DetachRuns, Stuck;
    if trail.await == [] {
      var i, a :| 0 <= i < |listed| && DetachBroken(trail.detach, listed, i, a);
      assert trail.Events() == trail.detach;
    } else if trail.delete == [] {
      OnlyCallsWhenStuck(trail.await, PollAttachment, listed, WAIT_MAX_RETRIES, result.error);
      assert trail.Events() == trail.detach + trail.await;
    } else if trail.confirm == [] {
      OnlyCallsWhenStuck(trail.delete, Delete, listed, WAIT_MAX_RETRIES, result.error);
      assert trail.Events() == trail.detach + trail.await + trail.delete;
    } else {
      OnlyCallsWhenStuck(trail.confirm, PollExistence, listed, WAIT_MAX_RETRIES, result.error);
    }
  }

  lemma OneMoreTurn(ts: seq<Turn>, more: seq<Turn>, groups: seq<Id>)
    requires TurnsOf(ts, groups) && |ts| < |groups| && AllDeleted(ts) && |more| <= 1
    requires forall t :: t in more ==> t.group == groups[|ts|]
    ensures TurnsOf(ts + more, groups)
    ensures AllDeleted(ts + more) <==> more == [] || EndedWith(more[0], Good)
    ensures EndedEarly(ts + more) <==> more != [] && EndedWith(more[0], NotFound)
  {
    hide EndedWith;
    if more != [] {
      assert (ts + more)[..|ts + more| - 1] == ts;
      assert (ts + more)[|ts|] == more[0];
      assert AllDeleted(ts + more) ==> EndedWith((ts + more)[|ts|], Good);
    } else {
      assert ts + more == ts;
      if ts != [] {
        assert EndedWith(ts[|ts| - 1], Good);
        OneAnswer(ts[|ts| - 1]);
      }
    }
  }

  lemma OneAnswer(t: Turn)
    ensures !(EndedWith(t, Good) && EndedWith(t, NotFound))
  {
  }

  /** The interfaces were listed for each group in turn; only the last listing may have failed, and then there is no
      turn for it. */
  ghost predicate ListedFor(listings: seq<Listing>, ts: seq<Turn>, groups: seq<Id>) {
    && |ts| <= |listings| <= |groups| && |listings| <= |ts| + 1
    && forall i :: 0 <= i < |listings| ==> listings[i] == Listing(groups[i], i < |ts|)
  }

  /** The groups of a command: the given one, and the ones that were looked up if they were. */
  function Groups(first: Id, lookup: Option<Lookup>): seq<Id> {
    [first] + if lookup.Some? && lookup.value.groups.Some? then lookup.value.groups.value else []
  }

  /** A listing failed, a turn did, or the lookup. */
  ghost predicate SomethingFailed(listings: seq<Listing>, ts: seq<Turn>, lookup: Option<Lookup>) {
    || |ts| < |listings|
    || (ts != [] && TurnFailed(ts[|ts| - 1]))
    || (lookup.Some? && lookup.value.groups.None?)
  }

  /** CleanupSecurityGroup, after authentication: the cluster's group first, then those of the load balancer controller,
      which are looked up once, and only after the first group was deleted. It succeeds exactly when every group was
      deleted, or when one was found gone, which ends it at once. */
  method CleanupSecurityGroup(ec2: Ec2, securityGroup: Id, vpc: Id, clusterId: Id)
    returns (ok: bool, ghost ts: seq<Turn>, ghost listings: seq<Listing>, ghost lookup: Option<Lookup>)
    requires ec2.Valid()
    modifies ec2
    ensures ec2.Valid() && ec2.turns == old(ec2.turns) + ts && ec2.listings == old(ec2.listings) + listings
    ensures ec2.lookups == old(ec2.lookups) + (if lookup.Some? then [lookup.value] else [])
    ensures lookup.Some? <==> ts != [] && EndedWith(ts[0], Good)
    ensures lookup.Some? ==>
      lookup.value.vpc == vpc && lookup.value.cluster == clusterId && lookup.value.after == |old(ec2.turns)| + 1
    ensures TurnsOf(ts, Groups(securityGroup, lookup)) && ListedFor(listings, ts, Groups(securityGroup, lookup))
    ensures ok <==>
      || EndedEarly(ts)
      || (lookup.Some? && lookup.value.groups.Some? && AllDeleted(ts) && |ts| == 1 + |lookup.value.groups.value|)
    ensures !ok ==> SomethingFailed(listings, ts, lookup)
  {
    hide Ordered, EndedWith, AllDeleted, EndedEarly, TurnsOf, TurnFailed;
    lookup := None;
    var removal;
    removal, ts := DeleteGroupWithDependencies(ec2, securityGroup);
    listings := [Listing(securityGroup, ts != [])];
    NoTurnsYet([securityGroup]);
    OneMoreTurn([], ts, [securityGroup]);
    assert [] + ts == ts;
    if removal != Removed {
      if ts != [] {
        OneAnswer(ts[0]);
      }
      assert Groups(securityGroup, lookup) == [securityGroup];
      return removal == AlreadyGone, ts, listings, lookup;
    }
    var found := ec2.LookupGroups(vpc, clusterId);
    lookup := Some(ec2.lookups[|ec2.lookups| - 1]);
    var ids := if found.Some? then found.value else [];
    ghost var all := Groups(securityGroup, lookup);
    MoreGroups(ts, securityGroup, ids);
    if found.None? {
      return false, ts, listings, lookup;
    }
    for i := 0 to |ids|
      invariant ec2.Valid() && ec2.turns == old(ec2.turns) + ts && ec2.listings == old(ec2.listings) + listings
      invariant ec2.lookups == old(ec2.lookups) + [lookup.value]
      invariant ListedFor(listings, ts, all) && |listings| == |ts| && ts != [] && EndedWith(ts[0], Good)
      invariant |ts| == 1 + i && TurnsOf(ts, all) && AllDeleted(ts) && !EndedEarly(ts)
    {
      ghost var more;
      removal, more := DeleteGroupWithDependencies(ec2, ids[i]);
      OneMoreTurn(ts, more, all);
      assert old(ec2.turns) + ts + more == old(ec2.turns) + (ts + more);
      if more == [] {
        assert ts + more == ts;
      }
      listings := listings + [Listing(ids[i], more != [])];
      ts := ts + more;
      if removal != Removed {
        return removal == AlreadyGone, ts, listings, lookup;
      }
      OneAnswer(more[0]);
    }
    ok := true;
  }

  lemma NoTurnsYet(groups: seq<Id>)
    ensures TurnsOf([], groups) && AllDeleted([])
  {
  }

  lemma MoreGroups(ts: seq<Turn>, first: Id, more: seq<Id>)
    requires TurnsOf(ts, [first])
    ensures TurnsOf(ts, [first] + more)
  {
  }
}
