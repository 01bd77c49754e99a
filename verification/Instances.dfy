/** Looking up and terminating instances. */
module Instances {
  import opened Collections
  import opened Paging

  type Id = string

  const TERMINATE_LIMIT: nat := 1000

  datatype Instance = Instance(id: Id, privateDnsName: string)

  /** One page of DescribeInstances: reservations, each with some instances. */
  method InstanceDetailsFromIds(api: Listing<seq<Instance>>) returns (instances: Option<seq<Instance>>)
    requires api.pages != [] && api.served <= |api.pages|
    ensures instances.Some? <==> api.Complete()
    ensures instances.Some? ==> instances.value == Flatten(Flatten(api.pages))
  {
    var found: seq<Instance> := [];
    var token: Option<nat> := None;
    ghost var read := 0;
    while true
      invariant read < |api.pages| && read <= api.served && Listing<seq<Instance>>.Position(token) == read
      invariant found == Flatten(Flatten(api.pages[..read]))
      decreases |api.pages| - read
    {
      var page := api.Fetch(token);
      if page.None? {
        return None;
      }
      var reservations := page.value.items;
      assert Flatten(api.pages[..read]) + reservations[..0] == Flatten(api.pages[..read]);
      for i := 0 to |reservations|
        invariant found == Flatten(Flatten(api.pages[..read]) + reservations[..i])
      {
        FlattenAppend(Flatten(api.pages[..read]) + reservations[..i], reservations[i]);
        assert Flatten(api.pages[..read]) + reservations[..i] + [reservations[i]]
            == Flatten(api.pages[..read]) + reservations[..i + 1];
        found := found + reservations[i];
      }
      assert reservations[..|reservations|] == reservations;
      FlattenAppend(api.pages[..read], reservations);
      assert api.pages[..read] + [reservations] == api.pages[..read + 1];
      if page.value.next.None? {
        assert api.pages[..read + 1] == api.pages;
        return Some(found);
      }
      token := page.value.next;
      read := read + 1;
    }
  }

  /** MultipleTerminateInstanceErrors, with the receivers it has: AddError works on a copy. */
  datatype TerminateErrors = TerminateErrors(errors: seq<string>) {

    method AddError(newError: string) {
      var copy := this;
      copy := copy.(errors := copy.errors + [newError]);
    }

    predicate IsEmpty() {
      errors == []
    }
  }

  /** One batch: the request and, if that was accepted, the wait for the instances to be terminated. */
  datatype Attempt = Attempt(batch: seq<Id>, accepted: bool, awaited: Option<bool>) {

    predicate Terminated() {
      awaited == Some(true)
    }
  }

  class Ec2 {
    ghost var attempts: seq<Attempt>

    constructor ()
      ensures attempts == []
    {
      attempts := [];
    }

    /** A request names at most a thousand instances. */
    method Terminate(batch: seq<Id>) returns (ok: bool)
      requires |batch| <= 1000
      modifies this
      ensures attempts == old(attempts) + [Attempt(batch, ok, None)]
    {
      ok := *;
      attempts := attempts + [Attempt(batch, ok, None)];
    }

    method WaitUntilTerminated(batch: seq<Id>) returns (ok: bool)
      requires attempts != [] && attempts[|attempts| - 1] == Attempt(batch, true, None)
      modifies this
      ensures attempts == old(attempts[..|attempts| - 1]) + [Attempt(batch, true, Some(ok))]
    {
      ok := *;
      attempts := attempts[..|attempts| - 1] + [Attempt(batch, true, Some(ok))];
    }
  }

  /** The attempts are for the batches of the list, in order, and each that was accepted was waited for. */
  ghost predicate Covers(attempts: seq<Attempt>, batches: seq<seq<Id>>) {
    && |attempts| == |batches|
    && forall i :: 0 <= i < |batches| ==>
      attempts[i].batch == batches[i]
      && (attempts[i].accepted <==> attempts[i].awaited.Some?)
  }

  /** terminateInstances: every batch is attempted, whatever happened to the ones before, and whatever happened to any
      of them, the result is success. */
  method TerminateInstances(ec2: Ec2, ids: seq<Id>) returns (ok: bool)
    modifies ec2
    ensures old(ec2.attempts) <= ec2.attempts
    ensures Covers(ec2.attempts[|old(ec2.attempts)|..], Batches(ids, 1000))
    ensures ok
  {
    var errors := TerminateErrors([]);
    var batches := Batches(ids, TERMINATE_LIMIT);
    ghost var before := ec2.attempts;
    BatchesPartition(ids, TERMINATE_LIMIT);
    assert ec2.attempts[|before|..] == [] && batches[..0] == [];
    for i := 0 to |batches|
      invariant before <= ec2.attempts && Covers(ec2.attempts[|before|..], batches[..i])
    {
      var done := ec2.Terminate(batches[i]);
      if !done {
        errors.AddError("terminate");
        continue;
      }
      done := ec2.WaitUntilTerminated(batches[i]);
      if !done {
        errors.AddError("wait");
        continue;
      }
    }
    assert batches[..|batches|] == batches;
    ok := errors.IsEmpty();
  }

  /** The instance is in a batch that was accepted and seen terminated. */
  ghost predicate KnownTerminated(attempts: seq<Attempt>, id: Id) {
    exists i :: 0 <= i < |attempts| && attempts[i].Terminated() && id in attempts[i].batch
  }

  /** What success does not say: all instances are known to be terminated exactly when every request and every wait
      succeeded. All were attempted, in batches no larger than the limit. */
  lemma TerminatedIffAllSucceeded(attempts: seq<Attempt>, ids: seq<Id>)
    requires Covers(attempts, Batches(ids, 1000)) && NoDuplicates(ids)
    ensures (forall id :: id in ids ==> KnownTerminated(attempts, id)) <==>
      forall i :: 0 <= i < |attempts| ==> attempts[i].Terminated()
    ensures forall i :: 0 <= i < |attempts| ==> 0 < |attempts[i].batch| <= 1000
    ensures forall id :: id in ids ==> exists i :: 0 <= i < |attempts| && id in attempts[i].batch
  {
    var batches := Batches(ids, 1000);
    BatchesPartition(ids, 1000);
    forall id | id in ids ensures exists i :: 0 <= i < |attempts| && id in attempts[i].batch {
      var i := PartOf(batches, id);
      assert id in attempts[i].batch;
    }
    forall i | 0 <= i < |attempts| && (forall id :: id in ids ==> KnownTerminated(attempts, id))
      ensures attempts[i].Terminated()
    {
      var id := batches[i][0];
      FlattenHas(batches, i, id);
      var j :| 0 <= j < |attempts| && attempts[j].Terminated() && id in attempts[j].batch;
      PartsDisjoint(batches, i, j, id);
    }
  }

  lemma {:induction false} PartOf(parts: seq<seq<Id>>, x: Id) returns (i: nat)
    requires x in Flatten(parts)
    ensures i < |parts| && x in parts[i]
  {
    if x in parts[0] {
      i := 0;
    } else {
      i := PartOf(parts[1..], x);
      i := i + 1;
    }
  }
}
