/** Waiting for Kubernetes nodes by counting: as many nodes as were asked for, all ready. */
module NodeReadiness {
  import opened Collections

  datatype Status = True | False | Unknown

  datatype Condition = Condition(kind: string, status: Status)

  datatype Node = Node(name: string, conditions: seq<Condition>)

  const NODE_READY := "Ready"

  /** One answer of the API to a listing of the nodes. */
  datatype Answer = Nodes(nodes: seq<Node>) | ApiError

  datatype Result = Ready | ListingFailed | TimedOut

  /** The first condition of the ready kind decides; a node without one is not ready. */
  ghost predicate IsReady(node: Node) {
    exists i :: 0 <= i < |node.conditions| && ReadyAt(node.conditions, i)
  }

  ghost predicate ReadyAt(cs: seq<Condition>, i: nat)
    requires i < |cs|
  {
    && cs[i].kind == "Ready" && cs[i].status == True
    && forall j :: 0 <= j < i ==> cs[j].kind != "Ready"
  }

  method IsNodeReady(node: Node) returns (ready: bool)
    ensures ready <==> IsReady(node)
  {
    for i := 0 to |node.conditions|
      invariant forall j :: 0 <= j < i ==> node.conditions[j].kind != NODE_READY
    {
      if node.conditions[i].kind == NODE_READY {
        if node.conditions[i].status == True {
          assert ReadyAt(node.conditions, i);
        }
        return node.conditions[i].status == True;
      }
    }
    return false;
  }

  method AllNodesReady(nodes: seq<Node>) returns (all: bool)
    ensures all <==> forall i :: 0 <= i < |nodes| ==> IsReady(nodes[i])
  {
    for i := 0 to |nodes|
      invariant forall j :: 0 <= j < i ==> IsReady(nodes[j])
    {
      var ready := IsNodeReady(nodes[i]);
      if !ready {
        return false;
      }
    }
    return true;
  }

  function Filtered(nodes: seq<Node>, ids: seq<string>): seq<Node> {
    Keep(nodes, (node: Node) => node.name in ids)
  }

  method FilterNodesById(nodes: seq<Node>, ids: seq<string>) returns (filtered: seq<Node>)
    ensures filtered == Filtered(nodes, ids)
  {
    filtered := [];
    for i := 0 to |nodes|
      invariant filtered == Filtered(nodes[..i], ids)
    {
      assert nodes[..i + 1][..i] == nodes[..i];
      if nodes[i].name in ids {
        filtered := filtered + [nodes[i]];
      }
    }
    assert nodes[..|nodes|] == nodes;
  }

  /** The test the wait loop makes on a listing. */
  ghost predicate Counted(nodes: seq<Node>, ids: seq<string>) {
    && |Filtered(nodes, ids)| == |ids|
    && forall i :: 0 <= i < |Filtered(nodes, ids)| ==> IsReady(Filtered(nodes, ids)[i])
  }

  ghost predicate Passes(a: Answer, ids: seq<string>) {
    a.Nodes? && Counted(a.nodes, ids)
  }

  /** The body of the wait loop: enough nodes, all of them ready. */
  method CheckNodes(nodes: seq<Node>, ids: seq<string>) returns (passes: bool)
    ensures passes <==> Counted(nodes, ids)
  {
    var newNodes := FilterNodesById(nodes, ids);
    var allRegistered := |newNodes| == |ids|;
    var allReady := AllNodesReady(newNodes);
    passes := allRegistered && allReady;
  }

  /** `answers[i]` is what the API says the i-th time; the loop asks at most maxRetries times and sleeps after each
      time but a successful one. */
  method WaitForNodesReady(answers: seq<Answer>, ids: seq<string>, maxRetries: int) returns (result: Result, asked: nat)
    requires |answers| >= maxRetries
    ensures result.Ready? <==> exists i :: 0 <= i < maxRetries && Passes(answers[i], ids) &&
                                 forall j :: 0 <= j < i ==> answers[j].Nodes?
    ensures result.Ready? ==> 0 < asked <= maxRetries && Passes(answers[asked - 1], ids)
    ensures result.TimedOut? && maxRetries >= 0 ==> asked == maxRetries
    ensures result.TimedOut? ==> forall i :: 0 <= i < maxRetries ==> answers[i].Nodes? && !Passes(answers[i], ids)
  {
    asked := 0;
    while asked < maxRetries
      invariant maxRetries >= 0 ==> asked <= maxRetries
      invariant maxRetries < 0 ==> asked == 0
      invariant forall j :: 0 <= j < asked ==> answers[j].Nodes? && !Passes(answers[j], ids)
    {
      var answer := answers[asked];
      if answer.ApiError? {
        return ListingFailed, asked + 1;
      }
      var passes := CheckNodes(answer.nodes, ids);
      if passes {
        assert Passes(answers[asked], ids);
        return Ready, asked + 1;
      }
      asked := asked + 1;
    }
    return TimedOut, asked;
  }

  // ---- what counting shows ----

  function Names(nodes: seq<Node>): seq<string> {
    seq(|nodes|, i requires 0 <= i < |nodes| => nodes[i].name)
  }

  lemma FilteredMembers(nodes: seq<Node>, ids: seq<string>)
    ensures forall node :: node in Filtered(nodes, ids) <==> node in nodes && node.name in ids
    ensures NoDuplicates(Names(nodes)) ==> NoDuplicates(Names(Filtered(nodes, ids)))
  {
    var f := Filtered(nodes, ids);
    var at := KeptAt(nodes, (node: Node) => node.name in ids);
    forall node | node in nodes && node.name in ids ensures node in f {
      var k :| 0 <= k < |nodes| && nodes[k] == node;
      var i :| 0 <= i < |at| && at[i] == k;
      assert f[i] == node;
    }
    if NoDuplicates(Names(nodes)) {
      forall i, j | 0 <= i < j < |f| ensures Names(f)[i] != Names(f)[j] {
        assert Names(nodes)[at[i]] != Names(nodes)[at[j]];
      }
    }
  }

  /** A duplicate-free list of names, all taken from ids, is as long as ids only if ids has no duplicates and is
      covered. */
  lemma SameCount(names: seq<string>, ids: seq<string>)
    requires NoDuplicates(names) && Elements(names) <= Elements(ids)
    ensures |names| == |ids| <==> NoDuplicates(ids) && Elements(names) == Elements(ids)
  {
    ElementsSize(names);
    ElementsBound(ids);
    SubsetSize(Elements(names), Elements(ids));
    if |names| == |ids| {
      EqualSizeSubset(Elements(names), Elements(ids));
    }
    if NoDuplicates(ids) {
      ElementsSize(ids);
    }
  }

  /** A list has at most as many elements as entries, and exactly as many only if no entry is repeated. */
  lemma {:induction false} ElementsBound(ids: seq<string>)
    ensures |Elements(ids)| <= |ids|
    ensures |Elements(ids)| == |ids| ==> NoDuplicates(ids)
  {
    if ids != [] {
      var init, last := ids[..|ids| - 1], ids[|ids| - 1];
      assert ids == init + [last];
      ElementsBound(init);
      assert Elements(ids) == Elements(init) + {last};
      if last in Elements(init) {
        assert Elements(ids) == Elements(init);
      }
    }
  }

  ghost predicate RegisteredReady(nodes: seq<Node>, id: string) {
    exists i :: 0 <= i < |nodes| && nodes[i].name == id && IsReady(nodes[i])
  }

  /** With distinct node names the count passes if and only if no id is asked for twice and every id is the name of a
      registered node that is ready. In particular a list with a duplicate can only time out. */
  lemma CountingIsEnough(nodes: seq<Node>, ids: seq<string>)
    requires NoDuplicates(Names(nodes))
    ensures Counted(nodes, ids) <==> NoDuplicates(ids) && forall id :: id in ids ==> RegisteredReady(nodes, id)
  {
    FilteredMembers(nodes, ids);
    var f := Filtered(nodes, ids);
    forall x | x in Elements(Names(f)) ensures x in Elements(ids) {
      var i :| 0 <= i < |f| && Names(f)[i] == x;
      assert f[i] in f;
    }
    SameCount(Names(f), ids);
    if Counted(nodes, ids) {
      forall id | id in ids ensures RegisteredReady(nodes, id) {
        assert id in Elements(Names(f));
        var i :| 0 <= i < |f| && Names(f)[i] == id;
        assert f[i] in nodes;
        var k :| 0 <= k < |nodes| && nodes[k] == f[i];
      }
    }
    if NoDuplicates(ids) && forall id :: id in ids ==> RegisteredReady(nodes, id) {
      AllFound(nodes, ids);
    }
  }

  lemma AllFound(nodes: seq<Node>, ids: seq<string>)
    requires NoDuplicates(Names(nodes)) && forall id :: id in ids ==> RegisteredReady(nodes, id)
    ensures Elements(ids) <= Elements(Names(Filtered(nodes, ids)))
    ensures forall i :: 0 <= i < |Filtered(nodes, ids)| ==> IsReady(Filtered(nodes, ids)[i])
  {
    FilteredMembers(nodes, ids);
    var f := Filtered(nodes, ids);
    forall id | id in ids ensures id in Elements(Names(f)) {
      var i :| 0 <= i < |nodes| && nodes[i].name == id && IsReady(nodes[i]);
      assert nodes[i] in f;
      var k :| 0 <= k < |f| && f[k] == nodes[i];
      assert Names(f)[k] == id;
    }
    forall i | 0 <= i < |f| ensures IsReady(f[i]) {
      assert f[i] in f;
      var k :| 0 <= k < |nodes| && nodes[k] == f[i];
      var m :| 0 <= m < |nodes| && nodes[m].name == f[i].name && IsReady(nodes[m]);
      assert Names(nodes)[k] == Names(nodes)[m];
      assert k == m;
    }
  }
}
