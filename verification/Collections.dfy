/** Facts about finite sets and duplicate-free lists, and the two list helpers of go-commons that the
    repository calls: membership and splitting a list into batches. */
module Collections {

  datatype Option<T> = None | Some(value: T)

  /** The set of elements of a list. */
  function Elements<T>(s: seq<T>): set<T> {
    set x | x in s
  }

  ghost predicate NoDuplicates<T>(s: seq<T>) {
    forall i, j :: 0 <= i < j < |s| ==> s[i] != s[j]
  }

  /** A duplicate-free listing of a set, in whatever order the answering service likes. */
  ghost predicate Lists<T>(s: seq<T>, xs: set<T>) {
    NoDuplicates(s) && Elements(s) == xs
  }

  lemma {:induction false} ElementsSize<T>(s: seq<T>)
    requires NoDuplicates(s)
    ensures |Elements(s)| == |s|
  {
    if s == [] {
      assert Elements(s) == {};
    } else {
      var init, last := s[..|s| - 1], s[|s| - 1];
      ElementsSize(init);
      assert s == init + [last];
      assert last !in Elements(init);
      assert Elements(s) == Elements(init) + {last};
    }
  }

  lemma {:induction false} SubsetSize<T>(a: set<T>, b: set<T>)
    requires a <= b
    ensures |a| <= |b|
  {
    assert b == a + (b - a);
    assert a !! (b - a);
  }

  lemma UnionSize<T>(a: set<T>, b: set<T>)
    ensures |a + b| <= |a| + |b|
  {
    assert a + b == a + (b - a);
    assert |a + b| == |a| + |b - a|;
    SubsetSize(b - a, b);
  }

  lemma EqualSizeSubset<T>(a: set<T>, b: set<T>)
    requires a <= b && |a| >= |b|
    ensures a == b
  {
    if x :| x in b && x !in a {
      SubsetSize(a, b - {x});
    }
  }

  /** Every set has a duplicate-free listing. */
  lemma {:induction false} ListingExists<T>(xs: set<T>) returns (s: seq<T>)
    ensures Lists(s, xs)
  {
    if xs == {} {
      s := [];
    } else {
      var x :| x in xs;
      var rest := ListingExists(xs - {x});
      s := [x] + rest;
      assert Elements(s) == {x} + Elements(rest);
    }
  }

  /** The elements with a property, in order. */
  function Keep<T>(s: seq<T>, p: T -> bool): seq<T> {
    if s == [] then []
    else
      var n := |s| - 1;
      Keep(s[..n], p) + (if p(s[n]) then [s[n]] else [])
  }

  /** `at` lists the positions in s, in order, of the elements of `kept`. */
  ghost predicate Picks<T>(s: seq<T>, at: seq<nat>, kept: seq<T>) {
    && |at| == |kept|
    && (forall i :: 0 <= i < |at| ==> at[i] < |s| && kept[i] == s[at[i]])
    && (forall i, j :: 0 <= i < j < |at| ==> at[i] < at[j])
  }

  lemma PicksGrow<T>(s: seq<T>, at: seq<nat>, kept: seq<T>)
    requires s != [] && Picks(s[..|s| - 1], at, kept)
    ensures Picks(s, at, kept) && Picks(s, at + [|s| - 1], kept + [s[|s| - 1]])
  {
    forall i | 0 <= i < |at| ensures at[i] < |s| - 1 && kept[i] == s[at[i]] {
      assert s[..|s| - 1][at[i]] == s[at[i]];
    }
  }

  /** It consists of the elements at exactly the positions where the property holds, each once and in their order. */
  lemma {:induction false} KeptAt<T>(s: seq<T>, p: T -> bool) returns (at: seq<nat>)
    ensures Picks(s, at, Keep(s, p))
    ensures forall k: nat :: k < |s| ==> (p(s[k]) <==> k in at)
  {
    if s == [] {
      at := [];
    } else {
      hide Picks;
      var n := |s| - 1;
      var before := KeptAt(s[..n], p);
      PicksGrow(s, before, Keep(s[..n], p));
      PositionsBelow(s[..n], before, Keep(s[..n], p));
      at := if p(s[n]) then before + [n] else before;
      assert Keep(s[..n], p) + [] == Keep(s[..n], p);
      forall k: nat | k < n ensures p(s[k]) <==> k in at {
        assert s[..n][k] == s[k];
      }
    }
  }

  lemma PositionsBelow<T>(s: seq<T>, at: seq<nat>, kept: seq<T>)
    requires Picks(s, at, kept)
    ensures |s| !in at
  {
  }

  /** The end of the batch that starts at position k. */
  function BatchEnd(n: nat, k: nat, size: nat): (e: nat)
    requires size > 0 && k <= n
    ensures k <= e <= n && e - k <= size && (k < n ==> k < e)
  {
    if n - k <= size then n else k + size
  }

  /** The elements of a list in order, cut into groups of at most `size`. */
  function Batches<T>(s: seq<T>, size: nat): seq<seq<T>>
    requires size > 0
    decreases |s|
  {
    if s == [] then []
    else
      var e := BatchEnd(|s|, 0, size);
      [s[..e]] + Batches(s[e..], size)
  }

  /** The batches of what is left of a list, from position k on. */
  lemma FirstBatch<T>(s: seq<T>, k: nat, size: nat)
    requires size > 0 && k <= |s|
    ensures Batches(s[k..], size) == [] <==> k == |s|
    ensures k < |s| ==> var e := BatchEnd(|s|, k, size);
      Batches(s[k..], size) == [s[k..e]] + Batches(s[e..], size)
  {
    if k < |s| {
      var e := BatchEnd(|s|, k, size);
      assert s[k..][..e - k] == s[k..e] && s[k..][e - k..] == s[e..];
    }
  }

  function Flatten<T>(ss: seq<seq<T>>): seq<T> {
    if ss == [] then [] else ss[0] + Flatten(ss[1..])
  }

  /** Batches are an ordered partition: nothing is lost, repeated or reordered, no batch is empty, none is
      over the limit, and only the last may be short of it. */
  lemma {:induction false} BatchesPartition<T>(s: seq<T>, size: nat)
    requires size > 0
    ensures Flatten(Batches(s, size)) == s
    ensures forall i :: 0 <= i < |Batches(s, size)| ==> 0 < |Batches(s, size)[i]| <= size
    ensures forall i :: 0 <= i < |Batches(s, size)| - 1 ==> |Batches(s, size)[i]| == size
    decreases |s|
  {
    if s != [] {
      var e := BatchEnd(|s|, 0, size);
      BatchesPartition(s[e..], size);
      assert s == s[..e] + s[e..];
    }
  }
}
