/** Listings that an API hands out page by page. */
module Paging {
  import opened Collections

  datatype Page<T> = Page(items: seq<T>, next: Option<nat>)

  /** An API with a fixed listing, of which the first `served` pages can be had before a request fails: each answer
      holds a page and, unless it is the last, the token of the next one. */
  class Listing<T> {
    const pages: seq<seq<T>>
    const served: nat

    constructor (pages: seq<seq<T>>, served: nat)
      requires pages != [] && served <= |pages|
      ensures this.pages == pages && this.served == served
    {
      this.pages, this.served := pages, served;
    }

    predicate Complete() {
      served == |pages|
    }

    method Fetch(token: Option<nat>) returns (page: Option<Page<T>>)
      requires served <= |pages| && Position(token) < |pages|
      ensures page.Some? <==> Position(token) < served
      ensures page.Some? ==> page.value.items == pages[Position(token)]
      ensures page.Some? ==>
        page.value.next == if Position(token) + 1 == |pages| then None else Some(Position(token) + 1)
    {
      var k := Position(token);
      page := if k < served then Some(Page(pages[k], if k + 1 == |pages| then None else Some(k + 1))) else None;
    }

    static function Position(token: Option<nat>): nat {
      if token.None? then 0 else token.value
    }
  }

  lemma {:induction false} FlattenAppend<T>(ss: seq<seq<T>>, s: seq<T>)
    ensures Flatten(ss + [s]) == Flatten(ss) + s
  {
    if ss == [] {
      assert Flatten([s]) == s + Flatten([]);
    } else {
      FlattenAppend(ss[1..], s);
      assert (ss + [s])[1..] == ss[1..] + [s];
    }
  }

  lemma {:induction false} FlattenHas<T>(ss: seq<seq<T>>, i: nat, x: T)
    requires i < |ss| && x in ss[i]
    ensures x in Flatten(ss)
  {
    if i > 0 {
      FlattenHas(ss[1..], i - 1, x);
    }
  }

  lemma HalvesDisjoint<T>(head: seq<T>, rest: seq<T>)
    requires NoDuplicates(head + rest)
    ensures NoDuplicates(rest)
    ensures forall a, b :: 0 <= a < |head| && 0 <= b < |rest| ==> head[a] != rest[b]
  {
    var all := head + rest;
    forall a, b | 0 <= a < |head| && 0 <= b < |rest| ensures head[a] != rest[b] {
      assert all[a] != all[|head| + b];
    }
    forall a, b | 0 <= a < b < |rest| ensures rest[a] != rest[b] {
      assert all[|head| + a] != all[|head| + b];
    }
  }

  /** No element of a list without duplicates lies in two of the parts it was cut into. */
  lemma {:induction false} PartsDisjoint<T>(ss: seq<seq<T>>, i: nat, j: nat, x: T)
    requires i < |ss| && j < |ss| && x in ss[i] && x in ss[j] && NoDuplicates(Flatten(ss))
    ensures i == j
  {
    HalvesDisjoint(ss[0], Flatten(ss[1..]));
    if i > 0 && j > 0 {
      PartsDisjoint(ss[1..], i - 1, j - 1, x);
    } else if i > 0 {
      FlattenHas(ss[1..], i - 1, x);
      assert false;
    } else if j > 0 {
      FlattenHas(ss[1..], j - 1, x);
      assert false;
    }
  }
}
