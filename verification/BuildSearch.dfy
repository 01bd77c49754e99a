/** The search for the latest eksbuild tag, which tolerates gaps in the build numbers. */
module BuildSearch {

  const MAX_BUILD: nat := 100
  const MAX_MISSES: nat := 5

  /** What the registry says about one tag. */
  datatype Answer = Exists | Missing | QueryFails

  datatype Result = Base | Found(build: nat) | NoneFound | Failed

  predicate OccursAt(s: string, word: string, i: nat) {
    i + |word| <= |s| && s[i..i + |word|] == word
  }

  predicate Contains(s: string, word: string) {
    exists i: nat :: i <= |s| && OccursAt(s, word, i)
  }

  predicate Surrounds(s: string, pre: string, word: string, post: string) {
    s == pre + word + post
  }

  ghost predicate IsEksBuild(tagBase: string) {
    exists pre, post :: Surrounds(tagBase, pre, "eksbuild", post)
  }

  /** A text contains a word exactly if it is the word with something around it. */
  lemma ContainsIff(s: string, word: string)
    ensures Contains(s, word) <==> exists pre, post :: Surrounds(s, pre, word, post)
  {
    if Contains(s, word) {
      var i: nat :| i <= |s| && OccursAt(s, word, i);
      assert Surrounds(s, s[..i], word, s[i + |word|..]);
    }
    if pre, post :| Surrounds(s, pre, word, post) {
      assert OccursAt(s, word, |pre|);
    }
  }

  /** Every build in (lo, hi] is known to be missing. */
  predicate Absent(answer: nat -> Answer, lo: nat, hi: int) {
    forall b: nat :: lo < b <= hi ==> answer(b).Missing?
  }

  /** The least existing build that is followed by `misses` absent ones, or by none at all up to the limit. */
  predicate EndsAt(answer: nat -> Answer, limit: nat, misses: nat, r: nat) {
    && 1 <= r <= limit
    && answer(r).Exists?
    && Absent(answer, r, Min(limit, r + misses))
    && NoEndBelow(answer, limit, misses, r)
  }

  /** No existing build below n is followed by enough absent ones to end the search. */
  predicate NoEndBelow(answer: nat -> Answer, limit: nat, misses: nat, n: int) {
    forall q: nat :: 1 <= q < n && answer(q).Exists? ==> !Absent(answer, q, Min(limit, q + misses))
  }

  function Min(a: int, b: int): int {
    if a < b then a else b
  }

  /** findLatestEKSBuild: build numbers from one up, until enough misses in a row follow a hit. The number of queries
      made is returned too. */
  method FindLatestBuild(tagBase: string, answer: nat -> Answer, limit: nat, misses: nat)
    returns (result: Result, queries: nat)
    requires misses > 0
    ensures result.Base? <==> !IsEksBuild(tagBase)
    ensures queries <= limit && (result.Base? ==> queries == 0)
    ensures result.Found? ==>
      EndsAt(answer, limit, misses, result.build) && queries == Min(limit, result.build + misses)
    ensures result.NoneFound? ==> Absent(answer, 0, limit) && queries == limit
    ensures result.Failed? ==> 1 <= queries <= limit && answer(queries).QueryFails?
    ensures result.Failed? ==>
      && (forall b: nat :: 1 <= b < queries ==> !answer(b).QueryFails?)
      && NoEndBelow(answer, limit, misses, queries - misses)
    ensures !result.Failed? ==> forall b: nat :: 1 <= b <= queries ==> !answer(b).QueryFails?
  {
    queries := 0;
    ContainsIff(tagBase, "eksbuild");
    if !Contains(tagBase, "eksbuild") {
      return Base, 0;
    }
    var existing := 0;
    var consecutiveMisses := 0;
    while queries < limit
      invariant queries <= limit
      invariant consecutiveMisses == queries - existing && existing <= queries
      invariant existing > 0 ==> answer(existing).Exists? && consecutiveMisses < misses
      invariant Absent(answer, existing, queries)
      invariant NoEndBelow(answer, limit, misses, existing)
      invariant forall b: nat :: 1 <= b <= queries ==> !answer(b).QueryFails?
    {
      queries := queries + 1;
      match answer(queries)
      case QueryFails =>
        return Failed, queries;
      case Exists =>
        if existing > 0 {
          assert !Absent(answer, existing, Min(limit, existing + misses));
        }
        existing := queries;
        consecutiveMisses := 0;
      case Missing =>
        consecutiveMisses := consecutiveMisses + 1;
        if consecutiveMisses >= misses && existing != 0 {
          return Found(existing), queries;
        }
    }
    if existing != 0 {
      return Found(existing), queries;
    }
    return NoneFound, queries;
  }

  /** The answer is determined: no two builds meet the description. */
  lemma EndUnique(answer: nat -> Answer, limit: nat, misses: nat, r: nat, r': nat)
    requires misses > 0 && EndsAt(answer, limit, misses, r) && EndsAt(answer, limit, misses, r')
    ensures r == r'
  {
  }

  lemma {:induction false} EndFrom(answer: nat -> Answer, limit: nat, misses: nat, b: nat) returns (r: nat)
    requires misses > 0 && 1 <= b <= limit && answer(b).Exists?
    requires forall q: nat :: 1 <= q <= limit ==> !answer(q).QueryFails?
    requires NoEndBelow(answer, limit, misses, b)
    ensures EndsAt(answer, limit, misses, r)
    decreases limit - b
  {
    if Absent(answer, b, Min(limit, b + misses)) {
      r := b;
    } else {
      var c := NextExisting(answer, limit, b, Min(limit, b + misses));
      r := EndFrom(answer, limit, misses, c);
    }
  }

  /** There is one whenever any build exists and the registry answers. */
  lemma EndExists(answer: nat -> Answer, limit: nat, misses: nat, b: nat) returns (r: nat)
    requires misses > 0 && 1 <= b <= limit && answer(b).Exists?
    requires forall q: nat :: 1 <= q <= limit ==> !answer(q).QueryFails?
    ensures EndsAt(answer, limit, misses, r)
  {
    var first := FirstAfter(answer, 0, b);
    r := EndFrom(answer, limit, misses, first);
  }

  lemma {:induction false} NextExisting(answer: nat -> Answer, limit: nat, b: nat, hi: int) returns (c: nat)
    requires !Absent(answer, b, hi) && hi <= limit
    requires forall q: nat :: 1 <= q <= limit ==> !answer(q).QueryFails?
    ensures b < c <= hi && answer(c).Exists?
    ensures forall q: nat :: b < q < c ==> !answer(q).Exists?
    decreases hi - b
  {
    if answer(b + 1).Exists? {
      c := b + 1;
    } else {
      c := NextExisting(answer, limit, b + 1, hi);
    }
  }

  /** Two existing builds with at least `misses` absent ones, and nothing else, between them. */
  predicate LongGap(answer: nat -> Answer, limit: nat, misses: nat, p: nat, q: nat) {
    1 <= p < q <= limit && answer(p).Exists? && answer(q).Exists? && Absent(answer, p, q - 1) && q - p > misses
  }

  predicate GapsBelow(answer: nat -> Answer, limit: nat, misses: nat) {
    forall p: nat, q: nat :: p <= limit && q <= limit ==> !LongGap(answer, limit, misses, p, q)
  }

  lemma {:induction false} FirstAfter(answer: nat -> Answer, r: nat, q: nat) returns (c: nat)
    requires r < q && answer(q).Exists? && forall b: nat :: r < b <= q ==> !answer(b).QueryFails?
    ensures r < c <= q && answer(c).Exists? && Absent(answer, r, c - 1)
    decreases q - r
  {
    if answer(r + 1).Exists? {
      c := r + 1;
    } else {
      c := FirstAfter(answer, r + 1, q);
    }
  }

  /** With all gaps short enough the result is the latest build there is. */
  lemma LatestWhenGapsShort(answer: nat -> Answer, limit: nat, misses: nat, r: nat)
    requires misses > 0 && EndsAt(answer, limit, misses, r)
    requires forall b: nat :: 1 <= b <= limit ==> !answer(b).QueryFails?
    ensures GapsBelow(answer, limit, misses) ==> Absent(answer, r, limit)
    ensures Absent(answer, r, limit) ==> forall q: nat :: 1 <= q <= limit && answer(q).Exists? ==> q <= r
  {
    if !Absent(answer, r, limit) {
      var q := NextExisting(answer, limit, r, limit);
      var c := FirstAfter(answer, r, q);
      assert LongGap(answer, limit, misses, r, c);
    }
  }

  /** Behind a gap that is too long nothing is found. */
  lemma GapEndsSearch(answer: nat -> Answer, limit: nat, misses: nat, r: nat, p: nat, q: nat)
    requires misses > 0 && EndsAt(answer, limit, misses, r)
    requires LongGap(answer, limit, misses, p, q)
    ensures r <= p && !Absent(answer, r, limit)
  {
    assert Absent(answer, p, Min(limit, p + misses));
  }

  /** The search is exact precisely when all gaps are short. */
  lemma LatestIffGapsShort(answer: nat -> Answer, limit: nat, misses: nat, r: nat)
    requires misses > 0 && EndsAt(answer, limit, misses, r)
    requires forall b: nat :: 1 <= b <= limit ==> !answer(b).QueryFails?
    ensures Absent(answer, r, limit) <==> GapsBelow(answer, limit, misses)
  {
    hide EndsAt, LongGap, Absent;
    LatestWhenGapsShort(answer, limit, misses, r);
    if !GapsBelow(answer, limit, misses) {
      var p: nat, q: nat :| p <= limit && q <= limit && LongGap(answer, limit, misses, p, q);
      GapEndsSearch(answer, limit, misses, r, p, q);
    }
  }

  /** Builds one and seven exist. */
  function OneAndSeven(b: nat): Answer {
    if b == 1 || b == 7 then Exists else Missing
  }

  /** Then the search, as far as the program takes it, ends at build one. */
  lemma LaterBuildMissed()
    ensures EndsAt(OneAndSeven, 100, 5, 1) && OneAndSeven(7).Exists?
    ensures !GapsBelow(OneAndSeven, 100, 5)
  {
    assert LongGap(OneAndSeven, 100, 5, 1, 7);
  }

  /** The search with the program's own limits. */
  method FindLatestEksBuild(tagBase: string, answer: nat -> Answer) returns (result: Result, queries: nat)
    ensures result.Base? <==> !IsEksBuild(tagBase)
    ensures queries <= 100 && (result.Found? ==> EndsAt(answer, 100, 5, result.build))
    ensures result.NoneFound? ==> Absent(answer, 0, 100)
    ensures result.Failed? ==> 1 <= queries && answer(queries).QueryFails? && NoEndBelow(answer, 100, 5, queries - 5)
    ensures result.Found? && (forall b: nat :: 1 <= b <= 100 ==> !answer(b).QueryFails?) ==>
      (GapsBelow(answer, 100, 5) <==> forall q: nat :: 1 <= q <= 100 && answer(q).Exists? ==> q <= result.build)
  {
    result, queries := FindLatestBuild(tagBase, answer, MAX_BUILD, MAX_MISSES);
    if result.Found? && forall b: nat :: 1 <= b <= MAX_BUILD ==> !answer(b).QueryFails? {
      LatestIffGapsShort(answer, MAX_BUILD, MAX_MISSES, result.build);
      LatestWhenGapsShort(answer, MAX_BUILD, MAX_MISSES, result.build);
    }
  }
}
