/** Removing the `upstream` keyword from the CoreDNS configuration: one pass of replacing every match of
    `[\s]+upstream[\t\r\n]+` by a newline. */
module Corefile {
  import opened Strings

  const UPSTREAM := "upstream"

  predicate IsSpace(c: char) {
    c == '\t' || c == '\n' || c == '\U{000C}' || c == '\r' || c == ' '
  }

  predicate IsBreak(c: char) {
    c == '\t' || c == '\r' || c == '\n'
  }

  predicate AllSpace(s: string) {
    forall i :: 0 <= i < |s| ==> IsSpace(s[i])
  }

  predicate AllBreak(s: string) {
    forall i :: 0 <= i < |s| ==> IsBreak(s[i])
  }

  /** The text s[..j] is a match of the pattern whose word starts at a. */
  ghost predicate MatchesTo(s: string, a: nat, j: nat) {
    && 0 < a && a + 8 < j <= |s|
    && (forall k :: 0 <= k < a ==> s[k] in "\t\n\U{000C}\r ")
    && s[a..a + 8] == "upstream"
    && (forall k :: a + 8 <= k < j ==> s[k] in "\t\r\n")
  }

  function SpaceRun(s: string): (n: nat)
    ensures n <= |s| && AllSpace(s[..n]) && (n < |s| ==> !IsSpace(s[n]))
  {
    if s == "" || !IsSpace(s[0]) then 0 else 1 + SpaceRun(s[1..])
  }

  function BreakRun(s: string): (n: nat)
    ensures n <= |s| && AllBreak(s[..n]) && (n < |s| ==> !IsBreak(s[n]))
  {
    if s == "" || !IsBreak(s[0]) then 0 else 1 + BreakRun(s[1..])
  }

  /** The length of the match at the start of s, or zero. */
  function MatchLength(s: string): nat {
    var a := SpaceRun(s);
    if a == 0 || !(UPSTREAM <= s[a..]) then 0
    else
      var b := BreakRun(s[a + |UPSTREAM|..]);
      if b == 0 then 0 else a + |UPSTREAM| + b
  }

  /** The computed match is the pattern's: it exists when the pattern matches at the start, and is the longest. */
  lemma MatchLengthExact(s: string)
    ensures MatchLength(s) > 0 ==> MatchesTo(s, SpaceRun(s), MatchLength(s))
    ensures forall a: nat, j: nat :: MatchesTo(s, a, j) ==> 0 < MatchLength(s) && j <= MatchLength(s)
  {
    hide MatchesTo, MatchLength;
    forall a: nat, j: nat | MatchesTo(s, a, j)
      ensures 0 < MatchLength(s) && j <= MatchLength(s)
    {
      MatchBounded(s, a, j);
    }
    if MatchLength(s) > 0 {
      ComputedMatches(s);
    }
  }

  lemma ComputedMatches(s: string)
    requires MatchLength(s) > 0
    ensures MatchesTo(s, SpaceRun(s), MatchLength(s))
  {
    var n := SpaceRun(s);
    var behind := s[n + |UPSTREAM|..];
    var b := BreakRun(behind);
    assert s[n..][..|UPSTREAM|] == s[n..n + |UPSTREAM|];
    forall k | 0 <= k < n ensures IsSpace(s[k]) {
      assert s[..n][k] == s[k];
    }
    forall k | n + |UPSTREAM| <= k < MatchLength(s) ensures IsBreak(s[k]) {
      assert behind[..b][k - n - |UPSTREAM|] == s[k];
    }
  }

  lemma {:induction false} SpaceRunIs(w: string, t: string)
    requires AllSpace(w) && (t == "" || !IsSpace(t[0]))
    ensures SpaceRun(w + t) == |w|
    decreases |w|
  {
    if w == "" {
      assert w + t == t;
    } else {
      assert (w + t)[1..] == w[1..] + t;
      SpaceRunIs(w[1..], t);
    }
  }

  lemma {:induction false} BreakRunAtLeast(w: string, t: string)
    requires AllBreak(w)
    ensures BreakRun(w + t) == |w| + BreakRun(t)
    decreases |w|
  {
    if w == "" {
      assert w + t == t;
    } else {
      assert (w + t)[1..] == w[1..] + t;
      BreakRunAtLeast(w[1..], t);
    }
  }

  lemma MatchBounded(s: string, a: nat, j: nat)
    requires MatchesTo(s, a, j)
    ensures 0 < MatchLength(s) && j <= MatchLength(s)
  {
    var behind := s[a + |UPSTREAM|..];
    assert s[a..][..|UPSTREAM|] == s[a..a + |UPSTREAM|];
    assert s == s[..a] + s[a..];
    SpaceRunIs(s[..a], s[a..]);
    var b := s[a + |UPSTREAM|..j];
    assert behind == b + s[j..];
    BreakRunAtLeast(b, s[j..]);
    assert s[a..][|UPSTREAM|..] == behind;
  }

  /** ReplaceAllString: scan from the left; a match is replaced as a whole and scanning goes on behind it. */
  function Rewrite(s: string): string
    decreases |s|
  {
    if s == "" then ""
    else
      var n := MatchLength(s);
      if n > 0 && n <= |s| then "\n" + Rewrite(s[n..]) else [s[0]] + Rewrite(s[1..])
  }

  lemma MatchFits(s: string)
    ensures MatchLength(s) <= |s|
    ensures MatchLength(s) > 0 ==> MatchLength(s) >= 10 && s != ""
  {
  }

  // ---- what a pass does, without its recursion ----

  /** A piece of the text from one position to another. */
  datatype Cut = Cut(start: nat, end: nat)

  ghost predicate HasMatchTo(s: string, j: nat) {
    exists a: nat :: MatchesTo(s, a, j)
  }

  ghost predicate Matches(s: string, i: nat, j: nat) {
    i <= j <= |s| && HasMatchTo(s[i..], j - i)
  }

  ghost predicate MatchStarts(s: string, i: nat) {
    exists j: nat :: Matches(s, i, j)
  }

  /** The piece is a match, and no match from the same position is longer. */
  ghost predicate Longest(s: string, c: Cut) {
    Matches(s, c.start, c.end) && forall j: nat :: Matches(s, c.start, j) ==> j <= c.end
  }

  /** Where the stretch in front of cut k begins, if the first one does at p, and where it ends. */
  function StretchFrom(p: nat, cuts: seq<Cut>, k: nat): nat
    requires k <= |cuts|
  {
    if k == 0 then p else cuts[k - 1].end
  }

  function StretchTo(s: string, cuts: seq<Cut>, k: nat): nat {
    if k < |cuts| then cuts[k].start else |s|
  }

  ghost predicate NoMatchIn(s: string, from: nat, to: nat) {
    forall i: nat :: from <= i < to ==> !MatchStarts(s, i)
  }

  ghost predicate InOrder(s: string, p: nat, cuts: seq<Cut>) {
    forall k: nat :: k <= |cuts| ==> StretchFrom(p, cuts, k) <= StretchTo(s, cuts, k) <= |s|
  }

  /** The cuts are longest matches, one behind the other, and in the stretches between them no match starts. */
  ghost predicate LeftmostLongest(s: string, p: nat, cuts: seq<Cut>) {
    && (forall k :: 0 <= k < |cuts| ==> Longest(s, cuts[k]))
    && (forall k: nat :: k <= |cuts| ==> NoMatchIn(s, StretchFrom(p, cuts, k), StretchTo(s, cuts, k)))
  }

  ghost function Stretches(s: string, p: nat, cuts: seq<Cut>): seq<string>
    requires InOrder(s, p, cuts)
  {
    seq(|cuts| + 1, k requires 0 <= k <= |cuts| => s[StretchFrom(p, cuts, k)..StretchTo(s, cuts, k)])
  }

  /** t is s with its leftmost longest matches replaced by a line end each. */
  ghost predicate Replaces(s: string, t: string) {
    exists cuts :: InOrder(s, 0, cuts) && LeftmostLongest(s, 0, cuts) && t == Join(Stretches(s, 0, cuts), '\n')
  }

  lemma MatchesAt(s: string, p: nat)
    requires p <= |s|
    ensures MatchLength(s[p..]) == 0 <==> !MatchStarts(s, p)
    ensures MatchLength(s[p..]) > 0 ==>
      p + MatchLength(s[p..]) <= |s| && Longest(s, Cut(p, p + MatchLength(s[p..])))
  {
    hide MatchesTo, MatchLength;
    var n := MatchLength(s[p..]);
    MatchFits(s[p..]);
    MatchLengthExact(s[p..]);
    if n > 0 {
      assert MatchesTo(s[p..], SpaceRun(s[p..]), p + n - p);
      assert Matches(s, p, p + n);
    }
  }

  /** The cuts behind the first one, and those seen from one position on. */
  lemma CutsBehind(s: string, p: nat, cuts: seq<Cut>)
    requires cuts != [] && InOrder(s, p, cuts) && LeftmostLongest(s, p, cuts)
    ensures p <= cuts[0].start <= |s|
    ensures InOrder(s, cuts[0].end, cuts[1..]) && LeftmostLongest(s, cuts[0].end, cuts[1..])
    ensures Stretches(s, p, cuts) == [s[p..cuts[0].start]] + Stretches(s, cuts[0].end, cuts[1..])
  {
    hide Longest, NoMatchIn;
    assert StretchFrom(p, cuts, 0) <= StretchTo(s, cuts, 0) <= |s|;
    var rest, e := cuts[1..], cuts[0].end;
    forall k: nat | k <= |rest|
      ensures StretchFrom(e, rest, k) <= StretchTo(s, rest, k) <= |s|
      ensures NoMatchIn(s, StretchFrom(e, rest, k), StretchTo(s, rest, k))
    {
      assert StretchFrom(e, rest, k) == StretchFrom(p, cuts, k + 1);
      assert StretchTo(s, rest, k) == StretchTo(s, cuts, k + 1);
    }
    var all, behind := Stretches(s, p, cuts), Stretches(s, e, rest);
    forall k | 0 < k < |all| ensures all[k] == behind[k - 1] {
      assert StretchFrom(e, rest, k - 1) == StretchFrom(p, cuts, k);
      assert StretchTo(s, rest, k - 1) == StretchTo(s, cuts, k);
    }
  }

  lemma CutsFromNext(s: string, p: nat, cuts: seq<Cut>)
    requires InOrder(s, p, cuts) && LeftmostLongest(s, p, cuts) && p < StretchTo(s, cuts, 0)
    ensures InOrder(s, p + 1, cuts) && LeftmostLongest(s, p + 1, cuts)
    ensures var t := Stretches(s, p + 1, cuts); Stretches(s, p, cuts) == [[s[p]] + t[0]] + t[1..]
  {
    hide Longest;
    forall k: nat | k <= |cuts| ensures NoMatchIn(s, StretchFrom(p + 1, cuts, k), StretchTo(s, cuts, k)) {
      assert NoMatchIn(s, StretchFrom(p, cuts, k), StretchTo(s, cuts, k));
    }
    var all, rest := Stretches(s, p, cuts), Stretches(s, p + 1, cuts);
    forall k | 0 < k < |all| ensures all[k] == rest[k] {
      assert StretchFrom(p, cuts, k) == StretchFrom(p + 1, cuts, k);
    }
    assert all[0] == [s[p]] + rest[0];
  }

  lemma {:induction false} CutsMeanRewrite(s: string, p: nat, cuts: seq<Cut>)
    requires p <= |s| && InOrder(s, p, cuts) && LeftmostLongest(s, p, cuts)
    ensures Join(Stretches(s, p, cuts), '\n') == Rewrite(s[p..])
    decreases |s| - p
  {
    hide MatchLength, LeftmostLongest, Longest, InOrder, MatchStarts;
    var n := MatchLength(s[p..]);
    MatchesAt(s, p);
    FirstCut(s, p, cuts);
    if n > 0 {
      SameEnd(s, cuts[0], Cut(p, p + n));
      CutsBehind(s, p, cuts);
      CutsMeanRewrite(s, p + n, cuts[1..]);
      assert s[p..][n..] == s[p + n..];
    } else if p < |s| {
      CutsFromNext(s, p, cuts);
      CutsMeanRewrite(s, p + 1, cuts);
      assert s[p..][1..] == s[p + 1..];
      assert s[p..][0] == s[p];
    } else {
      assert Stretches(s, p, cuts) == [""];
    }
  }

  /** The first cut is at p exactly when a match starts there. */
  lemma FirstCut(s: string, p: nat, cuts: seq<Cut>)
    requires p <= |s| && InOrder(s, p, cuts) && LeftmostLongest(s, p, cuts)
    ensures MatchStarts(s, p) ==> cuts != [] && cuts[0].start == p && Longest(s, cuts[0])
    ensures !MatchStarts(s, p) && p < |s| ==> p < StretchTo(s, cuts, 0)
    ensures p == |s| ==> cuts == []
  {
    hide Longest, MatchesTo;
    assert NoMatchIn(s, StretchFrom(p, cuts, 0), StretchTo(s, cuts, 0));
    assert StretchFrom(p, cuts, 0) <= StretchTo(s, cuts, 0);
    if MatchStarts(s, p) {
      MatchesInside(s, p);
    }
    if cuts != [] {
      LongestInside(s, cuts[0]);
    }
  }

  lemma MatchesInside(s: string, i: nat)
    requires MatchStarts(s, i)
    ensures i < |s|
  {
  }

  lemma SameEnd(s: string, c: Cut, d: Cut)
    requires Longest(s, c) && Longest(s, d) && c.start == d.start
    ensures c == d
  {
    hide Matches;
  }

  lemma LongestInside(s: string, c: Cut)
    requires Longest(s, c)
    ensures c.start < c.end <= |s| && MatchStarts(s, c.start)
  {
  }

  lemma {:induction false} SomeCuts(s: string, p: nat) returns (cuts: seq<Cut>)
    requires p <= |s|
    ensures InOrder(s, p, cuts) && LeftmostLongest(s, p, cuts)
    decreases |s| - p
  {
    hide MatchLength, Longest;
    var n := MatchLength(s[p..]);
    MatchesAt(s, p);
    if p == |s| {
      cuts := [];
    } else if n > 0 {
      var rest := SomeCuts(s, p + n);
      LongestInside(s, Cut(p, p + n));
      cuts := [Cut(p, p + n)] + rest;
      OneCutMore(s, p, cuts);
    } else {
      cuts := SomeCuts(s, p + 1);
      OneCharacterMore(s, p, cuts);
    }
  }

  lemma OneCutMore(s: string, p: nat, cuts: seq<Cut>)
    requires cuts != [] && cuts[0].start == p && p <= cuts[0].end && Longest(s, cuts[0])
    requires InOrder(s, cuts[0].end, cuts[1..]) && LeftmostLongest(s, cuts[0].end, cuts[1..])
    ensures InOrder(s, p, cuts) && LeftmostLongest(s, p, cuts)
  {
    hide Longest;
    var rest, e := cuts[1..], cuts[0].end;
    forall k: nat | k <= |cuts|
      ensures StretchFrom(p, cuts, k) <= StretchTo(s, cuts, k) <= |s|
      ensures NoMatchIn(s, StretchFrom(p, cuts, k), StretchTo(s, cuts, k))
    {
      assert StretchFrom(e, rest, 0) <= StretchTo(s, rest, 0) <= |s|;
      if k > 0 {
        assert StretchFrom(p, cuts, k) == StretchFrom(e, rest, k - 1);
        assert StretchTo(s, cuts, k) == StretchTo(s, rest, k - 1);
      }
    }
  }

  lemma OneCharacterMore(s: string, p: nat, cuts: seq<Cut>)
    requires InOrder(s, p + 1, cuts) && LeftmostLongest(s, p + 1, cuts) && !MatchStarts(s, p)
    ensures InOrder(s, p, cuts) && LeftmostLongest(s, p, cuts)
  {
    hide Longest, MatchStarts;
    forall k: nat | k <= |cuts|
      ensures StretchFrom(p, cuts, k) <= StretchTo(s, cuts, k) <= |s|
      ensures NoMatchIn(s, StretchFrom(p, cuts, k), StretchTo(s, cuts, k))
    {
      assert NoMatchIn(s, StretchFrom(p + 1, cuts, k), StretchTo(s, cuts, k));
    }
  }

  /** A pass yields the text with its leftmost longest matches replaced, and that is the only such text. */
  lemma RewriteIffReplaces(s: string, t: string)
    ensures Replaces(s, t) <==> t == Rewrite(s)
  {
    hide LeftmostLongest, Stretches, Rewrite;
    assert s[0..] == s;
    if Replaces(s, t) {
      var cuts :| InOrder(s, 0, cuts) && LeftmostLongest(s, 0, cuts) && t == Join(Stretches(s, 0, cuts), '\n');
      CutsMeanRewrite(s, 0, cuts);
    }
    var cuts := SomeCuts(s, 0);
    CutsMeanRewrite(s, 0, cuts);
  }

  // ---- tokens ----

  function Flush(cur: string): seq<string> {
    if cur == "" then [] else [cur]
  }

  /** The whitespace-separated tokens of cur + s, where cur is the part of the current token already read. */
  function Scan(cur: string, s: string): seq<string>
    decreases |s|
  {
    if s == "" then Flush(cur)
    else if IsSpace(s[0]) then Flush(cur) + Scan("", s[1..])
    else Scan(cur + [s[0]], s[1..])
  }

  function Tokens(s: string): seq<string> {
    Scan("", s)
  }

  /** ys is xs with some "upstream" tokens deleted and nothing else changed. */
  predicate Drops(xs: seq<string>, ys: seq<string>) {
    if xs == [] then ys == []
    else
      || (ys != [] && xs[0] == ys[0] && Drops(xs[1..], ys[1..]))
      || (xs[0] == UPSTREAM && Drops(xs[1..], ys))
  }

  lemma {:induction false} ScanSpaces(cur: string, w: string, t: string)
    requires AllSpace(w) && w != ""
    ensures Scan(cur, w + t) == Flush(cur) + Scan("", t)
    decreases |w|
  {
    assert (w + t)[1..] == w[1..] + t;
    if |w| == 1 {
      assert w[1..] + t == t;
    } else {
      ScanSpaces("", w[1..], t);
    }
  }

  lemma {:induction false} ScanWord(cur: string, word: string, t: string)
    requires forall i :: 0 <= i < |word| ==> !IsSpace(word[i])
    ensures Scan(cur, word + t) == Scan(cur + word, t)
    decreases |word|
  {
    if word == "" {
      assert word + t == t && cur + word == cur;
    } else {
      assert (word + t)[1..] == word[1..] + t;
      ScanWord(cur + [word[0]], word[1..], t);
      assert cur + [word[0]] + word[1..] == cur + word;
    }
  }

  lemma BreaksAreSpace(s: string)
    requires AllBreak(s)
    ensures AllSpace(s)
  {
  }

  lemma ScanAround(cur: string, w: string, word: string, b: string, rest: string)
    requires AllSpace(w) && w != "" && AllSpace(b) && b != "" && word != ""
    requires forall i :: 0 <= i < |word| ==> !IsSpace(word[i])
    ensures Scan(cur, w + (word + (b + rest))) == Flush(cur) + [word] + Scan("", rest)
  {
    hide Scan;
    ScanSpaces(cur, w, word + (b + rest));
    ScanWord("", word, b + rest);
    assert "" + word == word;
    ScanSpaces(word, b, rest);
  }

  /** A text that starts with a match, cut into the whitespace, the keyword, the breaks and what follows. */
  lemma MatchParts(s: string) returns (w: string, b: string, rest: string)
    requires MatchLength(s) > 0
    ensures s == w + (UPSTREAM + (b + rest)) && |w| + |UPSTREAM| + |b| == MatchLength(s) <= |s|
    ensures rest == s[MatchLength(s)..]
    ensures AllSpace(w) && w != "" && AllBreak(b) && b != "" && (rest == "" || !IsBreak(rest[0]))
  {
    var a := SpaceRun(s);
    w := s[..a];
    var behind := s[a + |UPSTREAM|..];
    assert s[a..] == UPSTREAM + behind;
    var n := BreakRun(behind);
    b, rest := behind[..n], behind[n..];
    assert behind == b + rest;
    assert s == w + s[a..];
  }

  /** The tokens around a match. */
  lemma ScanMatch(cur: string, s: string)
    requires MatchLength(s) > 0
    ensures MatchLength(s) <= |s|
    ensures Scan(cur, s) == Flush(cur) + [UPSTREAM] + Scan("", s[MatchLength(s)..])
  {
    hide Scan, MatchLength;
    var w, b, rest := MatchParts(s);
    BreaksAreSpace(b);
    ScanAround(cur, w, UPSTREAM, b, rest);
  }

  lemma {:induction false} DropsPrefix(pre: seq<string>, xs: seq<string>, ys: seq<string>)
    requires Drops(xs, ys)
    ensures Drops(pre + xs, pre + ys)
  {
    if pre == [] {
      assert pre + xs == xs && pre + ys == ys;
    } else {
      DropsPrefix(pre[1..], xs, ys);
      assert (pre + xs)[1..] == pre[1..] + xs;
      assert (pre + ys)[1..] == pre[1..] + ys;
    }
  }

  lemma {:induction false} RewriteScan(cur: string, s: string)
    ensures Drops(Scan(cur, s), Scan(cur, Rewrite(s)))
    decreases |s|
  {
    hide MatchLength;
    MatchFits(s);
    var n := MatchLength(s);
    if s == "" {
      DropsPrefix(Flush(cur), [], []);
      assert Flush(cur) + [] == Flush(cur);
    } else if n > 0 {
      ScanMatch(cur, s);
      var rest := s[n..];
      RewriteScan("", rest);
      ScanSpaces(cur, "\n", Rewrite(rest));
      var xs, ys := Scan("", rest), Scan("", Rewrite(rest));
      assert ([UPSTREAM] + xs)[1..] == xs;
      assert Drops([UPSTREAM] + xs, ys);
      DropsPrefix(Flush(cur), [UPSTREAM] + xs, ys);
      assert Flush(cur) + [UPSTREAM] + xs == Flush(cur) + ([UPSTREAM] + xs);
    } else {
      assert Rewrite(s)[1..] == Rewrite(s[1..]);
      if IsSpace(s[0]) {
        RewriteScan("", s[1..]);
        DropsPrefix(Flush(cur), Scan("", s[1..]), Scan("", Rewrite(s[1..])));
      } else {
        RewriteScan(cur + [s[0]], s[1..]);
      }
    }
  }

  /** The configuration keeps its meaning: the pass deletes "upstream" tokens and touches no other token. */
  lemma RewriteKeepsTokens(s: string)
    ensures Drops(Tokens(s), Tokens(Rewrite(s)))
  {
    RewriteScan("", s);
  }

  // ---- repetition ----

  /** Some suffix of s starts with a match. */
  predicate HasMatch(s: string)
    decreases |s|
  {
    s != "" && (MatchLength(s) > 0 || HasMatch(s[1..]))
  }

  /** A pass shortens the text unless nothing matches, in which case it changes nothing. */
  lemma {:induction false} RewriteShortens(s: string)
    ensures HasMatch(s) ==> |Rewrite(s)| < |s|
    ensures !HasMatch(s) ==> Rewrite(s) == s
    ensures |Rewrite(s)| <= |s|
    decreases |s|
  {
    MatchFits(s);
    if s != "" {
      if MatchLength(s) > 0 {
        RewriteShortens(s[MatchLength(s)..]);
      } else {
        RewriteShortens(s[1..]);
        if !HasMatch(s) {
          assert s == [s[0]] + s[1..];
        }
      }
    }
  }

  /** Repeating the pass until nothing changes. */
  function Repeat(s: string): string
    decreases |s|
  {
    RewriteShortens(s);
    if Rewrite(s) == s then s else Repeat(Rewrite(s))
  }

  lemma {:induction false} DropsTrans(xs: seq<string>, ys: seq<string>, zs: seq<string>)
    requires Drops(xs, ys) && Drops(ys, zs)
    ensures Drops(xs, zs)
    decreases |xs|
  {
    if xs != [] {
      if xs[0] == UPSTREAM && Drops(xs[1..], ys) {
        DropsTrans(xs[1..], ys, zs);
      } else if zs != [] && ys[0] == zs[0] && Drops(ys[1..], zs[1..]) {
        DropsTrans(xs[1..], ys[1..], zs[1..]);
      } else {
        DropsTrans(xs[1..], ys[1..], zs);
      }
    }
  }

  lemma {:induction false} DropsSelf(xs: seq<string>)
    ensures Drops(xs, xs)
  {
    if xs != [] {
      DropsSelf(xs[1..]);
    }
  }

  /** Repetition ends in a text without any match, which still has all other tokens. */
  lemma {:induction false} RepeatReachesFixedPoint(s: string)
    ensures !HasMatch(Repeat(s)) && Rewrite(Repeat(s)) == Repeat(s)
    ensures Drops(Tokens(s), Tokens(Repeat(s)))
    decreases |s|
  {
    RewriteShortens(s);
    if Rewrite(s) == s {
      DropsSelf(Tokens(s));
    } else {
      RewriteKeepsTokens(s);
      RepeatReachesFixedPoint(Rewrite(s));
      DropsTrans(Tokens(s), Tokens(Rewrite(s)), Tokens(Repeat(s)));
    }
  }

  // ---- one pass is usually enough ----

  predicate NoTwins(xs: seq<string>) {
    forall i :: 0 <= i < |xs| - 1 ==> !(xs[i] == UPSTREAM && xs[i + 1] == UPSTREAM)
  }

  /** The text starts with the keyword and a break. */
  predicate Head(t: string) {
    |t| > |UPSTREAM| && t[..|UPSTREAM|] == UPSTREAM && IsBreak(t[|UPSTREAM|])
  }

  /** The text starts with whitespace and a second keyword that matches; the whitespace begins with a character that
      does not end a match, or it consists of characters that do. */
  predicate Chained(t: string) {
    MatchLength(t) > 0 && (!IsBreak(t[0]) || BreakRun(t) == SpaceRun(t))
  }

  predicate KeywordChained(u: string) {
    |u| >= |UPSTREAM| && u[..|UPSTREAM|] == UPSTREAM && Chained(u[|UPSTREAM|..])
  }

  /** Somewhere in the text two keywords follow each other so that one pass leaves one of them behind. */
  predicate HasTwin(s: string)
    decreases |s|
  {
    s != "" && ((IsSpace(s[0]) && KeywordChained(s[1..])) || HasTwin(s[1..]))
  }

  /** One more whitespace character in front. */
  lemma MatchCons(c: char, t: string)
    ensures MatchLength([c] + t) > 0 <==> IsSpace(c) && (MatchLength(t) > 0 || Head(t))
  {
    var s := [c] + t;
    assert s[1..] == t;
    if IsSpace(c) {
      var a := SpaceRun(t);
      assert SpaceRun(s) == a + 1;
      assert s[a + 1..] == t[a..];
      if UPSTREAM <= t[a..] {
        assert s[a + 1 + |UPSTREAM|..] == t[a + |UPSTREAM|..];
        assert t[a..][..|UPSTREAM|] == UPSTREAM;
      }
    }
  }

  lemma MatchConsAt(s: string)
    requires s != ""
    ensures MatchLength(s) > 0 <==> IsSpace(s[0]) && (MatchLength(s[1..]) > 0 || Head(s[1..]))
  {
    assert s == [s[0]] + s[1..];
    MatchCons(s[0], s[1..]);
  }

  /** A run of whitespace in front of a text adds a twin exactly when the text is a chained keyword. */
  lemma {:induction false} TwinBehindSpaces(w: string, t: string)
    requires AllSpace(w) && w != ""
    ensures HasTwin(w + t) <==> KeywordChained(t) || HasTwin(t)
    decreases |w|
  {
    assert (w + t)[1..] == w[1..] + t;
    if |w| == 1 {
      assert w[1..] + t == t;
    } else {
      TwinBehindSpaces(w[1..], t);
      assert IsSpace((w[1..] + t)[0]);
      assert !KeywordChained(w[1..] + t) by {
        if |w[1..] + t| >= |UPSTREAM| {
          assert (w[1..] + t)[..|UPSTREAM|][0] == w[1];
          assert UPSTREAM[0] == 'u';
        }
      }
    }
  }

  lemma {:induction false} TwinBehindWord(word: string, t: string)
    requires forall i :: 0 <= i < |word| ==> !IsSpace(word[i])
    ensures HasTwin(word + t) <==> HasTwin(t)
    decreases |word|
  {
    if word == "" {
      assert word + t == t;
    } else {
      assert (word + t)[1..] == word[1..] + t;
      TwinBehindWord(word[1..], t);
    }
  }

  lemma RewriteFirst(v: string)
    ensures Rewrite(v) != "" <==> v != ""
    ensures v != "" ==> (IsBreak(Rewrite(v)[0]) <==> IsBreak(v[0]) || MatchLength(v) > 0)
    ensures v != "" && !IsSpace(v[0]) ==> Rewrite(v) == [v[0]] + Rewrite(v[1..])
    ensures v != "" && IsSpace(v[0]) ==> IsSpace(Rewrite(v)[0])
  {
    MatchFits(v);
  }

  /** A pass copies a word, and the result starts with one exactly when the text does. */
  lemma {:induction false} RewriteWord(word: string, u: string)
    requires forall i :: 0 <= i < |word| ==> !IsSpace(word[i])
    ensures word <= Rewrite(u) <==> word <= u
    ensures word <= u ==> Rewrite(u) == word + Rewrite(u[|word|..])
    decreases |word|
  {
    hide Rewrite, MatchLength;
    RewriteFirst(u);
    if word == "" {
      assert u[0..] == u;
    } else if u != "" && word[0] == u[0] {
      RewriteWord(word[1..], u[1..]);
      assert word == [word[0]] + word[1..];
      assert Rewrite(u)[1..] == Rewrite(u[1..]);
      if word <= u {
        assert u[1..][|word[1..]|..] == u[|word|..];
      }
    }
  }

  lemma WordThenBreak(word: string, u: string)
    requires forall i :: 0 <= i < |word| ==> !IsSpace(word[i])
    ensures (|Rewrite(u)| > |word| && word <= Rewrite(u) && IsBreak(Rewrite(u)[|word|])) <==>
      (|u| > |word| && word <= u && (IsBreak(u[|word|]) || MatchLength(u[|word|..]) > 0))
  {
    hide Rewrite, MatchLength;
    RewriteWord(word, u);
    if word <= u {
      RewriteFirst(u[|word|..]);
    }
  }

  /** When the rewritten text starts with the keyword and a break. */
  lemma HeadRewritten(u: string)
    ensures Head(Rewrite(u)) <==>
      |u| > |UPSTREAM| && u[..|UPSTREAM|] == UPSTREAM && (IsBreak(u[|UPSTREAM|]) || MatchLength(u[|UPSTREAM|..]) > 0)
  {
    hide Rewrite, MatchLength;
    WordThenBreak(UPSTREAM, u);
  }

  /** The breaks that end a match chain it to what follows exactly when that is the keyword with a break. */
  lemma ChainedBreaks(b: string, rest: string)
    requires AllBreak(b) && b != "" && (rest == "" || !IsBreak(rest[0]))
    ensures Chained(b + rest) <==> Head(rest)
  {
    BreakRunAtLeast(b, rest);
    var t := b + rest;
    var a := SpaceRun(t);
    assert t[0] == b[0];
    assert t[|b|..] == rest;
    if |rest| >= |UPSTREAM| {
      assert t[|b| + |UPSTREAM|..] == rest[|UPSTREAM|..];
    }
    if Head(rest) {
      assert rest[0] == rest[..|UPSTREAM|][0];
      BreaksAreSpace(b);
      SpaceRunIs(b, rest);
      assert t[|b| + |UPSTREAM|..][0] == rest[|UPSTREAM|];
    }
  }

  /** A match at the start adds a twin exactly when the pass will leave a keyword directly behind it. */
  lemma TwinBehindMatch(s: string)
    requires MatchLength(s) > 0
    ensures MatchLength(s) <= |s|
    ensures HasTwin(s) <==> Head(Rewrite(s[MatchLength(s)..])) || HasTwin(s[MatchLength(s)..])
  {
    hide HasTwin, MatchLength, Rewrite;
    var w, b, rest := MatchParts(s);
    var behind := UPSTREAM + (b + rest);
    TwinBehindSpaces(w, behind);
    TwinBehindWord(UPSTREAM, b + rest);
    BreaksAreSpace(b);
    TwinBehindSpaces(b, rest);
    ChainedBreaks(b, rest);
    assert behind[..|UPSTREAM|] == UPSTREAM && behind[|UPSTREAM|..] == b + rest;
    HeadRewritten(rest);
  }

  lemma HasMatchCons(c: char, r: string)
    ensures HasMatch([c] + r) <==> (IsSpace(c) && Head(r)) || HasMatch(r)
  {
    MatchCons(c, r);
    assert ([c] + r)[1..] == r;
    if MatchLength(r) > 0 {
      MatchFits(r);
    }
  }

  /** One pass is enough exactly when the text has no twin. */
  lemma {:induction false} OnePassIffNoTwin(s: string)
    ensures HasMatch(Rewrite(s)) <==> HasTwin(s)
    decreases |s|
  {
    MatchFits(s);
    if s != "" {
      var n := MatchLength(s);
      if n > 0 {
        OnePassIffNoTwin(s[n..]);
        HasMatchCons('\n', Rewrite(s[n..]));
        TwinBehindMatch(s);
      } else {
        var u := s[1..];
        OnePassIffNoTwin(u);
        HasMatchCons(s[0], Rewrite(u));
        MatchConsAt(s);
        HeadRewritten(u);
      }
    }
  }

  lemma IdempotentIffNoTwin(s: string)
    ensures Rewrite(Rewrite(s)) == Rewrite(s) <==> !HasTwin(s)
  {
    OnePassIffNoTwin(s);
    RewriteShortens(Rewrite(s));
  }

  lemma NoTwinsSuffix(pre: seq<string>, xs: seq<string>)
    requires NoTwins(pre + xs)
    ensures NoTwins(xs)
  {
    forall i | 0 <= i < |xs| - 1 ensures !(xs[i] == UPSTREAM && xs[i + 1] == UPSTREAM) {
      assert (pre + xs)[|pre| + i] == xs[i];
      assert (pre + xs)[|pre| + i + 1] == xs[i + 1];
    }
  }

  lemma {:induction false} TwinInTokens(cur: string, s: string)
    requires NoTwins(Scan(cur, s))
    ensures !HasTwin(s)
    decreases |s|
  {
    if s != "" {
      var u := s[1..];
      if IsSpace(s[0]) {
        NoTwinsSuffix(Flush(cur), Scan("", u));
        TwinInTokens("", u);
        ChainedTokens(u);
      } else {
        TwinInTokens(cur + [s[0]], u);
      }
    }
  }

  lemma ChainedTokens(u: string)
    ensures KeywordChained(u) ==> !NoTwins(Tokens(u))
  {
    if KeywordChained(u) {
      var v := u[|UPSTREAM|..];
      assert u == UPSTREAM + v;
      ScanWord("", UPSTREAM, v);
      assert "" + UPSTREAM == UPSTREAM;
      ScanMatch(UPSTREAM, v);
      assert Tokens(u)[0] == UPSTREAM && Tokens(u)[1] == UPSTREAM;
    }
  }

  /** A text in which no two consecutive tokens are "upstream" is done after one pass. */
  lemma OnePassWithoutTwins(s: string)
    requires NoTwins(Tokens(s))
    ensures Rewrite(Rewrite(s)) == Rewrite(s) && !HasMatch(Rewrite(s))
  {
    TwinInTokens("", s);
    OnePassIffNoTwin(s);
    IdempotentIffNoTwin(s);
  }

  /** Two keywords on lines of their own, the second without indentation. */
  const TWO_LINES := " " + (UPSTREAM + ("\n" + (UPSTREAM + "\n")))

  /** On that text a second pass makes a further change. */
  lemma OnePassNotAlwaysEnough()
    ensures Rewrite(Rewrite(TWO_LINES)) != Rewrite(TWO_LINES)
  {
    hide Rewrite, MatchLength;
    var rest := UPSTREAM + "\n";
    var u := UPSTREAM + ("\n" + rest);
    assert rest[..|UPSTREAM|] == UPSTREAM && rest[0] == UPSTREAM[0];
    ChainedBreaks("\n", rest);
    assert u[..|UPSTREAM|] == UPSTREAM && u[|UPSTREAM|..] == "\n" + rest;
    assert TWO_LINES[1..] == u;
    IdempotentIffNoTwin(TWO_LINES);
  }
}
