/** The default number of retries of the deployment's wait loops. Durations are in nanoseconds. */
module RetryBudget {

  const SECOND: int := 1_000_000_000

  /** Go's integer division and truncation go toward zero. */
  function TruncDiv(a: int, b: int): int
    requires b != 0
  {
    if (a >= 0) == (b > 0) || a == 0 then Abs(a) / Abs(b) else -(Abs(a) / Abs(b))
  }

  function Abs(a: int): int {
    if a < 0 then -a else a
  }

  /** Waves of ten instances, rounded up. */
  function NumWaves(scaleUpCount: int): int {
    if scaleUpCount > 0 then (scaleUpCount + 9) / 10 else TruncDiv(scaleUpCount, 10)
  }

  /** A sleep of less than a second makes the program divide by zero. */
  datatype Budget = Panics | Retries(count: int)

  function DefaultMaxRetries(scaleUpCount: int, sleep: int): Budget {
    var seconds := TruncDiv(sleep, SECOND);
    if seconds == 0 then Panics
    else Retries(TruncDiv(NumWaves(scaleUpCount) * 600, seconds))
  }

  function EnsureMaxRetries(maxRetries: int, sleep: int, originalCapacity: int): Budget {
    if maxRetries == 0 then DefaultMaxRetries(originalCapacity, sleep) else Retries(maxRetries)
  }

  // ---- the same without the functions ----

  /** q is a / b cut toward zero: what is left over is smaller than b and has the sign of a. */
  ghost predicate Truncates(q: int, a: int, b: int) {
    var over, size := a - q * b, if b < 0 then -b else b;
    if a >= 0 then 0 <= over < size else -size < over <= 0
  }

  /** w is the number of waves of ten, s the sleep in full seconds, and the r sleeps take 600 seconds for each wave. */
  ghost predicate FillsWaves(r: int, w: int, s: int, capacity: int, sleep: int) {
    && 10 * (w - 1) < capacity <= 10 * w
    && s != 0 && Truncates(s, sleep, 1_000_000_000)
    && Truncates(r, w * 600, s)
  }

  ghost predicate IsDefaultBudget(r: int, capacity: int, sleep: int) {
    exists w, s :: FillsWaves(r, w, s, capacity, sleep)
  }

  /** r is the largest number of sleeps, each cut down to full seconds, that fit into 600 seconds for each of the w
      waves of ten that it takes to cover the capacity. */
  ghost predicate LargestThatFits(r: int, w: int, capacity: int, sleep: int) {
    && 10 * (w - 1) < capacity <= 10 * w
    && r * (sleep / 1_000_000_000) <= 600 * w < (r + 1) * (sleep / 1_000_000_000)
  }

  /** What an empty setting becomes, for any capacity and any sleep; a setting is kept. The program stops exactly when
      there is no setting and the sleep is under a second. */
  ghost predicate IsBudget(r: int, setting: int, sleep: int, capacity: int) {
    && (setting != 0 ==> r == setting)
    && (setting == 0 ==> IsDefaultBudget(r, capacity, sleep))
    && (setting == 0 && capacity >= 0 && sleep >= 0 ==> exists w: nat :: LargestThatFits(r, w, capacity, sleep))
  }

  lemma TruncDivTruncates(a: int, b: int)
    requires b != 0
    ensures Truncates(TruncDiv(a, b), a, b)
  {
    var p, m := Abs(a), Abs(b);
    var k := Quotient(p, m);
    SignedMul(k, m);
  }

  lemma Quotient(p: nat, m: nat) returns (k: nat)
    requires m > 0
    ensures k == p / m && k * m <= p < k * m + m
  {
    k := p / m;
    DivBounds(p, m);
    OneMore(k, m);
  }

  lemma OneMore(k: int, m: int)
    ensures (k + 1) * m == k * m + m
  {
  }

  lemma SignedMul(k: int, m: int)
    ensures -k * m == k * -m == -(k * m) && -k * -m == k * m
  {
  }

  lemma EnsureMaxRetriesMeans(setting: int, sleep: int, capacity: int)
    ensures var budget := EnsureMaxRetries(setting, sleep, capacity);
      && (budget.Panics? <==> setting == 0 && -1_000_000_000 < sleep < 1_000_000_000)
      && (budget.Retries? ==> IsBudget(budget.count, setting, sleep, capacity))
  {
    if setting == 0 {
      TruncDivTruncates(sleep, SECOND);
      var s, w := TruncDiv(sleep, SECOND), NumWaves(capacity);
      WavesCover(capacity);
      if s != 0 {
        TruncDivTruncates(w * 600, s);
        var r := TruncDiv(w * 600, s);
        assert FillsWaves(r, w, s, capacity, sleep);
        if capacity >= 0 && sleep >= 0 {
          DefaultIsLargest(capacity, sleep);
          assert LargestThatFits(r, w, capacity, sleep);
        }
      }
    }
  }

  /** No other number is a default. */
  lemma DefaultBudgetUnique(r: int, r': int, capacity: int, sleep: int)
    requires IsDefaultBudget(r, capacity, sleep) && IsDefaultBudget(r', capacity, sleep)
    ensures r == r'
  {
    var w, s :| FillsWaves(r, w, s, capacity, sleep);
    var w', s' :| FillsWaves(r', w', s', capacity, sleep);
    TruncatesUnique(s, s', sleep, 1_000_000_000);
    assert w == w';
    TruncatesUnique(r, r', w * 600, s);
  }

  lemma TruncatesUnique(q: int, q': int, a: int, b: int)
    requires b != 0 && Truncates(q, a, b) && Truncates(q', a, b)
    ensures q == q'
  {
    SmallMultiple(q - q', b, q * b, q' * b);
  }

  /** A multiple smaller than the number itself is zero. */
  lemma SmallMultiple(d: int, b: int, x: int, y: int)
    requires b != 0 && d * b == x - y && -(if b < 0 then -b else b) < x - y < (if b < 0 then -b else b)
    ensures d == 0
  {
    if d != 0 {
      var k, m := Abs(d), Abs(b);
      SignedMul(k, m);
      MulOrder(m, 1, k);
    }
  }

  lemma WavesCover(n: int)
    ensures 10 * (NumWaves(n) - 1) < n <= 10 * NumWaves(n)
  {
  }

  lemma DivBounds(a: nat, b: nat)
    requires b > 0
    ensures (a / b) * b <= a < (a / b + 1) * b
  {
    assert a == (a / b) * b + a % b;
  }

  /** The program panics exactly on sleeps under a second; otherwise the default is the number of whole sleeps, each
      cut down to full seconds, that fit into 600 seconds a wave. */
  lemma DefaultIsLargest(n: nat, sleep: nat)
    ensures DefaultMaxRetries(n, sleep).Panics? <==> sleep < SECOND
    ensures sleep >= SECOND ==>
      var r, s, w := DefaultMaxRetries(n, sleep).count, sleep / SECOND, NumWaves(n);
      r >= 0 && r * s <= 600 * w < (r + 1) * s
  {
    if sleep >= SECOND {
      var s, w := sleep / SECOND, NumWaves(n);
      assert s >= 1 && w >= 0;
      DivBounds(w * 600, s);
    }
  }

  /** A wait loop that runs out of retries has slept for more than 600 seconds a wave less one rounded sleep, and
      for less than 1200 seconds a wave. */
  lemma FullLoopSleeps(n: nat, sleep: nat)
    requires n > 0 && sleep >= SECOND
    ensures var r, s, w := DefaultMaxRetries(n, sleep).count, sleep / SECOND, NumWaves(n);
      (600 * w - s) * SECOND < r * sleep < 1200 * w * SECOND
  {
    DefaultIsLargest(n, sleep);
    var r, s, w := DefaultMaxRetries(n, sleep).count, sleep / SECOND, NumWaves(n);
    DivBounds(sleep, SECOND);
    assert s * SECOND <= sleep < (s + 1) * SECOND <= 2 * s * SECOND;
    SleepsLong(r, s, sleep, 600 * w - s);
    SleepsShort(r, s, sleep, 600 * w);
  }

  lemma SleepsLong(r: nat, s: nat, sleep: nat, floor: int)
    requires s * SECOND <= sleep && floor < r * s
    ensures floor * SECOND < r * sleep
  {
    MulOrder(r, s * SECOND, sleep);
    assert r * (s * SECOND) == (r * s) * SECOND;
  }

  lemma SleepsShort(r: nat, s: nat, sleep: nat, limit: nat)
    requires sleep < 2 * s * SECOND && r * s <= limit && 0 < limit
    ensures r * sleep < 2 * limit * SECOND
  {
    if r > 0 {
      StrictMulOrder(r, sleep, 2 * s * SECOND);
      assert r * (2 * s * SECOND) == (r * s) * (2 * SECOND);
    } else {
      assert r * sleep == 0;
    }
  }

  lemma MulOrder(r: nat, a: int, b: int)
    requires a <= b
    ensures r * a <= r * b
  {
  }

  lemma StrictMulOrder(r: int, a: int, b: int)
    requires a < b && r > 0
    ensures r * a < r * b
  {
  }
}
