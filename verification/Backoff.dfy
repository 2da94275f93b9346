/** The reconnect delays of app/ingestion/coinbase_client.py:140-184. */
module Backoff {
  const MAX_BACKOFF := 60.0

  function Min(a: real, b: real): real {
    if a < b then a else b
  }

  function Pow2(n: nat): real {
    if n == 0 then 1.0 else 2.0 * Pow2(n - 1)
  }

  /** `min(base * 2 ** min(attempt, 8), 60)` */
  function RawDelay(base: real, attempt: nat): real {
    Min(base * Pow2(if attempt < 8 then attempt else 8), MAX_BACKOFF)
  }

  /** The number of attempts since the last connect, after iteration `i` of the loop has failed. */
  function AttemptAt(connected: seq<bool>, i: nat): nat
    requires i < |connected|
  {
    if connected[i] || i == 0 then 1 else AttemptAt(connected, i - 1) + 1
  }

  predicate Jitter(j: real) {
    0.8 <= j <= 1.2
  }

  lemma {:induction false} Pow2Positive(n: nat)
    ensures Pow2(n) >= 1.0
    ensures n >= 1 ==> Pow2(n) >= 2.0
  {
    if n > 0 { Pow2Positive(n - 1); }
  }

  lemma AtLeastDouble(base: real, p: real)
    requires base > 0.0 && p >= 2.0
    ensures base * p >= 2.0 * base
  {
    var extra := p - 2.0;
    assert base * p == base * (extra + 2.0) == base * extra + 2.0 * base;
    assert base * extra >= 0.0;
  }

  lemma PositiveProduct(base: real, p: real)
    requires base > 0.0 && p >= 1.0
    ensures base * p > 0.0 && base * (2.0 * p) == 2.0 * (base * p)
  {
  }

  lemma MinMonotone(least: real, product: real)
    requires least <= product
    ensures Min(least, MAX_BACKOFF) <= Min(product, MAX_BACKOFF) <= MAX_BACKOFF
  {
  }

  /** Every raw delay is positive, at least that of a first attempt, and capped. */
  lemma RawBounds(base: real, attempt: nat)
    requires base > 0.0 && attempt >= 1
    ensures Min(2.0 * base, MAX_BACKOFF) <= RawDelay(base, attempt) <= MAX_BACKOFF
    ensures RawDelay(base, attempt) > 0.0
  {
    var p := Pow2(if attempt < 8 then attempt else 8);
    Pow2Positive(if attempt < 8 then attempt else 8);
    AtLeastDouble(base, p);
    MinMonotone(2.0 * base, base * p);
  }

  lemma MinDoubles(product: real)
    requires product > 0.0
    ensures Min(product, MAX_BACKOFF) <= Min(2.0 * product, MAX_BACKOFF)
    ensures 2.0 * Min(product, MAX_BACKOFF) <= MAX_BACKOFF ==>
      Min(2.0 * product, MAX_BACKOFF) == 2.0 * Min(product, MAX_BACKOFF)
  {
  }

  /** One more failure doubles the raw delay up to the cap, and never lowers it. */
  lemma RawDoubles(base: real, attempt: nat)
    requires base > 0.0
    ensures RawDelay(base, attempt) <= RawDelay(base, attempt + 1)
    ensures attempt < 8 && 2.0 * RawDelay(base, attempt) <= MAX_BACKOFF ==>
      RawDelay(base, attempt + 1) == 2.0 * RawDelay(base, attempt)
  {
    if attempt < 8 {
      var p := Pow2(attempt);
      Pow2Positive(attempt);
      PositiveProduct(base, p);
      MinDoubles(base * p);
    }
  }

  /** `min(raw_delay * jitter, 60)` */
  function Jittered(raw: real, jitter: real): real {
    Min(raw * jitter, MAX_BACKOFF)
  }

  function Delay(base: real, attempt: nat, jitter: real): real {
    Jittered(RawDelay(base, attempt), jitter)
  }

  lemma JitterBounds(raw: real, jitter: real)
    requires raw > 0.0 && Jitter(jitter)
    ensures 0.8 * raw <= raw * jitter <= 1.2 * raw
  {
    var low, high := jitter - 0.8, 1.2 - jitter;
    assert raw * jitter == raw * (low + 0.8) == raw * low + 0.8 * raw;
    assert raw * jitter == raw * (1.2 - high) == 1.2 * raw - raw * high;
    assert raw * low >= 0.0 && raw * high >= 0.0;
  }

  lemma JitteredBounds(least: real, raw: real, jitter: real)
    requires 0.0 < raw && least <= raw <= MAX_BACKOFF && Jitter(jitter)
    ensures 0.8 * least <= Jittered(raw, jitter) <= MAX_BACKOFF
  {
    JitterBounds(raw, jitter);
  }

  lemma JitteredGrows(raw: real, jitter: real, next: real)
    requires 0.0 < raw && 2.0 * raw <= MAX_BACKOFF && Jitter(jitter) && Jitter(next)
    ensures Jittered(raw, jitter) < Jittered(2.0 * raw, next)
  {
    JitterBounds(raw, jitter);
    JitterBounds(2.0 * raw, next);
  }

  lemma DelayBounds(base: real, attempt: nat, jitter: real)
    requires base > 0.0 && attempt >= 1 && Jitter(jitter)
    ensures 0.8 * Min(2.0 * base, MAX_BACKOFF) <= Delay(base, attempt, jitter) <= MAX_BACKOFF
  {
    RawBounds(base, attempt);
    JitteredBounds(Min(2.0 * base, MAX_BACKOFF), RawDelay(base, attempt), jitter);
  }

  /** While doubling stays under the cap, the next delay is strictly longer whatever the jitter. */
  lemma DelayGrows(base: real, attempt: nat, jitter: real, next: real)
    requires base > 0.0 && 1 <= attempt < 8 && Jitter(jitter) && Jitter(next)
    requires 2.0 * RawDelay(base, attempt) <= MAX_BACKOFF
    ensures Delay(base, attempt, jitter) < Delay(base, attempt + 1, next)
  {
    RawBounds(base, attempt);
    RawDoubles(base, attempt);
    JitteredGrows(RawDelay(base, attempt), jitter, next);
  }

  lemma AttemptPositive(connected: seq<bool>, i: nat)
    requires i < |connected|
    ensures AttemptAt(connected, i) >= 1
  {
  }

  /** The attempt counter counts the failed iterations since the last one that had connected. */
  lemma {:induction false} AttemptCounts(connected: seq<bool>, k: nat, i: nat)
    requires k <= i < |connected| && (k == 0 || connected[k]) && forall j | k < j <= i :: !connected[j]
    ensures AttemptAt(connected, i) == i - k + 1
  {
    if k < i {
      AttemptCounts(connected, k, i - 1);
    }
  }

  lemma DoubledMin(base: real, p: real, next: real, raw: real, doubled: real)
    requires base > 0.0 && p >= 1.0 && next == 2.0 * p
    requires raw == Min(base * p, MAX_BACKOFF) && doubled == Min(base * next, MAX_BACKOFF)
    ensures doubled == Min(2.0 * raw, MAX_BACKOFF)
  {
    DoubledProduct(base, p, next);
    MinTwice(base * p, base * next);
  }

  lemma MinTwice(x: real, y: real)
    requires y == 2.0 * x
    ensures Min(y, MAX_BACKOFF) == Min(2.0 * Min(x, MAX_BACKOFF), MAX_BACKOFF)
  {
  }

  lemma DoubledProduct(base: real, p: real, next: real)
    requires next == 2.0 * p
    ensures base * next == 2.0 * (base * p)
  {
  }

  lemma RawBelowEight(base: real, attempt: nat)
    requires attempt <= 8
    ensures RawDelay(base, attempt) == Min(base * Pow2(attempt), MAX_BACKOFF)
  {
    var capped := if attempt < 8 then attempt else 8;
    assert capped == attempt && Pow2(capped) == Pow2(attempt);
  }

  /** What the raw delays are: doubled by each failure up to the cap, for eight failures. */
  lemma RawDelays(base: real, attempt: nat)
    requires base > 0.0
    ensures RawDelay(base, attempt + 1) ==
      if attempt < 8 then Min(2.0 * RawDelay(base, attempt), MAX_BACKOFF) else RawDelay(base, attempt)
  {
    if attempt < 8 {
      Pow2Positive(attempt);
      RawBelowEight(base, attempt);
      RawBelowEight(base, attempt + 1);
      DoubledMin(base, Pow2(attempt), Pow2(attempt + 1), RawDelay(base, attempt), RawDelay(base, attempt + 1));
    }
  }

  /** The random factor scales the raw delay, up to the cap. */
  lemma JitterScales(raw: real, jitter: real)
    ensures raw * jitter <= MAX_BACKOFF ==> Jittered(raw, jitter) == raw * jitter
    ensures raw * jitter >= MAX_BACKOFF ==> Jittered(raw, jitter) == MAX_BACKOFF
  {
  }

  /** The delays of a run of failed iterations, with the random factors they drew. */
  ghost predicate DelaysOf(base: real, connected: seq<bool>, jitters: seq<real>, delays: seq<real>) {
    && |delays| == |connected| == |jitters|
    && forall i | 0 <= i < |delays| :: delays[i] == Delay(base, AttemptAt(connected, i), jitters[i])
  }

  /** Every delay is the raw delay times the random factor drawn for it, up to the cap. */
  lemma DelaysScale(base: real, connected: seq<bool>, jitters: seq<real>, delays: seq<real>, i: nat, scaled: real)
    requires DelaysOf(base, connected, jitters, delays) && i < |delays|
    requires scaled == RawDelay(base, AttemptAt(connected, i)) * jitters[i]
    ensures delays[i] == if scaled <= MAX_BACKOFF then scaled else MAX_BACKOFF
  {
    JitterScales(RawDelay(base, AttemptAt(connected, i)), jitters[i]);
  }

  /**
   * Over any run of failures: every delay is between the jittered first delay and the cap; a connect
   * resets the raw delay, and each failure after it doubles it up to the cap, eight times at most;
   * and while the exponent and the cap leave room, delays strictly increase whatever the random
   * factors.
   */
  lemma DelaysBackOff(base: real, connected: seq<bool>, jitters: seq<real>, delays: seq<real>, i: nat)
    requires base > 0.0 && DelaysOf(base, connected, jitters, delays) && i < |delays|
    requires forall k | 0 <= k < |jitters| :: Jitter(jitters[k])
    ensures 0.8 * Min(2.0 * base, MAX_BACKOFF) <= delays[i] <= MAX_BACKOFF
    ensures i == 0 || connected[i] ==> RawDelay(base, AttemptAt(connected, i)) == Min(2.0 * base, MAX_BACKOFF)
    ensures i > 0 && !connected[i] ==>
      var n := AttemptAt(connected, i - 1);
      && RawDelay(base, n) <= RawDelay(base, AttemptAt(connected, i))
      && RawDelay(base, AttemptAt(connected, i)) ==
         (if n < 8 then Min(2.0 * RawDelay(base, n), MAX_BACKOFF) else RawDelay(base, n))
      && (n < 8 && 2.0 * RawDelay(base, n) <= MAX_BACKOFF ==> delays[i - 1] < delays[i])
  {
    AttemptPositive(connected, i);
    DelayBounds(base, AttemptAt(connected, i), jitters[i]);
    assert Pow2(1) == 2.0;
    if i > 0 && !connected[i] {
      var n := AttemptAt(connected, i - 1);
      AttemptPositive(connected, i - 1);
      RawDoubles(base, n);
      RawDelays(base, n);
      if n < 8 && 2.0 * RawDelay(base, n) <= MAX_BACKOFF {
        DelayGrows(base, n, jitters[i - 1], jitters[i]);
      }
    }
  }

  /** The loop: `connected[i]` says whether iteration `i` had connected before it failed. */
  method RunLoop(base: real, connected: seq<bool>, jitters: seq<real>) returns (delays: seq<real>)
    requires base > 0.0 && |jitters| == |connected|
    ensures DelaysOf(base, connected, jitters, delays)
  {
    delays := [];
    var attempt, i := 0, 0;
    while i < |connected|
      invariant 0 <= i <= |connected| && |delays| == i
      invariant attempt == if i == 0 then 0 else AttemptAt(connected, i - 1)
      invariant forall k | 0 <= k < i :: delays[k] == Delay(base, AttemptAt(connected, k), jitters[k])
    {
      if connected[i] {
        attempt := 0;
      }
      attempt := attempt + 1;
      var rawDelay := RawDelay(base, attempt);
      var delay := Jittered(rawDelay, jitters[i]);
      delays := delays + [delay];
      i := i + 1;
    }
  }
}
