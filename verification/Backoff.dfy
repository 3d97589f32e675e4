/**
Retry delays. Go computes them in float64 and converts back to a 64-bit
duration; here the arithmetic is over `real`, and the conversion keeps its one
hazard: a value outside the int64 range converts to whatever the platform
produces (`overflow`; the smallest int64 on amd64).
*/
module Backoff {
  import opened Wrappers
  import opened ProcTypes

  const TWO63: int := 0x8000_0000_0000_0000

  function Trunc(x: real): int {
    if x >= 0.0 then x.Floor else -((-x).Floor)
  }

  function ToDuration(x: real, overflow: int): int {
    if -(TWO63 as real) <= x < TWO63 as real then Trunc(x) else overflow
  }

  /** `draw` is the random value in [0, 1). */
  function Jitter(d: int, fraction: real, draw: real, overflow: int): int {
    if fraction <= 0.0 then d
    else
      ToDuration(Stretch(d, Multiplier(Clamp(fraction), draw)), overflow)
  }

  function Clamp(fraction: real): real {
    if fraction > 1.0 then 1.0 else fraction
  }

  function Stretch(d: int, factor: real): real {
    d as real * factor
  }

  function Pow2(n: nat): nat {
    if n == 0 then 1 else 2 * Pow2(n - 1)
  }

  function Capped(x: real, cap: int, overflow: int): int {
    var delay := ToDuration(x, overflow);
    if delay > cap then cap else delay
  }

  /** base * 2^attempt before it is converted. */
  function Scaled(base: int, k: nat): real {
    base as real * k as real
  }

  /** The delay before jitter. */
  function CappedDelay(attempt: int, base: int, cap: int, overflow: int): int {
    var a := if attempt < 0 then 0 else attempt;
    Capped(Scaled(base, Pow2(a)), cap, overflow)
  }

  function ExponentialBackoff(attempt: int, base: int, cap: int, draw: real, overflow: int): int {
    Jitter(CappedDelay(attempt, base, cap, overflow), 0.25, draw, overflow)
  }

  datatype Settings = Settings(hasSyncer: bool, resyncInterval: int, backOffPeriod: int, overflow: int)

  predicate Transient(e: SyncError) { e == Canceled || e == DeadlineExceeded }

  /** The delay completeWork enqueues; `s` is the record after FinishTurn. */
  function RequeueDelay(c: Settings, s: Status, err: Option<SyncError>, draw: real): int {
    if err.Some? then
      if Transient(err.value) then Jitter(SECOND, 0.5, draw, c.overflow)
      else ExponentialBackoff(s.consecutiveFails, SECOND, c.backOffPeriod, draw, c.overflow)
    else if s.State() == Terminated then 0
    else Jitter(c.resyncInterval, 0.1, draw, c.overflow)
  }

  lemma TruncOfInt(n: int)
    ensures Trunc(n as real) == n
  {
    if n < 0 { assert (-(n as real)).Floor == -n by { assert -(n as real) == (-n) as real; } }
  }

  lemma {:induction false} RealOfProduct(m: nat, n: nat)
    ensures m as real * n as real == (m * n) as real
  {
    if n > 0 {
      RealOfProduct(m, n - 1);
      var r := (n - 1) as real;
      assert n as real == r + 1.0;
      assert m as real * (r + 1.0) == m as real * r + m as real;
      assert m * n == m * (n - 1) + m;
    }
  }

  lemma CappedInt(x: real, p: nat, cap: int, overflow: int)
    requires x == p as real && p < TWO63
    ensures Capped(x, cap, overflow) == if p < cap then p else cap
  {
    TruncOfInt(p);
  }

  lemma CappedProduct(base: nat, k: nat, p: nat, cap: int, overflow: int)
    requires p == base * k && p < TWO63
    ensures Capped(Scaled(base, k), cap, overflow) == if p < cap then p else cap
  {
    RealOfProduct(base, k);
    CappedInt(Scaled(base, k), p, cap, overflow);
  }

  /** Below 2^63 the unjittered delay is min(base * 2^attempt, cap). */
  lemma CappedDelayIsMin(attempt: nat, base: nat, p: nat, cap: int, overflow: int)
    requires p == base * Pow2(attempt) && p < TWO63
    ensures CappedDelay(attempt, base, cap, overflow) == if p < cap then p else cap
  {
    CappedProduct(base, Pow2(attempt), p, cap, overflow);
  }

  lemma ScaleMonotone(x: real, a: real, b: real)
    requires 0.0 <= x && a <= b
    ensures x * a <= x * b
  {
    assert x * (b - a) >= 0.0;
  }

  lemma ToDurationBounds(lo: real, x: real, hi: real, overflow: int)
    requires 0.0 <= lo <= x <= hi < TWO63 as real
    ensures 0 <= ToDuration(x, overflow) && lo - 1.0 <= ToDuration(x, overflow) as real <= hi
  {
  }

  function Multiplier(f: real, draw: real): real {
    1.0 + draw * f * 2.0 - f
  }

  lemma MultiplierBounds(f: real, draw: real)
    requires 0.0 < f <= 1.0 && 0.0 <= draw < 1.0
    ensures 1.0 - f <= Multiplier(f, draw) <= 1.0 + f
  {
    ScaleMonotone(f, 0.0, draw);
    ScaleMonotone(f, draw, 1.0);
  }

  lemma ScaleBetween(x: real, lo: real, m: real, hi: real)
    requires 0.0 <= x && 0.0 <= lo <= m <= hi
    ensures 0.0 <= x * lo <= x * m <= x * hi
  {
    ScaleMonotone(x, 0.0, lo);
    ScaleMonotone(x, lo, m);
    ScaleMonotone(x, m, hi);
  }

  lemma StretchBounds(d: nat, lo: real, m: real, hi: real, overflow: int)
    requires 0.0 <= lo <= m <= hi && Stretch(d, hi) < TWO63 as real
    ensures 0 <= ToDuration(Stretch(d, m), overflow)
    ensures Stretch(d, lo) - 1.0 <= ToDuration(Stretch(d, m), overflow) as real <= Stretch(d, hi)
  {
    ScaleBetween(d as real, lo, m, hi);
    ToDurationBounds(Stretch(d, lo), Stretch(d, m), Stretch(d, hi), overflow);
  }

  /** Jitter stays within the fraction, clamped to one, of d on either side. */
  lemma JitterBounds(d: nat, fraction: real, draw: real, overflow: int)
    requires 0.0 < fraction && 0.0 <= draw < 1.0
    requires Stretch(d, 1.0 + Clamp(fraction)) < TWO63 as real
    ensures 0 <= Jitter(d, fraction, draw, overflow)
    ensures var f := Clamp(fraction);
            Stretch(d, 1.0 - f) - 1.0 <= Jitter(d, fraction, draw, overflow) as real <= Stretch(d, 1.0 + f)
  {
    var f := Clamp(fraction);
    MultiplierBounds(f, draw);
    StretchBounds(d, 1.0 - f, Multiplier(f, draw), 1.0 + f, overflow);
  }

  lemma {:induction false} Pow2Monotone(m: nat, n: nat)
    requires m <= n
    ensures Pow2(m) <= Pow2(n)
  {
    if m < n { Pow2Monotone(m, n - 1); }
  }

  lemma Pow2At33()
    ensures Pow2(33) == 0x2_0000_0000
  {
    assert Pow2(11) == 2048;
    assert Pow2(22) == 0x40_0000 by { Pow2Sum(11, 11); }
    Pow2Sum(22, 11);
  }

  lemma {:induction false} Pow2Sum(m: nat, n: nat)
    ensures Pow2(m + n) == Pow2(m) * Pow2(n)
  {
    if n > 0 {
      Pow2Sum(m, n - 1);
      assert Pow2(m + n) == 2 * Pow2(m + (n - 1));
    }
  }

  /** One second times 2^n fits in 63 bits exactly up to n = 33. */
  lemma OneSecondFits(n: nat)
    ensures SECOND * Pow2(n) < TWO63 <==> n <= 33
  {
    Pow2At33();
    if n <= 33 { Pow2Monotone(n, 33); }
    else {
      Pow2Monotone(34, n);
      assert Pow2(34) == 2 * Pow2(33);
    }
  }

  /** Configured durations that leave room for their own jitter. */
  predicate SaneSettings(c: Settings) {
    && 0 <= c.resyncInterval && 2 * c.resyncInterval < TWO63
    && 0 <= c.backOffPeriod && 2 * c.backOffPeriod < TWO63
  }

  predicate DelayWithinBounds(c: Settings, delay: int) {
    && 0 <= delay
    && (2 * delay <= 3 * SECOND || 4 * delay <= 5 * c.backOffPeriod || 10 * delay <= 11 * c.resyncInterval)
  }

  /** The delay before the n-th retry in a row, jitter apart: 2^n seconds, but no more than the configured period. */
  function RetryDelay(c: Settings, n: nat): int {
    if SECOND * Pow2(n) < c.backOffPeriod then SECOND * Pow2(n) else c.backOffPeriod
  }

  /**
  The delay x after a turn that ended with `err` and left the record in `state`, `fails` being the failures in a row up
  to it: a tenth around the resync interval after a success, nothing when the terminated phase is due, half a second
  around one second after an interruption, a quarter around the retry delay after any other error. Truncation may take
  off up to a nanosecond.
  */
  predicate DelayFits(c: Settings, state: ProcessState, fails: nat, err: Option<SyncError>, x: int) {
    && 0 <= x
    && (err == None && state == Terminated ==> x == 0)
    && (err == None && state != Terminated ==> 9 * c.resyncInterval <= 10 * (x + 1) && 10 * x <= 11 * c.resyncInterval)
    && (err == Some(Canceled) || err == Some(DeadlineExceeded) ==> SECOND <= 2 * (x + 1) && 2 * x <= 3 * SECOND)
    && (err.Some? && err.value.OtherError? ==>
          3 * RetryDelay(c, fails) <= 4 * (x + 1) && 4 * x <= 5 * RetryDelay(c, fails))
  }

  /**
  Every delay lies between 0 and max(1.5 s, 1.25 * backOffPeriod, 1.1 * resyncInterval),
  as long as a record has not failed more than 33 times in a row on a persistent error.
  */
  lemma RequeueDelayBounds(c: Settings, s: Status, err: Option<SyncError>, draw: real)
    requires SaneSettings(c) && 0.0 <= draw < 1.0
    requires 0 <= s.consecutiveFails
    requires err.Some? && !Transient(err.value) ==> s.consecutiveFails <= 33
    ensures DelayWithinBounds(c, RequeueDelay(c, s, err, draw))
    ensures DelayFits(c, s.State(), s.consecutiveFails, err, RequeueDelay(c, s, err, draw))
  {
    if err.Some? {
      if Transient(err.value) {
        JitterBounds(SECOND, 0.5, draw, c.overflow);
      } else {
        BackoffBounds(c, s.consecutiveFails, draw);
      }
    } else if s.State() != Terminated {
      JitterBounds(c.resyncInterval, 0.1, draw, c.overflow);
    }
  }

  lemma BackoffBounds(c: Settings, fails: nat, draw: real)
    requires SaneSettings(c) && 0.0 <= draw < 1.0 && fails <= 33
    ensures var x := ExponentialBackoff(fails, SECOND, c.backOffPeriod, draw, c.overflow);
      0 <= x && 3 * RetryDelay(c, fails) <= 4 * (x + 1) && 4 * x <= 5 * RetryDelay(c, fails)
  {
    OneSecondFits(fails);
    CappedDelayIsMin(fails, SECOND, SECOND * Pow2(fails), c.backOffPeriod, c.overflow);
    JitterBounds(RetryDelay(c, fails), 0.25, draw, c.overflow);
  }

  /**
  The bound is exact. After a persistent error the delay is non-negative on
  every platform and for every random draw if and only if the record has failed
  at most 33 times in a row: the 34th doubling of one second overflows int64,
  the cap does not catch a negative duration, and the retry becomes immediate.
  */
  lemma BackoffNonNegativeExactly(fails: nat, cap: nat)
    requires 2 * cap < TWO63
    ensures (forall draw: real, overflow: int | 0.0 <= draw < 1.0 ::
               0 <= ExponentialBackoff(fails, SECOND, cap, draw, overflow))
            <==> fails <= 33
  {
    OneSecondFits(fails);
    if fails <= 33 {
      forall draw: real, overflow: int | 0.0 <= draw < 1.0
        ensures 0 <= ExponentialBackoff(fails, SECOND, cap, draw, overflow)
      {
        CappedDelayIsMin(fails, SECOND, SECOND * Pow2(fails), cap, overflow);
        JitterBounds(CappedDelay(fails, SECOND, cap, overflow), 0.25, draw, overflow);
      }
    } else {
      RealOfProduct(SECOND, Pow2(fails));
      assert CappedDelay(fails, SECOND, cap, -TWO63) == -TWO63;
      assert ExponentialBackoff(fails, SECOND, cap, 0.0, -TWO63) < 0;
    }
  }
}
