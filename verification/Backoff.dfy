/** The poll backoff: its closed form, its jitter, and exactly when its 64-bit doubling overflows. */
module Backoff {
  import opened Common
  import opened Outbox
  import opened Retention
  import opened WorkerLoop

  const I64_RANGE: int := 0x8000_0000_0000_0000

  /** A configured 64-bit signed value. */
  predicate IsI64(n: int) { -I64_RANGE <= n < I64_RANGE }

  /** The cast of a signed 64-bit value to an unsigned one. */
  function AsU64(n: int): nat
    requires IsI64(n)
  {
    if n >= 0 then n else n + U64_RANGE
  }

  function Pow2(n: nat): nat { if n == 0 then 1 else 2 * Pow2(n - 1) }

  /** The backoff after `n` consecutive transient poll errors, starting from the poll interval, for the
      configured interval `p` and cap `m`. */
  function After(p: int, m: int, n: nat): nat
    requires IsI64(p) && IsI64(m)
  {
    if n == 0 then AsU64(p)
    else Min((After(p, m, n - 1) * 2) % U64_RANGE, AsU64(m))
  }

  /** The doubling of the n-th error does not overflow. */
  ghost predicate Fits(p: int, m: int, n: nat)
    requires IsI64(p) && IsI64(m)
  {
    After(p, m, n) * 2 < U64_RANGE
  }

  ghost predicate NeverOverflows(p: int, m: int)
    requires IsI64(p) && IsI64(m)
  {
    forall n: nat :: Fits(p, m, n)
  }

  // ── What the worker does ───────────────────────────────────────────────

  ghost predicate PollFails(t: Tick) {
    !t.stop && t.poll == Transient && !t.stopInSleep
  }

  /** The worker's backoff after consecutive transient errors is exactly this sequence, and its failure
      count goes up with each of them. */
  lemma {:induction false} WorkerBacksOff(c: Config, v: View, moments: seq<Moment>, p: int, m: int, n: nat)
    requires IsI64(p) && IsI64(m) && c.pollInterval == AsU64(p) && c.maxBackoff == AsU64(m)
    requires (forall i :: 0 <= i < |moments| ==> PollFails(moments[i].tick)) && v.backoff == After(p, m, n)
    ensures var r := Run(c, v, moments);
            && r.control == Continue && r.view.backoff == After(p, m, n + |moments|)
            && r.view.failures == v.failures + |moments|
    decreases |moments|
  {
    if moments != [] {
      var w := Iterate(c, moments[0].rows, v, moments[0].tick).view;
      assert PollFails(moments[0].tick);
      assert w.backoff == After(p, m, n + 1);
      WorkerBacksOff(c, w, moments[1..], p, m, n + 1);
    }
  }

  /** A freshly started worker begins with the poll interval and no failures. */
  lemma FreshWorkerBacksOff(c: Config, offsets: map<Key, int>, moments: seq<Moment>, p: int, m: int)
    requires IsI64(p) && IsI64(m) && c.pollInterval == AsU64(p) && c.maxBackoff == AsU64(m)
    requires forall i :: 0 <= i < |moments| ==> PollFails(moments[i].tick)
    ensures var r := Run(c, Start(c, offsets), moments);
            r.control == Continue && r.view.backoff == After(p, m, |moments|) && r.view.failures == |moments|
  {
    hide Run;
    WorkerBacksOff(c, Start(c, offsets), moments, p, m, 0);
  }

  /** A poll that returns messages or nothing resets the backoff to the interval, whatever then happens to
      the messages; the failure count is not reset by the poll. */
  lemma GoodPollResets(c: Config, rows: Rows, v: View, t: Tick)
    requires !t.stop && t.poll == Fine && c.replay.None?
    ensures Iterate(c, rows, v, t).view.backoff == c.pollInterval
    ensures Poll(c, rows, v.last) == [] ==> Iterate(c, rows, v, t).view.failures == v.failures
  {
    hide SelectAfter;
  }

  // ── The closed form ────────────────────────────────────────────────────

  function Doubled(p: int, n: nat): int { if n == 0 then p else 2 * Doubled(p, n - 1) }

  lemma {:induction false} DoubledIsProduct(p: int, n: nat)
    ensures Doubled(p, n) == p * Pow2(n)
  {
    if n > 0 {
      DoubledIsProduct(p, n - 1);
      assert p * Pow2(n) == 2 * (p * Pow2(n - 1));
    }
  }

  lemma AfterOneMore(p: int, m: int, n: nat)
    requires IsI64(p) && IsI64(m) && m >= 0 && After(p, m, n) < I64_RANGE
    ensures After(p, m, n + 1) == Min(After(p, m, n) * 2, m)
  {
  }

  lemma AfterNone(p: int, m: int)
    requires IsI64(p) && IsI64(m) && p >= 0
    ensures After(p, m, 0) == p
  {
  }

  /** With non-negative configuration nothing overflows, and `n >= 1` errors double the interval `n` times,
      up to the cap. */
  lemma {:induction false} DoublesUpToCap(p: int, m: int, n: nat)
    requires IsI64(p) && IsI64(m) && p >= 0 && m >= 0
    ensures n >= 1 ==> After(p, m, n) == Min(Doubled(p, n), m)
    ensures Fits(p, m, n)
    decreases n
  {
    hide After;
    AfterNone(p, m);
    if n > 0 {
      DoublesUpToCap(p, m, n - 1);
      AfterOneMore(p, m, n - 1);
    }
  }

  /** The closed form `min(p * 2^n, m)`. */
  lemma ClosedForm(p: int, m: int, n: nat)
    requires IsI64(p) && IsI64(m) && p >= 0 && m >= 0 && n >= 1
    ensures After(p, m, n) == Min(p * Pow2(n), m) && Fits(p, m, n)
  {
    DoublesUpToCap(p, m, n);
    DoubledIsProduct(p, n);
  }

  /** Zero stays zero under every cap. */
  lemma {:induction false} ZeroStays(m: int, n: nat)
    requires IsI64(m)
    ensures After(0, m, n) == 0
  {
    if n > 0 {
      ZeroStays(m, n - 1);
    }
  }

  /** Under a cap that was negative, the backoff doubles until it reaches the upper half of the range. */
  lemma {:induction false} GrowsWithoutCap(p: int, m: int, n: nat)
    requires IsI64(p) && IsI64(m) && p > 0 && m < 0
    requires forall k: nat :: k < n ==> Fits(p, m, k)
    ensures After(p, m, n) >= I64_RANGE || After(p, m, n) >= Pow2(n)
    decreases n
  {
    if n > 0 {
      GrowsWithoutCap(p, m, n - 1);
      assert Fits(p, m, n - 1);
    }
  }

  lemma Pow2At63()
    ensures Pow2(63) == I64_RANGE
  {
    assert Pow2(16) == 0x1_0000;
    Pow2Sum(16, 16);
    Pow2Sum(32, 16);
    assert Pow2(15) == 0x8000;
    Pow2Sum(48, 15);
  }

  lemma {:induction false} Pow2Sum(a: nat, b: nat)
    ensures Pow2(a + b) == Pow2(a) * Pow2(b)
    decreases b
  {
    if b > 0 {
      Pow2Sum(a, b - 1);
      assert Pow2(a + b) == 2 * Pow2(a + b - 1);
      assert Pow2(a) * Pow2(b) == 2 * (Pow2(a) * Pow2(b - 1));
    }
  }

  /** The doubling never overflows exactly for a non-negative interval with a non-negative cap, or with an
      interval of zero: a caller can check both signs before starting the worker. */
  lemma OverflowsExactly(p: int, m: int)
    requires IsI64(p) && IsI64(m)
    ensures NeverOverflows(p, m) <==> p >= 0 && (m >= 0 || p == 0)
  {
    if p < 0 {
      assert !Fits(p, m, 0);
    } else if m >= 0 {
      forall n: nat
        ensures Fits(p, m, n)
      {
        DoublesUpToCap(p, m, n);
      }
    } else if p == 0 {
      forall n: nat
        ensures Fits(p, m, n)
      {
        ZeroStays(m, n);
      }
    } else if forall k: nat :: k < 63 ==> Fits(p, m, k) {
      GrowsWithoutCap(p, m, 63);
      Pow2At63();
      assert !Fits(p, m, 63);
    } else {
      var k: nat :| k < 63 && !Fits(p, m, k);
    }
  }

  // ── Jitter ─────────────────────────────────────────────────────────────

  /** A bound on the relative error of the 64-bit float product `backoff * 0.20`: the conversion, the constant
      and the multiplication are each rounded, by less than 2^-51 together. */
  const FLOAT_ERROR: real := 1.0 / 2251799813685248.0

  const EXACT_LIMIT: nat := 0x4_0000_0000_0000

  /** `product` is a possible value of the float product. */
  predicate IsFifth(backoff: nat, product: real) {
    var exact := backoff as real / 5.0;
    exact * (1.0 - FLOAT_ERROR) <= product <= exact * (1.0 + FLOAT_ERROR)
  }

  /** The sleep before the next poll: backoff plus jitter as signed 64-bit values, with saturating addition,
      and never negative. */
  function SleepMs(backoff: nat, jitter: int): int {
    Max(0, Min(AsI64(backoff) + jitter, I64_RANGE - 1))
  }

  function AsI64(n: nat): int { if n < I64_RANGE then n else n - U64_RANGE }

  /** The sum, cut to the signed 64-bit range and to zero; nothing is cut from sums within it. */
  lemma SleepExactly(backoff: nat, jitter: int)
    requires backoff < I64_RANGE
    ensures 0 <= backoff + jitter <= 0x7FFF_FFFF_FFFF_FFFF ==> SleepMs(backoff, jitter) == backoff + jitter
    ensures backoff + jitter < 0 ==> SleepMs(backoff, jitter) == 0
    ensures backoff + jitter > 0x7FFF_FFFF_FFFF_FFFF ==> SleepMs(backoff, jitter) == 0x7FFF_FFFF_FFFF_FFFF
  {
  }

  lemma JitterBound(backoff: nat, product: real, jitter: int)
    requires IsFifth(backoff, product) && -product.Floor <= jitter <= product.Floor
    ensures -(backoff as real) * (1.0 + FLOAT_ERROR) <= 5.0 * jitter as real <= backoff as real * (1.0 + FLOAT_ERROR)
    ensures backoff <= EXACT_LIMIT ==> 0 <= backoff + 5 * jitter <= 2 * backoff
  {
    var b := backoff as real;
    assert 5.0 * product <= b * (1.0 + FLOAT_ERROR);
    assert product.Floor as real <= product;
    if backoff <= EXACT_LIMIT {
      assert b * FLOAT_ERROR <= 0.5;
      assert b * (1.0 + FLOAT_ERROR) == b + b * FLOAT_ERROR;
    }
  }

  /** Every sleep in every sequence of poll errors stays within a fifth of the current backoff, for every
      backoff up to 2^50 milliseconds and every way the float product may round; above that, within a fifth
      up to the float error. The configuration must be non-negative, so that the backoff stays below the
      signed range. */
  lemma SleepWithinFifth(p: int, m: int, n: nat, product: real, jitter: int)
    requires IsI64(p) && IsI64(m) && p >= 0 && m >= 0
    requires IsFifth(After(p, m, n), product) && -product.Floor <= jitter <= product.Floor
    ensures var backoff := After(p, m, n);
            var off := SleepMs(backoff, jitter) - backoff;
            && -(backoff as real) * (1.0 + FLOAT_ERROR) <= 5.0 * off as real <= backoff as real * (1.0 + FLOAT_ERROR)
            && (backoff <= EXACT_LIMIT ==> 4 * backoff <= 5 * SleepMs(backoff, jitter) <= 6 * backoff)
  {
    hide Doubled, IsFifth;
    if n > 0 {
      DoublesUpToCap(p, m, n);
    }
    assert After(p, m, n) < I64_RANGE;
    JitterBound(After(p, m, n), product, jitter);
  }
}
