/**
 The abort threshold on failed connections (src/thresholds.rs:13-26, 58-67).  Those on messages and latency read
 what is not part of this model.
 */
module Thresholds {
  import opened Wrappers
  import opened Numbers

  datatype AbortConfig = AbortConfig(connectionErrorRate: Option<real>, minSamples: Option<nat>)
  {
    function Samples(): nat { match minSamples case Some(n) => n case None => 1 }

    /** A rate that up to `most` failures can exceed. */
    predicate Reachable(most: nat) { connectionErrorRate.Some? && connectionErrorRate.value < Saturated(most) as real }
  }

  function Saturated(n: int): int { if n > U32_MAX then U32_MAX else n }

  /** Both numbers saturate at 32 bits before they are divided. */
  function Ratio(n: int, d: int): real {
    if d == 0 then 0.0 else Saturated(n) as real / Saturated(d) as real
  }

  predicate Violated(cfg: AbortConfig, attempts: int, failures: int, sent: nat) {
    && (attempts >= cfg.Samples() || sent >= cfg.Samples())
    && cfg.connectionErrorRate.Some? && Ratio(failures, attempts) > cfg.connectionErrorRate.value
  }

  /** The ratio is at most the failures, when there was one attempt, and at most one when there were no fewer. */
  lemma RatioIsBounded(n: int, d: int, most: nat)
    requires 0 <= n <= most && 0 <= d
    ensures 0.0 <= Ratio(n, d) <= Saturated(most) as real
    ensures n <= d ==> Ratio(n, d) <= 1.0
    ensures d == 1 ==> Ratio(n, d) == Saturated(n) as real
  {
    if d > 0 {
      Quotient(Saturated(n) as real, Saturated(d) as real);
    }
  }

  /** A number of `u64`, as the code divides it. */
  ghost predicate InDoubles(n: int, d: real) {
    d == (if n <= 4_294_967_295 then n else 4_294_967_295) as real
  }

  /**
   The threshold by multiplication alone: with a rate configured, it is exceeded exactly if there are enough
   attempts or enough events sent, one if the configuration does not say, and the failures are more than that
   share of the attempts; or, before the first attempt, if the rate is negative.
   */
  lemma ViolatedExactly(cfg: AbortConfig, attempts: nat, failures: nat, sent: nat, a: real, f: real)
    requires InDoubles(attempts, a) && InDoubles(failures, f)
    ensures Violated(cfg, attempts, failures, sent) <==>
      && cfg.connectionErrorRate.Some?
      && (match cfg.minSamples case Some(n) => attempts >= n || sent >= n case None => attempts >= 1 || sent >= 1)
      && (if attempts == 0 then cfg.connectionErrorRate.value < 0.0 else f > cfg.connectionErrorRate.value * a)
  {
    if attempts > 0 && cfg.connectionErrorRate.Some? {
      assert a == Saturated(attempts) as real && f == Saturated(failures) as real;
      Exceeds(f, a, cfg.connectionErrorRate.value);
    }
  }

  lemma Exceeds(x: real, y: real, rate: real)
    requires y > 0.0
    ensures x / y > rate <==> x > rate * y
  {
    var q := x / y;
    assert y * q == x;
    if q > rate {
      Scale(y, rate, q);
    } else if q < rate {
      Scale(y, q, rate);
    }
  }

  lemma Quotient(x: real, y: real)
    requires 0.0 <= x && y >= 1.0
    ensures 0.0 <= x / y <= x
    ensures x <= y ==> x / y <= 1.0
    ensures y == 1.0 ==> x / y == x
  {
    var q := x / y;
    assert y * q == x;
    if q > 1.0 {
      Scale(y, 1.0, q);
    }
    assert y * q == q + (y - 1.0) * q;
  }
}
