/** The pause before a reconnect (src/scenarios.rs:481-494), in nanoseconds. */
module Backoff {
  import opened Numbers

  /** The longest duration: 2^64 - 1 seconds and the nanoseconds below one more. */
  const DURATION_MAX: nat := 0x1_0000_0000_0000_0000 * 1_000_000_000 - 1

  datatype ReconnectConfig = ReconnectConfig(minBackoff: nat, maxBackoff: nat, jitterPercent: nat)
  {
    /** What configuration validation demands when reconnect is on. */
    predicate Valid() { 0 < minBackoff <= maxBackoff <= DURATION_MAX }
  }

  function Pow2(n: nat): nat { if n == 0 then 1 else 2 * Pow2(n - 1) }

  /** `2_u32.saturating_pow(attempt.saturating_sub(1))`. */
  function Multiplier(attempt: nat): nat {
    Min(Pow2(if attempt > 0 then attempt - 1 else 0), U32_MAX)
  }

  function Base(cfg: ReconnectConfig, attempt: nat): nat {
    Min(Min(cfg.minBackoff * Multiplier(attempt), DURATION_MAX), cfg.maxBackoff)
  }

  lemma TwiceProduct(x: nat, y: nat)
    ensures (2 * x) * y == 2 * (x * y)
  {
  }

  lemma {:induction false} Pow2Adds(a: nat, b: nat)
    ensures Pow2(a + b) == Pow2(a) * Pow2(b)
  {
    if a > 0 {
      Pow2Adds(a - 1, b);
      TwiceProduct(Pow2(a - 1), Pow2(b));
      assert a + b - 1 == (a - 1) + b;
    }
  }

  lemma {:induction false} Pow2Grows(a: nat, b: nat)
    requires a <= b
    ensures 1 <= Pow2(a) <= Pow2(b)
    decreases b
  {
    if a < b {
      Pow2Grows(a, b - 1);
    } else if a > 0 {
      Pow2Grows(a - 1, a - 1);
    }
  }

  lemma Pow2Of31()
    ensures Pow2(31) == 0x8000_0000
  {
    assert Pow2(5) == 32;
    Pow2Adds(5, 5);
    Pow2Adds(10, 10);
    Pow2Adds(20, 10);
    assert Pow2(31) == 2 * Pow2(30);
  }

  /** Up to the thirty-second attempt the multiplier is the power itself; from then on it is stuck. */
  lemma MultiplierIs(attempt: nat)
    requires attempt > 0
    ensures attempt <= 32 ==> Multiplier(attempt) == Pow2(attempt - 1)
    ensures attempt > 32 ==> Multiplier(attempt) == U32_MAX
  {
    Pow2Of31();
    if attempt <= 32 {
      Pow2Grows(attempt - 1, 31);
    } else {
      Pow2Grows(32, attempt - 1);
    }
  }

  lemma Times(a: nat, b: nat, c: nat)
    requires b <= c
    ensures a * b <= a * c
  {
  }

  lemma BaseIs(cfg: ReconnectConfig, attempt: nat)
    requires cfg.Valid()
    ensures Base(cfg, attempt) == Min(cfg.minBackoff * Multiplier(attempt), cfg.maxBackoff)
  {
  }

  /** The pause stays between the bounds, and never shrinks from one attempt to the next. */
  lemma BaseIsBounded(cfg: ReconnectConfig, a: nat, b: nat)
    requires cfg.Valid() && a <= b
    ensures cfg.minBackoff <= Base(cfg, a) <= Base(cfg, b) <= cfg.maxBackoff
  {
    var e, g := if a > 0 then a - 1 else 0, if b > 0 then b - 1 else 0;
    Pow2Grows(e, g);
    Times(cfg.minBackoff, 1, Multiplier(a));
    Times(cfg.minBackoff, Multiplier(a), Multiplier(b));
  }

  /**
   The pause doubles up to its maximum, except past the thirty-second attempt when the saturated
   multiplier keeps it below that maximum.
   */
  lemma BaseDoubles(cfg: ReconnectConfig, attempt: nat)
    requires cfg.Valid() && attempt > 0
    ensures Base(cfg, attempt + 1) == Min(2 * Base(cfg, attempt), cfg.maxBackoff) <==>
            attempt < 32 || cfg.minBackoff * U32_MAX >= cfg.maxBackoff
  {
    BaseIs(cfg, attempt);
    BaseIs(cfg, attempt + 1);
    NextMultiplier(cfg.minBackoff, attempt);
    hide Base, Multiplier, Pow2;
  }

  /** How the uncapped pause goes on: doubled, almost doubled once, and then not at all. */
  lemma NextMultiplier(m: nat, attempt: nat)
    requires attempt > 0
    ensures var now, next := m * Multiplier(attempt), m * Multiplier(attempt + 1);
      && (attempt < 32 ==> next == 2 * now)
      && (attempt == 32 ==> now == m * 0x8000_0000 && next == m * U32_MAX)
      && (attempt > 32 ==> now == next == m * U32_MAX)
  {
    MultiplierIs(attempt);
    MultiplierIs(attempt + 1);
    Pow2Of31();
    hide Multiplier;
    if attempt < 32 {
      assert m * (2 * Pow2(attempt - 1)) == 2 * (m * Pow2(attempt - 1));
    }
  }

  /** The share of the pause that jitter may add or take away, at most all of it. */
  function Jitter(cfg: ReconnectConfig): real {
    Min(cfg.jitterPercent, 100) as real / 100.0
  }

  /** `factor` is what the generator draws. */
  function Jittered(base: nat, jitter: real, factor: real): real {
    if jitter == 0.0 then base as real else base as real * factor
  }

  function Delay(cfg: ReconnectConfig, attempt: nat, factor: real): real {
    Jittered(Base(cfg, attempt), Jitter(cfg), factor)
  }

  /** Jitter is given in percent, and never more than all of the pause. */
  lemma JitterIsPercent(cfg: ReconnectConfig)
    ensures cfg.jitterPercent <= 100 ==> Jitter(cfg) * 100.0 == cfg.jitterPercent as real
    ensures cfg.jitterPercent >= 100 ==> Jitter(cfg) == 1.0
  {
  }

  lemma JitterRange(cfg: ReconnectConfig)
    ensures 0.0 <= Jitter(cfg) <= 1.0
    ensures cfg.jitterPercent > 0 ==> Jitter(cfg) > 0.0
  {
  }

  lemma Product(base: real, factor: real)
    requires base >= 0.0 && 0.0 <= factor <= 2.0
    ensures 0.0 <= base * factor <= 2.0 * base
  {
    assert base * (2.0 - factor) >= 0.0;
    assert base * (2.0 - factor) == 2.0 * base - base * factor;
  }

  lemma JitteredIsBounded(base: nat, jitter: real, factor: real)
    requires 0.0 <= jitter <= 1.0 && 1.0 - jitter <= factor <= 1.0 + jitter
    ensures 0.0 <= Jittered(base, jitter, factor) <= 2.0 * base as real
    ensures base > 0 && jitter > 0.0 ==> Jittered(base, jitter, 1.0 + jitter) > base as real
  {
    Product(base as real, factor);
    if base > 0 && jitter > 0.0 {
      Scale(base as real, 1.0, 1.0 + jitter);
    }
  }

  /**
   Jitter at most doubles the pause.  The configured maximum bounds the pause before jitter only: once it
   is reached, the largest draw passes it whenever jitter is on.
   */
  lemma JitterAtMostDoubles(cfg: ReconnectConfig, attempt: nat, factor: real)
    requires cfg.Valid() && 1.0 - Jitter(cfg) <= factor <= 1.0 + Jitter(cfg)
    ensures 0.0 <= Delay(cfg, attempt, factor) <= 2.0 * Base(cfg, attempt) as real
    ensures cfg.jitterPercent > 0 && Base(cfg, attempt) == cfg.maxBackoff ==>
      Delay(cfg, attempt, 1.0 + Jitter(cfg)) > cfg.maxBackoff as real
  {
    hide Base, Jitter, Jittered;
    JitterRange(cfg);
    JitteredIsBounded(Base(cfg, attempt), Jitter(cfg), factor);
  }

  lemma TimesGrows(a: real, x: real, y: real)
    requires a >= 0.0 && x <= y
    ensures a * x <= a * y
  {
    assert a * (y - x) >= 0.0;
    assert a * (y - x) == a * y - a * x;
  }

  lemma DelayIsTimes(cfg: ReconnectConfig, attempt: nat, factor: real)
    requires 1.0 - Jitter(cfg) <= factor <= 1.0 + Jitter(cfg)
    ensures Delay(cfg, attempt, factor) == Base(cfg, attempt) as real * factor
  {
    var base := Base(cfg, attempt) as real;
    hide Base, Jitter;
    assert base * 1.0 == base;
    if Jitter(cfg) == 0.0 {
      assert factor == 1.0;
    }
  }

  /** No draw passes the configured maximum exactly when there is room for the whole jitter below it. */
  lemma MaximumHoldsExactly(cfg: ReconnectConfig, attempt: nat)
    ensures (forall factor :: 1.0 - Jitter(cfg) <= factor <= 1.0 + Jitter(cfg) ==>
               Delay(cfg, attempt, factor) <= cfg.maxBackoff as real)
            <==> Base(cfg, attempt) as real * (1.0 + Jitter(cfg)) <= cfg.maxBackoff as real
  {
    JitterRange(cfg);
    hide Base, Jitter, Delay;
    var base, top := Base(cfg, attempt) as real, 1.0 + Jitter(cfg);
    DelayIsTimes(cfg, attempt, top);
    forall factor | 1.0 - Jitter(cfg) <= factor <= top
      ensures Delay(cfg, attempt, factor) <= base * top
    {
      DelayIsTimes(cfg, attempt, factor);
      TimesGrows(base, factor, top);
    }
  }
}
