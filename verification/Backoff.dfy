/** internal/engine/retry.go: the stepped backoff schedule with jitter. */
module Backoff {
  import opened Models

  const MAX_INT64: int := 0x7FFF_FFFF_FFFF_FFFF
  const MIN_INT64: int := -0x8000_0000_0000_0000

  const DEFAULT_BASE_DELAY: int := 30 * SECOND
  const DEFAULT_MAX_DELAY: int := 4 * 3600 * SECOND

  function Multiplier(attempt: int): int {
    if attempt <= 1 then 1
    else if attempt == 2 then 4
    else if attempt == 3 then 20
    else if attempt == 4 then 120
    else 480
  }

  /** No random source means no jitter; a draw outside [0, 1] is clamped. */
  function JitterFactor(draw: Option<real>): real {
    match draw
    case None => 1.0
    case Some(r) => 0.8 + (if r < 0.0 then 0.0 else if r > 1.0 then 1.0 else r) * 0.4
  }

  /** Go's float64-to-int64 conversion: truncation toward zero when the value fits, and whatever
      the platform yields (`wild`) when it does not. Only nonnegative values reach it here. */
  function ToDuration(x: real, wild: int): int
    requires 0.0 <= x
  {
    if x.Floor <= MAX_INT64 then x.Floor else wild
  }

  function EffectiveBase(cfg: RetryConfig): int {
    if cfg.baseDelay <= 0 then DEFAULT_BASE_DELAY else cfg.baseDelay
  }

  function EffectiveMax(cfg: RetryConfig): int {
    if cfg.maxDelay <= 0 then DEFAULT_MAX_DELAY else cfg.maxDelay
  }

  /** The jittered delay in nanoseconds, before the cap and the zero fallback. */
  function Raw(attempt: int, cfg: RetryConfig, draw: Option<real>): (x: real)
    ensures 0.0 <= x
  {
    (EffectiveBase(cfg) * Multiplier(attempt)) as real * JitterFactor(draw)
  }

  /** The delay before the cap: what the code calls `calculated`, with the zero fallback applied. */
  function Uncapped(attempt: int, cfg: RetryConfig, draw: Option<real>, wild: int): int {
    var calculated := ToDuration(Raw(attempt, cfg, draw), wild);
    if calculated <= 0 then EffectiveBase(cfg) else calculated
  }

  function NextRetry(attempt: int, cfg: RetryConfig, draw: Option<real>, wild: int): int {
    var calculated := ToDuration(Raw(attempt, cfg, draw), wild);
    if calculated > EffectiveMax(cfg) then EffectiveMax(cfg)
    else if calculated <= 0 then EffectiveBase(cfg)
    else calculated
  }

  /** Every product up to 480 * 1.2 fits a Duration. */
  predicate InRange(cfg: RetryConfig) {
    576 * EffectiveBase(cfg) <= MAX_INT64
  }

  lemma JitterBounds(draw: Option<real>)
    ensures 0.8 <= JitterFactor(draw) <= 1.2
  {
  }

  /** A draw stays within 20% of its step. */
  lemma RawBounds(attempt: int, cfg: RetryConfig, draw: Option<real>)
    ensures var step := (EffectiveBase(cfg) * Multiplier(attempt)) as real;
            step * 0.8 <= Raw(attempt, cfg, draw) <= step * 1.2
  {
    JitterBounds(draw);
    Within(EffectiveBase(cfg) * Multiplier(attempt), JitterFactor(draw), Raw(attempt, cfg, draw));
  }

  lemma Within(step: int, f: real, x: real)
    requires 0 <= step && 0.8 <= f <= 1.2 && x == step as real * f
    ensures step as real * 0.8 <= x <= step as real * 1.2
  {
  }

  lemma RawFits(attempt: int, cfg: RetryConfig, draw: Option<real>)
    requires InRange(cfg)
    ensures Raw(attempt, cfg, draw).Floor <= MAX_INT64
  {
    RawBounds(attempt, cfg, draw);
    var b := EffectiveBase(cfg);
    assert b * Multiplier(attempt) <= b * 480;
    assert (b * Multiplier(attempt)) as real * 1.2 <= (b * 480) as real * 1.2;
  }

  /** The delay is positive on every platform and for every configuration, and it respects the
      maximum unless the conversion overflowed to a non-positive value and the base delay itself
      exceeds the maximum (which `Validate` rules out). */
  lemma DelayBounds(attempt: int, cfg: RetryConfig, draw: Option<real>, wild: int)
    ensures 0 < NextRetry(attempt, cfg, draw, wild)
    ensures InRange(cfg) || EffectiveBase(cfg) <= EffectiveMax(cfg)
            ==> NextRetry(attempt, cfg, draw, wild) <= EffectiveMax(cfg)
  {
    if InRange(cfg) {
      RawFits(attempt, cfg, draw);
      RawBounds(attempt, cfg, draw);
      var b := EffectiveBase(cfg);
      if Raw(attempt, cfg, draw).Floor <= 0 {
        assert b as real * 0.8 <= (b * Multiplier(attempt)) as real * 0.8;
        assert b == 1;
      }
    }
  }

  /** No draw, on any platform, takes a delay beyond the maximum. */
  ghost predicate Capped(cfg: RetryConfig) {
    forall attempt, draw, wild :: NextRetry(attempt, cfg, draw, wild) <= EffectiveMax(cfg)
  }

  /** The cap holds exactly when every product fits a Duration or the base delay is itself within the
      maximum: otherwise an overflow to a non-positive value falls back to a base beyond it. */
  lemma WhenCapped(cfg: RetryConfig)
    ensures Capped(cfg) <==> InRange(cfg) || EffectiveBase(cfg) <= EffectiveMax(cfg)
  {
    if InRange(cfg) || EffectiveBase(cfg) <= EffectiveMax(cfg) {
      forall attempt, draw, wild ensures NextRetry(attempt, cfg, draw, wild) <= EffectiveMax(cfg) {
        DelayBounds(attempt, cfg, draw, wild);
      }
    } else {
      assert Raw(5, cfg, Some(1.0)) == (576 * EffectiveBase(cfg)) as real;
      assert NextRetry(5, cfg, Some(1.0), MIN_INT64) == EffectiveBase(cfg);
    }
  }

  /** For attempts 1 to 4, any uncapped draw is strictly shorter than any uncapped draw after the
      next attempt: the bands do not touch, even after truncation and the zero fallback. */
  lemma BandsAreDisjoint(attempt: int, cfg: RetryConfig, draw: Option<real>, draw': Option<real>, wild: int, wild': int)
    requires 1 <= attempt <= 4
    requires InRange(cfg)
    ensures Uncapped(attempt, cfg, draw, wild) < Uncapped(attempt + 1, cfg, draw', wild')
  {
    RawFits(attempt, cfg, draw);
    RawFits(attempt + 1, cfg, draw');
    RawBounds(attempt, cfg, draw);
    RawBounds(attempt + 1, cfg, draw');
    BandGap(EffectiveBase(cfg), Multiplier(attempt), Multiplier(attempt + 1));
  }

  lemma BandGap(b: int, m: int, m': int)
    requires 0 < b && 1 <= m && 3 * m <= m'
    ensures (b * m) as real * 1.2 + 1.0 < (b * m') as real * 0.8
    ensures b + 1 <= ((b * m') as real * 0.8).Floor
  {
    assert b * m >= b && b * (3 * m) <= b * m';
    assert (b * m') as real * 0.8 >= (b * m) as real * 2.4;
  }

  /** So the capped schedule never decreases, whatever the jitter. */
  lemma ScheduleNeverDecreases(attempt: int, cfg: RetryConfig, draw: Option<real>, draw': Option<real>, wild: int, wild': int)
    requires 1 <= attempt <= 4
    requires InRange(cfg)
    ensures NextRetry(attempt, cfg, draw, wild) <= NextRetry(attempt + 1, cfg, draw', wild')
  {
    BandsAreDisjoint(attempt, cfg, draw, draw', wild, wild');
    RawFits(attempt, cfg, draw);
    RawFits(attempt + 1, cfg, draw');
    RawBounds(attempt + 1, cfg, draw');
    BandGap(EffectiveBase(cfg), Multiplier(attempt), Multiplier(attempt + 1));
    DelayBounds(attempt, cfg, draw, wild);
  }

  /** No draw for the one attempt is longer than any draw for the other. */
  ghost predicate Rises(attempt: int, later: int, cfg: RetryConfig) {
    forall draw, draw', wild, wild' :: NextRetry(attempt, cfg, draw, wild) <= NextRetry(later, cfg, draw', wild')
  }

  lemma LastBand(attempt: int, cfg: RetryConfig, draw: Option<real>, wild: int)
    requires 5 <= attempt && InRange(cfg)
    ensures Min(EffectiveMax(cfg), 384 * EffectiveBase(cfg)) <= NextRetry(attempt, cfg, draw, wild) <= EffectiveMax(cfg)
  {
    RawFits(attempt, cfg, draw);
    RawBounds(attempt, cfg, draw);
    DelayBounds(attempt, cfg, draw, wild);
    hide Raw, JitterFactor;
    assert Raw(attempt, cfg, draw) >= (384 * EffectiveBase(cfg)) as real;
  }

  /** Up to the fifth attempt the schedule rises. From there on there is one band, and two draws come
      out in either order unless the maximum cuts the whole band off. */
  lemma WhenScheduleRises(attempt: int, cfg: RetryConfig)
    requires 1 <= attempt && InRange(cfg)
    ensures Rises(attempt, attempt + 1, cfg) <==> attempt <= 4 || EffectiveMax(cfg) <= 384 * EffectiveBase(cfg)
  {
    var later := attempt + 1;
    if attempt <= 4 || EffectiveMax(cfg) <= 384 * EffectiveBase(cfg) {
      forall draw, draw', wild, wild' ensures NextRetry(attempt, cfg, draw, wild) <= NextRetry(later, cfg, draw', wild') {
        if attempt <= 4 {
          ScheduleNeverDecreases(attempt, cfg, draw, draw', wild, wild');
        } else {
          LastBand(attempt, cfg, draw, wild);
          LastBand(later, cfg, draw', wild');
        }
      }
    } else {
      assert Raw(attempt, cfg, Some(1.0)) == (576 * EffectiveBase(cfg)) as real;
      assert Raw(later, cfg, Some(0.0)) == (384 * EffectiveBase(cfg)) as real;
      assert NextRetry(attempt, cfg, Some(1.0), 0) > NextRetry(later, cfg, Some(0.0), 0);
    }
  }

  // ---------- how long the n-th failure waits ----------

  /** Within a fifth of base * multiplier on either side, in whole nanoseconds, and under the cap. */
  predicate InBand(attempt: int, cfg: RetryConfig, wait: int) {
    var step := EffectiveBase(cfg) * Multiplier(attempt);
    Min(EffectiveMax(cfg), 4 * step / 5) <= wait <= Min(EffectiveMax(cfg), 6 * step / 5)
  }

  lemma NextRetryInBand(attempt: int, cfg: RetryConfig, draw: Option<real>, wild: int)
    requires InRange(cfg) && EffectiveBase(cfg) <= EffectiveMax(cfg)
    ensures InBand(attempt, cfg, NextRetry(attempt, cfg, draw, wild))
  {
    RawFits(attempt, cfg, draw);
    RawBounds(attempt, cfg, draw);
    var b, step := EffectiveBase(cfg), EffectiveBase(cfg) * Multiplier(attempt);
    assert b <= step by {
      assert b * 1 <= b * Multiplier(attempt);
    }
    FloorBetween(step, Raw(attempt, cfg, draw));
    hide Raw, JitterFactor, Multiplier;
  }

  lemma FloorBetween(step: int, x: real)
    requires 0 < step && step as real * 0.8 <= x <= step as real * 1.2
    ensures 4 * step / 5 <= x.Floor <= 6 * step / 5
    ensures x.Floor == 0 ==> step == 1
  {
    assert (4 * step) as real / 5.0 == step as real * 0.8;
    assert (6 * step) as real / 5.0 == step as real * 1.2;
  }

  /** Without a random source the wait is the step itself. */
  lemma WithoutJitter(attempt: int, cfg: RetryConfig, wild: int)
    requires InRange(cfg)
    ensures NextRetry(attempt, cfg, None, wild) == Min(EffectiveMax(cfg), EffectiveBase(cfg) * Multiplier(attempt))
  {
    RawFits(attempt, cfg, None);
    var step := EffectiveBase(cfg) * Multiplier(attempt);
    assert 0 < step by {
      assert EffectiveBase(cfg) * 1 <= step;
    }
    assert Raw(attempt, cfg, None) == step as real;
  }

  lemma ProductRises(step: int, f: real, f': real, x: real, x': real)
    requires 0 <= step && f <= f' && x == step as real * f && x' == step as real * f'
    ensures x <= x'
  {
  }

  lemma RawRises(attempt: int, cfg: RetryConfig, r: real, r': real)
    requires r <= r'
    ensures Raw(attempt, cfg, Some(r)) <= Raw(attempt, cfg, Some(r'))
  {
    assert JitterFactor(Some(r)) <= JitterFactor(Some(r'));
    ProductRises(EffectiveBase(cfg) * Multiplier(attempt), JitterFactor(Some(r)), JitterFactor(Some(r')),
                 Raw(attempt, cfg, Some(r)), Raw(attempt, cfg, Some(r')));
  }

  lemma RawClamps(attempt: int, cfg: RetryConfig, r: real)
    ensures r <= 0.0 ==> Raw(attempt, cfg, Some(r)) == Raw(attempt, cfg, Some(0.0))
    ensures 1.0 <= r ==> Raw(attempt, cfg, Some(r)) == Raw(attempt, cfg, Some(1.0))
  {
    assert r <= 0.0 ==> JitterFactor(Some(r)) == JitterFactor(Some(0.0));
    assert 1.0 <= r ==> JitterFactor(Some(r)) == JitterFactor(Some(1.0));
    hide JitterFactor, Multiplier;
  }

  /** A longer draw never means a shorter wait, and draws outside [0, 1] count as its ends. */
  lemma LongerDrawsWaitLonger(attempt: int, cfg: RetryConfig, r: real, r': real, wild: int)
    requires InRange(cfg) && EffectiveBase(cfg) <= EffectiveMax(cfg)
    ensures r <= r' ==> NextRetry(attempt, cfg, Some(r), wild) <= NextRetry(attempt, cfg, Some(r'), wild)
    ensures r <= 0.0 ==> NextRetry(attempt, cfg, Some(r), wild) == NextRetry(attempt, cfg, Some(0.0), wild)
    ensures 1.0 <= r ==> NextRetry(attempt, cfg, Some(r), wild) == NextRetry(attempt, cfg, Some(1.0), wild)
  {
    RawClamps(attempt, cfg, r);
    if r <= r' {
      RawRises(attempt, cfg, r, r');
      RawFits(attempt, cfg, Some(r'));
      RawBounds(attempt, cfg, Some(r));
      var b, step := EffectiveBase(cfg), EffectiveBase(cfg) * Multiplier(attempt);
      assert b * 1 <= step;
      FloorBetween(step, Raw(attempt, cfg, Some(r)));
    }
    hide Raw, EffectiveBase, EffectiveMax, InRange;
  }

  /** A base or maximum that is not positive stands for thirty seconds or four hours. */
  lemma UnsetMeansDefault(attempt: int, cfg: RetryConfig, draw: Option<real>, wild: int)
    ensures cfg.baseDelay <= 0 ==> NextRetry(attempt, cfg, draw, wild) == NextRetry(attempt, cfg.(baseDelay := 30 * SECOND), draw, wild)
    ensures cfg.maxDelay <= 0 ==> NextRetry(attempt, cfg, draw, wild) == NextRetry(attempt, cfg.(maxDelay := 14400 * SECOND), draw, wild)
  {
    hide JitterFactor, Multiplier;
    if cfg.baseDelay <= 0 {
      SameEffect(attempt, cfg, cfg.(baseDelay := 30 * SECOND), draw, wild);
    }
    if cfg.maxDelay <= 0 {
      SameEffect(attempt, cfg, cfg.(maxDelay := 14400 * SECOND), draw, wild);
    }
    hide NextRetry;
  }

  lemma SameEffect(attempt: int, cfg: RetryConfig, cfg': RetryConfig, draw: Option<real>, wild: int)
    requires EffectiveBase(cfg) == EffectiveBase(cfg') && EffectiveMax(cfg) == EffectiveMax(cfg')
    ensures NextRetry(attempt, cfg, draw, wild) == NextRetry(attempt, cfg', draw, wild)
  {
    assert Raw(attempt, cfg, draw) == Raw(attempt, cfg', draw) by {
      hide JitterFactor, Multiplier;
    }
    hide Raw;
  }

  predicate Between(low: int, d: int, high: int) {
    low * SECOND <= d <= high * SECOND
  }

  /** The published schedule: about 30s, 2m, 10m, 1h and 4h, give or take a fifth, the last one cut off
      at four hours. */
  predicate Published(attempt: int, wait: int) {
    if attempt <= 1 then Between(24, wait, 36)
    else if attempt == 2 then Between(96, wait, 144)
    else if attempt == 3 then Between(480, wait, 720)
    else if attempt == 4 then Between(2880, wait, 4320)
    else Between(11520, wait, 14400)
  }

  /** With the default settings every draw falls in the published band of its attempt. */
  lemma DocumentedSchedule(attempt: int, draw: Option<real>, wild: int)
    ensures Published(attempt, NextRetry(attempt, Defaults(0).retry, draw, wild))
  {
    NextRetryInBand(attempt, Defaults(0).retry, draw, wild);
    hide NextRetry;
  }
}
