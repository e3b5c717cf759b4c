/** The segmentation plan of the long-track generator: how long each
    generated segment may be, how many generation steps one segment gets,
    and how many segments cover the requested total duration. */
module Segmentation {

  /** The longest segment, in seconds, the generation engine is trusted with. */
  const MaxSegmentSeconds: int := 29

  /** The segment duration used instead of a request above the ceiling. */
  const FallbackSegmentSeconds: int := 28

  /** Autoregressive generation steps per second of audio. */
  const TokensPerSecond: nat := 50

  /** A request above the ceiling is reported with a warning. */
  predicate ClampWarns(requested: int) {
    requested > MaxSegmentSeconds
  }

  /** The segment duration actually used: a request above the ceiling is
      replaced by the fallback, anything else is kept as it is. */
  function EffectiveSegmentSeconds(requested: int): (s: int)
    ensures s <= MaxSegmentSeconds
    ensures ClampWarns(requested) <==> s != requested
    ensures ClampWarns(requested) ==> s == FallbackSegmentSeconds
  {
    if ClampWarns(requested) then FallbackSegmentSeconds else requested
  }

  /** Clamping a duration that was already clamped changes nothing and warns no more. */
  lemma ClampIdempotent(requested: int)
    ensures !ClampWarns(EffectiveSegmentSeconds(requested))
    ensures EffectiveSegmentSeconds(EffectiveSegmentSeconds(requested)) == EffectiveSegmentSeconds(requested)
  {
  }

  /** A positive request stays positive, so the plan never divides by zero
      once the caller has asked for a positive duration. */
  lemma ClampKeepsPositive(requested: int)
    requires requested > 0
    ensures 0 < EffectiveSegmentSeconds(requested) <= MaxSegmentSeconds
  {
  }

  /** The generation-step budget of one segment of the given duration;
      dividing it by the rate gives the duration back, so equal budgets
      mean equal durations. */
  function TokenBudget(seconds: nat): (tokens: nat)
    ensures tokens % TokensPerSecond == 0
    ensures tokens / TokensPerSecond == seconds
  {
    seconds * TokensPerSecond
  }

  /** No clamped segment asks the engine for more steps than the ceiling allows. */
  lemma TokenBudgetBounded(requested: int)
    requires requested > 0
    ensures TokenBudget(EffectiveSegmentSeconds(requested)) <= MaxSegmentSeconds * TokensPerSecond
  {
    var s := EffectiveSegmentSeconds(requested);
    assert TokenBudget(s) == s * 50;
  }

  /** The number of segments: the ceiling of total over segment duration.
      That many segments reach the total; one fewer does not. */
  function SegmentCount(totalSeconds: int, segmentSeconds: int): (n: nat)
    requires totalSeconds > 0 && segmentSeconds > 0
    ensures n >= 1
    ensures n * segmentSeconds >= totalSeconds
    ensures (n - 1) * segmentSeconds < totalSeconds
  {
    var q := (totalSeconds + segmentSeconds - 1) / segmentSeconds;
    var r := (totalSeconds + segmentSeconds - 1) % segmentSeconds;
    assert totalSeconds + segmentSeconds - 1 == q * segmentSeconds + r;
    assert (q - 1) * segmentSeconds == q * segmentSeconds - segmentSeconds;
    q
  }

  /** The count is the least number of segments that covers the total: any
      count whose segments reach the total is at least as large. */
  lemma SegmentCountMinimal(totalSeconds: int, segmentSeconds: int, m: int)
    requires totalSeconds > 0 && segmentSeconds > 0
    requires m * segmentSeconds >= totalSeconds
    ensures m >= SegmentCount(totalSeconds, segmentSeconds)
  {
    var n := SegmentCount(totalSeconds, segmentSeconds);
    if m < n {
      assert m <= n - 1;
      MultiplyMonotone(m, n - 1, segmentSeconds);
      assert false;
    }
  }

  /** The count is determined by its two bounds: a count that reaches the
      total while one fewer does not is the ceiling. */
  lemma SegmentCountUnique(totalSeconds: int, segmentSeconds: int, m: int)
    requires totalSeconds > 0 && segmentSeconds > 0
    requires m * segmentSeconds >= totalSeconds
    requires (m - 1) * segmentSeconds < totalSeconds
    ensures m == SegmentCount(totalSeconds, segmentSeconds)
  {
    var n := SegmentCount(totalSeconds, segmentSeconds);
    SegmentCountMinimal(totalSeconds, segmentSeconds, m);
    if m > n {
      assert n <= m - 1;
      MultiplyMonotone(n, m - 1, segmentSeconds);
      assert false;
    }
  }

  lemma MultiplyMonotone(a: int, b: int, c: int)
    requires a <= b && c >= 0
    ensures a * c <= b * c
  {
    assert b * c - a * c == (b - a) * c;
  }

  lemma MultiplyAssociative(a: int, b: int, c: int)
    ensures a * (b * c) == (a * b) * c
  {
  }

  /** The default request: 225 seconds in 28-second segments is nine
      segments of 1400 generation steps each. */
  lemma DefaultRequestPlan()
    ensures EffectiveSegmentSeconds(28) == 28
    ensures TokenBudget(28) == 1400
    ensures SegmentCount(225, 28) == 9
  {
    SegmentCountUnique(225, 28, 9);
  }

  /** A 30-second request is clamped to 28 seconds: 60 seconds then take three segments. */
  lemma OverCeilingRequestPlan()
    ensures ClampWarns(30) && EffectiveSegmentSeconds(30) == 28
    ensures SegmentCount(60, EffectiveSegmentSeconds(30)) == 3
  {
    SegmentCountUnique(60, 28, 3);
  }
}
