/**
 * The pure decision rules of the streaming pipeline (quant/streaming.py and
 * quant/config.py): the signal snapshot, the filter thresholds, the
 * order-book features of one top-of-book update, and the filter that
 * decides whether a snapshot is reported.
 */
module Signals {
  import opened Numbers

  /** `direction`: the source spells it "long" or "short". */
  datatype Direction = Long | Short

  datatype SignalSnapshot = SignalSnapshot(
    midPrice: real,
    spread: real,
    imbalanceTop1: real,
    volume10ms: real,
    volume50ms: real,
    volume100ms: real,
    probability: real,
    confidence: real,
    direction: Direction)

  datatype FilterThresholds = FilterThresholds(
    minConfidence: real,
    minProbabilityLong: real,
    maxProbabilityShort: real)

  /** The configured thresholds. */
  const DefaultThresholds := FilterThresholds(0.1, 0.55, 0.45)

  /**
   * `SignalFilter.allow`: a long signal needs a high enough probability, any
   * other a low enough one, and both a high enough confidence.
   */
  predicate Allow(t: FilterThresholds, s: SignalSnapshot)
    ensures Allow(t, s) ==> s.confidence >= t.minConfidence
  {
    if s.direction == Long then
      s.probability >= t.minProbabilityLong && s.confidence >= t.minConfidence
    else
      s.probability <= t.maxProbabilityShort && s.confidence >= t.minConfidence
  }

  /** The quoted spread, never negative even on a crossed book. */
  function Spread(bidPx: real, askPx: real): (s: real)
    ensures s >= 0.0 && s >= askPx - bidPx
    ensures s == 0.0 || s == askPx - bidPx
  {
    if askPx - bidPx >= 0.0 then askPx - bidPx else 0.0
  }

  /** Top-of-book size imbalance: zero when the sizes do not add up to a positive total. */
  function Imbalance(bidSz: real, askSz: real): (i: real)
    ensures bidSz + askSz <= 0.0 ==> i == 0.0
    ensures bidSz + askSz > 0.0 ==> i * (bidSz + askSz) == bidSz - askSz
  {
    var denom := bidSz + askSz;
    if denom > 0.0 then (bidSz - askSz) / denom else 0.0
  }

  /** The mid price. */
  function Mid(bidPx: real, askPx: real): (m: real)
    ensures bidPx <= askPx ==> bidPx <= m <= askPx
    ensures m - bidPx == askPx - m
  {
    0.5 * (bidPx + askPx)
  }

  /** `confidence`: the distance of the probability from one half, doubled and capped at 1. */
  function Confidence(p: real): (c: real)
    ensures 0.0 <= c <= 1.0
    ensures c <= 2.0 * Abs(p - 0.5)
  {
    if Abs(p - 0.5) * 2.0 <= 1.0 then Abs(p - 0.5) * 2.0 else 1.0
  }

  function DirectionOf(p: real): (d: Direction)
    ensures d == Long <==> p >= 0.5
  {
    if p >= 0.5 then Long else Short
  }

  /** The snapshot `process_book` reports for its features and prediction. */
  function Snapshot(mid: real, spread: real, imbalance: real, volumes: seq<real>, p: real): (s: SignalSnapshot)
    requires |volumes| == 3
    ensures s.confidence == Confidence(p) && s.direction == DirectionOf(p)
    ensures s.midPrice == mid && s.probability == p
  {
    SignalSnapshot(mid, spread, imbalance, volumes[0], volumes[1], volumes[2], p, Confidence(p), DirectionOf(p))
  }

  /** Imbalance lies in [-1, 1] for non-negative sizes, and leans toward the larger side. */
  lemma ImbalanceBounds(bidSz: real, askSz: real)
    requires bidSz >= 0.0 && askSz >= 0.0
    ensures -1.0 <= Imbalance(bidSz, askSz) <= 1.0
    ensures Imbalance(bidSz, askSz) > 0.0 <==> bidSz > askSz
    ensures Imbalance(bidSz, askSz) < 0.0 <==> bidSz < askSz
  {
    var d := bidSz + askSz;
    if d > 0.0 {
      var i := Imbalance(bidSz, askSz);
      assert i * d == bidSz - askSz;
      SignOfQuotient(i, d, bidSz - askSz);
      assert (i - 1.0) * d == i * d - d;
      assert (-1.0 - i) * d == -d - i * d;
      if i > 1.0 {
        ScaleAbove(i - 1.0, d);
      }
      if i < -1.0 {
        ScaleAbove(-1.0 - i, d);
      }
    }
  }

  lemma SignOfQuotient(q: real, d: real, n: real)
    requires d > 0.0 && q * d == n
    ensures q > 0.0 <==> n > 0.0
    ensures q < 0.0 <==> n < 0.0
  {
    if q > 0.0 {
      ScaleAbove(q, d);
    } else if q < 0.0 {
      ScaleAbove(-q, d);
    }
  }

  lemma ScaleAbove(x: real, d: real)
    requires x > 0.0 && d > 0.0
    ensures x * d > 0.0
  {
  }

  /** For a probability, the cap never binds: confidence is exactly `2 |p - 1/2|`. */
  lemma ConfidenceOfProbability(p: real)
    requires 0.0 <= p <= 1.0
    ensures Confidence(p) == 2.0 * Abs(p - 0.5)
  {
  }

  /**
   * With the configured thresholds, a snapshot of a probability `p` passes
   * the filter exactly when `p >= 0.55` or `p <= 0.45`: the confidence floor
   * of 0.1 is implied by the probability bands, and the band around one half
   * is dropped.
   */
  lemma DefaultFilterIsProbabilityBand(mid: real, spread: real, imbalance: real, volumes: seq<real>, p: real)
    requires |volumes| == 3 && 0.0 <= p <= 1.0
    ensures Allow(DefaultThresholds, Snapshot(mid, spread, imbalance, volumes, p)) <==> p >= 0.55 || p <= 0.45
  {
    ConfidenceOfProbability(p);
  }

  /**
   * Tightening the filter only drops signals: raising `min_confidence` or
   * `min_probability_long`, or lowering `max_probability_short`.
   */
  lemma StricterFilterAllowsLess(t: FilterThresholds, u: FilterThresholds, s: SignalSnapshot)
    requires u.minConfidence >= t.minConfidence
    requires u.minProbabilityLong >= t.minProbabilityLong
    requires u.maxProbabilityShort <= t.maxProbabilityShort
    ensures Allow(u, s) ==> Allow(t, s)
  {
  }
}
