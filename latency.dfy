/**
 * Latency accounting of the streaming pipeline (quant/streaming.py): the
 * clamped per-stage segments, their sum, and the Rust-backed latency ring
 * that keeps the last totals for percentile reporting.
 */
module Latency {
  import opened Wrappers
  import opened RingLaws
  import opened RustRing
  import opened Percentile

  /**
   * A stage's latency from two clock readings, clamped at zero so that clock
   * skew never yields a negative segment.
   */
  function Clamp(from: int, to: int): (us: nat)
    ensures us >= to - from
    ensures to >= from ==> us == to - from
    ensures to < from ==> us == 0
  {
    if to >= from then to - from else 0
  }

  /** The four segments of one message's latency. */
  datatype LatencyBreakdown = LatencyBreakdown(networkUs: int, parseUs: int, factorUs: int, dispatchUs: int)
  {
    /** `total_us`: the sum of the segments, not a separate measurement. */
    function TotalUs(): (total: int)
      ensures networkUs >= 0 && parseUs >= 0 && factorUs >= 0 && dispatchUs >= 0 ==>
        total >= networkUs && total >= parseUs && total >= factorUs && total >= dispatchUs
    {
      networkUs + parseUs + factorUs + dispatchUs
    }
  }

  /**
   * The breakdown `_process_entry` builds from its clock readings: the
   * exchange time of the entry, the frame's arrival, the end of decoding,
   * the start and end of the feature step, and the moment the line is ready.
   */
  function Breakdown(exchangeUs: int, receivedUs: int, parsedUs: int,
                     factorStartUs: int, factorEndUs: int, dispatchReadyUs: int): (b: LatencyBreakdown)
    ensures b.networkUs >= 0 && b.parseUs >= 0 && b.factorUs >= 0 && b.dispatchUs >= 0
  {
    LatencyBreakdown(
      Clamp(exchangeUs, receivedUs),
      Clamp(receivedUs, parsedUs),
      Clamp(factorStartUs, factorEndUs),
      Clamp(factorEndUs, dispatchReadyUs))
  }

  /**
   * The total never under-reports: it is at least the time from the
   * exchange timestamp to the dispatch-ready reading, less the untimed gap
   * between decoding and the start of the feature step; when the readings
   * are in clock order it equals exactly that.
   */
  lemma TotalCoversEndToEnd(exchangeUs: int, receivedUs: int, parsedUs: int,
                            factorStartUs: int, factorEndUs: int, dispatchReadyUs: int)
    ensures var total := Breakdown(exchangeUs, receivedUs, parsedUs, factorStartUs, factorEndUs, dispatchReadyUs).TotalUs();
      && total >= 0
      && total >= (dispatchReadyUs - exchangeUs) - (factorStartUs - parsedUs)
      && (exchangeUs <= receivedUs <= parsedUs && factorStartUs <= factorEndUs <= dispatchReadyUs ==>
            total == (dispatchReadyUs - exchangeUs) - (factorStartUs - parsedUs))
  {
  }

  /** The percentile ring of the streaming pipeline, backed by the Rust ring. */
  class LatencyRing {
    const buffer: RingBuffer<int>
    ghost const Repr: set<object>

    ghost predicate Valid()
      reads this, Repr
    {
      && Repr == {this, buffer} + buffer.Repr
      && this !in buffer.Repr
      && buffer.Valid()
    }

    /** The totals the ring holds, oldest first. */
    ghost function Samples(): seq<int>
      reads this, buffer
    {
      buffer.Contents()
    }

    constructor (capacity: nat)
      requires capacity > 0
      ensures Valid() && fresh(Repr)
      ensures buffer.capacity == capacity && buffer.History == []
    {
      var b := new RingBuffer<int>.Init(capacity);
      buffer := b;
      Repr := {this, b} + b.Repr;
    }

    /** `add`: one more sample, the oldest dropped once the ring is full. */
    method Add(valueUs: int)
      requires Valid()
      modifies Repr
      ensures Valid()
      ensures buffer.History == old(buffer.History) + [valueUs]
    {
      buffer.Push(valueUs);
    }

    /**
     * `percentiles`: nothing for an empty ring; otherwise the two requested
     * percentiles of the linearised samples.
     */
    method Percentiles(p0: int, p1: int) returns (r: Option<(real, real)>)
      requires Valid()
      requires 0 <= p0 <= 100 && 0 <= p1 <= 100
      ensures r.None? <==> |buffer.History| == 0
      ensures r.Some? ==> r.value == (PercentileOf(Samples(), p0), PercentileOf(Samples(), p1))
    {
      if buffer.Len() == 0 {
        return None;
      }
      var data := buffer.SnapshotVec();
      return Some((PercentileOf(data, p0), PercentileOf(data, p1)));
    }
  }
}
