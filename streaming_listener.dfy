/**
 * The per-entry step of the streaming listener (`OkxListener._process_entry`
 * in quant/streaming.py).  An entry with a readable timestamp is routed to
 * its instrument's feature pipeline; a recorded trade, or a book update that
 * yields a signal the filter lets through, adds the entry's total latency to
 * the ring of its channel and instrument.  Rings and pipelines are created
 * on first use.
 *
 * The clock readings the source takes with `_now_us()` are parameters, and
 * the printed lines become a `Report` value.
 */
module StreamingListener {
  import opened Wrappers
  import opened Values
  import opened Signals
  import opened Latency
  import opened Percentile
  import opened Pipeline
  import Logistic

  /** Capacity of each latency ring. */
  const LatencyWindowCapacity: nat := 2048
  /** The two percentiles every report carries. */
  const LowPercentile: int := 50
  const HighPercentile: int := 95

  /** The latency ring of a channel and instrument is keyed `"channel:instId"`. */
  function Key(channel: string, instId: string): (k: string)
    ensures |k| == |channel| + 1 + |instId|
    ensures k[..|channel|] == channel && k[|channel|] == ':' && k[|channel| + 1..] == instId
  {
    channel + ":" + instId
  }

  /** The entry's own `instId` wins over the message's. */
  function EntryInstId(e: Entry, instId: string): string
  {
    e.instId.GetOr(instId)
  }

  /** `channel.startswith("books")`. */
  predicate IsBooks(channel: string)
  {
    |channel| >= 5 && channel[..5] == "books"
  }

  /** The readings of the wall clock during one entry: frame arrival, end of decoding, and three taken while the entry is handled. */
  datatype Clocks = Clocks(receivedUs: int, parsedUs: int, factorStartUs: int, factorEndUs: int, dispatchReadyUs: int)

  /** The breakdown of an entry stamped `tsUs` (microseconds) under the readings `c`. */
  function EntryBreakdown(tsUs: int, c: Clocks): (b: LatencyBreakdown)
    ensures b.TotalUs() >= 0
  {
    Breakdown(tsUs, c.receivedUs, c.parsedUs, c.factorStartUs, c.factorEndUs, c.dispatchReadyUs)
  }

  /**
   * What handling one entry prints: nothing; a trade line with the trade,
   * the latency, the ring's percentiles and the latest signal when the
   * filter passes it; a signal line; or the exception `float(px)` raises.
   */
  datatype Report =
    | Silent
    | TradeLine(summary: TradeSummary, breakdown: LatencyBreakdown, stats: Option<(real, real)>, signal: Option<SignalSnapshot>)
    | SignalLine(snapshot: SignalSnapshot, breakdown: LatencyBreakdown, stats: Option<(real, real)>)
    | Raised
  {
    /** The reports that add a latency sample. */
    predicate Timed()
    {
      TradeLine? || SignalLine?
    }
  }

  /** The signal a trade line shows: the pipeline's latest snapshot, when the filter lets it through. */
  function ShownSignal(latest: Option<SignalSnapshot>): (s: Option<SignalSnapshot>)
    ensures s.Some? <==> latest.Some? && Allow(DefaultThresholds, latest.value)
    ensures s.Some? ==> s == latest
  {
    if latest.Some? && Allow(DefaultThresholds, latest.value) then latest else None
  }

  /**
   * What a `trades` entry prints, given the pipeline's latest snapshot:
   * nothing when it is skipped, the exception when its price does not
   * convert, and otherwise the trade line with the snapshot the filter lets
   * through.
   */
  predicate TradeReported(e: Entry, latest: Option<SignalSnapshot>, report: Report)
  {
    match ParseTrade(e)
    case None => report == Silent
    case Some((tsUs, size)) =>
      var outcome := Summarize(tsUs, TradeSide(e), e.px, SignedVolume(TradeSide(e), size));
      && (outcome.PriceRaised? ==> report == Raised)
      && (outcome.Recorded? ==> report.TradeLine? && report.summary == outcome.summary
                                && report.signal == ShownSignal(latest))
  }

  /**
   * What a `books*` entry prints, given the pipeline `v` it is processed
   * on: the signal line exactly when the update parses and its new snapshot
   * passes the filter, and nothing otherwise.
   */
  predicate BookReported(e: Entry, v: PipelineView, report: Report)
    requires Consistent(v)
  {
    match ParseBookTop(e)
    case None => report == Silent
    case Some(top) =>
      var snapshot := AfterBook(v, top).latest.value;
      && (report.SignalLine? <==> Allow(DefaultThresholds, snapshot))
      && (report.SignalLine? ==> report.snapshot == snapshot)
      && (!report.SignalLine? ==> report == Silent)
  }

  /** The pipeline after an entry of `channel`: trades are recorded, book updates processed, anything else ignored. */
  function Routed(channel: string, v: PipelineView, e: Entry): (r: PipelineView)
    requires Consistent(v)
    ensures Consistent(r)
    ensures channel != "trades" ==> r.tradeTimes == v.tradeTimes && r.tradeVolumes == v.tradeVolumes
    ensures channel == "trades" ==> r.model == v.model && r.latest == v.latest
    ensures channel != "trades" && !IsBooks(channel) ==> r == v
  {
    if channel == "trades" then AfterTrade(v, e)
    else if IsBooks(channel) then AfterBookEntry(v, e)
    else v
  }

  /** What an entry of `channel` prints, given the pipeline `v` it is routed to. */
  predicate ReportedFor(channel: string, e: Entry, v: PipelineView, report: Report)
    requires Consistent(v)
  {
    if channel == "trades" then TradeReported(e, v.latest, report)
    else if IsBooks(channel) then BookReported(e, v, report)
    else report == Silent
  }

  /** Adds one total to the ring and reads back the two percentiles, as both report branches do. */
  method AddAndMeasure(ring: LatencyRing, total: int) returns (stats: Option<(real, real)>)
    requires ring.Valid()
    modifies ring.Repr
    ensures ring.Valid()
    ensures ring.buffer.History == old(ring.buffer.History) + [total]
    ensures stats == Some((PercentileOf(ring.Samples(), LowPercentile), PercentileOf(ring.Samples(), HighPercentile)))
  {
    ring.Add(total);
    stats := ring.Percentiles(LowPercentile, HighPercentile);
  }

  /**
   * The `trades` branch: the trade is recorded; a skipped trade prints
   * nothing, a raising price propagates, and a recorded one adds its total
   * latency to the ring.
   */
  method RouteTrade(e: Entry, tsUs: int, c: Clocks, ring: LatencyRing, pipeline: FeaturePipeline) returns (report: Report)
    requires ring.Valid() && pipeline.Valid() && ring.Repr !! pipeline.Repr
    modifies ring.Repr, pipeline.tradeBuffer.Repr
    ensures ring.Valid() && pipeline.Valid()
    ensures ViewOf(pipeline) == AfterTrade(old(ViewOf(pipeline)), e)
    ensures TradeReported(e, pipeline.latestSnapshot, report)
    ensures report.Timed() ==>
      && report.breakdown == EntryBreakdown(tsUs, c)
      && ring.buffer.History == old(ring.buffer.History) + [report.breakdown.TotalUs()]
      && report.stats == Some((PercentileOf(ring.Samples(), LowPercentile), PercentileOf(ring.Samples(), HighPercentile)))
    ensures !report.Timed() ==> ring.buffer.History == old(ring.buffer.History)
  {
    var outcome := pipeline.RecordTrade(e);
    label recorded:
    match outcome
    case Skipped =>
      report := Silent;
    case PriceRaised =>
      report := Raised;
    case Recorded(summary) =>
      var signal := ShownSignal(pipeline.latestSnapshot);
      var breakdown := EntryBreakdown(tsUs, c);
      var stats := AddAndMeasure(ring, breakdown.TotalUs());
      assert unchanged@recorded(pipeline.Repr);
      report := TradeLine(summary, breakdown, stats, signal);
  }

  /**
   * The `books*` branch: the update is processed; only a snapshot the
   * filter lets through adds its total latency and prints.
   */
  method RouteBook(e: Entry, tsUs: int, c: Clocks, ring: LatencyRing, pipeline: FeaturePipeline) returns (report: Report)
    requires ring.Valid() && pipeline.Valid() && ring.Repr !! pipeline.Repr
    modifies ring.Repr, pipeline, pipeline.volumes, pipeline.features, pipeline.model
    ensures ring.Valid() && pipeline.Valid()
    ensures ViewOf(pipeline) == AfterBookEntry(old(ViewOf(pipeline)), e)
    ensures BookReported(e, old(ViewOf(pipeline)), report)
    ensures report.Timed() ==>
      && report.breakdown == EntryBreakdown(tsUs, c)
      && ring.buffer.History == old(ring.buffer.History) + [report.breakdown.TotalUs()]
      && report.stats == Some((PercentileOf(ring.Samples(), LowPercentile), PercentileOf(ring.Samples(), HighPercentile)))
    ensures !report.Timed() ==> ring.buffer.History == old(ring.buffer.History)
  {
    var snapshot := pipeline.ProcessBook(e);
    label processed:
    report := SignalReport(snapshot, tsUs, c, ring);
    assert unchanged@processed(pipeline.Repr);
  }

  /** A snapshot the filter lets through adds its total latency and prints; anything else prints nothing. */
  method SignalReport(snapshot: Option<SignalSnapshot>, tsUs: int, c: Clocks, ring: LatencyRing) returns (report: Report)
    requires ring.Valid()
    modifies ring.Repr
    ensures ring.Valid()
    ensures report.SignalLine? <==> snapshot.Some? && Allow(DefaultThresholds, snapshot.value)
    ensures report.SignalLine? ==> report.snapshot == snapshot.value
    ensures !report.SignalLine? ==> report == Silent
    ensures report.Timed() ==>
      && report.breakdown == EntryBreakdown(tsUs, c)
      && ring.buffer.History == old(ring.buffer.History) + [report.breakdown.TotalUs()]
      && report.stats == Some((PercentileOf(ring.Samples(), LowPercentile), PercentileOf(ring.Samples(), HighPercentile)))
    ensures !report.Timed() ==> ring.buffer.History == old(ring.buffer.History)
  {
    if snapshot.None? || !Allow(DefaultThresholds, snapshot.value) {
      return Silent;
    }
    var breakdown := EntryBreakdown(tsUs, c);
    var stats := AddAndMeasure(ring, breakdown.TotalUs());
    report := SignalLine(snapshot.value, breakdown, stats);
  }

  /**
   * `dict.get(key)` followed by storing `made` when the key is absent, as the
   * listener does for its rings and pipelines: the map afterwards and the
   * value found or stored.
   */
  function GetOrInsert<V>(m: map<string, V>, key: string, made: V): (r: (map<string, V>, V))
    ensures key in r.0 && r.0[key] == r.1
    ensures r.0.Keys == m.Keys + {key}
    ensures forall k | k in m :: k in r.0 && r.0[k] == m[k]
    ensures key !in m ==> r.1 == made
  {
    if key in m then (m, m[key]) else (m[key := made], made)
  }

  /** A second lookup of the same key finds what the first one stored and changes nothing. */
  lemma GetOrInsertIdempotent<V>(m: map<string, V>, key: string, made: V, other: V)
    ensures var r := GetOrInsert(m, key, made);
      GetOrInsert(r.0, key, other) == r
  {
  }

  /**
   * Where an entry goes: nothing when its `ts` is not an integer; otherwise
   * the ring key, the instrument and the timestamp in microseconds.
   */
  function EntryTarget(channel: string, instId: string, e: Entry): (t: Option<(string, string, int)>)
    ensures t.None? <==> ParseInt(e.ts).None?
    ensures t.Some? ==>
      && t.value.1 == EntryInstId(e, instId)
      && t.value.0 == Key(channel, t.value.1)
      && t.value.2 == ParseInt(e.ts).value * 1000
  {
    var ms := ParseInt(e.ts);
    if ms.None? then None
    else
      var inst := EntryInstId(e, instId);
      Some((Key(channel, inst), inst, ms.value * 1000))
  }

  /** The objects handling an entry may change: those of the ring and of the pipeline it resolves to, when they exist. */
  ghost function EntryFrame(channel: string, instId: string, e: Entry,
                            rings: map<string, LatencyRing>, pipelines: map<string, FeaturePipeline>): set<object>
  {
    var t := EntryTarget(channel, instId, e);
    if t.None? then {}
    else
      (if t.value.0 in rings then rings[t.value.0].Repr else {})
      + (if t.value.1 in pipelines then pipelines[t.value.1].Repr else {})
  }

  /**
   * The ring and pipeline an entry resolves to, when they already exist,
   * are valid and own disjoint objects.
   */
  ghost predicate TargetsValid(channel: string, instId: string, e: Entry,
                               rings: map<string, LatencyRing>, pipelines: map<string, FeaturePipeline>)
    reads EntryFrame(channel, instId, e, rings, pipelines)
      + (set k | k in rings :: rings[k]) + (set k | k in pipelines :: pipelines[k])
  {
    var t := EntryTarget(channel, instId, e);
    t.Some? ==>
      && (t.value.0 in rings ==> rings[t.value.0].Valid())
      && (t.value.1 in pipelines ==> pipelines[t.value.1].Valid())
      && (t.value.0 in rings && t.value.1 in pipelines ==>
            rings[t.value.0].Repr !! pipelines[t.value.1].Repr)
  }

  /**
   * Sends an entry with a readable timestamp to its pipeline by channel:
   * trades to `RouteTrade`, `books*` updates to `RouteBook`, and any other
   * channel prints nothing and changes nothing.
   */
  method RouteEntry(channel: string, e: Entry, tsUs: int, c: Clocks, ring: LatencyRing, pipeline: FeaturePipeline)
    returns (report: Report)
    requires ring.Valid() && pipeline.Valid() && ring.Repr !! pipeline.Repr
    modifies ring.Repr, pipeline.Repr
    ensures ring.Valid() && pipeline.Valid()
    ensures ring.buffer.History == old(ring.buffer.History) + (if report.Timed() then [report.breakdown.TotalUs()] else [])
    ensures report.Timed() ==>
      && report.breakdown == EntryBreakdown(tsUs, c)
      && report.stats == Some((PercentileOf(ring.Samples(), LowPercentile), PercentileOf(ring.Samples(), HighPercentile)))
    ensures ViewOf(pipeline) == Routed(channel, old(ViewOf(pipeline)), e)
    ensures ReportedFor(channel, e, old(ViewOf(pipeline)), report)
    ensures channel != "trades" && !IsBooks(channel) ==> unchanged(pipeline.Repr)
  {
    if channel == "trades" {
      report := RouteTrade(e, tsUs, c, ring, pipeline);
    } else if IsBooks(channel) {
      report := RouteBook(e, tsUs, c, ring, pipeline);
    } else {
      report := Silent;
    }
  }

  /**
   * `_process_entry`: an entry without an integer timestamp is dropped and
   * neither map changes.  Otherwise the ring of `"channel:instId"` (created
   * with the configured capacity) and the instrument's pipeline (the entry's
   * `instId` wins over the message's) are looked up or created, and the
   * entry is routed; that ring gains exactly the report's total latency
   * when the report is timed, and nothing else.
   */
  method ProcessEntry(channel: string, instId: string, e: Entry, c: Clocks,
                      rings: map<string, LatencyRing>, pipelines: map<string, FeaturePipeline>)
    returns (report: Report, rings': map<string, LatencyRing>, pipelines': map<string, FeaturePipeline>)
    requires TargetsValid(channel, instId, e, rings, pipelines)
    modifies EntryFrame(channel, instId, e, rings, pipelines)
    ensures EntryTarget(channel, instId, e).None? ==> report == Silent && rings' == rings && pipelines' == pipelines
    ensures EntryTarget(channel, instId, e).Some? ==>
      var t := EntryTarget(channel, instId, e).value;
      && t.0 in rings' && t.1 in pipelines'
      && rings' == GetOrInsert(rings, t.0, rings'[t.0]).0
      && pipelines' == GetOrInsert(pipelines, t.1, pipelines'[t.1]).0
      && rings'[t.0].Valid() && pipelines'[t.1].Valid()
      && (t.0 !in rings ==> fresh(rings'[t.0].Repr) && rings'[t.0].buffer.capacity == LatencyWindowCapacity)
      && (t.1 !in pipelines ==> fresh(pipelines'[t.1].Repr) && pipelines'[t.1].instrument == t.1)
      && rings'[t.0].buffer.History ==
           (if t.0 in rings then old(rings[t.0].buffer.History) else [])
           + (if report.Timed() then [report.breakdown.TotalUs()] else [])
      && (report.Timed() ==> report.breakdown == EntryBreakdown(t.2, c))
    ensures EntryTarget(channel, instId, e).Some? ==>
      var t := EntryTarget(channel, instId, e).value;
      var before := if t.1 in pipelines then old(ViewOf(pipelines[t.1])) else InitialView();
      && Consistent(before)
      && ViewOf(pipelines'[t.1]) == Routed(channel, before, e)
      && ReportedFor(channel, e, before, report)
  {
    var target := EntryTarget(channel, instId, e);
    if target.None? {
      return Silent, rings, pipelines;
    }
    var (key, inst, tsUs) := target.value;
    var ring: LatencyRing;
    if key in rings {
      ring := rings[key];
      rings' := rings;
    } else {
      ring := new LatencyRing(LatencyWindowCapacity);
      rings' := rings[key := ring];
    }
    var pipeline: FeaturePipeline;
    if inst in pipelines {
      pipeline := pipelines[inst];
      pipelines' := pipelines;
    } else {
      pipeline := new FeaturePipeline(inst);
      pipelines' := pipelines[inst := pipeline];
    }
    report := RouteEntry(channel, e, tsUs, c, ring, pipeline);
  }
}
