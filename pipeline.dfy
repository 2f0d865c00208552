/**
 * The per-instrument feature pipeline (`FeaturePipeline` in
 * quant/streaming.py): trades go into a trade buffer; each top-of-book
 * update yields five features, trains the online model on the previous
 * update's features once the mid price has moved, and predicts on the
 * current ones.
 */
module Pipeline {
  import opened Wrappers
  import opened Numbers
  import opened Values
  import opened Signals
  import opened Logistic
  import TradeWindows
  import RingLaws

  /** Capacity of each instrument's trade buffer. */
  const TradeBufferCapacity: nat := 4096
  /** The three trade-volume windows, in microseconds. */
  const WindowsUs: seq<int> := [10000, 50000, 100000]
  /** The model's rate schedule: initial rate, decay per update, floor. */
  const InitialLearningRate: real := 0.05
  const DecayRate: real := 0.999
  const MinLearningRate: real := 0.0001

  /** ASCII case folding of one character; other characters are kept. */
  function LowerChar(c: char): char
  {
    if 'A' <= c <= 'Z' then (c as int - 'A' as int + 'a' as int) as char else c
  }

  /** `str.lower()` on ASCII letters. */
  function Lower(s: string): (r: string)
    ensures |r| == |s|
    ensures forall i :: 0 <= i < |s| ==> r[i] == LowerChar(s[i])
  {
    seq(|s|, i requires 0 <= i < |s| => LowerChar(s[i]))
  }

  /** The side a trade entry is recorded with: lower-cased, empty when absent. */
  function TradeSide(e: Entry): string
  {
    Lower(e.side.GetOr(""))
  }

  /**
   * The signed volume of a trade: a sale counts negative, every other side,
   * unknown ones included, positive.
   */
  function SignedVolume(side: string, size: real): (v: real)
    ensures Abs(v) == Abs(size)
    ensures size > 0.0 ==> (v < 0.0 <==> side == "sell")
    ensures size > 0.0 ==> (v > 0.0 <==> side != "sell")
  {
    if side != "sell" then size else -size
  }

  /**
   * The timestamp (converted from milliseconds to microseconds) and size of
   * a trade entry; `None` when either is missing or is not a number.
   */
  function ParseTrade(e: Entry): (r: Option<(int, real)>)
    ensures r.Some? <==> ParseInt(e.ts).Some? && ParseFloat(e.sz).Some?
    ensures r.Some? ==> r.value.0 == ParseInt(e.ts).value * 1000 && r.value.1 == ParseFloat(e.sz).value
  {
    if e.ts.Null? || e.sz.Null? then None
    else
      match ParseInt(e.ts)
      case None => None
      case Some(ms) =>
        match ParseFloat(e.sz)
        case None => None
        case Some(size) => Some((ms * 1000, size))
  }

  /** What `record_trade` reports about a buffered trade; `price` is `None` for the source's NaN. */
  datatype TradeSummary = TradeSummary(tsUs: int, side: string, price: Option<real>, signedVolume: real, absVolume: real)

  /**
   * The outcome of `record_trade`: nothing recorded, a recorded trade, or
   * the `ValueError`/`TypeError` that `float(px)` raises after the trade
   * was already buffered.
   */
  datatype TradeOutcome = Skipped | Recorded(summary: TradeSummary) | PriceRaised

  /** The outcome once a trade of signed volume `signed` has been buffered. */
  function Summarize(tsUs: int, side: string, px: Value, signed: real): (o: TradeOutcome)
    ensures o != Skipped
    ensures o.PriceRaised? <==> !px.Null? && ParseFloat(px).None?
    ensures o.Recorded? ==> o.summary.tsUs == tsUs && o.summary.signedVolume == signed
    ensures o.Recorded? ==> o.summary.absVolume == Abs(signed) && o.summary.absVolume >= 0.0
    ensures o.Recorded? ==> o.summary.side == (if side == [] then "?" else side)
    ensures o.Recorded? ==> (o.summary.price.None? <==> px.Null?)
  {
    var shown := if side == [] then "?" else side;
    if px.Null? then Recorded(TradeSummary(tsUs, shown, None, signed, Abs(signed)))
    else
      match ParseFloat(px)
      case None => PriceRaised
      case Some(price) => Recorded(TradeSummary(tsUs, shown, Some(price), signed, Abs(signed)))
  }

  /** The best bid and ask of a book update, with its timestamp in microseconds. */
  datatype BookTop = BookTop(tsUs: int, bidPx: real, bidSz: real, askPx: real, askSz: real)

  /** `float(levels[0][j])`; `None` where the indexing or the conversion raises. */
  function TopField(levels: Value, j: nat): Option<real>
  {
    match Index(levels, 0)
    case None => None
    case Some(level) =>
      match Index(level, j)
      case None => None
      case Some(field) => ParseFloat(field)
  }

  /**
   * The parse step of `process_book`: `None` when the timestamp is missing,
   * either side of the book is empty, or the timestamp or one of the four
   * top-of-book numbers does not parse.
   */
  function ParseBookTop(e: Entry): (r: Option<BookTop>)
    ensures e.ts.Null? || !Truthy(e.bids) || !Truthy(e.asks) ==> r.None?
    ensures r.Some? <==>
      && !e.ts.Null? && Truthy(e.bids) && Truthy(e.asks)
      && ParseInt(e.ts).Some?
      && TopField(e.bids, 0).Some? && TopField(e.bids, 1).Some?
      && TopField(e.asks, 0).Some? && TopField(e.asks, 1).Some?
    ensures r.Some? ==> r.value == BookTop(ParseInt(e.ts).value * 1000,
      TopField(e.bids, 0).value, TopField(e.bids, 1).value,
      TopField(e.asks, 0).value, TopField(e.asks, 1).value)
  {
    if e.ts.Null? || !Truthy(e.bids) || !Truthy(e.asks) then None
    else
      match (ParseInt(e.ts), TopField(e.bids, 0), TopField(e.bids, 1), TopField(e.asks, 0), TopField(e.asks, 1))
      case (Some(ms), Some(bidPx), Some(bidSz), Some(askPx), Some(askSz)) =>
        Some(BookTop(ms * 1000, bidPx, bidSz, askPx, askSz))
      case _ => None
  }

  /** The feature vector: imbalance, spread, and the three window volumes. */
  function BookFeatures(top: BookTop, volumes: seq<real>): (f: seq<real>)
    requires |volumes| == 3
    ensures |f| == 5 && f[2..] == volumes
    ensures f[1] >= 0.0
  {
    [Imbalance(top.bidSz, top.askSz), Spread(top.bidPx, top.askPx), volumes[0], volumes[1], volumes[2]]
  }

  /**
   * The training step of `process_book`: with features and mid pending from
   * the previous update, one update toward 1 when the mid rose and toward 0
   * when it fell; no update when it is level or nothing is pending.
   */
  function Train(s: ModelState, pending: Option<(seq<real>, real)>, mid: real): (r: ModelState)
    requires pending.Some? ==> |pending.value.0| == |s.weights|
    ensures |r.weights| == |s.weights|
    ensures pending.None? || mid == pending.value.1 ==> r == s
    ensures pending.Some? && mid != pending.value.1 ==> r.learningRate == NextRate(s.learningRate, DecayRate, MinLearningRate)
  {
    match pending
    case None => s
    case Some((features, prevMid)) =>
      if mid > prevMid then Updated(s, DecayRate, MinLearningRate, features, 1.0)
      else if mid < prevMid then Updated(s, DecayRate, MinLearningRate, features, 0.0)
      else s
  }

  /**
   * Training follows the mid: the model's prediction on the pending
   * features does not fall after an up-move and does not rise after a
   * down-move; without a move, or without pending features, the model is
   * left as it was.
   */
  lemma TrainFollowsMid(s: ModelState, pending: Option<(seq<real>, real)>, mid: real)
    requires pending.Some? ==> |pending.value.0| == |s.weights|
    ensures pending.None? ==> Train(s, pending, mid) == s
    ensures pending.Some? && mid == pending.value.1 ==> Train(s, pending, mid) == s
    ensures pending.Some? && mid > pending.value.1 ==>
      PredictOn(Train(s, pending, mid), pending.value.0) >= PredictOn(s, pending.value.0)
    ensures pending.Some? && mid < pending.value.1 ==>
      PredictOn(Train(s, pending, mid), pending.value.0) <= PredictOn(s, pending.value.0)
  {
    if pending.Some? {
      var (features, prevMid) := pending.value;
      if mid > prevMid {
        UpdateMovesTowardLabel(s, DecayRate, MinLearningRate, features, 1.0);
      } else if mid < prevMid {
        UpdateMovesTowardLabel(s, DecayRate, MinLearningRate, features, 0.0);
      }
    }
  }

  /**
   * Everything a pipeline holds, as a value: the trades pushed so far (the
   * buffer keeps the last `TradeBufferCapacity` of them), the window volumes
   * and features of the last book update, the model state, the pending
   * features and mid, and the latest snapshot.
   */
  datatype PipelineView = PipelineView(
    tradeTimes: seq<int>,
    tradeVolumes: seq<real>,
    windowVolumes: seq<real>,
    features: seq<real>,
    model: ModelState,
    pending: Option<(seq<real>, real)>,
    latest: Option<SignalSnapshot>)

  /** The shape every pipeline keeps: one volume per trade, five weights, five pending features. */
  ghost predicate Consistent(v: PipelineView)
  {
    && |v.tradeTimes| == |v.tradeVolumes|
    && |v.model.weights| == 5
    && (v.pending.Some? ==> |v.pending.value.0| == 5)
  }

  /** A new pipeline: no trades, zero volumes, features and weights, the initial rate. */
  function InitialView(): (v: PipelineView)
    ensures Consistent(v)
    ensures v.tradeTimes == [] && v.pending.None? && v.latest.None?
  {
    PipelineView([], [], [0.0, 0.0, 0.0], [0.0, 0.0, 0.0, 0.0, 0.0],
                 ModelState([0.0, 0.0, 0.0, 0.0, 0.0], 0.0, InitialLearningRate), None, None)
  }

  /**
   * `record_trade` on the view: an unparsable entry changes nothing;
   * otherwise its timestamp and signed size are appended and nothing else
   * changes.
   */
  function AfterTrade(v: PipelineView, e: Entry): (r: PipelineView)
    ensures Consistent(v) ==> Consistent(r)
    ensures r.(tradeTimes := v.tradeTimes, tradeVolumes := v.tradeVolumes) == v
    ensures ParseTrade(e).None? <==> r.tradeTimes == v.tradeTimes
    ensures ParseTrade(e).Some? ==>
      && r.tradeTimes == v.tradeTimes + [ParseTrade(e).value.0]
      && r.tradeVolumes == v.tradeVolumes + [SignedVolume(TradeSide(e), ParseTrade(e).value.1)]
  {
    match ParseTrade(e)
    case None => v
    case Some((tsUs, size)) =>
      v.(tradeTimes := v.tradeTimes + [tsUs], tradeVolumes := v.tradeVolumes + [SignedVolume(TradeSide(e), size)])
  }

  /**
   * The body of `process_book` after parsing, on the view: the window
   * volumes over the buffered trades (the last `TradeBufferCapacity`) as of
   * the update's time, the five features, the model trained on the pending
   * features when the mid moved, and the snapshot of the prediction on the
   * new features, kept as the latest; the new features and mid become the
   * pending ones.  The trades are only read.
   */
  function AfterBook(v: PipelineView, top: BookTop): (r: PipelineView)
    requires Consistent(v)
    ensures Consistent(r)
    ensures r.tradeTimes == v.tradeTimes && r.tradeVolumes == v.tradeVolumes
    ensures r.pending == Some((r.features, Mid(top.bidPx, top.askPx)))
    ensures r.latest.Some? && r.latest.value.midPrice == Mid(top.bidPx, top.askPx)
  {
    var mid := Mid(top.bidPx, top.askPx);
    var vols := TradeWindows.WindowVolumesOf(RingLaws.LastN(v.tradeTimes, TradeBufferCapacity),
                                             RingLaws.LastN(v.tradeVolumes, TradeBufferCapacity), top.tsUs, WindowsUs);
    var feats := BookFeatures(top, vols);
    var model := Train(v.model, v.pending, mid);
    var snapshot := Snapshot(mid, Spread(top.bidPx, top.askPx), Imbalance(top.bidSz, top.askSz),
                             vols, PredictOn(model, feats));
    v.(windowVolumes := vols, features := feats, model := model,
       pending := Some((feats, mid)), latest := Some(snapshot))
  }

  /** `process_book` on the view: an update that does not parse changes nothing. */
  function AfterBookEntry(v: PipelineView, e: Entry): (r: PipelineView)
    requires Consistent(v)
    ensures Consistent(r)
    ensures ParseBookTop(e).None? ==> r == v
    ensures ParseBookTop(e).Some? ==> r == AfterBook(v, ParseBookTop(e).value)
  {
    match ParseBookTop(e)
    case None => v
    case Some(top) => AfterBook(v, top)
  }

  /** The view of a pipeline object. */
  ghost function ViewOf(p: FeaturePipeline): PipelineView
    reads p, p.tradeBuffer, p.tradeBuffer.timestamps, p.tradeBuffer.volumes, p.volumes, p.features, p.model
  {
    PipelineView(p.tradeBuffer.timestamps.History, p.tradeBuffer.volumes.History,
                 p.volumes[..], p.features[..], p.model.State(), p.pending, p.latestSnapshot)
  }

  class FeaturePipeline {
    const instrument: string
    const tradeBuffer: TradeWindows.TradeBuffer
    const volumes: array<real>
    const features: array<real>
    const model: LogisticRegressionModel
    var pending: Option<(seq<real>, real)>
    var latestSnapshot: Option<SignalSnapshot>
    ghost const Repr: set<object>

    ghost predicate Valid()
      reads this, Repr
    {
      && Repr == {this, volumes, features, model, tradeBuffer} + tradeBuffer.Repr
      && this !in tradeBuffer.Repr && volumes !in tradeBuffer.Repr
      && features !in tradeBuffer.Repr && model !in tradeBuffer.Repr
      && volumes != features
      && tradeBuffer.Valid()
      && tradeBuffer.timestamps.capacity == TradeBufferCapacity
      && volumes.Length == 3 && features.Length == 5
      && |model.weights| == 5
      && model.decay == DecayRate && model.minLr == MinLearningRate
      && (pending.Some? ==> |pending.value.0| == 5)
    }

    constructor (instrument: string)
      ensures Valid()
      ensures fresh(Repr)
      ensures this.instrument == instrument
      ensures pending.None? && latestSnapshot.None?
      ensures tradeBuffer.timestamps.History == [] && tradeBuffer.volumes.History == []
      ensures volumes[..] == [0.0, 0.0, 0.0] && features[..] == [0.0, 0.0, 0.0, 0.0, 0.0]
      ensures |model.weights| == 5 && (forall i :: 0 <= i < 5 ==> model.weights[i] == 0.0)
      ensures model.bias == 0.0 && model.learningRate == InitialLearningRate
      ensures ViewOf(this) == InitialView()
    {
      var buffer, m, v, f := NewParts();
      ghost var parts := {v, f, m, buffer} + buffer.Repr;
      assert fresh(parts);
      this.instrument := instrument;
      tradeBuffer := buffer;
      volumes := v;
      features := f;
      model := m;
      pending := None;
      latestSnapshot := None;
      Repr := {this} + parts;
      assert m.weights == [0.0, 0.0, 0.0, 0.0, 0.0];
    }

    /** The freshly allocated parts of a pipeline: trade buffer, model, and the zeroed volume and feature arrays. */
    static method NewParts() returns (buffer: TradeWindows.TradeBuffer, m: LogisticRegressionModel, v: array<real>, f: array<real>)
      ensures fresh(buffer) && fresh(buffer.Repr) && fresh(m) && fresh(v) && fresh(f)
      ensures buffer.Valid() && buffer.timestamps.capacity == TradeBufferCapacity
      ensures buffer.timestamps.History == [] && buffer.volumes.History == []
      ensures v !in buffer.Repr && f !in buffer.Repr && m !in buffer.Repr && v != f
      ensures v[..] == [0.0, 0.0, 0.0] && f[..] == [0.0, 0.0, 0.0, 0.0, 0.0]
      ensures |m.weights| == 5 && (forall i :: 0 <= i < 5 ==> m.weights[i] == 0.0)
      ensures m.bias == 0.0 && m.learningRate == InitialLearningRate
      ensures m.decay == DecayRate && m.minLr == MinLearningRate
    {
      v := new real[3];
      f := new real[5];
      v[0], v[1], v[2] := 0.0, 0.0, 0.0;
      f[0], f[1], f[2], f[3], f[4] := 0.0, 0.0, 0.0, 0.0, 0.0;
      m := new LogisticRegressionModel(5, InitialLearningRate, DecayRate, MinLearningRate);
      buffer := new TradeWindows.TradeBuffer(TradeBufferCapacity);
    }

    /**
     * `record_trade`: an entry whose timestamp or size is missing or not a
     * number is dropped and nothing changes; otherwise exactly one
     * (timestamp, signed volume) pair is buffered, and the outcome reports
     * it, or the price conversion raises.  Nothing but the trade buffer
     * changes.
     */
    method RecordTrade(e: Entry) returns (outcome: TradeOutcome)
      requires Valid()
      modifies tradeBuffer.Repr
      ensures Valid()
      ensures ParseTrade(e).None? ==>
        && outcome == Skipped
        && tradeBuffer.timestamps.History == old(tradeBuffer.timestamps.History)
        && tradeBuffer.volumes.History == old(tradeBuffer.volumes.History)
      ensures ParseTrade(e).Some? ==>
        var signed := SignedVolume(TradeSide(e), ParseTrade(e).value.1);
        && tradeBuffer.timestamps.History == old(tradeBuffer.timestamps.History) + [ParseTrade(e).value.0]
        && tradeBuffer.volumes.History == old(tradeBuffer.volumes.History) + [signed]
        && outcome == Summarize(ParseTrade(e).value.0, TradeSide(e), e.px, signed)
      ensures ViewOf(this) == AfterTrade(old(ViewOf(this)), e)
    {
      var parsed := ParseTrade(e);
      if parsed.None? {
        return Skipped;
      }
      var (tsUs, size) := parsed.value;
      var side := TradeSide(e);
      var signed := SignedVolume(side, size);
      tradeBuffer.AddTrade(tsUs, signed);
      outcome := Summarize(tsUs, side, e.px, signed);
    }

    /** The window volumes as of the update's time, then the five features. */
    method RefreshFeatures(top: BookTop)
      requires Valid()
      modifies volumes, features
      ensures Valid()
      ensures volumes[..] == TradeWindows.WindowVolumesOf(tradeBuffer.Timestamps(), tradeBuffer.Volumes(), top.tsUs, WindowsUs)
      ensures features[..] == BookFeatures(top, volumes[..])
    {
      tradeBuffer.WindowVolumes(top.tsUs, WindowsUs, volumes);
      WriteFeatures(features, top, volumes);
      assert unchanged(tradeBuffer.Repr);
    }

    /** The five feature slots: imbalance, spread, then the three window volumes. */
    static method WriteFeatures(features: array<real>, top: BookTop, volumes: array<real>)
      requires features.Length == 5 && volumes.Length == 3 && features != volumes
      modifies features
      ensures features[..] == BookFeatures(top, volumes[..])
    {
      features[0] := Imbalance(top.bidSz, top.askSz);
      features[1] := Spread(top.bidPx, top.askPx);
      features[2] := volumes[0];
      features[3] := volumes[1];
      features[4] := volumes[2];
      assert features[..] == BookFeatures(top, volumes[..]);
    }

    /** One model update on the pending features, toward the direction the mid moved. */
    method TrainOnPending(mid: real)
      requires Valid()
      modifies model
      ensures Valid()
      ensures model.State() == Train(old(model.State()), pending, mid)
    {
      if pending.Some? {
        var (prevFeatures, prevMid) := pending.value;
        if mid > prevMid {
          var _ := model.Update(prevFeatures, 1.0);
        } else if mid < prevMid {
          var _ := model.Update(prevFeatures, 0.0);
        }
      }
    }

    /**
     * `process_book`: a book update that does not parse changes nothing.
     * Otherwise the window volumes as of the update's time are refreshed,
     * the five features written, the model trained on the pending features
     * when the mid moved, a prediction made on the new features, and they
     * become the pending ones together with the mid, as `AfterBook` says.
     * The trade buffer is only read.
     */
    method ProcessBook(e: Entry) returns (r: Option<SignalSnapshot>)
      requires Valid()
      modifies this, volumes, features, model
      ensures Valid()
      ensures ViewOf(this) == AfterBookEntry(old(ViewOf(this)), e)
      ensures r.Some? <==> ParseBookTop(e).Some?
      ensures r.Some? ==> r == latestSnapshot
    {
      var parsed := ParseBookTop(e);
      if parsed.None? {
        return None;
      }
      var snapshot := ProcessTop(parsed.value);
      r := Some(snapshot);
    }

    /** The part of `process_book` after parsing. */
    method ProcessTop(top: BookTop) returns (snapshot: SignalSnapshot)
      requires Valid()
      modifies this, volumes, features, model
      ensures Valid()
      ensures ViewOf(this) == AfterBook(old(ViewOf(this)), top)
      ensures latestSnapshot == Some(snapshot)
    {
      ghost var before := ViewOf(this);
      ghost var after := AfterBook(before, top);
      var mid := Mid(top.bidPx, top.askPx);
      RefreshFeatures(top);
      assert volumes[..] == after.windowVolumes && features[..] == after.features;
      TrainOnPending(mid);
      assert model.State() == after.model;
      snapshot := Report(top, mid);
      assert latestSnapshot == after.latest;
    }

    /** Predicts on the new features, reports the snapshot and makes the features pending. */
    method Report(top: BookTop, mid: real) returns (snapshot: SignalSnapshot)
      requires Valid()
      modifies this
      ensures Valid()
      ensures snapshot == Snapshot(mid, Spread(top.bidPx, top.askPx), Imbalance(top.bidSz, top.askSz),
                                   volumes[..], PredictOn(model.State(), features[..]))
      ensures pending == Some((features[..], mid)) && latestSnapshot == Some(snapshot)
    {
      var probability := model.Predict(features[..]);
      var confidence := Confidence(probability);
      var direction := if probability >= 0.5 then Long else Short;
      pending := Some((features[..], mid));
      snapshot := SignalSnapshot(mid, Spread(top.bidPx, top.askPx), Imbalance(top.bidSz, top.askSz),
                                 volumes[0], volumes[1], volumes[2], probability, confidence, direction);
      latestSnapshot := Some(snapshot);
    }
  }
}
