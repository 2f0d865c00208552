/**
 * The latency benchmark (okx_latency_bench.py): per `"channel:instId"`
 * statistics kept in three parallel fixed arrays written at one cursor, the
 * subscription list it sends, the monotonic-to-epoch clock conversion and
 * the per-entry filtering of each decoded frame.
 *
 * Clock readings are parameters; the frame's transport type, payload
 * decompression and JSON decoding happen before the modelled part.
 */
module LatencyBench {
  import opened Wrappers
  import opened RingLaws
  import opened Values
  import opened Percentile
  import opened Latency
  import opened StreamingListener

  /** The arrays of a `StreamStats` are allocated with this many slots, whatever `cap` says. */
  const ArraySlots: nat := 8192
  /** The capacity `run` gives every `StreamStats`. */
  const DefaultCap: nat := 8192

  function Sum(s: seq<int>): int
  {
    if s == [] then 0 else Sum(s[..|s| - 1]) + s[|s| - 1]
  }

  /** `np.mean`. */
  function Mean(s: seq<int>): real
    requires |s| > 0
  {
    Sum(s) as real / |s| as real
  }

  /** A mean lies between the smallest and the largest sample. */
  lemma {:induction false} SumBounds(s: seq<int>, lo: int, hi: int)
    requires forall k :: 0 <= k < |s| ==> lo <= s[k] <= hi
    ensures |s| * lo <= Sum(s) <= |s| * hi
  {
    if s != [] {
      var init, n := s[..|s| - 1], |s| - 1;
      SumBounds(init, lo, hi);
      assert Sum(s) == Sum(init) + s[n];
      assert |s| * lo == n * lo + lo && |s| * hi == n * hi + hi;
    }
  }

  lemma MeanBounds(s: seq<int>, lo: int, hi: int)
    requires |s| > 0
    requires forall k :: 0 <= k < |s| ==> lo <= s[k] <= hi
    ensures lo as real <= Mean(s) <= hi as real
  {
    SumBounds(s, lo, hi);
    var n := |s| as real;
    assert n * lo as real <= Sum(s) as real <= n * hi as real;
  }

  /** What `summary` reports: NaN statistics and count 0, or the window's statistics. */
  datatype StatsSummary =
    | NoSamples
    | Stats(count: nat,
            latP50: real, latP95: real, latP99: real,
            parseP50: real, parseP95: real, parseP99: real,
            frameAvg: real, frameP95: real)

  /** The three values one call to `add` records at the same index. */
  datatype Sample = Sample(latencyUs: int, parseUs: int, frameLen: int)

  function LatencyOf(x: Sample): int { x.latencyUs }
  function ParseOf(x: Sample): int { x.parseUs }
  function FrameOf(x: Sample): int { x.frameLen }

  /** One field of every sample, in order: the contents of one of the three arrays. */
  function Column(h: seq<Sample>, f: Sample -> int): (r: seq<int>)
    ensures |r| == |h| && forall k :: 0 <= k < |h| ==> r[k] == f(h[k])
  {
    seq(|h|, k requires 0 <= k < |h| => f(h[k]))
  }

  lemma ColumnRotate(h: seq<Sample>, f: Sample -> int, c: nat)
    requires c <= |h|
    ensures Column(h, f)[c..] + Column(h, f)[..c] == Column(Rotate(h, c), f)
  {
  }

  lemma ColumnPrefix(h: seq<Sample>, f: Sample -> int, n: nat)
    requires n <= |h|
    ensures Column(h, f)[..n] == Column(h[..n], f)
  {
  }

  /**
   * `StreamStats`: latency, parse time and frame size of each message,
   * written at index `i`; `i` wraps at `cap`, `full` records that it has
   * wrapped and `msgs` counts every call to `add`.
   */
  class StreamStats {
    const cap: nat
    const latUs: array<int>
    const parseUs: array<int>
    const frameBytes: array<int>
    var i: nat
    var full: bool
    var msgs: nat

    /** Every sample added since construction. */
    ghost var History: seq<Sample>
    /** The first `cap` slots of the three arrays, as samples. */
    ghost var Slots: seq<Sample>
    ghost const Repr: set<object>

    /** The number of live samples: `cap` once `i` has wrapped, `i` before. */
    function Count(): nat
      reads this
    {
      if full then cap else i
    }

    ghost predicate Valid()
      reads this, Repr
    {
      && Repr == {this, latUs, parseUs, frameBytes}
      && latUs != parseUs && latUs != frameBytes && parseUs != frameBytes
      && latUs.Length == ArraySlots && parseUs.Length == ArraySlots && frameBytes.Length == ArraySlots
      && 0 < cap <= ArraySlots
      && |History| == msgs
      && |Slots| == cap
      && (forall k :: 0 <= k < cap ==>
            latUs[k] == Slots[k].latencyUs && parseUs[k] == Slots[k].parseUs && frameBytes[k] == Slots[k].frameLen)
      && Layout(Slots, i, Count(), History)
    }

    /** `StreamStats(cap=cap)`: three zeroed arrays of 8192 slots, nothing recorded. */
    constructor (cap: nat)
      requires 0 < cap <= ArraySlots
      ensures Valid() && fresh(Repr)
      ensures this.cap == cap && i == 0 && !full && msgs == 0 && History == []
    {
      var l := new int[ArraySlots](_ => 0);
      var p := new int[ArraySlots](_ => 0);
      var f := new int[ArraySlots](_ => 0);
      var zeros := seq(cap, _ => Sample(0, 0, 0));
      LayoutEmpty(zeros);
      this.cap := cap;
      latUs, parseUs, frameBytes := l, p, f;
      i, full, msgs := 0, false, 0;
      History, Slots := [], zeros;
      Repr := {this, l, p, f};
    }

    /** `full` holds exactly when at least `cap` samples were added. */
    lemma FullIffWrapped()
      requires Valid()
      ensures full <==> msgs >= cap
      ensures Count() == Min(msgs, cap)
    {
    }

    /**
     * `add`: writes the three arrays at index `i` and nowhere else, advances
     * `i` modulo `cap`, sets `full` for good once `i` wraps to 0, and counts
     * the message.
     */
    method Add(latencyUs: int, parseTimeUs: int, frameLen: int)
      requires Valid()
      modifies Repr
      ensures Valid()
      ensures History == old(History) + [Sample(latencyUs, parseTimeUs, frameLen)]
      ensures latUs[old(i)] == latencyUs && parseUs[old(i)] == parseTimeUs && frameBytes[old(i)] == frameLen
      ensures forall k :: 0 <= k < ArraySlots && k != old(i) ==>
        latUs[k] == old(latUs[k]) && parseUs[k] == old(parseUs[k]) && frameBytes[k] == old(frameBytes[k])
      ensures i == (old(i) + 1) % cap
      ensures full == (old(full) || i == 0)
      ensures msgs == old(msgs) + 1
    {
      var idx := i;
      var x := Sample(latencyUs, parseTimeUs, frameLen);
      ghost var count' := Min(Count() + 1, cap);
      ghost var cursor' := if idx + 1 == cap then 0 else idx + 1;
      LayoutPush(Slots, idx, Count(), History, x);
      ModUnique(idx, cap, 0, idx);
      ModSucc(idx, cap);
      WriteSlot(latUs, parseUs, frameBytes, idx, x);
      Slots := Slots[idx := x];
      i := (idx + 1) % cap;
      full := full || i == 0;
      msgs := msgs + 1;
      History := History + [x];
      assert i == cursor' && Count() == count';
    }

    /** Writes the three fields of one sample at the same index of the three arrays. */
    static method WriteSlot(lat: array<int>, parse: array<int>, frame: array<int>, idx: nat, x: Sample)
      requires lat != parse && lat != frame && parse != frame
      requires idx < lat.Length && idx < parse.Length && idx < frame.Length
      modifies lat, parse, frame
      ensures lat[..] == old(lat[..])[idx := x.latencyUs]
      ensures parse[..] == old(parse[..])[idx := x.parseUs]
      ensures frame[..] == old(frame[..])[idx := x.frameLen]
    {
      lat[idx] := x.latencyUs;
      parse[idx] := x.parseUs;
      frame[idx] := x.frameLen;
    }

    /** The first `cap` slots of the three arrays are the columns of `Slots`. */
    lemma ArraysAreColumns()
      requires Valid()
      ensures latUs[..cap] == Column(Slots, LatencyOf)
      ensures parseUs[..cap] == Column(Slots, ParseOf)
      ensures frameBytes[..cap] == Column(Slots, FrameOf)
    {
    }

    /**
     * `_view` with each array read only up to `cap`: the first `i` slots
     * before the wrap, the slots from `i` to `cap` followed by those before
     * `i` after it.  That is the columns of the last `min(msgs, cap)`
     * samples, oldest first.
     */
    function View(): (v: (seq<int>, seq<int>, seq<int>))
      reads this, Repr
      requires Valid()
      ensures var window := LastN(History, cap);
        v == (Column(window, LatencyOf), Column(window, ParseOf), Column(window, FrameOf))
      ensures |v.0| == |v.1| == |v.2| == Min(msgs, cap)
    {
      if !full then
        FillingView();
        (latUs[..i], parseUs[..i], frameBytes[..i])
      else
        WrappedView();
        (latUs[i..cap] + latUs[..i], parseUs[i..cap] + parseUs[..i], frameBytes[i..cap] + frameBytes[..i])
    }

    /** Before the wrap the first `i` slots of each array are the columns of the whole history. */
    lemma FillingView()
      requires Valid() && !full
      ensures var window := LastN(History, cap);
        (latUs[..i], parseUs[..i], frameBytes[..i]) == (Column(window, LatencyOf), Column(window, ParseOf), Column(window, FrameOf))
    {
      ArraysAreColumns();
      LayoutLinearize(Slots, i, Count(), History);
      ColumnPrefix(Slots, LatencyOf, i);
      ColumnPrefix(Slots, ParseOf, i);
      ColumnPrefix(Slots, FrameOf, i);
      assert latUs[..i] == latUs[..cap][..i];
      assert parseUs[..i] == parseUs[..cap][..i];
      assert frameBytes[..i] == frameBytes[..cap][..i];
    }

    /** After the wrap the rotation of the first `cap` slots at `i` is the columns of the last `cap` samples. */
    lemma WrappedView()
      requires Valid() && full
      ensures var window := LastN(History, cap);
        (latUs[i..cap] + latUs[..i], parseUs[i..cap] + parseUs[..i], frameBytes[i..cap] + frameBytes[..i])
          == (Column(window, LatencyOf), Column(window, ParseOf), Column(window, FrameOf))
    {
      ArraysAreColumns();
      LayoutLinearize(Slots, i, Count(), History);
      ColumnRotate(Slots, LatencyOf, i);
      ColumnRotate(Slots, ParseOf, i);
      ColumnRotate(Slots, FrameOf, i);
      assert Linearize(Slots, i, Count()) == Rotate(Slots, i);
      assert latUs[i..cap] == latUs[..cap][i..] && latUs[..i] == latUs[..cap][..i];
      assert parseUs[i..cap] == parseUs[..cap][i..] && parseUs[..i] == parseUs[..cap][..i];
      assert frameBytes[i..cap] == frameBytes[..cap][i..] && frameBytes[..i] == frameBytes[..cap][..i];
    }

    /** `_view` as written: after the wrap, the slices from `i` run to the end of the 8192-slot arrays. */
    function ViewAsWritten(): (v: (seq<int>, seq<int>, seq<int>))
      reads this, Repr
      requires Valid()
      ensures !full ==> v == View()
      ensures full ==> |v.0| == |v.1| == |v.2| == ArraySlots
    {
      if !full then
        (latUs[..i], parseUs[..i], frameBytes[..i])
      else
        (latUs[i..] + latUs[..i], parseUs[i..] + parseUs[..i], frameBytes[i..] + frameBytes[..i])
    }

    /** With the configured capacity of 8192 the written view is the intended one. */
    lemma ViewAsWrittenAtDefaultCap()
      requires Valid() && cap == DefaultCap
      ensures ViewAsWritten() == View()
    {
      if full {
        assert latUs[i..] == latUs[i..cap];
        assert parseUs[i..] == parseUs[i..cap];
        assert frameBytes[i..] == frameBytes[i..cap];
      }
    }

    /** With a smaller capacity, once wrapped the written view holds 8192 samples instead of `cap`. */
    lemma ViewAsWrittenTooLong()
      requires Valid() && cap < ArraySlots && full
      ensures |ViewAsWritten().0| == ArraySlots != |View().0|
    {
    }

    /**
     * `summary`: no samples gives count 0 and NaN statistics; otherwise the
     * count is the view's length and the statistics are numpy's percentiles
     * and mean of the corrected `View`, which equals `_view` as written at
     * the benchmark's cap of 8192.
     */
    function Summary(): (s: StatsSummary)
      reads this, Repr
      requires Valid()
      ensures s.NoSamples? <==> msgs == 0
      ensures s.Stats? ==>
        var window := LastN(History, cap);
        var lat, pars, sz := Column(window, LatencyOf), Column(window, ParseOf), Column(window, FrameOf);
        && s.count == Min(msgs, cap) && 0 < s.count
        && s.latP50 == PercentileOf(lat, 50) && s.latP95 == PercentileOf(lat, 95) && s.latP99 == PercentileOf(lat, 99)
        && s.parseP50 == PercentileOf(pars, 50) && s.parseP95 == PercentileOf(pars, 95) && s.parseP99 == PercentileOf(pars, 99)
        && s.frameAvg == Mean(sz) && s.frameP95 == PercentileOf(sz, 95)
    {
      var (lat, pars, sz) := View();
      if |lat| == 0 then NoSamples
      else
        Stats(|lat|,
              PercentileOf(lat, 50), PercentileOf(lat, 95), PercentileOf(lat, 99),
              PercentileOf(pars, 50), PercentileOf(pars, 95), PercentileOf(pars, 99),
              Mean(sz), PercentileOf(sz, 95))
    }
  }

  /**
   * `StreamStats(cap=2)` after two messages: the written view has 8192
   * samples, 8190 of them the arrays' initial zeros, where two were meant.
   */
  method SmallCapViewExample() returns (asWritten: nat, intended: nat)
    ensures asWritten == ArraySlots && intended == 2
  {
    var st := new StreamStats(2);
    st.Add(100, 5, 300);
    st.Add(200, 6, 400);
    st.FullIffWrapped();
    asWritten := |st.ViewAsWritten().0|;
    intended := |st.View().0|;
  }

  /** One element of the subscription list. */
  datatype Subscription = Subscription(channel: string, instId: string)

  /** `build_subs`: for each symbol in order, its trades then its books5 subscription. */
  method BuildSubs(symbols: seq<string>) returns (subs: seq<Subscription>)
    ensures |subs| == 2 * |symbols|
    ensures forall k :: 0 <= k < |symbols| ==>
      subs[2 * k] == Subscription("trades", symbols[k]) && subs[2 * k + 1] == Subscription("books5", symbols[k])
  {
    subs := [];
    for j := 0 to |symbols|
      invariant |subs| == 2 * j
      invariant forall k :: 0 <= k < j ==>
        subs[2 * k] == Subscription("trades", symbols[k]) && subs[2 * k + 1] == Subscription("books5", symbols[k])
    {
      subs := subs + [Subscription("trades", symbols[j])];
      subs := subs + [Subscription("books5", symbols[j])];
    }
  }

  /** The keys `run` prepares a `StreamStats` for: each channel of each symbol. */
  function PreparedKeys(symbols: seq<string>): (keys: set<string>)
    ensures forall s :: s in symbols ==> Key("trades", s) in keys && Key("books5", s) in keys
  {
    (set s | s in symbols :: Key("trades", s)) + (set s | s in symbols :: Key("books5", s))
  }

  /** Every subscription `build_subs` sends has statistics prepared for it. */
  lemma SubscriptionsArePrepared(symbols: seq<string>, subs: seq<Subscription>)
    requires |subs| == 2 * |symbols|
    requires forall k :: 0 <= k < |symbols| ==>
      subs[2 * k] == Subscription("trades", symbols[k]) && subs[2 * k + 1] == Subscription("books5", symbols[k])
    ensures forall sub :: sub in subs ==> Key(sub.channel, sub.instId) in PreparedKeys(symbols)
  {
    forall sub | sub in subs
      ensures Key(sub.channel, sub.instId) in PreparedKeys(symbols)
    {
      var n :| 0 <= n < |subs| && subs[n] == sub;
      var k := n / 2;
      assert n == 2 * k || n == 2 * k + 1;
      assert symbols[k] in symbols;
    }
  }

  /**
   * `mono_us_to_epoch_us`: fails while the offset is unset; otherwise
   * shifts the monotonic reading by the offset.
   */
  function MonoUsToEpochUs(offsetUs: Option<int>, monoUs: int): (r: Option<int>)
    ensures r.None? <==> offsetUs.None?
    ensures r.Some? ==> r.value - monoUs == offsetUs.value
  {
    if offsetUs.None? then None else Some(monoUs + offsetUs.value)
  }

  /**
   * A decoded frame: the `arg` object's `channel` and `instId` (absent when
   * missing) and the `data` field, `None` when present but not a list.  A
   * missing `data` is the empty list.
   */
  datatype Message = Message(channel: Option<string>, instId: Option<string>, data: Option<seq<Entry>>)

  /** The sample one entry adds, none when its `ts` is not an integer. */
  function EntrySample(e: Entry, recvUs: int, parseUs: int, frameLen: int): (r: seq<Sample>)
    ensures |r| <= 1
    ensures r != [] <==> ParseInt(e.ts).Some?
    ensures r != [] ==> r[0] == Sample(Clamp(ParseInt(e.ts).value * 1000, recvUs), parseUs, frameLen)
  {
    match ParseInt(e.ts)
    case None => []
    case Some(ms) => [Sample(Clamp(ms * 1000, recvUs), parseUs, frameLen)]
  }

  /**
   * The samples a frame's entries add, in order, skipping entries without
   * an integer `ts`: each has a latency of at least zero and the frame's
   * parse time and length.
   */
  function EntrySamples(entries: seq<Entry>, recvUs: int, parseUs: int, frameLen: int): (r: seq<Sample>)
    ensures |r| <= |entries|
    ensures forall k :: 0 <= k < |r| ==> r[k].latencyUs >= 0 && r[k].parseUs == parseUs && r[k].frameLen == frameLen
  {
    if entries == [] then []
    else
      EntrySamples(entries[..|entries| - 1], recvUs, parseUs, frameLen)
      + EntrySample(entries[|entries| - 1], recvUs, parseUs, frameLen)
  }

  /** Entries that all carry an integer `ts` each add exactly one sample, with their clamped latency. */
  lemma {:induction false} AllTimedEntries(entries: seq<Entry>, recvUs: int, parseUs: int, frameLen: int)
    requires forall k :: 0 <= k < |entries| ==> ParseInt(entries[k].ts).Some?
    ensures |EntrySamples(entries, recvUs, parseUs, frameLen)| == |entries|
    ensures forall k :: 0 <= k < |entries| ==>
      EntrySamples(entries, recvUs, parseUs, frameLen)[k].latencyUs == Clamp(ParseInt(entries[k].ts).value * 1000, recvUs)
  {
    if entries != [] {
      AllTimedEntries(entries[..|entries| - 1], recvUs, parseUs, frameLen);
    }
  }

  /** How `on_ws_frame` ends after decoding. */
  datatype FrameOutcome =
    | ClockUnset        // `mono_us_to_epoch_us` raises
    | Skipped           // event, error, or `data` not a list
    | UnknownKey        // `self._stats[key]` raises `KeyError`
    | Recorded

  /** The channel `on_ws_frame` reads: `arg.get("channel", "unknown")`. */
  function ChannelOf(m: Message): string
  {
    m.channel.GetOr("unknown")
  }

  /** Frames whose channel is empty or "unknown" (events and errors), or whose `data` is not a list, add nothing. */
  predicate Relevant(m: Message)
  {
    ChannelOf(m) != "" && ChannelOf(m) != "unknown" && m.data.Some?
  }

  /** The statistics a frame goes to: `"channel:instId"`, with `instId` defaulting to "?". */
  function StatsKey(m: Message): string
  {
    Key(ChannelOf(m), m.instId.GetOr("?"))
  }

  ghost function StatsFrame(m: Message, stats: map<string, StreamStats>): set<object>
  {
    if StatsKey(m) in stats then stats[StatsKey(m)].Repr else {}
  }

  /**
   * `on_ws_frame` after decoding: the receive time is converted to the
   * epoch, the parse time is clamped at zero, irrelevant frames are
   * skipped, and each entry with an integer `ts` adds its clamped latency,
   * the parse time and the frame length to the statistics of its key.
   */
  method OnWsFrame(m: Message, offsetUs: Option<int>, recvMonoUs: int, parseStartUs: int, parseEndUs: int,
                   frameLen: nat, stats: map<string, StreamStats>) returns (outcome: FrameOutcome)
    requires StatsKey(m) in stats ==> stats[StatsKey(m)].Valid()
    modifies StatsFrame(m, stats)
    ensures outcome == ClockUnset <==> offsetUs.None?
    ensures outcome == Skipped <==> offsetUs.Some? && !Relevant(m)
    ensures outcome == UnknownKey <==> offsetUs.Some? && Relevant(m) && StatsKey(m) !in stats
    ensures outcome.Recorded? ==>
      var st := stats[StatsKey(m)];
      var added := EntrySamples(m.data.value, recvMonoUs + offsetUs.value, Clamp(parseStartUs, parseEndUs), frameLen);
      && st.Valid()
      && st.History == old(st.History) + added
      && st.msgs == old(st.msgs) + |added|
    ensures !outcome.Recorded? && StatsKey(m) in stats ==>
      var st := stats[StatsKey(m)];
      st.History == old(st.History) && st.msgs == old(st.msgs)
  {
    var recvEpochUs := MonoUsToEpochUs(offsetUs, recvMonoUs);
    if recvEpochUs.None? {
      return ClockUnset;
    }
    var parseTimeUs := Clamp(parseStartUs, parseEndUs);
    if !Relevant(m) {
      return Skipped;
    }
    var key := StatsKey(m);
    if key !in stats {
      return UnknownKey;
    }
    RecordEntries(stats[key], m.data.value, recvEpochUs.value, parseTimeUs, frameLen);
    outcome := Recorded;
  }

  /** The loop of `on_ws_frame`: each entry with an integer `ts` adds one sample, in order. */
  method RecordEntries(st: StreamStats, entries: seq<Entry>, recvUs: int, parseTimeUs: int, frameLen: int)
    requires st.Valid()
    modifies st.Repr
    ensures st.Valid()
    ensures st.History == old(st.History) + EntrySamples(entries, recvUs, parseTimeUs, frameLen)
    ensures st.msgs == old(st.msgs) + |EntrySamples(entries, recvUs, parseTimeUs, frameLen)|
  {
    ghost var start := st.History;
    for j := 0 to |entries|
      invariant st.Valid()
      invariant st.History == start + EntrySamples(entries[..j], recvUs, parseTimeUs, frameLen)
    {
      RecordNext(st, entries, j, recvUs, parseTimeUs, frameLen, start);
    }
    assert entries[..|entries|] == entries;
  }

  /** The loop's step: the entry at `j` extends the samples of `entries[..j]` to those of `entries[..j + 1]`. */
  method RecordNext(st: StreamStats, entries: seq<Entry>, j: nat, recvUs: int, parseTimeUs: int, frameLen: int,
                    ghost start: seq<Sample>)
    requires st.Valid() && j < |entries|
    requires st.History == start + EntrySamples(entries[..j], recvUs, parseTimeUs, frameLen)
    modifies st.Repr
    ensures st.Valid()
    ensures st.History == start + EntrySamples(entries[..j + 1], recvUs, parseTimeUs, frameLen)
  {
    ghost var prefix := EntrySamples(entries[..j], recvUs, parseTimeUs, frameLen);
    RecordEntry(st, entries[j], recvUs, parseTimeUs, frameLen);
    EntrySamplesStep(entries, j, recvUs, parseTimeUs, frameLen);
    assert st.History == start + (prefix + EntrySample(entries[j], recvUs, parseTimeUs, frameLen));
  }

  /** The samples of one more entry are those of the shorter prefix followed by its own. */
  lemma EntrySamplesStep(entries: seq<Entry>, j: nat, recvUs: int, parseUs: int, frameLen: int)
    requires j < |entries|
    ensures EntrySamples(entries[..j + 1], recvUs, parseUs, frameLen)
      == EntrySamples(entries[..j], recvUs, parseUs, frameLen) + EntrySample(entries[j], recvUs, parseUs, frameLen)
  {
    assert entries[..j + 1][..j] == entries[..j];
  }

  /** One pass of that loop: an entry with an integer `ts` adds its sample, any other is skipped. */
  method RecordEntry(st: StreamStats, e: Entry, recvUs: int, parseTimeUs: int, frameLen: int)
    requires st.Valid()
    modifies st.Repr
    ensures st.Valid()
    ensures st.History == old(st.History) + EntrySample(e, recvUs, parseTimeUs, frameLen)
    ensures st.msgs == old(st.msgs) + |EntrySample(e, recvUs, parseTimeUs, frameLen)|
  {
    var ms := ParseInt(e.ts);
    if ms.Some? {
      st.Add(Clamp(ms.value * 1000, recvUs), parseTimeUs, frameLen);
    }
  }
}
