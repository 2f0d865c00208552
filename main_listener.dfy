/**
 * The minimal streaming demo (main.py): a numpy-backed latency ring per
 * `"channel:instId"`, fed with the clamped delay between an entry's
 * exchange timestamp and the moment it is handled.  The wall clock is a
 * parameter and the printed line becomes an `Outcome` value.
 */
module MainListener {
  import opened Wrappers
  import opened RingLaws
  import opened Values
  import opened Percentile
  import opened Latency
  import opened StreamingListener

  /** `LatencyRing` of main.py: a fixed array of samples written at a cursor. */
  class NumpyRing {
    const buffer: array<int>
    const capacity: nat
    var count: nat
    var cursor: nat

    /** Every sample added since construction. */
    ghost var History: seq<int>
    ghost const Repr: set<object>

    ghost predicate Valid()
      reads this, Repr
    {
      && Repr == {this, buffer}
      && buffer.Length == capacity
      && Layout(buffer[..], cursor, count, History)
    }

    /** The samples the ring holds, oldest first. */
    ghost function Samples(): seq<int>
      reads this
    {
      LastN(History, capacity)
    }

    /** A ring of `capacity` zeroed slots, nothing counted. */
    constructor (capacity: nat)
      requires capacity > 0
      ensures Valid() && fresh(Repr)
      ensures this.capacity == capacity && History == []
      ensures count == 0 && cursor == 0
      ensures forall k :: 0 <= k < buffer.Length ==> buffer[k] == 0
    {
      var a := new int[capacity](_ => 0);
      LayoutEmpty(a[..]);
      this.capacity := capacity;
      buffer := a;
      count, cursor := 0, 0;
      History := [];
      Repr := {this, a};
    }

    /**
     * `add`: writes the slot at the cursor and nothing else, advances the
     * cursor modulo the capacity and counts up to the capacity.
     */
    method Add(valueUs: int)
      requires Valid()
      modifies Repr
      ensures Valid()
      ensures History == old(History) + [valueUs]
      ensures buffer[old(cursor)] == valueUs
      ensures forall k :: 0 <= k < buffer.Length && k != old(cursor) ==> buffer[k] == old(buffer[k])
      ensures cursor == (old(cursor) + 1) % capacity
      ensures count == Min(old(count) + 1, capacity)
    {
      ghost var slots := buffer[..];
      ghost var count' := Min(count + 1, capacity);
      ghost var cursor' := if cursor + 1 == capacity then 0 else cursor + 1;
      LayoutPush(slots, cursor, count, History, valueUs);
      ModUnique(cursor, capacity, 0, cursor);
      ModSucc(cursor, capacity);
      buffer[cursor] := valueUs;
      assert buffer[..] == slots[cursor := valueUs];
      cursor := (cursor + 1) % capacity;
      if count < capacity {
        count := count + 1;
      }
      History := History + [valueUs];
      assert cursor == cursor' && count == count';
    }

    /**
     * `percentiles`: nothing while the ring is empty; otherwise the two
     * requested percentiles of the first `count` slots while filling, or of
     * the slots from the cursor on followed by those before it once full.
     */
    method Percentiles(p0: int, p1: int) returns (r: Option<(real, real)>)
      requires Valid()
      requires 0 <= p0 <= 100 && 0 <= p1 <= 100
      ensures r.None? <==> History == []
      ensures r.Some? ==> r.value == (PercentileOf(Samples(), p0), PercentileOf(Samples(), p1))
    {
      if count == 0 {
        return None;
      }
      var data: seq<int>;
      if count < capacity {
        data := buffer[..count];
      } else {
        data := buffer[cursor..] + buffer[..cursor];
      }
      LayoutLinearize(buffer[..], cursor, count, History);
      assert data == Linearize(buffer[..], cursor, count);
      return Some((PercentileOf(data, p0), PercentileOf(data, p1)));
    }
  }

  /**
   * Which line the entry prints after its latency is recorded, or that
   * building the book line raises: the best level it shows
   * (`bids[0] if bids else ["-", "-"]`) must have a second element.
   */
  datatype Printed = TradePrinted | BookPrinted | BookRaised | NothingPrinted

  /** `best[0]` and `best[1]` of the level shown for one side of the book can be read. */
  predicate LevelShown(side: Value)
  {
    !Truthy(side) || (Index(side, 0).Some? && Index(Index(side, 0).value, 1).Some?)
  }

  /**
   * Handling one entry: dropped when `ts` is missing or not an integer;
   * otherwise measured, with the latency, the ring's two percentiles and
   * the line printed.
   */
  datatype Outcome =
    | Dropped
    | Measured(latencyUs: int, stats: (real, real), printed: Printed)

  /**
   * The line printed for an entry of a channel: trades; any `books*`
   * channel, unless a best level has fewer than two elements (or is not
   * indexable), which raises; or none.
   */
  function PrintedFor(channel: string, e: Entry): (p: Printed)
    ensures p == TradePrinted <==> channel == "trades"
    ensures p == BookPrinted <==> channel != "trades" && IsBooks(channel) && LevelShown(e.bids) && LevelShown(e.asks)
    ensures p == BookRaised <==> channel != "trades" && IsBooks(channel) && !(LevelShown(e.bids) && LevelShown(e.asks))
    ensures p == NothingPrinted <==> channel != "trades" && !IsBooks(channel)
  {
    if channel == "trades" then TradePrinted
    else if IsBooks(channel) then
      if LevelShown(e.bids) && LevelShown(e.asks) then BookPrinted else BookRaised
    else NothingPrinted
  }

  /** A one-element best level, or a string side, makes the book line raise; two-element levels print. */
  lemma ShortLevelRaises(e: Entry)
    ensures e.bids == List([List([Str("1")])]) ==> PrintedFor("books5", e) == BookRaised
    ensures e.bids == Str("12") ==> PrintedFor("books5", e) == BookRaised
    ensures e.bids == List([List([Str("1"), Str("2")])]) && e.asks == Null ==> PrintedFor("books5", e) == BookPrinted
  {
    assert IsBooks("books5");
  }

  /** The ring an entry resolves to, when it already exists, is valid. */
  ghost predicate TargetRingValid(channel: string, instId: string, e: Entry, rings: map<string, NumpyRing>)
    reads set k | k in rings :: rings[k]
    reads if EntryTarget(channel, instId, e).Some? && EntryTarget(channel, instId, e).value.0 in rings
          then rings[EntryTarget(channel, instId, e).value.0].Repr else {}
  {
    var t := EntryTarget(channel, instId, e);
    t.Some? && t.value.0 in rings ==> rings[t.value.0].Valid()
  }

  /** The objects handling an entry may change: those of the ring it resolves to. */
  ghost function RingFrame(channel: string, instId: string, e: Entry, rings: map<string, NumpyRing>): set<object>
    reads set k | k in rings :: rings[k]
  {
    var t := EntryTarget(channel, instId, e);
    if t.Some? && t.value.0 in rings then rings[t.value.0].Repr else {}
  }

  /**
   * `_process_entry` of main.py: an entry without an integer `ts` is
   * dropped.  Every other entry, whatever its channel, adds the clamped
   * latency `max(0, now - ts * 1000)` to the ring of `"channel:instId"`
   * (created with capacity 2048 on first use) and reports the ring's 50th
   * and 95th percentiles.
   */
  method ProcessEntry(channel: string, instId: string, e: Entry, nowUs: int, rings: map<string, NumpyRing>)
    returns (outcome: Outcome, rings': map<string, NumpyRing>)
    requires TargetRingValid(channel, instId, e, rings)
    modifies RingFrame(channel, instId, e, rings)
    ensures outcome.Dropped? <==> ParseInt(e.ts).None?
    ensures outcome.Dropped? ==> rings' == rings
    ensures outcome.Measured? ==>
      var key := Key(channel, EntryInstId(e, instId));
      && key in rings'
      && rings' == GetOrInsert(rings, key, rings'[key]).0
      && rings'[key].Valid()
      && (key !in rings ==> fresh(rings'[key].Repr) && rings'[key].capacity == LatencyWindowCapacity)
      && outcome.latencyUs == Clamp(ParseInt(e.ts).value * 1000, nowUs)
      && rings'[key].History == (if key in rings then old(rings[key].History) else []) + [outcome.latencyUs]
      && outcome.stats == (PercentileOf(rings'[key].Samples(), LowPercentile), PercentileOf(rings'[key].Samples(), HighPercentile))
      && outcome.printed == PrintedFor(channel, e)
  {
    var target := EntryTarget(channel, instId, e);
    if target.None? {
      return Dropped, rings;
    }
    var (key, _, tsUs) := target.value;
    var latencyUs := Clamp(tsUs, nowUs);
    var ring: NumpyRing;
    if key in rings {
      ring := rings[key];
      rings' := rings;
    } else {
      ring := new NumpyRing(LatencyWindowCapacity);
      rings' := rings[key := ring];
    }
    ring.Add(latencyUs);
    var stats := ring.Percentiles(LowPercentile, HighPercentile);
    outcome := Measured(latencyUs, stats.value, PrintedFor(channel, e));
  }
}
