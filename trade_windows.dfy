/**
 * The trade buffer of a feature pipeline and its multi-horizon volume query
 * (`TradeBuffer` in quant/streaming.py).  Trades are kept in two Rust rings
 * pushed in lock step, timestamps and signed volumes.  `window_volumes`
 * keeps the trades at or before the query time, takes a prefix sum of their
 * absolute volumes, and for each window subtracts the prefix before the
 * first trade at or after the window's cutoff.
 *
 * numpy's `searchsorted` is restated as the first index whose timestamp is
 * above (side "right") or not below (side "left") the key; on non-decreasing
 * timestamps, which is what trades arriving in order give, that is what the
 * binary search returns.
 */
module TradeWindows {
  import opened Numbers
  import opened RingLaws
  import opened RustRing

  ghost predicate NonDecreasing(ts: seq<int>)
  {
    forall i, j :: 0 <= i < j < |ts| ==> ts[i] <= ts[j]
  }

  /** The sum of the absolute values of `v`. */
  function AbsSum(v: seq<real>): real
  {
    if v == [] then 0.0 else AbsSum(v[..|v| - 1]) + Abs(v[|v| - 1])
  }

  /** `cumsum(abs(v))`: element `k` is the absolute sum of the first `k + 1` values. */
  function PrefixSums(v: seq<real>): (p: seq<real>)
    ensures |p| == |v|
    ensures forall k :: 0 <= k < |v| ==> p[k] == AbsSum(v[..k + 1])
  {
    if v == [] then []
    else
      var p := PrefixSums(v[..|v| - 1]);
      TakeOfTake(v, |v| - 1);
      assert v[..|v|] == v;
      p + [AbsSum(v)]
  }

  lemma TakeOfTake<T>(v: seq<T>, n: nat)
    requires n <= |v|
    ensures forall k :: 0 <= k <= n ==> v[..n][..k] == v[..k]
  {
  }

  /** `searchsorted(ts, x, side="right")`: the first index whose timestamp is above `x`. */
  function UpperBound(ts: seq<int>, x: int): (r: nat)
    ensures r <= |ts|
    ensures forall i :: 0 <= i < r ==> ts[i] <= x
    ensures r < |ts| ==> ts[r] > x
  {
    if ts == [] || ts[0] > x then 0 else 1 + UpperBound(ts[1..], x)
  }

  /** `searchsorted(ts, x, side="left")`: the first index whose timestamp is not below `x`. */
  function LowerBound(ts: seq<int>, x: int): (r: nat)
    ensures r <= |ts|
    ensures forall i :: 0 <= i < r ==> ts[i] < x
    ensures r < |ts| ==> ts[r] >= x
  {
    if ts == [] || ts[0] >= x then 0 else 1 + LowerBound(ts[1..], x)
  }

  /**
   * The reference definition: the absolute volume of the trades whose
   * timestamp lies in the closed interval `[lo, hi]`.
   */
  function InWindow(ts: seq<int>, vols: seq<real>, lo: int, hi: int): real
    requires |ts| == |vols|
  {
    if ts == [] then 0.0
    else
      var n := |ts| - 1;
      InWindow(ts[..n], vols[..n], lo, hi) + (if lo <= ts[n] <= hi then Abs(vols[n]) else 0.0)
  }

  /** One window's total as `window_volumes` computes it from the prefix sums. */
  function WindowTotal(ts: seq<int>, vols: seq<real>, asOf: int, window: int): real
    requires |ts| == |vols|
  {
    var end := UpperBound(ts, asOf);
    if end == 0 then 0.0
    else
      var prefix := PrefixSums(vols[..end]);
      var left := LowerBound(ts[..end], asOf - window);
      if left <= 0 then prefix[end - 1] else prefix[end - 1] - prefix[left - 1]
  }

  /** `window_volumes` as a function of the buffered trades: one total per window. */
  function WindowVolumesOf(ts: seq<int>, vols: seq<real>, asOf: int, windows: seq<int>): (out: seq<real>)
    requires |ts| == |vols|
    ensures |out| == |windows|
  {
    seq(|windows|, i requires 0 <= i < |windows| => WindowTotal(ts, vols, asOf, windows[i]))
  }

  /**
   * When the trades inside `[lo, hi]` are exactly those at indices
   * `[left, end)`, their absolute volume is a difference of two prefix sums.
   */
  lemma {:induction false} InWindowIsPrefixDifference(ts: seq<int>, vols: seq<real>, lo: int, hi: int, left: nat, end: nat)
    requires |ts| == |vols| && left <= end <= |ts|
    requires forall i :: 0 <= i < |ts| ==> (lo <= ts[i] <= hi <==> left <= i < end)
    ensures InWindow(ts, vols, lo, hi) == AbsSum(vols[..end]) - AbsSum(vols[..left])
  {
    if ts != [] {
      var n := |ts| - 1;
      var left', end' := Min(left, n), Min(end, n);
      assert vols[..n][..end'] == vols[..end'];
      assert vols[..n][..left'] == vols[..left'];
      InWindowIsPrefixDifference(ts[..n], vols[..n], lo, hi, left', end');
      assert vols[..n + 1] == vols;
    }
  }

  /**
   * On non-decreasing timestamps, each window's total is the absolute volume
   * of the trades in the closed interval `[asOf - window, asOf]`: a trade
   * exactly at the cutoff counts.
   */
  lemma WindowTotalIsWindowSum(ts: seq<int>, vols: seq<real>, asOf: int, window: int)
    requires |ts| == |vols| && NonDecreasing(ts)
    ensures WindowTotal(ts, vols, asOf, window) == InWindow(ts, vols, asOf - window, asOf)
  {
    var lo := asOf - window;
    var end := UpperBound(ts, asOf);
    var left := LowerBound(ts[..end], lo);
    forall i | 0 <= i < |ts|
      ensures lo <= ts[i] <= asOf <==> left <= i < end
    {
      if i >= end {
        assert ts[end] > asOf;
      } else if i >= left {
        assert ts[left] >= lo;
      }
    }
    InWindowIsPrefixDifference(ts, vols, lo, asOf, left, end);
    if end > 0 {
      assert vols[..end][..end] == vols[..end];
      assert vols[..end][..left] == vols[..left];
    }
  }

  /** Every output of `window_volumes` is the closed-window sum of its horizon. */
  lemma WindowVolumesAreWindowSums(ts: seq<int>, vols: seq<real>, asOf: int, windows: seq<int>)
    requires |ts| == |vols| && NonDecreasing(ts)
    ensures forall i :: 0 <= i < |windows| ==>
      WindowVolumesOf(ts, vols, asOf, windows)[i] == InWindow(ts, vols, asOf - windows[i], asOf)
  {
    forall i | 0 <= i < |windows|
      ensures WindowVolumesOf(ts, vols, asOf, windows)[i] == InWindow(ts, vols, asOf - windows[i], asOf)
    {
      WindowTotalIsWindowSum(ts, vols, asOf, windows[i]);
    }
  }

  /**
   * With no trade buffered, or with the first buffered trade after the query
   * time, every output is zero.
   */
  lemma WindowVolumesZeroWithoutEarlierTrade(ts: seq<int>, vols: seq<real>, asOf: int, windows: seq<int>)
    requires |ts| == |vols|
    requires ts == [] || ts[0] > asOf
    ensures forall i :: 0 <= i < |windows| ==> WindowVolumesOf(ts, vols, asOf, windows)[i] == 0.0
  {
  }

  /**
   * The recorded example: trades 80 ms, 30 ms and 5 ms before the query with
   * volumes 3, -2 and 1 give 1, 3 and 6 over the 10, 50 and 100 ms windows.
   */
  lemma WindowVolumesExample(ts: seq<int>, vols: seq<real>, windows: seq<int>)
    requires ts == [920000, 970000, 995000] && vols == [3.0, -2.0, 1.0]
    requires windows == [10000, 50000, 100000]
    ensures WindowVolumesOf(ts, vols, 1000000, windows) == [1.0, 3.0, 6.0]
  {
    WindowVolumesAreWindowSums(ts, vols, 1000000, windows);
    InWindowOfThree(ts, vols, 990000, 1000000);
    InWindowOfThree(ts, vols, 950000, 1000000);
    InWindowOfThree(ts, vols, 900000, 1000000);
  }

  lemma InWindowOfThree(ts: seq<int>, vols: seq<real>, lo: int, hi: int)
    requires |ts| == |vols| == 3
    ensures InWindow(ts, vols, lo, hi) ==
      (if lo <= ts[0] <= hi then Abs(vols[0]) else 0.0)
      + (if lo <= ts[1] <= hi then Abs(vols[1]) else 0.0)
      + (if lo <= ts[2] <= hi then Abs(vols[2]) else 0.0)
  {
    var t2, v2 := ts[..2], vols[..2];
    var t1, v1 := t2[..1], v2[..1];
    assert t1[..0] == [] && v1[..0] == [];
    assert InWindow(t1, v1, lo, hi) == (if lo <= ts[0] <= hi then Abs(vols[0]) else 0.0);
  }

  /** Two Rust rings of equal capacity, one for timestamps and one for signed volumes. */
  class TradeBuffer {
    const timestamps: RingBuffer<int>
    const volumes: RingBuffer<real>
    ghost const Repr: set<object>

    ghost predicate Valid()
      reads this, Repr
    {
      && Repr == {this, timestamps, volumes} + timestamps.Repr + volumes.Repr
      && this !in timestamps.Repr && this !in volumes.Repr
      && timestamps.Repr !! volumes.Repr
      && timestamps.Valid() && volumes.Valid()
      && timestamps.capacity == volumes.capacity
      && |timestamps.History| == |volumes.History|
    }

    /** The buffered timestamps (microseconds), oldest first. */
    ghost function Timestamps(): seq<int>
      reads this, timestamps
    {
      timestamps.Contents()
    }

    /** The buffered signed volumes, in the same order. */
    ghost function Volumes(): seq<real>
      reads this, volumes
    {
      volumes.Contents()
    }

    constructor (capacity: nat)
      requires capacity > 0
      ensures Valid() && fresh(Repr)
      ensures timestamps.capacity == capacity
      ensures timestamps.History == [] && volumes.History == []
    {
      var t := new RingBuffer<int>.Init(capacity);
      var v := new RingBuffer<real>.Init(capacity);
      timestamps, volumes := t, v;
      Repr := {this, t, v} + t.Repr + v.Repr;
    }

    /** `add_trade`: one timestamp and one signed volume, pushed together. */
    method AddTrade(tsUs: int, volume: real)
      requires Valid()
      modifies Repr
      ensures Valid()
      ensures timestamps.History == old(timestamps.History) + [tsUs]
      ensures volumes.History == old(volumes.History) + [volume]
    {
      timestamps.Push(tsUs);
      volumes.Push(volume);
    }

    /**
     * `window_volumes`: writes one total per window into `out`, the
     * closed-window absolute volume when the buffered timestamps are in order.
     */
    method WindowVolumes(tsUs: int, windows: seq<int>, out: array<real>)
      requires Valid()
      requires out.Length == |windows| && out !in Repr
      modifies out
      ensures |Timestamps()| == |Volumes()|
      ensures out[..] == WindowVolumesOf(Timestamps(), Volumes(), tsUs, windows)
      ensures NonDecreasing(Timestamps()) ==>
        forall i :: 0 <= i < |windows| ==> out[i] == InWindow(Timestamps(), Volumes(), tsUs - windows[i], tsUs)
    {
      var ts := timestamps.SnapshotVec();
      var vs := volumes.SnapshotVec();
      FillWindowVolumes(ts, vs, tsUs, windows, out);
      if NonDecreasing(ts) {
        WindowVolumesAreWindowSums(ts, vs, tsUs, windows);
      }
    }

    /** The search-and-subtract loop of `window_volumes`, on the two snapshots. */
    static method FillWindowVolumes(ts: seq<int>, vs: seq<real>, tsUs: int, windows: seq<int>, out: array<real>)
      requires |ts| == |vs| && out.Length == |windows|
      modifies out
      ensures out[..] == WindowVolumesOf(ts, vs, tsUs, windows)
    {
      if |ts| == 0 {
        forall i | 0 <= i < out.Length {
          out[i] := 0.0;
        }
        WindowVolumesZeroWithoutEarlierTrade(ts, vs, tsUs, windows);
      } else {
        var validEnd := UpperBound(ts, tsUs);
        if validEnd == 0 {
          forall i | 0 <= i < out.Length {
            out[i] := 0.0;
          }
          WindowVolumesZeroWithoutEarlierTrade(ts, vs, tsUs, windows);
        } else {
          var kept := ts[..validEnd];
          var prefix := PrefixSums(vs[..validEnd]);
          for idx := 0 to |windows|
            invariant forall k :: 0 <= k < idx ==> out[k] == WindowTotal(ts, vs, tsUs, windows[k])
          {
            var cutoff := tsUs - windows[idx];
            var left := LowerBound(kept, cutoff);
            if left <= 0 {
              out[idx] := prefix[validEnd - 1];
            } else {
              out[idx] := prefix[validEnd - 1] - prefix[left - 1];
            }
          }
        }
      }
      assert out[..] == WindowVolumesOf(ts, vs, tsUs, windows);
    }
  }
}
