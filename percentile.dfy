/**
 * numpy's default `percentile` (method "linear"), restated: sort the
 * samples, take the virtual rank `p / 100 * (n - 1)` and interpolate
 * linearly between the order statistics on either side of it.  Every latency
 * ring of the system reports its p50 and p95 this way.
 */
module Percentile {
  import RingLaws

  ghost predicate Sorted(s: seq<int>)
  {
    forall i, j :: 0 <= i < j < |s| ==> s[i] <= s[j]
  }

  /** Inserts `x` into a sorted sequence before the first element not below it. */
  function Insert(x: int, s: seq<int>): (r: seq<int>)
    requires Sorted(s)
    ensures Sorted(r)
    ensures multiset(r) == multiset(s) + multiset{x}
    ensures |r| == |s| + 1
    ensures r[0] == if s == [] || x <= s[0] then x else s[0]
  {
    if s == [] || x <= s[0] then [x] + s
    else
      assert s == [s[0]] + s[1..];
      [s[0]] + Insert(x, s[1..])
  }

  /** The samples in ascending order: sorted, and a permutation of the input. */
  function Sort(s: seq<int>): (r: seq<int>)
    ensures Sorted(r)
    ensures multiset(r) == multiset(s)
    ensures |r| == |s|
  {
    if s == [] then []
    else
      assert s == [s[0]] + s[1..];
      Insert(s[0], Sort(s[1..]))
  }

  /** Sorting a sorted sequence changes nothing. */
  lemma {:induction false} SortOfSorted(s: seq<int>)
    requires Sorted(s)
    ensures Sort(s) == s
  {
    if s != [] {
      SortOfSorted(s[1..]);
    }
  }

  /** The virtual rank `p / 100 * (n - 1)` of numpy's linear method. */
  function Rank(n: nat, p: int): (rank: real)
    requires n > 0 && 0 <= p <= 100
    ensures 0.0 <= rank <= (n - 1) as real
  {
    var q := p as real / 100.0;
    ScaleWithinRange(q, (n - 1) as real);
    q * (n - 1) as real
  }

  lemma ScaleWithinRange(q: real, m: real)
    requires 0.0 <= q <= 1.0 && 0.0 <= m
    ensures 0.0 <= q * m <= m
  {
    assert (1.0 - q) * m >= 0.0;
  }

  /** Linear interpolation between the order statistics around the rank. */
  function Interpolate(sorted: seq<int>, p: int): real
    requires |sorted| > 0 && 0 <= p <= 100
  {
    var n := |sorted|;
    var rank := Rank(n, p);
    var lo := rank.Floor;
    var hi := RingLaws.Min(lo + 1, n - 1);
    sorted[lo] as real + (rank - lo as real) * (sorted[hi] - sorted[lo]) as real
  }

  /** `np.percentile(data, p)` for `0 <= p <= 100` (numpy refuses other ranks). */
  function PercentileOf(data: seq<int>, p: int): (r: real)
    requires |data| > 0 && 0 <= p <= 100
    ensures Sort(data)[0] as real <= r <= Sort(data)[|data| - 1] as real
    ensures p == 0 ==> r == Sort(data)[0] as real
    ensures p == 100 ==> r == Sort(data)[|data| - 1] as real
  {
    var s := Sort(data);
    var r := Interpolate(s, p);
    InterpolateBetween(s, p);
    assert s[0] as real <= r <= s[|s| - 1] as real;
    r
  }

  /** The interpolated value lies between the order statistics around the rank. */
  lemma InterpolateBetween(s: seq<int>, p: int)
    requires |s| > 0 && 0 <= p <= 100 && Sorted(s)
    ensures s[0] as real <= Interpolate(s, p) <= s[|s| - 1] as real
    ensures p == 0 ==> Interpolate(s, p) == s[0] as real
    ensures p == 100 ==> Interpolate(s, p) == s[|s| - 1] as real
  {
    var n := |s|;
    var rank := Rank(n, p);
    var lo := rank.Floor;
    var hi := RingLaws.Min(lo + 1, n - 1);
    var t := rank - lo as real;
    var d := (s[hi] - s[lo]) as real;
    assert Interpolate(s, p) == s[lo] as real + t * d;
    assert s[0] <= s[lo] <= s[hi] <= s[n - 1];
    Between(s[lo] as real, s[hi] as real, t, d);
    if p == 0 {
      assert rank == 0.0 && lo == 0 && t == 0.0;
    }
    if p == 100 {
      assert rank == (n - 1) as real && lo == n - 1 && hi == lo;
    }
  }

  /** A point of the segment from `a` to `b` lies between its ends. */
  lemma Between(a: real, b: real, t: real, d: real)
    requires a <= b && d == b - a && 0.0 <= t <= 1.0
    ensures a <= a + t * d <= b
  {
    var td := t * d;
    ScaleWithinRange(t, d);
    assert 0.0 <= td <= d;
    assert a <= a + td <= a + d == b;
  }

  /** Every element of a sorted sequence lies between its first and its last. */
  lemma SortedEnds(s: seq<int>, x: int)
    requires Sorted(s) && x in s
    ensures s[0] <= x <= s[|s| - 1]
  {
    var j :| 0 <= j < |s| && s[j] == x;
  }

  /** The ends of a sorted permutation of the samples bound every sample. */
  lemma PermutationEnds(a: seq<int>, s: seq<int>, i: int)
    requires Sorted(s) && multiset(a) == multiset(s) && 0 <= i < |a|
    ensures |s| == |a|
    ensures s[0] <= a[i] <= s[|s| - 1]
  {
    assert |s| == |multiset(s)| == |multiset(a)| == |a|;
    assert a[i] in multiset(a);
    SortedEnds(s, a[i]);
  }

  /**
   * A percentile lies between the smallest and the largest sample; at
   * `p == 0` it is the smallest sample and at `p == 100` the largest.
   */
  lemma PercentileWithinSamples(data: seq<int>, p: int)
    requires |data| > 0 && 0 <= p <= 100
    ensures forall i :: 0 <= i < |data| ==> Sort(data)[0] as real <= data[i] as real <= Sort(data)[|data| - 1] as real
    ensures Sort(data)[0] as real <= PercentileOf(data, p) <= Sort(data)[|data| - 1] as real
    ensures p == 0 ==> forall i :: 0 <= i < |data| ==> PercentileOf(data, p) <= data[i] as real
    ensures p == 100 ==> forall i :: 0 <= i < |data| ==> data[i] as real <= PercentileOf(data, p)
  {
    var s := Sort(data);
    InterpolateBetween(s, p);
    forall i | 0 <= i < |data|
      ensures s[0] <= data[i] <= s[|data| - 1]
    {
      PermutationEnds(data, s, i);
    }
  }

  lemma SortOneToEight(s: seq<int>)
    requires s == [1, 2, 3, 4, 5, 6, 7, 8]
    ensures Sort(s) == s
  {
    assert Sorted(s);
    SortOfSorted(s);
  }

  lemma InterpolateOneToEight(s: seq<int>)
    requires s == [1, 2, 3, 4, 5, 6, 7, 8]
    ensures Interpolate(s, 50) == 4.5
    ensures Interpolate(s, 95) == 7.65
  {
    assert Rank(8, 50) == 3.5 && (3.5).Floor == 3;
    assert Rank(8, 95) == 6.65 && (6.65).Floor == 6;
  }

  /** The recorded example: samples 1..8 give p50 = 4.5 and p95 = 7.65. */
  lemma PercentilesOfOneToEight(s: seq<int>)
    requires s == [1, 2, 3, 4, 5, 6, 7, 8]
    ensures PercentileOf(s, 50) == 4.5
    ensures PercentileOf(s, 95) == 7.65
  {
    SortOneToEight(s);
    InterpolateOneToEight(s);
  }
}
