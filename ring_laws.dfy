/**
 * The law every ring buffer of the system obeys: after a run of pushes it
 * holds the last min(pushes, capacity) pushed values, oldest first.  The
 * three implementations (the generic Rust buffer, the numpy latency ring
 * and the benchmark's StreamStats) all store their samples in a fixed array
 * written at a cursor, and linearise it by rotating at the cursor once the
 * array is full.  This module states the law and the rotation facts once.
 */
module RingLaws {

  function Min(a: int, b: int): (m: int)
    ensures m <= a && m <= b && (m == a || m == b)
  {
    if a <= b then a else b
  }

  /** The last `min(|s|, n)` elements of `s`, oldest first. */
  function LastN<T>(s: seq<T>, n: nat): (r: seq<T>)
    ensures |r| == Min(|s|, n)
    ensures forall k :: 0 <= k < |r| ==> r[k] == s[|s| - |r| + k]
  {
    s[|s| - Min(|s|, n)..]
  }

  /** The array read from index `c` to its end, then from its start up to `c`. */
  function Rotate<T>(s: seq<T>, c: nat): (r: seq<T>)
    requires c <= |s|
  {
    s[c..] + s[..c]
  }

  /**
   * How a ring lays out its history `h` in the slots `s`: `len` is the
   * number of live values, and the live values are the first `len` slots
   * (with the cursor `c` just past them) while the ring is filling, and the
   * rotation at the cursor once it is full.
   */
  ghost predicate Layout<T>(s: seq<T>, c: nat, len: nat, h: seq<T>)
  {
    && |s| > 0
    && c < |s|
    && len == Min(|h|, |s|)
    && (len < |s| ==> c == len && s[..len] == h)
    && (len == |s| ==> Rotate(s, c) == LastN(h, |s|))
  }

  /** The linearised view of a laid-out ring is its last `min(|h|, |s|)` values. */
  function Linearize<T>(s: seq<T>, c: nat, len: nat): (r: seq<T>)
    requires c <= |s| && len <= |s|
  {
    if len < |s| then s[..len] else Rotate(s, c)
  }

  lemma LayoutLinearize<T>(s: seq<T>, c: nat, len: nat, h: seq<T>)
    requires Layout(s, c, len, h)
    ensures Linearize(s, c, len) == LastN(h, |s|)
  {
  }

  /** The empty history is laid out with the cursor and the count at zero. */
  lemma LayoutEmpty<T>(s: seq<T>)
    requires |s| > 0
    ensures Layout(s, 0, 0, [])
  {
    assert LastN<T>([], |s|) == [];
  }

  /**
   * One push keeps the layout: write the slot at the cursor, advance the
   * cursor by one wrapping at the end, and count one more live value until
   * the ring is full.
   */
  lemma {:induction false} LayoutPush<T>(s: seq<T>, c: nat, len: nat, h: seq<T>, x: T)
    requires Layout(s, c, len, h)
    ensures Layout(s[c := x], if c + 1 == |s| then 0 else c + 1, Min(len + 1, |s|), h + [x])
  {
    var n := |s|;
    var s', c', len', h' := s[c := x], (if c + 1 == n then 0 else c + 1), Min(len + 1, n), h + [x];
    ModSucc(|h|, n);
    LastNPush(h, x, n);
    if len == n {
      RotateAfterWrite(s, c, x);
    } else if len' == n {
      FillLastSlot(s, x);
      assert Rotate(s', 0) == s';
    } else {
      assert s'[..len'] == s[..c] + [x];
    }
  }

  /** Pushing one value either extends the window or drops its oldest value. */
  lemma LastNPush<T>(s: seq<T>, x: T, n: nat)
    requires n > 0
    ensures |s| < n ==> LastN(s + [x], n) == LastN(s, n) + [x]
    ensures |s| >= n ==> LastN(s + [x], n) == LastN(s, n)[1..] + [x]
  {
    var t := s + [x];
    if |s| < n {
      assert LastN(t, n) == t;
      assert LastN(s, n) == s;
    } else {
      assert LastN(t, n) == s[|s| - n + 1..] + [x];
    }
  }

  /** Element `i` of the linearised view is the slot `snapshot_vec` reads for it. */
  lemma LinearizeAt<T>(s: seq<T>, c: nat, len: nat, i: nat)
    requires c < |s| && i < len <= |s|
    ensures Linearize(s, c, len)[i] == s[((if len == |s| then c else 0) + i) % |s|]
  {
    if len == |s| {
      RotateAt(s, c, i);
    } else {
      assert i % |s| == i;
    }
  }

  /** Element `i` of the rotation at `c` is the array's element `(c + i) mod |s|`. */
  lemma RotateAt<T>(s: seq<T>, c: nat, i: nat)
    requires c < |s| && i < |s|
    ensures Rotate(s, c)[i] == s[(c + i) % |s|]
  {
    var n := |s|;
    if c + i < n {
      ModUnique(c + i, n, 0, c + i);
      assert Rotate(s, c)[i] == s[c..][i];
    } else {
      var k := c + i - n;
      ModUnique(c + i, n, 1, k);
      assert Rotate(s, c)[i] == s[..c][k];
    }
  }

  /**
   * Writing the slot at the cursor and advancing the cursor by one (wrapping
   * at the end) turns the rotation into the old rotation without its oldest
   * element, followed by the new value.
   */
  lemma RotateAfterWrite<T>(s: seq<T>, c: nat, x: T)
    requires c < |s|
    ensures Rotate(s[c := x], if c + 1 == |s| then 0 else c + 1) == Rotate(s, c)[1..] + [x]
  {
    var s' := s[c := x];
    if c + 1 == |s| {
      assert Rotate(s', 0) == s';
      assert s' == s[..c] + [x];
      assert Rotate(s, c)[1..] == s[..c];
    } else {
      assert s'[c + 1..] == s[c + 1..];
      assert s'[..c + 1] == s[..c] + [x];
      assert Rotate(s, c)[1..] == s[c + 1..] + s[..c];
    }
  }

  /** Filling the last free slot of a partly filled array completes it. */
  lemma FillLastSlot<T>(s: seq<T>, x: T)
    requires |s| > 0
    ensures s[|s| - 1 := x] == s[..|s| - 1] + [x]
  {
  }

  lemma MulAtLeast(a: int, m: int)
    requires a >= 1 && m > 0
    ensures a * m >= m
  {
  }

  /** The remainder is the unique `r` in `[0, m)` with `a == q * m + r`. */
  lemma ModUnique(a: int, m: int, q: int, r: int)
    requires m > 0 && 0 <= r < m && a == q * m + r
    ensures a % m == r
  {
    var q0, r0 := a / m, a % m;
    assert a == q0 * m + r0;
    assert (q - q0) * m == r0 - r;
    if q > q0 {
      MulAtLeast(q - q0, m);
    } else if q < q0 {
      MulAtLeast(q0 - q, m);
    }
  }

  /** Advancing a residue by one wraps exactly when it reaches the modulus. */
  lemma ModSucc(n: nat, m: nat)
    requires m > 0
    ensures (n + 1) % m == if n % m + 1 == m then 0 else n % m + 1
  {
    var q := n / m;
    assert n == q * m + n % m;
    if n % m + 1 == m {
      assert n + 1 == (q + 1) * m + 0;
      ModUnique(n + 1, m, q + 1, 0);
    } else {
      ModUnique(n + 1, m, q, n % m + 1);
    }
  }
}
