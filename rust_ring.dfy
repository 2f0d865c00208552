/**
 * The generic fixed-capacity ring buffer of the Rust extension
 * (`RingBuffer<T>` in quant/rust/src/lib.rs), which backs the latency rings
 * and the trade buffer.  The buffer keeps a vector of `capacity` slots, the
 * number of live values `len` and the next slot to write, `cursor`.
 *
 * The ghost field `History` is every value pushed since construction or the
 * last `clear`; `Valid` ties the slots to its last `min(|History|, capacity)`
 * values.  Values are unbounded here: the 64-bit and `usize` widths of the
 * source are not modelled.
 */
module RustRing {
  import opened Wrappers
  import opened RingLaws

  class RingBuffer<T(0)> {
    const data: array<T>
    const capacity: nat
    var len: nat
    var cursor: nat

    /** Every value pushed since the buffer was created or last cleared. */
    ghost var History: seq<T>
    /** The contents of `data`, as a value. */
    ghost var Slots: seq<T>
    ghost const Repr: set<object>

    ghost predicate Valid()
      reads this, Repr
    {
      && Repr == {this, data}
      && data.Length == capacity && capacity > 0
      && |Slots| == capacity
      && (forall k :: 0 <= k < capacity ==> data[k] == Slots[k])
      && Layout(Slots, cursor, len, History)
    }

    /** The values the buffer holds, oldest first. */
    ghost function Contents(): seq<T>
      reads this
    {
      LastN(History, capacity)
    }

    /** The successful branch of `new`: `capacity` default slots, nothing live. */
    constructor Init(capacity: nat)
      requires capacity > 0
      ensures Valid() && fresh(Repr)
      ensures this.capacity == capacity && data.Length == capacity
      ensures len == 0 && cursor == 0 && History == []
    {
      var a := new T[capacity];
      LayoutEmpty(a[..]);
      this.capacity := capacity;
      data := a;
      Slots := a[..];
      len, cursor := 0, 0;
      History := [];
      Repr := {this, a};
    }

    /** `new`: fails exactly when the requested capacity is zero. */
    static method New(capacity: nat) returns (r: Option<RingBuffer<T>>)
      ensures r.None? <==> capacity == 0
      ensures r.Some? ==> fresh(r.value.Repr) && r.value.Valid()
      ensures r.Some? ==> r.value.capacity == capacity && r.value.data.Length == capacity
      ensures r.Some? ==> r.value.len == 0 && r.value.cursor == 0 && r.value.History == []
    {
      if capacity == 0 {
        return None;
      }
      var b := new RingBuffer<T>.Init(capacity);
      return Some(b);
    }

    /**
     * `push`: writes the slot at the cursor and nothing else, advances the
     * cursor by one modulo the capacity, and grows `len` until it reaches
     * the capacity.
     */
    method Push(value: T)
      requires Valid()
      modifies Repr
      ensures Valid() && Repr == {this, data}
      ensures History == old(History) + [value]
      ensures data[old(cursor)] == value
      ensures forall k :: 0 <= k < data.Length && k != old(cursor) ==> data[k] == old(data[k])
      ensures cursor == (old(cursor) + 1) % capacity
      ensures len == Min(old(len) + 1, capacity)
    {
      LayoutPush(Slots, cursor, len, History, value);
      ModUnique(cursor, capacity, 0, cursor);
      ModSucc(cursor, capacity);
      data[cursor] := value;
      Slots := Slots[cursor := value];
      assert data[..] == Slots;
      cursor := cursor + 1;
      if cursor == capacity {
        cursor := 0;
      }
      if len < capacity {
        len := len + 1;
      }
      History := History + [value];
    }

    /** `extend_from_slice`: the same as pushing each value in order. */
    method ExtendFromSlice(values: seq<T>)
      requires Valid()
      modifies Repr
      ensures Valid() && Repr == {this, data}
      ensures History == old(History) + values
      ensures len == Min(old(len) + |values|, capacity)
    {
      for i := 0 to |values|
        invariant Valid() && Repr == {this, data}
        invariant History == old(History) + values[..i]
      {
        Push(values[i]);
        assert values[..i + 1] == values[..i] + [values[i]];
      }
      assert values[..|values|] == values;
    }

    /** `clear`: forgets every value; the slots and the capacity are kept. */
    method Clear()
      requires Valid()
      modifies this
      ensures Valid() && Repr == {this, data}
      ensures History == [] && Contents() == []
      ensures len == 0 && cursor == 0
      ensures !IsFull()
    {
      len, cursor := 0, 0;
      History := [];
      LayoutEmpty(Slots);
    }

    /** `len`: the number of live values, `min(pushes since clear, capacity)`. */
    function Len(): (n: nat)
      reads this, Repr
      requires Valid()
      ensures n == |Contents()| && n <= capacity
      ensures n == Min(|History|, capacity)
    {
      len
    }

    /** `is_full`: at least `capacity` values were pushed since the last clear. */
    function IsFull(): (full: bool)
      reads this, Repr
      requires Valid()
      ensures full <==> |History| >= capacity
    {
      len == capacity
    }

    /**
     * `snapshot_vec`: reads `len` slots starting at the cursor when full and
     * at slot 0 otherwise; that is the last `len` pushed values, oldest first.
     */
    method SnapshotVec() returns (out: seq<T>)
      requires Valid()
      ensures out == Contents()
      ensures |out| == len
    {
      out := [];
      if len == 0 {
        return;
      }
      var start := if len == capacity then cursor else 0;
      ghost var linear := Linearize(Slots, cursor, len);
      for idx := 0 to len
        invariant out == linear[..idx]
      {
        var position := (start + idx) % capacity;
        LinearizeAt(Slots, cursor, len, idx);
        out := out + [data[position]];
        assert out == linear[..idx + 1];
      }
      LayoutLinearize(Slots, cursor, len, History);
      assert out == linear;
    }
  }
}
