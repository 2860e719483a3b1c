/** The growable component store: an append-only dynamic array that keeps its
    element count (`size`) and its allocated length (`capacity`) apart and
    doubles the allocation when it is full. */
module ComponentStore {
  import opened Components

  // ------------------------------------------------------------ growth rule

  /** The capacity after one append to a store holding `size` elements in
      `capacity` slots: unchanged while there is room, doubled when full, and
      1 when the store had no allocation at all. */
  function NextCapacity(size: nat, capacity: nat): (c: nat)
    requires size <= capacity
    ensures size < c
    ensures size < capacity ==> c == capacity
    ensures size == capacity ==> c == (if capacity == 0 then 1 else 2 * capacity)
  {
    if size == capacity then
      var doubled := capacity * 2;
      if doubled == 0 then 1 else doubled
    else capacity
  }

  /** The capacity of a store that started empty and unallocated and has
      received `n` appends. */
  function CapacityAfter(n: nat): (c: nat)
  {
    if n == 0 then 0
    else
      var prev := CapacityAfter(n - 1);
      if n - 1 <= prev then NextCapacity(n - 1, prev) else prev
  }

  predicate IsPowerOfTwo(k: nat)
    decreases k
  {
    k == 1 || (k >= 2 && k % 2 == 0 && IsPowerOfTwo(k / 2))
  }

  /** Doubling from 1 on: after `n` appends the allocation is the least power
      of two that holds `n` elements, so it is never full beyond `n` and never
      more than twice what is used. */
  lemma {:induction false} CapacityAfterIsLeastPowerOfTwo(n: nat)
    ensures n <= CapacityAfter(n)
    ensures n == 0 ==> CapacityAfter(n) == 0
    ensures n > 0 ==> IsPowerOfTwo(CapacityAfter(n)) && CapacityAfter(n) < 2 * n
  {
    if n > 0 {
      CapacityAfterIsLeastPowerOfTwo(n - 1);
      var prev := CapacityAfter(n - 1);
      if n - 1 == prev && prev > 0 {
        assert CapacityAfter(n) == 2 * prev;
        assert (2 * prev) / 2 == prev;
      }
    }
  }

  // ------------------------------------------------------------------ store

  class ComponentArray {
    var data: array<Component>
    var size: nat
    var capacity: nat

    /** The allocation is exactly `capacity` long, holds the `size` live
        elements, and its length is the one the growth rule gives for `size`
        appends (only appending and clearing ever change it). */
    ghost predicate Valid()
      reads this
    {
      data.Length == capacity && size <= capacity && capacity == CapacityAfter(size)
    }

    /** The live elements, in creation order. */
    ghost function Contents(): (s: seq<Component>)
      reads this, data
      requires Valid()
      ensures |s| == size
    {
      data[..size]
    }

    /** The store the program starts with: no elements and a zero-length
        allocation. */
    constructor ()
      ensures Valid() && fresh(data)
      ensures size == 0 && capacity == 0 && Contents() == []
    {
      data := new Component[0];
      size := 0;
      capacity := 0;
    }

    /** Appends `value` at index `size`, first reallocating to the grown
        capacity (copying every live element) when the store is full. */
    method Add(value: Component)
      requires Valid()
      modifies this, data
      ensures Valid()
      ensures size == old(size) + 1
      ensures capacity == NextCapacity(old(size), old(capacity))
      ensures old(size) < old(capacity) ==> data == old(data)
      ensures old(size) == old(capacity) ==> fresh(data)
      ensures Contents() == old(Contents()) + [value]
      ensures data[old(size)] == value
      ensures forall i :: 0 <= i < old(size) ==> data[i] == old(data[i])
      ensures (IdsFollowPositions(old(Contents())) && (!value.Transistor? ==> value.id == old(size)))
              ==> IdsFollowPositions(Contents())
    {
      if size == capacity {
        var newCapacity := capacity * 2;
        if newCapacity == 0 {
          newCapacity := 1;
        }
        var newData := new Component[newCapacity];
        forall i | 0 <= i < size {
          newData[i] := data[i];
        }
        data := newData;
        capacity := newCapacity;
      }
      data[size] := value;
      size := size + 1;
      if IdsFollowPositions(old(Contents())) && (!value.Transistor? ==> value.id == old(size)) {
        AppendKeepsIds(old(Contents()), value);
      }
    }

    /** The element at `index`; the source reads the buffer without a bounds
        check, so callers must stay below `size`. */
    method Get(index: nat) returns (c: Component)
      requires Valid()
      requires index < size
      ensures c == Contents()[index]
    {
      c := data[index];
    }

    /** Releases the allocation and empties the store. */
    method Free()
      requires Valid()
      modifies this
      ensures Valid() && fresh(data)
      ensures size == 0 && capacity == 0 && Contents() == []
    {
      data := new Component[0];
      size := 0;
      capacity := 0;
    }
  }

  /** After a clear, the next append allocates exactly one slot and the store
      holds just that element. */
  method FreeThenAdd(store: ComponentArray, value: Component)
    requires store.Valid()
    modifies store, store.data
    ensures store.Valid()
    ensures store.size == 1 && store.capacity == 1
    ensures store.Contents() == [value]
  {
    store.Free();
    store.Add(value);
  }
}
