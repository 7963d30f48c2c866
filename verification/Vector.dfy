/** The growable array of include/qs/vector.hpp: the traversal stack of the BK-tree and the
    worker pool of the scheduler are such vectors. */
module Vectors {

  // maybe_resize followed by resize: the integer division makes the test false until the
  // vector is one short of full, and the new capacity is the old one times 1.5, truncated.
  function CapacityForPush(size: nat, capacity: nat): nat
    requires capacity > 0
  {
    if (size + 1) / capacity * 100 >= 75 then capacity * 3 / 2 else capacity
  }

  // The capacity after `n` pushes onto an empty vector.
  function CapacityAfter(capacity: nat, n: nat): (c: nat)
    requires capacity > 0
    ensures c >= capacity
  {
    if n == 0 then capacity else CapacityForPush(n - 1, CapacityAfter(capacity, n - 1))
  }

  lemma PushTest(size: nat, capacity: nat)
    requires size < capacity
    ensures (size + 1) / capacity * 100 >= 75 <==> size + 1 == capacity
  {
    if size + 1 < capacity {
      assert (size + 1) / capacity == 0;
    }
  }

  // A push writes slot `size`, so the slot must exist after the growth step.  It does for
  // every number of pushes exactly when the vector starts with room for two.
  lemma {:induction false} GrowthKeepsRoom(capacity: nat, n: nat)
    requires capacity >= 2
    ensures n < CapacityAfter(capacity, n)
  {
    if n > 0 {
      GrowthKeepsRoom(capacity, n - 1);
      PushTest(n - 1, CapacityAfter(capacity, n - 1));
    }
  }

  lemma PushesAreInBoundsIffRoomForTwo(capacity: nat)
    requires capacity > 0
    ensures (forall n: nat :: n < CapacityForPush(n, CapacityAfter(capacity, n))) <==> capacity >= 2
  {
    if capacity >= 2 {
      forall n: nat ensures n < CapacityForPush(n, CapacityAfter(capacity, n)) {
        GrowthKeepsRoom(capacity, n + 1);
        assert CapacityAfter(capacity, n + 1) == CapacityForPush(n, CapacityAfter(capacity, n));
      }
    } else {
      assert CapacityAfter(1, 0) == 1 && CapacityAfter(1, 1) == 1;
      assert !(1 < CapacityForPush(1, CapacityAfter(1, 1)));
    }
  }

  // The scheduler gives its worker vector twice the room it needs (src/lib/scheduler.cpp:14),
  // and worker threads keep the addresses of their workers: the vector never grows while the
  // workers are pushed, so no worker moves.
  lemma {:induction false} WorkersNeverMove(threads: nat, n: nat)
    requires threads > 0 && n <= threads
    ensures CapacityAfter(threads * 2, n) == threads * 2
  {
    if n > 0 {
      WorkersNeverMove(threads, n - 1);
      PushTest(n - 1, threads * 2);
    }
  }

  class Vector<T(0)> {
    var data: array<T>
    var size: nat

    ghost predicate Valid()
      reads this
    {
      size <= data.Length
    }

    // A push is possible, and leaves room for the next one.
    ghost predicate Growable()
      reads this
    {
      2 <= data.Length && size < data.Length
    }

    ghost function Contents(): seq<T>
      requires Valid()
      reads this, data
    {
      data[..size]
    }

    // The part of the vector below `n`: the live part of a stack whose top is at `n`.
    ghost function Prefix(n: nat): seq<T>
      requires Valid() && n <= size
      reads this, data
    {
      data[..n]
    }

    constructor (capacity: nat)
      ensures Valid() && Contents() == [] && data.Length == capacity && fresh(data)
      ensures capacity >= 2 ==> Growable()
    {
      data := new T[capacity];
      size := 0;
    }

    method Resize()
      requires Growable() && size + 1 == data.Length
      modifies this`data
      ensures fresh(data) && size + 1 < data.Length && data.Length == old(data.Length) * 3 / 2
      ensures Contents() == old(Contents())
    {
      var newData := new T[data.Length * 3 / 2];
      for i := 0 to size
        invariant data == old(data) && newData != data
        invariant forall k :: 0 <= k < i ==> newData[k] == data[k]
        modifies newData
      {
        newData[i] := data[i];
      }
      data := newData;
    }

    method Push(elem: T)
      requires Growable()
      modifies this, data
      ensures Growable() && Contents() == old(Contents()) + [elem]
      ensures data == old(data) || fresh(data)
      ensures data.Length == CapacityForPush(old(size), old(data.Length))
    {
      PushTest(size, data.Length);
      if (size + 1) / data.Length * 100 >= 75 {
        Resize();
      }
      data[size] := elem;
      size := size + 1;
    }

    // `set` throws past the capacity, overwrites below the size and pushes otherwise, wherever
    // between size and capacity the index points.
    method Set(index: nat, elem: T) returns (inBounds: bool)
      requires Growable()
      modifies this, data
      ensures Growable() && (data == old(data) || fresh(data))
      ensures inBounds <==> index < old(data.Length)
      ensures Contents() == if !inBounds then old(Contents())
                            else if index < old(size) then old(Contents())[index := elem]
                            else old(Contents()) + [elem]
      ensures index <= old(size) ==>
                inBounds && size > index && Prefix(index + 1) == old(Prefix(index)) + [elem]
    {
      if index >= data.Length {
        return false;
      }
      if index < size {
        data[index] := elem;
      } else {
        Push(elem);
      }
      return true;
    }

    method At(index: nat) returns (inBounds: bool, elem: T)
      requires Valid()
      ensures inBounds <==> index < size
      ensures inBounds ==> elem == Contents()[index]
    {
      if index >= size {
        elem := *;
        return false, elem;
      }
      return true, data[index];
    }
  }
}
