/** The ring buffer behind the global queue: a power-of-two array and two counters that only grow. */
module RingQueue {
  import opened Common
  import opened WordArithmetic
  import StealQueue

  /** The mask picks the remainder. */
  lemma MaskIsRemainder(x: nat, order: nat)
    ensures StealQueue.And(x, Pow2(order) - 1) == x % Pow2(order)
  {
    AndNotRoundsDown(x, order);
  }

  class Queue<T(0)> {
    const order: nat
    const data: array<T>
    var head: nat
    var tail: nat

    function Capacity(): nat { Pow2(order) }

    ghost predicate Valid()
      reads this
    {
      data.Length == Capacity() && tail <= head <= tail + Capacity()
    }

    function Slot(cursor: nat): (slot: nat)
      requires data.Length == Capacity()
      ensures slot < data.Length
    {
      MaskIsRemainder(cursor, order);
      StealQueue.And(cursor, Capacity() - 1)
    }

    /** Counters within one capacity of each other point to different slots. */
    lemma SlotsDiffer(x: nat, y: nat)
      requires data.Length == Capacity() && x < y < x + Capacity()
      ensures Slot(x) != Slot(y)
    {
      MaskIsRemainder(x, order);
      MaskIsRemainder(y, order);
      StealQueue.SpotsDistinct(order, x, y);
    }

    /** What was pushed and not popped, oldest first. */
    ghost function Contents(): (items: seq<T>)
      requires Valid()
      reads this, data
      ensures |items| == head - tail
    {
      seq(head - tail, i requires 0 <= i < head - tail reads this, data requires Valid() => data[Slot(tail + i)])
    }

    constructor (order: nat)
      ensures Valid() && Contents() == [] && this.order == order && fresh(data)
    {
      this.order := order;
      data := new T[Pow2(order)];
      head, tail := 0, 0;
    }

    function Len(): (n: nat)
      requires Valid()
      reads this, data
      ensures n == |Contents()|
    {
      head - tail
    }

    /** A full queue refuses and stays as it is. */
    method Push(item: T) returns (ok: bool)
      requires Valid()
      modifies this, data
      ensures Valid() && (ok <==> |old(Contents())| < Capacity())
      ensures Contents() == if ok then old(Contents()) + [item] else old(Contents())
    {
      if Len() == Capacity() { return false; }
      hide Pow2, Queue.Slot;
      ghost var before, at := Contents(), head;
      var slot := Slot(head);
      data[slot] := item;
      head := head + 1;
      forall i | 0 <= i < |before| ensures Contents()[i] == before[i] {
        SlotsDiffer(tail + i, at);
      }
      assert Contents()[|before|] == item;
      return true;
    }

    /** The oldest item, or nothing from an empty queue. */
    method Pop() returns (item: Option<T>)
      requires Valid()
      modifies this
      ensures Valid()
      ensures old(Contents()) == [] ==> item == None && Contents() == []
      ensures old(Contents()) != [] ==> item == Some(old(Contents())[0]) && Contents() == old(Contents())[1..]
    {
      if head == tail { return None; }
      ghost var before := Contents();
      item := Some(data[Slot(tail)]);
      tail := tail + 1;
      assert forall i :: 0 <= i < |before| - 1 ==> Contents()[i] == before[i + 1];
    }

    /** The draining iterator run to its end: everything, in order. */
    method Drain() returns (items: seq<T>)
      requires Valid()
      modifies this
      ensures Valid() && items == old(Contents()) && Contents() == []
    {
      items := [];
      ghost var all := Contents();
      assert items + all == all;
      hide Pow2, Queue.Slot, Queue.Contents;
      while head != tail
        invariant Valid() && items + Contents() == all
        decreases head - tail
      {
        ghost var rest := Contents();
        assert items + rest == (items + [rest[0]]) + rest[1..];
        var item := Pop();
        items := items + [item.value];
      }
      assert items + [] == items;
    }
  }
}
