/**
  What a refill that does not fit does, in every state: it overwrites the slot of a cursor a
  thief has claimed, and the thief publishes the new value in place of the claimed one exactly
  if it had not copied that slot yet.
 */
module RefillHarm {
  import opened Common
  import opened WordArithmetic
  import opened StealQueue
  import opened WorkStealing
  import opened StealInvariant
  import opened StealSteps
  import opened StealRefinement
  import opened StealRuns
  import opened RefillRace

  /** What a thief finds in the slots of the cursors it claimed. */
  function Found(from: Queue, start: nat, n: nat): (values: seq<Value>)
    requires |from.data| == from.Capacity()
    ensures |values| == n
  {
    seq(n, k requires 0 <= k < n => from.data[Spot(from.order, start + k)])
  }

  /** Worker `t` copies from worker `j` and has room; `done` slots are copied. */
  ghost predicate Copies(s: State, t: nat, j: nat, start: nat, n: nat, done: nat, copied: seq<Value>) {
    && InRange(s, t) && s.pcs[t] == StealCopying(j, start, n, done) && done <= n
    && QueueOk(s.queues[t]) && RoomFor(s.queues[t], n)
    && s.queues[j].order <= 31 && |s.queues[j].data| == s.queues[j].Capacity()
    && |copied| == done && Written(s.queues[t].order, s.queues[t].data, s.queues[t].pushed, copied)
  }

  /** The thief's own queue after one more copy. */
  lemma OwnCopy(own: Queue, n: nat, copied: seq<Value>, v: Value) returns (own': Queue)
    requires QueueOk(own) && RoomFor(own, n) && |copied| < n
    requires Written(own.order, own.data, own.pushed, copied)
    ensures own.SlotOf(WrappingAdd(own.head, Wrap(|copied|))) < |own.data|
    ensures own' == WriteSlot(own, WrappingAdd(own.head, Wrap(|copied|)), v)
    ensures QueueOk(own') && RoomFor(own', n) && own'.log == own.log
    ensures Written(own'.order, own'.data, own'.pushed, copied + [v])
  {
    SmallWrap(own, n, |copied|);
    hide QueueOk, Written, Queue.SlotOf, Wrap, WrappingAdd, Pow2;
    WriteSlotKeeps(own, copied, v);
    own' := WriteSlot(own, WrappingAdd(own.head, Wrap(|copied|)), v);
  }

  /** One slot is copied as it is found. */
  lemma CopiesOne(s: State, t: nat, j: nat, start: nat, n: nat, done: nat, copied: seq<Value>) returns (own': Queue)
    requires Copies(s, t, j, start, n, done, copied) && done < n
    ensures var s' := Update(s, t, own', t, StealCopying(j, start, n, done + 1));
            && Leads(s, Worker(t, Continue), s')
            && Copies(s', t, j, start, n, done + 1, copied + [Found(s.queues[j], start, n)[done]])
            && s'.queues[t].log == s.queues[t].log && s'.queues[j] == s.queues[j]
  {
    var own, from := s.queues[t], s.queues[j];
    var v := Found(from, start, n)[done];
    assert v == from.data[Spot(from.order, start + done)];
    SlotOfWrapped(from, start + done);
    hide Leads, StealStep, QueueOk, Written, RoomFor, WriteSlot, Queue.SlotOf, Wrap, WrappingAdd, Found, Pow2;
    ThiefLeads(s, t);
    own' := OwnCopy(own, n, copied, v);
    StealCopyShape(s, t, v);
  }

  /** Left alone, the thief copies the rest as it finds it. */
  lemma {:induction false} CopiesAll(s: State, t: nat, j: nat, start: nat, n: nat, done: nat, copied: seq<Value>)
    returns (end: State, all: seq<Value>)
    requires Copies(s, t, j, start, n, done, copied)
    ensures Reaches(s, end) && Copies(end, t, j, start, n, n, all)
    ensures all == copied + Found(s.queues[j], start, n)[done..] && end.queues[t].log == s.queues[t].log
    decreases n - done
  {
    hide Reaches, Leads, Found, QueueOk, Written, RoomFor;
    var found := Found(s.queues[j], start, n);
    if done == n {
      end, all := s, copied;
      ReachesItself(s);
      assert copied + found[n..] == copied;
    } else {
      var own' := CopiesOne(s, t, j, start, n, done, copied);
      var s' := Update(s, t, own', t, StealCopying(j, start, n, done + 1));
      hide Copies, Update;
      end, all := CopiesAll(s', t, j, start, n, done + 1, copied + [found[done]]);
      ReachesBefore(s, Worker(t, Continue), s', end);
      assert copied + [found[done]] + found[done + 1..] == copied + found[done..];
    }
  }

  lemma Stops(s: State, t: nat, j: nat, start: nat, n: nat)
    requires InRange(s, t) && s.pcs[t] == StealCopying(j, start, n, n)
    ensures Leads(s, Worker(t, Continue), Goto(s, t, StealReleasing(j, start, n)))
  {
  }

  lemma LoadsTail(s: State, t: nat, j: nat, start: nat, n: nat)
    requires InRange(s, t) && s.pcs[t] == StealReleasing(j, start, n)
    ensures Leads(s, Worker(t, Continue), Goto(s, t, StealReleaseSeen(j, start, n, Load(s.queues[j]))))
  {
  }

  lemma Releases(s: State, t: nat, j: nat, start: nat, n: nat)
    requires InRange(s, t) && j < |s.queues| && s.pcs[t] == StealReleaseSeen(j, start, n, Load(s.queues[j]))
    ensures Leads(s, Worker(t, Continue), Update(s, j, Release(s.queues[j]), t, StealPublishing(j, start, n)))
  {
  }

  lemma Publishes(s: State, t: nat, j: nat, start: nat, n: nat, values: seq<Value>)
    requires InRange(s, t) && s.pcs[t] == StealPublishing(j, start, n)
    requires QueueOk(s.queues[t]) && RoomFor(s.queues[t], n)
    requires |values| == n && Written(s.queues[t].order, s.queues[t].data, s.queues[t].pushed, values)
    ensures n < U32_RANGE && Leads(s, Worker(t, Continue), Update(s, t, Publish(s.queues[t], values), t, Idle(Stole(n))))
  {
    var q := s.queues[t];
    CapacityBound(q.order);
    assert ReadSlots(q, n) == values by {
      forall k | 0 <= k < n ensures ReadSlots(q, n)[k] == values[k] {
        assert q.data[Spot(q.order, q.pushed + k)] == values[k];
      }
    }
    assert n < U32_RANGE;
    hide ReadSlots, Publish, QueueOk, Written;
  }

  /** And publishes what it copied. */
  lemma PublishesAll(s: State, t: nat, j: nat, start: nat, n: nat, values: seq<Value>) returns (end: State)
    requires Copies(s, t, j, start, n, n, values)
    ensures Reaches(s, end) && InRange(end, t) && end.pcs[t].Idle? && end.queues[t].log == s.queues[t].log + values
  {
    hide Reaches, Leads, Load, QueueOk, Written, Release, RoomFor;
    var stopped := Goto(s, t, StealReleasing(j, start, n));
    var loaded := Goto(stopped, t, StealReleaseSeen(j, start, n, Load(s.queues[j])));
    var released := Update(loaded, j, Release(s.queues[j]), t, StealPublishing(j, start, n));
    Stops(s, t, j, start, n);
    LoadsTail(stopped, t, j, start, n);
    Releases(loaded, t, j, start, n);
    assert released.queues[t] == s.queues[t];
    Publishes(released, t, j, start, n, values);
    hide Copies;
    end := Update(released, t, Publish(s.queues[t], values), t, Idle(Stole(n)));
    ReachesItself(end);
    ReachesBefore(released, Worker(t, Continue), end, end);
    ReachesBefore(loaded, Worker(t, Continue), released, end);
    ReachesBefore(stopped, Worker(t, Continue), loaded, end);
    ReachesBefore(s, Worker(t, Continue), stopped, end);
  }

  // ---------------------------------------------------------------- the overwritten claim

  /** What the slots hold after `v` is written over cursor `start`. */
  lemma FoundAfterWrite(q: Queue, data': seq<Value>, start: nat, n: nat, v: Value)
    requires |q.data| == q.Capacity() && data' == q.data[Spot(q.order, start) := v]
    requires 1 <= n <= q.Capacity() && start + n <= |q.log| && Intact(q.order, q.data, start, start + n, q.log)
    ensures Found(q.(data := data'), start, n) == q.log[start..start + n][0 := v]
  {
    var found, claimed := Found(q.(data := data'), start, n), q.log[start..start + n];
    forall k | 0 <= k < n ensures found[k] == claimed[0 := v][k] {
      if k > 0 { SpotsDistinct(q.order, start, start + k); }
      assert q.data[Spot(q.order, start + k)] == q.log[start + k];
      hide Spot;
    }
  }

  /** What the invariant says of a thief at work and of a refill that does not fit. */
  lemma ClaimFacts(s: State, i: nat, t: nat, start: nat, n: nat, done: nat)
    requires Inv(s) && InRange(s, i) && Refills(s, i) && !RefillFits(s, i, Continue)
    requires InRange(s, t) && s.pcs[t] == StealCopying(i, start, n, done)
    ensures var from, own := s.queues[i], s.queues[t];
            && QueueOk(from) && start == from.released && start + n <= |from.log|
            && done <= n && 1 <= n <= from.Capacity()
            && Intact(from.order, from.data, start, start + n, from.log)
            && |s.pcs[i].taken| <= from.Capacity()
            && from.pushed + |s.pcs[i].taken| == start + from.Capacity()
            && QueueOk(own) && RoomFor(own, n)
            && Written(own.order, own.data, own.pushed, from.log[start..start + done])
  {
    assert WorkerInv(s, i) && WorkerInv(s, t);
    hide Inv, Wrap, PackTail, Pow2, Spot;
  }

  /** The slot a refill writes, a lap ahead of cursor `x`, is that of `x`. */
  lemma WrittenSlot(q: Queue, k: nat, x: nat)
    requires QueueOk(q) && k <= q.Capacity() && q.pushed + k == x + q.Capacity()
    ensures q.SlotOf(WrappingAdd(q.head, Wrap(k))) == Spot(q.order, x)
  {
    CapacityBound(q.order);
    assert Wrap(k) == k && q.head == Wrap(q.pushed) && q.order <= 31;
    hide QueueOk, Queue.SlotOf, Spot, Wrap, WrappingAdd, Pow2;
    WrapAdd(q.pushed, k);
    SlotOfWrapped(q, q.pushed + k);
    SpotRepeats(q.order, x);
  }

  /** The state after a refill's write that does not fit, as the thief sees it. */
  lemma WriteOverClaim(s: State, i: nat, t: nat, start: nat, n: nat, done: nat)
    requires Inv(s) && InRange(s, i) && Refills(s, i) && !RefillFits(s, i, Continue)
    requires InRange(s, t) && s.pcs[t] == StealCopying(i, start, n, done)
    ensures 1 <= n && done <= n && start + n <= |s.queues[i].log|
    ensures var from, claimed, s' := s.queues[i], s.queues[i].log[start..start + n], FetchStep(s, i);
            && |s'.queues[i].data| == s'.queues[i].Capacity()
            && Copies(s', t, i, start, n, done, claimed[..done])
            && s'.queues[t] == s.queues[t]
            && Found(s'.queues[i], start, n) == claimed[0 := s.global[0]]
  {
    ClaimFacts(s, i, t, start, n, done);
    FetchCopyShape(s, i);
    hide Inv, WorkerInv, RefillFits;
    var from, pc, v := s.queues[i], s.pcs[i], s.global[0];
    WrittenSlot(from, |pc.taken|, start);
    hide Queue.SlotOf, Wrap, WrappingAdd, Pow2;
    FoundAfterWrite(from, from.data[Spot(from.order, start) := v], start, n, v);
    assert from.log[start..start + n][..done] == from.log[start..start + done];
    assert |from.data| == from.Capacity() && from.order <= 31;
    hide FetchStep, Spot, Found, QueueOk, Written, Intact;
  }

  /**
    A refill's write that does not fit lands on the oldest cursor the thief has claimed. Left
    alone, the thief publishes its claim with the new value in the first place if it had copied
    nothing yet, and its claim as it was if it had copied that slot.
   */
  lemma ThiefPublishes(s: State, i: nat, t: nat, start: nat, n: nat, done: nat) returns (end: State)
    requires Inv(s) && InRange(s, i) && Refills(s, i) && !RefillFits(s, i, Continue)
    requires InRange(s, t) && s.pcs[t] == StealCopying(i, start, n, done)
    ensures Reaches(FetchStep(s, i), end) && InRange(end, t) && end.pcs[t].Idle?
    ensures 1 <= n && start + n <= |s.queues[i].log|
    ensures var claimed, v := s.queues[i].log[start..start + n], s.global[0];
            && end.queues[t].log == s.queues[t].log + (if done == 0 then claimed[0 := v] else claimed)
            && (end.queues[t].log == s.queues[t].log + claimed <==> done > 0 || v == claimed[0])
  {
    WriteOverClaim(s, i, t, start, n, done);
    hide Inv, FetchStep, Copies, Reaches, Found, Refills, RefillFits;
    var s', claimed, v := FetchStep(s, i), s.queues[i].log[start..start + n], s.global[0];
    var copied, all := CopiesAll(s', t, i, start, n, done, claimed[..done]);
    end := PublishesAll(copied, t, i, start, n, all);
    ReachesJoin(s', copied, end);
    Overwritten(claimed, v, done, all);
    Appended(s.queues[t].log, all, claimed);
  }

  lemma Overwritten(claimed: seq<Value>, v: Value, done: nat, all: seq<Value>)
    requires 1 <= |claimed| && done <= |claimed| && all == claimed[..done] + claimed[0 := v][done..]
    ensures all == if done == 0 then claimed[0 := v] else claimed
    ensures all == claimed <==> done > 0 || v == claimed[0]
  {
    if done == 0 {
      assert claimed[0 := v][0] == v;
    } else {
      assert claimed[0 := v][done..] == claimed[done..];
    }
  }

  lemma Appended(log: seq<Value>, a: seq<Value>, b: seq<Value>)
    ensures log + a == log + b <==> a == b
  {
    if log + a == log + b {
      assert (log + a)[|log|..] == a && (log + b)[|log|..] == b;
    }
  }
}
