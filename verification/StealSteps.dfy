/** The invariant of the work-stealing system, step by step. */
module StealSteps {
  import opened Common
  import opened WordArithmetic
  import opened StealQueue
  import opened WorkStealing
  import opened StealInvariant

  /** The 32-bit arithmetic of the owner on a loaded tail word is exact, and its compare-exchange precise. */
  lemma OwnerArithmetic(seen: Seen, q: Queue)
    requires QueueOk(q) && OwnSeenOk(seen, q)
    ensures WrappingSub(q.head, UnpackTail(seen.word).0) == q.pushed - seen.released
    ensures WrappingSub(q.head, UnpackTail(seen.word).1) == q.pushed - seen.claimed
    ensures q.head == UnpackTail(seen.word).1 <==> q.pushed == seen.claimed
    ensures q.tail == seen.word ==> q.released == seen.released && q.claimed == seen.claimed
  {
    CapacityBound(q.order);
    PackUnpack(Wrap(seen.released), Wrap(seen.claimed), 0);
    WrappingSubExact(q.pushed, seen.released);
    WrappingSubExact(q.pushed, seen.claimed);
    if q.tail == seen.word {
      SameTailWord(seen.released, seen.claimed, q.released, q.claimed);
    }
  }

  lemma LoadIsSeen(q: Queue)
    requires QueueOk(q)
    ensures OwnSeenOk(Load(q), q) && SeenOk(Load(q), q)
  {
  }

  lemma ClaimsAreLater(q: Queue, n: nat)
    requires QueueOk(q) && n < U32_RANGE
    ensures Later(q, OwnerClaim(q, n))
    ensures q.released < q.claimed ==> OwnerClaim(q, n).released == q.released
    ensures OnlyClaims(q, ThiefClaim(q, n)) && OnlyClaims(q, Release(q))
  {
    hide OwnerClaimWord, ThiefClaimWord, ReleaseWord;
  }

  /** Moving between points of an operation without touching a queue. */
  lemma GotoKeeps(s: State, i: nat, pc: Pc)
    requires Inv(s) && InRange(s, i)
    requires !pc.HoldsLock() && !s.pcs[i].HoldsLock()
    requires pc.HasVictim() ==> pc.victim < |s.queues| && pc.victim != i
    requires pc.Stealing() ==> s.pcs[i].Stealing() && pc.victim == s.pcs[i].victim
    requires WorkerOk(pc, s.queues[i], Source(Goto(s, i, pc), i), Free(s))
    ensures Inv(Goto(s, i, pc))
  {
    assert WorkerInv(s, i);
    hide WorkerOk, QueueOk;
    var s' := Goto(s, i, pc);
    assert s'.queues == s.queues[i := s.queues[i]];
    SameIsLater(s.queues[i]);
    OwnStepKeeps(s, s', i, s.queues[i], pc);
  }

  lemma StartKeeps(s: State, i: nat, a: Action)
    requires Inv(s) && CanStep(s, i, a) && !a.Continue?
    ensures Inv(Step(s, i, a))
  {
    assert WorkerInv(s, i);
    var q := s.queues[i];
    LoadIsSeen(q);
    match a {
      case StartPush(v) => GotoKeeps(s, i, Pushing(v, Load(q), false));
      case StartPop => GotoKeeps(s, i, Popping(Load(q)));
      case StartFetch => GotoKeeps(s, i, Fetching(Load(q)));
      case StartSteal(victim, divider) =>
        OwnerArithmetic(Load(q), q);
        var used := q.pushed - q.released;
        if used < q.Capacity() { GotoKeeps(s, i, StealReady(victim, q.Capacity() - used, divider)); }
        else { GotoKeeps(s, i, Idle(StoleNone)); }
    }
  }

  // ---------------------------------------------------------------- push

  lemma WriteAtHead(q: Queue, seen: Seen, v: Value)
    requires QueueOk(q) && OwnSeenOk(seen, q) && PushFits(q, seen)
    ensures q.SlotOf(q.head) < |q.data|
    ensures var q' := WriteSlot(q, q.head, v);
            QueueOk(q') && Later(q, q') && q'.released == q.released && WorkerOk(PushWritten(v), q', q', 0)
  {
    OwnerArithmetic(seen, q);
    HeadUnmoved(q.head);
    assert q.pushed < q.released + q.Capacity();
    hide Wrap, PackTail, UnpackTail, WrappingSub, WrappingAdd, And, Spot, Pow2, Intact;
    NothingWritten(q);
    WriteSlotKeeps(q, [], v);
    assert [] + [v] == [v];
  }

  lemma HeadUnmoved(head: u32)
    ensures WrappingAdd(head, 0) == head
  {
  }

  lemma PushWriteKeeps(s: State, i: nat)
    requires Inv(s) && InRange(s, i) && s.pcs[i].Pushing? && PushFits(s.queues[i], s.pcs[i].seen)
    ensures Inv(PushStep(s, i))
  {
    assert WorkerInv(s, i);
    var q, v := s.queues[i], s.pcs[i].v;
    WriteAtHead(q, s.pcs[i].seen, v);
    hide QueueOk, Written, Later, Queue.SlotOf, RoomFor, OwnSeenOk, PushFits;
    var s' := PushStep(s, i);
    OwnStepKeeps(s, s', i, WriteSlot(q, q.head, v), PushWritten(v));
  }

  lemma PushRefusedKeeps(s: State, i: nat)
    requires Inv(s) && CanStep(s, i, Continue) && s.pcs[i].Pushing? && !PushFits(s.queues[i], s.pcs[i].seen)
    ensures Inv(PushStep(s, i))
  {
    assert WorkerInv(s, i);
    var q, pc := s.queues[i], s.pcs[i];
    hide QueueOk, Later, PushFits;
    if pc.retry {
      GotoKeeps(s, i, Idle(PushRefused(pc.v)));
    } else {
      var s' := PushStep(s, i);
      var pc' := OverflowLocked(pc.v, Free(s));
      assert s'.queues == s.queues[i := q] && s'.pcs == s.pcs[i := pc'];
      SameIsLater(q);
      OwnStepKeeps(s, s', i, q, pc');
    }
  }

  lemma PublishedIsLater(q: Queue, values: seq<Value>)
    requires |values| < U32_RANGE
    ensures Later(q, Publish(q, values)) && Publish(q, values).released == q.released
  {
  }

  lemma PushPublishKeeps(s: State, i: nat)
    requires Inv(s) && InRange(s, i) && s.pcs[i].PushWritten?
    ensures Inv(PushStep(s, i))
  {
    assert WorkerInv(s, i);
    var q, v := s.queues[i], s.pcs[i].v;
    PublishKeeps(q, [v]);
    PublishedIsLater(q, [v]);
    hide QueueOk, Written, Later, RoomFor;
    var s' := PushStep(s, i);
    OwnStepKeeps(s, s', i, Publish(q, [v]), Idle(Pushed));
  }

  // ---------------------------------------------------------------- overflow into the global queue

  lemma OverflowLoadKeeps(s: State, i: nat, v: Value, free: nat)
    requires Inv(s) && InRange(s, i) && s.pcs[i].HoldsLock() && free == Free(s)
    ensures Inv(Goto(s, i, OverflowSeen(v, free, Load(s.queues[i]))))
  {
    assert WorkerInv(s, i);
    var q := s.queues[i];
    LoadIsSeen(q);
    var pc' := OverflowSeen(v, free, Load(q));
    var s' := Goto(s, i, pc');
    hide QueueOk, Later, OwnSeenOk, SeenOk;
    SameIsLater(q);
    assert s'.queues == s.queues[i := q];
    OwnStepKeeps(s, s', i, q, pc');
  }

  /** The part of a claim about what the owner will read. */
  lemma ClaimIsIntact(q: Queue, n: nat)
    requires QueueOk(q) && q.claimed + n <= q.pushed
    ensures Intact(q.order, q.data, q.claimed, q.claimed + n, q.log)
    ensures q.pushed <= q.claimed + q.Capacity()
  {
  }

  lemma OverflowClaimKeeps(s: State, i: nat)
    requires Inv(s) && InRange(s, i) && s.pcs[i].OverflowSeen? && s.queues[i].tail == s.pcs[i].seen.word
    ensures Inv(OverflowStep(s, i))
  {
    assert WorkerInv(s, i);
    var q, pc := s.queues[i], s.pcs[i];
    OwnerArithmetic(pc.seen, q);
    var n := Min(pc.free, (q.pushed - q.claimed) / 2);
    OwnerClaimKeeps(q, n);
    ClaimsAreLater(q, n);
    ClaimIsIntact(q, n);
    var pc' := if n == 0 then Idle(PushRefused(pc.v)) else OverflowCopying(pc.v, q.claimed, n, 0);
    OverflowClaimShape(s, i, n);
    hide QueueOk, Intact, Later, OwnSeenOk, OwnerClaimWord, Pow2, OverflowStep, WrappingSub, UnpackTail;
    OwnStepKeeps(s, OverflowStep(s, i), i, OwnerClaim(q, n), pc');
  }

  lemma OverflowClaimShape(s: State, i: nat, n: nat)
    requires InRange(s, i) && s.pcs[i].OverflowSeen? && s.queues[i].tail == s.pcs[i].seen.word
    requires n == Min(s.pcs[i].free, WrappingSub(s.queues[i].head, UnpackTail(s.pcs[i].seen.word).1) / 2)
    requires n < U32_RANGE
    ensures var q, pc := s.queues[i], s.pcs[i];
            OverflowStep(s, i) ==
              if n == 0 then Update(s, i, OwnerClaim(q, n), i, Idle(PushRefused(pc.v))).(lock := None)
              else Update(s, i, OwnerClaim(q, n), i, OverflowCopying(pc.v, q.claimed, n, 0))
  {
    hide OwnerClaim, WrappingSub, UnpackTail, Queue.SlotOf;
  }

  lemma OverflowCopyKeeps(s: State, i: nat)
    requires Inv(s) && InRange(s, i) && s.pcs[i].OverflowCopying? && s.pcs[i].done < s.pcs[i].n
    ensures Inv(OverflowStep(s, i))
  {
    assert WorkerInv(s, i);
    var q, pc := s.queues[i], s.pcs[i];
    SlotOfWrapped(q, pc.start + pc.done);
    IntactTail(q.order, q.data, pc.start + pc.done, pc.start + pc.n, q.log);
    var s' := OverflowStep(s, i);
    var pc' := OverflowCopying(pc.v, pc.start, pc.n, pc.done + 1);
    OverflowCopyShape(s, i);
    hide QueueOk, Later, Pow2, And, Spot, Intact, Queue.SlotOf, OverflowStep;
    SameIsLater(q);
    OwnStepKeeps(s, s', i, q, pc');
  }

  lemma OverflowCopyShape(s: State, i: nat)
    requires InRange(s, i) && s.pcs[i].OverflowCopying? && s.pcs[i].done < s.pcs[i].n && Free(s) > 0
    requires s.queues[i].SlotOf(Wrap(s.pcs[i].start + s.pcs[i].done)) < |s.queues[i].data|
    ensures var pc, s' := s.pcs[i], OverflowStep(s, i);
            && s'.queues == s.queues[i := s.queues[i]]
            && s'.pcs == s.pcs[i := OverflowCopying(pc.v, pc.start, pc.n, pc.done + 1)]
            && |s'.global| == |s.global| + 1 && s'.globalCapacity == s.globalCapacity
            && s'.lock == s.lock && s'.overflowFailed == s.overflowFailed
  {
    hide Queue.SlotOf, Wrap;
  }

  lemma IntactTail(order: nat, data: seq<Value>, from: nat, to: nat, log: seq<Value>)
    requires Intact(order, data, from, to, log) && from < to
    ensures Intact(order, data, from + 1, to, log)
    ensures Spot(order, from) < |data| && from < |log| && data[Spot(order, from)] == log[from]
  {
  }

  lemma OverflowDoneKeeps(s: State, i: nat)
    requires Inv(s) && InRange(s, i) && s.pcs[i].OverflowCopying? && s.pcs[i].done >= s.pcs[i].n
    ensures Inv(OverflowStep(s, i))
  {
    assert WorkerInv(s, i);
    var q, pc := s.queues[i], s.pcs[i];
    hide QueueOk, Later, OwnSeenOk, SeenOk, Intact, Queue.SlotOf, Pow2;
    var s' := OverflowStep(s, i);
    var pc' := PushAgain(pc.v);
    assert s'.queues == s.queues[i := q] && s'.pcs == s.pcs[i := pc'];
    SameIsLater(q);
    OwnStepKeeps(s, s', i, q, pc');
  }

  lemma PushAgainKeeps(s: State, i: nat)
    requires Inv(s) && InRange(s, i) && s.pcs[i].PushAgain?
    ensures Inv(PushStep(s, i))
  {
    assert WorkerInv(s, i);
    LoadIsSeen(s.queues[i]);
    hide QueueOk, Later, OwnSeenOk;
    GotoKeeps(s, i, Pushing(s.pcs[i].v, Load(s.queues[i]), true));
  }

  // ---------------------------------------------------------------- pop

  lemma PopLookKeeps(s: State, i: nat)
    requires Inv(s) && InRange(s, i) && s.pcs[i].Popping? && s.queues[i].tail != s.pcs[i].seen.word
    ensures Inv(PopStep(s, i))
  {
    assert WorkerInv(s, i);
    var q, pc := s.queues[i], s.pcs[i];
    LoadIsSeen(q);
    hide QueueOk, UnpackTail, OwnSeenOk;
    if q.head == UnpackTail(pc.seen.word).1 {
      GotoKeeps(s, i, Idle(PopNone));
    } else {
      GotoKeeps(s, i, Popping(Load(q)));
    }
  }

  lemma PopClaimKeeps(s: State, i: nat)
    requires Inv(s) && InRange(s, i) && s.pcs[i].Popping? && s.queues[i].tail == s.pcs[i].seen.word
    ensures Inv(PopStep(s, i))
  {
    assert WorkerInv(s, i);
    var q, pc := s.queues[i], s.pcs[i];
    PopClaimFacts(q, pc.seen);
    hide QueueOk, UnpackTail, OwnSeenOk, Later, Intact, OwnerClaim, Pow2;
    if q.head == UnpackTail(pc.seen.word).1 {
      GotoKeeps(s, i, Idle(PopNone));
    } else {
      OwnStepKeeps(s, PopStep(s, i), i, OwnerClaim(q, 1), PopClaimed(q.claimed));
    }
  }

  lemma PopClaimFacts(q: Queue, seen: Seen)
    requires QueueOk(q) && OwnSeenOk(seen, q) && q.tail == seen.word
    ensures q.head != UnpackTail(seen.word).1 ==>
              var q' := OwnerClaim(q, 1);
              && QueueOk(q') && Later(q, q') && WorkerOk(PopClaimed(q.claimed), q', q', 0)
              && (q.released < q.claimed ==> q'.released == q.released)
  {
    OwnerArithmetic(seen, q);
    if q.pushed != seen.claimed {
      OwnerClaimKeeps(q, 1);
      ClaimsAreLater(q, 1);
      ClaimIsIntact(q, 1);
    }
  }

  lemma PopReadKeeps(s: State, i: nat)
    requires Inv(s) && InRange(s, i) && s.pcs[i].PopClaimed?
    ensures Inv(PopStep(s, i))
  {
    assert WorkerInv(s, i);
    var q, pc := s.queues[i], s.pcs[i];
    SlotOfWrapped(q, pc.start);
    hide QueueOk, Later, Intact, Queue.SlotOf, Pow2;
    var s' := PopStep(s, i);
    assert s'.queues == s.queues[i := q];
    SameIsLater(q);
    OwnStepKeeps(s, s', i, q, s'.pcs[i]);
  }

  // ---------------------------------------------------------------- steal

  /** A thief's claim after a successful compare-exchange. */
  lemma ThiefArithmetic(pc: Pc, own: Queue, from: Queue, free: int)
    requires QueueOk(from) && pc.StealCounted? && WorkerOk(pc, own, from, free)
    requires from.claimed - pc.seen.claimed < U32_RANGE
    requires from.tail == pc.seen.word
    ensures from.claimed == pc.seen.claimed && from.released == from.claimed
    ensures 1 <= pc.n && from.claimed + pc.n <= from.pushed && pc.n <= pc.room
  {
    CapacityBound(from.order);
    var seen := pc.seen;
    assert from.released - seen.released < U32_RANGE;
    SameTailWord(seen.released, seen.claimed, from.released, from.claimed);
    WrappingSubExact(pc.head, seen.claimed);
    hide Wrap, PackTail, WrappingSub, Pow2;
    var count := pc.head - seen.claimed;
    assert count >= 1;
    ShareAtMost(count, pc.divider);
  }

  lemma ShareAtMost(count: nat, divider: nat)
    requires divider >= 2
    ensures 0 <= count / divider <= count
  {
  }

  lemma StealLookKeeps(s: State, i: nat)
    requires Inv(s) && InRange(s, i)
    requires s.pcs[i].StealReady? || s.pcs[i].StealSeen? || s.pcs[i].StealReleasing?
    ensures Inv(StealStep(s, i))
  {
    assert WorkerInv(s, i) && WorkerInv(s, s.pcs[i].victim);
    var from, pc, j := Source(s, i), s.pcs[i], s.pcs[i].victim;
    LoadIsSeen(from);
    hide Intact, Written, Wrap, PackTail;
    if pc.StealReady? {
      GotoKeeps(s, i, StealSeen(j, pc.room, pc.divider, Load(from)));
    } else if pc.StealReleasing? {
      GotoKeeps(s, i, StealReleaseSeen(j, pc.start, pc.n, Load(from)));
    } else {
      var (steal, realTail) := UnpackTail(pc.seen.word);
      SeenWords(pc.seen, from);
      if from.head == realTail || steal != realTail {
        GotoKeeps(s, i, Idle(StoleNone));
      } else {
        GotoKeeps(s, i, StealCounted(j, pc.room, pc.divider, pc.seen, from.pushed,
                                     StealCount(from.head, realTail, pc.room, pc.divider)));
      }
    }
  }

  lemma SeenWords(seen: Seen, q: Queue)
    requires QueueOk(q) && SeenOk(seen, q)
    ensures UnpackTail(seen.word) == (Wrap(seen.released), Wrap(seen.claimed))
    ensures Wrap(seen.released) == Wrap(seen.claimed) <==> seen.released == seen.claimed
    ensures seen.claimed <= q.pushed
  {
    CapacityBound(q.order);
    PackUnpack(Wrap(seen.released), Wrap(seen.claimed), 0);
    WrappingSubExact(seen.claimed, seen.released);
  }

  lemma StealClaimKeeps(s: State, i: nat)
    requires Inv(s) && CanStep(s, i, Continue) && s.pcs[i].StealCounted?
    ensures Inv(StealStep(s, i))
  {
    assert WorkerInv(s, i) && WorkerInv(s, s.pcs[i].victim);
    var own, from, pc, j := s.queues[i], Source(s, i), s.pcs[i], s.pcs[i].victim;
    if from.tail != pc.seen.word {
      LoadIsSeen(from);
      NoHugeSteal(pc, own, from, Free(s));
      GotoKeeps(s, i, StealSeen(j, pc.room, pc.divider, Load(from)));
    } else {
      ThiefArithmetic(pc, own, from, Free(s));
      ThiefClaimKeeps(from, pc.n);
      ClaimsAreLater(from, pc.n);
      NobodyStealing(s, i, j);
      NothingCopied(own, from, from.claimed);
      var q', pc' := ThiefClaim(from, pc.n), StealCopying(j, from.claimed, pc.n, 0);
      hide QueueOk, Later, SeenOk, Pow2, ThiefClaimWord, StealCount, Copied, WorkerOk;
      ClaimedByThief(pc, own, from, Free(s));
      VictimStepKeeps(s, StealStep(s, i), i, j, q', pc');
    }
  }

  lemma NoHugeSteal(pc: Pc, own: Queue, from: Queue, free: int)
    requires QueueOk(own) && pc.StealCounted? && WorkerOk(pc, own, from, free)
    ensures pc.n < U32_RANGE
  {
    CapacityBound(own.order);
  }

  lemma NothingCopied(own: Queue, from: Queue, start: nat)
    requires |own.data| == own.Capacity() && start <= |from.log|
    ensures Copied(own, from, start, 0)
  {
  }

  lemma ClaimedByThief(pc: Pc, own: Queue, from: Queue, free: int)
    requires QueueOk(own) && QueueOk(from) && pc.StealCounted? && WorkerOk(pc, own, from, free)
    requires from.claimed == from.released && 1 <= pc.n <= pc.room && pc.n < U32_RANGE
    ensures WorkerOk(StealCopying(pc.victim, from.claimed, pc.n, 0), own, ThiefClaim(from, pc.n), free)
  {
    hide StealCount, SeenOk;
  }

  /** Nobody else holds a claim on a queue whose claims are all released. */
  lemma NobodyStealing(s: State, i: nat, j: nat)
    requires Inv(s) && i < |s.queues| && j < |s.queues| && s.queues[j].released == s.queues[j].claimed
    ensures forall k :: 0 <= k < |s.pcs| && s.pcs[k].Stealing() ==> s.pcs[k].victim != j
  {
    forall k | 0 <= k < |s.pcs| && s.pcs[k].Stealing() ensures s.pcs[k].victim != j {
      assert WorkerInv(s, k);
    }
  }

  lemma StealCopyKeeps(s: State, i: nat)
    requires Inv(s) && InRange(s, i) && s.pcs[i].StealCopying? && s.pcs[i].done < s.pcs[i].n
    ensures Inv(StealStep(s, i))
  {
    assert WorkerInv(s, i) && WorkerInv(s, s.pcs[i].victim);
    var own, from, pc, j := s.queues[i], Source(s, i), s.pcs[i], s.pcs[i].victim;
    CopyOne(own, from, pc);
    var v := from.log[pc.start + pc.done];
    var q' := WriteSlot(own, WrappingAdd(own.head, Wrap(pc.done)), v);
    var pc' := StealCopying(j, pc.start, pc.n, pc.done + 1);
    StealCopyShape(s, i, v);
    hide QueueOk, Later, Copied, Queue.SlotOf, Pow2, Wrap, WrappingAdd, StealStep, WriteSlot;
    OwnStepKeeps(s, StealStep(s, i), i, q', pc');
  }

  lemma StealCopyShape(s: State, i: nat, v: Value)
    requires InRange(s, i) && s.pcs[i].StealCopying? && s.pcs[i].done < s.pcs[i].n
    requires var from, own, pc := s.queues[s.pcs[i].victim], s.queues[i], s.pcs[i];
             && own.SlotOf(WrappingAdd(own.head, Wrap(pc.done))) < |own.data|
             && from.SlotOf(Wrap(pc.start + pc.done)) < |from.data|
             && from.data[from.SlotOf(Wrap(pc.start + pc.done))] == v
    ensures var own, pc := s.queues[i], s.pcs[i];
            StealStep(s, i) == Update(s, i, WriteSlot(own, WrappingAdd(own.head, Wrap(pc.done)), v), i,
                                      StealCopying(pc.victim, pc.start, pc.n, pc.done + 1))
  {
    hide Queue.SlotOf, Wrap, WrappingAdd;
  }

  /** The value copied is the one published at the claimed cursor, and the slot written is free. */
  lemma CopyOne(own: Queue, from: Queue, pc: Pc)
    requires QueueOk(own) && QueueOk(from) && pc.StealCopying? && pc.done < pc.n && WorkerOk(pc, own, from, 0)
    ensures var source, target := from.SlotOf(Wrap(pc.start + pc.done)), own.SlotOf(WrappingAdd(own.head, Wrap(pc.done)));
            && source < |from.data| && target < |own.data| && pc.start + pc.done < |from.log|
            && from.data[source] == from.log[pc.start + pc.done]
    ensures var q' := WriteSlot(own, WrappingAdd(own.head, Wrap(pc.done)), from.log[pc.start + pc.done]);
            && QueueOk(q') && Later(own, q') && q'.released == own.released && q'.pushed == own.pushed
            && RoomFor(q', pc.n) && Copied(q', from, pc.start, pc.done + 1)
  {
    hide Wrap, PackTail, WrappingAdd, And, Spot, Pow2, Queue.SlotOf, Written, Intact;
    ReadClaimed(from, pc.start + pc.done);
    SmallWrap(own, pc.n, pc.done);
    var x := pc.start + pc.done;
    var copied, v := from.log[pc.start..x], from.log[x];
    assert from.log[pc.start..x + 1] == copied + [v];
    WriteSlotKeeps(own, copied, v);
  }

  lemma SmallWrap(own: Queue, n: nat, done: nat)
    requires QueueOk(own) && RoomFor(own, n) && done < n
    ensures Wrap(done) == done
  {
    CapacityBound(own.order);
  }

  lemma ReadClaimed(q: Queue, x: nat)
    requires QueueOk(q) && q.released <= x < q.pushed
    ensures q.SlotOf(Wrap(x)) < |q.data| && x < |q.log| && q.data[q.SlotOf(Wrap(x))] == q.log[x]
  {
    SlotOfWrapped(q, x);
  }

  lemma StealCopiedKeeps(s: State, i: nat)
    requires Inv(s) && InRange(s, i) && s.pcs[i].StealCopying? && s.pcs[i].done >= s.pcs[i].n
    ensures Inv(StealStep(s, i))
  {
    assert WorkerInv(s, i);
    var pc := s.pcs[i];
    hide QueueOk, Copied, Queue.SlotOf, Wrap, WrappingAdd;
    GotoKeeps(s, i, StealReleasing(pc.victim, pc.start, pc.n));
  }

  lemma StealReleaseKeeps(s: State, i: nat)
    requires Inv(s) && InRange(s, i) && s.pcs[i].StealReleaseSeen?
    ensures Inv(StealStep(s, i))
  {
    assert WorkerInv(s, i) && WorkerInv(s, s.pcs[i].victim);
    var own, from, pc, j := s.queues[i], Source(s, i), s.pcs[i], s.pcs[i].victim;
    if from.tail != pc.seen.word {
      LoadIsSeen(from);
      hide Copied;
      GotoKeeps(s, i, StealReleaseSeen(j, pc.start, pc.n, Load(from)));
    } else {
      ReleaseKeeps(from);
      ClaimsAreLater(from, 0);
      var pc' := StealPublishing(j, pc.start, pc.n);
      SameIsLater(own);
      CopiedStays(own, own, from, Release(from), pc.start, pc.n);
      hide QueueOk, Later, SeenOk, Pow2, ReleaseWord, Copied;
      VictimStepKeeps(s, StealStep(s, i), i, j, Release(from), pc');
    }
  }

  /** What a thief publishes is what it claimed. */
  lemma ReadIsCopied(own: Queue, from: Queue, start: nat, n: nat)
    requires Copied(own, from, start, n)
    ensures ReadSlots(own, n) == from.log[start..start + n]
  {
    var values := from.log[start..start + n];
    forall t | 0 <= t < n ensures ReadSlots(own, n)[t] == values[t] {
      assert own.data[Spot(own.order, own.pushed + t)] == values[t];
    }
  }

  lemma StealPublishKeeps(s: State, i: nat)
    requires Inv(s) && InRange(s, i) && s.pcs[i].StealPublishing?
    ensures Inv(StealStep(s, i))
  {
    assert WorkerInv(s, i);
    var own, from, pc := s.queues[i], Source(s, i), s.pcs[i];
    ReadIsCopied(own, from, pc.start, pc.n);
    var values := ReadSlots(own, pc.n);
    PublishKeeps(own, values);
    PublishedIsLater(own, values);
    hide QueueOk, Later, Copied, ReadSlots, Publish;
    OwnStepKeeps(s, StealStep(s, i), i, Publish(own, values), Idle(Stole(pc.n)));
  }

  // ---------------------------------------------------------------- refill from the global queue

  lemma FetchSizeKeeps(s: State, i: nat)
    requires Inv(s) && CanStep(s, i, Continue) && (s.pcs[i].Fetching? || s.pcs[i].FetchSized?)
    ensures Inv(FetchStep(s, i))
  {
    assert WorkerInv(s, i);
    var q, pc := s.queues[i], s.pcs[i];
    if pc.Fetching? {
      OwnerArithmetic(pc.seen, q);
      GotoKeeps(s, i, FetchSized(FetchPossible(s, q, pc.seen)));
    } else {
      hide QueueOk, Later, Pow2;
      var s' := FetchStep(s, i);
      NothingWritten(q);
      assert s'.queues == s.queues[i := q];
      SameIsLater(q);
      OwnStepKeeps(s, s', i, q, FetchCopying(pc.possible, []));
    }
  }

  lemma NothingWritten(q: Queue)
    requires QueueOk(q)
    ensures Written(q.order, q.data, q.pushed, [])
  {
  }

  lemma FetchCopyKeeps(s: State, i: nat)
    requires Inv(s) && InRange(s, i) && Refills(s, i) && RefillFits(s, i, Continue)
    ensures Inv(FetchStep(s, i))
  {
    assert WorkerInv(s, i);
    var q, pc, v := s.queues[i], s.pcs[i], s.global[0];
    FetchOne(q, pc, v);
    var q' := WriteSlot(q, WrappingAdd(q.head, Wrap(|pc.taken|)), v);
    hide QueueOk, Later, Written, Queue.SlotOf, Pow2, Wrap, WrappingAdd;
    OwnStepKeeps(s, FetchStep(s, i), i, q', FetchCopying(pc.possible, pc.taken + [v]));
  }

  lemma FetchOne(q: Queue, pc: Pc, v: Value)
    requires QueueOk(q) && pc.FetchCopying? && |pc.taken| < pc.possible && WorkerOk(pc, q, q, 0)
    requires RoomFor(q, |pc.taken| + 1)
    ensures q.SlotOf(WrappingAdd(q.head, Wrap(|pc.taken|))) < |q.data|
    ensures var q' := WriteSlot(q, WrappingAdd(q.head, Wrap(|pc.taken|)), v);
            && QueueOk(q') && Later(q, q') && q'.released == q.released
            && WorkerOk(FetchCopying(pc.possible, pc.taken + [v]), q', q', 0)
  {
    hide Wrap, PackTail, WrappingAdd, And, Spot, Pow2, Intact, Written, Queue.SlotOf;
    SmallWrap(q, |pc.taken| + 1, |pc.taken|);
    WriteSlotKeeps(q, pc.taken, v);
  }

  lemma FetchPublishKeeps(s: State, i: nat)
    requires Inv(s) && InRange(s, i) && s.pcs[i].FetchCopying? && (|s.pcs[i].taken| >= s.pcs[i].possible || s.global == [])
    ensures Inv(FetchStep(s, i))
  {
    assert WorkerInv(s, i);
    var q, pc := s.queues[i], s.pcs[i];
    PublishKeeps(q, pc.taken);
    PublishedIsLater(q, pc.taken);
    hide QueueOk, Later, Written, Publish;
    OwnStepKeeps(s, FetchStep(s, i), i, Publish(q, pc.taken), Idle(Fetched(|pc.taken|)));
  }

  // ---------------------------------------------------------------- every step

  /** Every step of every worker keeps the invariant. */
  lemma StepKeepsInv(s: State, i: nat, a: Action)
    requires Inv(s) && CanStep(s, i, a) && RefillFits(s, i, a)
    ensures Inv(Step(s, i, a))
  {
    var pc := s.pcs[i];
    hide Inv;
    if !a.Continue? { StartKeeps(s, i, a); }
    else if pc.Pushing? {
      if PushFits(s.queues[i], pc.seen) { PushWriteKeeps(s, i); } else { PushRefusedKeeps(s, i); }
    }
    else if pc.PushAgain? { PushAgainKeeps(s, i); }
    else if pc.PushWritten? { PushPublishKeeps(s, i); }
    else if pc.OverflowLocked? { OverflowLockedKeeps(s, i); }
    else if pc.OverflowSeen? { OverflowSeenKeeps(s, i); }
    else if pc.OverflowCopying? {
      if pc.done < pc.n { OverflowCopyKeeps(s, i); } else { OverflowDoneKeeps(s, i); }
    }
    else if pc.Popping? {
      if s.queues[i].tail != pc.seen.word { PopLookKeeps(s, i); } else { PopClaimKeeps(s, i); }
    }
    else if pc.PopClaimed? { PopReadKeeps(s, i); }
    else if pc.StealReady? || pc.StealSeen? || pc.StealReleasing? { StealLookKeeps(s, i); }
    else if pc.StealCounted? { StealClaimKeeps(s, i); }
    else if pc.StealCopying? {
      if pc.done < pc.n { StealCopyKeeps(s, i); } else { StealCopiedKeeps(s, i); }
    }
    else if pc.StealReleaseSeen? { StealReleaseKeeps(s, i); }
    else if pc.StealPublishing? { StealPublishKeeps(s, i); }
    else if pc.Fetching? || pc.FetchSized? { FetchSizeKeeps(s, i); }
    else {
      if |pc.taken| < pc.possible && s.global != [] { FetchCopyKeeps(s, i); } else { FetchPublishKeeps(s, i); }
    }
  }

  lemma OverflowLockedKeeps(s: State, i: nat)
    requires Inv(s) && InRange(s, i) && s.pcs[i].OverflowLocked?
    ensures Inv(OverflowStep(s, i))
  {
    assert WorkerInv(s, i);
    OverflowLoadKeeps(s, i, s.pcs[i].v, s.pcs[i].free);
  }

  lemma OverflowSeenKeeps(s: State, i: nat)
    requires Inv(s) && InRange(s, i) && s.pcs[i].OverflowSeen?
    ensures Inv(OverflowStep(s, i))
  {
    assert WorkerInv(s, i);
    if s.queues[i].tail != s.pcs[i].seen.word {
      OverflowLoadKeeps(s, i, s.pcs[i].v, s.pcs[i].free);
    } else {
      OverflowClaimKeeps(s, i);
    }
  }
}
