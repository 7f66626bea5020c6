/** What every step of the work-stealing system keeps. */
module StealInvariant {
  import opened Common
  import opened WordArithmetic
  import opened StealQueue
  import opened WorkStealing

  /** A loaded tail word: older than the queue's, and not torn. */
  ghost predicate SeenOk(seen: Seen, q: Queue) {
    && seen.word == PackTail(Wrap(seen.released), Wrap(seen.claimed))
    && seen.released <= seen.claimed <= seen.released + q.Capacity()
    && seen.released <= q.released && seen.claimed <= q.claimed
  }

  /** A tail word loaded by the owner since it last moved its head. */
  ghost predicate OwnSeenOk(seen: Seen, q: Queue) {
    SeenOk(seen, q) && q.pushed <= seen.released + q.Capacity()
  }

  /** `n` slots beyond the head are free. */
  ghost predicate RoomFor(q: Queue, n: nat) {
    q.pushed + n <= q.released + q.Capacity()
  }

  /** `n` values from `start` on are claimed on `from` and not released. */
  ghost predicate HeldClaim(from: Queue, start: nat, n: nat) {
    n >= 1 && start == from.released && start + n <= from.claimed
  }

  /** The first `done` slots beyond the head are copies of what was claimed. */
  ghost predicate Copied(own: Queue, from: Queue, start: nat, done: nat) {
    start + done <= |from.log| && Written(own.order, own.data, own.pushed, from.log[start..start + done])
  }

  /** What a worker may rely on at each point; `own` is its queue, `from` its victim's, `free` the global space. */
  ghost predicate WorkerOk(pc: Pc, own: Queue, from: Queue, free: int) {
    match pc
    case Idle(_) => true
    case Pushing(_, seen, _) => OwnSeenOk(seen, own)
    case PushAgain(_) => true
    case PushWritten(v) => RoomFor(own, 1) && Written(own.order, own.data, own.pushed, [v])
    case OverflowLocked(_, f) => f == free
    case OverflowSeen(_, f, seen) => f == free && OwnSeenOk(seen, own)
    case OverflowCopying(_, start, n, done) =>
      && done <= n <= done + free
      && start + n <= own.claimed && own.pushed <= start + own.Capacity()
      && Intact(own.order, own.data, start + done, start + n, own.log)
    case Popping(seen) => OwnSeenOk(seen, own)
    case PopClaimed(start) =>
      && start < own.claimed && own.pushed <= start + own.Capacity()
      && Intact(own.order, own.data, start, start + 1, own.log)
    case StealReady(_, room, divider) => room >= 1 && divider >= 2 && RoomFor(own, room)
    case StealSeen(_, room, divider, seen) => room >= 1 && divider >= 2 && RoomFor(own, room) && SeenOk(seen, from)
    case StealCounted(_, room, divider, seen, head, n) =>
      && room >= 1 && divider >= 2 && RoomFor(own, room) && SeenOk(seen, from)
      && seen.claimed <= head <= from.pushed
      && seen.claimed == seen.released
      && Wrap(head) != Wrap(seen.claimed)
      && n == StealCount(Wrap(head), Wrap(seen.claimed), room, divider)
    case StealCopying(_, start, n, done) =>
      done <= n && RoomFor(own, n) && HeldClaim(from, start, n) && Copied(own, from, start, done)
    case StealReleasing(_, start, n) =>
      RoomFor(own, n) && HeldClaim(from, start, n) && Copied(own, from, start, n)
    case StealReleaseSeen(_, start, n, seen) =>
      && RoomFor(own, n) && HeldClaim(from, start, n) && Copied(own, from, start, n)
      && SeenOk(seen, from) && seen.released == start
    case StealPublishing(_, start, n) =>
      n >= 1 && RoomFor(own, n) && start + n <= from.claimed && Copied(own, from, start, n)
    case Fetching(seen) => OwnSeenOk(seen, own)
    case FetchSized(possible) => own.pushed + possible <= own.claimed + own.Capacity()
    case FetchCopying(possible, taken) =>
      && own.pushed + possible <= own.claimed + own.Capacity()
      && |taken| <= possible && RoomFor(own, |taken|) && Written(own.order, own.data, own.pushed, taken)
  }

  /** The queue a worker steals from, its own if it is not stealing. */
  function Source(s: State, i: nat): Queue
    requires InRange(s, i)
  {
    if s.pcs[i].HasVictim() then s.queues[s.pcs[i].victim] else s.queues[i]
  }

  function Free(s: State): int { s.globalCapacity - |s.global| }

  /** No two workers hold a claim on the same victim. */
  ghost predicate Exclusive(pcs: seq<Pc>) {
    forall i, k :: 0 <= i < k < |pcs| && pcs[i].Stealing() && pcs[k].Stealing() ==> pcs[i].victim != pcs[k].victim
  }

  ghost predicate WorkerInv(s: State, i: nat) {
    && InRange(s, i)
    && QueueOk(s.queues[i])
    && (s.pcs[i].HoldsLock() <==> s.lock == Some(i))
    && WorkerOk(s.pcs[i], s.queues[i], Source(s, i), Free(s))
  }

  ghost predicate Inv(s: State) {
    && |s.pcs| == |s.queues|
    && (forall i :: 0 <= i < |s.queues| ==> WorkerInv(s, i))
    && Exclusive(s.pcs)
    && Free(s) >= 0
    && !s.overflowFailed
  }

  /** A slot this step fills from the global queue is free beside the values not yet released. */
  ghost predicate RefillFits(s: State, i: nat, a: Action)
    requires InRange(s, i)
  {
    a.Continue? && Refills(s, i) ==> RoomFor(s.queues[i], |s.pcs[i].taken| + 1)
  }

  /** The worker is about to write a value from the global queue. */
  predicate Refills(s: State, i: nat)
    requires InRange(s, i)
  {
    s.pcs[i].FetchCopying? && |s.pcs[i].taken| < s.pcs[i].possible && s.global != []
  }

  // ---------------------------------------------------------------- interference

  /** How a queue may look later to those who do not own it. */
  ghost predicate Later(q: Queue, q': Queue) {
    && q'.order == q.order
    && q.released <= q'.released && q.claimed <= q'.claimed && q.pushed <= q'.pushed
    && q.log <= q'.log
  }

  /** How a queue may look to its owner after a thief's step. */
  ghost predicate OnlyClaims(q: Queue, q': Queue) {
    Later(q, q') && q'.data == q.data && q'.pushed == q.pushed && q'.log == q.log && q'.head == q.head
  }

  lemma SeenStays(seen: Seen, q: Queue, q': Queue)
    requires SeenOk(seen, q) && Later(q, q')
    ensures SeenOk(seen, q')
  {
  }

  lemma CopiedStays(own: Queue, own': Queue, from: Queue, from': Queue, start: nat, done: nat)
    requires Copied(own, from, start, done) && OnlyClaims(own, own') && from.log <= from'.log
    ensures Copied(own', from', start, done)
  {
    hide Written;
    assert from.log[start..start + done] == from'.log[start..start + done];
  }

  /** A worker inside an operation on its own queue keeps its facts while thieves work on it. */
  lemma OwnerUndisturbed(pc: Pc, own: Queue, own': Queue, free: int, free': int)
    requires !pc.HasVictim() && WorkerOk(pc, own, own, free)
    requires OnlyClaims(own, own')
    requires pc.HoldsLock() ==> free' == free
    ensures WorkerOk(pc, own', own', free')
  {
    hide Written, Intact, SeenOk, Pow2;
    if pc.Pushing? || pc.OverflowSeen? || pc.Popping? || pc.Fetching? {
      SeenStays(pc.seen, own, own');
    }
  }

  /** A thief keeps its facts while its own queue and its victim's only grow. */
  lemma ThiefUndisturbed(pc: Pc, own: Queue, own': Queue, from: Queue, from': Queue, free: int, free': int)
    requires pc.HasVictim() && WorkerOk(pc, own, from, free)
    requires OnlyClaims(own, own') && Later(from, from')
    requires pc.Stealing() ==> from'.released == from.released
    ensures WorkerOk(pc, own', from', free')
  {
    hide Written, SeenOk, Pow2, StealCount, Wrap, Copied;
    if pc.StealSeen? || pc.StealCounted? || pc.StealReleaseSeen? { SeenStays(pc.seen, from, from'); }
    if pc.StealCopying? { CopiedStays(own, own', from, from', pc.start, pc.done); }
    if pc.StealReleasing? || pc.StealReleaseSeen? || pc.StealPublishing? {
      CopiedStays(own, own', from, from', pc.start, pc.n);
    }
  }

  /** The parts of the state a step leaves to the other workers. */
  ghost predicate OthersKeep(s: State, s': State, i: nat) {
    && s'.globalCapacity == s.globalCapacity && s'.overflowFailed == s.overflowFailed
    && (forall k :: k != i ==> (s'.lock == Some(k) <==> s.lock == Some(k)))
    && (s.lock.Some? && s.lock.value != i ==> |s'.global| == |s.global|)
    && Free(s') >= 0
  }

  /** A step on a worker's own queue. */
  lemma OwnStepKeeps(s: State, s': State, i: nat, q': Queue, pc': Pc)
    requires Inv(s) && i < |s.queues|
    requires s'.queues == s.queues[i := q'] && s'.pcs == s.pcs[i := pc']
    requires OthersKeep(s, s', i)
    requires Later(s.queues[i], q')
    requires s.queues[i].released < s.queues[i].claimed ==> q'.released == s.queues[i].released
    requires pc'.Stealing() ==> s.pcs[i].Stealing() && pc'.victim == s.pcs[i].victim
    requires WorkerInv(s', i)
    ensures Inv(s')
  {
    hide QueueOk, WorkerOk, Later;
    forall k | 0 <= k < |s.queues| ensures WorkerInv(s', k) {
      if k != i {
        assert WorkerInv(s, k);
        BystanderKeeps(s, s', i, i, k);
      }
    }
  }

  /** A step of a thief on its victim's queue. */
  lemma VictimStepKeeps(s: State, s': State, i: nat, j: nat, q': Queue, pc': Pc)
    requires Inv(s) && i < |s.queues| && j < |s.queues| && i != j
    requires s'.queues == s.queues[j := q'] && s'.pcs == s.pcs[i := pc']
    requires s'.lock == s.lock && s'.global == s.global && OthersKeep(s, s', i)
    requires OnlyClaims(s.queues[j], q') && QueueOk(q')
    requires q'.released == s.queues[j].released || (s.pcs[i].Stealing() && s.pcs[i].victim == j)
    requires Exclusive(s'.pcs)
    requires WorkerInv(s', i)
    ensures Inv(s')
  {
    hide QueueOk, WorkerOk, Later;
    forall k | 0 <= k < |s.queues| ensures WorkerInv(s', k) {
      if k != i {
        assert WorkerInv(s, k);
        BystanderKeeps(s, s', i, j, k);
      }
    }
  }

  /** Worker `k` while worker `i` changes queue `j`, its own or its victim's. */
  lemma BystanderKeeps(s: State, s': State, i: nat, j: nat, k: nat)
    requires Inv(s) && i < |s.queues| && j < |s.queues| && k < |s.queues| && k != i
    requires |s'.queues| == |s.queues| == |s'.pcs|
    requires forall m :: 0 <= m < |s.queues| && m != j ==> s'.queues[m] == s.queues[m]
    requires s'.pcs[k] == s.pcs[k]
    requires OthersKeep(s, s', i)
    requires Later(s.queues[j], s'.queues[j])
    requires j == k ==> OnlyClaims(s.queues[j], s'.queues[j]) && QueueOk(s'.queues[j])
    requires s'.queues[j].released == s.queues[j].released
          || (s.pcs[i].Stealing() && s.pcs[i].victim == j)
          || (i == j && s.queues[j].released >= s.queues[j].claimed)
    ensures WorkerInv(s', k)
  {
    assert WorkerInv(s, k) && WorkerInv(s, i) && WorkerInv(s, j);
    var pc := s.pcs[k];
    var from, from' := Source(s, k), Source(s', k);
    if pc.HasVictim() {
      assert WorkerInv(s, pc.victim);
    }
    assert QueueOk(from);
    hide Intact, Written;
    if pc.Stealing() && pc.victim == j && s'.queues[j].released != s.queues[j].released {
      assert false;
    }
    assert Later(from, from');
    hide QueueOk, OnlyClaims, Later, WorkerOk;
    SameIsLater(s.queues[k]);
    if pc.HasVictim() {
      ThiefUndisturbed(pc, s.queues[k], s'.queues[k], from, from', Free(s), Free(s'));
    } else {
      OwnerUndisturbed(pc, s.queues[k], s'.queues[k], Free(s), Free(s'));
    }
  }

  lemma SameIsLater(q: Queue)
    ensures OnlyClaims(q, q) && Later(q, q)
  {
  }
}
