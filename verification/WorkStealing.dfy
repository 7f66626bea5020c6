/**
  The work-stealing system: any number of workers, each the only producer of its own queue,
  popping from it, overflowing into the global queue, refilling from it, and stealing from one
  another. Every atomic load, store and compare-exchange, every slot copy and every critical
  section entry is one step; a run is any interleaving of steps.
 */
module WorkStealing {
  import opened Common
  import opened WordArithmetic
  import opened StealQueue

  /** A tail word as loaded, with the cursors it stood for. */
  datatype Seen = Seen(word: u64, released: nat, claimed: nat)

  /** What an operation returned: a refused push gives its value back. */
  datatype Answer =
    | NoAnswer
    | Pushed | PushRefused(v: Value)
    | Popped(v: Value) | PopNone
    | Stole(n: nat) | StoleNone
    | Fetched(n: nat)

  /** Where a worker is inside an operation; between operations it has the answer of the last one. */
  datatype Pc =
    | Idle(answer: Answer)
    | Pushing(v: Value, seen: Seen, retry: bool)
    | PushAgain(v: Value)
    | PushWritten(v: Value)
    | OverflowLocked(v: Value, free: nat)
    | OverflowSeen(v: Value, free: nat, seen: Seen)
    | OverflowCopying(v: Value, start: nat, n: nat, done: nat)
    | Popping(seen: Seen)
    | PopClaimed(start: nat)
    | StealReady(victim: nat, room: nat, divider: nat)
    | StealSeen(victim: nat, room: nat, divider: nat, seen: Seen)
    | StealCounted(victim: nat, room: nat, divider: nat, seen: Seen, head: nat, n: nat)
    | StealCopying(victim: nat, start: nat, n: nat, done: nat)
    | StealReleasing(victim: nat, start: nat, n: nat)
    | StealReleaseSeen(victim: nat, start: nat, n: nat, seen: Seen)
    | StealPublishing(victim: nat, start: nat, n: nat)
    | Fetching(seen: Seen)
    | FetchSized(possible: nat)
    | FetchCopying(possible: nat, taken: seq<Value>)
  {
    /** Inside the global queue's critical section. */
    predicate HoldsLock() {
      OverflowLocked? || OverflowSeen? || OverflowCopying? || FetchCopying?
    }

    /** Working on another worker's queue. */
    predicate HasVictim() {
      || StealReady? || StealSeen? || StealCounted? || StealCopying?
      || StealReleasing? || StealReleaseSeen? || StealPublishing?
    }

    /** Between claiming from a victim and releasing the claim. */
    predicate Stealing() {
      StealCopying? || StealReleasing? || StealReleaseSeen?
    }
  }

  /**
    `accepted` and `delivered` record what was handed to the system and what it handed out;
    `overflowFailed` is set if the global queue ever refuses a value that has already been
    taken out of a local queue.
   */
  datatype State = State(queues: seq<Queue>, pcs: seq<Pc>, global: seq<Value>, globalCapacity: nat,
                         lock: Option<nat>, accepted: multiset<Value>, delivered: multiset<Value>,
                         overflowFailed: bool)

  datatype Action =
    | StartPush(v: Value)
    | StartPop
    | StartSteal(victim: nat, divider: nat)
    | StartFetch
    | Continue

  function Load(q: Queue): Seen { Seen(q.tail, q.released, q.claimed) }

  function Min(a: nat, b: nat): nat { if a < b then a else b }

  /** Same queues, one worker moves on. */
  function Goto(s: State, i: nat, pc: Pc): State
    requires i < |s.pcs|
  {
    s.(pcs := s.pcs[i := pc])
  }

  function Update(s: State, j: nat, q: Queue, i: nat, pc: Pc): State
    requires j < |s.queues| && i < |s.pcs|
  {
    s.(queues := s.queues[j := q], pcs := s.pcs[i := pc])
  }

  predicate InRange(s: State, i: nat) {
    && |s.pcs| == |s.queues| && i < |s.queues|
    && (s.pcs[i].HasVictim() ==> s.pcs[i].victim < |s.queues| && s.pcs[i].victim != i)
  }

  /** What starting or continuing an operation needs; see `Step`. */
  predicate CanStep(s: State, i: nat, a: Action) {
    && InRange(s, i)
    && match a
       case StartSteal(victim, divider) =>
         s.pcs[i].Idle? && victim < |s.queues| && victim != i && 2 <= divider <= 255
       case Continue => CanContinue(s, i)
       case _ => s.pcs[i].Idle?
  }

  /**
    Entering the critical section waits for the mutex. A thief's compare-exchange happens
    before 2^32 further claims on its victim.
   */
  predicate CanContinue(s: State, i: nat)
    requires InRange(s, i)
  {
    var q := s.queues[i];
    match s.pcs[i]
    case Idle(_) => false
    case Pushing(_, seen, retry) => PushFits(q, seen) || retry || s.lock.None?
    case StealCounted(j, _, _, seen, _, _) => s.queues[j].claimed - seen.claimed < U32_RANGE
    case Fetching(_) => s.lock.None?
    case FetchSized(_) => s.lock.None?
    case _ => true
  }

  /** `head - steal < capacity` in 32 bits. */
  predicate PushFits(q: Queue, seen: Seen) {
    WrappingSub(q.head, UnpackTail(seen.word).0) < q.Capacity()
  }

  /** Items a refill tries to take: bounded by the space after the claimed values, in 32 bits. */
  function FetchPossible(s: State, q: Queue, seen: Seen): nat {
    var count := WrappingSub(q.head, UnpackTail(seen.word).1);
    if count <= q.Capacity() then Min(|s.global|, q.Capacity() - count) else 0
  }

  function Step(s: State, i: nat, a: Action): (s': State)
    requires CanStep(s, i, a)
    ensures |s'.queues| == |s.queues| && |s'.pcs| == |s.pcs|
  {
    var q := s.queues[i];
    match a
    case StartPush(v) => Goto(s, i, Pushing(v, Load(q), false))
    case StartPop => Goto(s, i, Popping(Load(q)))
    case StartFetch => Goto(s, i, Fetching(Load(q)))
    case StartSteal(victim, divider) =>
      var used := WrappingSub(q.head, UnpackTail(q.tail).0);
      if used >= q.Capacity() then Goto(s, i, Idle(StoleNone))
      else Goto(s, i, StealReady(victim, q.Capacity() - used, divider))
    case Continue =>
      var pc := s.pcs[i];
      if pc.Pushing? || pc.PushAgain? || pc.PushWritten? then PushStep(s, i)
      else if pc.OverflowLocked? || pc.OverflowSeen? || pc.OverflowCopying? then OverflowStep(s, i)
      else if pc.Popping? || pc.PopClaimed? then PopStep(s, i)
      else if pc.HasVictim() then StealStep(s, i)
      else FetchStep(s, i)
  }

  /** `push` and `push_local_queue`. */
  function PushStep(s: State, i: nat): (s': State)
    requires InRange(s, i) && (s.pcs[i].Pushing? || s.pcs[i].PushAgain? || s.pcs[i].PushWritten?)
    ensures |s'.queues| == |s.queues| && |s'.pcs| == |s.pcs|
  {
    var q := s.queues[i];
    match s.pcs[i]
    case Pushing(v, seen, retry) =>
      if PushFits(q, seen) then
        if q.SlotOf(q.head) < |q.data| then Update(s, i, WriteSlot(q, q.head, v), i, PushWritten(v)) else s
      else if retry then Goto(s, i, Idle(PushRefused(v)))
      else Goto(s, i, OverflowLocked(v, if |s.global| <= s.globalCapacity then s.globalCapacity - |s.global| else 0))
           .(lock := Some(i))
    case PushAgain(v) => Goto(s, i, Pushing(v, Load(q), true))
    case PushWritten(v) => Update(s, i, Publish(q, [v]), i, Idle(Pushed)).(accepted := s.accepted + multiset{v})
  }

  /** `push_to_mpmc`, then the second try of the push. */
  function OverflowStep(s: State, i: nat): (s': State)
    requires InRange(s, i)
    requires s.pcs[i].OverflowLocked? || s.pcs[i].OverflowSeen? || s.pcs[i].OverflowCopying?
    ensures |s'.queues| == |s.queues| && |s'.pcs| == |s.pcs|
  {
    var q := s.queues[i];
    match s.pcs[i]
    case OverflowLocked(v, free) => Goto(s, i, OverflowSeen(v, free, Load(q)))
    case OverflowSeen(v, free, seen) =>
      var n := Min(free, WrappingSub(q.head, UnpackTail(seen.word).1) / 2);
      if q.tail != seen.word then Goto(s, i, OverflowSeen(v, free, Load(q)))
      else if n == 0 then Update(s, i, OwnerClaim(q, 0), i, Idle(PushRefused(v))).(lock := None)
      else Update(s, i, OwnerClaim(q, n), i, OverflowCopying(v, q.claimed, n, 0))
    case OverflowCopying(v, start, n, done) =>
      var slot := q.SlotOf(Wrap(start + done));
      if done >= n then Goto(s, i, PushAgain(v)).(lock := None)
      else if |s.global| >= s.globalCapacity then Goto(s, i, PushAgain(v)).(lock := None, overflowFailed := true)
      else if slot < |q.data| then Goto(s, i, OverflowCopying(v, start, n, done + 1)).(global := s.global + [q.data[slot]])
      else s
  }

  /** `pop_local`. */
  function PopStep(s: State, i: nat): (s': State)
    requires InRange(s, i) && (s.pcs[i].Popping? || s.pcs[i].PopClaimed?)
    ensures |s'.queues| == |s.queues| && |s'.pcs| == |s.pcs|
  {
    var q := s.queues[i];
    match s.pcs[i]
    case Popping(seen) =>
      if q.head == UnpackTail(seen.word).1 then Goto(s, i, Idle(PopNone))
      else if q.tail != seen.word then Goto(s, i, Popping(Load(q)))
      else Update(s, i, OwnerClaim(q, 1), i, PopClaimed(q.claimed))
    case PopClaimed(start) =>
      var slot := q.SlotOf(Wrap(start));
      if slot < |q.data| then Goto(s, i, Idle(Popped(q.data[slot]))).(delivered := s.delivered + multiset{q.data[slot]})
      else s
  }

  /** `steal_into` and `steal_internal`. */
  function StealStep(s: State, i: nat): (s': State)
    requires InRange(s, i) && s.pcs[i].HasVictim()
    ensures |s'.queues| == |s.queues| && |s'.pcs| == |s.pcs|
  {
    var q, j := s.queues[i], s.pcs[i].victim;
    var from := s.queues[j];
    match s.pcs[i]
    case StealReady(_, room, divider) => Goto(s, i, StealSeen(j, room, divider, Load(from)))
    case StealSeen(_, room, divider, seen) =>
      var (steal, realTail) := UnpackTail(seen.word);
      if from.head == realTail || steal != realTail || room == 0 || divider == 0 then Goto(s, i, Idle(StoleNone))
      else Goto(s, i, StealCounted(j, room, divider, seen, from.pushed, StealCount(from.head, realTail, room, divider)))
    case StealCounted(_, room, divider, seen, _, n) =>
      if from.tail != seen.word || n >= U32_RANGE then Goto(s, i, StealSeen(j, room, divider, Load(from)))
      else Update(s, j, ThiefClaim(from, n), i, StealCopying(j, from.claimed, n, 0))
    case StealCopying(_, start, n, done) =>
      var source, target := from.SlotOf(Wrap(start + done)), q.SlotOf(WrappingAdd(q.head, Wrap(done)));
      if done >= n then Goto(s, i, StealReleasing(j, start, n))
      else if source < |from.data| && target < |q.data| then
        Update(s, i, WriteSlot(q, WrappingAdd(q.head, Wrap(done)), from.data[source]), i, StealCopying(j, start, n, done + 1))
      else s
    case StealReleasing(_, start, n) => Goto(s, i, StealReleaseSeen(j, start, n, Load(from)))
    case StealReleaseSeen(_, start, n, seen) =>
      if from.tail != seen.word then Goto(s, i, StealReleaseSeen(j, start, n, Load(from)))
      else Update(s, j, Release(from), i, StealPublishing(j, start, n))
    case StealPublishing(_, start, n) =>
      var values := ReadSlots(q, n);
      if n < U32_RANGE then Update(s, i, Publish(q, values), i, Idle(Stole(n))) else s
  }

  /** The `n` slots from the head on. */
  function ReadSlots(q: Queue, n: nat): (values: seq<Value>)
    ensures |values| == n
  {
    seq(n, t requires 0 <= t < n => var slot := Spot(q.order, q.pushed + t); if slot < |q.data| then q.data[slot] else 0)
  }

  /** `fetch_from`. */
  function FetchStep(s: State, i: nat): (s': State)
    requires InRange(s, i) && (s.pcs[i].Fetching? || s.pcs[i].FetchSized? || s.pcs[i].FetchCopying?)
    ensures |s'.queues| == |s.queues| && |s'.pcs| == |s.pcs|
  {
    var q := s.queues[i];
    match s.pcs[i]
    case Fetching(seen) => Goto(s, i, FetchSized(FetchPossible(s, q, seen)))
    case FetchSized(possible) => Goto(s, i, FetchCopying(possible, [])).(lock := Some(i))
    case FetchCopying(possible, taken) =>
      if |taken| < possible && s.global != [] then
        var cursor := WrappingAdd(q.head, Wrap(|taken|));
        if q.SlotOf(cursor) < |q.data| then
          Update(s, i, WriteSlot(q, cursor, s.global[0]), i, FetchCopying(possible, taken + [s.global[0]]))
          .(global := s.global[1..])
        else s
      else if |taken| < U32_RANGE then Update(s, i, Publish(q, taken), i, Idle(Fetched(|taken|))).(lock := None)
      else s
  }

  /** A push into the global queue from outside the workers. */
  function GlobalPush(s: State, v: Value): State {
    if |s.global| < s.globalCapacity
    then s.(global := s.global + [v], accepted := s.accepted + multiset{v}) else s
  }

  /** A pop from the global queue from outside the workers. */
  function GlobalPop(s: State): State {
    if s.global != []
    then s.(global := s.global[1..], delivered := s.delivered + multiset{s.global[0]}) else s
  }
}
