/**
  The work-stealing system refines a plain one in which every queue is a first-in-first-out
  sequence and every worker holds a sequence of values in its hands.
 */
module StealRefinement {
  import opened Common
  import opened WordArithmetic
  import opened StealQueue
  import opened WorkStealing
  import opened StealInvariant
  import opened StealSteps

  function Range(log: seq<Value>, a: nat, b: nat): seq<Value> {
    if a <= b <= |log| then log[a..b] else []
  }

  /** Values a worker has claimed or taken and not yet passed on, in order. */
  function InFlight(pc: Pc, own: Queue, from: Queue): seq<Value> {
    match pc
    case PopClaimed(start) => Range(own.log, start, start + 1)
    case OverflowCopying(_, start, n, done) => Range(own.log, start + done, start + n)
    case StealCopying(_, start, n, _) => Range(from.log, start, start + n)
    case StealReleasing(_, start, n) => Range(from.log, start, start + n)
    case StealReleaseSeen(_, start, n, _) => Range(from.log, start, start + n)
    case StealPublishing(_, start, n) => Range(from.log, start, start + n)
    case FetchCopying(_, taken) => taken
    case _ => []
  }

  /** Published values nobody has claimed. */
  function Waiting(q: Queue): seq<Value> { Range(q.log, q.claimed, q.pushed) }

  function Hand(s: State, i: nat): seq<Value> {
    if InRange(s, i) then InFlight(s.pcs[i], s.queues[i], Source(s, i)) else []
  }

  // ---------------------------------------------------------------- the plain system

  datatype Plain = Plain(waiting: seq<seq<Value>>, hands: seq<seq<Value>>, global: seq<Value>,
                         accepted: multiset<Value>, delivered: multiset<Value>)

  /** What one step of a worker does to the values. */
  datatype Move =
    | Quiet
    | Accept(v: Value)
    | Claim(from: nat, n: nat)
    | Republish
    | Spill
    | Refill
    | Deliver

  predicate Legal(p: Plain, i: nat, m: Move) {
    && i < |p.waiting| == |p.hands|
    && match m
       case Quiet => true
       case Accept(_) => p.hands[i] == []
       case Claim(k, n) => k < |p.waiting| && n <= |p.waiting[k]| && p.hands[i] == []
       case Republish => true
       case Spill => p.hands[i] != []
       case Refill => p.global != []
       case Deliver => |p.hands[i]| == 1
  }

  /** Queues give up their oldest values and take new ones at the back; hands and the global queue keep the order. */
  function Apply(p: Plain, i: nat, m: Move): Plain
    requires Legal(p, i, m)
  {
    match m
    case Quiet => p
    case Accept(v) => p.(waiting := p.waiting[i := p.waiting[i] + [v]], accepted := p.accepted + multiset{v})
    case Claim(k, n) => p.(waiting := p.waiting[k := p.waiting[k][n..]], hands := p.hands[i := p.waiting[k][..n]])
    case Republish => p.(waiting := p.waiting[i := p.waiting[i] + p.hands[i]], hands := p.hands[i := []])
    case Spill => p.(hands := p.hands[i := p.hands[i][1..]], global := p.global + [p.hands[i][0]])
    case Refill => p.(hands := p.hands[i := p.hands[i] + [p.global[0]]], global := p.global[1..])
    case Deliver => p.(hands := p.hands[i := []], delivered := p.delivered + multiset{p.hands[i][0]})
  }

  function Abstract(s: State): Plain {
    Plain(seq(|s.queues|, k requires 0 <= k < |s.queues| => Waiting(s.queues[k])),
          seq(|s.queues|, k requires 0 <= k < |s.queues| => Hand(s, k)),
          s.global, s.accepted, s.delivered)
  }

  /** The plain system does `m`. */
  ghost predicate Refines(s: State, s': State, i: nat, m: Move) {
    Legal(Abstract(s), i, m) && Abstract(s') == Apply(Abstract(s), i, m)
  }

  // ---------------------------------------------------------------- frames

  lemma RangeStays(log: seq<Value>, log': seq<Value>, a: nat, b: nat)
    requires log <= log' && b <= |log|
    ensures Range(log', a, b) == Range(log, a, b)
  {
    if a <= b { assert log'[a..b] == log[a..b]; }
  }

  /** What a thief has claimed lies in its victim's log. */
  lemma ClaimInLog(s: State, k: nat)
    requires WorkerInv(s, k) && (s.pcs[k].Stealing() || s.pcs[k].StealPublishing?) && WorkerInv(s, s.pcs[k].victim)
    ensures s.pcs[k].start + s.pcs[k].n <= |s.queues[s.pcs[k].victim].log|
  {
    hide Intact, Written, Wrap, PackTail, StealCount, SeenOk, Pow2, RoomFor;
  }

  lemma InFlightStays(pc: Pc, own: Queue, from: Queue, from': Queue)
    requires pc.HasVictim() && from.log <= from'.log
    requires pc.Stealing() || pc.StealPublishing? ==> pc.start + pc.n <= |from.log|
    ensures InFlight(pc, own, from') == InFlight(pc, own, from)
  {
    if pc.Stealing() || pc.StealPublishing? { RangeStays(from.log, from'.log, pc.start, pc.start + pc.n); }
  }

  /** A worker that does not move and whose own log does not change holds the same values. */
  lemma HandStays(s: State, s': State, k: nat)
    requires |s'.queues| == |s.queues| && |s'.pcs| == |s.pcs| && WorkerInv(s, k) && s'.pcs[k] == s.pcs[k]
    requires s'.queues[k].log == s.queues[k].log
    requires s.pcs[k].HasVictim() ==> WorkerInv(s, s.pcs[k].victim)
    requires s.pcs[k].HasVictim() ==> s.queues[s.pcs[k].victim].log <= s'.queues[s.pcs[k].victim].log
    ensures Hand(s', k) == Hand(s, k)
  {
    var pc := s.pcs[k];
    assert InRange(s, k);
    hide WorkerInv;
    if pc.Stealing() || pc.StealPublishing? { ClaimInLog(s, k); }
    if pc.HasVictim() {
      InFlightStays(pc, s.queues[k], Source(s, k), Source(s', k));
      assert InFlight(pc, s'.queues[k], Source(s', k)) == InFlight(pc, s.queues[k], Source(s', k)) by { hide Range; }
    } else {
      hide Range;
    }
  }

  /** Everything but worker `i`'s hand and queue `j` stays. */
  lemma OthersStay(s: State, s': State, i: nat, j: nat, q': Queue, pc': Pc)
    requires Inv(s) && InRange(s, i) && InRange(s, j) && |s'.pcs| == |s.pcs|
    requires s'.queues == s.queues[j := q'] && s'.pcs == s.pcs[i := pc']
    requires s.queues[j].log <= q'.log && (j != i ==> q'.log == s.queues[j].log)
    ensures Abstract(s').waiting == Abstract(s).waiting[j := Waiting(q')]
    ensures Abstract(s').hands == Abstract(s).hands[i := Hand(s', i)]
  {
    hide Waiting;
    forall k | 0 <= k < |s.queues| && k != i ensures Hand(s', k) == Hand(s, k) {
      assert WorkerInv(s, k);
      if s.pcs[k].HasVictim() { assert WorkerInv(s, s.pcs[k].victim); }
      hide Hand, WorkerInv;
      HandStays(s, s', k);
    }
    hide Hand, Inv;
  }

  /** Steps that move no value. */
  lemma QuietRefines(s: State, s': State, i: nat, q': Queue, pc': Pc)
    requires Inv(s) && InRange(s, i) && InRange(s', i)
    requires s'.queues == s.queues[i := q'] && s'.pcs == s.pcs[i := pc']
    requires q'.log == s.queues[i].log && q'.claimed == s.queues[i].claimed && q'.pushed == s.queues[i].pushed
    requires s'.accepted == s.accepted && s'.delivered == s.delivered && s'.global == s.global
    requires InFlight(pc', q', Source(s', i)) == InFlight(s.pcs[i], s.queues[i], Source(s, i))
    ensures Refines(s, s', i, Quiet)
  {
    assert Waiting(q') == Waiting(s.queues[i]) && Hand(s', i) == Hand(s, i);
    hide Inv, Waiting, Hand;
    OthersStay(s, s', i, i, q', pc');
  }

  // ---------------------------------------------------------------- the steps

  lemma StartRefines(s: State, i: nat, a: Action)
    requires Inv(s) && CanStep(s, i, a) && !a.Continue?
    ensures Refines(s, Step(s, i, a), i, Quiet)
  {
    hide Inv, Refines, WrappingSub, UnpackTail, Pow2;
    var s' := Step(s, i, a);
    assert s'.queues == s.queues[i := s.queues[i]] && s'.pcs == s.pcs[i := s'.pcs[i]];
    QuietRefines(s, s', i, s.queues[i], s'.pcs[i]);
  }

  lemma PushTryRefines(s: State, i: nat)
    requires Inv(s) && InRange(s, i) && (s.pcs[i].Pushing? || s.pcs[i].PushAgain?)
    ensures Refines(s, PushStep(s, i), i, Quiet)
  {
    hide Inv, Refines, Queue.SlotOf, PushFits;
    var s' := PushStep(s, i);
    assert s'.queues == s.queues[i := s'.queues[i]] && s'.pcs == s.pcs[i := s'.pcs[i]];
    QuietRefines(s, s', i, s'.queues[i], s'.pcs[i]);
  }

  lemma WaitingPublished(q: Queue, values: seq<Value>)
    requires QueueOk(q) && |values| < U32_RANGE
    ensures Waiting(Publish(q, values)) == Waiting(q) + values
  {
    assert q.claimed <= q.pushed == |q.log|;
    hide QueueOk;
    assert (q.log + values)[q.claimed..q.pushed + |values|] == q.log[q.claimed..q.pushed] + values;
  }

  lemma PushPublishRefines(s: State, i: nat)
    requires Inv(s) && InRange(s, i) && s.pcs[i].PushWritten?
    ensures Refines(s, PushStep(s, i), i, Accept(s.pcs[i].v))
  {
    assert WorkerInv(s, i);
    var q, v, s' := s.queues[i], s.pcs[i].v, PushStep(s, i);
    var q' := Publish(q, [v]);
    WaitingPublished(q, [v]);
    assert Hand(s, i) == [] && Hand(s', i) == [];
    hide Inv, Waiting, Hand, QueueOk;
    OthersStay(s, s', i, i, q', Idle(Pushed));
  }

  /** An owner's claim passes the oldest values from the queue into its hands. */
  lemma ClaimRefines(s: State, s': State, i: nat, q': Queue, pc': Pc, n: nat)
    requires Inv(s) && InRange(s, i) && InRange(s', i)
    requires s'.queues == s.queues[i := q'] && s'.pcs == s.pcs[i := pc']
    requires s'.accepted == s.accepted && s'.delivered == s.delivered && s'.global == s.global
    requires s.queues[i].claimed + n <= s.queues[i].pushed <= |s.queues[i].log|
    requires q'.log == s.queues[i].log && q'.claimed == s.queues[i].claimed + n && q'.pushed == s.queues[i].pushed
    requires Hand(s, i) == [] && Hand(s', i) == Range(q'.log, s.queues[i].claimed, q'.claimed)
    ensures Refines(s, s', i, Claim(i, n))
  {
    WaitingClaimed(s.queues[i], q', n);
    hide Inv, Waiting, Hand, Range;
    OthersStay(s, s', i, i, q', pc');
  }

  lemma WaitingClaimed(q: Queue, q': Queue, n: nat)
    requires q.claimed + n <= q.pushed <= |q.log|
    requires q'.log == q.log && q'.claimed == q.claimed + n && q'.pushed == q.pushed
    ensures n <= |Waiting(q)| && Waiting(q') == Waiting(q)[n..]
    ensures Range(q.log, q.claimed, q.claimed + n) == Waiting(q)[..n]
  {
    assert q.log[q.claimed..q.pushed][n..] == q.log[q.claimed + n..q.pushed];
    assert q.log[q.claimed..q.pushed][..n] == q.log[q.claimed..q.claimed + n];
  }

  lemma OverflowClaimEffect(s: State, i: nat) returns (n: nat)
    requires Inv(s) && InRange(s, i) && s.pcs[i].OverflowSeen? && s.queues[i].tail == s.pcs[i].seen.word
    ensures n < U32_RANGE
    ensures var q, pc := s.queues[i], s.pcs[i];
            && q.claimed + n <= q.pushed <= |q.log|
            && n == Min(s.globalCapacity - |s.global|, (q.pushed - q.claimed) / 2)
            && (n == 0 ==> OverflowStep(s, i) == Update(s, i, OwnerClaim(q, n), i, Idle(PushRefused(pc.v))).(lock := None))
            && (n != 0 ==> OverflowStep(s, i) == Update(s, i, OwnerClaim(q, n), i, OverflowCopying(pc.v, q.claimed, n, 0)))
  {
    assert WorkerInv(s, i);
    var q, pc := s.queues[i], s.pcs[i];
    OwnerArithmetic(pc.seen, q);
    CapacityBound(q.order);
    n := Min(pc.free, (q.pushed - q.claimed) / 2);
    OverflowClaimShape(s, i, n);
    hide OwnerClaim, OverflowStep, Intact, Pow2, Wrap, PackTail;
  }

  lemma OverflowClaimRefines(s: State, i: nat) returns (n: nat)
    requires Inv(s) && InRange(s, i) && s.pcs[i].OverflowSeen? && s.queues[i].tail == s.pcs[i].seen.word
    ensures Refines(s, OverflowStep(s, i), i, Claim(i, n))
    ensures n == Min(s.globalCapacity - |s.global|, |Waiting(s.queues[i])| / 2)
  {
    var q, pc, s' := s.queues[i], s.pcs[i], OverflowStep(s, i);
    n := OverflowClaimEffect(s, i);
    var q', pc' := OwnerClaim(q, n), if n == 0 then Idle(PushRefused(pc.v)) else OverflowCopying(pc.v, q.claimed, n, 0);
    hide Inv, OverflowStep, OwnerClaimWord, Refines;
    assert Hand(s, i) == [] && Hand(s', i) == Range(q.log, q.claimed, q.claimed + n);
    hide Hand, Range;
    ClaimRefines(s, s', i, q', pc', n);
  }

  lemma OverflowCopyFacts(s: State, i: nat)
    requires Inv(s) && InRange(s, i) && s.pcs[i].OverflowCopying? && s.pcs[i].done < s.pcs[i].n
    ensures var q, pc := s.queues[i], s.pcs[i];
            && |s.global| < s.globalCapacity && pc.start + pc.n <= |q.log|
            && q.SlotOf(Wrap(pc.start + pc.done)) < |q.data|
            && q.data[q.SlotOf(Wrap(pc.start + pc.done))] == q.log[pc.start + pc.done]
  {
    assert WorkerInv(s, i);
    var q, pc := s.queues[i], s.pcs[i];
    assert q.order <= 31;
    hide Inv, QueueOk, Spot, Wrap, Queue.SlotOf;
    SlotOfWrapped(q, pc.start + pc.done);
    IntactTail(q.order, q.data, pc.start + pc.done, pc.start + pc.n, q.log);
  }

  /** The value handed to the global queue is the one published at the cursor. */
  lemma OverflowCopyValue(s: State, i: nat)
    requires Inv(s) && InRange(s, i) && s.pcs[i].OverflowCopying? && s.pcs[i].done < s.pcs[i].n
    ensures var q, pc, s' := s.queues[i], s.pcs[i], OverflowStep(s, i);
            && pc.start + pc.n <= |q.log|
            && s' == Goto(s, i, OverflowCopying(pc.v, pc.start, pc.n, pc.done + 1))
                     .(global := s.global + [q.log[pc.start + pc.done]])
  {
    hide Inv, Wrap, Queue.SlotOf;
    OverflowCopyFacts(s, i);
  }

  lemma OverflowCopyRefines(s: State, i: nat)
    requires Inv(s) && InRange(s, i) && s.pcs[i].OverflowCopying? && s.pcs[i].done < s.pcs[i].n
    ensures Refines(s, OverflowStep(s, i), i, Spill)
  {
    OverflowCopyValue(s, i);
    var q, pc, s' := s.queues[i], s.pcs[i], OverflowStep(s, i);
    var pc' := OverflowCopying(pc.v, pc.start, pc.n, pc.done + 1);
    hide Inv, OverflowStep;
    FirstOf(q.log, pc.start + pc.done, pc.start + pc.n);
    assert s'.queues == s.queues[i := q] && s'.pcs == s.pcs[i := pc'];
    assert Hand(s, i) == Range(q.log, pc.start + pc.done, pc.start + pc.n);
    assert Hand(s', i) == Range(q.log, pc.start + pc.done + 1, pc.start + pc.n);
    hide Hand, Range, Waiting, Goto;
    OthersStay(s, s', i, i, q, pc');
  }

  lemma FirstOf(log: seq<Value>, a: nat, b: nat)
    requires a < b <= |log|
    ensures Range(log, a, b) == [log[a]] + Range(log, a + 1, b)
  {
    assert log[a..b] == [log[a]] + log[a + 1..b];
  }

  lemma OverflowQuietRefines(s: State, i: nat)
    requires Inv(s) && InRange(s, i)
    requires || s.pcs[i].OverflowLocked?
             || (s.pcs[i].OverflowSeen? && s.queues[i].tail != s.pcs[i].seen.word)
             || (s.pcs[i].OverflowCopying? && s.pcs[i].done >= s.pcs[i].n)
    ensures Refines(s, OverflowStep(s, i), i, Quiet)
  {
    assert WorkerInv(s, i);
    hide Inv, Refines, Queue.SlotOf, WrappingSub, UnpackTail, QueueOk, Intact;
    var s' := OverflowStep(s, i);
    assert s'.queues == s.queues[i := s.queues[i]] && s'.pcs == s.pcs[i := s'.pcs[i]];
    QuietRefines(s, s', i, s.queues[i], s'.pcs[i]);
  }

  lemma PopLookRefines(s: State, i: nat)
    requires Inv(s) && InRange(s, i) && s.pcs[i].Popping?
    requires s.queues[i].tail != s.pcs[i].seen.word || s.queues[i].head == UnpackTail(s.pcs[i].seen.word).1
    ensures Refines(s, PopStep(s, i), i, Quiet)
  {
    hide Inv, Refines, UnpackTail;
    var s' := PopStep(s, i);
    assert s'.queues == s.queues[i := s.queues[i]] && s'.pcs == s.pcs[i := s'.pcs[i]];
    QuietRefines(s, s', i, s.queues[i], s'.pcs[i]);
  }

  lemma PopClaimRefines(s: State, i: nat)
    requires Inv(s) && InRange(s, i) && s.pcs[i].Popping?
    requires s.queues[i].tail == s.pcs[i].seen.word && s.queues[i].head != UnpackTail(s.pcs[i].seen.word).1
    ensures Refines(s, PopStep(s, i), i, Claim(i, 1))
  {
    assert WorkerInv(s, i);
    var q, pc, s' := s.queues[i], s.pcs[i], PopStep(s, i);
    OwnerArithmetic(pc.seen, q);
    assert q.claimed + 1 <= q.pushed <= |q.log|;
    var q', pc' := OwnerClaim(q, 1), PopClaimed(q.claimed);
    assert s'.queues == s.queues[i := q'] && s'.pcs == s.pcs[i := pc'];
    hide Inv, Refines, QueueOk, OwnSeenOk, OwnerClaimWord, WorkerOk;
    assert Hand(s, i) == [] && Hand(s', i) == Range(q.log, q.claimed, q.claimed + 1);
    hide Hand, Range;
    ClaimRefines(s, s', i, q', pc', 1);
  }

  /** What a pop hands out is the value published at the cursor it claimed. */
  lemma PopReadValue(s: State, i: nat)
    requires Inv(s) && InRange(s, i) && s.pcs[i].PopClaimed?
    ensures var q, pc := s.queues[i], s.pcs[i];
            && pc.start < |q.log|
            && PopStep(s, i) == Goto(s, i, Idle(Popped(q.log[pc.start])))
                                .(delivered := s.delivered + multiset{q.log[pc.start]})
  {
    assert WorkerInv(s, i);
    var q, pc := s.queues[i], s.pcs[i];
    SlotOfWrapped(q, pc.start);
    IntactTail(q.order, q.data, pc.start, pc.start + 1, q.log);
    hide Inv, Intact, Spot, Wrap;
  }

  lemma PopReadRefines(s: State, i: nat)
    requires Inv(s) && InRange(s, i) && s.pcs[i].PopClaimed?
    ensures Refines(s, PopStep(s, i), i, Deliver)
  {
    PopReadValue(s, i);
    var q, pc, s' := s.queues[i], s.pcs[i], PopStep(s, i);
    hide Inv, PopStep;
    FirstOf(q.log, pc.start, pc.start + 1);
    assert s'.queues == s.queues[i := q] && s'.pcs == s.pcs[i := s'.pcs[i]];
    assert Hand(s, i) == [q.log[pc.start]] && Hand(s', i) == [];
    hide Hand, Range, Waiting, Goto;
    OthersStay(s, s', i, i, q, s'.pcs[i]);
  }

  lemma StealLookRefines(s: State, i: nat)
    requires Inv(s) && InRange(s, i)
    requires || s.pcs[i].StealReady? || s.pcs[i].StealSeen? || s.pcs[i].StealReleasing?
             || (s.pcs[i].StealCounted? && s.pcs[i].seen.word != s.queues[s.pcs[i].victim].tail)
    ensures Refines(s, StealStep(s, i), i, Quiet)
  {
    hide Inv, Refines, UnpackTail, StealCount, Range;
    var s' := StealStep(s, i);
    assert s'.queues == s.queues[i := s.queues[i]] && s'.pcs == s.pcs[i := s'.pcs[i]];
    QuietRefines(s, s', i, s.queues[i], s'.pcs[i]);
  }

  lemma StealCopyRefines(s: State, i: nat)
    requires Inv(s) && InRange(s, i) && s.pcs[i].StealCopying?
    ensures Refines(s, StealStep(s, i), i, Quiet)
  {
    hide Inv, Refines, Queue.SlotOf, Wrap, WrappingAdd, Range;
    var s' := StealStep(s, i);
    assert s'.queues == s.queues[i := s'.queues[i]] && s'.pcs == s.pcs[i := s'.pcs[i]];
    QuietRefines(s, s', i, s'.queues[i], s'.pcs[i]);
  }

  /** The effect of a successful claim. */
  lemma StealClaimShape(s: State, i: nat)
    requires Inv(s) && CanStep(s, i, Continue) && s.pcs[i].StealCounted?
    requires s.pcs[i].seen.word == s.queues[s.pcs[i].victim].tail
    ensures var j, n := s.pcs[i].victim, s.pcs[i].n;
            && InRange(s, i) && InRange(s, j) && j != i && n < U32_RANGE
            && s.queues[j].claimed + n <= s.queues[j].pushed <= |s.queues[j].log|
            && StealStep(s, i) == Update(s, j, ThiefClaim(s.queues[j], n), i, StealCopying(j, s.queues[j].claimed, n, 0))
  {
    assert WorkerInv(s, i) && WorkerInv(s, s.pcs[i].victim);
    var own, from, pc := s.queues[i], Source(s, i), s.pcs[i];
    NoHugeSteal(pc, own, from, Free(s));
    ThiefArithmetic(pc, own, from, Free(s));
  }

  /** A successful claim takes the victim's share, at least one and no more than the thief has room for. */
  lemma StealTakesItsShare(s: State, i: nat)
    requires Inv(s) && CanStep(s, i, Continue) && s.pcs[i].StealCounted?
    requires s.pcs[i].seen.word == s.queues[s.pcs[i].victim].tail
    ensures var pc, from := s.pcs[i], s.queues[s.pcs[i].victim];
            && from.claimed <= pc.head <= from.pushed && pc.room > 0 && pc.divider > 0
            && var share := Min((pc.head - from.claimed) / pc.divider, pc.room);
               pc.n == if share == 0 then 1 else share
  {
    assert WorkerInv(s, i) && WorkerInv(s, s.pcs[i].victim);
    var own, from, pc := s.queues[i], Source(s, i), s.pcs[i];
    ThiefArithmetic(pc, own, from, Free(s));
    CapacityBound(from.order);
    WrappingSubExact(pc.head, pc.seen.claimed);
    hide Wrap, WrappingSub, SeenOk, Intact, PackTail, Pow2;
  }

  /** A push finds room exactly if fewer than a capacity of values are unreleased at its look at the tail. */
  lemma PushFitsIff(s: State, i: nat)
    requires Inv(s) && InRange(s, i) && s.pcs[i].Pushing?
    ensures var q, seen := s.queues[i], s.pcs[i].seen;
            PushFits(q, seen) <==> q.pushed - seen.released < q.Capacity()
  {
    assert WorkerInv(s, i);
    OwnerArithmetic(s.pcs[i].seen, s.queues[i]);
  }

  /** A thief's claim passes the oldest waiting values of the victim into the thief's hands. */
  lemma StealClaimRefines(s: State, i: nat)
    requires Inv(s) && CanStep(s, i, Continue) && s.pcs[i].StealCounted?
    requires s.pcs[i].seen.word == s.queues[s.pcs[i].victim].tail
    ensures Refines(s, StealStep(s, i), i, Claim(s.pcs[i].victim, s.pcs[i].n))
  {
    StealClaimShape(s, i);
    var j, n, s' := s.pcs[i].victim, s.pcs[i].n, StealStep(s, i);
    var from, from', pc' := s.queues[j], ThiefClaim(s.queues[j], n), StealCopying(j, s.queues[j].claimed, n, 0);
    assert from'.log == from.log && from'.claimed == from.claimed + n && from'.pushed == from.pushed;
    assert s'.queues == s.queues[j := from'] && s'.pcs == s.pcs[i := pc'];
    hide Inv, CanStep, StealStep, ThiefClaim;
    assert Hand(s, i) == [] && Hand(s', i) == Range(from.log, from.claimed, from.claimed + n);
    hide Hand;
    WaitingClaimed(from, from', n);
    hide Range, Waiting;
    OthersStay(s, s', i, j, from', pc');
  }

  lemma StealReleaseRefines(s: State, i: nat)
    requires Inv(s) && InRange(s, i) && s.pcs[i].StealReleaseSeen?
    ensures Refines(s, StealStep(s, i), i, Quiet)
  {
    var s', pc, j := StealStep(s, i), s.pcs[i], s.pcs[i].victim;
    assert WorkerInv(s, j);
    hide ReleaseWord, QueueOk, WorkerOk;
    var q' := s'.queues[j];
    assert q'.log == s.queues[j].log && q'.claimed == s.queues[j].claimed && q'.pushed == s.queues[j].pushed;
    assert s'.queues == s.queues[j := q'] && s'.pcs == s.pcs[i := s'.pcs[i]];
    assert Waiting(q') == Waiting(s.queues[j]);
    hide Range;
    assert Hand(s', i) == Hand(s, i);
    assert s'.accepted == s.accepted && s'.delivered == s.delivered && s'.global == s.global;
    hide StealStep, Hand, Waiting, Inv;
    OthersStay(s, s', i, j, q', s'.pcs[i]);
  }

  lemma StealPublishShape(s: State, i: nat)
    requires Inv(s) && InRange(s, i) && s.pcs[i].StealPublishing?
    ensures var pc, own := s.pcs[i], s.queues[i];
            var values := ReadSlots(own, pc.n);
            && QueueOk(own) && pc.n < U32_RANGE
            && values == Range(Source(s, i).log, pc.start, pc.start + pc.n)
            && StealStep(s, i) == Update(s, i, Publish(own, values), i, Idle(Stole(pc.n)))
  {
    assert WorkerInv(s, i) && WorkerInv(s, s.pcs[i].victim);
    var own, from, pc := s.queues[i], Source(s, i), s.pcs[i];
    ReadIsCopied(own, from, pc.start, pc.n);
    CapacityBound(own.order);
    hide Inv, ReadSlots, Written, Intact, Pow2, Wrap, PackTail;
  }

  /** What a thief publishes in its own queue is exactly what it claimed. */
  lemma StealPublishRefines(s: State, i: nat)
    requires Inv(s) && InRange(s, i) && s.pcs[i].StealPublishing?
    ensures Refines(s, StealStep(s, i), i, Republish)
  {
    StealPublishShape(s, i);
    var own, pc, s' := s.queues[i], s.pcs[i], StealStep(s, i);
    var values := ReadSlots(own, pc.n);
    var q' := Publish(own, values);
    WaitingPublished(own, values);
    hide Inv, StealStep, QueueOk, ReadSlots, Range;
    assert Hand(s, i) == values && Hand(s', i) == [];
    hide Hand, Waiting;
    OthersStay(s, s', i, i, q', Idle(Stole(pc.n)));
  }

  lemma FetchCopyShape(s: State, i: nat)
    requires Inv(s) && InRange(s, i) && s.pcs[i].FetchCopying?
    requires |s.pcs[i].taken| < s.pcs[i].possible && s.global != []
    ensures var q, pc, v := s.queues[i], s.pcs[i], s.global[0];
            && q.SlotOf(WrappingAdd(q.head, Wrap(|pc.taken|))) < |q.data|
            && FetchStep(s, i) == Update(s, i, WriteSlot(q, WrappingAdd(q.head, Wrap(|pc.taken|)), v), i,
                                         FetchCopying(pc.possible, pc.taken + [v])).(global := s.global[1..])
  {
    assert WorkerInv(s, i);
    SlotInRange(s.queues[i], WrappingAdd(s.queues[i].head, Wrap(|s.pcs[i].taken|)));
    hide Inv, QueueOk, Written, Queue.SlotOf, Wrap, WrappingAdd;
  }

  lemma SlotInRange(q: Queue, cursor: u32)
    requires q.order <= 31 && |q.data| == q.Capacity()
    ensures q.SlotOf(cursor) < |q.data|
  {
    assert Wrap(cursor) == cursor;
    SlotOfWrapped(q, cursor);
    hide Queue.SlotOf, Wrap;
  }

  lemma FetchCopyRefines(s: State, i: nat)
    requires Inv(s) && InRange(s, i) && s.pcs[i].FetchCopying?
    requires |s.pcs[i].taken| < s.pcs[i].possible && s.global != []
    ensures Refines(s, FetchStep(s, i), i, Refill)
  {
    FetchCopyShape(s, i);
    var q, pc, v, s' := s.queues[i], s.pcs[i], s.global[0], FetchStep(s, i);
    var q', pc' := WriteSlot(q, WrappingAdd(q.head, Wrap(|pc.taken|)), v), FetchCopying(pc.possible, pc.taken + [v]);
    hide Inv, FetchStep, Queue.SlotOf, Wrap, WrappingAdd;
    assert Waiting(q') == Waiting(q) && Hand(s, i) == pc.taken && Hand(s', i) == pc.taken + [v];
    hide Hand, Waiting;
    OthersStay(s, s', i, i, q', pc');
  }

  lemma FetchPublishRefines(s: State, i: nat)
    requires Inv(s) && InRange(s, i) && s.pcs[i].FetchCopying?
    requires |s.pcs[i].taken| >= s.pcs[i].possible || s.global == []
    ensures Refines(s, FetchStep(s, i), i, Republish)
  {
    assert WorkerInv(s, i);
    var q, pc := s.queues[i], s.pcs[i];
    PublishKeeps(q, pc.taken);
    WaitingPublished(q, pc.taken);
    var s', q' := FetchStep(s, i), Publish(q, pc.taken);
    hide Inv, QueueOk, Written, WorkerOk;
    assert s'.queues == s.queues[i := q'] && s'.pcs == s.pcs[i := s'.pcs[i]];
    assert Hand(s, i) == pc.taken && Hand(s', i) == [];
    hide Hand, Waiting;
    OthersStay(s, s', i, i, q', s'.pcs[i]);
  }

  lemma FetchQuietRefines(s: State, i: nat)
    requires Inv(s) && InRange(s, i) && (s.pcs[i].Fetching? || s.pcs[i].FetchSized?)
    ensures Refines(s, FetchStep(s, i), i, Quiet)
  {
    hide Inv, Refines, FetchPossible;
    var s' := FetchStep(s, i);
    assert s'.queues == s.queues[i := s.queues[i]] && s'.pcs == s.pcs[i := s'.pcs[i]];
    QuietRefines(s, s', i, s.queues[i], s'.pcs[i]);
  }

  /** Every step of every worker is a move of the plain system. */
  lemma StepRefines(s: State, i: nat, a: Action) returns (m: Move)
    requires Inv(s) && CanStep(s, i, a)
    ensures Refines(s, Step(s, i, a), i, m)
  {
    var pc := s.pcs[i];
    hide Inv, Refines;
    m := Quiet;
    if !a.Continue? { StartRefines(s, i, a); }
    else if pc.Pushing? || pc.PushAgain? { PushTryRefines(s, i); }
    else if pc.PushWritten? { PushPublishRefines(s, i); m := Accept(pc.v); }
    else if pc.OverflowSeen? && s.queues[i].tail == pc.seen.word { var n := OverflowClaimRefines(s, i); m := Claim(i, n); }
    else if pc.OverflowCopying? && pc.done < pc.n { OverflowCopyRefines(s, i); m := Spill; }
    else if pc.OverflowLocked? || pc.OverflowSeen? || pc.OverflowCopying? { OverflowQuietRefines(s, i); }
    else if pc.Popping? {
      if s.queues[i].tail == pc.seen.word && s.queues[i].head != UnpackTail(pc.seen.word).1 {
        PopClaimRefines(s, i);
        m := Claim(i, 1);
      } else {
        PopLookRefines(s, i);
      }
    }
    else if pc.PopClaimed? { PopReadRefines(s, i); m := Deliver; }
    else if pc.StealCounted? && pc.seen.word == s.queues[pc.victim].tail { StealClaimRefines(s, i); m := Claim(pc.victim, pc.n); }
    else if pc.StealReleaseSeen? { StealReleaseRefines(s, i); }
    else if pc.StealPublishing? { StealPublishRefines(s, i); m := Republish; }
    else if pc.StealCopying? { StealCopyRefines(s, i); }
    else if pc.HasVictim() { StealLookRefines(s, i); }
    else if pc.FetchCopying? {
      if |pc.taken| < pc.possible && s.global != [] { FetchCopyRefines(s, i); m := Refill; }
      else { FetchPublishRefines(s, i); m := Republish; }
    }
    else { FetchQuietRefines(s, i); }
  }
}
