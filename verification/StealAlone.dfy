/**
  What push, pop, steal and refill answer and leave behind when the worker runs alone from the
  start of the operation to its return, from every state the system can be in.
 */
module StealAlone {
  import opened Common
  import opened WordArithmetic
  import opened StealQueue
  import opened WorkStealing
  import opened StealInvariant
  import opened StealSteps
  import opened StealRefinement

  /** `n` steps of worker `i` alone lead from `s` to `end`. */
  ghost predicate Goes(s: State, i: nat, n: nat, end: State)
    decreases n
  {
    if n == 0 then s == end else CanStep(s, i, Continue) && Goes(Step(s, i, Continue), i, n - 1, end)
  }

  /** Worker `i` alone comes from `s` to the end of its operation. */
  ghost predicate Returns(s: State, i: nat, end: State) {
    InRange(end, i) && end.pcs[i].Idle? && exists n: nat :: Goes(s, i, n, end)
  }

  lemma ReturnsHere(s: State, i: nat)
    requires InRange(s, i) && s.pcs[i].Idle?
    ensures Returns(s, i, s)
  {
    assert Goes(s, i, 0, s);
  }

  lemma ReturnsLater(s: State, i: nat, s': State, end: State)
    requires CanStep(s, i, Continue) && Step(s, i, Continue) == s' && Returns(s', i, end)
    ensures Returns(s, i, end)
  {
    var n: nat :| Goes(s', i, n, end);
    hide CanStep, Step;
    assert Goes(s, i, n + 1, end);
  }

  /** There is one such end. */
  lemma {:induction false} OneEnd(s: State, i: nat, n: nat, end: State, m: nat, other: State)
    requires Goes(s, i, n, end) && InRange(end, i) && end.pcs[i].Idle?
    requires Goes(s, i, m, other) && InRange(other, i) && other.pcs[i].Idle?
    ensures end == other
    decreases n
  {
    hide Step;
    if n > 0 && m > 0 { OneEnd(Step(s, i, Continue), i, n - 1, end, m - 1, other); }
  }

  lemma ReturnsOnce(s: State, i: nat, end: State, other: State)
    requires Returns(s, i, end) && Returns(s, i, other)
    ensures end == other
  {
    var n: nat :| Goes(s, i, n, end);
    var m: nat :| Goes(s, i, m, other);
    OneEnd(s, i, n, end, m, other);
  }

  // ---------------------------------------------------------------- which step comes next

  lemma PushNext(s: State, i: nat)
    requires Inv(s) && InRange(s, i) && s.lock.None?
    requires s.pcs[i].Pushing? || s.pcs[i].PushAgain? || s.pcs[i].PushWritten?
    ensures CanStep(s, i, Continue) && Step(s, i, Continue) == PushStep(s, i) && Inv(PushStep(s, i))
  {
    StepKeepsInv(s, i, Continue);
    hide Inv, PushStep, OverflowStep, PopStep, StealStep, FetchStep, PushFits;
  }

  lemma OverflowNext(s: State, i: nat)
    requires Inv(s) && InRange(s, i)
    requires s.pcs[i].OverflowLocked? || s.pcs[i].OverflowSeen? || s.pcs[i].OverflowCopying?
    ensures CanStep(s, i, Continue) && Step(s, i, Continue) == OverflowStep(s, i) && Inv(OverflowStep(s, i))
  {
    StepKeepsInv(s, i, Continue);
    hide Inv, PushStep, OverflowStep, PopStep, StealStep, FetchStep, PushFits;
  }

  lemma PopNext(s: State, i: nat)
    requires Inv(s) && InRange(s, i) && (s.pcs[i].Popping? || s.pcs[i].PopClaimed?)
    ensures CanStep(s, i, Continue) && Step(s, i, Continue) == PopStep(s, i) && Inv(PopStep(s, i))
  {
    StepKeepsInv(s, i, Continue);
    hide Inv, PushStep, OverflowStep, PopStep, StealStep, FetchStep, PushFits;
  }

  lemma StealNext(s: State, i: nat)
    requires Inv(s) && InRange(s, i) && s.pcs[i].HasVictim()
    requires s.pcs[i].StealCounted? ==> s.pcs[i].seen == Load(s.queues[s.pcs[i].victim])
    ensures CanStep(s, i, Continue) && Step(s, i, Continue) == StealStep(s, i) && Inv(StealStep(s, i))
  {
    StepKeepsInv(s, i, Continue);
    hide Inv, PushStep, OverflowStep, PopStep, StealStep, FetchStep, PushFits;
  }

  lemma FetchNext(s: State, i: nat)
    requires InRange(s, i) && (s.pcs[i].Fetching? || s.pcs[i].FetchSized? || s.pcs[i].FetchCopying?)
    requires !s.pcs[i].FetchCopying? ==> s.lock.None?
    ensures CanStep(s, i, Continue) && Step(s, i, Continue) == FetchStep(s, i)
  {
    hide PushStep, OverflowStep, PopStep, StealStep, FetchStep, PushFits;
  }

  // ---------------------------------------------------------------- push

  /** The push appends its value and nothing else changes. */
  ghost predicate Appends(s: State, end: State, i: nat, v: Value) {
    && i < |s.queues| == |s.pcs| == |end.queues|
    && var q, q' := s.queues[i], end.queues[i];
       && end == s.(queues := s.queues[i := q'], pcs := s.pcs[i := Idle(Pushed)], accepted := s.accepted + multiset{v})
       && q'.order == q.order && q'.claimed == q.claimed && q'.released == q.released && q'.log == q.log + [v]
  }

  lemma WrittenReturns(s: State, i: nat) returns (end: State)
    requires Inv(s) && InRange(s, i) && s.pcs[i].PushWritten? && s.lock.None?
    ensures Returns(s, i, end) && Inv(end) && Appends(s, end, i, s.pcs[i].v)
  {
    PushNext(s, i);
    hide Inv, Returns;
    end := PushStep(s, i);
    ReturnsHere(end, i);
    ReturnsLater(s, i, end, end);
  }

  lemma FittingReturns(s: State, i: nat) returns (end: State)
    requires Inv(s) && InRange(s, i) && s.pcs[i].Pushing? && s.lock.None? && PushFits(s.queues[i], s.pcs[i].seen)
    ensures Returns(s, i, end) && Inv(end) && Appends(s, end, i, s.pcs[i].v)
  {
    PushNext(s, i);
    assert WorkerInv(s, i);
    var q, v := s.queues[i], s.pcs[i].v;
    SlotInRange(q, q.head);
    hide Inv, Returns, QueueOk, WorkerOk, Queue.SlotOf, PushFits;
    var s' := PushStep(s, i);
    assert s' == Update(s, i, WriteSlot(q, q.head, v), i, PushWritten(v));
    end := WrittenReturns(s', i);
    ReturnsLater(s, i, s', end);
    assert s.pcs[i := PushWritten(v)][i := Idle(Pushed)] == s.pcs[i := Idle(Pushed)];
    assert s'.queues[i := end.queues[i]] == s.queues[i := end.queues[i]];
  }

  /** The second try: by what the queue holds then. */
  ghost predicate SecondTry(s: State, end: State, i: nat, v: Value) {
    && i < |s.queues| == |s.pcs|
    && if s.queues[i].pushed - s.queues[i].released < s.queues[i].Capacity() then Appends(s, end, i, v)
       else end == Goto(s, i, Idle(PushRefused(v)))
  }

  lemma AgainReturns(s: State, i: nat) returns (end: State)
    requires Inv(s) && InRange(s, i) && s.pcs[i].PushAgain? && s.lock.None?
    ensures Returns(s, i, end) && Inv(end) && SecondTry(s, end, i, s.pcs[i].v)
  {
    PushNext(s, i);
    var q, v := s.queues[i], s.pcs[i].v;
    var s' := PushStep(s, i);
    assert s' == Goto(s, i, Pushing(v, Load(q), true));
    PushFitsIff(s', i);
    hide Inv, Returns;
    if PushFits(q, Load(q)) {
      end := FittingReturns(s', i);
    } else {
      PushNext(s', i);
      end := PushStep(s', i);
      ReturnsHere(end, i);
      ReturnsLater(s', i, end, end);
    }
    ReturnsLater(s, i, s', end);
    hide PushFits;
    assert s'.pcs[i := Idle(Pushed)] == s.pcs[i := Idle(Pushed)];
    assert s'.pcs[i := Idle(PushRefused(v))] == s.pcs[i := Idle(PushRefused(v))];
  }

  /** The rest of the claimed values are at the back of the global queue, in order, and the mutex is free. */
  function Spilled(s: State, i: nat): State
    requires InRange(s, i) && s.pcs[i].OverflowCopying?
  {
    var q, pc := s.queues[i], s.pcs[i];
    Goto(s, i, PushAgain(pc.v)).(global := s.global + Range(q.log, pc.start + pc.done, pc.start + pc.n), lock := None)
  }

  lemma SpillStops(s: State, i: nat)
    requires InRange(s, i) && s.pcs[i].OverflowCopying? && s.pcs[i].done >= s.pcs[i].n
    ensures OverflowStep(s, i) == Spilled(s, i)
  {
    hide Queue.SlotOf, Wrap;
  }

  lemma SpillGoesOn(s: State, i: nat)
    requires Inv(s) && InRange(s, i) && s.pcs[i].OverflowCopying? && s.pcs[i].done < s.pcs[i].n
    ensures var s', pc := OverflowStep(s, i), s.pcs[i];
            && InRange(s', i) && s'.pcs[i] == OverflowCopying(pc.v, pc.start, pc.n, pc.done + 1)
            && Spilled(s', i) == Spilled(s, i)
  {
    OverflowCopyValue(s, i);
    var q, pc, s' := s.queues[i], s.pcs[i], OverflowStep(s, i);
    hide Inv, OverflowStep;
    FirstOf(q.log, pc.start + pc.done, pc.start + pc.n);
    hide Range;
    assert s'.global + Range(q.log, pc.start + pc.done + 1, pc.start + pc.n)
        == s.global + Range(q.log, pc.start + pc.done, pc.start + pc.n);
    assert s'.pcs[i := PushAgain(pc.v)] == s.pcs[i := PushAgain(pc.v)];
  }

  lemma {:induction false} SpillReturns(s: State, i: nat) returns (end: State)
    requires Inv(s) && InRange(s, i) && s.pcs[i].OverflowCopying?
    ensures Returns(s, i, end) && Inv(end) && SecondTry(Spilled(s, i), end, i, s.pcs[i].v)
    decreases s.pcs[i].n - s.pcs[i].done
  {
    OverflowNext(s, i);
    var pc, s' := s.pcs[i], OverflowStep(s, i);
    if pc.done >= pc.n {
      SpillStops(s, i);
      hide Inv, Returns, OverflowStep, SecondTry;
      end := AgainReturns(s', i);
    } else {
      SpillGoesOn(s, i);
      hide Inv, Returns, OverflowStep, SecondTry, Spilled;
      end := SpillReturns(s', i);
    }
    ReturnsLater(s, i, s', end);
  }

  /** How many values a push on a full queue moves to the global queue. */
  function Overflowing(s: State, i: nat): nat
    requires i < |s.queues| && |s.global| <= s.globalCapacity
  {
    Min(s.globalCapacity - |s.global|, |Waiting(s.queues[i])| / 2)
  }

  /** The oldest of them are at the back of the global queue. */
  function Overflowed(s: State, i: nat, n: nat, pc: Pc): State
    requires i < |s.queues| == |s.pcs| && n < U32_RANGE && n <= |Waiting(s.queues[i])|
  {
    Update(s, i, OwnerClaim(s.queues[i], n), i, pc)
    .(global := s.global + Waiting(s.queues[i])[..n])
  }

  /** The claim of the overflow, and what its copy loop will make of it. */
  lemma OverflowClaims(s: State, i: nat)
    requires Inv(s) && InRange(s, i) && s.pcs[i].OverflowSeen? && s.pcs[i].seen == Load(s.queues[i])
    ensures |s.global| <= s.globalCapacity
    ensures var q, v, n, s' := s.queues[i], s.pcs[i].v, Overflowing(s, i), OverflowStep(s, i);
            && n < U32_RANGE && n <= |Waiting(q)|
            && if n == 0 then s' == Update(s, i, OwnerClaim(q, 0), i, Idle(PushRefused(v))).(lock := None)
               else && InRange(s', i) && s'.pcs[i] == OverflowCopying(v, q.claimed, n, 0)
                    && Spilled(s', i) == Overflowed(s, i, n, PushAgain(v)).(lock := None)
  {
    var q, v := s.queues[i], s.pcs[i].v;
    assert Free(s) >= 0;
    var n := OverflowClaimEffect(s, i);
    hide Inv, OverflowStep, OwnerClaimWord;
    assert |Waiting(q)| == q.pushed - q.claimed;
    assert Range(q.log, q.claimed + 0, q.claimed + n) == Waiting(q)[..n];
    hide Range, Waiting;
    if n != 0 {
      var copying := OverflowCopying(v, q.claimed, n, 0);
      assert s.pcs[i := copying][i := PushAgain(v)] == s.pcs[i := PushAgain(v)];
    }
  }

  lemma OverflowReturns(s: State, i: nat) returns (end: State)
    requires Inv(s) && InRange(s, i) && s.pcs[i].OverflowSeen? && s.pcs[i].seen == Load(s.queues[i])
    ensures |s.global| <= s.globalCapacity && Returns(s, i, end) && Inv(end)
    ensures var q, v, n := s.queues[i], s.pcs[i].v, Overflowing(s, i);
            && n < U32_RANGE && n <= |Waiting(q)|
            && if n == 0 then end == Update(s, i, OwnerClaim(q, 0), i, Idle(PushRefused(v))).(lock := None)
               else SecondTry(Overflowed(s, i, n, PushAgain(v)).(lock := None), end, i, v)
  {
    OverflowNext(s, i);
    OverflowClaims(s, i);
    var s' := OverflowStep(s, i);
    hide Inv, Returns, OverflowStep, OwnerClaim, Spilled, Overflowed, Overflowing, Waiting, SecondTry;
    if Overflowing(s, i) == 0 {
      end := s';
      ReturnsHere(end, i);
    } else {
      end := SpillReturns(s', i);
    }
    ReturnsLater(s, i, s', end);
  }

  /** Only worker `i`'s queue, the global queue and the books may have changed, and its answer is there. */
  ghost predicate AnsweredBy(s: State, end: State, i: nat, answer: Answer) {
    && i < |s.queues| == |s.pcs| == |end.queues|
    && end == s.(queues := s.queues[i := end.queues[i]], pcs := s.pcs[i := Idle(answer)], global := end.global,
                 accepted := end.accepted, delivered := end.delivered)
  }

  predicate Full(q: Queue) { q.pushed - q.released >= q.Capacity() }

  /** What a push by itself does, by what it finds. */
  ghost predicate PushOutcome(s: State, end: State, i: nat, v: Value)
    requires i < |s.queues| && |s.global| <= s.globalCapacity
  {
    var q, n := s.queues[i], Overflowing(s, i);
    var spilled := if Full(q) then n else 0;
    var accepts := !Full(q) || (n > 0 && q.released == q.claimed);
    && n <= |Waiting(q)|
    && AnsweredBy(s, end, i, if accepts then Pushed else PushRefused(v))
    && end.delivered == s.delivered
    && end.global == s.global + Waiting(q)[..spilled]
    && Waiting(end.queues[i]) == Waiting(q)[spilled..] + (if accepts then [v] else [])
    && end.accepted == if accepts then s.accepted + multiset{v} else s.accepted
  }

  lemma WaitingGrown(q: Queue, q': Queue, values: seq<Value>)
    requires q.claimed <= q.pushed == |q.log| && q'.claimed == q.claimed
    requires q'.pushed == |q'.log| && q'.log == q.log + values
    ensures Waiting(q') == Waiting(q) + values
  {
    assert q'.log[q.claimed..q'.pushed] == q.log[q.claimed..q.pushed] + values;
  }

  lemma AppendsOutcome(s: State, end: State, i: nat, v: Value)
    requires Appends(s, end, i, v) && QueueOk(s.queues[i]) && QueueOk(end.queues[i])
    ensures AnsweredBy(s, end, i, Pushed) && Waiting(end.queues[i]) == Waiting(s.queues[i]) + [v]
  {
    var q, q' := s.queues[i], end.queues[i];
    hide Intact, Wrap, PackTail, Pow2;
    WaitingGrown(q, q', [v]);
  }

  /** What the overflow does to the queue. */
  lemma OverflowedQueue(q: Queue, n: nat)
    requires QueueOk(q) && n <= |Waiting(q)|
    ensures n < U32_RANGE
    ensures var q' := OwnerClaim(q, n);
            && QueueOk(q') && q'.order == q.order && q'.pushed == q.pushed && Waiting(q') == Waiting(q)[n..]
            && (Full(q) ==> (Full(q') <==> n == 0 || q.released < q.claimed))
  {
    OwnerClaimKeeps(q, n);
    hide OwnerClaimWord, Intact, Wrap, PackTail, Pow2;
    WaitingClaimed(q, OwnerClaim(q, n), n);
  }

  /** From the queue found full to the return. */
  lemma FullReturns(s: State, i: nat) returns (end: State)
    requires Inv(s) && InRange(s, i) && s.lock.None? && Full(s.queues[i])
    requires s.pcs[i].Pushing? && s.pcs[i].seen == Load(s.queues[i]) && !s.pcs[i].retry
    ensures |s.global| <= s.globalCapacity && Returns(s, i, end) && Inv(end)
    ensures var q, v, n := s.queues[i], s.pcs[i].v, Overflowing(s, i);
            && n < U32_RANGE && n <= |Waiting(q)|
            && if n == 0 then end == Update(s, i, OwnerClaim(q, 0), i, Idle(PushRefused(v)))
               else SecondTry(Overflowed(s, i, n, PushAgain(v)), end, i, v)
  {
    PushFitsIff(s, i);
    PushNext(s, i);
    var v, locked := s.pcs[i].v, PushStep(s, i);
    assert Free(s) >= 0;
    hide Inv, Returns, PushFits;
    OverflowNext(locked, i);
    var looked := OverflowStep(locked, i);
    assert looked == Goto(s, i, OverflowSeen(v, s.globalCapacity - |s.global|, Load(s.queues[i]))).(lock := Some(i)) by {
      assert locked.pcs[i := OverflowSeen(v, s.globalCapacity - |s.global|, Load(s.queues[i]))]
          == s.pcs[i := OverflowSeen(v, s.globalCapacity - |s.global|, Load(s.queues[i]))];
    }
    hide PushStep, OverflowStep, SecondTry;
    end := OverflowReturns(looked, i);
    ReturnsLater(locked, i, looked, end);
    ReturnsLater(s, i, locked, end);
    hide OwnerClaim, Waiting;
    var n := Overflowing(s, i);
    assert looked.pcs[i := Idle(PushRefused(v))] == s.pcs[i := Idle(PushRefused(v))];
    assert looked.pcs[i := PushAgain(v)] == s.pcs[i := PushAgain(v)];
    assert Update(looked, i, OwnerClaim(s.queues[i], 0), i, Idle(PushRefused(v))).(lock := None)
        == Update(s, i, OwnerClaim(s.queues[i], 0), i, Idle(PushRefused(v)));
    assert Overflowed(looked, i, n, PushAgain(v)).(lock := None) == Overflowed(s, i, n, PushAgain(v));
  }

  /** From every state with the mutex free: what a push by itself answers and leaves behind. */
  lemma PushAlone(s: State, i: nat, v: Value) returns (end: State)
    requires Inv(s) && CanStep(s, i, StartPush(v)) && s.lock.None?
    ensures Returns(Step(s, i, StartPush(v)), i, end) && Inv(end)
    ensures |s.global| <= s.globalCapacity && PushOutcome(s, end, i, v)
  {
    StepKeepsInv(s, i, StartPush(v));
    var q, started := s.queues[i], Step(s, i, StartPush(v));
    assert started == Goto(s, i, Pushing(v, Load(q), false));
    assert WorkerInv(s, i) && Free(s) >= 0;
    PushFitsIff(started, i);
    hide Step, CanStep, Inv, Returns, PushFits;
    if Full(q) {
      end := FullReturns(started, i);
      FullOutcome(s, started.pcs[i], i, v, end);
    } else {
      end := FittingReturns(started, i);
      FittingOutcome(s, started.pcs[i], i, v, end);
    }
  }

  lemma FittingOutcome(s: State, pc: Pc, i: nat, v: Value, end: State)
    requires WorkerInv(s, i) && !Full(s.queues[i]) && Inv(end)
    requires Appends(Goto(s, i, pc), end, i, v) && |s.global| <= s.globalCapacity
    ensures PushOutcome(s, end, i, v)
  {
    assert WorkerInv(end, i);
    assert s.pcs[i := pc][i := Idle(Pushed)] == s.pcs[i := Idle(Pushed)];
    hide Inv;
    AppendsOutcome(s, end, i, v);
    hide QueueOk, WorkerOk, Waiting;
    assert Waiting(s.queues[i])[0..] == Waiting(s.queues[i]);
    assert s.global + Waiting(s.queues[i])[..0] == s.global;
  }

  lemma FullOutcome(s: State, pc: Pc, i: nat, v: Value, end: State)
    requires WorkerInv(s, i) && |s.global| <= s.globalCapacity && Full(s.queues[i]) && Inv(end)
    requires var started, q, n := Goto(s, i, pc), s.queues[i], Overflowing(s, i);
             && n < U32_RANGE && n <= |Waiting(q)|
             && if n == 0 then end == Update(started, i, OwnerClaim(q, 0), i, Idle(PushRefused(v)))
                else SecondTry(Overflowed(started, i, n, PushAgain(v)), end, i, v)
    ensures PushOutcome(s, end, i, v)
  {
    var q, n := s.queues[i], Overflowing(s, i);
    OverflowedQueue(q, n);
    assert WorkerInv(end, i);
    hide Inv, QueueOk, WorkerOk, OwnerClaimWord, Overflowing;
    assert s.pcs[i := pc][i := Idle(PushRefused(v))] == s.pcs[i := Idle(PushRefused(v))];
    assert s.pcs[i := pc][i := PushAgain(v)] == s.pcs[i := PushAgain(v)];
    if n == 0 {
      assert s.global + Waiting(q)[..0] == s.global && Waiting(q)[0..] == Waiting(q);
    } else {
      var u := Overflowed(s, i, n, PushAgain(v));
      assert u.pcs[i := Idle(Pushed)] == s.pcs[i := Idle(Pushed)];
      assert u.pcs[i := Idle(PushRefused(v))] == s.pcs[i := Idle(PushRefused(v))];
      if !Full(u.queues[i]) { AppendsOutcome(u, end, i, v); }
      hide Waiting, Full;
    }
  }

  // ---------------------------------------------------------------- pop

  /** What a pop by itself does. */
  ghost predicate PopOutcome(s: State, end: State, i: nat)
    requires i < |s.queues| == |s.pcs|
  {
    var waiting := Waiting(s.queues[i]);
    if waiting == [] then end == Goto(s, i, Idle(PopNone))
    else && AnsweredBy(s, end, i, Popped(waiting[0]))
         && Waiting(end.queues[i]) == waiting[1..]
         && end.delivered == s.delivered + multiset{waiting[0]}
         && end.accepted == s.accepted && end.global == s.global
  }

  lemma ClaimedReturns(s: State, i: nat) returns (end: State)
    requires Inv(s) && InRange(s, i) && s.pcs[i].PopClaimed?
    ensures var q, start := s.queues[i], s.pcs[i].start;
            && start < |q.log| && Returns(s, i, end) && Inv(end)
            && end == Goto(s, i, Idle(Popped(q.log[start]))).(delivered := s.delivered + multiset{q.log[start]})
  {
    PopNext(s, i);
    PopReadValue(s, i);
    hide Inv, Returns, PopStep;
    end := PopStep(s, i);
    ReturnsHere(end, i);
    ReturnsLater(s, i, end, end);
  }

  lemma PoppingReturns(s: State, i: nat) returns (end: State)
    requires Inv(s) && InRange(s, i) && s.pcs[i].Popping? && s.pcs[i].seen == Load(s.queues[i])
    ensures Returns(s, i, end) && Inv(end) && PopOutcome(s, end, i)
  {
    PopNext(s, i);
    assert WorkerInv(s, i);
    var q, s' := s.queues[i], PopStep(s, i);
    OwnerArithmetic(Load(q), q);
    assert |Waiting(q)| == q.pushed - q.claimed && |q.log| == q.pushed;
    hide Inv, Returns, UnpackTail, QueueOk, WorkerOk, OwnerClaimWord;
    if Waiting(q) == [] {
      end := s';
      ReturnsHere(end, i);
    } else {
      assert s' == Update(s, i, OwnerClaim(q, 1), i, PopClaimed(q.claimed));
      end := ClaimedReturns(s', i);
      WaitingClaimed(q, OwnerClaim(q, 1), 1);
      assert Waiting(q)[0] == q.log[q.claimed];
      hide Waiting;
      var answer := Idle(Popped(q.log[q.claimed]));
      assert s'.pcs[i := answer] == s.pcs[i := answer];
    }
    ReturnsLater(s, i, s', end);
  }

  /** From every state: a pop by itself takes the oldest waiting value, and none only if none waits. */
  lemma PopAlone(s: State, i: nat) returns (end: State)
    requires Inv(s) && CanStep(s, i, StartPop)
    ensures Returns(Step(s, i, StartPop), i, end) && Inv(end) && PopOutcome(s, end, i)
  {
    StepKeepsInv(s, i, StartPop);
    var started := Step(s, i, StartPop);
    assert started == Goto(s, i, Popping(Load(s.queues[i])));
    hide Inv, Step, CanStep, Returns;
    end := PoppingReturns(started, i);
    assert started.pcs[i := Idle(PopNone)] == s.pcs[i := Idle(PopNone)];
    assert end.pcs[i].Idle?;
    assert started.pcs[i := end.pcs[i]] == s.pcs[i := end.pcs[i]];
    hide Waiting;
  }

  // ---------------------------------------------------------------- steal

  /** The claimed values are in the thief's queue, and the claim is released. */
  ghost predicate Taken(s: State, end: State, i: nat, j: nat, start: nat, n: nat) {
    && i < |s.queues| == |s.pcs| == |end.queues| && j < |s.queues| && j != i
    && var own, own', from := s.queues[i], end.queues[i], s.queues[j];
       && end == s.(queues := s.queues[i := own'][j := Release(from)], pcs := s.pcs[i := Idle(Stole(n))])
       && own'.order == own.order && own'.claimed == own.claimed && own'.released == own.released
       && own'.log == own.log + Range(from.log, start, start + n)
  }

  lemma PublishingReturns(s: State, i: nat) returns (end: State)
    requires Inv(s) && InRange(s, i) && s.pcs[i].StealPublishing?
    ensures Returns(s, i, end) && Inv(end) && i < |end.queues|
    ensures var pc, own, own' := s.pcs[i], s.queues[i], end.queues[i];
            && end == Update(s, i, own', i, Idle(Stole(pc.n)))
            && own'.order == own.order && own'.claimed == own.claimed && own'.released == own.released
            && own'.log == own.log + Range(Source(s, i).log, pc.start, pc.start + pc.n)
  {
    StealNext(s, i);
    StealPublishShape(s, i);
    hide Inv, Returns, StealStep, Range, ReadSlots;
    end := StealStep(s, i);
    ReturnsHere(end, i);
    ReturnsLater(s, i, end, end);
  }

  lemma ReleasingReturns(s: State, i: nat) returns (end: State)
    requires Inv(s) && InRange(s, i) && s.pcs[i].StealReleasing?
    ensures Returns(s, i, end) && Inv(end) && Taken(s, end, i, s.pcs[i].victim, s.pcs[i].start, s.pcs[i].n)
  {
    var pc, j := s.pcs[i], s.pcs[i].victim;
    StealNext(s, i);
    var looked := StealStep(s, i);
    assert looked == Goto(s, i, StealReleaseSeen(j, pc.start, pc.n, Load(s.queues[j])));
    hide Inv, Returns;
    StealNext(looked, i);
    var released := StealStep(looked, i);
    assert released == Update(looked, j, Release(s.queues[j]), i, StealPublishing(j, pc.start, pc.n));
    assert released.queues[j].log == s.queues[j].log && released.queues[i] == s.queues[i];
    hide StealStep, Release, Range;
    end := PublishingReturns(released, i);
    ReturnsLater(looked, i, released, end);
    ReturnsLater(s, i, looked, end);
    assert released.pcs[i := Idle(Stole(pc.n))] == s.pcs[i := Idle(Stole(pc.n))];
    assert released.queues[i := end.queues[i]] == s.queues[i := end.queues[i]][j := Release(s.queues[j])];
  }

  /** One copy changes nothing of the thief's queue but a slot beyond its head. */
  lemma CopyGoesOn(s: State, i: nat) returns (own': Queue)
    requires Inv(s) && InRange(s, i) && s.pcs[i].StealCopying? && s.pcs[i].done < s.pcs[i].n
    ensures var pc := s.pcs[i];
            StealStep(s, i) == Update(s, i, own', i, StealCopying(pc.victim, pc.start, pc.n, pc.done + 1))
    ensures own' == s.queues[i].(data := own'.data)
  {
    assert WorkerInv(s, i) && WorkerInv(s, s.pcs[i].victim);
    var own, from, pc := s.queues[i], Source(s, i), s.pcs[i];
    CopyOne(own, from, pc);
    var v := from.log[pc.start + pc.done];
    StealCopyShape(s, i, v);
    own' := WriteSlot(own, WrappingAdd(own.head, Wrap(pc.done)), v);
    hide Inv, StealStep, QueueOk, WorkerOk, Queue.SlotOf, Wrap, WrappingAdd;
  }

  lemma CopyStops(s: State, i: nat)
    requires InRange(s, i) && s.pcs[i].StealCopying? && s.pcs[i].done >= s.pcs[i].n
    ensures var pc := s.pcs[i]; StealStep(s, i) == Goto(s, i, StealReleasing(pc.victim, pc.start, pc.n))
  {
    hide Queue.SlotOf, Wrap, WrappingAdd;
  }

  lemma {:induction false} CopyingReturns(s: State, i: nat) returns (end: State)
    requires Inv(s) && InRange(s, i) && s.pcs[i].StealCopying?
    ensures Returns(s, i, end) && Inv(end) && Taken(s, end, i, s.pcs[i].victim, s.pcs[i].start, s.pcs[i].n)
    decreases s.pcs[i].n - s.pcs[i].done
  {
    StealNext(s, i);
    var pc, j, s' := s.pcs[i], s.pcs[i].victim, StealStep(s, i);
    if pc.done >= pc.n {
      CopyStops(s, i);
      hide Inv, Returns, StealStep, Release, Range;
      end := ReleasingReturns(s', i);
    } else {
      var own' := CopyGoesOn(s, i);
      hide Inv, Returns, StealStep, Release, Range;
      end := CopyingReturns(s', i);
      assert s'.queues[i := end.queues[i]] == s.queues[i := end.queues[i]];
    }
    assert s'.pcs[i := Idle(Stole(pc.n))] == s.pcs[i := Idle(Stole(pc.n))];
    ReturnsLater(s, i, s', end);
  }

  /** How many values a thief by itself takes: its share, no more than it has room for, at least one. */
  function Share(own: Queue, from: Queue, divider: nat): nat
    requires divider > 0
  {
    var room := if Full(own) then 0 else own.Capacity() - (own.pushed - own.released);
    var share := Min(|Waiting(from)| / divider, room);
    if share == 0 then 1 else share
  }

  /** What a steal by itself does. */
  ghost predicate StealOutcome(s: State, end: State, i: nat, j: nat, divider: nat)
    requires i < |s.queues| == |s.pcs| && j < |s.queues| && divider > 0
  {
    var own, from, n := s.queues[i], s.queues[j], Share(s.queues[i], s.queues[j], divider);
    if Full(own) || Waiting(from) == [] || from.released != from.claimed then end == Goto(s, i, Idle(StoleNone))
    else && |end.queues| == |s.queues| && n <= |Waiting(from)|
         && var own', from' := end.queues[i], end.queues[j];
            && end == s.(queues := s.queues[i := own'][j := from'], pcs := s.pcs[i := Idle(Stole(n))])
            && Waiting(own') == Waiting(own) + Waiting(from)[..n]
            && Waiting(from') == Waiting(from)[n..] && from'.released == from'.claimed
  }

  lemma TakenOutcome(s: State, claimed: State, end: State, i: nat, j: nat, n: nat)
    requires Inv(s) && Inv(end) && InRange(s, i) && j < |s.queues| && j != i && n < U32_RANGE
    requires s.queues[j].claimed + n <= s.queues[j].pushed
    requires claimed == Update(s, j, ThiefClaim(s.queues[j], n), i, StealCopying(j, s.queues[j].claimed, n, 0))
    requires Taken(claimed, end, i, j, s.queues[j].claimed, n)
    ensures var own, from, own', from' := s.queues[i], s.queues[j], end.queues[i], end.queues[j];
            && n <= |Waiting(from)|
            && end == s.(queues := s.queues[i := own'][j := from'], pcs := s.pcs[i := Idle(Stole(n))])
            && Waiting(own') == Waiting(own) + Waiting(from)[..n]
            && Waiting(from') == Waiting(from)[n..] && from'.released == from'.claimed
  {
    assert WorkerInv(s, i) && WorkerInv(s, j) && WorkerInv(end, i);
    var own, from, own', from' := s.queues[i], s.queues[j], end.queues[i], end.queues[j];
    assert from.claimed <= from.pushed == |from.log| && own.claimed <= own.pushed == |own.log|;
    assert own'.pushed == |own'.log|;
    hide Inv, QueueOk, ThiefClaimWord, ReleaseWord, WorkerOk;
    WaitingClaimed(from, from', n);
    WaitingGrown(own, own', Range(from.log, from.claimed, from.claimed + n));
    hide Waiting, Range;
    assert claimed.pcs[i := Idle(Stole(n))] == s.pcs[i := Idle(Stole(n))];
    assert claimed.queues[i := own'][j := from'] == s.queues[i := own'][j := from'];
  }

  lemma CountIsShare(head: u32, realTail: u32, waiting: nat, room: nat, divider: nat)
    requires WrappingSub(head, realTail) == waiting && room > 0 && divider > 0
    ensures var share := Min(waiting / divider, room);
            StealCount(head, realTail, room, divider) == if share == 0 then 1 else share
  {
    hide WrappingSub;
  }

  /** The words a thief looks at, as cursors. */
  lemma LookedWords(from: Queue)
    requires QueueOk(from)
    ensures var (steal, realTail) := UnpackTail(from.tail);
            && (from.head == realTail <==> from.pushed == from.claimed)
            && (steal == realTail <==> from.released == from.claimed)
            && WrappingSub(from.head, realTail) == from.pushed - from.claimed
  {
    LoadIsSeen(from);
    OwnerArithmetic(Load(from), from);
    SeenWords(Load(from), from);
    hide Wrap, PackTail, WrappingSub, UnpackTail, QueueOk;
  }

  lemma CountedReturns(s: State, i: nat) returns (end: State)
    requires Inv(s) && InRange(s, i) && s.pcs[i].StealCounted? && s.pcs[i].seen == Load(s.queues[s.pcs[i].victim])
    ensures Returns(s, i, end) && Inv(end)
    ensures var j, n := s.pcs[i].victim, s.pcs[i].n;
            && j < |s.queues| && j != i && n < U32_RANGE && s.queues[j].claimed + n <= s.queues[j].pushed
            && Taken(Update(s, j, ThiefClaim(s.queues[j], n), i, StealCopying(j, s.queues[j].claimed, n, 0)),
                     end, i, j, s.queues[j].claimed, n)
  {
    StealNext(s, i);
    StealClaimShape(s, i);
    var s' := StealStep(s, i);
    hide Inv, Returns, StealStep, Taken, ThiefClaim;
    end := CopyingReturns(s', i);
    ReturnsLater(s, i, s', end);
  }

  lemma LookedReturns(s: State, i: nat) returns (end: State)
    requires Inv(s) && InRange(s, i) && s.pcs[i].StealSeen? && s.pcs[i].seen == Load(s.queues[s.pcs[i].victim])
    requires var own, pc := s.queues[i], s.pcs[i];
             !Full(own) && pc.room == own.Capacity() - (own.pushed - own.released) && pc.divider > 0
    ensures Returns(s, i, end) && Inv(end) && StealOutcome(s, end, i, s.pcs[i].victim, s.pcs[i].divider)
  {
    var pc, j, s' := s.pcs[i], s.pcs[i].victim, StealStep(s, i);
    var own, from := s.queues[i], s.queues[j];
    assert WorkerInv(s, i) && WorkerInv(s, j);
    assert |Waiting(from)| == from.pushed - from.claimed;
    LookedWords(from);
    CountIsShare(from.head, UnpackTail(from.tail).1, |Waiting(from)|, pc.room, pc.divider);
    StealNext(s, i);
    hide Inv, Returns, QueueOk, WorkerOk, UnpackTail, StealCount, ThiefClaim;
    if Waiting(from) == [] || from.released != from.claimed {
      end := s';
      ReturnsHere(end, i);
    } else {
      var n := Share(own, from, pc.divider);
      assert s' == Goto(s, i, StealCounted(j, pc.room, pc.divider, pc.seen, from.pushed, n));
      hide StealStep, Waiting;
      end := CountedReturns(s', i);
      var copying := StealCopying(j, from.claimed, n, 0);
      assert s'.pcs[i := copying] == s.pcs[i := copying];
      TakenOutcome(s, Update(s, j, ThiefClaim(from, n), i, copying), end, i, j, n);
    }
    ReturnsLater(s, i, s', end);
  }

  lemma StartOfSteal(s: State, i: nat, j: nat, divider: nat)
    requires Inv(s) && CanStep(s, i, StartSteal(j, divider))
    ensures var q, s' := s.queues[i], Step(s, i, StartSteal(j, divider));
            s' == if Full(q) then Goto(s, i, Idle(StoleNone))
                  else Goto(s, i, StealReady(j, q.Capacity() - (q.pushed - q.released), divider))
  {
    assert WorkerInv(s, i);
    LoadIsSeen(s.queues[i]);
    OwnerArithmetic(Load(s.queues[i]), s.queues[i]);
    hide Inv, QueueOk, WorkerOk, UnpackTail, WrappingSub;
  }

  /**
    From every state: a steal by itself takes its share of the victim's oldest values, and none
    only if the thief is full, nothing waits, or another thief is at work on the victim.
   */
  lemma StealAlone(s: State, i: nat, j: nat, divider: nat) returns (end: State)
    requires Inv(s) && CanStep(s, i, StartSteal(j, divider))
    ensures Returns(Step(s, i, StartSteal(j, divider)), i, end) && Inv(end) && StealOutcome(s, end, i, j, divider)
  {
    StepKeepsInv(s, i, StartSteal(j, divider));
    StartOfSteal(s, i, j, divider);
    var q, started := s.queues[i], Step(s, i, StartSteal(j, divider));
    hide Inv, Step, Returns, Waiting, Share;
    if Full(q) {
      end := started;
      ReturnsHere(end, i);
    } else {
      StealNext(started, i);
      var looked := StealStep(started, i);
      var seen := StealSeen(j, started.pcs[i].room, divider, Load(s.queues[j]));
      assert started.pcs[i := seen] == s.pcs[i := seen];
      assert looked == Goto(s, i, seen);
      hide StealStep;
      end := LookedReturns(looked, i);
      ReturnsLater(started, i, looked, end);
      assert end.pcs[i].Idle?;
      assert looked.pcs[i := end.pcs[i]] == s.pcs[i := end.pcs[i]];
    }
  }

  // ---------------------------------------------------------------- refill

  /**
    What a refill by itself does: it takes the front of the global queue, as much as there is
    space after the claimed values.
   */
  ghost predicate FetchOutcome(s: State, end: State, i: nat)
    requires i < |s.queues| && s.queues[i].pushed <= s.queues[i].claimed + s.queues[i].Capacity()
  {
    var q := s.queues[i];
    var n := Min(|s.global|, q.Capacity() - (q.pushed - q.claimed));
    && AnsweredBy(s, end, i, Fetched(n))
    && end.accepted == s.accepted && end.delivered == s.delivered
    && end.global == s.global[n..] && Waiting(end.queues[i]) == Waiting(q) + s.global[..n]
  }

  /** `n` more values are taken, and the queue and the mutex let go. */
  ghost predicate Refilled(s: State, end: State, i: nat, taken: seq<Value>, n: nat) {
    && i < |s.queues| == |s.pcs| == |end.queues| && n <= |s.global|
    && var q, q' := s.queues[i], end.queues[i];
       && end == s.(queues := s.queues[i := q'], pcs := s.pcs[i := Idle(Fetched(|taken| + n))],
                    global := s.global[n..], lock := None)
       && q'.order == q.order && q'.claimed == q.claimed && q'.released == q.released
       && q'.pushed == q.pushed + |taken| + n && q'.log == q.log + (taken + s.global[..n])
  }

  lemma RefillStops(s: State, i: nat)
    requires InRange(s, i) && s.pcs[i].FetchCopying? && |s.pcs[i].taken| < U32_RANGE
    requires |s.pcs[i].taken| >= s.pcs[i].possible || s.global == []
    ensures InRange(FetchStep(s, i), i) && FetchStep(s, i).pcs[i].Idle?
    ensures Refilled(s, FetchStep(s, i), i, s.pcs[i].taken, 0)
  {
    var taken := s.pcs[i].taken;
    assert s.global[0..] == s.global && taken + s.global[..0] == taken;
  }

  lemma RefillGoesOn(s: State, i: nat) returns (q': Queue)
    requires InRange(s, i) && Refills(s, i) && s.queues[i].order <= 31 && |s.queues[i].data| == s.queues[i].Capacity()
    ensures q' == s.queues[i].(data := q'.data) && |q'.data| == |s.queues[i].data|
    ensures var pc, v := s.pcs[i], s.global[0];
            FetchStep(s, i) == Update(s, i, q', i, FetchCopying(pc.possible, pc.taken + [v])).(global := s.global[1..])
  {
    var q, pc, v := s.queues[i], s.pcs[i], s.global[0];
    var cursor := WrappingAdd(q.head, Wrap(|pc.taken|));
    SlotInRange(q, cursor);
    hide Queue.SlotOf, Wrap, WrappingAdd;
    q' := WriteSlot(q, cursor, v);
  }

  lemma RefilledBefore(s: State, s': State, end: State, i: nat, n: nat)
    requires InRange(s, i) && s.pcs[i].FetchCopying? && s.global != [] && i < |s'.queues|
    requires var q', pc, v := s'.queues[i], s.pcs[i], s.global[0];
             && q' == s.queues[i].(data := q'.data)
             && s' == Update(s, i, q', i, FetchCopying(pc.possible, pc.taken + [v])).(global := s.global[1..])
             && Refilled(s', end, i, pc.taken + [v], n)
    ensures Refilled(s, end, i, s.pcs[i].taken, n + 1)
  {
    var taken, v := s.pcs[i].taken, s.global[0];
    assert s'.global[n..] == s.global[n + 1..];
    assert taken + [v] + s'.global[..n] == taken + s.global[..n + 1];
    assert s'.queues[i := end.queues[i]] == s.queues[i := end.queues[i]];
    assert s'.pcs[i := end.pcs[i]] == s.pcs[i := end.pcs[i]];
  }

  /** The copy loop, whether or not its writes fit; if they do the invariant is kept. */
  lemma {:induction false} RefillReturns(s: State, i: nat) returns (end: State)
    requires InRange(s, i) && s.pcs[i].FetchCopying? && |s.pcs[i].taken| <= s.pcs[i].possible < U32_RANGE
    requires s.queues[i].order <= 31 && |s.queues[i].data| == s.queues[i].Capacity()
    ensures Returns(s, i, end)
    ensures Refilled(s, end, i, s.pcs[i].taken, Min(|s.global|, s.pcs[i].possible - |s.pcs[i].taken|))
    ensures Inv(s) && RoomFor(s.queues[i], s.pcs[i].possible) ==> Inv(end)
    decreases s.pcs[i].possible - |s.pcs[i].taken|
  {
    FetchNext(s, i);
    var q, pc, s' := s.queues[i], s.pcs[i], FetchStep(s, i);
    if Inv(s) && RoomFor(q, pc.possible) { StepKeepsInv(s, i, Continue); }
    hide Inv, Returns, Step, CanStep;
    if Refills(s, i) {
      var q' := RefillGoesOn(s, i);
      hide FetchStep, Refilled;
      end := RefillReturns(s', i);
      RefilledBefore(s, s', end, i, Min(|s'.global|, pc.possible - |pc.taken| - 1));
    } else {
      RefillStops(s, i);
      hide FetchStep, Refilled;
      end := s';
      ReturnsHere(end, i);
    }
    ReturnsLater(s, i, s', end);
  }

  lemma RefilledWaiting(s: State, locked: State, end: State, i: nat, n: nat)
    requires i < |s.queues| == |s.pcs| && s.queues[i].claimed <= s.queues[i].pushed == |s.queues[i].log|
    requires locked == Goto(s, i, FetchCopying(n, [])).(lock := Some(i)) && s.lock.None?
    requires Refilled(locked, end, i, [], n)
    ensures AnsweredBy(s, end, i, Fetched(n)) && end.accepted == s.accepted && end.delivered == s.delivered
    ensures end.global == s.global[n..] && Waiting(end.queues[i]) == Waiting(s.queues[i]) + s.global[..n]
  {
    var q, q' := s.queues[i], end.queues[i];
    assert [] + s.global[..n] == s.global[..n];
    WaitingGrown(q, q', s.global[..n]);
    hide Waiting;
    assert locked.pcs[i := Idle(Fetched(n))] == s.pcs[i := Idle(Fetched(n))];
  }

  /**
    From every state with the mutex free: what a refill by itself takes, whether or not it fits
    beside a thief; with no thief at work on the queue the invariant is kept.
   */
  lemma FetchAlone(s: State, i: nat) returns (end: State)
    requires Inv(s) && CanStep(s, i, StartFetch) && s.lock.None?
    ensures s.queues[i].pushed <= s.queues[i].claimed + s.queues[i].Capacity()
    ensures Returns(Step(s, i, StartFetch), i, end) && FetchOutcome(s, end, i)
    ensures s.queues[i].claimed == s.queues[i].released ==> Inv(end)
  {
    StepKeepsInv(s, i, StartFetch);
    var q, started := s.queues[i], Step(s, i, StartFetch);
    assert started == Goto(s, i, Fetching(Load(q)));
    hide Step, CanStep, Returns, Refilled, FetchPossible;
    SizeAlone(started, i);
    var n := Min(|s.global|, q.Capacity() - (q.pushed - q.claimed));
    var sized := Goto(s, i, FetchSized(n));
    var locked := Goto(s, i, FetchCopying(n, [])).(lock := Some(i));
    StartToLocked(s, i, n, started, sized, locked);
    hide Inv;
    end := RefillReturns(locked, i);
    ReturnsLater(sized, i, locked, end);
    ReturnsLater(started, i, sized, end);
    RefilledWaiting(s, locked, end, i, n);
  }

  lemma SizeAlone(s: State, i: nat)
    requires Inv(s) && InRange(s, i) && s.pcs[i].Fetching? && s.pcs[i].seen == Load(s.queues[i])
    ensures var q := s.queues[i];
            && q.order <= 31 && |q.data| == q.Capacity() && q.claimed <= q.pushed == |q.log|
            && q.pushed <= q.claimed + q.Capacity() < q.claimed + U32_RANGE
            && (q.claimed == q.released ==> q.pushed <= q.released + q.Capacity())
            && FetchPossible(s, q, Load(q)) == Min(|s.global|, q.Capacity() - (q.pushed - q.claimed))
  {
    assert WorkerInv(s, i);
    var q := s.queues[i];
    CapacityBound(q.order);
    OwnerArithmetic(Load(q), q);
    hide Inv, Intact, Wrap, PackTail, UnpackTail, WrappingSub, Pow2;
  }

  lemma StartToLocked(s: State, i: nat, n: nat, started: State, sized: State, locked: State)
    requires Inv(s) && InRange(s, i) && s.pcs[i].Idle? && s.lock.None? && Inv(started)
    requires started == Goto(s, i, Fetching(Load(s.queues[i])))
    requires FetchPossible(started, s.queues[i], Load(s.queues[i])) == n
    requires sized == Goto(s, i, FetchSized(n)) && locked == Goto(s, i, FetchCopying(n, [])).(lock := Some(i))
    ensures CanStep(started, i, Continue) && Step(started, i, Continue) == sized
    ensures CanStep(sized, i, Continue) && Step(sized, i, Continue) == locked
    ensures Inv(locked)
  {
    FetchNext(started, i);
    assert started.pcs[i := FetchSized(n)] == s.pcs[i := FetchSized(n)];
    StepKeepsInv(started, i, Continue);
    FetchNext(sized, i);
    assert sized.pcs[i := FetchCopying(n, [])] == s.pcs[i := FetchCopying(n, [])];
    StepKeepsInv(sized, i, Continue);
    hide Inv, Step, CanStep, FetchPossible;
  }
}
