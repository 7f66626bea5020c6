/** What an answer means, whatever other workers do during the operation. */
module StealAnswers {
  import opened Common
  import opened WordArithmetic
  import opened StealQueue
  import opened WorkStealing
  import opened StealInvariant
  import opened StealSteps
  import opened StealRefinement
  import opened StealRuns
  import opened StealAlone

  /** The worker takes a step that ends its operation with `answer`. */
  ghost predicate Ends(s: State, i: nat, a: Action, answer: Answer) {
    CanStep(s, i, a) && Step(s, i, a).pcs[i] == Idle(answer)
  }

  // ---------------------------------------------------------------- at the step that ends the operation

  /** The answer is of the operation's own kind. */
  predicate OfItsKind(s: State, i: nat, a: Action, answer: Answer)
    requires InRange(s, i)
  {
    var pc := s.pcs[i];
    match answer
    case NoAnswer => false
    case Pushed => pc.PushWritten?
    case PushRefused(v) => (pc.Pushing? && pc.retry && pc.v == v) || (pc.OverflowSeen? && pc.v == v)
    case Popped(_) => pc.PopClaimed?
    case PopNone => pc.Popping?
    case Stole(n) => pc.StealPublishing? && pc.n == n
    case StoleNone => a.StartSteal? || pc.StealSeen?
    case Fetched(n) => pc.FetchCopying? && |pc.taken| == n && !Refills(s, i)
  }

  lemma PushEnds(s: State, i: nat)
    requires InRange(s, i) && (s.pcs[i].Pushing? || s.pcs[i].PushAgain? || s.pcs[i].PushWritten?)
    ensures var pc' := PushStep(s, i).pcs[i]; pc'.Idle? ==> OfItsKind(s, i, Continue, pc'.answer)
  {
    hide PushFits, Queue.SlotOf, WrappingAdd;
  }

  lemma OverflowEnds(s: State, i: nat)
    requires InRange(s, i)
    requires s.pcs[i].OverflowLocked? || s.pcs[i].OverflowSeen? || s.pcs[i].OverflowCopying?
    ensures var pc' := OverflowStep(s, i).pcs[i]; pc'.Idle? ==> OfItsKind(s, i, Continue, pc'.answer)
  {
    hide UnpackTail, WrappingSub, Queue.SlotOf, Wrap, OwnerClaimWord;
  }

  lemma PopEnds(s: State, i: nat)
    requires InRange(s, i) && (s.pcs[i].Popping? || s.pcs[i].PopClaimed?)
    ensures var pc' := PopStep(s, i).pcs[i]; pc'.Idle? ==> OfItsKind(s, i, Continue, pc'.answer)
  {
    hide UnpackTail, Queue.SlotOf, Wrap, OwnerClaimWord;
  }

  lemma StealEnds(s: State, i: nat)
    requires InRange(s, i) && s.pcs[i].HasVictim()
    ensures var pc' := StealStep(s, i).pcs[i]; pc'.Idle? ==> OfItsKind(s, i, Continue, pc'.answer)
  {
    hide UnpackTail, Queue.SlotOf, StealCount, ReadSlots, Wrap, WrappingAdd, ThiefClaimWord, ReleaseWord;
  }

  lemma FetchEnds(s: State, i: nat)
    requires InRange(s, i) && (s.pcs[i].Fetching? || s.pcs[i].FetchSized? || s.pcs[i].FetchCopying?)
    ensures var pc' := FetchStep(s, i).pcs[i]; pc'.Idle? ==> OfItsKind(s, i, Continue, pc'.answer)
  {
    hide FetchPossible, Queue.SlotOf, Wrap, WrappingAdd;
  }

  /** An operation ends with an answer of its own kind. */
  lemma EveryEndAnswers(s: State, i: nat, a: Action, answer: Answer)
    requires Ends(s, i, a, answer)
    ensures OfItsKind(s, i, a, answer)
  {
    var pc := s.pcs[i];
    if a.Continue? {
      hide PushStep, OverflowStep, PopStep, StealStep, FetchStep, OfItsKind, PushFits;
      if pc.Pushing? || pc.PushAgain? || pc.PushWritten? { PushEnds(s, i); }
      else if pc.OverflowLocked? || pc.OverflowSeen? || pc.OverflowCopying? { OverflowEnds(s, i); }
      else if pc.Popping? || pc.PopClaimed? { PopEnds(s, i); }
      else if pc.HasVictim() { StealEnds(s, i); }
      else { FetchEnds(s, i); }
    } else {
      hide UnpackTail, WrappingSub;
    }
  }

  /** A push ends accepted by the step that appends its value. */
  lemma PushedMeans(s: State, i: nat, a: Action)
    requires Inv(s) && Ends(s, i, a, Pushed)
    ensures s.pcs[i].PushWritten? && Refines(s, Step(s, i, a), i, Accept(s.pcs[i].v))
  {
    EveryEndAnswers(s, i, a, Pushed);
    hide Inv, Refines, PushStep;
    PushPublishRefines(s, i);
  }

  /**
    A push ends refused with its own value if the queue was full at its second look, or if
    nothing could be moved to the global queue: no space there, or fewer than two values waiting.
    It changes nothing by ending.
   */
  lemma RefusedMeans(s: State, i: nat, a: Action, v: Value)
    requires Inv(s) && Ends(s, i, a, PushRefused(v))
    ensures |s.global| <= s.globalCapacity
    ensures var pc, q := s.pcs[i], s.queues[i];
            || (pc == Pushing(v, pc.seen, true) && q.pushed - pc.seen.released >= q.Capacity())
            || (pc.OverflowSeen? && pc.v == v && q.tail == pc.seen.word && Overflowing(s, i) == 0)
    ensures Abstract(Step(s, i, a)) == Abstract(s)
  {
    EveryEndAnswers(s, i, a, PushRefused(v));
    assert Free(s) >= 0;
    var pc := s.pcs[i];
    if pc.Pushing? {
      PushFitsIff(s, i);
      PushTryRefines(s, i);
      hide Inv, Abstract, PushFits, Queue.SlotOf;
    } else {
      assert s.queues[i].tail == pc.seen.word by { hide Queue.SlotOf; }
      var n := OverflowClaimRefines(s, i);
      assert n == 0 by {
        var m := OverflowClaimEffect(s, i);
        hide OverflowStep;
      }
      hide Inv, Waiting, OverflowStep;
      ClaimOfNone(Abstract(s), i);
    }
  }

  lemma ClaimOfNone(p: Plain, i: nat)
    requires Legal(p, i, Claim(i, 0))
    ensures Apply(p, i, Claim(i, 0)) == p
  {
    assert p.waiting[i][0..] == p.waiting[i] && p.waiting[i][..0] == [];
  }

  /** A pop ends with the value it held in its hand, which it delivers. */
  lemma PoppedMeans(s: State, i: nat, a: Action, v: Value)
    requires Inv(s) && Ends(s, i, a, Popped(v))
    ensures Hand(s, i) == [v] && Refines(s, Step(s, i, a), i, Deliver)
  {
    EveryEndAnswers(s, i, a, Popped(v));
    PopReadValue(s, i);
    PopReadRefines(s, i);
    var pc, q := s.pcs[i], s.queues[i];
    hide Inv, Refines, PopStep;
    FirstOf(q.log, pc.start, pc.start + 1);
  }

  /** A pop ends without a value if none waited at its last look. */
  lemma PopNoneMeans(s: State, i: nat, a: Action)
    requires Inv(s) && Ends(s, i, a, PopNone)
    ensures s.pcs[i].Popping? && s.queues[i].pushed == s.pcs[i].seen.claimed
    ensures Abstract(Step(s, i, a)) == Abstract(s)
  {
    EveryEndAnswers(s, i, a, PopNone);
    assert WorkerInv(s, i);
    OwnerArithmetic(s.pcs[i].seen, s.queues[i]);
    hide UnpackTail, OwnerClaim;
    PopLookRefines(s, i);
    hide Inv, Abstract;
  }

  /** A steal ends with what it held in its hands, which it adds to its own queue. */
  lemma StoleMeans(s: State, i: nat, a: Action, n: nat)
    requires Inv(s) && Ends(s, i, a, Stole(n))
    ensures n >= 1 && |Hand(s, i)| == n && Refines(s, Step(s, i, a), i, Republish)
  {
    EveryEndAnswers(s, i, a, Stole(n));
    assert WorkerInv(s, i);
    StealPublishShape(s, i);
    StealPublishRefines(s, i);
    hide Inv, Refines, StealStep, ReadSlots;
  }

  /**
    A steal ends without a value if its own queue is full at its start, if nothing waits at the
    victim, or if at its last look another thief was at work there. The one other case is a
    victim that pushed 2^32 values or more since that look.
   */
  lemma StoleNoneMeans(s: State, i: nat, a: Action)
    requires Inv(s) && Ends(s, i, a, StoleNone)
    ensures if a.StartSteal? then Full(s.queues[i])
            else && s.pcs[i].StealSeen? && s.pcs[i].victim < |s.queues|
                 && var seen, from := s.pcs[i].seen, s.queues[s.pcs[i].victim];
                    Waiting(from) == [] || seen.released < seen.claimed || from.pushed - seen.claimed >= U32_RANGE
    ensures Abstract(Step(s, i, a)) == Abstract(s)
  {
    EveryEndAnswers(s, i, a, StoleNone);
    if a.StartSteal? {
      StartOfSteal(s, i, a.victim, a.divider);
      StartRefines(s, i, a);
      hide Inv, Abstract, Step;
    } else {
      StealLookRefines(s, i);
      SeenEmptyOrClaimed(s, i);
      hide Inv, Abstract;
    }
  }

  lemma SeenEmptyOrClaimed(s: State, i: nat)
    requires Inv(s) && InRange(s, i) && s.pcs[i].StealSeen? && StealStep(s, i).pcs[i].Idle?
    ensures var seen, from := s.pcs[i].seen, s.queues[s.pcs[i].victim];
            Waiting(from) == [] || seen.released < seen.claimed || from.pushed - seen.claimed >= U32_RANGE
  {
    assert WorkerInv(s, i) && WorkerInv(s, s.pcs[i].victim);
    var pc, from := s.pcs[i], s.queues[s.pcs[i].victim];
    SeenWords(pc.seen, from);
    assert from.head == Wrap(from.pushed) && pc.seen.claimed <= from.claimed <= from.pushed;
    assert pc.seen.released <= pc.seen.claimed && pc.room > 0 && pc.divider > 0;
    hide Inv, QueueOk, WorkerOk, UnpackTail, StealCount, Wrap;
    if from.pushed - pc.seen.claimed < U32_RANGE { WrappingSubExact(from.pushed, pc.seen.claimed); }
  }

  /** A refill ends with what it held in its hands: as much as it was sized for, unless the global queue ran out. */
  lemma FetchedMeans(s: State, i: nat, a: Action, n: nat)
    requires Inv(s) && Ends(s, i, a, Fetched(n))
    ensures |Hand(s, i)| == n && Refines(s, Step(s, i, a), i, Republish)
    ensures s.pcs[i].FetchCopying? && (n == s.pcs[i].possible || s.global == [])
  {
    EveryEndAnswers(s, i, a, Fetched(n));
    assert WorkerInv(s, i);
    FetchPublishRefines(s, i);
    hide Inv, Refines, FetchStep, QueueOk, Written;
  }

  // ---------------------------------------------------------------- looks in a run

  /** The tail word an operation goes by. */
  function SeenBy(pc: Pc): Option<Seen> {
    match pc
    case Pushing(_, seen, _) => Some(seen)
    case OverflowSeen(_, _, seen) => Some(seen)
    case Popping(seen) => Some(seen)
    case StealSeen(_, _, _, seen) => Some(seen)
    case StealCounted(_, _, _, seen, _, _) => Some(seen)
    case StealReleaseSeen(_, _, _, seen) => Some(seen)
    case Fetching(seen) => Some(seen)
    case _ => None
  }

  /** The queue it is the tail word of. */
  function LookedAt(pc: Pc, i: nat): nat { if pc.HasVictim() then pc.victim else i }

  /** At `u` the queue looked at had the tail that worker `i` goes by at `s`; its own head has not moved. */
  ghost predicate Look(u: State, s: State, i: nat) {
    && InRange(s, i) && |u.queues| == |s.queues| && SeenBy(s.pcs[i]).Some?
    && Load(u.queues[LookedAt(s.pcs[i], i)]) == SeenBy(s.pcs[i]).value
    && SameHead(u, s, i)
    && (s.pcs[i].Pushing? ==> i < |u.pcs| && u.pcs[i] == s.pcs[i])
  }

  ghost predicate SameHead(u: State, s: State, i: nat)
    requires i < |u.queues| && i < |s.queues|
  {
    u.queues[i].pushed == s.queues[i].pushed && u.queues[i].order == s.queues[i].order
  }

  /** A run all through which worker `i` is inside its operation. */
  ghost predicate BusyRun(u: State, events: seq<Event>, i: nat)
    decreases |events|
  {
    && InRange(u, i) && !u.pcs[i].Idle?
    && (events != [] ==> CanHappen(u, events[0]) && BusyRun(Happen(u, events[0]), events[1..], i))
  }

  ghost predicate During(u: State, s: State, i: nat) {
    exists events :: BusyRun(u, events, i) && IsRun(u, events) && After(u, events) == s
  }

  lemma {:induction false} BusyRunOn(u: State, events: seq<Event>, i: nat, ev: Event)
    requires BusyRun(u, events, i) && IsRun(u, events) && CanHappen(After(u, events), ev)
    requires var s' := Happen(After(u, events), ev); InRange(s', i) && !s'.pcs[i].Idle?
    ensures var more := events + [ev];
            BusyRun(u, more, i) && IsRun(u, more) && After(u, more) == Happen(After(u, events), ev)
    decreases |events|
  {
    hide CanHappen, Happen, InRange;
    var more := events + [ev];
    if events == [] {
      assert more == [ev] && more[1..] == [];
      assert BusyRun(Happen(u, ev), [], i) && IsRun(Happen(u, ev), []) && After(Happen(u, ev), []) == Happen(u, ev);
    } else {
      BusyRunOn(Happen(u, events[0]), events[1..], i, ev);
      assert more[0] == events[0] && more[1..] == events[1..] + [ev];
    }
  }

  lemma DuringItself(s: State, i: nat)
    requires InRange(s, i) && !s.pcs[i].Idle?
    ensures During(s, s, i)
  {
    assert BusyRun(s, [], i) && IsRun(s, []) && After(s, []) == s;
  }

  lemma DuringOn(u: State, s: State, i: nat, ev: Event, s': State)
    requires During(u, s, i) && Leads(s, ev, s') && InRange(s', i) && !s'.pcs[i].Idle?
    ensures During(u, s', i)
  {
    var events :| BusyRun(u, events, i) && IsRun(u, events) && After(u, events) == s;
    BusyRunOn(u, events, i, ev);
    hide BusyRun, IsRun, After, CanHappen, Happen;
    assert BusyRun(u, events + [ev], i);
  }

  /** After a step a worker goes by the tail as it is now, or by the one it went by before. */
  ghost predicate GoesByALook(s: State, s': State, i: nat)
    requires InRange(s, i)
  {
    && InRange(s', i) && |s'.queues| == |s.queues|
    && (SeenBy(s'.pcs[i]).Some? ==>
          && SameHead(s, s', i)
          && (Look(s', s', i) ||
              (&& SeenBy(s'.pcs[i]) == SeenBy(s.pcs[i]) && LookedAt(s'.pcs[i], i) == LookedAt(s.pcs[i], i)
               && (s'.pcs[i].Pushing? ==> s'.pcs[i] == s.pcs[i]))))
  }

  /** What another worker sees of a step: neither its point nor its head moves. */
  ghost predicate OthersKeepHeads(s: State, s': State, i: nat)
    requires InRange(s, i)
  {
    && |s'.queues| == |s.queues| == |s'.pcs|
    && (forall k :: 0 <= k < |s.queues| && k != i ==>
          s'.pcs[k] == s.pcs[k] && SameHead(s, s', k))
  }

  lemma PushLooks(s: State, i: nat)
    requires InRange(s, i) && (s.pcs[i].Pushing? || s.pcs[i].PushAgain? || s.pcs[i].PushWritten?)
    ensures GoesByALook(s, PushStep(s, i), i)
  {
    hide PushFits, Queue.SlotOf, WrappingAdd;
  }

  lemma PushKeepsHeads(s: State, i: nat)
    requires InRange(s, i) && (s.pcs[i].Pushing? || s.pcs[i].PushAgain? || s.pcs[i].PushWritten?)
    ensures OthersKeepHeads(s, PushStep(s, i), i)
  {
    hide PushFits, Queue.SlotOf, WrappingAdd;
  }

  lemma OverflowLooks(s: State, i: nat)
    requires InRange(s, i) && (s.pcs[i].OverflowLocked? || s.pcs[i].OverflowSeen? || s.pcs[i].OverflowCopying?)
    ensures GoesByALook(s, OverflowStep(s, i), i)
  {
    hide UnpackTail, WrappingSub, Queue.SlotOf, Wrap, OwnerClaimWord;
  }

  lemma OverflowKeepsHeads(s: State, i: nat)
    requires InRange(s, i) && (s.pcs[i].OverflowLocked? || s.pcs[i].OverflowSeen? || s.pcs[i].OverflowCopying?)
    ensures OthersKeepHeads(s, OverflowStep(s, i), i)
  {
    hide UnpackTail, WrappingSub, Queue.SlotOf, Wrap, OwnerClaimWord;
  }

  lemma PopLooks(s: State, i: nat)
    requires InRange(s, i) && (s.pcs[i].Popping? || s.pcs[i].PopClaimed?)
    ensures GoesByALook(s, PopStep(s, i), i)
  {
    hide UnpackTail, Queue.SlotOf, Wrap, OwnerClaimWord;
  }

  lemma PopKeepsHeads(s: State, i: nat)
    requires InRange(s, i) && (s.pcs[i].Popping? || s.pcs[i].PopClaimed?)
    ensures OthersKeepHeads(s, PopStep(s, i), i)
  {
    hide UnpackTail, Queue.SlotOf, Wrap, OwnerClaimWord;
  }

  lemma StealLooks(s: State, i: nat)
    requires InRange(s, i) && s.pcs[i].HasVictim()
    ensures GoesByALook(s, StealStep(s, i), i)
  {
    hide UnpackTail, Queue.SlotOf, StealCount, ReadSlots, Wrap, WrappingAdd, ThiefClaimWord, ReleaseWord;
  }

  lemma StealKeepsHeads(s: State, i: nat)
    requires InRange(s, i) && s.pcs[i].HasVictim()
    ensures OthersKeepHeads(s, StealStep(s, i), i)
  {
    hide UnpackTail, Queue.SlotOf, StealCount, ReadSlots, Wrap, WrappingAdd, ThiefClaimWord, ReleaseWord;
  }

  lemma FetchLooks(s: State, i: nat)
    requires InRange(s, i) && (s.pcs[i].Fetching? || s.pcs[i].FetchSized? || s.pcs[i].FetchCopying?)
    ensures GoesByALook(s, FetchStep(s, i), i)
  {
    hide FetchPossible, Queue.SlotOf, Wrap, WrappingAdd;
  }

  lemma FetchKeepsHeads(s: State, i: nat)
    requires InRange(s, i) && (s.pcs[i].Fetching? || s.pcs[i].FetchSized? || s.pcs[i].FetchCopying?)
    ensures OthersKeepHeads(s, FetchStep(s, i), i)
  {
    hide FetchPossible, Queue.SlotOf, Wrap, WrappingAdd;
  }

  lemma StepLooks(s: State, i: nat, a: Action)
    requires CanStep(s, i, a)
    ensures GoesByALook(s, Step(s, i, a), i) && OthersKeepHeads(s, Step(s, i, a), i)
  {
    var pc := s.pcs[i];
    if a.Continue? {
      hide PushStep, OverflowStep, PopStep, StealStep, FetchStep, GoesByALook, OthersKeepHeads, PushFits;
      if pc.Pushing? || pc.PushAgain? || pc.PushWritten? { PushLooks(s, i); PushKeepsHeads(s, i); }
      else if pc.OverflowLocked? || pc.OverflowSeen? || pc.OverflowCopying? {
        OverflowLooks(s, i);
        OverflowKeepsHeads(s, i);
      }
      else if pc.Popping? || pc.PopClaimed? { PopLooks(s, i); PopKeepsHeads(s, i); }
      else if pc.HasVictim() { StealLooks(s, i); StealKeepsHeads(s, i); }
      else { FetchLooks(s, i); FetchKeepsHeads(s, i); }
    } else {
      hide UnpackTail, WrappingSub;
    }
  }

  /** Every tail a worker goes by was looked at in the run, during its operation. */
  ghost predicate Looked(start: State, s: State, i: nat) {
    InRange(s, i) && (SeenBy(s.pcs[i]).Some? ==> exists u :: Reaches(start, u) && During(u, s, i) && Look(u, s, i))
  }

  lemma LookedStays(start: State, s: State, i: nat, ev: Event)
    requires Looked(start, s, i) && Reaches(start, s) && CanHappen(s, ev)
    ensures Looked(start, Happen(s, ev), i)
  {
    var s' := Happen(s, ev);
    if ev.Worker? {
      StepLooks(s, ev.i, ev.a);
      hide Step;
    }
    assert InRange(s', i);
    ReachesOn(start, s, ev, s');
    hide Happen, CanHappen, Reaches, During, InRange;
    if SeenBy(s'.pcs[i]).Some? {
      if Look(s', s', i) { DuringItself(s', i); }
      else {
        var u :| Reaches(start, u) && During(u, s, i) && Look(u, s, i);
        DuringOn(u, s, i, ev, s');
        assert Look(u, s', i);
      }
    }
  }

  lemma ReachesOn(start: State, s: State, ev: Event, s': State)
    requires Reaches(start, s) && Leads(s, ev, s')
    ensures Reaches(start, s')
  {
    hide Reaches;
    ReachesItself(s');
    ReachesBefore(s, ev, s', s');
    ReachesJoin(start, s, s');
  }

  lemma {:induction false} RunLooks(start: State, s: State, events: seq<Event>, i: nat)
    requires Reaches(start, s) && Looked(start, s, i) && IsRun(s, events)
    ensures Reaches(start, After(s, events)) && Looked(start, After(s, events), i)
    decreases |events|
  {
    hide Looked, Reaches, CanHappen, Happen;
    if events != [] {
      var s' := Happen(s, events[0]);
      LookedStays(start, s, i, events[0]);
      ReachesOn(start, s, events[0], s');
      RunLooks(start, s', events[1..], i);
    }
  }

  /** A state of the run in which the worker was inside its present operation, its head where it is now. */
  ghost predicate WasDuring(start: State, u: State, s: State, i: nat) {
    Reaches(start, u) && During(u, s, i) && |u.queues| == |s.queues| && i < |s.queues| && SameHead(u, s, i)
  }

  /** During the second try of the push its queue was full. */
  ghost predicate WasFull(start: State, s: State, i: nat) {
    exists u :: WasDuring(start, u, s, i) && Full(u.queues[i]) && i < |u.pcs| && u.pcs[i].Pushing? && u.pcs[i].retry
  }

  /** During the operation nothing waited in the worker's queue. */
  ghost predicate WasEmpty(start: State, s: State, i: nat) {
    exists u :: WasDuring(start, u, s, i) && Waiting(u.queues[i]) == []
  }

  /** During the operation another thief was at work on queue `j`. */
  ghost predicate WasClaimed(start: State, s: State, i: nat, j: nat) {
    exists u :: WasDuring(start, u, s, i) && j < |u.queues| && u.queues[j].released < u.queues[j].claimed
  }

  lemma RefusedIsTrue(start: State, s: State, i: nat, a: Action, v: Value)
    requires Inv(s) && Looked(start, s, i) && Ends(s, i, a, PushRefused(v))
    ensures |s.global| <= s.globalCapacity && (Overflowing(s, i) == 0 || WasFull(start, s, i))
  {
    RefusedMeans(s, i, a, v);
    hide Inv, Ends, Reaches, During, Overflowing;
    if s.pcs[i].Pushing? {
      var u :| Reaches(start, u) && During(u, s, i) && Look(u, s, i);
      assert WasDuring(start, u, s, i) && Full(u.queues[i]);
    }
  }

  lemma PopNoneIsTrue(start: State, s: State, i: nat, a: Action)
    requires Inv(s) && Looked(start, s, i) && Ends(s, i, a, PopNone)
    ensures WasEmpty(start, s, i)
  {
    PopNoneMeans(s, i, a);
    hide Inv, Ends, Reaches, During;
    var u :| Reaches(start, u) && During(u, s, i) && Look(u, s, i);
    assert WasDuring(start, u, s, i) && Waiting(u.queues[i]) == [];
  }

  lemma StoleNoneIsTrue(start: State, s: State, i: nat, a: Action)
    requires Inv(s) && Looked(start, s, i) && Ends(s, i, a, StoleNone)
    ensures NothingToSteal(start, s, i, a)
  {
    StoleNoneMeans(s, i, a);
    hide Inv, Ends, Reaches, During, Waiting;
    if !a.StartSteal? {
      var seen, j := s.pcs[i].seen, s.pcs[i].victim;
      var u :| Reaches(start, u) && During(u, s, i) && Look(u, s, i);
      if seen.released < seen.claimed { assert WasDuring(start, u, s, i) && u.queues[j].released < u.queues[j].claimed; }
    }
  }

  /** Why a steal may have none; the last case is a victim that pushed 2^32 values since the thief's look. */
  ghost predicate NothingToSteal(start: State, s: State, i: nat, a: Action)
    requires InRange(s, i)
  {
    if a.StartSteal? then Full(s.queues[i])
    else && s.pcs[i].StealSeen?
         && var j := s.pcs[i].victim;
            || Waiting(s.queues[j]) == [] || WasClaimed(start, s, i, j)
            || s.queues[j].pushed - s.pcs[i].seen.claimed >= U32_RANGE
  }

  /**
    In every run, however the workers interleave, of a worker that ends its operation: a push is
    refused only if at its second try the queue was full, or if nothing can be moved to the
    global queue; a pop has none only if during it nothing waited; a steal has
    none only if the thief is full, nothing waits at the victim, or during it another thief was
    at work there.
   */
  lemma AnswersAreTrue(start: State, events: seq<Event>, i: nat, a: Action, answer: Answer)
    requires Initial(start) && IsRun(start, events) && RefillsFit(start, events) && i < |start.queues|
    requires Ends(After(start, events), i, a, answer)
    ensures var s := After(start, events);
            match answer
            case NoAnswer => false
            case PushRefused(_) => |s.global| <= s.globalCapacity && (Overflowing(s, i) == 0 || WasFull(start, s, i))
            case PopNone => WasEmpty(start, s, i)
            case StoleNone => InRange(s, i) && NothingToSteal(start, s, i, a)
            case _ => true
  {
    InitialInv(start);
    ReachesItself(start);
    assert Looked(start, start, i);
    hide Inv, Initial, IsRun, After, RefillsFit, Reaches, Looked, Ends;
    var plain := RunRefines(start, events);
    RunLooks(start, start, events, i);
    var s := After(start, events);
    EveryEndAnswers(s, i, a, answer);
    match answer
    case PushRefused(v) => RefusedIsTrue(start, s, i, a, v);
    case PopNone => PopNoneIsTrue(start, s, i, a);
    case StoleNone =>
      StoleNoneIsTrue(start, s, i, a);
    case _ =>
  }
}
