/** Whole runs of the work-stealing system, in any interleaving. */
module StealRuns {
  import opened Common
  import opened WordArithmetic
  import opened StealQueue
  import opened WorkStealing
  import opened StealInvariant
  import opened StealSteps
  import opened StealRefinement

  datatype Event = Worker(i: nat, a: Action) | PushGlobal(v: Value) | PopGlobal

  /** Pushing to and popping from the global queue waits for its mutex. */
  predicate CanHappen(s: State, ev: Event) {
    if ev.Worker? then CanStep(s, ev.i, ev.a) else s.lock.None?
  }

  function Happen(s: State, ev: Event): State
    requires CanHappen(s, ev)
  {
    match ev
    case Worker(i, a) => Step(s, i, a)
    case PushGlobal(v) => GlobalPush(s, v)
    case PopGlobal => GlobalPop(s)
  }

  predicate IsRun(s: State, events: seq<Event>)
    decreases |events|
  {
    events != [] ==> CanHappen(s, events[0]) && IsRun(Happen(s, events[0]), events[1..])
  }

  function After(s: State, events: seq<Event>): State
    requires IsRun(s, events)
    decreases |events|
  {
    if events == [] then s else After(Happen(s, events[0]), events[1..])
  }

  ghost predicate Reaches(s: State, t: State) {
    exists events :: IsRun(s, events) && After(s, events) == t
  }

  lemma ReachesItself(s: State)
    ensures Reaches(s, s)
  {
    assert IsRun(s, []) && After(s, []) == s;
  }

  /** One event leads from `s` to `t`. */
  ghost predicate Leads(s: State, ev: Event, t: State) {
    CanHappen(s, ev) && Happen(s, ev) == t
  }

  lemma ReachesBefore(s: State, ev: Event, t: State, u: State)
    requires Leads(s, ev, t) && Reaches(t, u)
    ensures Reaches(s, u)
  {
    var rest :| IsRun(t, rest) && After(t, rest) == u;
    var events := [ev] + rest;
    assert events[1..] == rest;
    assert IsRun(s, events) && After(s, events) == u;
  }

  lemma {:induction false} RunsJoin(s: State, events: seq<Event>, more: seq<Event>)
    requires IsRun(s, events) && IsRun(After(s, events), more)
    ensures IsRun(s, events + more) && After(s, events + more) == After(After(s, events), more)
    decreases |events|
  {
    if events == [] {
      assert events + more == more;
    } else {
      RunsJoin(Happen(s, events[0]), events[1..], more);
      assert (events + more)[0] == events[0] && (events + more)[1..] == events[1..] + more;
    }
  }

  lemma ReachesJoin(s: State, t: State, u: State)
    requires Reaches(s, t) && Reaches(t, u)
    ensures Reaches(s, u)
  {
    var events :| IsRun(s, events) && After(s, events) == t;
    var more :| IsRun(t, more) && After(t, more) == u;
    RunsJoin(s, events, more);
  }

  /** Every slot a refill of the run writes is free beside the values not yet released. */
  ghost predicate RefillsFit(s: State, events: seq<Event>)
    requires IsRun(s, events)
    decreases |events|
  {
    events != [] ==> EventFits(s, events[0]) && RefillsFit(Happen(s, events[0]), events[1..])
  }

  ghost predicate EventFits(s: State, ev: Event)
    requires CanHappen(s, ev)
  {
    ev.Worker? ==> RefillFits(s, ev.i, ev.a)
  }

  predicate FreshQueue(q: Queue) {
    && q.order <= 31 && |q.data| == q.Capacity()
    && q.head == 0 && q.tail == 0
    && q.pushed == 0 && q.claimed == 0 && q.released == 0 && q.log == []
  }

  predicate Initial(s: State) {
    && |s.pcs| == |s.queues|
    && (forall k :: 0 <= k < |s.queues| ==> FreshQueue(s.queues[k]) && s.pcs[k] == Idle(NoAnswer))
    && s.global == [] && s.lock.None? && !s.overflowFailed
    && s.accepted == multiset{} && s.delivered == multiset{}
  }

  lemma FreshQueueOk(q: Queue)
    requires FreshQueue(q)
    ensures QueueOk(q)
  {
    assert Or(0, 0) == 0;
  }

  lemma InitialInv(s: State)
    requires Initial(s)
    ensures Inv(s)
  {
    forall k | 0 <= k < |s.queues| ensures WorkerInv(s, k) {
      FreshQueueOk(s.queues[k]);
      hide QueueOk, FreshQueue;
    }
  }

  /** Traffic on the global queue from outside the workers, while no worker is in the critical section. */
  lemma GlobalKeeps(s: State, s': State)
    requires Inv(s) && s.lock.None? && s' == s.(global := s'.global, accepted := s'.accepted, delivered := s'.delivered)
    requires |s'.global| <= s.globalCapacity
    ensures Inv(s')
  {
    forall k | 0 <= k < |s.queues| ensures WorkerInv(s', k) {
      assert WorkerInv(s, k);
      var pc := s.pcs[k];
      assert !pc.HoldsLock();
      hide QueueOk, Later, WorkerOk;
      SameIsLater(s.queues[k]);
      SameIsLater(Source(s, k));
      if pc.HasVictim() {
        ThiefUndisturbed(pc, s.queues[k], s.queues[k], Source(s, k), Source(s, k), Free(s), Free(s'));
      } else {
        OwnerUndisturbed(pc, s.queues[k], s.queues[k], Free(s), Free(s'));
      }
    }
  }

  // ---------------------------------------------------------------- the plain system's runs

  datatype PlainEvent = By(i: nat, m: Move) | Enter(v: Value) | Leave | Refused

  predicate PlainCan(p: Plain, ev: PlainEvent) {
    (ev.By? ==> Legal(p, ev.i, ev.m)) && (ev.Leave? ==> p.global != [])
  }

  function PlainHappen(p: Plain, ev: PlainEvent): Plain
    requires PlainCan(p, ev)
  {
    match ev
    case By(i, m) => Apply(p, i, m)
    case Enter(v) => p.(global := p.global + [v], accepted := p.accepted + multiset{v})
    case Leave => p.(global := p.global[1..], delivered := p.delivered + multiset{p.global[0]})
    case Refused => p
  }

  predicate PlainRun(p: Plain, events: seq<PlainEvent>)
    decreases |events|
  {
    events != [] ==> PlainCan(p, events[0]) && PlainRun(PlainHappen(p, events[0]), events[1..])
  }

  function PlainAfter(p: Plain, events: seq<PlainEvent>): Plain
    requires PlainRun(p, events)
    decreases |events|
  {
    if events == [] then p else PlainAfter(PlainHappen(p, events[0]), events[1..])
  }

  /** One event, its invariant and its plain counterpart. */
  lemma EventRefines(s: State, ev: Event) returns (pe: PlainEvent)
    requires Inv(s) && CanHappen(s, ev) && EventFits(s, ev)
    ensures Inv(Happen(s, ev))
    ensures PlainCan(Abstract(s), pe) && Abstract(Happen(s, ev)) == PlainHappen(Abstract(s), pe)
    ensures match ev
            case Worker(i, _) => pe.By? && pe.i == i
            case PushGlobal(v) => pe == if |s.global| < s.globalCapacity then Enter(v) else Refused
            case PopGlobal => pe == if s.global != [] then Leave else Refused
  {
    if ev.Worker? {
      hide Inv, Step, Abstract, Apply, Legal;
      StepKeepsInv(s, ev.i, ev.a);
      var m := StepRefines(s, ev.i, ev.a);
      pe := By(ev.i, m);
    } else {
      var s' := Happen(s, ev);
      assert Free(s) >= 0;
      hide Inv;
      if s' != s { GlobalKeeps(s, s'); }
      pe := if ev.PushGlobal? then if |s.global| < s.globalCapacity then Enter(ev.v) else Refused
            else if s.global != [] then Leave else Refused;
      assert forall k :: 0 <= k < |s.queues| ==> Hand(s', k) == Hand(s, k);
      hide Hand, Waiting;
    }
  }

  /** Every run is a run of the plain system, and keeps the invariant. */
  lemma {:induction false} RunRefines(s: State, events: seq<Event>) returns (plain: seq<PlainEvent>)
    requires Inv(s) && IsRun(s, events) && RefillsFit(s, events)
    ensures Inv(After(s, events))
    ensures PlainRun(Abstract(s), plain) && PlainAfter(Abstract(s), plain) == Abstract(After(s, events))
    decreases |events|
  {
    hide Inv, Abstract, PlainHappen, PlainCan, Happen, CanHappen, EventFits;
    if events == [] {
      plain := [];
    } else {
      var pe := EventRefines(s, events[0]);
      var rest := RunRefines(Happen(s, events[0]), events[1..]);
      plain := [pe] + rest;
      assert plain[1..] == rest;
    }
  }

  // ---------------------------------------------------------------- conservation

  function Count(values: seq<Value>, e: Value): nat { multiset(values)[e] }

  function Sum(parts: seq<seq<Value>>, e: Value): nat {
    if parts == [] then 0 else Count(parts[0], e) + Sum(parts[1..], e)
  }

  /** `e` was accepted as often as it was delivered and is still held somewhere. */
  ghost predicate Balanced(p: Plain, e: Value) {
    p.accepted[e] == p.delivered[e] + Count(p.global, e) + Sum(p.waiting, e) + Sum(p.hands, e)
  }

  lemma {:induction false} SumUpdate(parts: seq<seq<Value>>, k: nat, part: seq<Value>, e: Value)
    requires k < |parts|
    ensures Sum(parts[k := part], e) + Count(parts[k], e) == Sum(parts, e) + Count(part, e)
  {
    hide Count;
    if k == 0 {
      assert parts[0 := part][1..] == parts[1..];
    } else {
      SumUpdate(parts[1..], k - 1, part, e);
      assert parts[k := part][1..] == parts[1..][k - 1 := part];
    }
  }

  lemma CountJoin(a: seq<Value>, b: seq<Value>, e: Value)
    ensures Count(a + b, e) == Count(a, e) + Count(b, e)
  {
  }

  lemma CountSplit(a: seq<Value>, n: nat, e: Value)
    requires n <= |a|
    ensures Count(a, e) == Count(a[..n], e) + Count(a[n..], e)
  {
    assert a == a[..n] + a[n..];
  }

  lemma CountAdded(m: multiset<Value>, v: Value, e: Value)
    ensures (m + multiset{v})[e] == m[e] + Count([v], e)
    ensures Count([], e) == 0
  {
  }

  lemma ApplyBalances(p: Plain, i: nat, m: Move, e: Value)
    requires Legal(p, i, m) && Balanced(p, e)
    ensures Balanced(Apply(p, i, m), e)
  {
    hide Count, Sum;
    var h, w := p.hands[i], p.waiting[i];
    CountAdded(p.accepted, 0, e);
    match m
    case Quiet =>
    case Accept(v) =>
      CountAdded(p.accepted, v, e);
      CountJoin(w, [v], e);
      SumUpdate(p.waiting, i, w + [v], e);
    case Claim(k, n) =>
      CountSplit(p.waiting[k], n, e);
      SumUpdate(p.waiting, k, p.waiting[k][n..], e);
      SumUpdate(p.hands, i, p.waiting[k][..n], e);
    case Republish =>
      CountJoin(w, h, e);
      SumUpdate(p.waiting, i, w + h, e);
      SumUpdate(p.hands, i, [], e);
    case Spill =>
      CountSplit(h, 1, e);
      CountJoin(p.global, [h[0]], e);
      assert h[..1] == [h[0]];
      SumUpdate(p.hands, i, h[1..], e);
    case Refill =>
      CountSplit(p.global, 1, e);
      CountJoin(h, [p.global[0]], e);
      assert p.global[..1] == [p.global[0]];
      SumUpdate(p.hands, i, h + [p.global[0]], e);
    case Deliver =>
      CountAdded(p.delivered, h[0], e);
      assert h == [h[0]];
      SumUpdate(p.hands, i, [], e);
  }

  lemma HappenBalances(p: Plain, ev: PlainEvent, e: Value)
    requires PlainCan(p, ev) && Balanced(p, e)
    ensures Balanced(PlainHappen(p, ev), e)
  {
    hide Count, Sum;
    match ev
    case By(i, m) => ApplyBalances(p, i, m, e);
    case Enter(v) =>
      CountAdded(p.accepted, v, e);
      CountJoin(p.global, [v], e);
    case Leave =>
      CountAdded(p.delivered, p.global[0], e);
      CountSplit(p.global, 1, e);
      assert p.global[..1] == [p.global[0]];
    case Refused =>
  }

  lemma {:induction false} RunBalances(p: Plain, events: seq<PlainEvent>, e: Value)
    requires PlainRun(p, events) && Balanced(p, e)
    ensures Balanced(PlainAfter(p, events), e)
    decreases |events|
  {
    if events != [] {
      HappenBalances(p, events[0], e);
      hide Balanced;
      RunBalances(PlainHappen(p, events[0]), events[1..], e);
    }
  }

  lemma {:induction false} SumOfEmpty(parts: seq<seq<Value>>, e: Value)
    requires forall k :: 0 <= k < |parts| ==> parts[k] == []
    ensures Sum(parts, e) == 0
  {
    if parts != [] {
      assert forall k :: 0 <= k < |parts| - 1 ==> parts[1..][k] == parts[k + 1];
      SumOfEmpty(parts[1..], e);
    }
  }

  lemma InitialBalances(s: State, e: Value)
    requires Initial(s)
    ensures Balanced(Abstract(s), e)
  {
    SumOfEmpty(Abstract(s).waiting, e);
    SumOfEmpty(Abstract(s).hands, e);
  }

  lemma ReachableBalances(s: State, events: seq<Event>, e: Value)
    requires Initial(s) && IsRun(s, events) && RefillsFit(s, events)
    ensures Balanced(Abstract(After(s, events)), e)
  {
    InitialInv(s);
    InitialBalances(s, e);
    hide Inv, Initial, Balanced, Abstract;
    var plain := RunRefines(s, events);
    RunBalances(Abstract(s), plain, e);
  }

  /** No value is left anywhere in the system. */
  predicate Drained(s: State) {
    && s.global == []
    && |s.pcs| == |s.queues|
    && (forall k :: 0 <= k < |s.queues| ==> s.pcs[k].Idle? && s.queues[k].claimed == s.queues[k].pushed)
  }

  /**
    From any start, whatever the interleaving of pushes, pops, steals, overflows and refills
    that write no slot still held by a thief:
    nothing is delivered twice or invented, once the system is drained nothing is lost, and no
    value taken out of a local queue is ever refused by the global one.
   */
  lemma NothingLostOrDuplicated(s: State, events: seq<Event>)
    requires Initial(s) && IsRun(s, events) && RefillsFit(s, events)
    ensures var t := After(s, events);
            && t.delivered <= t.accepted
            && (Drained(t) ==> t.delivered == t.accepted)
            && !t.overflowFailed
            && |t.global| <= t.globalCapacity
            && (forall k :: 0 <= k < |t.pcs| && t.pcs[k].OverflowCopying? && t.pcs[k].done < t.pcs[k].n ==>
                  |t.global| < t.globalCapacity)
  {
    var t := After(s, events);
    forall e ensures t.delivered[e] <= t.accepted[e] && (Drained(t) ==> t.delivered[e] == t.accepted[e]) {
      ReachableBalances(s, events, e);
      if Drained(t) { DrainedHoldsNothing(t, e); }
    }
    InitialInv(s);
    var plain := RunRefines(s, events);
    forall k | 0 <= k < |t.pcs| && t.pcs[k].OverflowCopying? && t.pcs[k].done < t.pcs[k].n
      ensures |t.global| < t.globalCapacity
    {
      assert WorkerInv(t, k);
      OverflowCopyFacts(t, k);
    }
  }

  lemma DrainedHoldsNothing(t: State, e: Value)
    requires Drained(t)
    ensures var p := Abstract(t); Count(p.global, e) + Sum(p.waiting, e) + Sum(p.hands, e) == 0
  {
    SumOfEmpty(Abstract(t).waiting, e);
    SumOfEmpty(Abstract(t).hands, e);
  }

  // ---------------------------------------------------------------- the refill's room

  /** The slot of cursor `y` is none of those between the last release and `y`. */
  ghost predicate Spares(q: Queue, y: nat) {
    forall x :: q.released <= x < y ==> Spot(q.order, x) != Spot(q.order, y)
  }

  lemma SparesIff(q: Queue, y: nat)
    requires q.released <= y <= q.released + q.Capacity()
    ensures Spares(q, y) <==> y < q.released + q.Capacity()
  {
    if y < q.released + q.Capacity() {
      hide Spot;
      forall x | q.released <= x < y ensures Spot(q.order, x) != Spot(q.order, y) { SpotsDistinct(q.order, x, y); }
    } else {
      SpotRepeats(q.order, q.released);
      hide Spot, Pow2;
      assert q.released < y;
    }
  }

  lemma SpotRepeats(order: nat, x: nat)
    ensures Spot(order, x + Pow2(order)) == Spot(order, x)
  {
    hide Pow2;
    ModUnique(x + Pow2(order), Pow2(order), x / Pow2(order) + 1, x % Pow2(order));
  }

  /** A refill is sized by the global queue and by the space after the claimed values, as loaded. */
  lemma RefillSize(s: State, i: nat)
    requires Inv(s) && InRange(s, i) && s.pcs[i].Fetching?
    ensures var q, seen := s.queues[i], s.pcs[i].seen;
            && q.pushed - seen.claimed <= q.Capacity()
            && FetchPossible(s, q, seen) == Min(|s.global|, q.Capacity() - (q.pushed - seen.claimed))
  {
    assert WorkerInv(s, i);
    OwnerArithmetic(s.pcs[i].seen, s.queues[i]);
    hide Intact, Wrap, PackTail, WrappingSub, UnpackTail, Pow2;
  }

  /**
    The slot a refill writes is never one of a value nobody has claimed. It spares every value
    not yet released exactly if it fits beside them; with no thief at work on the queue it does.
   */
  lemma RefillSparesIff(s: State, i: nat)
    requires Inv(s) && InRange(s, i) && Refills(s, i)
    ensures var q := s.queues[i];
            var y := q.pushed + |s.pcs[i].taken|;
            && y < q.claimed + q.Capacity()
            && (Spares(q, y) <==> RefillFits(s, i, Continue))
            && (q.claimed == q.released ==> RefillFits(s, i, Continue))
  {
    assert WorkerInv(s, i);
    var q := s.queues[i];
    SparesIff(q, q.pushed + |s.pcs[i].taken|);
    hide Spares, Intact, Written, Wrap, PackTail, Pow2;
  }
}
