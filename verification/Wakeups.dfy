/**
  Why no task is left behind: the parked list, the searching count, the recheck of the last
  searcher and the notifications, with the work queues as counts. Queue 0 is the global one,
  queue `1 + i` the local one of worker `i`.
 */
module Wakeups {
  import opened Common
  import opened Searching

  /**
    `checked` has for a worker in the park section how many queues it has found empty since it
    was told it was the last searcher. `dispatching` workers came back from the IO wait they
    parked on and wake the tasks of its events, still on the parked list. `notified` workers go
    on instead of sleeping. `pushers`
    have queued a task and not yet looked at the counter, `notifiers` are about to take a worker
    off the parked list (-1 stands for a thread that is no worker), `toUnpark` are workers about
    to be unparked.
   */
  datatype System = System(sched: Scheduler, queues: seq<nat>, checked: seq<nat>,
                           dispatching: seq<bool>, notified: seq<bool>,
                           pushers: seq<int>, notifiers: seq<int>, toUnpark: seq<nat>)

  datatype Event =
    | SpawnOutside
    | SpawnInside(i: nat, queue: nat)
    | Take(i: nat, queue: nat)
    | Shift(i: nat, from: nat, to: nat)
    | Nudge(i: nat)
    | PusherLooks(p: nat) | NotifierTakes(p: nat) | Unpark(p: nat)
    | Schedule(a: Action)
    | Recheck(i: nat)
    | IoReturns(i: nat)
    | WakeUp(i: nat)

  predicate Sized(s: System) {
    && |s.queues| == |s.sched.workers| + 1
    && |s.checked| == |s.dispatching| == |s.notified| == |s.sched.workers|
  }

  predicate Awake(s: System, i: nat)
    requires i < |s.sched.workers|
  {
    s.sched.workers[i].Executing? || s.sched.workers[i].Searcher?
  }

  /** In the park section and past every check. */
  predicate PastChecks(s: System, i: nat)
    requires Sized(s) && i < |s.sched.workers|
  {
    s.sched.workers[i].Parked? && (s.sched.workers[i].last ==> s.checked[i] >= |s.queues|)
  }

  predicate Dispatching(s: System, i: nat)
    requires Sized(s) && i < |s.sched.workers|
  {
    s.sched.workers[i].Parked? && s.dispatching[i]
  }

  /** About to block, or blocked. */
  predicate Asleep(s: System, i: nat)
    requires Sized(s) && i < |s.sched.workers|
  {
    PastChecks(s, i) && !s.dispatching[i]
  }

  predicate CanHappen(s: System, ev: Event) {
    && Sized(s)
    && match ev
       case SpawnOutside => true
       case SpawnInside(i, k) =>
         && i < |s.sched.workers| && (s.sched.workers[i].Executing? || Dispatching(s, i))
         && (k == 0 || k == i + 1)
       case Take(i, k) => i < |s.sched.workers| && Awake(s, i) && k < |s.queues| && s.queues[k] > 0
       case Shift(i, from, to) =>
         && i < |s.sched.workers| && (Awake(s, i) || Dispatching(s, i))
         && from < |s.queues| && s.queues[from] > 0 && to < |s.queues|
       case Nudge(i) => i < |s.sched.workers| && s.sched.workers[i].Executing?
       case PusherLooks(p) => p < |s.pushers|
       case NotifierTakes(p) => p < |s.notifiers| && !s.sched.lock
       case Unpark(p) => p < |s.toUnpark| && s.toUnpark[p] < |s.notified|
       case Schedule(a) => !a.Leave? && !a.Notify? && Searching.CanStep(s.sched, a)
       case Recheck(i) =>
         && i < |s.sched.workers| && s.sched.workers[i].Parked? && !PastChecks(s, i) && !s.sched.lock
       case IoReturns(i) => i < |s.sched.workers| && Asleep(s, i)
       case WakeUp(i) => i < |s.sched.workers| && PastChecks(s, i) && !s.sched.lock
  }

  function Without<T>(items: seq<T>, at: nat): seq<T>
    requires at < |items|
  {
    items[..at] + items[at + 1..]
  }

  function Happen(s: System, ev: Event): System
    requires CanHappen(s, ev)
  {
    match ev
    case SpawnOutside => s.(queues := s.queues[0 := s.queues[0] + 1], notifiers := s.notifiers + [-1])
    case SpawnInside(i, k) => s.(queues := s.queues[k := s.queues[k] + 1], pushers := s.pushers + [i])
    case Take(i, k) => s.(queues := s.queues[k := s.queues[k] - 1])
    case Shift(i, from, to) =>
      var taken := s.queues[from := s.queues[from] - 1];
      s.(queues := taken[to := taken[to] + 1])
    case Nudge(i) => s.(pushers := s.pushers + [i])
    case PusherLooks(p) =>
      s.(pushers := Without(s.pushers, p),
         notifiers := if s.sched.counter == 0 then s.notifiers + [s.pushers[p]] else s.notifiers)
    case NotifierTakes(p) => NotifierStep(s, p)
    case Unpark(p) => s.(toUnpark := Without(s.toUnpark, p), notified := s.notified[s.toUnpark[p] := true])
    case Schedule(a) => ScheduleStep(s, a)
    case Recheck(i) =>
      if s.checked[i] < |s.queues| && s.queues[s.checked[i]] == 0 then s.(checked := s.checked[i := s.checked[i] + 1])
      else s.(sched := Searching.Step(s.sched, Leave(i)))
    case IoReturns(i) => s.(dispatching := s.dispatching[i := true])
    case WakeUp(i) =>
      s.(sched := Searching.Step(s.sched, Leave(i)),
         dispatching := s.dispatching[i := false], notified := s.notified[i := false])
  }

  /** `try_notify_siblings_worker_unconditional`: one worker off the list, or everybody. */
  function NotifierStep(s: System, p: nat): System
    requires p < |s.notifiers| && !s.sched.lock
  {
    var current := s.notifiers[p];
    var at := FirstOther(s.sched.parked, current);
    if at < |s.sched.parked|
    then s.(notifiers := Without(s.notifiers, p), toUnpark := s.toUnpark + [s.sched.parked[at]],
            sched := Searching.Step(s.sched, Notify(current)))
    else s.(notifiers := Without(s.notifiers, p),
            toUnpark := s.toUnpark + seq(|s.sched.workers|, i requires 0 <= i < |s.sched.workers| => i))
  }

  function ScheduleStep(s: System, a: Action): System
    requires Sized(s) && !a.Leave? && !a.Notify? && Searching.CanStep(s.sched, a)
  {
    s.(sched := Searching.Step(s.sched, a), checked := if a.PushSelf? then s.checked[a.i := 0] else s.checked)
  }

  // ---------------------------------------------------------------- what every run keeps

  /** A worker that will look for work before it sleeps, or will not sleep. */
  predicate Active(s: System, i: nat)
    requires Sized(s) && i < |s.sched.workers|
  {
    Awake(s, i) || s.sched.workers[i].Loaded? || Dispatching(s, i) || s.notified[i]
  }

  /** Somebody will look at every queue, or will wake somebody who does. */
  predicate Cover(s: System)
    requires Sized(s)
  {
    || s.pushers != [] || s.notifiers != [] || s.toUnpark != []
    || exists i :: 0 <= i < |s.sched.workers| && Active(s, i)
  }

  /** The last searcher on its way to sleep has queue `k` still to check. */
  predicate WillCheck(s: System, i: nat, k: nat)
    requires Sized(s) && i < |s.sched.workers|
  {
    var w := s.sched.workers[i];
    w == Entering(true) || (w.Parked? && w.last && s.checked[i] <= k)
  }

  predicate QueueCovered(s: System, k: nat)
    requires Sized(s) && k < |s.queues|
  {
    s.queues[k] > 0 ==> Cover(s) || exists i :: 0 <= i < |s.sched.workers| && WillCheck(s, i, k)
  }

  predicate Covered(s: System)
    requires Sized(s)
  {
    forall k :: 0 <= k < |s.queues| ==> QueueCovered(s, k)
  }

  predicate SystemInv(s: System) {
    Sized(s) && Searching.Inv(s.sched) && (forall j :: j in s.toUnpark ==> j < |s.sched.workers|) && Covered(s)
  }

  /** A covered system is covered whatever its queues hold. */
  lemma CoverCovers(s: System)
    requires Sized(s) && Cover(s)
    ensures Covered(s)
  {
    hide Cover;
  }

  lemma SearcherCovers(s: System)
    requires Sized(s) && Searching.Inv(s.sched) && s.sched.counter != 0
    ensures Cover(s)
  {
    SearchersNone(s.sched.workers);
    var i :| 0 <= i < |s.sched.workers| && s.sched.workers[i].Searcher?;
    assert Active(s, i);
  }

  lemma TrafficKeeps(s: System, ev: Event)
    requires SystemInv(s) && CanHappen(s, ev)
    requires ev.SpawnOutside? || ev.SpawnInside? || ev.Take? || ev.Shift? || ev.Nudge?
    ensures SystemInv(Happen(s, ev))
  {
    var s' := Happen(s, ev);
    if ev.Take? || ev.Shift? { assert Active(s', ev.i); }
    CoverCovers(s');
    hide Searching.Inv, Cover, Covered;
  }

  lemma PusherKeeps(s: System, p: nat)
    requires SystemInv(s) && CanHappen(s, PusherLooks(p))
    ensures SystemInv(Happen(s, PusherLooks(p)))
  {
    var s' := Happen(s, PusherLooks(p));
    if s.sched.counter != 0 { SearcherCovers(s'); }
    CoverCovers(s');
    hide Searching.Inv, Cover, Covered;
  }

  lemma NotifierKeeps(s: System, p: nat)
    requires SystemInv(s) && CanHappen(s, NotifierTakes(p))
    ensures SystemInv(Happen(s, NotifierTakes(p)))
  {
    var s', current := Happen(s, NotifierTakes(p)), s.notifiers[p];
    var at := FirstOther(s.sched.parked, current);
    if at < |s.sched.parked| {
      assert s.sched.parked[at] in s.sched.parked;
      Searching.StepKeeps(s.sched, Notify(current));
    }
    assert s'.toUnpark != [];
    CoverCovers(s');
    hide Searching.Inv, Cover, Covered;
  }

  lemma UnparkKeeps(s: System, p: nat)
    requires SystemInv(s) && CanHappen(s, Unpark(p))
    ensures SystemInv(Happen(s, Unpark(p)))
  {
    var s' := Happen(s, Unpark(p));
    assert forall j :: j in s'.toUnpark ==> j in s.toUnpark;
    assert Active(s', s.toUnpark[p]);
    CoverCovers(s');
    hide Searching.Inv, Cover, Covered;
  }

  lemma IoReturnKeeps(s: System, i: nat)
    requires SystemInv(s) && CanHappen(s, IoReturns(i))
    ensures SystemInv(Happen(s, IoReturns(i)))
  {
    var s' := Happen(s, IoReturns(i));
    assert Active(s', i);
    CoverCovers(s');
    hide Searching.Inv, Cover, Covered;
  }

  lemma WakeKeeps(s: System, i: nat)
    requires SystemInv(s) && CanHappen(s, WakeUp(i))
    ensures SystemInv(Happen(s, WakeUp(i)))
  {
    var s' := Happen(s, WakeUp(i));
    Searching.StepKeeps(s.sched, Leave(i));
    assert Active(s', i);
    CoverCovers(s');
    hide Searching.Inv, Cover, Covered;
  }

  /** The queue just found empty needs no cover, and the later ones still have theirs. */
  lemma RecheckKeeps(s: System, i: nat)
    requires SystemInv(s) && CanHappen(s, Recheck(i))
    ensures SystemInv(Happen(s, Recheck(i)))
  {
    var s' := Happen(s, Recheck(i));
    if s.checked[i] < |s.queues| && s.queues[s.checked[i]] == 0 {
      forall k | 0 <= k < |s.queues| ensures QueueCovered(s', k) {
        assert QueueCovered(s, k);
        if Cover(s) { SameCover(s, s'); }
        else if s.queues[k] > 0 {
          var j :| 0 <= j < |s.sched.workers| && WillCheck(s, j, k);
          assert WillCheck(s', j, k);
        }
      }
    } else {
      Searching.StepKeeps(s.sched, Leave(i));
      assert Active(s', i);
      CoverCovers(s');
      hide Searching.Inv, Cover, Covered;
    }
  }

  lemma SameCover(s: System, s': System)
    requires Sized(s) && s' == s.(checked := s'.checked) && |s'.checked| == |s.checked|
    ensures Cover(s') == Cover(s)
  {
    assert forall i :: 0 <= i < |s.sched.workers| ==> Active(s', i) == Active(s, i);
  }

  lemma SearchKeepsCover(s: System, a: Action)
    requires SystemInv(s) && CanHappen(s, Schedule(a)) && (a.TrySearch? || a.StartSearch? || a.FoundWork?)
    ensures SystemInv(Happen(s, Schedule(a)))
  {
    var s' := Happen(s, Schedule(a));
    Searching.StepKeeps(s.sched, a);
    if a.TrySearch? && s'.sched.workers[a.i].Refused? { SearcherCovers(s'); }
    else { assert Active(s', a.i); }
    CoverCovers(s');
    hide Searching.Inv, Cover, Covered;
  }

  /** A searcher that goes to sleep leaves another searcher behind, or is the last and will check every queue. */
  lemma EnterKeepsCover(s: System, i: nat)
    requires SystemInv(s) && CanHappen(s, Schedule(Enter(i)))
    ensures SystemInv(Happen(s, Schedule(Enter(i))))
  {
    var s' := Happen(s, Schedule(Enter(i)));
    Searching.StepKeeps(s.sched, Enter(i));
    if s.sched.workers[i].Searcher? && s.sched.counter != 1 {
      SearcherCovers(s');
      CoverCovers(s');
    } else {
      forall k | 0 <= k < |s.queues| ensures QueueCovered(s', k) {
        assert QueueCovered(s, k);
        if s'.sched.workers[i].last { assert WillCheck(s', i, k); }
        else { OthersCover(s, s', i, k); }
      }
    }
    hide Searching.Inv;
  }

  /** A worker that was no cover moves on towards its sleep. */
  lemma OthersCover(s: System, s': System, i: nat, k: nat)
    requires Sized(s) && Sized(s') && i < |s.sched.workers| && k < |s.queues| && QueueCovered(s, k)
    requires s'.queues == s.queues && s'.dispatching == s.dispatching && s'.notified == s.notified
    requires s'.pushers == s.pushers && s'.notifiers == s.notifiers && s'.toUnpark == s.toUnpark
    requires |s'.sched.workers| == |s.sched.workers|
    requires forall j :: 0 <= j < |s.sched.workers| && j != i ==>
               s'.sched.workers[j] == s.sched.workers[j] && s'.checked[j] == s.checked[j]
    requires s.sched.workers[i].Refused? || s.sched.workers[i].Entering?
    requires WillCheck(s, i, k) ==> WillCheck(s', i, k)
    ensures QueueCovered(s', k)
  {
    if s.queues[k] > 0 {
      if j :| 0 <= j < |s.sched.workers| && Active(s, j) { assert Active(s', j); }
      else if j :| 0 <= j < |s.sched.workers| && WillCheck(s, j, k) { assert WillCheck(s', j, k); }
    }
  }

  lemma PushSelfKeepsCover(s: System, i: nat)
    requires SystemInv(s) && CanHappen(s, Schedule(PushSelf(i)))
    ensures SystemInv(Happen(s, Schedule(PushSelf(i))))
  {
    var s' := Happen(s, Schedule(PushSelf(i)));
    Searching.StepKeeps(s.sched, PushSelf(i));
    assert !s'.sched.pushFailed;
    forall k | 0 <= k < |s.queues| ensures QueueCovered(s', k) {
      assert QueueCovered(s, k);
      OthersCover(s, s', i, k);
    }
    hide Searching.Inv;
  }

  lemma EventKeeps(s: System, ev: Event)
    requires SystemInv(s) && CanHappen(s, ev)
    ensures SystemInv(Happen(s, ev))
  {
    hide SystemInv, Happen;
    match ev
    case PusherLooks(p) => PusherKeeps(s, p);
    case NotifierTakes(p) => NotifierKeeps(s, p);
    case Unpark(p) => UnparkKeeps(s, p);
    case IoReturns(i) => IoReturnKeeps(s, i);
    case WakeUp(i) => WakeKeeps(s, i);
    case Recheck(i) => RecheckKeeps(s, i);
    case Schedule(a) =>
      if a.Enter? { EnterKeepsCover(s, a.i); }
      else if a.PushSelf? { PushSelfKeepsCover(s, a.i); }
      else { SearchKeepsCover(s, a); }
    case _ => TrafficKeeps(s, ev);
  }

  // ---------------------------------------------------------------- whom a notifier wakes

  /** A worker off the list in its park section is about to be unparked, or has been. */
  predicate Owed(s: System, i: nat)
    requires Sized(s) && i < |s.sched.workers|
  {
    s.sched.workers[i].Parked? && s.sched.workers[i].taken ==> i in s.toUnpark || s.notified[i]
  }

  predicate NobodyForgotten(s: System)
    requires Sized(s)
  {
    forall i :: 0 <= i < |s.sched.workers| ==> Owed(s, i)
  }

  /** What is taken out of a sequence is the one item at that place. */
  lemma WithoutKeeps<T>(items: seq<T>, at: nat, x: T)
    requires at < |items| && x in items && x != items[at]
    ensures x in Without(items, at)
  {
    var k :| 0 <= k < |items| && items[k] == x;
    assert if k < at then Without(items, at)[k] == x else Without(items, at)[k - 1] == x;
  }

  predicate SomeOther(list: seq<nat>, current: int) {
    exists k :: 0 <= k < |list| && list[k] != current
  }

  /** Worker `w`, asleep on the list, is off it and will be unparked; nobody else changes. */
  ghost predicate TakenOff(s: System, s': System, w: nat) {
    && w in s.sched.parked && w < |s.sched.workers|
    && s'.toUnpark == s.toUnpark + [w]
    && (forall y :: y in s'.sched.parked <==> y in s.sched.parked && y != w)
    && s'.sched.workers == s.sched.workers[w := MarkTaken(s.sched.workers[w])]
    && s'.queues == s.queues && s'.notified == s.notified
  }

  /**
    A notifier that finds another worker than itself on the parked list takes that one off and
    will unpark it; one that finds nobody will unpark every worker.
   */
  lemma NotifierWakes(s: System, p: nat)
    requires SystemInv(s) && CanHappen(s, NotifierTakes(p))
    ensures var s', current := Happen(s, NotifierTakes(p)), s.notifiers[p];
            if SomeOther(s.sched.parked, current) then exists w :: w != current && TakenOff(s, s', w)
            else s'.sched == s.sched && (forall w :: 0 <= w < |s.sched.workers| ==> w in s'.toUnpark)
    ensures |Happen(s, NotifierTakes(p)).notifiers| + 1 == |s.notifiers|
  {
    var s', current := Happen(s, NotifierTakes(p)), s.notifiers[p];
    var at := FirstOther(s.sched.parked, current);
    if at < |s.sched.parked| {
      assert s.sched.parked[at] in s.sched.parked;
      SwapRemoveTakesOne(s.sched.parked, at);
      hide SwapRemove, Covered;
      assert TakenOff(s, s', s.sched.parked[at]);
    } else {
      var all := seq(|s.sched.workers|, i requires 0 <= i < |s.sched.workers| => i);
      forall w | 0 <= w < |s.sched.workers| ensures w in s'.toUnpark { assert all[w] == w; }
    }
  }

  /** A pusher goes on to notify exactly if nobody searches. */
  lemma PusherNotifiesIff(s: System, p: nat)
    requires SystemInv(s) && CanHappen(s, PusherLooks(p))
    ensures var s' := Happen(s, PusherLooks(p));
            && s'.notifiers == (if Searchers(s.sched.workers) == 0 then s.notifiers + [s.pushers[p]] else s.notifiers)
            && |s'.pushers| + 1 == |s.pushers|
  {
  }

  /** An unparker notifies its worker and is done. */
  lemma UnparkNotifies(s: System, p: nat)
    requires SystemInv(s) && CanHappen(s, Unpark(p))
    ensures var s' := Happen(s, Unpark(p));
            s'.notified == s.notified[s.toUnpark[p] := true] && |s'.toUnpark| + 1 == |s.toUnpark|
  {
  }

  lemma NotifierForgetsNobody(s: System, p: nat)
    requires SystemInv(s) && NobodyForgotten(s) && CanHappen(s, NotifierTakes(p))
    ensures Sized(Happen(s, NotifierTakes(p))) && NobodyForgotten(Happen(s, NotifierTakes(p)))
  {
    var s', current := Happen(s, NotifierTakes(p)), s.notifiers[p];
    NotifierWakes(s, p);
    hide SystemInv, NotifierStep;
    if SomeOther(s.sched.parked, current) {
      var w :| w != current && TakenOff(s, s', w);
      forall i | 0 <= i < |s.sched.workers| ensures Owed(s', i) { assert Owed(s, i); }
    }
  }

  lemma UnparkForgetsNobody(s: System, p: nat)
    requires SystemInv(s) && NobodyForgotten(s) && CanHappen(s, Unpark(p))
    ensures Sized(Happen(s, Unpark(p))) && NobodyForgotten(Happen(s, Unpark(p)))
  {
    var s' := Happen(s, Unpark(p));
    forall i | 0 <= i < |s.sched.workers| ensures Owed(s', i) {
      assert Owed(s, i);
      if i in s.toUnpark && i != s.toUnpark[p] { WithoutKeeps(s.toUnpark, p, i); }
    }
  }

  lemma ForgetsNobody(s: System, ev: Event)
    requires SystemInv(s) && NobodyForgotten(s) && CanHappen(s, ev)
    ensures Sized(Happen(s, ev)) && NobodyForgotten(Happen(s, ev))
  {
    if ev.NotifierTakes? { NotifierForgetsNobody(s, ev.p); }
    else if ev.Unpark? { UnparkForgetsNobody(s, ev.p); }
    else {
      var s' := Happen(s, ev);
      hide SystemInv, NotifierStep;
      forall i | 0 <= i < |s.sched.workers| ensures Owed(s', i) { assert Owed(s, i); }
    }
  }

  // ---------------------------------------------------------------- runs

  predicate IsRun(s: System, events: seq<Event>)
    decreases |events|
  {
    events != [] ==> CanHappen(s, events[0]) && IsRun(Happen(s, events[0]), events[1..])
  }

  function After(s: System, events: seq<Event>): System
    requires IsRun(s, events)
    decreases |events|
  {
    if events == [] then s else After(Happen(s, events[0]), events[1..])
  }

  predicate Start(s: System) {
    && Sized(s) && Fresh(s.sched)
    && (forall k :: 0 <= k < |s.queues| ==> s.queues[k] == 0)
    && (forall i :: 0 <= i < |s.dispatching| ==> !s.dispatching[i])
    && s.pushers == [] && s.notifiers == [] && s.toUnpark == []
  }

  lemma {:induction false} RunKeeps(s: System, events: seq<Event>)
    requires SystemInv(s) && NobodyForgotten(s) && IsRun(s, events)
    ensures SystemInv(After(s, events)) && NobodyForgotten(After(s, events))
    decreases |events|
  {
    if events != [] {
      EventKeeps(s, events[0]);
      ForgetsNobody(s, events[0]);
      hide Searching.Inv, Covered, NobodyForgotten, Happen, CanHappen;
      RunKeeps(Happen(s, events[0]), events[1..]);
    }
  }

  /** Every worker sleeps, nobody is notified and nobody is about to notify. */
  predicate AllAsleep(s: System)
    requires Sized(s)
  {
    && (forall i :: 0 <= i < |s.sched.workers| ==> Asleep(s, i) && !s.notified[i])
    && s.pushers == [] && s.notifiers == [] && s.toUnpark == []
  }

  /** In every run a worker in its park section is on the parked list, about to be unparked, or notified. */
  lemma NoWorkerIsForgotten(start: System, events: seq<Event>, i: nat)
    requires Start(start) && IsRun(start, events) && i < |start.sched.workers|
    ensures var s := After(start, events);
            && Sized(s) && |s.sched.workers| == |start.sched.workers|
            && (s.sched.workers[i].Parked? ==> i in s.sched.parked || i in s.toUnpark || s.notified[i])
  {
    FreshInv(start.sched);
    RunKeeps(start, events);
    SameWorkers(start, events);
    var s := After(start, events);
    assert Owed(s, i);
    hide IsRun, After, Covered;
  }

  lemma {:induction false} SameWorkers(s: System, events: seq<Event>)
    requires IsRun(s, events)
    ensures |After(s, events).sched.workers| == |s.sched.workers|
    decreases |events|
  {
    if events != [] { SameWorkers(Happen(s, events[0]), events[1..]); }
  }

  // ---------------------------------------------------------------- tasks are counted

  function Total(queues: seq<nat>): nat {
    if queues == [] then 0 else queues[0] + Total(queues[1..])
  }

  lemma {:induction false} TotalUpdate(queues: seq<nat>, k: nat, n: nat)
    requires k < |queues|
    ensures Total(queues[k := n]) + queues[k] == Total(queues) + n
  {
    if k == 0 {
      assert queues[0 := n][1..] == queues[1..];
    } else {
      TotalUpdate(queues[1..], k - 1, n);
      assert queues[k := n][1..] == queues[1..][k - 1 := n];
    }
  }

  lemma {:induction false} TotalOfNone(queues: seq<nat>)
    requires forall k :: 0 <= k < |queues| ==> queues[k] == 0
    ensures Total(queues) == 0
  {
    if queues != [] { TotalOfNone(queues[1..]); }
  }

  function Spawns(events: seq<Event>): nat {
    if events == [] then 0
    else (if events[0].SpawnOutside? || events[0].SpawnInside? then 1 else 0) + Spawns(events[1..])
  }

  function Takes(events: seq<Event>): nat {
    if events == [] then 0 else (if events[0].Take? then 1 else 0) + Takes(events[1..])
  }

  lemma EventCounts(s: System, ev: Event)
    requires CanHappen(s, ev)
    ensures Total(Happen(s, ev).queues) + Takes([ev]) == Total(s.queues) + Spawns([ev])
  {
    hide Total;
    match ev
    case SpawnOutside => TotalUpdate(s.queues, 0, s.queues[0] + 1);
    case SpawnInside(i, k) => TotalUpdate(s.queues, k, s.queues[k] + 1);
    case Take(i, k) => TotalUpdate(s.queues, k, s.queues[k] - 1);
    case Shift(i, from, to) =>
      var taken := s.queues[from := s.queues[from] - 1];
      TotalUpdate(s.queues, from, s.queues[from] - 1);
      TotalUpdate(taken, to, taken[to] + 1);
    case _ =>
  }

  /** What was spawned can be taken where it was queued, and what was moved where it was moved to. */
  lemma MovedThenTaken(s: System, i: nat, j: nat, from: nat, to: nat)
    requires Sized(s) && i < |s.sched.workers| && Awake(s, i)
    ensures Happen(Happen(s, SpawnOutside), Take(i, 0)).queues == s.queues
    ensures CanHappen(s, SpawnInside(j, to)) ==> Happen(Happen(s, SpawnInside(j, to)), Take(i, to)).queues == s.queues
    ensures CanHappen(s, Shift(i, from, to)) ==>
              Happen(Happen(s, Shift(i, from, to)), Take(i, to)) == Happen(s, Take(i, from))
  {
    assert s.queues[0 := s.queues[0] + 1][0 := s.queues[0]] == s.queues;
    if to < |s.queues| { assert s.queues[to := s.queues[to] + 1][to := s.queues[to]] == s.queues; }
    if CanHappen(s, Shift(i, from, to)) {
      var taken := s.queues[from := s.queues[from] - 1];
      assert taken[to := taken[to] + 1][to := taken[to]] == taken;
    }
  }

  /** In every run the queues hold what was spawned and not taken. */
  lemma {:induction false} TasksAreCounted(s: System, events: seq<Event>)
    requires IsRun(s, events)
    ensures Total(After(s, events).queues) + Takes(events) == Total(s.queues) + Spawns(events)
    decreases |events|
  {
    if events != [] {
      EventCounts(s, events[0]);
      hide Happen, CanHappen, Total;
      TasksAreCounted(Happen(s, events[0]), events[1..]);
    }
  }

  /** In no run do all workers sleep, unnotified and with no wake-up under way, before all that was spawned is taken. */
  lemma NoTaskIsLeftBehind(start: System, events: seq<Event>)
    requires Start(start) && IsRun(start, events)
    ensures var s := After(start, events);
            && Sized(s)
            && (AllAsleep(s) ==> Spawns(events) == Takes(events) && forall k :: 0 <= k < |s.queues| ==> s.queues[k] == 0)
  {
    TotalOfNone(start.queues);
    TasksAreCounted(start, events);
    FreshInv(start.sched);
    RunKeeps(start, events);
    var s := After(start, events);
    hide IsRun, After, Searching.Inv;
    if AllAsleep(s) {
      forall k | 0 <= k < |s.queues| ensures s.queues[k] == 0 {
        assert QueueCovered(s, k);
        forall i | 0 <= i < |s.sched.workers| ensures !Active(s, i) && !WillCheck(s, i, k) { assert Asleep(s, i); }
      }
      TotalOfNone(s.queues);
    }
  }

  // ---------------------------------------------------------------- operations by themselves

  /** Where a worker in the park section is when its rechecks are over. */
  function RechecksAll(s: System, i: nat): System
    requires Sized(s) && i < |s.sched.workers| && !s.sched.lock
    decreases |s.queues| - s.checked[i]
  {
    if !CanHappen(s, Recheck(i)) then s
    else
      var s' := Happen(s, Recheck(i));
      if s'.checked[i] > s.checked[i] then RechecksAll(s', i) else s'
  }

  predicate SomeQueued(s: System, from: nat) {
    exists k :: from <= k < |s.queues| && s.queues[k] > 0
  }

  /** The last searcher by itself goes back to work exactly if some queue it has still to check holds a task. */
  lemma {:induction false} RecheckAlone(s: System, i: nat)
    requires SystemInv(s) && i < |s.sched.workers| && s.sched.workers[i].Parked? && !s.sched.lock
    ensures var s' := RechecksAll(s, i);
            && Sized(s') && i < |s'.sched.workers|
            && if s.sched.workers[i].last && SomeQueued(s, s.checked[i])
               then s'.sched.workers[i].Executing? && i !in s'.sched.parked && s'.queues == s.queues
               else PastChecks(s', i) && s' == s.(checked := s'.checked)
    decreases |s.queues| - s.checked[i]
  {
    if CanHappen(s, Recheck(i)) {
      var s' := Happen(s, Recheck(i));
      RecheckKeeps(s, i);
      hide Covered, Searching.Inv;
      if s.queues[s.checked[i]] == 0 {
        assert SomeQueued(s, s.checked[i]) <==> SomeQueued(s', s'.checked[i]);
        RecheckAlone(s', i);
      } else {
        LeavesTheList(s, i);
      }
    }
  }

  lemma LeavesTheList(s: System, i: nat)
    requires SystemInv(s) && i < |s.sched.workers| && s.sched.workers[i].Parked? && !s.sched.lock
    ensures var left := Searching.Step(s.sched, Leave(i));
            && left.workers == s.sched.workers[i := Executing] && i !in left.parked && left.counter == s.sched.counter
            && (forall x :: x in left.parked <==> x in s.sched.parked && x != i)
  {
    var at := Position(s.sched.parked, i);
    if at < |s.sched.parked| { SwapRemoveTakesOne(s.sched.parked, at); }
    hide SwapRemove, Covered, Searchers;
  }

  /** A worker that wakes up executes, is off the list, and has used up its notification. */
  lemma WakeUpAlone(s: System, i: nat)
    requires SystemInv(s) && CanHappen(s, WakeUp(i))
    ensures var s' := Happen(s, WakeUp(i));
            && s'.sched.workers == s.sched.workers[i := Executing] && i !in s'.sched.parked
            && !s'.notified[i] && !s'.dispatching[i] && s'.queues == s.queues
  {
    LeavesTheList(s, i);
    hide SystemInv, Searching.Step;
  }

  /**
    A spawn by itself, with nobody searching and another worker on the parked list, ends with
    one of those notified and nothing left to do; with a searcher it just queues the task.
   */
  lemma SpawnAlone(s: System, i: nat, k: nat)
    requires SystemInv(s) && CanHappen(s, SpawnInside(i, k)) && !s.sched.lock
    ensures var looked := Happen(Happen(s, SpawnInside(i, k)), PusherLooks(|s.pushers|));
            var queued := s.(queues := s.queues[k := s.queues[k] + 1]);
            if s.sched.counter != 0 then looked == queued
            else && CanHappen(looked, NotifierTakes(|s.notifiers|))
                 && var taken := Happen(looked, NotifierTakes(|s.notifiers|));
                    && CanHappen(taken, Unpark(|s.toUnpark|))
                    && (SomeOther(s.sched.parked, i) ==>
                          exists w :: w != i && w in s.sched.parked && w < |s.notified| &&
                                      Happen(taken, Unpark(|s.toUnpark|)) ==
                                        queued.(sched := taken.sched, notified := s.notified[w := true]))
  {
    var pushed := Happen(s, SpawnInside(i, k));
    TrafficKeeps(s, SpawnInside(i, k));
    WithoutLast(s.pushers, i);
    var looked := Happen(pushed, PusherLooks(|s.pushers|));
    PusherKeeps(pushed, |s.pushers|);
    if s.sched.counter == 0 {
      WithoutLast(s.notifiers, i);
      var taken := Happen(looked, NotifierTakes(|s.notifiers|));
      NotifierWakes(looked, |s.notifiers|);
      NotifierKeeps(looked, |s.notifiers|);
      hide SystemInv;
      if SomeOther(s.sched.parked, i) {
        var w :| w != i && TakenOff(looked, taken, w);
        WithoutLast(s.toUnpark, w);
      }
    }
  }

  lemma WithoutLast<T>(items: seq<T>, x: T)
    ensures Without(items + [x], |items|) == items
  {
  }
}
