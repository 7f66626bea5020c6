/** The IO driver's table of registrations, whose entries are freed only between polls. */
module Registrations {
  import opened Common

  /** `tracking` keeps registrations alive by key, `waiting` are the keys scheduled for release. */
  datatype Table = Table(tracking: set<nat>, waiting: seq<nat>, pending: bool, capacity: nat)

  predicate TableOk(t: Table) {
    && |t.tracking| <= t.capacity
    && Distinct(t.waiting) && Elements(t.waiting) <= t.tracking
    && (t.waiting != [] ==> t.pending)
  }

  function Created(t: Table, key: nat): Table { t.(tracking := t.tracking + {key}) }

  function Scheduled(t: Table, key: nat): Table { t.(waiting := t.waiting + [key], pending := true) }

  function Released(t: Table, key: nat): Table { t.(tracking := t.tracking - {key}) }

  function CleanedUp(t: Table): Table {
    t.(tracking := t.tracking - Elements(t.waiting), waiting := [], pending := false)
  }

  /** A scheduled key always finds room: keys are distinct and tracked. */
  lemma ScheduleFits(t: Table, key: nat)
    requires TableOk(t) && key in t.tracking && key !in t.waiting
    ensures |t.waiting| < t.capacity && TableOk(Scheduled(t, key))
  {
    var keys := t.waiting + [key];
    assert Elements(keys) == Elements(t.waiting) + {key};
    DistinctFit(keys, t.tracking);
  }

  lemma CleanupOk(t: Table)
    requires TableOk(t)
    ensures TableOk(CleanedUp(t))
  {
    SubsetFits(t.tracking - Elements(t.waiting), t.tracking);
  }

  lemma {:induction false} SubsetFits(a: set<nat>, b: set<nat>)
    requires a <= b
    ensures |a| <= |b|
    decreases a
  {
    if a != {} {
      var x :| x in a;
      SubsetFits(a - {x}, b - {x});
    }
  }

  /** While the list is drained from its end: what is off it is freed. */
  ghost predicate Halfway(all: set<nat>, due: seq<nat>, waiting: seq<nat>, tracking: set<nat>) {
    waiting <= due && tracking == all - Elements(due[|waiting|..])
  }

  lemma FreeOne(all: set<nat>, due: seq<nat>, waiting: seq<nat>, tracking: set<nat>)
    requires Halfway(all, due, waiting, tracking) && waiting != []
    ensures Halfway(all, due, waiting[..|waiting| - 1], tracking - {waiting[|waiting| - 1]})
  {
    var at := |waiting| - 1;
    assert due[at..] == [due[at]] + due[at + 1..];
  }

  lemma AllFreed(all: set<nat>, due: seq<nat>, tracking: set<nat>)
    requires Halfway(all, due, [], tracking)
    ensures tracking == all - Elements(due)
  {
    assert due[0..] == due;
  }

  class RegistrationTable {
    var tracking: set<nat>
    var waiting: seq<nat>
    var pending: bool
    const capacity: nat

    function View(): Table
      reads this
    {
      Table(tracking, waiting, pending, capacity)
    }

    constructor (count: nat)
      ensures View() == Table({}, [], false, count) && TableOk(View())
    {
      tracking, waiting, pending, capacity := {}, [], false, count;
    }

    /** A full table refuses; otherwise the slot map's free key is tracked. */
    method CreateRegistrationInfo(freeKey: nat) returns (key: Option<nat>)
      requires TableOk(View()) && freeKey !in tracking
      modifies this
      ensures TableOk(View())
      ensures if |old(tracking)| >= capacity then key == None && View() == old(View())
              else key == Some(freeKey) && View() == Created(old(View()), freeKey)
    {
      if |tracking| >= capacity { return None; }
      tracking := tracking + {freeKey};
      return Some(freeKey);
    }

    /** Fails exactly on a full list, which a tracked key that is not scheduled yet never meets. */
    method ScheduleRegistrationForDisposal(key: nat) returns (ok: bool)
      modifies this
      ensures ok <==> |old(waiting)| < capacity
      ensures View() == if ok then Scheduled(old(View()), key) else old(View())
      ensures old(TableOk(View())) && key in old(tracking) && key !in old(waiting) ==> ok && TableOk(View())
    {
      if TableOk(View()) && key in tracking && key !in waiting { ScheduleFits(View(), key); }
      if |waiting| >= capacity { return false; }
      waiting := waiting + [key];
      pending := true;
      return true;
    }

    /** Frees every scheduled key and nothing else. */
    method CleanupDisposedRegistrations()
      requires TableOk(View())
      modifies this
      ensures TableOk(View()) && View() == CleanedUp(old(View()))
    {
      CleanupOk(View());
      if !pending {
        assert Elements(waiting) == {};
        return;
      }
      ghost var all, due := tracking, waiting;
      assert Halfway(all, due, waiting, tracking);
      hide TableOk, Elements, Halfway;
      while waiting != []
        invariant Halfway(all, due, waiting, tracking)
        decreases |waiting|
      {
        FreeOne(all, due, waiting, tracking);
        tracking := tracking - {waiting[|waiting| - 1]};
        waiting := waiting[..|waiting| - 1];
      }
      AllFreed(all, due, tracking);
      pending := false;
    }

    method ReleaseRegistrationInfo(key: nat)
      modifies this
      ensures View() == Released(old(View()), key)
      ensures old(TableOk(View())) ==> (TableOk(View()) <==> key !in old(waiting))
    {
      SubsetFits(tracking - {key}, tracking);
      tracking := tracking - {key};
    }
  }

  // ---------------------------------------------------------------- the driver and its users

  /** Where a tracked key is in its life. */
  datatype Phase = Joining | Live | Leaving | Waiting

  /** The driver between, before and inside polls; `Dispatching` has events left. */
  datatype Driver =
    | Idle
    | Draining
    | Cleaned
    | Polling
    | Dispatching(events: seq<nat>)

  /**
    `registered` is what the selector watches, `seen` what it watched at some moment of the
    current poll, `due` what was scheduled when the current cleanup began, `reported` the events
    of the last poll and `dispatched` those of them dispatched so far. `stale` is set if an event
    is dispatched to a registration that is not kept alive.
   */
  datatype World = World(table: Table, phases: map<nat, Phase>, registered: set<nat>, driver: Driver,
                         seen: set<nat>, due: set<nat>, reported: seq<nat>, dispatched: seq<nat>,
                         pushFailed: bool, stale: bool)

  datatype Action =
    | Create(key: nat) | RegisterOk(key: nat) | RegisterFails(key: nat)
    | Deregister(key: nat) | Schedule(key: nat)
    | BeginCleanup | Drain | BeginPoll | PollTimesOut | PollReturns(events: seq<nat>) | Dispatch | Finish

  function Start(capacity: nat): World {
    World(Table({}, [], false, capacity), map[], {}, Idle, {}, {}, [], [], false, false)
  }

  predicate In(w: World, key: nat, phase: Phase) {
    key in w.phases && w.phases[key] == phase
  }

  predicate CanStep(w: World, a: Action) {
    match a
    case Create(key) => key !in w.table.tracking && |w.table.tracking| < w.table.capacity
    case RegisterOk(key) => In(w, key, Joining)
    case RegisterFails(key) => In(w, key, Joining)
    case Deregister(key) => In(w, key, Live)
    case Schedule(key) => In(w, key, Leaving)
    case BeginCleanup => w.driver.Idle?
    case Drain => w.driver.Draining?
    case BeginPoll => w.driver.Cleaned?
    case PollTimesOut => w.driver.Polling?
    case PollReturns(events) => w.driver.Polling? && Elements(events) <= w.seen
    case Dispatch => w.driver.Dispatching? && w.driver.events != []
    case Finish => w.driver.Dispatching? && w.driver.events == []
  }

  function Step(w: World, a: Action): World
    requires CanStep(w, a)
  {
    match a
    case Create(key) => w.(table := Created(w.table, key), phases := w.phases[key := Joining])
    case RegisterOk(key) =>
      w.(registered := w.registered + {key}, phases := w.phases[key := Live],
         seen := if w.driver.Polling? then w.seen + {key} else w.seen)
    case RegisterFails(key) => w.(table := Released(w.table, key), phases := w.phases - {key})
    case Deregister(key) => w.(registered := w.registered - {key}, phases := w.phases[key := Leaving])
    case Schedule(key) =>
      if |w.table.waiting| >= w.table.capacity then w.(pushFailed := true)
      else w.(table := Scheduled(w.table, key), phases := w.phases[key := Waiting])
    case BeginCleanup =>
      w.(driver := if w.table.pending then Draining else Cleaned, due := Elements(w.table.waiting))
    case Drain => w.(table := CleanedUp(w.table), phases := w.phases - Elements(w.table.waiting), driver := Cleaned)
    case BeginPoll => w.(driver := Polling, seen := w.registered)
    case PollTimesOut => w.(driver := Idle)
    case PollReturns(events) => w.(driver := Dispatching(events), reported := events, dispatched := [])
    case Dispatch =>
      var key := w.driver.events[0];
      w.(driver := Dispatching(w.driver.events[1..]), dispatched := w.dispatched + [key],
         stale := w.stale || key !in w.table.tracking)
    case Finish => w.(driver := Idle)
  }

  predicate InPoll(d: Driver) { d.Polling? || d.Dispatching? }

  predicate Inv(w: World) {
    && TableOk(w.table)
    && w.phases.Keys == w.table.tracking
    && (forall k :: k in w.phases ==> (w.phases[k].Waiting? <==> k in w.table.waiting))
    && (forall k :: k in w.phases ==> (w.phases[k].Live? <==> k in w.registered))
    && w.registered <= w.table.tracking
    && (InPoll(w.driver) ==> forall k :: k in w.seen ==> k in w.phases && !w.phases[k].Joining?)
    && (w.driver.Dispatching? ==> Elements(w.driver.events) <= w.seen)
    && (if w.driver.Dispatching? then w.dispatched + w.driver.events == w.reported else w.dispatched == w.reported)
    && (w.driver.Draining? ==> w.due <= Elements(w.table.waiting))
    && !w.pushFailed && !w.stale
  }

  lemma JoinKeeps(w: World, a: Action)
    requires Inv(w) && CanStep(w, a) && (a.Create? || a.RegisterOk? || a.RegisterFails?)
    ensures Inv(Step(w, a))
  {
    if a.RegisterFails? { SubsetFits(w.table.tracking - {a.key}, w.table.tracking); }
  }

  lemma LeaveKeeps(w: World, a: Action)
    requires Inv(w) && CanStep(w, a) && (a.Deregister? || a.Schedule?)
    ensures Inv(Step(w, a))
  {
    if a.Schedule? {
      ScheduleFits(w.table, a.key);
      assert Elements(w.table.waiting) <= Elements(w.table.waiting + [a.key]);
    }
  }

  lemma DriverKeeps(w: World, a: Action)
    requires Inv(w) && CanStep(w, a)
    requires a.BeginCleanup? || a.BeginPoll? || a.PollTimesOut? || a.PollReturns? || a.Dispatch? || a.Finish?
    ensures Inv(Step(w, a))
  {
    if a.Dispatch? {
      assert w.driver.events[0] in Elements(w.driver.events);
      assert Elements(w.driver.events[1..]) <= Elements(w.driver.events);
    }
  }

  lemma DrainKeeps(w: World)
    requires Inv(w) && CanStep(w, Drain)
    ensures Inv(Step(w, Drain))
  {
    CleanupOk(w.table);
  }

  lemma StepKeeps(w: World, a: Action)
    requires Inv(w) && CanStep(w, a)
    ensures Inv(Step(w, a))
  {
    hide Inv, Step;
    if a.Create? || a.RegisterOk? || a.RegisterFails? { JoinKeeps(w, a); }
    else if a.Deregister? || a.Schedule? { LeaveKeeps(w, a); }
    else if a.Drain? { DrainKeeps(w); }
    else { DriverKeeps(w, a); }
  }

  predicate IsRun(w: World, actions: seq<Action>)
    decreases |actions|
  {
    actions != [] ==> CanStep(w, actions[0]) && IsRun(Step(w, actions[0]), actions[1..])
  }

  function After(w: World, actions: seq<Action>): World
    requires IsRun(w, actions)
    decreases |actions|
  {
    if actions == [] then w else After(Step(w, actions[0]), actions[1..])
  }

  lemma {:induction false} RunKeeps(w: World, actions: seq<Action>)
    requires Inv(w) && IsRun(w, actions)
    ensures Inv(After(w, actions))
    decreases |actions|
  {
    if actions != [] {
      StepKeeps(w, actions[0]);
      hide Inv, Step, CanStep;
      RunKeeps(Step(w, actions[0]), actions[1..]);
    }
  }

  /**
    In every run, if the selector reports only what it watched during the poll: every event
    dispatched refers to a registration still kept alive, once the driver is done every event
    reported was dispatched, in order, scheduled keys are distinct and tracked, and scheduling
    one never fails.
   */
  lemma EveryRun(start: World, actions: seq<Action>)
    requires start == Start(start.table.capacity) && IsRun(start, actions)
    ensures var w := After(start, actions);
            && !w.stale && !w.pushFailed
            && (forall k :: k in w.phases && w.phases[k].Leaving? ==> |w.table.waiting| < w.table.capacity)
            && Distinct(w.table.waiting) && Elements(w.table.waiting) <= w.table.tracking
            && (w.driver.Dispatching? ==> Elements(w.driver.events) <= w.table.tracking)
            && (!w.driver.Dispatching? ==> w.dispatched == w.reported)
            && (w.table.waiting != [] ==> w.table.pending)
  {
    RunKeeps(start, actions);
    var w := After(start, actions);
    forall k | k in w.phases && w.phases[k].Leaving? ensures |w.table.waiting| < w.table.capacity {
      ScheduleFits(w.table, k);
    }
    hide After, IsRun;
  }

  /** What was scheduled when a cleanup began is gone when it ends, and everything not scheduled is kept. */
  lemma CleanupFrees(w: World, k: nat)
    requires Inv(w)
    ensures w.driver.Idle? ==> Step(w, BeginCleanup).due == Elements(w.table.waiting)
                               && (Elements(w.table.waiting) != {} ==> Step(w, BeginCleanup).driver.Draining?)
    ensures w.driver.Draining? && k in w.due ==> k !in Step(w, Drain).table.tracking
    ensures w.driver.Draining? && k in w.table.tracking && k !in w.table.waiting ==> k in Step(w, Drain).table.tracking
  {
  }

  // ---------------------------------------------------------------- operations by themselves

  /** A cleanup by itself frees what waits, and then the poll watches what is registered. */
  lemma CleanupAlone(w: World)
    requires Inv(w) && w.driver.Idle?
    ensures var begun := Step(w, BeginCleanup);
            var cleaned := if begun.driver.Draining? then Step(begun, Drain) else begun;
            && cleaned.driver.Cleaned?
            && cleaned == w.(table := CleanedUp(w.table), phases := w.phases - Elements(w.table.waiting),
                             driver := Cleaned, due := Elements(w.table.waiting))
            && Step(cleaned, BeginPoll) == cleaned.(driver := Polling, seen := w.registered)
            && Step(Step(cleaned, BeginPoll), PollTimesOut) == cleaned.(driver := Idle, seen := w.registered)
  {
    if !w.table.pending {
      assert Elements(w.table.waiting) == {};
      assert w.phases - {} == w.phases && w.table.tracking - {} == w.table.tracking;
    }
  }

  /** The driver dispatches the rest of the events. */
  function DispatchAll(w: World): World
    requires w.driver.Dispatching?
    decreases |w.driver.events|
  {
    if w.driver.events == [] then Step(w, Finish) else DispatchAll(Step(w, Dispatch))
  }

  /** By itself it dispatches every event the poll reported, in order, and is idle again. */
  lemma {:induction false} DispatchAlone(w: World)
    requires Inv(w) && w.driver.Dispatching?
    ensures DispatchAll(w) == w.(driver := Idle, dispatched := w.reported)
    decreases |w.driver.events|
  {
    if w.driver.events != [] {
      StepKeeps(w, Dispatch);
      assert w.driver.events[0] in Elements(w.driver.events);
      DispatchAlone(Step(w, Dispatch));
    }
  }

  /** From the return of a poll on: exactly its events are dispatched. */
  lemma ReportAlone(w: World, events: seq<nat>)
    requires Inv(w) && CanStep(w, PollReturns(events))
    ensures Step(w, PollReturns(events)).driver.Dispatching?
    ensures DispatchAll(Step(w, PollReturns(events))) == w.(driver := Idle, reported := events, dispatched := events)
  {
    StepKeeps(w, PollReturns(events));
    DispatchAlone(Step(w, PollReturns(events)));
  }

  /** A source registered while a poll is on can be reported by it. */
  lemma RegisteredIsWatched(w: World, key: nat)
    requires Inv(w) && CanStep(w, RegisterOk(key))
    ensures var w' := Step(w, RegisterOk(key));
            && key in w'.registered && In(w', key, Live)
            && (w.driver.Polling? ==> CanStep(w', PollReturns([key])))
  {
  }

  /** A registration that fails leaves nothing behind; one that succeeds is freed by the cleanup after its removal. */
  lemma RegistrationAlone(w: World, key: nat)
    requires Inv(w) && CanStep(w, Create(key))
    ensures var created := Step(w, Create(key));
            && Step(created, RegisterFails(key)) == w
            && var gone := Step(Step(Step(created, RegisterOk(key)), Deregister(key)), Schedule(key));
               && gone.registered == w.registered && In(gone, key, Waiting)
               && gone.table == Scheduled(Created(w.table, key), key)
  {
    var created := Step(w, Create(key));
    StepKeeps(w, Create(key));
    assert (w.phases[key := Joining]) - {key} == w.phases;
    assert w.table.tracking + {key} - {key} == w.table.tracking;
    var joined := Step(created, RegisterOk(key));
    StepKeeps(created, RegisterOk(key));
    var left := Step(joined, Deregister(key));
    StepKeeps(joined, Deregister(key));
    assert w.registered + {key} - {key} == w.registered;
    ScheduleFits(left.table, key);
  }
}
