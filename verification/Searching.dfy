/**
  The scheduler's accounting of searching and parked workers: any number of workers up to the
  builder's limit, and notifiers, with every atomic access and every critical section of the
  parked list one step.
 */
module Searching {
  import opened Common

  const MAX_NUM_OF_WORKERS := 128
  const U8_RANGE := 256

  /**
    `Refused` has read the counter and found too many searchers, `Loaded` has found room,
    `Entering` has subtracted itself and holds the parked list's mutex, `Parked` is inside the
    park section. `last` is the answer the worker got when it subtracted itself; `taken` is
    history: a notifier took it off the list.
   */
  datatype Worker =
    | Executing
    | Refused
    | Loaded
    | Searcher
    | Entering(last: bool)
    | Parked(last: bool, taken: bool)

  datatype Scheduler = Scheduler(workers: seq<Worker>, counter: int, parked: seq<nat>, lock: bool,
                                 overflowed: bool, pushFailed: bool)

  datatype Action =
    | TrySearch(i: nat) | StartSearch(i: nat) | FoundWork(i: nat)
    | Enter(i: nat) | PushSelf(i: nat) | Leave(i: nat)
    | Notify(current: int)

  predicate Fresh(s: Scheduler) {
    && 1 <= |s.workers| <= MAX_NUM_OF_WORKERS
    && (forall i :: 0 <= i < |s.workers| ==> s.workers[i].Executing?)
    && s.counter == 0 && s.parked == [] && !s.lock && !s.overflowed && !s.pushFailed
  }

  predicate CanStep(s: Scheduler, a: Action) {
    match a
    case TrySearch(i) => i < |s.workers| && s.workers[i].Executing?
    case StartSearch(i) => i < |s.workers| && s.workers[i].Loaded?
    case FoundWork(i) => i < |s.workers| && s.workers[i].Searcher?
    case Enter(i) => i < |s.workers| && !s.lock && (s.workers[i].Refused? || s.workers[i].Searcher?)
    case PushSelf(i) => i < |s.workers| && s.workers[i].Entering?
    case Leave(i) => i < |s.workers| && !s.lock && s.workers[i].Parked?
    case Notify(_) => !s.lock
  }

  function Step(s: Scheduler, a: Action): Scheduler
    requires CanStep(s, a)
  {
    match a
    case TrySearch(i) =>
      if 2 * s.counter >= U8_RANGE then s.(overflowed := true)
      else if 2 * s.counter >= |s.workers| then s.(workers := s.workers[i := Refused])
      else s.(workers := s.workers[i := Loaded])
    case StartSearch(i) => s.(workers := s.workers[i := Searcher], counter := s.counter + 1)
    case FoundWork(i) => s.(workers := s.workers[i := Executing], counter := s.counter - 1)
    case Enter(i) =>
      var searching := s.workers[i].Searcher?;
      s.(workers := s.workers[i := Entering(searching && s.counter == 1)],
         counter := if searching then s.counter - 1 else s.counter, lock := true)
    case PushSelf(i) =>
      if |s.parked| >= |s.workers| then s.(pushFailed := true, lock := false)
      else s.(workers := s.workers[i := Parked(s.workers[i].last, false)], parked := s.parked + [i], lock := false)
    case Leave(i) =>
      var at := Position(s.parked, i);
      s.(workers := s.workers[i := Executing], parked := if at < |s.parked| then SwapRemove(s.parked, at) else s.parked)
    case Notify(current) =>
      var at := FirstOther(s.parked, current);
      if at >= |s.parked| || s.parked[at] >= |s.workers| then s
      else s.(workers := s.workers[s.parked[at] := MarkTaken(s.workers[s.parked[at]])], parked := SwapRemove(s.parked, at))
  }

  function MarkTaken(w: Worker): Worker { if w.Parked? then w.(taken := true) else w }

  /** Where `x` first stands, or the length. */
  function Position(list: seq<nat>, x: nat): (at: nat)
    ensures at <= |list|
    ensures at < |list| ==> list[at] == x
    ensures forall k :: 0 <= k < at ==> list[k] != x
  {
    if list == [] || list[0] == x then 0 else 1 + Position(list[1..], x)
  }

  /** The first entry that is not the notifier itself, or the length. */
  function FirstOther(list: seq<nat>, current: int): (at: nat)
    ensures at <= |list|
    ensures at < |list| ==> list[at] != current
    ensures forall k :: 0 <= k < at ==> list[k] == current
  {
    if list == [] || list[0] != current then 0 else 1 + FirstOther(list[1..], current)
  }

  /** Constant-time removal: the last entry takes the place of the removed one. */
  function SwapRemove(list: seq<nat>, at: nat): (rest: seq<nat>)
    requires at < |list|
    ensures |rest| == |list| - 1
  {
    list[at := list[|list| - 1]][..|list| - 1]
  }

  /** Removing by swapping takes out exactly that entry. */
  lemma SwapRemoveTakesOne(list: seq<nat>, at: nat)
    requires at < |list| && Distinct(list)
    ensures Distinct(SwapRemove(list, at))
    ensures forall x :: x in SwapRemove(list, at) <==> x in list && x != list[at]
  {
    var rest := SwapRemove(list, at);
    forall x | x in list && x != list[at] ensures x in rest {
      var k :| 0 <= k < |list| && list[k] == x;
      assert k < |list| - 1 ==> rest[k] == x;
      assert k == |list| - 1 ==> rest[at] == x;
    }
  }

  // ---------------------------------------------------------------- the counter

  function Searchers(workers: seq<Worker>): nat {
    if workers == [] then 0 else (if workers[0].Searcher? then 1 else 0) + Searchers(workers[1..])
  }

  lemma {:induction false} SearchersUpdate(workers: seq<Worker>, i: nat, w: Worker)
    requires i < |workers|
    ensures Searchers(workers[i := w]) + (if workers[i].Searcher? then 1 else 0)
         == Searchers(workers) + (if w.Searcher? then 1 else 0)
  {
    if i == 0 {
      assert workers[0 := w][1..] == workers[1..];
    } else {
      SearchersUpdate(workers[1..], i - 1, w);
      assert workers[i := w][1..] == workers[1..][i - 1 := w];
    }
  }

  /** Workers that do not search leave room below the count of all. */
  lemma {:induction false} SearchersBelow(workers: seq<Worker>, i: nat)
    requires i < |workers| && !workers[i].Searcher?
    ensures Searchers(workers) < |workers|
  {
    if i == 0 { SearchersAtMost(workers[1..]); } else { SearchersBelow(workers[1..], i - 1); }
  }

  lemma {:induction false} SearchersAtMost(workers: seq<Worker>)
    ensures Searchers(workers) <= |workers|
  {
    if workers != [] { SearchersAtMost(workers[1..]); }
  }

  lemma {:induction false} SearchersSome(workers: seq<Worker>, i: nat)
    requires i < |workers| && workers[i].Searcher?
    ensures Searchers(workers) >= 1
  {
    if i != 0 { SearchersSome(workers[1..], i - 1); }
  }

  lemma {:induction false} SearchersNone(workers: seq<Worker>)
    ensures Searchers(workers) == 0 <==> forall i :: 0 <= i < |workers| ==> !workers[i].Searcher?
  {
    if workers != [] {
      SearchersNone(workers[1..]);
      assert forall i :: 0 <= i < |workers| - 1 ==> workers[1..][i] == workers[i + 1];
      if forall i :: 0 <= i < |workers| - 1 ==> !workers[1..][i].Searcher? {
        assert forall i :: 1 <= i < |workers| ==> workers[i] == workers[1..][i - 1];
      }
    }
  }

  // ---------------------------------------------------------------- what every run keeps

  /** The parked list: no index twice, and exactly the workers in the park section nobody took off it. */
  predicate ListOk(s: Scheduler) {
    && Distinct(s.parked)
    && (forall x :: x in s.parked ==> x < |s.workers| && s.workers[x].Parked?)
    && (forall i :: 0 <= i < |s.workers| && s.workers[i].Parked? ==> (i in s.parked <==> !s.workers[i].taken))
  }

  /** One worker at most is in the list's critical section. */
  predicate LockOk(s: Scheduler) {
    && (forall i :: 0 <= i < |s.workers| && s.workers[i].Entering? ==> s.lock)
    && (forall i, k :: 0 <= i < k < |s.workers| ==> !(s.workers[i].Entering? && s.workers[k].Entering?))
  }

  predicate Inv(s: Scheduler) {
    && 1 <= |s.workers| <= MAX_NUM_OF_WORKERS
    && s.counter == Searchers(s.workers)
    && ListOk(s) && LockOk(s)
    && !s.overflowed && !s.pushFailed
  }

  lemma FreshInv(s: Scheduler)
    requires Fresh(s)
    ensures Inv(s)
  {
    SearchersNone(s.workers);
  }

  /** A worker outside the park section stays outside. */
  lemma OutsideKeeps(s: Scheduler, i: nat, w: Worker, counter: int)
    requires ListOk(s) && LockOk(s) && i < |s.workers|
    requires !s.workers[i].Parked? && !s.workers[i].Entering? && !w.Parked? && !w.Entering?
    ensures var s' := s.(workers := s.workers[i := w], counter := counter); ListOk(s') && LockOk(s')
  {
    hide Distinct;
  }

  lemma SearchKeeps(s: Scheduler, a: Action)
    requires Inv(s) && CanStep(s, a) && (a.TrySearch? || a.StartSearch? || a.FoundWork?)
    ensures Inv(Step(s, a))
  {
    var s' := Step(s, a);
    if a.TrySearch? { SearchersBelow(s.workers, a.i); }
    SearchersUpdate(s.workers, a.i, s'.workers[a.i]);
    OutsideKeeps(s, a.i, s'.workers[a.i], s'.counter);
    hide Searchers, ListOk, LockOk;
  }

  lemma EnterKeeps(s: Scheduler, i: nat)
    requires Inv(s) && CanStep(s, Enter(i))
    ensures Inv(Step(s, Enter(i)))
  {
    SearchersUpdate(s.workers, i, Step(s, Enter(i)).workers[i]);
  }

  lemma PushSelfKeeps(s: Scheduler, i: nat)
    requires Inv(s) && CanStep(s, PushSelf(i))
    ensures Inv(Step(s, PushSelf(i)))
  {
    DistinctFit(s.parked + [i], Below(|s.workers|));
    SearchersUpdate(s.workers, i, Parked(s.workers[i].last, false));
  }

  lemma LeaveKeeps(s: Scheduler, i: nat)
    requires Inv(s) && CanStep(s, Leave(i))
    ensures Inv(Step(s, Leave(i)))
  {
    var at := Position(s.parked, i);
    if at < |s.parked| { SwapRemoveTakesOne(s.parked, at); }
    SearchersUpdate(s.workers, i, Executing);
    hide Searchers, SwapRemove, Distinct;
  }

  lemma NotifyKeeps(s: Scheduler, current: int)
    requires Inv(s) && CanStep(s, Notify(current))
    ensures Inv(Step(s, Notify(current)))
  {
    var at := FirstOther(s.parked, current);
    if at < |s.parked| && s.parked[at] < |s.workers| {
      var i := s.parked[at];
      assert i in s.parked;
      SwapRemoveTakesOne(s.parked, at);
      SearchersUpdate(s.workers, i, MarkTaken(s.workers[i]));
      hide Searchers, SwapRemove, Distinct;
    }
  }

  lemma StepKeeps(s: Scheduler, a: Action)
    requires Inv(s) && CanStep(s, a)
    ensures Inv(Step(s, a))
  {
    hide Inv, Step;
    match a
    case Enter(i) => EnterKeeps(s, i);
    case PushSelf(i) => PushSelfKeeps(s, i);
    case Leave(i) => LeaveKeeps(s, i);
    case Notify(current) => NotifyKeeps(s, current);
    case _ => SearchKeeps(s, a);
  }

  predicate IsRun(s: Scheduler, actions: seq<Action>)
    decreases |actions|
  {
    actions != [] ==> CanStep(s, actions[0]) && IsRun(Step(s, actions[0]), actions[1..])
  }

  function After(s: Scheduler, actions: seq<Action>): Scheduler
    requires IsRun(s, actions)
    decreases |actions|
  {
    if actions == [] then s else After(Step(s, actions[0]), actions[1..])
  }

  lemma {:induction false} RunKeeps(s: Scheduler, actions: seq<Action>)
    requires Inv(s) && IsRun(s, actions)
    ensures Inv(After(s, actions))
    decreases |actions|
  {
    if actions != [] {
      StepKeeps(s, actions[0]);
      hide Inv, Step, CanStep;
      RunKeeps(Step(s, actions[0]), actions[1..]);
    }
  }

  /**
    In every run the counter is the number of searching workers, so it never goes below zero;
    where it is doubled it stays within a byte; the parked list has no entry twice and holds
    exactly the workers in the park section that no notifier has taken off it; and the push
    onto it never fails.
   */
  lemma EveryRun(start: Scheduler, actions: seq<Action>)
    requires Fresh(start) && IsRun(start, actions)
    ensures var s := After(start, actions);
            && s.counter == Searchers(s.workers)
            && Distinct(s.parked)
            && (forall i :: 0 <= i < |s.workers| ==>
                  (i in s.parked <==> s.workers[i].Parked? && !s.workers[i].taken))
            && !s.overflowed && !s.pushFailed
            && (forall i :: 0 <= i < |s.workers| && s.workers[i].Executing? ==> 2 * s.counter < U8_RANGE)
            && (forall i :: 0 <= i < |s.workers| && s.workers[i].Entering? ==> |s.parked| < |s.workers|)
  {
    FreshInv(start);
    RunKeeps(start, actions);
    var s := After(start, actions);
    hide After, IsRun;
    forall i | 0 <= i < |s.workers| && s.workers[i].Executing? ensures 2 * s.counter < U8_RANGE {
      SearchersBelow(s.workers, i);
      hide Searchers;
    }
    forall i | 0 <= i < |s.workers| && s.workers[i].Entering? ensures |s.parked| < |s.workers| {
      PushSelfKeeps(s, i);
      hide Inv;
    }
    hide Searchers;
  }

  // ---------------------------------------------------------------- what the counter tells

  /** A worker that goes to sleep is told it was the last searcher exactly if it searched and nobody searches now. */
  lemma LastSearcherIff(s: Scheduler, i: nat)
    requires Inv(s) && CanStep(s, Enter(i))
    ensures var s' := Step(s, Enter(i));
            s'.workers[i].last <==>
              s.workers[i].Searcher? && (forall k :: 0 <= k < |s'.workers| ==> !s'.workers[k].Searcher?)
  {
    EnterKeeps(s, i);
    SearchersNone(Step(s, Enter(i)).workers);
  }

  /** A worker is let in exactly if fewer than half of the workers search at its load. */
  lemma LetInIff(s: Scheduler, i: nat)
    requires Inv(s) && CanStep(s, TrySearch(i))
    ensures Step(s, TrySearch(i)).workers[i].Loaded? <==> 2 * Searchers(s.workers) < |s.workers|
    ensures Step(s, TrySearch(i)).workers[i].Refused? <==> 2 * Searchers(s.workers) >= |s.workers|
  {
    SearchersBelow(s.workers, i);
  }

  /** An addition keeps searchers to half of the workers, rounded up, exactly if the check would still pass now. */
  lemma HalfKeptIff(s: Scheduler, i: nat)
    requires Inv(s) && CanStep(s, StartSearch(i))
    ensures var s' := Step(s, StartSearch(i));
            2 * Searchers(s'.workers) <= |s.workers| + 1 <==> 2 * s.counter < |s.workers|
  {
    SearchKeeps(s, StartSearch(i));
  }

  /** No two workers are between their load and their addition. */
  predicate OneLoaded(s: Scheduler) {
    forall i, k :: 0 <= i < k < |s.workers| ==> !(s.workers[i].Loaded? && s.workers[k].Loaded?)
  }

  /** At most half of the workers, rounded up, search, and a worker let in will not exceed that. */
  predicate WithinHalf(s: Scheduler) {
    && 2 * s.counter <= |s.workers| + 1
    && (forall i :: 0 <= i < |s.workers| && s.workers[i].Loaded? ==> 2 * s.counter < |s.workers|)
  }

  predicate SoloRun(s: Scheduler, actions: seq<Action>)
    requires IsRun(s, actions)
    decreases |actions|
  {
    OneLoaded(s) && (actions != [] ==> SoloRun(Step(s, actions[0]), actions[1..]))
  }

  lemma SoloStepKeepsHalf(s: Scheduler, a: Action)
    requires Inv(s) && CanStep(s, a) && OneLoaded(s) && WithinHalf(s)
    ensures WithinHalf(Step(s, a))
  {
    hide Searchers, ListOk, LockOk;
  }

  /** If no two workers ever load before one of them has added, searchers stay within half for the whole run. */
  lemma {:induction false} SoloRunKeepsHalf(s: Scheduler, actions: seq<Action>)
    requires Inv(s) && IsRun(s, actions) && SoloRun(s, actions) && WithinHalf(s)
    ensures WithinHalf(After(s, actions)) && 2 * Searchers(After(s, actions).workers) <= |After(s, actions).workers| + 1
    decreases |actions|
  {
    if actions != [] {
      SoloStepKeepsHalf(s, actions[0]);
      StepKeeps(s, actions[0]);
      hide Inv, Step, CanStep, WithinHalf, OneLoaded;
      SoloRunKeepsHalf(Step(s, actions[0]), actions[1..]);
    }
  }

  /** The load and the addition are two steps, so more than half of the workers can end up searching. */
  lemma HalfCanBeExceeded(s: Scheduler)
    requires s == Scheduler([Executing, Executing, Executing], 0, [], false, false, false)
    ensures Fresh(s)
    ensures var loaded := Step(Step(Step(s, TrySearch(0)), TrySearch(1)), TrySearch(2));
            loaded == s.(workers := [Loaded, Loaded, Loaded])
            && Step(Step(Step(loaded, StartSearch(0)), StartSearch(1)), StartSearch(2)).counter == 3
  {
  }

  // ---------------------------------------------------------------- operations by themselves

  /** A worker by itself searches if fewer than half do, and finding work takes it back to where it was. */
  lemma SearchAlone(s: Scheduler, i: nat)
    requires Inv(s) && CanStep(s, TrySearch(i))
    ensures var looked := Step(s, TrySearch(i));
            if 2 * s.counter >= |s.workers| then looked == s.(workers := s.workers[i := Refused])
            else var searching := Step(looked, StartSearch(i));
                 && searching == s.(workers := s.workers[i := Searcher], counter := s.counter + 1)
                 && Step(searching, FoundWork(i)) == s
  {
    SearchersBelow(s.workers, i);
    hide Searchers, ListOk, LockOk;
    assert s.workers[i := Loaded][i := Searcher] == s.workers[i := Searcher];
    assert s.workers[i := Searcher][i := Executing] == s.workers;
  }

  /**
    A worker by itself goes to park: it stops searching, learns whether it was the last, and is
    at the end of the parked list; when it leaves it is off the list and executes.
   */
  lemma ParkAlone(s: Scheduler, i: nat)
    requires Inv(s) && CanStep(s, Enter(i))
    ensures var parked := Step(Step(s, Enter(i)), PushSelf(i));
            var searching := s.workers[i].Searcher?;
            && parked == s.(workers := s.workers[i := Parked(searching && s.counter == 1, false)],
                            counter := if searching then s.counter - 1 else s.counter, parked := s.parked + [i])
            && Step(parked, Leave(i)) == parked.(workers := s.workers[i := Executing], parked := s.parked)
  {
    var entered := Step(s, Enter(i));
    EnterKeeps(s, i);
    var parked := Step(entered, PushSelf(i));
    PushSelfKeeps(entered, i);
    assert !parked.pushFailed && i !in s.parked;
    assert parked.parked == s.parked + [i];
    hide Searchers;
    PositionOfLast(s.parked, i);
    assert SwapRemove(s.parked + [i], |s.parked|) == s.parked;
  }

  lemma {:induction false} PositionOfLast(list: seq<nat>, x: nat)
    requires x !in list
    ensures Position(list + [x], x) == |list|
  {
    if list != [] {
      assert (list + [x])[1..] == list[1..] + [x];
      PositionOfLast(list[1..], x);
    }
  }
}
