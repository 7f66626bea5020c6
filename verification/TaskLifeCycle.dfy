/**
  One task from spawn to join: any number of pollers, ordinary and safety wakers, and the
  owner of the join handle, who polls it and may abort. Every update of the state word and
  every access to the stage or waker cell is one step; a run is any interleaving of steps.
 */
module TaskLifeCycle {
  import opened Common
  import opened TaskWord

  type Value = int

  datatype Stage = InProgress | Completed(value: Value) | Extracted

  /**
    The poller that moved the word to running. `Returned` holds a pending answer and has not
    moved the word back. One that finds the word canceled clears the stage: after a pending
    answer from inside its access to the cell (`ClearingInside`), after a result from outside
    (`Clearing`). `Cleared` is for good: the word stays running and canceled.
   */
  datatype Runner =
    | NoRunner | Polling | Returned | Storing(v: Value) | Finishing | WakingJoin
    | ClearingInside | Clearing | Cleared

  datatype JoinResult = Ok(value: Value) | OperationAborted

  /** The owner of the join handle. `first` is the poll that tried to leave a waker. */
  datatype Holder =
    | New | Polled | Done
    | StoringWaker | WakerStored
    | Asking(first: bool)
    | Taking
    | AbortClearing(back: Holder)

  /** Why a thread stopped for good. */
  datatype Fault =
    | NoFault
    | RunningAssert       // polled a word that is neither running nor idle
    | IdleAssert | CompletedAssert
    | StageAssert         // a poll found no future in the stage
    | WakerAssert         // a joined task found no waker
    | JoinAssert          // the join handle got an answer it cannot handle

  /**
    `entries` counts references in run queues, `pushing` threads about to add one, `popped`
    pollers that took one and have not started. `leaving` and `requeueing` count pollers that
    are done with the stage and still inside its cell, the latter with the task to
    queue again once they are out. `hasSafety` tells whether a safety queue is
    configured, `begun` whether the task was ever polled (wakers exist only then). The last
    three fields are history.
   */
  datatype Task = Task(word: Flags, stage: Stage, waker: bool, runner: Runner, holder: Holder,
                       entries: nat, pushing: nat, popped: nat, leaving: nat, requeueing: nat,
                       hasSafety: bool, begun: bool, fault: Fault,
                       produced: Option<Value>, joinWoken: bool, results: seq<JoinResult>)

  datatype Action =
    | Pop | Begin
    | PollStage(ready: Option<Value>) | GoIdle | LeaveCell | LeaveCellToPush
    | StoreResult | Complete | WakeJoin | ClearStage
    | Wake | SafetyWake | Push
    | HandlePoll | HandleStore | HandleSetWaker | HandleAsk | HandleTake
    | Abort | AbortClear

  function Spawned(hasSafety: bool): Task {
    Task(Flags(true, false, false, false, false, false, false), InProgress, false, NoRunner, New,
         1, 0, 0, 0, 0, hasSafety, false, NoFault, None, false, [])
  }

  predicate Resting(h: Holder) { h.New? || h.Polled? || h.Done? }

  predicate CanStep(t: Task, a: Action) {
    && t.fault.NoFault?
    && match a
       case Pop => t.entries > 0
       case Begin => t.popped > 0
       case PollStage(_) => t.runner.Polling?
       case GoIdle => t.runner.Returned?
       case LeaveCell => t.leaving > 0
       case LeaveCellToPush => t.requeueing > 0
       case StoreResult => t.runner.Storing?
       case Complete => t.runner.Finishing?
       case WakeJoin => t.runner.WakingJoin?
       case ClearStage => t.runner.Clearing? || t.runner.ClearingInside?
       case Wake => t.begun
       case SafetyWake => t.begun
       case Push => t.pushing > 0
       case HandlePoll => t.holder.New? || t.holder.Polled?
       case HandleStore => t.holder.StoringWaker?
       case HandleSetWaker => t.holder.WakerStored?
       case HandleAsk => t.holder.Asking?
       case HandleTake => t.holder.Taking?
       case Abort => Resting(t.holder)
       case AbortClear => t.holder.AbortClearing?
  }

  function Step(t: Task, a: Action): Task
    requires CanStep(t, a)
  {
    match a
    case Pop => t.(entries := t.entries - 1, popped := t.popped + 1)
    case Begin => BeginStep(t)
    case PollStage(ready) => PollStageStep(t, ready)
    case GoIdle => GoIdleStep(t)
    case LeaveCell => t.(leaving := t.leaving - 1)
    case LeaveCellToPush => t.(requeueing := t.requeueing - 1, pushing := t.pushing + 1)
    case StoreResult => t.(stage := Completed(t.runner.v), runner := Finishing)
    case Complete => CompleteStep(t)
    case WakeJoin =>
      if t.waker then t.(waker := false, joinWoken := true, runner := NoRunner) else t.(fault := WakerAssert)
    case ClearStage => ClearStageStep(t)
    case Wake => WakeStep(t, SetNotified(t.word), true)
    case SafetyWake => WakeStep(t, SetSafetyNotified(t.word), t.hasSafety)
    case Push => t.(pushing := t.pushing - 1, entries := t.entries + 1)
    case HandlePoll => t.(holder := if t.holder.New? then StoringWaker else Asking(false))
    case HandleStore => t.(waker := true, holder := WakerStored)
    case HandleSetWaker => SetWakerStep(t)
    case HandleAsk => AskStep(t)
    case HandleTake => TakeStep(t)
    case Abort => AbortStep(t)
    case AbortClear => t.(stage := Extracted, holder := t.holder.back)
  }

  /** `schedule` and `schedule_safety`: the word first, the queue later. */
  function WakeStep(t: Task, o: Outcome<Flags, ToNotifiedAnswer>, pushes: bool): (t': Task)
    ensures t'.hasSafety == t.hasSafety && t'.stage == t.stage && t'.produced == t.produced
  {
    match o
    case Set(next, MustPush) => t.(word := next, pushing := if pushes then t.pushing + 1 else t.pushing)
    case Set(next, _) => t.(word := next)
    case _ => t
  }

  /** `poll_internal`. */
  function BeginStep(t: Task): (t': Task)
    requires t.popped > 0
    ensures t'.hasSafety == t.hasSafety && t'.stage == t.stage && t'.produced == t.produced
  {
    var taken := t.(popped := t.popped - 1);
    match ToRunning(t.word)
    case Panics => taken.(fault := RunningAssert)
    case Keep(Started) => taken.(runner := Polling, begun := true)
    case Keep(_) => taken
    case Set(next, _) => taken.(word := next, runner := Polling, begun := true)
  }

  /** `poll_core` inside the stage cell: the future is polled there. */
  function PollStageStep(t: Task, ready: Option<Value>): (t': Task)
    ensures t'.hasSafety == t.hasSafety && t'.stage == t.stage
    ensures t'.produced == t.produced || t'.produced == ready
  {
    if !t.stage.InProgress? then t.(fault := StageAssert)
    else if ready.Some? then t.(runner := Storing(ready.value), produced := ready)
    else t.(runner := Returned)
  }

  /** Still inside the cell, after a pending answer; `run_task` queues a notified task again later. */
  function GoIdleStep(t: Task): (t': Task)
    ensures t'.hasSafety == t.hasSafety && t'.stage == t.stage && t'.produced == t.produced
  {
    match ToIdle(t.word)
    case Panics => t.(fault := IdleAssert)
    case Keep(_) => t.(runner := ClearingInside)
    case Set(next, WasNotified) => t.(word := next, runner := NoRunner, requeueing := t.requeueing + 1)
    case Set(next, _) => t.(word := next, runner := NoRunner, leaving := t.leaving + 1)
  }

  /** The second half of `poll_core`. */
  function CompleteStep(t: Task): (t': Task)
    ensures t'.hasSafety == t.hasSafety && t'.stage == t.stage && t'.produced == t.produced
  {
    match ToCompleted(t.word)
    case Panics => t.(fault := CompletedAssert)
    case Keep(_) => t.(runner := Clearing)
    case Set(next, HadJoinHandle) => t.(word := next, runner := WakingJoin)
    case Set(next, _) => t.(word := next, runner := NoRunner)
  }

  /** `clear_stage`: the access of a poller that clears from inside stays open. */
  function ClearStageStep(t: Task): (t': Task)
    ensures t'.hasSafety == t.hasSafety && t'.produced == t.produced
  {
    t.(stage := Extracted, runner := Cleared,
       leaving := if t.runner.ClearingInside? then t.leaving + 1 else t.leaving)
  }

  /** What a step of the join handle does not touch. */
  predicate LeavesPollersAlone(t: Task, t': Task) {
    && t'.entries == t.entries && t'.pushing == t.pushing && t'.popped == t.popped
    && t'.leaving == t.leaving && t'.requeueing == t.requeueing
    && t'.hasSafety == t.hasSafety && t'.begun == t.begun && t'.runner == t.runner && t'.produced == t.produced
    && t'.word.(joined := false, canceled := false) == t.word.(joined := false, canceled := false)
    && (t.word.canceled ==> t'.word.canceled)
    && (t'.fault == t.fault || t'.fault.JoinAssert?)
  }

  /** The first poll of the join handle, once the waker is in its cell. */
  function SetWakerStep(t: Task): (t': Task)
    ensures LeavesPollersAlone(t, t') && t'.stage == t.stage
  {
    match SetWaker(t.word)
    case Set(next, _) => t.(word := next, holder := Polled)
    case _ => t.(holder := Asking(true))
  }

  /** `get_future_ret` up to the stage, and what the join handle makes of its answer. */
  function AskStep(t: Task): (t': Task)
    requires t.holder.Asking?
    ensures LeavesPollersAlone(t, t') && t'.stage == t.stage
  {
    if t.word.canceled then t.(holder := Done, results := t.results + [OperationAborted])
    else if t.word.completed then t.(holder := Taking)
    else if t.holder.first then t.(fault := JoinAssert)
    else t.(holder := Polled)
  }

  /** `get_future_ret` on the stage. */
  function TakeStep(t: Task): (t': Task)
    ensures LeavesPollersAlone(t, t')
  {
    if t.stage.Completed? then t.(stage := Extracted, holder := Done, results := t.results + [Ok(t.stage.value)])
    else t.(stage := Extracted, fault := JoinAssert)
  }

  function AbortStep(t: Task): (t': Task)
    ensures LeavesPollersAlone(t, t') && t'.stage == t.stage
  {
    match ToCanceled(t.word)
    case Set(next, Canceled) => t.(word := next, holder := AbortClearing(t.holder))
    case Set(next, _) => t.(word := next)
    case _ => t
  }

  // ---------------------------------------------------------------- what every run keeps

  /** References to the task on their way to a poll. */
  function Tokens(t: Task): nat { t.entries + t.pushing + t.popped + t.requeueing }

  /** Exactly one of idle, running and completed. */
  predicate OneOf(f: Flags) {
    || (f.idle && !f.running && !f.completed)
    || (!f.idle && f.running && !f.completed)
    || (!f.idle && !f.running && f.completed)
  }

  /** The holder has not yet marked the task as joined. */
  predicate Unjoined(h: Holder) {
    h.New? || h.StoringWaker? || h.WakerStored? || h == AbortClearing(New)
  }

  /** The holder left its waker and waits. */
  predicate Waits(h: Holder) {
    h.Polled? || h == Asking(false) || h == AbortClearing(Polled)
  }

  predicate Answered(h: Holder) { h.Done? || h == AbortClearing(Done) }

  predicate RunnerOk(t: Task) {
    match t.runner
    case NoRunner => !t.word.running
    case Polling => t.word.running && t.stage.InProgress? && t.produced.None?
    case Returned => t.word.running && t.stage.InProgress? && t.produced.None?
    case Storing(v) => t.word.running && t.stage.InProgress? && t.produced == Some(v)
    case Finishing => t.word.running && t.stage.Completed? && t.produced == Some(t.stage.value)
    case WakingJoin => t.word.completed && t.waker && !Unjoined(t.holder)
    case ClearingInside => t.word.running && t.word.canceled
    case Clearing => t.word.running && t.word.canceled
    case Cleared => t.word.running && t.word.canceled && t.stage.Extracted?
  }

  predicate HolderOk(t: Task) {
    && (t.word.joined ==> t.waker && !Unjoined(t.holder))
    && (t.holder.WakerStored? ==> t.waker)
    && (t.holder == Asking(true) ==> t.word.completed || t.word.canceled)
    && (t.holder.Taking? ==> t.word.completed)
    && (t.holder.AbortClearing? ==> t.word.canceled && t.word.idle && Resting(t.holder.back))
    && (Waits(t.holder) && !t.word.canceled ==>
          if t.word.completed then t.joinWoken || t.runner.WakingJoin? else t.word.joined)
  }

  predicate ResultOk(t: Task) {
    && |t.results| == (if Answered(t.holder) then 1 else 0)
    && (t.word.completed ==>
          && t.word == Flags(false, false, true, false, false, false, false)
          && t.produced.Some?
          && t.stage == if t.results == [] then Completed(t.produced.value) else Extracted)
    && (t.results != [] && t.results[0].Ok? ==> t.word.completed && t.produced == Some(t.results[0].value))
    && (t.results != [] && t.results[0].OperationAborted? ==> t.word.canceled)
    && (t.word.idle ==> t.produced.None? && (t.word.canceled || t.stage.InProgress?))
  }

  /** The only thread that can stop is a poller that finds the word completed. */
  predicate FaultOk(t: Task) {
    t.fault.NoFault? || (t.fault.RunningAssert? && t.word.completed)
  }

  predicate Inv(t: Task) {
    && OneOf(t.word) && RunnerOk(t) && HolderOk(t) && ResultOk(t) && FaultOk(t)
    && (!t.begun ==> t.word.idle && !t.word.Notified())
  }

  lemma SpawnedInv(hasSafety: bool)
    ensures Inv(Spawned(hasSafety)) && NoLostWake(Spawned(hasSafety)) && OneToken(Spawned(hasSafety))
    ensures !hasSafety ==> AtMostOne(Spawned(hasSafety))
  {
  }

  lemma BeginKeeps(t: Task)
    requires Inv(t) && CanStep(t, Begin)
    ensures Inv(BeginStep(t))
  {
    var t' := BeginStep(t);
    assert HolderOk(t') by { hide ResultOk; }
    hide HolderOk;
    assert ResultOk(t');
    hide ResultOk;
  }

  lemma PollStageKeeps(t: Task, ready: Option<Value>)
    requires Inv(t) && CanStep(t, PollStage(ready))
    ensures Inv(PollStageStep(t, ready))
  {
  }

  lemma GoIdleKeeps(t: Task)
    requires Inv(t) && CanStep(t, GoIdle)
    ensures Inv(GoIdleStep(t))
  {
  }

  lemma CompleteKeeps(t: Task)
    requires Inv(t) && CanStep(t, Complete)
    ensures Inv(CompleteStep(t))
  {
  }

  lemma SetWakerKeeps(t: Task)
    requires Inv(t) && CanStep(t, HandleSetWaker)
    ensures Inv(SetWakerStep(t))
  {
  }

  lemma AskKeeps(t: Task)
    requires Inv(t) && CanStep(t, HandleAsk)
    ensures Inv(AskStep(t))
  {
  }

  lemma TakeKeeps(t: Task)
    requires Inv(t) && CanStep(t, HandleTake)
    ensures Inv(TakeStep(t))
  {
  }

  lemma AbortKeeps(t: Task)
    requires Inv(t) && CanStep(t, Abort)
    ensures Inv(AbortStep(t))
  {
  }

  lemma SmallStepKeeps(t: Task, a: Action)
    requires Inv(t) && CanStep(t, a)
    requires a.StoreResult? || a.WakeJoin? || a.ClearStage? || a.HandlePoll? || a.HandleStore? || a.AbortClear?
    ensures Inv(Step(t, a))
  {
  }

  lemma TrafficKeeps(t: Task, a: Action)
    requires Inv(t) && CanStep(t, a)
    requires a.Pop? || a.Push? || a.Wake? || a.SafetyWake? || a.LeaveCell? || a.LeaveCellToPush?
    ensures Inv(Step(t, a))
  {
  }

  lemma StepKeepsInv(t: Task, a: Action)
    requires Inv(t) && CanStep(t, a)
    ensures Inv(Step(t, a))
  {
    hide Inv;
    if a.Begin? { BeginKeeps(t); }
    else if a.PollStage? { PollStageKeeps(t, a.ready); }
    else if a.GoIdle? { GoIdleKeeps(t); }
    else if a.Complete? { CompleteKeeps(t); }
    else if a.HandleSetWaker? { SetWakerKeeps(t); }
    else if a.HandleAsk? { AskKeeps(t); }
    else if a.HandleTake? { TakeKeeps(t); }
    else if a.Abort? { AbortKeeps(t); }
    else if a.Pop? || a.Push? || a.Wake? || a.SafetyWake? || a.LeaveCell? || a.LeaveCellToPush? { TrafficKeeps(t, a); }
    else { SmallStepKeeps(t, a); }
  }

  // ---------------------------------------------------------------- no wake is lost

  /** A task that should run is on its way to a poller. */
  predicate NoLostWake(t: Task) {
    t.word.idle && !t.word.canceled && (!t.begun || t.word.Notified()) ==> Tokens(t) >= 1
  }

  lemma BeginKeepsWakes(t: Task)
    requires Inv(t) && NoLostWake(t) && CanStep(t, Begin)
    ensures NoLostWake(BeginStep(t))
  {
    hide HolderOk, ResultOk;
  }

  lemma GoIdleKeepsWakes(t: Task)
    requires Inv(t) && NoLostWake(t) && CanStep(t, GoIdle)
    ensures NoLostWake(GoIdleStep(t))
  {
    hide HolderOk, ResultOk;
  }

  lemma HolderKeepsWakes(t: Task, a: Action)
    requires NoLostWake(t) && CanStep(t, a)
    requires a.HandleSetWaker? || a.HandleAsk? || a.HandleTake? || a.Abort?
    ensures NoLostWake(Step(t, a))
  {
    hide BeginStep, GoIdleStep, PollStageStep, CompleteStep, WakeStep, SetWakerStep, AskStep, TakeStep, AbortStep;
  }

  lemma StepKeepsWakes(t: Task, a: Action)
    requires Inv(t) && NoLostWake(t) && CanStep(t, a) && (a.SafetyWake? ==> t.hasSafety)
    ensures NoLostWake(Step(t, a))
  {
    hide HolderOk, ResultOk;
    if a.Begin? { BeginKeepsWakes(t); hide BeginStep, NoLostWake; }
    else if a.GoIdle? { GoIdleKeepsWakes(t); hide GoIdleStep, NoLostWake; }
    else if a.HandleSetWaker? || a.HandleAsk? || a.HandleTake? || a.Abort? {
      HolderKeepsWakes(t, a);
      hide Step, NoLostWake;
    }
    else { hide BeginStep, GoIdleStep, SetWakerStep, AskStep, TakeStep, AbortStep, RunnerOk; }
  }

  /** A safety wake keeps the task reachable exactly when there is a queue, nothing to push, or already a reference. */
  lemma SafetyWakeKeepsIff(t: Task)
    requires Inv(t) && NoLostWake(t) && CanStep(t, SafetyWake)
    ensures NoLostWake(Step(t, SafetyWake)) <==>
              || t.hasSafety || Tokens(t) >= 1
              || !t.word.idle || t.word.canceled || t.word.safety
  {
  }

  /** A wake that meets a run is remembered until the run ends, and ending it pending has the task queued again. */
  lemma WakeDuringRunRequeues(t: Task, a: Action)
    requires Inv(t) && CanStep(t, a) && t.word.running && t.word.Notified() && !t.word.canceled
    ensures var t' := Step(t, a);
            || (t'.word.running && t'.word.Notified())
            || t'.word.completed
            || (a.GoIdle? && t'.word.idle && t'.word.Notified() && t'.requeueing == t.requeueing + 1)
  {
    hide HolderOk, ResultOk;
    if a.Begin? { hide PollStageStep, GoIdleStep, CompleteStep, SetWakerStep, AskStep, TakeStep, AbortStep, WakeStep; }
    else if a.PollStage? || a.GoIdle? || a.Complete? { hide BeginStep, SetWakerStep, AskStep, TakeStep, AbortStep, WakeStep; }
    else { hide BeginStep, PollStageStep, GoIdleStep, CompleteStep; }
  }

  /** A wake of a task that is neither finished nor canceled leaves it notified. */
  lemma WakeNotifies(t: Task, a: Action)
    requires Inv(t) && CanStep(t, a) && (a.Wake? || a.SafetyWake?) && !t.word.completed && !t.word.canceled
    ensures Step(t, a).word.Notified()
  {
  }

  // ---------------------------------------------------------------- ordinary wakes only

  /** At most one reference, none while running or finished, one exactly when the task should run. */
  predicate OneToken(t: Task) {
    && !t.word.safety && Tokens(t) <= 1 && t.fault.NoFault?
    && (t.word.running || t.word.completed ==> Tokens(t) == 0)
    && (t.word.idle && t.begun && !t.word.notified ==> Tokens(t) == 0)
    && (t.word.idle && !t.word.canceled && (t.word.notified || !t.begun) ==> Tokens(t) == 1)
  }

  lemma OrdinaryBeginKeeps(t: Task)
    requires Inv(t) && OneToken(t) && CanStep(t, Begin)
    ensures OneToken(BeginStep(t))
  {
    hide HolderOk, ResultOk;
  }

  lemma OrdinaryGoIdleKeeps(t: Task)
    requires Inv(t) && OneToken(t) && CanStep(t, GoIdle)
    ensures OneToken(GoIdleStep(t))
  {
    hide HolderOk, ResultOk;
  }

  lemma OrdinaryCompleteKeeps(t: Task)
    requires Inv(t) && OneToken(t) && CanStep(t, Complete)
    ensures OneToken(CompleteStep(t))
  {
    hide HolderOk, ResultOk;
  }

  lemma OrdinaryHolderKeeps(t: Task, a: Action)
    requires Inv(t) && OneToken(t) && CanStep(t, a)
    requires a.HandleSetWaker? || a.HandleAsk? || a.HandleTake? || a.Abort?
    ensures OneToken(Step(t, a))
  {
    StepKeepsInv(t, a);
    hide HolderOk, ResultOk, RunnerOk;
    hide BeginStep, GoIdleStep, PollStageStep, CompleteStep, WakeStep, SetWakerStep, AskStep, TakeStep, AbortStep;
  }

  lemma OrdinaryStepKeeps(t: Task, a: Action)
    requires Inv(t) && OneToken(t) && CanStep(t, a) && !a.SafetyWake?
    ensures OneToken(Step(t, a))
  {
    if a.Begin? { OrdinaryBeginKeeps(t); hide Inv, OneToken, BeginStep; }
    else if a.GoIdle? { OrdinaryGoIdleKeeps(t); hide Inv, OneToken, GoIdleStep; }
    else if a.Complete? { OrdinaryCompleteKeeps(t); hide Inv, OneToken, CompleteStep; }
    else if a.HandleSetWaker? || a.HandleAsk? || a.HandleTake? || a.Abort? { OrdinaryHolderKeeps(t, a); }
    else {
      hide BeginStep, GoIdleStep, CompleteStep, SetWakerStep, AskStep, TakeStep, AbortStep, HolderOk, ResultOk;
    }
  }

  // ---------------------------------------------------------------- no safety queue

  /** Without a safety queue, whatever the wakes: never a second reference, none while running or finished. */
  predicate AtMostOne(t: Task) {
    && !t.hasSafety && Tokens(t) <= 1 && t.fault.NoFault?
    && (t.word.running || t.word.completed ==> Tokens(t) == 0)
    && (t.word.idle && t.begun && !t.word.Notified() ==> Tokens(t) == 0)
  }

  lemma UnsafePollerKeeps(t: Task, a: Action)
    requires Inv(t) && AtMostOne(t) && CanStep(t, a) && (a.Begin? || a.GoIdle? || a.Complete? || a.PollStage?)
    ensures AtMostOne(Step(t, a))
  {
    hide HolderOk, ResultOk, WakeStep, SetWakerStep, AskStep, TakeStep, AbortStep;
  }

  lemma UnsafeHolderKeeps(t: Task, a: Action)
    requires Inv(t) && AtMostOne(t) && CanStep(t, a)
    requires a.HandleSetWaker? || a.HandleAsk? || a.HandleTake? || a.Abort?
    ensures AtMostOne(Step(t, a))
  {
    StepKeepsInv(t, a);
    hide HolderOk, ResultOk, RunnerOk;
    hide BeginStep, GoIdleStep, PollStageStep, CompleteStep, WakeStep, SetWakerStep, AskStep, TakeStep, AbortStep;
  }

  lemma UnsafeStepKeeps(t: Task, a: Action)
    requires Inv(t) && AtMostOne(t) && CanStep(t, a)
    ensures AtMostOne(Step(t, a))
  {
    if a.Begin? || a.GoIdle? || a.Complete? || a.PollStage? { UnsafePollerKeeps(t, a); hide Inv, AtMostOne, Step; }
    else if a.HandleSetWaker? || a.HandleAsk? || a.HandleTake? || a.Abort? {
      UnsafeHolderKeeps(t, a);
      hide Inv, AtMostOne, Step;
    } else {
      hide BeginStep, GoIdleStep, PollStageStep, CompleteStep, SetWakerStep, AskStep, TakeStep, AbortStep;
      hide HolderOk, ResultOk;
    }
  }

  // ---------------------------------------------------------------- runs

  predicate IsRun(t: Task, actions: seq<Action>)
    decreases |actions|
  {
    actions != [] ==> CanStep(t, actions[0]) && IsRun(Step(t, actions[0]), actions[1..])
  }

  function After(t: Task, actions: seq<Action>): Task
    requires IsRun(t, actions)
    decreases |actions|
  {
    if actions == [] then t else After(Step(t, actions[0]), actions[1..])
  }

  lemma {:induction false} RunKeeps(t: Task, actions: seq<Action>)
    requires Inv(t) && IsRun(t, actions)
    ensures Inv(After(t, actions))
    ensures NoLostWake(t) && t.hasSafety ==> NoLostWake(After(t, actions)) && After(t, actions).hasSafety
    ensures OneToken(t) && SafetyWake !in actions ==> OneToken(After(t, actions))
    ensures AtMostOne(t) ==> AtMostOne(After(t, actions))
    decreases |actions|
  {
    if actions != [] {
      var a, t' := actions[0], Step(t, actions[0]);
      StepKeepsInv(t, a);
      if NoLostWake(t) && t.hasSafety { StepKeepsWakes(t, a); KeepsSafety(t, a); }
      if OneToken(t) && !a.SafetyWake? { OrdinaryStepKeeps(t, a); }
      if AtMostOne(t) { UnsafeStepKeeps(t, a); }
      assert forall b :: b in actions[1..] ==> b in actions;
      hide Inv, NoLostWake, OneToken, AtMostOne, Step, CanStep;
      RunKeeps(t', actions[1..]);
    }
  }

  lemma KeepsSafety(t: Task, a: Action)
    requires CanStep(t, a)
    ensures Step(t, a).hasSafety == t.hasSafety
  {
    hide WakeStep, BeginStep, PollStageStep, GoIdleStep, CompleteStep, SetWakerStep, AskStep, TakeStep, AbortStep;
  }

  /** Who may still read or write the stage: a poller until it moves the word, and the join handle. */
  function StageUsers(t: Task): nat {
    (if PollerUses(t.runner) then 1 else 0) + (if HolderUses(t.holder) then 1 else 0)
  }

  predicate PollerUses(r: Runner) {
    r.Polling? || r.Returned? || r.Storing? || r.ClearingInside? || r.Clearing?
  }

  predicate HolderUses(h: Holder) { h.Taking? || h.AbortClearing? }

  /** Pollers that are done with the stage and have not closed their access to it. */
  function Leavers(t: Task): nat { t.leaving + t.requeueing }

  /** The open accesses to the stage cell: a poller that clears from inside has two. */
  function Inside(t: Task): nat {
    StageUsers(t) + Leavers(t) + if t.runner.ClearingInside? then 1 else 0
  }

  /** A step opens an access to the stage cell, for a party that has none open. */
  predicate Opens(t: Task, a: Action) {
    || (a.Begin? && t.word.idle && !t.word.canceled)
    || (a.Abort? && t.word.idle && !t.word.canceled)
    || (a.HandleAsk? && t.word.completed)
    || (a.Complete? && t.word.canceled)
  }

  /** Who is inside the waker cell. */
  function WakerUsers(t: Task): nat {
    (if t.runner.WakingJoin? then 1 else 0) + (if t.holder.StoringWaker? then 1 else 0)
  }

  /**
    In every run, with ordinary and safety wakes alike: the cells have one user at a time,
    although pollers that are done with the stage may still be leaving its cell; the join handle
    answers at most once, with the value the future itself returned and only if the word reached
    completed, or with an abort only if it was canceled; and a waiting join is woken. The only
    assertion that can fail is the one of a poll that finds the word completed.
   */
  lemma EveryRun(start: Task, actions: seq<Action>)
    requires start == Spawned(start.hasSafety) && IsRun(start, actions)
    ensures var t := After(start, actions);
            && OneOf(t.word)
            && StageUsers(t) <= 1 && WakerUsers(t) <= 1
            && |t.results| <= 1
            && (t.results != [] && t.results[0].Ok? ==>
                  && t.word.completed && !t.word.canceled && t.produced == Some(t.results[0].value)
                  && PollStage(Some(t.results[0].value)) in actions)
            && (t.results != [] && t.results[0].OperationAborted? ==> t.word.canceled && !t.word.completed)
            && (t.word.completed && t.holder.Polled? ==> t.joinWoken || t.runner.WakingJoin?)
            && (t.fault.NoFault? || (t.fault.RunningAssert? && t.word.completed))
            && (start.hasSafety ==> NoLostWake(t))
  {
    SpawnedInv(start.hasSafety);
    RunKeeps(start, actions);
    ProducedByAPoll(start, actions);
    hide After, IsRun;
  }

  lemma ProducesByPolling(t: Task, a: Action)
    requires CanStep(t, a)
    ensures Step(t, a).produced == t.produced || a == PollStage(Step(t, a).produced)
  {
    hide WakeStep, BeginStep, PollStageStep, GoIdleStep, CompleteStep, ClearStageStep;
    hide SetWakerStep, AskStep, TakeStep, AbortStep;
  }

  /** A value was the answer of the future to some poll. */
  lemma {:induction false} ProducedByAPoll(t: Task, actions: seq<Action>)
    requires IsRun(t, actions)
    ensures var produced := After(t, actions).produced;
            produced.Some? ==> produced == t.produced || PollStage(produced) in actions
    decreases |actions|
  {
    if actions != [] {
      var a, t' := actions[0], Step(t, actions[0]);
      ProducesByPolling(t, a);
      hide Step, CanStep;
      ProducedByAPoll(t', actions[1..]);
    }
  }

  /** With ordinary wakes only there is never a second reference and no assertion fails. */
  lemma EveryOrdinaryRun(start: Task, actions: seq<Action>)
    requires start == Spawned(start.hasSafety) && IsRun(start, actions) && SafetyWake !in actions
    ensures var t := After(start, actions);
            && Tokens(t) <= 1 && t.fault.NoFault?
            && (t.word.idle && !t.word.canceled && (!t.begun || t.word.notified) ==> Tokens(t) == 1)
  {
    SpawnedInv(start.hasSafety);
    RunKeeps(start, actions);
    hide After, IsRun;
  }

  // ---------------------------------------------------------------- where safety wakes break it

  /** A poll fails its assertion exactly when it finds the word completed. */
  lemma BeginFailsIff(t: Task)
    requires Inv(t) && CanStep(t, Begin)
    ensures Step(t, Begin).fault.RunningAssert? <==> t.word.completed
  {
  }

  /** Some run from `t` ends in a failed poll. */
  ghost predicate CanFail(t: Task) {
    exists actions :: IsRun(t, actions) && After(t, actions).fault.RunningAssert?
  }

  lemma FailedCanFail(t: Task)
    requires t.fault.RunningAssert?
    ensures CanFail(t)
  {
    assert IsRun(t, []) && After(t, []) == t;
  }

  lemma CanFailBefore(t: Task, a: Action)
    requires CanStep(t, a) && CanFail(Step(t, a))
    ensures CanFail(t)
  {
    var rest :| IsRun(Step(t, a), rest) && After(Step(t, a), rest).fault.RunningAssert?;
    var actions := [a] + rest;
    assert actions[1..] == rest;
    assert IsRun(t, actions) && After(t, actions) == After(Step(t, a), rest);
  }

  lemma CompletedCanFail(t: Task)
    requires t.fault.NoFault? && t.entries > 0
    requires t.word.completed && !t.word.running && !t.word.idle
    ensures CanFail(t)
  {
    hide CanFail;
    var popped := Step(t, Pop);
    FailedCanFail(Step(popped, Begin));
    CanFailBefore(popped, Begin);
    CanFailBefore(t, Pop);
  }

  lemma RunningCanFail(t: Task)
    requires t.fault.NoFault? && t.entries > 0 && t.runner.Polling? && t.stage.InProgress?
    requires t.word.running && !t.word.completed && !t.word.canceled
    ensures CanFail(t)
  {
    hide CanFail;
    var storing := Step(t, PollStage(Some(7)));
    var stored := Step(storing, StoreResult);
    CompletedCanFail(Step(stored, Complete));
    CanFailBefore(stored, Complete);
    CanFailBefore(storing, StoreResult);
    CanFailBefore(t, PollStage(Some(7)));
  }

  lemma TwiceQueuedCanFail(t: Task)
    requires t.fault.NoFault? && t.entries > 1 && t.stage.InProgress?
    requires t.word.idle && !t.word.running && !t.word.completed && !t.word.canceled
    ensures CanFail(t)
  {
    hide CanFail;
    var popped := Step(t, Pop);
    RunningCanFail(Step(popped, Begin));
    CanFailBefore(popped, Begin);
    CanFailBefore(t, Pop);
  }

  /** From any idle task with a safety queue: a wake, a safety wake, and the poll after completion fails. */
  lemma IdleCanFail(t: Task)
    requires t.fault.NoFault? && t.begun && t.hasSafety && t.stage.InProgress?
    requires t.word.idle && !t.word.running && !t.word.completed && !t.word.canceled && !t.word.Notified()
    ensures CanFail(t)
  {
    hide CanFail;
    var once := Step(t, Wake);
    var twice := Step(once, SafetyWake);
    var half := Step(twice, Push);
    TwiceQueuedCanFail(Step(half, Push));
    CanFailBefore(half, Push);
    CanFailBefore(twice, Push);
    CanFailBefore(once, SafetyWake);
    CanFailBefore(t, Wake);
  }

  lemma QueuedCanFail(t: Task)
    requires t.fault.NoFault? && t.entries > 0 && t.hasSafety && t.stage.InProgress?
    requires t.word.idle && !t.word.running && !t.word.completed && !t.word.canceled
    ensures CanFail(t)
  {
    hide CanFail;
    var popped := Step(t, Pop);
    var run := Step(popped, Begin);
    var returned := Step(run, PollStage(None));
    IdleCanFail(Step(returned, GoIdle));
    CanFailBefore(returned, GoIdle);
    CanFailBefore(run, PollStage(None));
    CanFailBefore(popped, Begin);
    CanFailBefore(t, Pop);
  }

  /** A run from the spawn can fail a poll exactly if there is a safety queue. */
  lemma SpawnedCanFailIff(hasSafety: bool)
    ensures CanFail(Spawned(hasSafety)) <==> hasSafety
  {
    if hasSafety {
      QueuedCanFail(Spawned(true));
    } else {
      SpawnedInv(false);
      forall actions | IsRun(Spawned(false), actions) ensures !After(Spawned(false), actions).fault.RunningAssert? {
        UnsafeRun(Spawned(false), actions);
      }
    }
  }

  lemma UnsafeRun(start: Task, actions: seq<Action>)
    requires Inv(start) && AtMostOne(start) && IsRun(start, actions)
    ensures AtMostOne(After(start, actions)) && After(start, actions).fault.NoFault?
  {
    RunKeeps(start, actions);
    hide After, IsRun;
  }

  // ---------------------------------------------------------------- open accesses to the stage cell

  /** Only the one user of the stage changes it: nobody does after moving the word out of running. */
  lemma StageChangesByItsUser(t: Task, a: Action)
    requires Inv(t) && CanStep(t, a) && Step(t, a).stage != t.stage
    ensures StageUsers(t) == 1
    ensures || (PollerUses(t.runner) && (a.StoreResult? || a.ClearStage?))
            || (HolderUses(t.holder) && (a.HandleTake? || a.AbortClear?))
  {
    hide ResultOk, WakeStep, BeginStep, PollStageStep, GoIdleStep, CompleteStep, SetWakerStep, AskStep, AbortStep;
  }

  lemma BeginOverlapIff(t: Task)
    requires Inv(t) && CanStep(t, Begin) && Inside(t) <= 1
    ensures Inside(BeginStep(t)) >= 2 <==> Leavers(t) == 1 && Opens(t, Begin)
  {
    hide ResultOk;
  }

  lemma GoIdleOverlapIff(t: Task)
    requires Inv(t) && CanStep(t, GoIdle) && Inside(t) <= 1
    ensures Inside(GoIdleStep(t)) >= 2 <==> t.word.canceled
  {
    hide ResultOk, HolderOk;
  }

  lemma CompleteOverlapIff(t: Task)
    requires Inv(t) && CanStep(t, Complete) && Inside(t) <= 1
    ensures Inside(CompleteStep(t)) >= 2 <==> Leavers(t) == 1 && Opens(t, Complete)
  {
    hide ResultOk;
  }

  lemma HolderOverlapIff(t: Task, a: Action)
    requires Inv(t) && CanStep(t, a) && Inside(t) <= 1
    requires a.HandleSetWaker? || a.HandleAsk? || a.HandleTake? || a.Abort? || a.AbortClear?
    ensures Inside(Step(t, a)) >= 2 <==> Leavers(t) == 1 && Opens(t, a)
  {
    hide WakeStep, BeginStep, GoIdleStep, PollStageStep, CompleteStep;
  }

  /**
    A second access is opened exactly if a poller that went idle has not left the cell, or if a
    poller is about to clear the stage of a canceled task from inside its own access.
   */
  lemma OverlapIff(t: Task, a: Action)
    requires Inv(t) && CanStep(t, a) && Inside(t) <= 1
    ensures Inside(Step(t, a)) >= 2 <==>
              || (Leavers(t) == 1 && Opens(t, a))
              || (a.GoIdle? && t.word.canceled)
  {
    if a.Begin? { BeginOverlapIff(t); hide Inv, BeginStep, Inside; }
    else if a.GoIdle? { GoIdleOverlapIff(t); hide Inv, GoIdleStep, Inside; }
    else if a.Complete? { CompleteOverlapIff(t); hide Inv, CompleteStep, Inside; }
    else if a.HandleSetWaker? || a.HandleAsk? || a.HandleTake? || a.Abort? || a.AbortClear? {
      HolderOverlapIff(t, a);
      hide Inv, Step, Inside, Opens;
    } else {
      hide BeginStep, GoIdleStep, CompleteStep, SetWakerStep, AskStep, TakeStep, AbortStep, HolderOk, ResultOk;
    }
  }

  /** Some run from `t` has two accesses to the stage cell open. */
  ghost predicate CanOverlap(t: Task) {
    exists actions :: IsRun(t, actions) && Inside(After(t, actions)) >= 2
  }

  lemma OverlapBefore(t: Task, a: Action)
    requires CanStep(t, a) && (CanOverlap(Step(t, a)) || Inside(Step(t, a)) >= 2)
    ensures CanOverlap(t)
  {
    var t' := Step(t, a);
    assert IsRun(t', []) && After(t', []) == t';
    var rest :| IsRun(t', rest) && Inside(After(t', rest)) >= 2;
    var actions := [a] + rest;
    assert actions[1..] == rest;
    assert IsRun(t, actions) && After(t, actions) == After(t', rest);
  }

  /**
    A task polled once and left idle, its poller still inside: a second poll opens the cell
    again, and so does an abort.
   */
  lemma IdleOverlaps(t: Task)
    requires t.fault.NoFault? && t.begun && t.leaving == 1 && t.runner.NoRunner?
    requires t.word.idle && !t.word.running && !t.word.completed && !t.word.canceled && !t.word.Notified()
    ensures CanOverlap(t)
    ensures Resting(t.holder) ==> Inside(Step(t, Abort)) >= 2
  {
    hide CanOverlap;
    var woken := Step(t, Wake);
    var pushed := Step(woken, Push);
    var popped := Step(pushed, Pop);
    assert Inside(Step(popped, Begin)) >= 2;
    hide Inside;
    OverlapBefore(popped, Begin);
    OverlapBefore(pushed, Pop);
    OverlapBefore(woken, Push);
    OverlapBefore(t, Wake);
  }

  lemma QueuedOverlaps(t: Task)
    requires t.fault.NoFault? && t.entries > 0 && t.leaving == 0 && t.stage.InProgress? && t.runner.NoRunner?
    requires t.word.idle && !t.word.running && !t.word.completed && !t.word.canceled
    ensures CanOverlap(t)
  {
    hide CanOverlap;
    var popped := Step(t, Pop);
    var run := Step(popped, Begin);
    var returned := Step(run, PollStage(None));
    IdleOverlaps(Step(returned, GoIdle));
    OverlapBefore(returned, GoIdle);
    OverlapBefore(run, PollStage(None));
    OverlapBefore(popped, Begin);
    OverlapBefore(t, Pop);
  }

  /** Every task can get there from its spawn. */
  lemma SpawnedOverlaps(hasSafety: bool)
    ensures CanOverlap(Spawned(hasSafety))
  {
    hide CanOverlap;
    QueuedOverlaps(Spawned(hasSafety));
  }

  /** Some run from `t` has one poller with two accesses to the stage cell open, and nobody else inside. */
  ghost predicate CanNest(t: Task) {
    exists actions :: IsRun(t, actions) && Nested(After(t, actions))
  }

  predicate Nested(t: Task) { t.runner.ClearingInside? && Leavers(t) == 0 && Inside(t) == 2 }

  lemma NestBefore(t: Task, a: Action)
    requires CanStep(t, a) && (CanNest(Step(t, a)) || Nested(Step(t, a)))
    ensures CanNest(t)
  {
    var t' := Step(t, a);
    assert IsRun(t', []) && After(t', []) == t';
    var rest :| IsRun(t', rest) && Nested(After(t', rest));
    var actions := [a] + rest;
    assert actions[1..] == rest;
    assert IsRun(t, actions) && After(t, actions) == After(t', rest);
  }

  /** A running task aborted before its future answers pending. */
  lemma RunningNests(t: Task)
    requires t.fault.NoFault? && t.runner.Polling? && t.stage.InProgress? && t.holder.New? && Leavers(t) == 0
    requires t.word.running && !t.word.idle && !t.word.completed && !t.word.canceled
    ensures CanNest(t)
  {
    hide CanNest;
    var aborted := Step(t, Abort);
    var returned := Step(aborted, PollStage(None));
    NestBefore(returned, GoIdle);
    NestBefore(aborted, PollStage(None));
    NestBefore(t, Abort);
  }

  /** From the spawn of every task: polled, aborted while it runs, pending, and cleared from inside its cell. */
  lemma SpawnedNests(hasSafety: bool)
    ensures CanNest(Spawned(hasSafety))
  {
    hide CanNest;
    var popped := Step(Spawned(hasSafety), Pop);
    RunningNests(Step(popped, Begin));
    NestBefore(popped, Begin);
    NestBefore(Spawned(hasSafety), Pop);
  }

  /**
    Without a safety queue a safety wake of an idle task with no reference is lost. Inside one
    engine the flag that makes a wake a safety wake and the queue are configured together; the
    case is a task that awaits a join of a task spawned in another engine.
   */
  lemma SafetyWakeIsLost(t: Task)
    requires Inv(t) && CanStep(t, SafetyWake) && !t.hasSafety && Tokens(t) == 0
    requires t.word.idle && !t.word.canceled && !t.word.Notified()
    ensures !NoLostWake(Step(t, SafetyWake)) && Step(t, SafetyWake).word.safety
  {
  }

  /** And no later step but an abort brings the task back. */
  lemma LostForGood(t: Task, a: Action)
    requires Inv(t) && !NoLostWake(t) && t.word.safety && CanStep(t, a) && !a.Abort?
    ensures !NoLostWake(Step(t, a)) && Step(t, a).word.safety
  {
  }
}
