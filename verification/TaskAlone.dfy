/** What each operation on a task does when nothing else happens between its steps. */
module TaskAlone {
  import opened Common
  import opened TaskWord
  import opened TaskLifeCycle

  // ---------------------------------------------------------------- the join handle

  /** Inside a poll of the join handle. */
  predicate InPoll(h: Holder) { h.StoringWaker? || h.WakerStored? || h.Asking? || h.Taking? }

  function NextOf(h: Holder): Action
    requires InPoll(h)
  {
    match h
    case StoringWaker => HandleStore
    case WakerStored => HandleSetWaker
    case Asking(_) => HandleAsk
    case Taking => HandleTake
  }

  function StepsLeft(h: Holder): nat {
    match h
    case StoringWaker => 4
    case WakerStored => 3
    case Asking(_) => 2
    case Taking => 1
    case _ => 0
  }

  /** The join handle goes on to the end of its poll. */
  function PollReturns(t: Task): Task
    decreases if t.fault.NoFault? then StepsLeft(t.holder) else 0
  {
    if t.fault.NoFault? && InPoll(t.holder) then PollReturns(Step(t, NextOf(t.holder))) else t
  }

  /** What a join handle has to show after a poll that ran alone. */
  predicate AnswersFor(t: Task, t': Task) {
    && t'.fault.NoFault?
    && if t.word.canceled then t'.holder.Done? && t'.results == [OperationAborted]
       else if t.word.completed then t'.holder.Done? && t.produced.Some? && t'.results == [Ok(t.produced.value)]
       else t'.holder.Polled? && t'.results == [] && t'.word == t.word.(joined := true) && t'.waker
  }

  /**
    From every state: a poll of the join handle that has had no answer answers with an abort if
    the task is canceled, with the future's value if it is completed, and else waits with its
    waker left and the task marked as joined.
   */
  lemma JoinPollAnswers(t: Task)
    requires Inv(t) && t.fault.NoFault? && (t.holder.New? || t.holder.Polled?)
    ensures AnswersFor(t, PollReturns(Step(t, HandlePoll)))
  {
    var t1 := Step(t, HandlePoll);
    StepKeepsInv(t, HandlePoll);
    PollOnAnswers(t1);
  }

  /** So does a poll under way. */
  lemma {:induction false} PollOnAnswers(t: Task)
    requires Inv(t) && t.fault.NoFault? && InPoll(t.holder)
    ensures AnswersFor(t, PollReturns(t))
    decreases StepsLeft(t.holder)
  {
    var a := NextOf(t.holder);
    var t' := Step(t, a);
    StepKeepsInv(t, a);
    PollStepFacts(t);
    hide Inv, Step;
    if InPoll(t'.holder) { PollOnAnswers(t'); }
  }

  /** One step of the poll: what the answer depends on stays, or the answer is there. */
  predicate Progress(t: Task, t': Task) {
    && t'.fault.NoFault? && t'.produced == t.produced
    && t'.word.(joined := true) == t.word.(joined := true)
    && (InPoll(t'.holder) || AnswersFor(t, t'))
  }

  lemma StoreProgress(t: Task)
    requires Inv(t) && t.fault.NoFault? && t.holder.WakerStored?
    ensures Progress(t, SetWakerStep(t))
  {
  }

  lemma AskProgress(t: Task)
    requires Inv(t) && t.fault.NoFault? && t.holder.Asking?
    ensures Progress(t, AskStep(t))
  {
  }

  lemma TakeProgress(t: Task)
    requires Inv(t) && t.fault.NoFault? && t.holder.Taking?
    ensures Progress(t, TakeStep(t))
  {
  }

  lemma PollStepFacts(t: Task)
    requires Inv(t) && t.fault.NoFault? && InPoll(t.holder)
    ensures Progress(t, Step(t, NextOf(t.holder)))
  {
    hide SetWakerStep, AskStep, TakeStep;
    if t.holder.WakerStored? { StoreProgress(t); hide Inv, Progress; }
    else if t.holder.Asking? { AskProgress(t); hide Inv, Progress; }
    else if t.holder.Taking? { TakeProgress(t); hide Inv, Progress; }
  }

  // ---------------------------------------------------------------- a poll of the task

  /** The task after a poll that got `v` out of its future. */
  function CompletedBy(t: Task, v: Value): Task
    requires t.popped > 0
  {
    t.(popped := t.popped - 1, begun := true, word := Flags(false, false, true, false, false, false, false),
       stage := Completed(v), produced := Some(v), runner := NoRunner)
  }

  /** A poll whose future is ready leaves its value and a completed word, and wakes a join that waits. */
  lemma ReadyPollAlone(t: Task, v: Value)
    requires Inv(t) && CanStep(t, Begin) && t.word.idle && !t.word.canceled
    ensures var polled := Step(Step(t, Begin), PollStage(Some(v)));
            var done := Step(Step(polled, StoreResult), Complete);
            if t.word.joined then Step(done, WakeJoin) == CompletedBy(t, v).(waker := false, joinWoken := true)
            else done == CompletedBy(t, v)
  {
  }

  /** One whose future is pending leaves the task as it was, its wakes used up and no reference to it. */
  lemma PendingPollAlone(t: Task)
    requires Inv(t) && CanStep(t, Begin) && t.word.idle && !t.word.canceled
    ensures var idle := Step(Step(Step(t, Begin), PollStage(None)), GoIdle);
            && CanStep(idle, LeaveCell)
            && Step(idle, LeaveCell) == t.(popped := t.popped - 1, begun := true,
                                           word := t.word.(notified := false, safety := false))
  {
  }

  /** A wake during a pending poll has the task queued again. */
  lemma WokenPollRequeues(t: Task)
    requires Inv(t) && t.fault.NoFault? && t.runner.Returned? && !t.word.canceled && t.word.Notified()
    ensures var left := Step(Step(Step(t, GoIdle), LeaveCellToPush), Push);
            left.word.idle && left.word.Notified() && left.entries == t.entries + 1 && left.leaving == t.leaving
  {
  }

  /** A poll of a canceled or already running task lets its reference go and does nothing else. */
  lemma IdlePollAlone(t: Task)
    requires Inv(t) && CanStep(t, Begin) && !t.word.completed && (t.word.canceled || t.word.running)
    ensures Step(t, Begin) == t.(popped := t.popped - 1)
  {
  }

  /** A task canceled while it runs loses its future or its result at the end of the poll, and never runs again. */
  lemma CanceledPollAlone(t: Task)
    requires Inv(t) && t.fault.NoFault? && t.word.canceled
    ensures t.runner.Returned? ==>
              Step(Step(Step(t, GoIdle), ClearStage), LeaveCell) == t.(stage := Extracted, runner := Cleared)
    ensures t.runner.Finishing? ==> Step(Step(t, Complete), ClearStage) == t.(stage := Extracted, runner := Cleared)
  {
  }

  // ---------------------------------------------------------------- abort and wakes

  /** An abort cancels a task that is not done; an idle one it clears itself, a running one it leaves to the poller. */
  lemma AbortAlone(t: Task)
    requires Inv(t) && CanStep(t, Abort)
    ensures var t' := Step(t, Abort);
            if t.word.completed || t.word.canceled then t' == t
            else if t.word.running then t' == t.(word := t.word.(canceled := true))
            else && CanStep(t', AbortClear)
                 && Step(t', AbortClear) == t.(word := t.word.(canceled := true), stage := Extracted)
  {
  }

  /** A wake queues an idle task that is not notified, marks a running one, and leaves any other alone. */
  lemma WakeAlone(t: Task)
    requires Inv(t) && CanStep(t, Wake)
    ensures var t' := Step(t, Wake);
            if t.word.completed || t.word.canceled || t.word.Notified() then t' == t
            else if t.word.running then t' == t.(word := t.word.(notified := true))
            else CanStep(t', Push) && Step(t', Push) == t.(word := t.word.(notified := true), entries := t.entries + 1)
  {
  }

  /** A safety wake does the same by its own mark, and queues only if there is a safety queue. */
  lemma SafetyWakeAlone(t: Task)
    requires Inv(t) && CanStep(t, SafetyWake)
    ensures var t' := Step(t, SafetyWake);
            if t.word.completed || t.word.canceled || t.word.safety then t' == t
            else if t.word.running || !t.hasSafety then t' == t.(word := t.word.(safety := true))
            else CanStep(t', Push) && Step(t', Push) == t.(word := t.word.(safety := true), entries := t.entries + 1)
  {
  }
}
