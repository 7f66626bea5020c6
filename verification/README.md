# Kyron in Dafny

Kyron is an asynchronous runtime built from small concurrent protocols. This project models its
hard core and proves what those protocols promise, over every run and every interleaving:

- the **timer wheel** (`WheelModel`, `WheelBag`, `WheelSteps`, `TimeDriver`, `TimerRuns`,
  `Sleep`, `RegisterRace`): classes that update wheels in place, proved to behave as a plain list of deadlines;
- the **work-stealing queues** (`StealQueue`, `WorkStealing`, `StealInvariant`, `StealSteps`,
  `StealRefinement`, `StealRuns`, `StealAlone`, `StealAnswers`, `RefillRace`, `RefillHarm`, `RingQueue`):
  any number of workers that push, pop, steal, overflow and refill, proved to refine
  first-in-first-out sequences and to conserve values;
- the **task life cycle** (`TaskWord`, `TaskLifeCycle`, `TaskAlone`): the state word, wakes, polls, abort and join;
- the **channel** (`SpscChannel`), **parking** (`Parking`) and the **searching count**
  (`Searching`, `Wakeups`): wake-up handshakes;
- the **intrusive list** (`IntrusiveList`), **IO readiness** (`Readiness`, `ReadinessWord`) and **deferred release**
  (`Registrations`).

A protocol between threads is a state machine: a state, the steps a thread may take (one atomic
access, one slot copy or one critical section each), an invariant that every step keeps, and a
theorem over all sequences of steps. Atomics are sequentially consistent. An update loop around a
compare-exchange is one step; where a load and a later compare-exchange can be told apart, they are
two. Fields named as history in a state only record what happened. Beside what every interleaving
keeps, each operation has its answer pinned: what it returns and leaves behind when its steps follow
one another, exactly, from every state with the invariant.

Where the code does not meet what its documentation says, the model follows the code and states the
exact condition:

- `register_timeout` lets a deadline through whose level has no wheel (`LevelInRangeIff`,
  `RangeCheckAdmitsMissingLevel`).
- `fetch_from` sizes its refill by the claimed cursor and can overwrite a slot a thief is copying
  (`RefillSparesIff`, `RefillCanLoseAndDuplicate`); the thief publishes a wrong value exactly if it had
  not copied that slot yet (`ThiefPublishes`).
- A safety wake can put a task into the queues twice, and the poll after completion fails an
  assertion (`BeginFailsIff`, `SpawnedCanFailIff`); without a safety queue, so for a join awaited
  from another engine, a safety wake is lost (`SafetyWakeKeepsIff`, `LostForGood`).
- A poller moves the word to idle inside its access to the stage cell, so another's access can overlap
  it, and a poller of a canceled task clears the stage from inside, so its own access does; one party at
  a time uses the stage all the same (`OverlapIff`, `SpawnedOverlaps`, `SpawnedNests`,
  `StageChangesByItsUser`).
- More than half of the workers can search at once (`HalfKeptIff`, `SoloRunKeepsHalf`, `HalfCanBeExceeded`).
- Removing an absent item from a list of two or more does not end; the link of an only item stays
  linked to itself (`IntrusiveList.List.Remove`, `SearchEndsIff`).
- A late `clear_readiness` can forget an event after 2^16 others (`ForgetsNewerIff`, `ClearCanForget`).

## Model

| member | source | states |
|---|---|---|
| `TimerRuns.Replay` | src/kyron/src/time/mod.rs:168-236 | any run of registrations and processing calls has, call by call, the answers and the fired entries of a plain list of deadlines and leaves the driver holding what the list holds; everything fired is in deadline order; what was pending or accepted has fired exactly once or is still pending in the driver |
| `TimerRuns.Perform` | src/kyron/src/time/mod.rs:168-217 | one call on the driver does what it does on the list, and fires in order between the last check and now |
| `TimerRuns.EveryEntryAccountedFor` | src/kyron/src/time/mod.rs:219-236 | the books of the list over a whole run, which `TimerRuns.Replay` carries over to the driver |
| `TimerRuns.LogIsFired` | src/kyron/src/time/mod.rs:219-236 | what the driver's calls fired is what the list fired |
| `TimeDriver.Inner.ProcessInternal` | src/kyron/src/time/mod.rs:219-236 | fires exactly the pending entries with deadline at most `now`, each once and in order, keeps all others however often they cascade, and terminates by the weight of the pending entries |
| `TimeDriver.Inner.ProcessNext` | src/kyron/src/time/mod.rs:219-247 | one turn of the loop: the earliest slot if it is due, else the jump to `now`; the weight decreases unless it is the last turn |
| `TimeDriver.Inner.ProcessExpired` | src/kyron/src/time/mod.rs:261-284 | empties the earliest slot: entries at its start are woken, the others are placed again, the pending bag is conserved and the sum of (level + 1) strictly decreases |
| `TimeDriver.Inner.FireOrCascade` | src/kyron/src/time/mod.rs:261-284 | one entry of the emptied slot is woken exactly if due, otherwise it goes to a lower level |
| `TimeDriver.Inner.TakeNextSlot` | src/kyron/src/time/wheel.rs:142-155 | emptying the earliest slot takes exactly its entries out of the pending bag |
| `TimeDriver.Inner.RegisterTimeout` | src/kyron/src/time/mod.rs:198-217 | exactly when a registration is accepted, already done, out of range, refused for space, or indexes a wheel that does not exist; the pending bag grows by exactly the accepted entry |
| `TimeDriver.Inner.RegisterTimeoutInternal` | src/kyron/src/time/mod.rs:287-297 | the entry joins the pending bag unless the pool is empty or the level does not exist, with the exact condition of each |
| `TimeDriver.Inner.NextProcessTime` | src/kyron/src/time/mod.rs:178-196 | the minimum pending deadline, and none exactly if nothing is pending |
| `TimeDriver.Inner.ProcessTimeouts` | src/kyron/src/time/mod.rs:168-176 | the same as processing at the millisecond the instant falls in |
| `TimeDriver.TimeWheel.AcquireSlot` | src/kyron/src/time/wheel.rs:142-155 | returns the slot's entries, leaves the slot empty with its bit down and every other slot as it was |
| `TimeDriver.TimeWheel.RegisterWakeupOnTimeout` | src/kyron/src/time/wheel.rs:157-180 | the entry heads the list of its digit's slot, the bit is up, every other slot is as it was |
| `TimeDriver.TimeWheel.NextExpirationInSlot` | src/kyron/src/time/wheel.rs:105-123 | the lowest deadline in the slot, none exactly if the slot is empty |
| `RegisterRace.RaceIsSomeOrder` | src/kyron/src/time/wheel.rs:157-180 | however racing registrations interleave, the wheel ends as if they had come one after another in the order their nodes were linked: same bits, same lists, every entry once |
| `RegisterRace.RegisterAlone` | src/kyron/src/time/wheel.rs:157-180 | a registration by itself sets its bit and is linked at the front of its slot; one whose compare-exchange lost starts over from the head as it is now |
| `RegisterRace.StepKeeps` | src/kyron/src/time/wheel.rs:157-180 | every access keeps: links form the lists, lists are those of the registrations linked so far, bits those and the threads about to link |
| `WheelModel.ComputeLevelIsHighestDigit` | src/kyron/src/time/mod.rs:299-312 | the XOR and leading-zeros level is the highest base-64 digit in which the two times differ |
| `WheelModel.LevelInRangeIff` | src/kyron/src/time/mod.rs:299-312 | that level exists among the five wheels exactly if both times lie in the same 2^30 ms window |
| `WheelModel.RangeCheckAdmitsMissingLevel` | src/kyron/src/time/mod.rs:209-215 | a deadline of exactly 2^30 ms from time zero passes the range check and has no wheel |
| `WheelModel.NextOccupiedSlotIsLowest` | src/kyron/src/time/wheel.rs:125-136 | rotating the bitmap and counting trailing zeros finds the lowest occupied slot at or after the current one, without u32 overflow |
| `WheelModel.NextExpirationOccupied` | src/kyron/src/time/wheel.rs:73-103 | an occupied wheel yields its lowest slot, that slot's start, and never a time in the past, so the assertion there holds |
| `WheelModel.NextExpirationEmpty` | src/kyron/src/time/wheel.rs:73-103 | an empty wheel yields nothing |
| `WheelModel.FirstSlotIsEarliest` | src/kyron/src/time/mod.rs:249-259 | no entry on any wheel is due before the start of the first occupied slot of the lowest occupied level |
| `WheelModel.FirstSlotBeforeOthers` | src/kyron/src/time/mod.rs:249-259 | every entry of the first occupied slot is due strictly before any entry elsewhere |
| `WheelModel.CascadesLower` | src/kyron/src/time/mod.rs:261-284 | an entry taken out at its slot's start belongs on a strictly lower level |
| `WheelModel.PlacedLater` | src/kyron/src/time/mod.rs:238-247 | an entry keeps its place while the check time moves forward to any time before its slot starts |
| `WheelSteps.FindNextExpiringIsNext` | src/kyron/src/time/mod.rs:249-259 | the search over levels returns the earliest slot, and none exactly if every wheel is empty |
| `WheelSteps.NextSlotHoldsMinimum` | src/kyron/src/time/mod.rs:178-196 | the lowest deadline of that slot is the lowest of all |
| `WheelSteps.AcquireKeepsOrder` | src/kyron/src/time/mod.rs:261-284 | placement and bitmap invariants hold after a slot is emptied and the clock is at its start |
| `WheelSteps.RegisterKeepsOrder` | src/kyron/src/time/mod.rs:287-297 | they hold after an entry is placed |
| `WheelSteps.AdvanceKeepsOrder` | src/kyron/src/time/mod.rs:238-247 | they hold after the clock jumps to a time before the next slot |
| `Sleep.SleepFuture.Poll` | src/kyron/src/futures/sleep.rs:72-95 | ready never before the deadline; pending means registered at the rounded deadline; fatal exactly if it was finished already or the driver cannot take the timer |
| `Sleep.SleepUntilWoken` | src/kyron/src/futures/sleep.rs:55-95 | poll, processing, poll: the wheel fires the sleep's entry exactly once the clock has reached the rounded deadline, at the latest a millisecond after the deadline, and the poll after the firing is ready |
| `Sleep.WakeFindsReadyIff` | src/kyron/src/futures/sleep.rs:55-70 | ceiling on registration and flooring on processing: every clock that has reached the rounded deadline has reached the deadline, exactly if its millisecond count fits 64 bits |
| `Sleep.AlreadyDoneMeansPast` | src/kyron/src/time/mod.rs:198-217 | the already-done answer means the deadline has passed |
| `Sleep.FiresWithinAMillisecond` | src/kyron/src/time/mod.rs:330-335 | one millisecond after the deadline the floored clock has reached the rounded one |
| `Sleep.RoundedIsCeiling` | src/kyron/src/futures/sleep.rs:55-70 | the millisecond handed to the driver is the first that is not before the deadline |
| `StealRuns.NothingLostOrDuplicated` | src/kyron-foundation/src/containers/spmc_queue.rs:244-546 | for every number of workers and every interleaving of push, pop, steal, overflow and refill in which no refill writes a slot whose value is not yet released: nothing is delivered twice or invented, a drained system has delivered all it accepted, and the failing global push during overflow is unreachable |
| `StealRuns.RunRefines` | src/kyron-foundation/src/containers/spmc_queue.rs:244-546 | every run whose refills write no slot of a value not yet released is a run of the plain system of first-in-first-out sequences and keeps the invariant |
| `StealRefinement.StepRefines` | src/kyron-foundation/src/containers/spmc_queue.rs:244-546 | every atomic step is one move of that plain system |
| `StealAlone.PushAlone` | src/kyron-foundation/src/containers/spmc_queue.rs:284-319 | from every state with the mutex free, a push by itself: with room it appends its value; on a full queue it moves the oldest half of what waits, or as many as the global queue takes, there in order, and is accepted exactly if that moved any and no thief is at work, else refused with its value; nothing else changes |
| `StealAlone.PopAlone` | src/kyron-foundation/src/containers/spmc_queue.rs:354-396 | a pop by itself returns the oldest waiting value and takes it out, and none, changing nothing, exactly if none waits |
| `StealAlone.StealAlone` | src/kyron-foundation/src/containers/spmc_queue.rs:244-474 | a steal by itself moves its share of the victim's oldest values, in order, to the back of the thief's queue and returns the count; it has none, changing nothing, exactly if the thief is full, nothing waits, or another thief is at work on the victim |
| `StealAlone.FetchAlone` | src/kyron-foundation/src/containers/spmc_queue.rs:321-352 | a refill by itself moves the front of the global queue, as much as there is space after the claimed values, to the back of the queue and returns the count |
| `StealAlone.ReturnsOnce` | src/kyron-foundation/src/containers/spmc_queue.rs:244-546 | a worker alone ends its operation in one state only, the one these state |
| `StealAnswers.AnswersAreTrue` | src/kyron-foundation/src/containers/spmc_queue.rs:244-396 | in every run, however workers interleave: a push is refused only if the queue was full at its second try or nothing could be moved to the global queue; a pop has none only if nothing waited at some moment of it; a steal has none only if the thief is full, nothing waits at the victim, another thief was at work there during it, or the victim pushed 2^32 values since the look |
| `StealAnswers.EveryEndAnswers` | src/kyron-foundation/src/containers/spmc_queue.rs:244-396 | an operation ends only with an answer of its own kind, a refused push with its own value |
| `StealAnswers.PushedMeans` | src/kyron-foundation/src/containers/spmc_queue.rs:297-319 | a push ends accepted by the step that appends its value |
| `StealAnswers.RefusedMeans` | src/kyron-foundation/src/containers/spmc_queue.rs:284-319 | it ends refused only if full at its second look or with nothing to move, and changes nothing by that |
| `StealAnswers.PoppedMeans` | src/kyron-foundation/src/containers/spmc_queue.rs:390-396 | a pop returns the value it claimed and delivers it |
| `StealAnswers.PopNoneMeans` | src/kyron-foundation/src/containers/spmc_queue.rs:354-366 | a pop ends with none only if its last look found nothing waiting |
| `StealAnswers.StoleMeans` | src/kyron-foundation/src/containers/spmc_queue.rs:263-275 | a steal returns how many values it holds, at least one, and adds them to its queue |
| `StealAnswers.StoleNoneMeans` | src/kyron-foundation/src/containers/spmc_queue.rs:253-408 | it ends with none only if the thief is full, nothing waits, or its look saw a claim, 2^32 pushes since that look aside |
| `StealAnswers.FetchedMeans` | src/kyron-foundation/src/containers/spmc_queue.rs:329-352 | a refill returns how many values it took: all it was sized for, unless the global queue ran out |
| `StealSteps.StepKeepsInv` | src/kyron-foundation/src/containers/spmc_queue.rs:244-531 | every step of every worker keeps the invariant, a refill's write if its slot is free beside the values not yet released: no slot between the steal and head cursors is overwritten, claims are exclusive, copies equal what was claimed |
| `StealRefinement.StealClaimRefines` | src/kyron-foundation/src/containers/spmc_queue.rs:398-431 | a thief's compare-exchange takes the oldest waiting values of the victim, in order |
| `StealRefinement.StealTakesItsShare` | src/kyron-foundation/src/containers/spmc_queue.rs:410-417 | as many as the divider gives of what the victim held, at most the thief's room, at least one |
| `StealRefinement.StealPublishRefines` | src/kyron-foundation/src/containers/spmc_queue.rs:244-281 | what a thief publishes in its own queue is exactly what it claimed |
| `StealRefinement.PopReadValue` | src/kyron-foundation/src/containers/spmc_queue.rs:354-396 | what a pop returns is the value published at the cursor it claimed, although thieves work on the queue meanwhile |
| `StealRefinement.PopClaimRefines` | src/kyron-foundation/src/containers/spmc_queue.rs:354-396 | a pop takes the oldest waiting value |
| `StealRefinement.OverflowClaimRefines` | src/kyron-foundation/src/containers/spmc_queue.rs:477-531 | overflow takes the oldest half of the waiting values, or as many as the global queue has room for |
| `StealRefinement.OverflowCopyValue` | src/kyron-foundation/src/containers/spmc_queue.rs:477-531 | and hands them to the global queue in order, each as published, and the global queue has room for it |
| `StealRefinement.PushPublishRefines` | src/kyron-foundation/src/containers/spmc_queue.rs:297-319 | a push appends exactly its value |
| `StealRefinement.PushFitsIff` | src/kyron-foundation/src/containers/spmc_queue.rs:297-306 | a push finds room exactly if fewer than a capacity of values are unreleased |
| `StealRefinement.FetchCopyRefines` | src/kyron-foundation/src/containers/spmc_queue.rs:321-352 | a refill takes the front of the global queue |
| `StealRefinement.FetchPublishRefines` | src/kyron-foundation/src/containers/spmc_queue.rs:321-352 | and appends what it took, in order |
| `StealRuns.ApplyBalances` | src/kyron-foundation/src/containers/spmc_queue.rs:244-546 | each move of the plain system conserves every value |
| `StealRuns.RefillSparesIff` | src/kyron-foundation/src/containers/spmc_queue.rs:321-340 | the slot a refill writes is never one of a value nobody has claimed; it is none of a value not yet released exactly if it fits beside them, which it always does with no thief at work on the queue |
| `StealRuns.RefillSize` | src/kyron-foundation/src/containers/spmc_queue.rs:321-327 | a refill is sized by the global queue and the space after the claimed cursor as it was loaded, wrap-around or not |
| `RefillHarm.ThiefPublishes` | src/kyron-foundation/src/containers/spmc_queue.rs:329-350 | from every state with the invariant in which a refill's next write does not fit and a thief is copying: the write lands on the first slot the thief claimed, and the thief, left alone, publishes its claim as it was exactly if it had copied that slot or the two values are equal, and otherwise with the new value in its place |
| `RefillHarm.CopiesAll` | src/kyron-foundation/src/containers/spmc_queue.rs:438-449 | a thief left alone ends with what it had copied followed by what its victim's slots hold now |
| `RefillRace.RefillCanLoseAndDuplicate` | src/kyron-foundation/src/containers/spmc_queue.rs:321-352 | a run from a fresh system of two workers: a refill that does not fit overwrites the slot a thief is copying, and once all is drained one value was delivered twice and one never |
| `RefillRace.FetchSizes` | src/kyron-foundation/src/containers/spmc_queue.rs:321-340 | with both slots full and one claimed, the refill finds one free slot |
| `RefillRace.FetchOverwrites` | src/kyron-foundation/src/containers/spmc_queue.rs:335-345 | the slot it writes is the claimed one, so it does not fit |
| `StealQueue.PackUnpack` | src/kyron-foundation/src/containers/spmc_queue.rs:539-546 | the packed tail word and its two cursors determine each other |
| `StealQueue.SlotOfWrapped` | src/kyron-foundation/src/containers/spmc_queue.rs:297-319 | the mask picks the same slot for the wrapped and for the unbounded cursor |
| `StealQueue.SameTailWord` | src/kyron-foundation/src/containers/spmc_queue.rs:398-431 | fewer than 2^32 apart, equal words mean equal cursors, so a compare-exchange that succeeds saw nothing change |
| `StealSteps.OwnerArithmetic` | src/kyron-foundation/src/containers/spmc_queue.rs:297-327 | wrapping differences of the 32-bit cursors are the true differences |
| `StealSteps.ThiefArithmetic` | src/kyron-foundation/src/containers/spmc_queue.rs:398-431 | a thief's count is at least one, fits its own free space and what the victim holds |
| `TaskLifeCycle.EveryRun` | src/kyron/src/scheduler/task/async_task.rs:212-383 | in every run with ordinary and safety wakes: one party at a time uses the stage and one the waker cell, whoever is still leaving the stage cell; the join answers at most once, with a value only if completed and some poll of the future returned that value, with an abort only if canceled; a waiting join is woken; the one assertion that can fail is a poll of a completed word |
| `TaskAlone.JoinPollAnswers` | src/kyron/src/scheduler/join_handle.rs:66-115 | from every state, a poll of a join handle that has had no answer: exactly one abort if the task is canceled, exactly the future's value if it is completed, else it waits with its waker left and the task marked as joined |
| `TaskAlone.PollOnAnswers` | src/kyron/src/scheduler/join_handle.rs:66-115 | the same for a poll under way, by what the word is now |
| `TaskAlone.ReadyPollAlone` | src/kyron/src/scheduler/task/async_task.rs:249-341 | a poll whose future is ready leaves its value and a completed word, wakes a join that waits, and changes nothing else |
| `TaskAlone.PendingPollAlone` | src/kyron/src/scheduler/task/async_task.rs:249-307 | one whose future is pending uses up the wakes and its reference and changes nothing else |
| `TaskAlone.WokenPollRequeues` | src/kyron/src/scheduler/task/async_task.rs:288-303 | a wake that came meanwhile has the task queued once more |
| `TaskAlone.IdlePollAlone` | src/kyron/src/scheduler/task/async_task.rs:249-264 | a poll of a canceled or running task only lets its reference go |
| `TaskAlone.CanceledPollAlone` | src/kyron/src/scheduler/task/async_task.rs:292-335 | a task canceled during its poll loses its future or its result at the end |
| `TaskAlone.AbortAlone` | src/kyron/src/scheduler/task/async_task.rs:232-243 | an abort cancels a task that is not done, clears an idle one and leaves a running one to its poller |
| `TaskAlone.WakeAlone` | src/kyron/src/scheduler/task/async_task.rs:385-398 | a wake queues an idle task once, marks a running one, and leaves a notified, canceled or finished one alone |
| `TaskAlone.SafetyWakeAlone` | src/kyron/src/scheduler/task/async_task.rs:400-413 | a safety wake does so by its own mark, and queues only with a safety queue |
| `TaskLifeCycle.StageChangesByItsUser` | src/kyron/src/scheduler/task/async_task.rs:269-332 | only the one user of the stage changes it, nobody after moving the word out of running |
| `TaskLifeCycle.OverlapIff` | src/kyron/src/scheduler/task/async_task.rs:274-307 | with at most one access to the stage cell open, a step leaves two open exactly if a poller that went idle has not left the cell and the step opens one for another party, or the step is a pending answer that finds the task canceled, whose poller clears the stage from inside its access |
| `TaskLifeCycle.SpawnedOverlaps` | src/kyron/src/scheduler/task/async_task.rs:274-307 | a run from the spawn of every task has two accesses open |
| `TaskLifeCycle.SpawnedNests` | src/kyron/src/scheduler/task/async_task.rs:289-300 | and another has two that are both one poller's own, of a task aborted while it runs, with nobody leaving the cell |
| `TaskLifeCycle.IdleOverlaps` | src/kyron/src/scheduler/task/async_task.rs:232-243 | both a second poll and an abort open it |
| `TaskLifeCycle.EveryOrdinaryRun` | src/kyron/src/scheduler/task/task_state.rs:182-254 | with ordinary wakes only: at most one queue reference, exactly one when the task should run, and no assertion fails |
| `TaskLifeCycle.StepKeepsWakes` | src/kyron/src/scheduler/task/async_task.rs:385-413 | an idle task that is notified or was never polled, and is not canceled, has a queue entry, a push or a poller under way |
| `TaskLifeCycle.WakeDuringRunRequeues` | src/kyron/src/scheduler/task/task_state.rs:232-254 | a wake that meets a run stays noted until the run ends, and ending it pending queues the task again |
| `TaskLifeCycle.WakeNotifies` | src/kyron/src/scheduler/task/task_state.rs:292-331 | after a wake the task is notified unless it is finished or canceled |
| `TaskLifeCycle.StepKeepsInv` | src/kyron/src/scheduler/task/async_task.rs:212-383 | every step keeps: exactly one of idle, running, completed; runner, stage, waker and join handle agree with the word |
| `TaskLifeCycle.OrdinaryStepKeeps` | src/kyron/src/scheduler/workers/worker.rs:219-238 | without safety wakes every step keeps the count of references |
| `TaskLifeCycle.BeginFailsIff` | src/kyron/src/scheduler/task/task_state.rs:204-227 | a poll fails its assertion exactly if the word is completed, so the check after it is dead code |
| `TaskLifeCycle.IdleCanFail` | src/kyron/src/scheduler/task/async_task.rs:400-413 | from any idle task with a safety queue, a wake and a safety wake lead to that failure |
| `TaskLifeCycle.SpawnedCanFailIff` | src/kyron/src/scheduler/task/async_task.rs:400-413 | a run from the spawn can fail that assertion exactly if there is a safety queue |
| `TaskLifeCycle.UnsafeStepKeeps` | src/kyron/src/scheduler/task/async_task.rs:400-413 | without a safety queue every step, safety wakes included, keeps at most one reference and none while running or finished |
| `TaskLifeCycle.SafetyWakeKeepsIff` | src/kyron/src/scheduler/scheduler_mt.rs:127-134 | a safety wake keeps the task reachable exactly if there is a safety queue, nothing to push, or already a reference |
| `TaskLifeCycle.SafetyWakeIsLost` | src/kyron/src/scheduler/scheduler_mt.rs:127-134 | without a safety queue the safety wake of an idle, unreferenced task is lost |
| `TaskLifeCycle.LostForGood` | src/kyron/src/scheduler/task/task_state.rs:292-331 | and no later step but an abort changes that |
| `TaskWord.WordRefinesFlags` | src/kyron/src/scheduler/task/task_state.rs:182-331 | every transition on the 32-bit word, XOR toggles included, is the same transition on the seven flags, with the same answer and the same failed assertions |
| `TaskWord.ToggleSwaps` | src/kyron/src/scheduler/task/task_state.rs:131-140 | the toggle swaps idle and running and undoes itself |
| `TaskWord.DecodeEncode` | src/kyron/src/scheduler/task/task_state.rs:15-34 | flags survive being packed into the word |
| `TaskWord.EncodeDecode` | src/kyron/src/scheduler/task/task_state.rs:15-34 | a word with only the seven bits survives being unpacked |
| `TaskLifeCycle.AskKeeps` | src/kyron/src/scheduler/join_handle.rs:66-110 | the answers of `get_future_ret` the join handle cannot handle do not occur |
| `SpscChannel.EveryRun` | src/kyron/src/channels/spsc.rs:143-252 | in every interleaving: values arrive in send order, none lost or doubled; the end is reported only after the sender left and everything accepted was received; a receiver told there is no data has its waker stored or woken, and woken once there is something and the sender has returned; the pop never fails |
| `SpscChannel.ReceiveAnswers` | src/kyron/src/channels/spsc.rs:210-252 | a receive by itself hands out the oldest value; with none it reports the end if the sender is gone, else it waits with its waker stored; nothing else changes |
| `SpscChannel.LateValueIsReceived` | src/kyron/src/channels/spsc.rs:228-252 | a value that came after the first look is handed out by the same call |
| `SpscChannel.DropSenderAlone` | src/kyron/src/channels/spsc.rs:143-154 | a sender that leaves first wakes a receiver that waits |
| `SpscChannel.DropReceiverAlone` | src/kyron/src/channels/spsc.rs:156-160 | a receiver that leaves takes its waker along |
| `SpscChannel.ReceiverKeeps` | src/kyron/src/channels/spsc.rs:210-252 | every step of receive keeps the handshake invariant, the early exit on an old waker and the recheck included |
| `SpscChannel.SenderKeeps` | src/kyron/src/channels/spsc.rs:143-206 | so does every step of send and of the sender's drop |
| `SpscChannel.NeverWaitsForADroppedSender` | src/kyron/src/channels/spsc.rs:210-252 | once the sender is dropped a receive yields the oldest value or the end |
| `SpscChannel.WaitsWithItsWaker` | src/kyron/src/channels/spsc.rs:210-252 | with a resting sender it yields the oldest value or waits with its own waker in the store |
| `SpscChannel.SendWakes` | src/kyron/src/channels/spsc.rs:188-206 | the next accepted send fires that waker |
| `SpscChannel.SendAnswers` | src/kyron/src/channels/spsc.rs:188-208 | a send by itself is refused, changing nothing, exactly if the receiver is going or the queue is full; otherwise it appends its value and fires the waker in the store |
| `Parking.EveryRun` | src/kyron/src/scheduler/workers/worker_types.rs:133-399 | for every interleaving of unparkers, timeouts and spurious wake-ups: a worker asleep that is owed a wake-up has an unparker under way or an IO wake-up waiting, and no park meets a state it has no branch for |
| `Parking.LateParkEnds` | src/kyron/src/scheduler/workers/worker_types.rs:287-328 | whatever unparkers do meanwhile, a park past its deadline is over after three steps of its own at most |
| `Parking.DeadlineEndsWait` | src/kyron/src/scheduler/workers/worker_types.rs:287-328 | at its deadline a timed wait ends executing with nothing owed, with a timeout exactly if no notification came |
| `Parking.DeadlineEndsIo` | src/kyron/src/scheduler/workers/worker_types.rs:147-171 | so does a timed IO wait, with a timeout exactly if the driver found nothing |
| `Parking.ParkAlone` | src/kyron/src/scheduler/workers/worker_types.rs:133-285 | a park that finds a notification returns at once and uses it up; without one it announces its sleep and waits |
| `Parking.UnparkAlone` | src/kyron/src/scheduler/workers/worker_types.rs:230-258 | an unpark leaves a notification and wakes the worker where it waits; no other unparker is lost or added |
| `Parking.StepKeeps` | src/kyron/src/scheduler/workers/worker_types.rs:133-399 | every step keeps that |
| `Parking.OwedIsDelivered` | src/kyron/src/scheduler/workers/worker_types.rs:233-258 | the unparkers' own steps suffice to end the sleep |
| `Parking.WokenGoesOn` | src/kyron/src/scheduler/workers/worker_types.rs:365-385 | the check after it lets the worker go and uses the notification up |
| `Parking.SpuriousWaitsAgain` | src/kyron/src/scheduler/workers/worker_types.rs:260-285 | a spurious wake-up leads back to the same wait |
| `Searching.EveryRun` | src/kyron/src/scheduler/scheduler_mt.rs:141-223 | for up to 128 workers: the counter is the number of searching workers and never underflows; doubled it stays within a byte; the parked list has no entry twice, holds exactly the workers in the park section nobody took off it, and has room for every worker that enters |
| `Searching.StepKeeps` | src/kyron/src/scheduler/workers/worker.rs:176-217 | every step keeps that |
| `Searching.SearchAlone` | src/kyron/src/scheduler/scheduler_mt.rs:141-159 | a worker by itself searches exactly if fewer than half do, and finding work takes the accounting back to where it was |
| `Searching.ParkAlone` | src/kyron/src/scheduler/scheduler_mt.rs:161-183 | going to park takes it off the count and puts it at the end of the list, and leaving takes it off the list |
| `Wakeups.NoTaskIsLeftBehind` | src/kyron/src/scheduler/workers/worker.rs:191-217 | in no run, tasks queued by a worker that dispatches IO events on the parked list included, do all workers sleep, unnotified and with no wake-up under way, before every task spawned is taken |
| `Wakeups.NoWorkerIsForgotten` | src/kyron/src/scheduler/scheduler_mt.rs:197-224 | in every run a worker in its park section is on the parked list, about to be unparked, or notified |
| `Wakeups.TasksAreCounted` | src/kyron/src/scheduler/scheduler_mt.rs:78-97 | in every run the queues hold what was spawned and not taken |
| `Wakeups.MovedThenTaken` | src/kyron/src/scheduler/scheduler_mt.rs:78-97 | what was spawned can be taken where it was queued, and what was moved where it was moved to |
| `Wakeups.NotifierWakes` | src/kyron/src/scheduler/scheduler_mt.rs:197-224 | a notifier that finds another worker on the list takes exactly that one off and will unpark it; with nobody there it will unpark every worker |
| `Wakeups.PusherNotifiesIff` | src/kyron/src/scheduler/scheduler_mt.rs:188-195 | a pusher goes on to notify exactly if nobody searches |
| `Wakeups.SpawnAlone` | src/kyron/src/scheduler/scheduler_mt.rs:78-88 | a spawn by itself with nobody searching ends with another parked worker notified and nothing left to do; with a searcher it only queues |
| `Wakeups.RecheckAlone` | src/kyron/src/scheduler/workers/worker.rs:191-217 | the last searcher by itself goes back to work exactly if a queue it has still to check holds a task, else it is past its checks |
| `Wakeups.WakeUpAlone` | src/kyron/src/scheduler/workers/worker_types.rs:365-399 | a worker that wakes up executes, is off the list and has used up its notification |
| `Wakeups.EventKeeps` | src/kyron/src/scheduler/scheduler_mt.rs:188-223 | every event keeps: a queue with a task is covered by a worker that is awake, notified or dispatching IO events, a wake-up under way, or a last searcher that has it still to check |
| `Wakeups.EnterKeepsCover` | src/kyron/src/scheduler/scheduler_mt.rs:161-174 | a searcher that goes to sleep leaves another searcher behind or will check every queue |
| `Searching.LastSearcherIff` | src/kyron/src/scheduler/scheduler_mt.rs:161-174 | a worker going to sleep is told it was the last searcher exactly if it searched and now nobody does |
| `Searching.LetInIff` | src/kyron/src/scheduler/scheduler_mt.rs:141-154 | a worker is let in exactly if fewer than half of the workers search at its load |
| `Searching.HalfKeptIff` | src/kyron/src/scheduler/scheduler_mt.rs:141-154 | an addition keeps searchers within half of the workers exactly if the check would still pass at that moment |
| `Searching.SoloRunKeepsHalf` | src/kyron/src/scheduler/scheduler_mt.rs:141-154 | if no two workers are ever between load and addition, at most half, rounded up, search throughout the run |
| `Searching.HalfCanBeExceeded` | src/kyron/src/scheduler/scheduler_mt.rs:141-154 | three workers that load before any of them adds all end up searching |
| `Searching.SwapRemoveTakesOne` | src/kyron/src/scheduler/scheduler_mt.rs:176-183 | removal by swapping with the last entry takes out exactly that entry |
| `Searching.SwapRemove` | src/kyron/src/scheduler/scheduler_mt.rs:176-183 | one entry fewer |
| `Searching.Position` | src/kyron/src/scheduler/scheduler_mt.rs:176-183 | the first place of the worker's index |
| `Searching.FirstOther` | src/kyron/src/scheduler/scheduler_mt.rs:197-212 | the first entry that is not the notifier |
| `IntrusiveList.List.PushBack` | src/kyron-foundation/src/containers/intrusive_linked_list.rs:109-126 | the item joins at the back of the sequence the circle stands for |
| `IntrusiveList.List.PopFront` | src/kyron-foundation/src/containers/intrusive_linked_list.rs:131-147 | the front leaves with a blank link; an empty list gives nothing |
| `IntrusiveList.List.Remove` | src/kyron-foundation/src/containers/intrusive_linked_list.rs:178-213 | takes out exactly that item, tells whether it was there, blanks its link exactly if it was not the only one, and goes round for ever exactly if it is absent from two or more |
| `IntrusiveList.List.RemoveIf` | src/kyron-foundation/src/containers/intrusive_linked_list.rs:150-173 | visits every original item once, in order, and leaves exactly those the closure answered false for, in order, whatever state the closure keeps |
| `IntrusiveList.List.RemoveInternal` | src/kyron-foundation/src/containers/intrusive_linked_list.rs:225-239 | takes out the item, moving the head when it was the head |
| `IntrusiveList.InsertLinkBefore` | src/kyron-foundation/src/containers/intrusive_linked_list.rs:249-261 | the circle grows by the link at its end |
| `IntrusiveList.RemoveLink` | src/kyron-foundation/src/containers/intrusive_linked_list.rs:263-271 | the neighbours close the circle, the link is blank |
| `IntrusiveList.SearchEndsIff` | src/kyron-foundation/src/containers/intrusive_linked_list.rs:192-211 | on two or more items the search of `remove` comes to an end exactly if the item is in the list |
| `IntrusiveList.Link.constructor` | src/kyron-foundation/src/containers/intrusive_linked_list.rs:27-33 | a new link is blank |
| `IntrusiveList.List.constructor` | src/kyron-foundation/src/containers/intrusive_linked_list.rs:275-283 | a new list is empty |
| `Readiness.EveryRun` | src/kyron/src/io/async_registration.rs:171-316 | in every interleaving of the driver with a reader and a writer: a side answered pending has its waker in the slot or fired, and fired once its bit is up and the driver is done; with clears within a tick round no bit goes down on an event its user has not seen |
| `Readiness.ReadyHasAnEvent` | src/kyron/src/io/async_registration.rs:171-316 | in every run a side answered ready was answered by a look of its last poll at a bit that an earlier event had raised and that was up all the time between, with the tick of that look |
| `Readiness.PollAlone` | src/kyron/src/io/async_registration.rs:275-316 | a poll by itself is ready exactly if its bit is up, and else leaves its waker in the slot and answers pending; nothing else changes |
| `Readiness.FiredFromTheSlot` | src/kyron/src/io/async_registration.rs:202-252 | a waker is fired only out of its slot and by a driver that marked its side |
| `Readiness.StepKeeps` | src/kyron/src/io/async_registration.rs:171-316 | every step keeps that |
| `Readiness.ForgetsNewerIff` | src/kyron/src/io/async_registration.rs:254-273 | a clear forgets a newer event exactly if one carried its bit since the observation, the bit is still up, and a whole number of 2^16 tick rounds lies between observation and clear |
| `Readiness.ClearLowersIff` | src/kyron/src/io/async_registration.rs:254-273 | a clear lowers its own bit and no other, exactly if no event or a whole number of tick rounds came since the observation |
| `Readiness.ClearCanForget` | src/kyron/src/io/async_registration.rs:318-344 | a run from a fresh registration: a reader sees the first event, 2^16 more follow, and its clear takes the bit down |
| `Readiness.StepForgetsNothing` | src/kyron/src/io/async_registration.rs:318-344 | a timely step leaves no unseen event behind a lowered bit |
| `Readiness.EventFindsTheWaker` | src/kyron/src/io/async_registration.rs:202-250 | a matching event after a pending answer fires the stored waker |
| `ReadinessWord.ComponentsRoundTrip` | src/kyron/src/io/async_registration.rs:429-441 | state bits and tick survive the shift, the or and the masks, both ways |
| `ReadinessWord.MarkRefines` | src/kyron/src/io/async_registration.rs:404-441 | increment and union on the word are the event on flags and tick |
| `ReadinessWord.ClearRefines` | src/kyron/src/io/async_registration.rs:404-407 | clearing on the word is clearing on the flags, with the same tick test |
| `ReadinessWord.ReadyRefines` | src/kyron/src/io/async_registration.rs:414-421 | the intersection with an interest is there exactly if its bit is up, and carries the tick |
| `Registrations.EveryRun` | src/kyron/src/io/driver.rs:166-333 | if the selector reports only what it watched during the poll: every event dispatched refers to a registration kept alive, once the driver is done every reported event was dispatched in order, scheduled keys are distinct and tracked, scheduling always finds room |
| `Registrations.ReportAlone` | src/kyron/src/io/driver.rs:291-331 | from the return of a poll on, exactly its events are dispatched, in order, and the driver is idle again |
| `Registrations.DispatchAlone` | src/kyron/src/io/driver.rs:309-331 | by itself the driver dispatches the rest of the reported events and is idle again |
| `Registrations.CleanupAlone` | src/kyron/src/io/driver.rs:291-307 | a cleanup by itself frees what waits, whether or not the pending mark is up, and the poll then watches what is registered |
| `Registrations.RegistrationAlone` | src/kyron/src/io/driver.rs:166-231 | a registration that fails leaves nothing behind; one that succeeds and is removed waits for release |
| `Registrations.RegisteredIsWatched` | src/kyron/src/io/driver.rs:166-205 | a source registered while a poll is on can be reported by it |
| `Registrations.StepKeeps` | src/kyron/src/io/driver.rs:104-333 | every step keeps that |
| `Registrations.CleanupFrees` | src/kyron/src/io/driver.rs:132-145 | what was scheduled when a cleanup began is freed by it, and nothing else |
| `Registrations.ScheduleFits` | src/kyron/src/io/driver.rs:124-130 | a scheduled key always finds room |
| `Registrations.RegistrationTable.CreateRegistrationInfo` | src/kyron/src/io/driver.rs:104-122 | a full table refuses, otherwise the free key is tracked |
| `Registrations.RegistrationTable.ScheduleRegistrationForDisposal` | src/kyron/src/io/driver.rs:124-130 | the key joins the release list and the flag is up, or the list is full, which a tracked key not yet scheduled never meets |
| `Registrations.RegistrationTable.CleanupDisposedRegistrations` | src/kyron/src/io/driver.rs:132-145 | exactly the scheduled keys are freed |
| `Registrations.RegistrationTable.ReleaseRegistrationInfo` | src/kyron/src/io/driver.rs:149-154 | exactly that key is freed, whatever the table; a sound table stays sound exactly if the key was not waiting for release |
| `Registrations.RegistrationTable.constructor` | src/kyron/src/io/driver.rs:94-102 | an empty table |
| `RingQueue.Queue.Push` | src/kyron-foundation/src/containers/queue.rs:54-67 | appends, or refuses exactly if full and changes nothing |
| `RingQueue.Queue.Pop` | src/kyron-foundation/src/containers/queue.rs:69-84 | the oldest item leaves, or nothing from an empty queue |
| `RingQueue.Queue.Drain` | src/kyron-foundation/src/containers/mpmc_queue.rs:31-47 | the draining iterator yields everything in order and leaves the queue empty |
| `RingQueue.Queue.Len` | src/kyron-foundation/src/containers/queue.rs:46-48 | the number of items held |
| `RingQueue.Queue.constructor` | src/kyron-foundation/src/containers/queue.rs:31-40 | an empty queue |
| `RingQueue.MaskIsRemainder` | src/kyron-foundation/src/containers/queue.rs:54-67 | the mask of a power-of-two capacity is the remainder |

## Left out

- Update in place of the atomics and cells shared between threads: the protocols are steps on values, so the order of steps is modelled and aliasing is not; classes are used where one thread owns the object.
- Weak memory orderings, raw pointers, pinning, vtables and reference counts: steps are sequentially consistent and references abstract.
- TimeDriver.Inner.RegisterTimeout: a registration is one call; the race of several on one wheel is `RegisterRace`, and the pool is a count of free entries.
- TimeDriver.Inner.ProcessInternal: the driver's try-lock, its clock and `Drop` are not modelled; instants are parameters.
- StealSteps.StepKeepsInv: a thief's compare-exchange is taken before 2^32 further claims on its victim, a refill's write fits beside the values not yet released (`RefillSparesIff`), and the plain cursor additions in the copy loops wrap.
- StealRuns.NothingLostOrDuplicated: for runs whose refills write no slot of a value not yet released. A write outside that breaks it if the thief has not copied the slot (`ThiefPublishes`, `RefillCanLoseAndDuplicate`); runs whose only such writes are over slots already copied are left out though those writes do no harm by themselves. The drop of a queue with values left in it is not modelled.
- TaskLifeCycle.EveryRun: one join handle whose owner polls and aborts in turn; wakers exist once the first poll has begun; a panic in the future, the pool the task lives in and tasks bound to dedicated workers are not modelled.
- SpscChannel.EveryRun: one sender life and one receiver life; reuse through `enable_receiver` is not modelled, and the lock-free queue of the container library is an atomic bounded sequence.
- Parking.EveryRun: runs without `request_stop`; the promise logic for timed wake-ups is not modelled.
- Wakeups.NoTaskIsLeftBehind: queues are counts, and that a notified worker goes on is `Parking`; a task is left out of the count once taken.
- Readiness.EveryRun: the waker slots of one reader and one writer; the list of waiting futures used by `request_readiness` is not modelled, and neither is the limit of wakers fired outside the lock.
- Registrations.EveryRun: a registration is removed once, and a failed deregistration means it was not registered; the slot map hands out free keys.
- RingQueue.Queue.Push: the counters do not overflow.
- Sockets, the poll selector and the `net`, `mio` and `ipc` trees: foreign calls.
- The broadcast channel, worker shutdown, thread parameters and affinity: they rest on parts not modelled here.
- Object and future pools, growable vectors, read buffers, the thread barrier, random numbers and worker ids: easy members.
- Macros, `select`, logging, examples and test utilities.
