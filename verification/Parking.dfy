/**
  Parking one worker on its condition variable or on the IO driver, against any number of
  unparkers, timeouts and spurious wake-ups, and without a stop request. Every access to the
  state byte, every lock, wait and notify is one step.
 */
module Parking {
  datatype ParkState = SleepingCv | Notified | SleepingIo | Executing

  /** What the last park returned. */
  datatype Answer = NeverParked | Unparked | TimedOut

  /** Where the worker is; `timed` parks have a deadline. */
  datatype Worker =
    | Awake(answer: Answer)
    | LockingCv(timed: bool)      // about to lock the mutex
    | EnteringCv(timed: bool)     // holds it, about to announce its sleep
    | CheckingCv(timed: bool, late: bool) // holds it, about to evaluate the wait condition; `late` past the deadline
    | BlockingCv(timed: bool)     // holds it, about to release it and wait
    | WaitingCv(timed: bool)
    | RelockingCv(timed: bool, late: bool) // woken, about to get the mutex back
    | LockingIo(timed: bool)
    | EnteringIo(timed: bool)
    | PollingIo(timed: bool)
    | RelockingIo(answer: Answer)
    | Leaving(answer: Answer)     // about to overwrite the state with executing
    | Confused                    // the park found a state it has no branch for

  /**
    Unparkers by what they have left to do: `toLock` and then `toNotify` on the condition
    variable, `toWakeIo` on the driver. `ioPending` is a wake-up the driver will find.
    `owed` is history: an unpark came since the worker last went back to work.
   */
  datatype Parker = Parker(state: ParkState, worker: Worker, toLock: nat, toNotify: nat, toWakeIo: nat,
                           ioPending: bool, owed: bool)

  datatype Action =
    | ParkOnCv(timed: bool) | ParkOnIo(timed: bool) | ParkForNoTime
    | LockCv | EnterCv | CheckCv | BlockCv | TimeOut | SpuriousWake | RelockCv
    | LockIo | EnterIo | IoReturns | RelockIo | Leave
    | Unpark | UnparkerLocks | UnparkerNotifies | UnparkerWakesIo
    | OtherIo | OtherPoll

  function Start(): Parker { Parker(Executing, Awake(NeverParked), 0, 0, 0, false, false) }

  predicate HoldsMutex(w: Worker) {
    w.EnteringCv? || w.CheckingCv? || w.BlockingCv? || w.EnteringIo?
  }

  /** The worker owns the IO driver from before it announces its sleep until it is back. */
  predicate OwnsDriver(w: Worker) {
    w.LockingIo? || w.EnteringIo? || w.PollingIo? || w.RelockingIo?
  }

  predicate CanStep(p: Parker, a: Action) {
    match a
    case ParkOnCv(_) => p.worker.Awake?
    case ParkOnIo(_) => p.worker.Awake?
    case ParkForNoTime => p.worker.Awake?
    case LockCv => p.worker.LockingCv?
    case EnterCv => p.worker.EnteringCv?
    case CheckCv => p.worker.CheckingCv?
    case BlockCv => p.worker.BlockingCv?
    case TimeOut => p.worker.WaitingCv? && p.worker.timed
    case SpuriousWake => p.worker.WaitingCv?
    case RelockCv => p.worker.RelockingCv?
    case LockIo => p.worker.LockingIo?
    case EnterIo => p.worker.EnteringIo?
    case IoReturns => p.worker.PollingIo? && (p.ioPending || p.worker.timed)
    case RelockIo => p.worker.RelockingIo?
    case Leave => p.worker.Leaving?
    case Unpark => true
    case UnparkerLocks => p.toLock > 0 && !HoldsMutex(p.worker)
    case UnparkerNotifies => p.toNotify > 0
    case UnparkerWakesIo => p.toWakeIo > 0
    case OtherIo => true
    case OtherPoll => !OwnsDriver(p.worker)
  }

  function Step(p: Parker, a: Action): Parker
    requires CanStep(p, a)
  {
    match a
    case ParkOnCv(timed) => p.(worker := LockingCv(timed))
    case ParkOnIo(timed) => p.(worker := LockingIo(timed))
    case ParkForNoTime => p.(worker := Leaving(Unparked))
    case LockCv => p.(worker := EnteringCv(p.worker.timed))
    case EnterCv => Announce(p, SleepingCv, CheckingCv(p.worker.timed, false))
    case CheckCv =>
      if p.state.Notified? then p.(state := Executing, owed := false, worker := Awake(Unparked))
      else if p.worker.late then p.(worker := Leaving(TimedOut))
      else p.(worker := BlockingCv(p.worker.timed))
    case BlockCv => p.(worker := WaitingCv(p.worker.timed))
    case TimeOut => p.(worker := RelockingCv(true, true))
    case SpuriousWake => p.(worker := RelockingCv(p.worker.timed, false))
    case RelockCv => p.(worker := CheckingCv(p.worker.timed, p.worker.late))
    case LockIo => p.(worker := EnteringIo(p.worker.timed))
    case EnterIo => Announce(p, SleepingIo, PollingIo(p.worker.timed))
    case IoReturns => p.(worker := RelockingIo(if p.ioPending then Unparked else TimedOut), ioPending := false)
    case RelockIo => p.(worker := Leaving(p.worker.answer))
    case Leave => p.(state := Executing, owed := false, worker := Awake(p.worker.answer))
    case Unpark =>
      var q := p.(state := Notified, owed := true);
      if p.state.SleepingCv? then q.(toLock := p.toLock + 1)
      else if p.state.SleepingIo? then q.(toWakeIo := p.toWakeIo + 1)
      else q
    case UnparkerLocks => p.(toLock := p.toLock - 1, toNotify := p.toNotify + 1)
    case UnparkerNotifies =>
      p.(toNotify := p.toNotify - 1, worker := if p.worker.WaitingCv? then RelockingCv(p.worker.timed, false) else p.worker)
    case UnparkerWakesIo => p.(toWakeIo := p.toWakeIo - 1, ioPending := true)
    case OtherIo => p.(ioPending := true)
    case OtherPoll => p.(ioPending := false)
  }

  /** `park_pre_stage`: from executing to asleep, unless a notification came first. */
  function Announce(p: Parker, asleep: ParkState, next: Worker): Parker {
    match p.state
    case Executing => p.(state := asleep, worker := next)
    case Notified => p.(state := Executing, owed := false, worker := Awake(Unparked))
    case _ => p.(worker := Confused)
  }

  // ---------------------------------------------------------------- what every run keeps

  predicate AsleepOnCv(w: Worker) {
    w.CheckingCv? || w.BlockingCv? || w.WaitingCv? || w.RelockingCv?
  }

  predicate Inv(p: Parker) {
    && !p.worker.Confused?
    && (p.owed <==> p.state.Notified?)
    && (p.state.SleepingCv? ==> AsleepOnCv(p.worker) || p.worker.Leaving?)
    && (p.state.SleepingIo? ==> p.worker.PollingIo? || p.worker.RelockingIo? || p.worker.Leaving?)
    && (AsleepOnCv(p.worker) || p.worker.PollingIo? ==> !p.state.Executing?)
    && (p.worker.CheckingCv? || p.worker.RelockingCv? ==> p.worker.late ==> p.worker.timed)
    && (p.worker.BlockingCv? && p.owed ==> p.toLock > 0)
    && (p.worker.WaitingCv? && p.owed ==> p.toLock + p.toNotify > 0)
    && (p.worker.PollingIo? && p.owed ==> p.toWakeIo > 0 || p.ioPending)
  }

  lemma StepKeeps(p: Parker, a: Action)
    requires Inv(p) && CanStep(p, a)
    ensures Inv(Step(p, a))
  {
  }

  predicate IsRun(p: Parker, actions: seq<Action>)
    decreases |actions|
  {
    actions != [] ==> CanStep(p, actions[0]) && IsRun(Step(p, actions[0]), actions[1..])
  }

  function After(p: Parker, actions: seq<Action>): Parker
    requires IsRun(p, actions)
    decreases |actions|
  {
    if actions == [] then p else After(Step(p, actions[0]), actions[1..])
  }

  lemma {:induction false} RunKeeps(p: Parker, actions: seq<Action>)
    requires Inv(p) && IsRun(p, actions)
    ensures Inv(After(p, actions))
    decreases |actions|
  {
    if actions != [] {
      StepKeeps(p, actions[0]);
      hide Inv, Step, CanStep;
      RunKeeps(Step(p, actions[0]), actions[1..]);
    }
  }

  /** Steps the unparkers can take by themselves. */
  predicate Unparkers(actions: seq<Action>) {
    forall a :: a in actions ==> a.UnparkerLocks? || a.UnparkerNotifies? || a.UnparkerWakesIo?
  }

  /**
    In every run without a stop request: no unpark is lost. A worker asleep on the condition
    variable or on the driver that is owed a wake-up has an unparker under way (or, on the
    driver, a wake-up waiting), and no park meets a state it has no branch for.
   */
  lemma EveryRun(start: Parker, actions: seq<Action>)
    requires start == Start() && IsRun(start, actions)
    ensures var p := After(start, actions);
            && !p.worker.Confused?
            && (p.worker.WaitingCv? && p.owed ==> p.toLock + p.toNotify > 0)
            && (p.worker.PollingIo? && p.owed ==> p.toWakeIo > 0 || p.ioPending)
            && (p.worker.Awake? && !p.owed ==> p.state.Executing?)
            && (p.worker.EnteringCv? || p.worker.EnteringIo? ==> p.state.Executing? || p.state.Notified?)
  {
    RunKeeps(start, actions);
    hide After, IsRun;
  }

  /** Whatever the worker is owed, unparkers alone get it out of its sleep, and it then goes back to work. */
  lemma OwedIsDelivered(p: Parker) returns (actions: seq<Action>)
    requires Inv(p) && p.owed && (p.worker.WaitingCv? || p.worker.PollingIo?)
    ensures Unparkers(actions) && IsRun(p, actions)
    ensures var q := After(p, actions);
            && (p.worker.WaitingCv? ==> q.worker == RelockingCv(p.worker.timed, false))
            && (p.worker.PollingIo? ==> CanStep(q, IoReturns))
  {
    if p.worker.PollingIo? {
      actions := if p.ioPending then [] else [UnparkerWakesIo];
      var q := if p.ioPending then p else Step(p, UnparkerWakesIo);
      assert IsRun(q, []) && After(q, []) == q;
      assert !p.ioPending ==> actions[1..] == [];
    } else if p.toNotify > 0 {
      actions := [UnparkerNotifies];
      var q := Step(p, UnparkerNotifies);
      assert IsRun(q, []) && After(q, []) == q;
      assert actions[1..] == [];
    } else {
      actions := [UnparkerLocks, UnparkerNotifies];
      var q := Step(p, UnparkerLocks);
      var r := Step(q, UnparkerNotifies);
      assert IsRun(r, []) && After(r, []) == r;
      assert actions[1..] == [UnparkerNotifies] && actions[1..][1..] == [];
      assert IsRun(q, [UnparkerNotifies]) && After(q, [UnparkerNotifies]) == r;
    }
  }

  /** Out of the wait with a notification, the check lets the worker go and uses the notification up. */
  lemma WokenGoesOn(p: Parker)
    requires Inv(p) && p.owed && p.worker.RelockingCv?
    ensures var q := Step(Step(p, RelockCv), CheckCv); q.worker == Awake(Unparked) && q.state.Executing? && !q.owed
  {
  }

  /** Woken without one, it waits again: a spurious wake-up does not end a park. */
  lemma SpuriousWaitsAgain(p: Parker)
    requires Inv(p) && !p.owed && p.worker.WaitingCv?
    ensures var q := Step(Step(Step(Step(p, SpuriousWake), RelockCv), CheckCv), BlockCv); q == p
  {
  }

  // ---------------------------------------------------------------- a park by itself

  /** The worker is back at work with `answer`, and nothing of its park is left. */
  predicate Back(p: Parker, q: Parker, answer: Answer) {
    q == p.(worker := Awake(answer), state := Executing, owed := false)
  }

  /** A park that finds a notification returns at once and uses it up; without one it sleeps. */
  lemma ParkAlone(p: Parker, timed: bool)
    requires Inv(p) && p.worker.Awake?
    ensures var q := Step(Step(Step(p, ParkOnCv(timed)), LockCv), EnterCv);
            && (p.owed ==> Back(p, q, Unparked))
            && (!p.owed ==> var r := Step(Step(q, CheckCv), BlockCv);
                            r == p.(worker := WaitingCv(timed), state := SleepingCv))
    ensures var q := Step(Step(Step(p, ParkOnIo(timed)), LockIo), EnterIo);
            if p.owed then Back(p, q, Unparked) else q == p.(worker := PollingIo(timed), state := SleepingIo)
    ensures Back(p, Step(Step(p, ParkForNoTime), Leave), Unparked)
  {
  }

  /**
    An unpark by itself leaves a notification; a worker waiting on the condition variable is
    woken, and one in the IO wait has a wake-up there. No other unparker is lost or added.
   */
  lemma UnparkAlone(p: Parker)
    requires Inv(p) && (p.state.SleepingCv? ==> !HoldsMutex(p.worker))
    ensures var q, notified := Step(p, Unpark), p.(state := Notified, owed := true);
            if p.state.SleepingCv? then
              && CanStep(q, UnparkerLocks)
              && Step(Step(q, UnparkerLocks), UnparkerNotifies) ==
                   if p.worker.WaitingCv? then notified.(worker := RelockingCv(p.worker.timed, false)) else notified
            else if p.state.SleepingIo? then Step(q, UnparkerWakesIo) == notified.(ioPending := true)
            else q == notified
  {
  }

  /** Another reason for the IO wait to end comes, or another worker's poll uses it up. */
  lemma IoTraffic(p: Parker)
    requires Inv(p)
    ensures CanStep(Step(p, OtherIo), IoReturns) <==> p.worker.PollingIo?
    ensures CanStep(p, OtherPoll) ==> Step(Step(p, OtherIo), OtherPoll) == p.(ioPending := false)
  {
  }

  /** At its deadline a timed wait ends, with a timeout exactly if no notification came. */
  lemma DeadlineEndsWait(p: Parker)
    requires Inv(p) && p.worker == WaitingCv(true)
    ensures var q := Step(Step(Step(p, TimeOut), RelockCv), CheckCv);
            if p.owed then Back(p, q, Unparked) else q.worker.Leaving? && Back(p, Step(q, Leave), TimedOut)
  {
  }

  /** So does a timed IO wait, with a timeout exactly if the driver found nothing. */
  lemma DeadlineEndsIo(p: Parker)
    requires Inv(p) && p.worker == PollingIo(true)
    ensures var q := Step(Step(Step(p, IoReturns), RelockIo), Leave);
            Back(p.(ioPending := false), q, if p.ioPending then Unparked else TimedOut)
  {
  }

  // ---------------------------------------------------------------- deadlines in every run

  /** Past the deadline of a park, and the steps of its own the worker has left. */
  predicate Late(w: Worker) {
    (w.RelockingCv? && w.late) || (w.CheckingCv? && w.late) || w.RelockingIo? || w.Leaving?
  }

  function Left(w: Worker): nat {
    match w
    case RelockingCv(_, _) => 3
    case CheckingCv(_, _) => 2
    case RelockingIo(_) => 2
    case Leaving(_) => 1
    case _ => 0
  }

  predicate Own(a: Action) {
    !(a.Unpark? || a.UnparkerLocks? || a.UnparkerNotifies? || a.UnparkerWakesIo? || a.OtherIo? || a.OtherPoll?)
  }

  function OwnSteps(actions: seq<Action>): nat {
    if actions == [] then 0 else (if Own(actions[0]) then 1 else 0) + OwnSteps(actions[1..])
  }

  lemma LateStep(p: Parker, a: Action)
    requires Inv(p) && CanStep(p, a) && Late(p.worker)
    ensures var q := Step(p, a);
            if Own(a) then Left(q.worker) < Left(p.worker) && (q.worker.Awake? || Late(q.worker))
            else q.worker == p.worker
  {
  }

  /** Whatever unparkers do meanwhile, a park past its deadline is over within three steps of its own. */
  lemma {:induction false} LateParkEnds(p: Parker, actions: seq<Action>) returns (k: nat)
    requires Inv(p) && IsRun(p, actions) && Late(p.worker) && OwnSteps(actions) >= Left(p.worker)
    ensures k <= |actions| && IsRun(p, actions[..k])
    ensures var q := After(p, actions[..k]); Inv(q) && q.worker.Awake? && OwnSteps(actions[..k]) <= Left(p.worker)
    decreases |actions|
  {
    var a, q := actions[0], Step(p, actions[0]);
    LateStep(p, a);
    StepKeeps(p, a);
    hide Inv, Step, CanStep, Late;
    if q.worker.Awake? {
      k := 1;
      assert actions[..1] == [a] && [a][1..] == [];
      assert IsRun(q, []) && After(q, []) == q;
    } else {
      var rest := actions[1..];
      var j := LateParkEnds(q, rest);
      k := 1 + j;
      assert actions[..k][0] == a && actions[..k][1..] == rest[..k - 1];
    }
  }
}
