/**
  Readiness of one IO registration: the driver marks events and wakes, one reader and one
  writer poll through their waker slots and clear what they consumed. Every access to the
  readiness word and every critical section of the slots is one step.
 */
module Readiness {
  import opened Common

  const TICKS := 0x1_0000

  /** Index 0 is readable, index 1 writable, in flags as well as in slots and users. */
  const SIDES: nat := 2

  /** What the readiness word stands for; `ReadinessWord` has the masks and shifts. */
  datatype Word = Word(flags: seq<bool>, tick: nat) {
    predicate Ok() { |flags| == SIDES && tick < TICKS }
  }

  function Union(a: seq<bool>, b: seq<bool>): (r: seq<bool>)
    requires |a| == |b|
    ensures |r| == |a|
  {
    seq(|a|, i requires 0 <= i < |a| => a[i] || b[i])
  }

  /** `mark_state`: a new tick, and the new bits beside the old ones. */
  function Mark(w: Word, event: seq<bool>): (w': Word)
    requires w.Ok() && |event| == SIDES
    ensures w'.Ok()
  {
    Word(Union(w.flags, event), (w.tick + 1) % TICKS)
  }

  /** `clear_readiness`: nothing unless the tick is still the one observed. */
  function Clear(w: Word, side: nat, tick: nat): (w': Word)
    requires w.Ok() && side < SIDES
    ensures w'.Ok()
  {
    if w.tick != tick then w else w.(flags := w.flags[side := false])
  }

  // ---------------------------------------------------------------- the registration

  datatype Driver = DriverIdle | Marked(flags: seq<bool>)

  datatype Answer = NoAnswer | Ready(tick: nat) | Pending

  datatype Pc = Away | Checking | Locking | Rechecking | Storing

  /**
    `poll` numbers the polls of this side and names the waker each brings. `seenAt` is history:
    events at the last observation.
   */
  datatype User = User(pc: Pc, poll: nat, answer: Answer, seenAt: nat)

  /**
    `events` counts marked events, `newest` has for each side the number of the last one that
    carried its bit, `cleared` the number of events seen by the last clear that took effect,
    `woken` the wakers fired: history.
   */
  datatype Registration = Registration(word: Word, driver: Driver, slots: seq<Option<nat>>, users: seq<User>,
                                       lock: Option<nat>, events: nat, newest: seq<nat>, cleared: seq<nat>,
                                       woken: seq<set<nat>>)

  datatype Action =
    | Event(flags: seq<bool>) | WakeAll
    | Poll(side: nat) | Check(side: nat) | Lock(side: nat) | Recheck(side: nat) | Store(side: nat)
    | ClearReadiness(side: nat)

  function Fresh(): Registration {
    Registration(Word([false, false], 0), DriverIdle, [None, None],
                 [User(Away, 0, NoAnswer, 0), User(Away, 0, NoAnswer, 0)], None, 0, [0, 0], [0, 0], [{}, {}])
  }

  predicate Shape(r: Registration) {
    && r.word.Ok()
    && |r.slots| == |r.users| == |r.newest| == |r.cleared| == |r.woken| == SIDES
    && (r.driver.Marked? ==> |r.driver.flags| == SIDES)
  }

  predicate CanStep(r: Registration, a: Action) {
    && Shape(r)
    && match a
       case Event(flags) => r.driver.DriverIdle? && |flags| == SIDES
       case WakeAll => r.driver.Marked? && r.lock.None?
       case Poll(side) => side < SIDES && r.users[side].pc.Away?
       case Check(side) => side < SIDES && r.users[side].pc.Checking?
       case Lock(side) => side < SIDES && r.users[side].pc.Locking? && r.lock.None?
       case Recheck(side) => side < SIDES && r.users[side].pc.Rechecking?
       case Store(side) => side < SIDES && r.users[side].pc.Storing?
       case ClearReadiness(side) => side < SIDES && r.users[side].pc.Away? && r.users[side].answer.Ready?
  }

  function Step(r: Registration, a: Action): Registration
    requires CanStep(r, a)
  {
    match a
    case Event(flags) =>
      var word := Mark(r.word, flags);
      r.(word := word, driver := Marked(word.flags), events := r.events + 1,
         newest := seq(SIDES, i requires 0 <= i < SIDES => if flags[i] then r.events + 1 else r.newest[i]))
    case WakeAll =>
      r.(driver := DriverIdle,
         slots := seq(SIDES, i requires 0 <= i < SIDES => if r.driver.flags[i] then None else r.slots[i]),
         woken := seq(SIDES, i requires 0 <= i < SIDES =>
                    if r.driver.flags[i] && r.slots[i].Some? then r.woken[i] + {r.slots[i].value} else r.woken[i]))
    case Poll(side) =>
      var user := r.users[side];
      r.(users := r.users[side := user.(pc := Checking, poll := user.poll + 1, answer := NoAnswer)])
    case Check(side) => if r.word.flags[side] then Observe(r, side) else Goto(r, side, Locking)
    case Lock(side) => Goto(r, side, Rechecking).(lock := Some(side))
    case Recheck(side) => if r.word.flags[side] then Observe(r, side).(lock := None) else Goto(r, side, Storing)
    case Store(side) =>
      r.(slots := r.slots[side := Some(r.users[side].poll)], lock := None,
         users := r.users[side := r.users[side].(pc := Away, answer := Pending)])
    case ClearReadiness(side) =>
      var word := Clear(r.word, side, r.users[side].answer.tick);
      var tookEffect := r.word.flags[side] && !word.flags[side];
      r.(word := word, cleared := if tookEffect then r.cleared[side := r.users[side].seenAt] else r.cleared)
  }

  function Goto(r: Registration, side: nat, pc: Pc): Registration
    requires Shape(r) && side < SIDES
  {
    r.(users := r.users[side := r.users[side].(pc := pc)])
  }

  /** A poll that finds its bit returns with the tick. */
  function Observe(r: Registration, side: nat): Registration
    requires Shape(r) && side < SIDES
  {
    r.(users := r.users[side := r.users[side].(pc := Away, answer := Ready(r.word.tick), seenAt := r.events)])
  }

  // ---------------------------------------------------------------- what every run keeps

  /** The driver has marked this side's bit and will look into its slot. */
  predicate WillLook(r: Registration, side: nat)
    requires Shape(r) && side < SIDES
  {
    r.driver.Marked? && r.driver.flags[side]
  }

  predicate SideOk(r: Registration, side: nat)
    requires Shape(r) && side < SIDES
  {
    var u := r.users[side];
    && (u.pc.Storing? && r.word.flags[side] ==> WillLook(r, side))
    && (u.pc.Away? && u.answer.Pending? ==> r.slots[side] == Some(u.poll) || u.poll in r.woken[side])
    && (u.pc.Away? && u.answer.Pending? && r.slots[side] == Some(u.poll) && r.word.flags[side] ==> WillLook(r, side))
    && (u.pc.Rechecking? || u.pc.Storing? <==> r.lock == Some(side))
    && u.seenAt <= r.events
    && (u.answer.Ready? ==> u.answer.tick == u.seenAt % TICKS)
    && r.newest[side] <= r.events
  }

  predicate Inv(r: Registration) {
    && Shape(r)
    && r.word.tick == r.events % TICKS
    && SideOk(r, 0) && SideOk(r, 1)
    && (r.lock.Some? ==> r.lock.value < SIDES)
  }

  lemma DriverKeeps(r: Registration, a: Action)
    requires Inv(r) && CanStep(r, a) && (a.Event? || a.WakeAll?)
    ensures Inv(Step(r, a))
  {
  }

  lemma LookKeeps(r: Registration, a: Action)
    requires Inv(r) && CanStep(r, a) && (a.Poll? || a.Check?)
    ensures Inv(Step(r, a))
  {
  }

  lemma LockedKeeps(r: Registration, a: Action)
    requires Inv(r) && CanStep(r, a) && (a.Lock? || a.Recheck? || a.Store?)
    ensures Inv(Step(r, a))
  {
  }

  lemma ClearKeeps(r: Registration, a: Action)
    requires Inv(r) && CanStep(r, a) && a.ClearReadiness?
    ensures Inv(Step(r, a))
  {
  }

  lemma StepKeeps(r: Registration, a: Action)
    requires Inv(r) && CanStep(r, a)
    ensures Inv(Step(r, a))
  {
    hide Inv, Step;
    if a.Event? || a.WakeAll? { DriverKeeps(r, a); }
    else if a.Poll? || a.Check? { LookKeeps(r, a); }
    else if a.ClearReadiness? { ClearKeeps(r, a); }
    else { LockedKeeps(r, a); }
  }

  // ---------------------------------------------------------------- clearing

  /**
    A clear lowers its own bit, and only that, exactly if a whole number of tick rounds has
    passed: none, if nothing came since.
   */
  lemma ClearLowersIff(r: Registration, side: nat)
    requires Inv(r) && CanStep(r, ClearReadiness(side))
    ensures var r' := Step(r, ClearReadiness(side));
            && r'.word.flags[side] == (r.word.flags[side] && (r.events - r.users[side].seenAt) % TICKS != 0)
            && r'.word.flags[1 - side] == r.word.flags[1 - side]
            && r'.word.tick == r.word.tick
  {
    SameTick(r.users[side].seenAt, r.events);
  }

  /** A clear forgets an event that came after the observation it clears for. */
  predicate ForgetsNewer(r: Registration, side: nat)
    requires CanStep(r, ClearReadiness(side))
  {
    && r.newest[side] > r.users[side].seenAt
    && r.word.flags[side] && !Step(r, ClearReadiness(side)).word.flags[side]
  }

  /** That takes a whole number of tick rounds between the observation and the clear. */
  lemma ForgetsNewerIff(r: Registration, side: nat)
    requires Inv(r) && CanStep(r, ClearReadiness(side))
    ensures ForgetsNewer(r, side) <==>
              && r.word.flags[side] && r.newest[side] > r.users[side].seenAt
              && (r.events - r.users[side].seenAt) % TICKS == 0
    ensures r.events - r.users[side].seenAt < TICKS ==> !ForgetsNewer(r, side)
  {
    SameTick(r.users[side].seenAt, r.events);
  }

  lemma SameTick(a: nat, b: nat)
    requires a <= b
    ensures a % TICKS == b % TICKS <==> (b - a) % TICKS == 0
  {
  }

  /** A bit is down only if the clear that took it down had seen the last event that raised it. */
  predicate NothingForgotten(r: Registration)
    requires Shape(r)
  {
    forall side :: 0 <= side < SIDES && !r.word.flags[side] ==> r.newest[side] <= r.cleared[side]
  }

  /** Every clear comes before a full tick round has passed since its observation. */
  predicate Timely(r: Registration, a: Action)
    requires CanStep(r, a)
  {
    a.ClearReadiness? ==> r.events - r.users[a.side].seenAt < TICKS
  }

  lemma StepForgetsNothing(r: Registration, a: Action)
    requires Inv(r) && CanStep(r, a) && Timely(r, a) && NothingForgotten(r)
    ensures Shape(Step(r, a)) && NothingForgotten(Step(r, a))
  {
    if a.ClearReadiness? { ForgetsNewerIff(r, a.side); }
  }

  // ---------------------------------------------------------------- runs

  predicate IsRun(r: Registration, actions: seq<Action>)
    decreases |actions|
  {
    actions != [] ==> CanStep(r, actions[0]) && IsRun(Step(r, actions[0]), actions[1..])
  }

  predicate TimelyRun(r: Registration, actions: seq<Action>)
    requires IsRun(r, actions)
    decreases |actions|
  {
    actions != [] ==> Timely(r, actions[0]) && TimelyRun(Step(r, actions[0]), actions[1..])
  }

  function After(r: Registration, actions: seq<Action>): Registration
    requires IsRun(r, actions)
    decreases |actions|
  {
    if actions == [] then r else After(Step(r, actions[0]), actions[1..])
  }

  lemma {:induction false} RunKeeps(r: Registration, actions: seq<Action>)
    requires Inv(r) && IsRun(r, actions)
    ensures Inv(After(r, actions))
    ensures NothingForgotten(r) && TimelyRun(r, actions) ==> NothingForgotten(After(r, actions))
    decreases |actions|
  {
    if actions != [] {
      var a := actions[0];
      StepKeeps(r, a);
      if NothingForgotten(r) && Timely(r, a) { StepForgetsNothing(r, a); }
      hide SideOk, Step, NothingForgotten, Timely;
      RunKeeps(Step(r, a), actions[1..]);
    }
  }

  /**
    In every run: a side that was answered pending has its waker in the slot or fired, and if
    its bit is up and the driver is not about to look, it was fired. If clears come within a
    tick round, no bit goes down on an event its user has not seen.
   */
  lemma EveryRun(start: Registration, actions: seq<Action>, side: nat)
    requires start == Fresh() && IsRun(start, actions) && side < SIDES
    ensures var r := After(start, actions);
            && Shape(r)
            && (r.users[side].pc.Away? && r.users[side].answer.Pending? ==>
                  && (r.slots[side] == Some(r.users[side].poll) || r.users[side].poll in r.woken[side])
                  && (r.word.flags[side] && !WillLook(r, side) ==> r.users[side].poll in r.woken[side]))
            && (TimelyRun(start, actions) && !r.word.flags[side] ==> r.newest[side] <= r.cleared[side])
  {
    RunKeeps(start, actions);
    hide After, IsRun, TimelyRun;
  }

  /** The state before action `x` of a run. */
  function At(r: Registration, actions: seq<Action>, x: nat): Registration
    requires IsRun(r, actions) && x <= |actions|
  {
    RunPrefix(r, actions, x);
    After(r, actions[..x])
  }

  lemma {:induction false} RunPrefix(r: Registration, actions: seq<Action>, x: nat)
    requires IsRun(r, actions) && x <= |actions|
    ensures IsRun(r, actions[..x])
    ensures x < |actions| ==> CanStep(After(r, actions[..x]), actions[x])
    decreases x
  {
    if x > 0 {
      RunPrefix(Step(r, actions[0]), actions[1..], x - 1);
      assert actions[..x][1..] == actions[1..][..x - 1];
      hide Step, CanStep;
    }
  }

  lemma {:induction false} AtNext(r: Registration, actions: seq<Action>, x: nat)
    requires IsRun(r, actions) && x < |actions|
    ensures CanStep(At(r, actions, x), actions[x])
    ensures At(r, actions, x + 1) == Step(At(r, actions, x), actions[x])
  {
    RunPrefix(r, actions, x);
    RunExtends(r, actions[..x], actions[x]);
    assert actions[..x] + [actions[x]] == actions[..x + 1];
    hide Step, CanStep;
  }

  lemma AtFresh(r: Registration, actions: seq<Action>, side: nat)
    requires r == Fresh() && IsRun(r, actions) && side < SIDES
    ensures var r0 := At(r, actions, 0); !r0.word.flags[side] && r0.users[side].answer.NoAnswer?
  {
    assert actions[..0] == [];
  }

  /** An event at `k` raised the bit, and it has been up from then to the state before action `x`. */
  ghost predicate UpSince(r: Registration, actions: seq<Action>, side: nat, k: nat, x: nat)
    requires IsRun(r, actions) && x <= |actions| && side < SIDES
  {
    && k < x && actions[k].Event? && |actions[k].flags| == SIDES && actions[k].flags[side]
    && (forall y :: k < y <= x ==> |At(r, actions, y).word.flags| == SIDES && At(r, actions, y).word.flags[side])
  }

  lemma {:induction false} BitHasAnEvent(r: Registration, actions: seq<Action>, side: nat, x: nat) returns (k: nat)
    requires r == Fresh() && IsRun(r, actions) && x <= |actions| && side < SIDES
    requires |At(r, actions, x).word.flags| == SIDES && At(r, actions, x).word.flags[side]
    ensures UpSince(r, actions, side, k, x)
  {
    hide At, IsRun, After, Fresh, Step;
    AtFresh(r, actions, side);
    assert x > 0;
    AtNext(r, actions, x - 1);
    var before, a := At(r, actions, x - 1), actions[x - 1];
    if a.Event? && a.flags[side] {
      k := x - 1;
    } else {
      BitStays(before, a, side);
      k := BitHasAnEvent(r, actions, side, x - 1);
    }
  }

  lemma BitStays(r: Registration, a: Action, side: nat)
    requires CanStep(r, a) && side < SIDES && !(a.Event? && a.flags[side])
    requires |Step(r, a).word.flags| == SIDES && Step(r, a).word.flags[side]
    ensures r.word.flags[side]
  {
  }

  /** A poll is answered ready only by its own look at a bit that is up. */
  lemma ReadyIsSeen(r: Registration, a: Action, side: nat)
    requires CanStep(r, a) && side < SIDES && |Step(r, a).users| == SIDES && Step(r, a).users[side].answer.Ready?
    ensures || ((a == Check(side) || a == Recheck(side)) && r.word.flags[side]
                && Step(r, a).users[side].answer == Ready(r.word.tick))
            || (Step(r, a).users[side].answer == r.users[side].answer && a != Poll(side))
  {
  }

  /**
    In every run a side answered ready was answered by its last poll's look at `m`, which found
    a bit that an event at `k` had raised and that was up all the time between.
   */
  lemma {:induction false} ReadyHasAnEvent(r: Registration, actions: seq<Action>, side: nat, x: nat)
    returns (k: nat, m: nat)
    requires r == Fresh() && IsRun(r, actions) && x <= |actions| && side < SIDES
    requires |At(r, actions, x).users| == SIDES && At(r, actions, x).users[side].answer.Ready?
    ensures m < x && (actions[m] == Check(side) || actions[m] == Recheck(side))
    ensures UpSince(r, actions, side, k, m)
    ensures At(r, actions, x).users[side].answer == Ready(At(r, actions, m).word.tick)
    ensures forall y :: m < y < x ==> actions[y] != Poll(side)
  {
    hide At, UpSince, IsRun, After, Fresh, Step;
    AtFresh(r, actions, side);
    assert x > 0;
    AtNext(r, actions, x - 1);
    var before, a := At(r, actions, x - 1), actions[x - 1];
    ReadyIsSeen(before, a, side);
    assert Shape(before);
    hide CanStep;
    if before.users[side].answer == At(r, actions, x).users[side].answer && a != Poll(side) {
      k, m := ReadyHasAnEvent(r, actions, side, x - 1);
    } else {
      m := x - 1;
      k := BitHasAnEvent(r, actions, side, m);
    }
  }

  /** A poll by itself is ready exactly if its bit is up, and else leaves its waker in the slot. */
  lemma PollAlone(r: Registration, side: nat)
    requires Inv(r) && CanStep(r, Poll(side)) && r.lock.None?
    ensures var user := r.users[side];
            var looked := Step(Step(r, Poll(side)), Check(side));
            if r.word.flags[side] then
              looked == r.(users := r.users[side := User(Away, user.poll + 1, Ready(r.word.tick), r.events)])
            else
              Step(Step(Step(looked, Lock(side)), Recheck(side)), Store(side)) ==
                r.(users := r.users[side := User(Away, user.poll + 1, Pending, user.seenAt)],
                   slots := r.slots[side := Some(user.poll + 1)])
  {
  }

  /** A waker is fired only by a driver that marked its side, out of its slot. */
  lemma FiredFromTheSlot(r: Registration, a: Action, side: nat)
    requires Inv(r) && CanStep(r, a) && side < SIDES && Step(r, a).woken[side] != r.woken[side]
    ensures a.WakeAll? && WillLook(r, side) && r.slots[side].Some?
    ensures Step(r, a).woken[side] == r.woken[side] + {r.slots[side].value} && Step(r, a).slots[side].None?
  {
  }

  /** A matching event after a pending answer fires the stored waker. */
  lemma EventFindsTheWaker(r: Registration, flags: seq<bool>, side: nat)
    requires Inv(r) && CanStep(r, Event(flags)) && side < SIDES && flags[side] && r.lock.None?
    requires r.users[side].pc.Away? && r.users[side].answer.Pending?
    ensures var r' := Step(Step(r, Event(flags)), WakeAll);
            r'.users[side].poll in r'.woken[side] && r'.slots[side].None? && r'.word.flags[side]
  {
  }

  // ---------------------------------------------------------------- a clear after a tick round

  ghost predicate Reaches(r: Registration, r': Registration) {
    exists actions :: IsRun(r, actions) && After(r, actions) == r'
  }

  lemma ReachesItself(r: Registration)
    ensures Reaches(r, r)
  {
    assert IsRun(r, []) && After(r, []) == r;
  }

  lemma {:induction false} RunExtends(r: Registration, actions: seq<Action>, a: Action)
    requires IsRun(r, actions) && CanStep(After(r, actions), a)
    ensures IsRun(r, actions + [a]) && After(r, actions + [a]) == Step(After(r, actions), a)
    decreases |actions|
  {
    hide Step, CanStep;
    if actions == [] {
      assert [] + [a] == [a] && [a][1..] == [];
      assert IsRun(Step(r, a), []) && After(Step(r, a), []) == Step(r, a);
    } else {
      RunExtends(Step(r, actions[0]), actions[1..], a);
      assert (actions + [a])[0] == actions[0] && (actions + [a])[1..] == actions[1..] + [a];
    }
  }

  lemma ReachesOn(r: Registration, r': Registration, a: Action, r'': Registration)
    requires Reaches(r, r') && CanStep(r', a) && Step(r', a) == r''
    ensures Reaches(r, r'')
  {
    var actions :| IsRun(r, actions) && After(r, actions) == r';
    RunExtends(r, actions, a);
    hide Step, CanStep;
    assert IsRun(r, actions + [a]) && After(r, actions + [a]) == r'';
  }

  /** The reader has seen the first of `1 + n` readable events. */
  function Ticked(n: nat): Registration {
    Registration(Word([true, false], (1 + n) % TICKS), DriverIdle, [None, None],
                 [User(Away, 1, Ready(1), 1), User(Away, 0, NoAnswer, 0)], None, 1 + n, [1 + n, 0], [0, 0], [{}, {}])
  }

  const READABLE := [true, false]

  lemma TickedStarts()
    ensures Reaches(Fresh(), Ticked(0))
  {
    var marked := Fresh().(word := Word(READABLE, 1), driver := Marked(READABLE), events := 1, newest := [1, 0]);
    var woken := marked.(driver := DriverIdle);
    var polled := woken.(users := [User(Checking, 1, NoAnswer, 0), User(Away, 0, NoAnswer, 0)]);
    hide Reaches;
    ReachesItself(Fresh());
    assert Union([false, false], READABLE) == READABLE;
    assert Step(Fresh(), Event(READABLE)) == marked;
    ReachesOn(Fresh(), Fresh(), Event(READABLE), marked);
    assert Step(marked, WakeAll) == woken;
    ReachesOn(Fresh(), marked, WakeAll, woken);
    assert Step(woken, Poll(0)) == polled;
    ReachesOn(Fresh(), woken, Poll(0), polled);
    assert Step(polled, Check(0)) == Ticked(0);
    ReachesOn(Fresh(), polled, Check(0), Ticked(0));
  }

  lemma TickedStep(n: nat)
    requires Reaches(Fresh(), Ticked(n))
    ensures Reaches(Fresh(), Ticked(n + 1))
  {
    var t, t' := Ticked(n), Ticked(n + 1);
    NextTick(n);
    var marked := t'.(driver := Marked(READABLE));
    hide Reaches;
    assert Union(READABLE, READABLE) == READABLE;
    assert Step(t, Event(READABLE)) == marked;
    ReachesOn(Fresh(), t, Event(READABLE), marked);
    assert Step(marked, WakeAll) == t';
    ReachesOn(Fresh(), marked, WakeAll, t');
  }

  lemma NextTick(n: nat)
    ensures ((1 + n) % TICKS + 1) % TICKS == (2 + n) % TICKS
  {
  }

  lemma {:induction false} TickedIsReached(n: nat)
    ensures Reaches(Fresh(), Ticked(n))
  {
    if n == 0 { TickedStarts(); } else { TickedIsReached(n - 1); TickedStep(n - 1); }
  }

  /**
    From a fresh registration: a reader sees the first event, a tick round of events follows,
    and its late clear takes the bit down on events it has never seen.
   */
  lemma ClearCanForget()
    ensures Reaches(Fresh(), Ticked(TICKS)) && CanStep(Ticked(TICKS), ClearReadiness(0)) && ForgetsNewer(Ticked(TICKS), 0)
  {
    TickedIsReached(TICKS);
  }
}
