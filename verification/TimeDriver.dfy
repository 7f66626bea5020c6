/** The timer driver: five wheels, a pool of entries and the time of the last check. */
module TimeDriver {
  import opened Common
  import opened WordArithmetic
  import opened WheelModel
  import opened WheelBag
  import opened WheelSteps

  const NANOS_PER_MILLI: nat := 1_000_000

  /** What registering a timeout can end in; `Panicked` is an index past the last wheel. */
  datatype RegisterResult = Registered | AlreadyDone | WrongArgs | NoSpaceLeft | Panicked

  /** Whole milliseconds from `start` to `point`, saturating at both ends. */
  function InstantIntoU64(start: nat, point: nat): u64 {
    if point < start then 0
    else if (point - start) / NANOS_PER_MILLI < U64_RANGE then (point - start) / NANOS_PER_MILLI
    else U64_RANGE - 1
  }

  class TimeWheel {
    const level: nat
    var occupied: seq<bool>
    var slots: seq<seq<Entry>>

    constructor (level: nat)
      ensures Value() == EmptyWheel(level)
    {
      this.level := level;
      occupied := seq(SLOTS_CNT, _ => false);
      slots := seq(SLOTS_CNT, _ => []);
    }

    function Value(): Wheel
      reads this
    {
      Wheel(level, occupied, slots)
    }

    /** Takes all entries of a slot, clearing its bit. */
    method AcquireSlot(info: ExpireInfo) returns (entries: seq<Entry>)
      requires info.level == level
      requires |occupied| == |slots| == SLOTS_CNT && info.slot < SLOTS_CNT
      modifies this
      ensures entries == old(slots[info.slot])
      ensures Value() == WithoutSlot(old(Value()), info.slot)
    {
      occupied := occupied[info.slot := false];
      entries := slots[info.slot];
      slots := slots[info.slot := []];
    }

    /** Pushes an entry on the slot list of its deadline, setting the slot's bit. */
    method RegisterWakeupOnTimeout(e: Entry)
      requires |occupied| == |slots| == SLOTS_CNT
      modifies this
      ensures Value() == WithEntry(old(Value()), e)
    {
      var slot := e.expireAt / SlotRange(level) % SLOTS_CNT;
      occupied := occupied[slot := true];
      slots := slots[slot := [e] + slots[slot]];
    }

    /** Lowest deadline in a slot, if the slot has entries. */
    method NextExpirationInSlot(slot: nat) returns (lowest: Option<u64>)
      ensures lowest.None? <==> slot >= |slots| || slots[slot] == []
      ensures lowest.Some? ==>
                && (exists e :: e in slots[slot] && e.expireAt == lowest.value)
                && (forall e :: e in slots[slot] ==> lowest.value <= e.expireAt)
    {
      if slot >= |slots| || slots[slot] == [] {
        return None;
      }
      var list := slots[slot];
      var best: u64 := U64_RANGE - 1;
      var i := 0;
      while i < |list|
        invariant i <= |list|
        invariant forall j :: 0 <= j < i ==> best <= list[j].expireAt
        invariant i == 0 ==> best == U64_RANGE - 1
        invariant i > 0 ==> exists j :: 0 <= j < i && list[j].expireAt == best
      {
        if list[i].expireAt <= best {
          best := list[i].expireAt;
        }
        i := i + 1;
      }
      lowest := Some(best);
    }
  }

  class Inner {
    const levels: seq<TimeWheel>
    const startTime: nat
    const capacity: nat
    var free: nat
    var lastCheckTime: u64
    ghost var leaked: nat

    /** A driver for `capacity` timers, counting milliseconds from `startTime`. */
    constructor (capacity: nat, startTime: nat)
      ensures Valid() && fresh(levels)
      ensures Pending() == multiset{} && lastCheckTime == 0 && leaked == 0
      ensures this.capacity == capacity && this.startTime == startTime
    {
      var wheels := CreateLevels();
      this.levels := wheels;
      this.capacity, this.startTime := capacity, startTime;
      free, lastCheckTime, leaked := capacity, 0, 0;
      new;
      hide LevelsOk, LevelsBag, EmptyWheel;
      EmptyOk(Values());
    }

    static method CreateLevels() returns (wheels: seq<TimeWheel>)
      ensures |wheels| == MAX_LEVELS && fresh(wheels)
      ensures forall i, j :: 0 <= i < j < |wheels| ==> wheels[i] != wheels[j]
      ensures forall i :: 0 <= i < |wheels| ==> wheels[i].Value() == EmptyWheel(i)
    {
      hide EmptyWheel;
      wheels := [];
      while |wheels| < MAX_LEVELS
        invariant |wheels| <= MAX_LEVELS && fresh(wheels)
        invariant forall i, j :: 0 <= i < j < |wheels| ==> wheels[i] != wheels[j]
        invariant forall i :: 0 <= i < |wheels| ==> wheels[i].Value() == EmptyWheel(i)
      {
        var w := new TimeWheel(|wheels|);
        wheels := wheels + [w];
      }
    }

    function Values(): (r: seq<Wheel>)
      reads levels
      ensures |r| == |levels|
    {
      seq(|levels|, i requires 0 <= i < |levels| reads levels => levels[i].Value())
    }

    /** All entries the wheels hold. */
    ghost function Pending(): multiset<Entry>
      reads levels
    {
      LevelsBag(Values())
    }

    ghost predicate Distinct()
    {
      && |levels| == MAX_LEVELS
      && (forall i, j :: 0 <= i < j < |levels| ==> levels[i] != levels[j])
    }

    ghost predicate Valid()
      reads this, levels
    {
      && Distinct()
      && LevelsOk(Values(), lastCheckTime)
      && free + |Pending()| + leaked == capacity
    }

    /** Registers a timeout at an instant given in nanoseconds. */
    method RegisterTimeout(expireAt: nat, waker: nat) returns (res: RegisterResult)
      requires Valid()
      requires expireAt >= startTime
      modifies this, levels
      ensures Valid() && lastCheckTime == old(lastCheckTime)
      ensures var msec := InstantIntoU64(startTime, expireAt);
              && (res == AlreadyDone <==> msec < lastCheckTime)
              && (res == WrongArgs <==> msec > lastCheckTime + MAX_TIMEOUT_TIME)
              && (res == NoSpaceLeft <==> lastCheckTime <= msec <= lastCheckTime + MAX_TIMEOUT_TIME && old(free) == 0)
              && (res == Panicked <==>
                    && lastCheckTime <= msec <= lastCheckTime + MAX_TIMEOUT_TIME && old(free) > 0
                    && lastCheckTime / MAX_TIMEOUT_TIME != msec / MAX_TIMEOUT_TIME)
              && Pending() == old(Pending()) + if res == Registered then multiset{Entry(waker, msec)} else multiset{}
      ensures free == old(free) - if res in {Registered, Panicked} then 1 else 0
    {
      var msec := InstantIntoU64(startTime, expireAt);
      if msec < lastCheckTime {
        return AlreadyDone;
      }
      if msec - lastCheckTime > MAX_TIMEOUT_TIME {
        return WrongArgs;
      }
      res := RegisterTimeoutInternal(Entry(waker, msec));
    }

    method RegisterTimeoutInternal(e: Entry) returns (res: RegisterResult)
      requires Valid() && lastCheckTime <= e.expireAt
      modifies this, levels
      ensures Valid() && lastCheckTime == old(lastCheckTime)
      ensures res == NoSpaceLeft <==> old(free) == 0
      ensures res == Panicked <==> old(free) > 0 && lastCheckTime / MAX_TIMEOUT_TIME != e.expireAt / MAX_TIMEOUT_TIME
      ensures res in {Registered, NoSpaceLeft, Panicked}
      ensures Pending() == old(Pending()) + if res == Registered then multiset{e} else multiset{}
      ensures free == old(free) - if res in {Registered, Panicked} then 1 else 0
    {
      if free == 0 {
        return NoSpaceLeft;
      }
      free := free - 1;
      var level := ComputeLevel(lastCheckTime, e.expireAt);
      LevelInRangeIff(lastCheckTime, e.expireAt);
      if level >= |levels| {
        leaked := leaked + 1;
        return Panicked;
      }
      PlaceEntry(lastCheckTime, e);
      res := Registered;
    }

    /** Puts an entry on the wheel of its level relative to `anchor`. */
    method PlaceEntry(anchor: u64, e: Entry)
      requires Distinct() && LevelsOk(Values(), anchor)
      requires anchor <= e.expireAt && ComputeLevel(anchor, e.expireAt) < MAX_LEVELS
      modifies levels
      ensures LevelsOk(Values(), anchor)
      ensures Pending() == old(Pending()) + multiset{e}
      ensures Weight(Values()) == old(Weight(Values())) + ComputeLevel(anchor, e.expireAt) + 1
    {
      ghost var before := Values();
      var level := ComputeLevel(anchor, e.expireAt);
      assert WheelOk(before[level], anchor);
      levels[level].RegisterWakeupOnTimeout(e);
      ghost var w := before[level];
      assert Values() == before[level := WithEntry(w, e)];
      RegisterKeepsOrder(before, anchor, e);
      PushFront(before, level, e);
    }

    /** The instant of the earliest pending deadline and the milliseconds from the last check to it. */
    method NextProcessTime() returns (next: Option<(nat, nat)>)
      requires Valid()
      ensures next.None? <==> Pending() == multiset{}
      ensures next.Some? ==>
                && var earliest := lastCheckTime + next.value.1;
                && IsEarliest(earliest, Pending())
                && next.value.0 == startTime + earliest * NANOS_PER_MILLI
    {
      hide LevelsOk, LevelsBag, IsNext, FindNextExpiring, IsEarliest;
      FindNextExpiringIsNext(Values(), 0, lastCheckTime);
      match FindNextExpiring(Values(), 0, lastCheckTime) {
        case None => next := None;
        case Some(info) =>
          NextFits(Values(), lastCheckTime, info);
          var lowest := levels[info.level].NextExpirationInSlot(info.slot);
          var deadline: nat := if lowest.Some? then lowest.value else info.deadline;
          EarliestOfAll(Values(), lastCheckTime, info, lowest);
          next := Some((startTime + deadline * NANOS_PER_MILLI, deadline - lastCheckTime));
      }
    }

    /** Fires and cascades everything due up to `now`, earliest slot first. */
    method ProcessInternal(now: u64) returns (fired: seq<Entry>)
      requires Valid()
      requires now >= lastCheckTime
      modifies this, levels
      ensures Valid() && lastCheckTime == now && leaked == old(leaked)
      ensures Splits(old(Pending()), multiset(fired), Pending(), now)
      ensures Sorted(fired)
      ensures forall e :: e in fired ==> old(lastCheckTime) <= e.expireAt
    {
      hide Valid, Pending, Weight, Values, FiredSoFar, Splits, Sorted;
      ghost var all, from := Pending(), lastCheckTime;
      fired := [];
      NoneFired(all, from);
      var done := false;
      while !done
        invariant Valid() && from <= lastCheckTime <= now && leaked == old(leaked)
        invariant FiredSoFar(all, fired, Pending(), from, lastCheckTime)
        invariant done ==> lastCheckTime == now && forall e :: e in Pending() ==> now < e.expireAt
        decreases if done then 0 else 1, Weight(Values())
      {
        ghost var held, last := Pending(), lastCheckTime;
        var woken;
        woken, done := ProcessNext(now);
        JoinFired(all, held, fired, woken, Pending(), from, last, lastCheckTime);
        fired := fired + woken;
      }
      AllFired(all, fired, Pending(), from, now);
    }

    /** Processes everything due at an instant given in nanoseconds. */
    method ProcessTimeouts(now: nat) returns (fired: seq<Entry>)
      requires Valid()
      requires InstantIntoU64(startTime, now) >= lastCheckTime
      modifies this, levels
      ensures Valid() && lastCheckTime == InstantIntoU64(startTime, now) && leaked == old(leaked)
      ensures Splits(old(Pending()), multiset(fired), Pending(), lastCheckTime)
      ensures Sorted(fired)
      ensures forall e :: e in fired ==> old(lastCheckTime) <= e.expireAt
    {
      hide Splits, Sorted, LevelsBag, LevelsOk;
      fired := ProcessInternal(InstantIntoU64(startTime, now));
    }

    /** One turn of the loop: the next slot if it is due by `now`, otherwise the jump to `now`. */
    method ProcessNext(now: u64) returns (woken: seq<Entry>, done: bool)
      requires Valid() && now >= lastCheckTime
      modifies this, levels
      ensures Valid() && old(lastCheckTime) <= lastCheckTime <= now && leaked == old(leaked)
      ensures old(Pending()) == multiset(woken) + Pending()
      ensures forall e :: e in woken ==> e.expireAt == lastCheckTime
      ensures done ==> lastCheckTime == now && forall e :: e in Pending() ==> now < e.expireAt
      ensures !done ==> Weight(Values()) < old(Weight(Values()))
    {
      hide LevelsOk, LevelsBag, Weight, FindNextExpiring, IsNext, Values, Distinct;
      FindNextExpiringIsNext(Values(), 0, lastCheckTime);
      var next := FindNextExpiring(Values(), 0, lastCheckTime);
      if next.Some? && next.value.deadline <= now {
        NextFits(Values(), lastCheckTime, next.value);
        woken := ProcessExpired(next.value);
        lastCheckTime := next.value.deadline;
        done := false;
      } else {
        AdvanceKeepsOrder(Values(), lastCheckTime, now);
        lastCheckTime := now;
        woken, done := [], true;
      }
    }

    /** Empties one slot: due entries are woken, the others go down to a lower level. */
    method ProcessExpired(info: ExpireInfo) returns (fired: seq<Entry>)
      requires Valid() && IsNext(Values(), lastCheckTime, info) && info.deadline < U64_RANGE
      requires info.level < MAX_LEVELS && info.slot < SLOTS_CNT
      modifies this`free, levels
      ensures Distinct() && LevelsOk(Values(), info.deadline)
      ensures free + |Pending()| + leaked == capacity
      ensures old(Pending()) == multiset(fired) + Pending()
      ensures forall e :: e in fired ==> e.expireAt == info.deadline
      ensures Weight(Values()) < old(Weight(Values()))
    {
      hide LevelsBag, Weight, LevelsOk, SlotStart, Accounted, Times, Values, IsNext, Distinct;
      ghost var all, weight := Pending(), Weight(Values());
      var entries := TakeNextSlot(info);
      fired := [];
      NothingMoved(all, Pending(), entries, info.deadline);
      var i := 0;
      while i < |entries|
        invariant 0 <= i <= |entries|
        invariant LevelsOk(Values(), info.deadline)
        invariant Accounted(all, fired, Pending(), entries[i..], info.deadline)
        invariant free == old(free) + |fired|
        invariant Weight(Values()) + Times(|entries| - i, info.level + 1) + i <= weight
      {
        SpendOne(|entries| - i, info.level + 1);
        ghost var held := Pending();
        var due := FireOrCascade(entries[i], info);
        MoveOne(all, fired, held, Pending(), entries, i, due, info.deadline);
        if due {
          fired := fired + [entries[i]];
        }
        i := i + 1;
      }
      SpendOne(0, info.level + 1);
      AllMoved(all, fired, Pending(), entries[i..], info.deadline);
    }

    /** Takes the earliest slot; the wheels are then in order for that slot's deadline. */
    method TakeNextSlot(info: ExpireInfo) returns (entries: seq<Entry>)
      requires Valid() && IsNext(Values(), lastCheckTime, info) && info.deadline < U64_RANGE
      requires info.level < MAX_LEVELS && info.slot < SLOTS_CNT
      modifies levels
      ensures LevelsOk(Values(), info.deadline)
      ensures old(Pending()) == Pending() + multiset(entries) && entries != []
      ensures old(Weight(Values())) == Weight(Values()) + Times(|entries|, info.level + 1)
      ensures forall e :: e in entries ==> SlotStart(e.expireAt, info.level) == info.deadline
    {
      hide LevelsBag, Weight, LevelsOk, WheelOk, SlotStart, Times, IsNext, WithoutSlot;
      ghost var before := Values();
      NextSlotTaken(before, lastCheckTime, info);
      entries := levels[info.level].AcquireSlot(info);
      assert Values() == before[info.level := WithoutSlot(before[info.level], info.slot)];
    }

    /** One entry of a slot that starts at `info.deadline`: wake it and free it, or place it anew. */
    method FireOrCascade(e: Entry, info: ExpireInfo) returns (due: bool)
      requires Distinct() && info.deadline < U64_RANGE && LevelsOk(Values(), info.deadline)
      requires info.level < MAX_LEVELS && SlotStart(e.expireAt, info.level) == info.deadline
      modifies this`free, levels
      ensures LevelsOk(Values(), info.deadline)
      ensures due <==> e.expireAt == info.deadline
      ensures Pending() == old(Pending()) + if due then multiset{} else multiset{e}
      ensures free == old(free) + if due then 1 else 0
      ensures Weight(Values()) <= old(Weight(Values())) + if due then 0 else info.level
    {
      hide LevelsBag, Weight, LevelsOk, SlotStart, HighestDigit;
      SlotStartBefore(e.expireAt, info.level);
      due := e.expireAt <= info.deadline;
      if due {
        free := free + 1;
      } else {
        CascadesLower(e, info.deadline, info.level);
        ComputeLevelIsHighestDigit(info.deadline, e.expireAt);
        PlaceEntry(info.deadline, e);
      }
    }
  }

  /** `t` is the lowest deadline in a bag. */
  ghost predicate IsEarliest(t: nat, bag: multiset<Entry>) {
    && (exists e :: e in bag && e.expireAt == t)
    && (forall e :: e in bag ==> t <= e.expireAt)
  }

  /** The precise lookup never comes back empty, and what it finds is the minimum over all wheels. */
  lemma EarliestOfAll(levels: seq<Wheel>, last: u64, info: ExpireInfo, lowest: Option<u64>)
    requires LevelsOk(levels, last) && IsNext(levels, last, info)
    requires lowest.None? <==> info.slot >= |levels[info.level].slots| || levels[info.level].slots[info.slot] == []
    requires lowest.Some? ==>
               && (exists e :: e in levels[info.level].slots[info.slot] && e.expireAt == lowest.value)
               && (forall e :: e in levels[info.level].slots[info.slot] ==> lowest.value <= e.expireAt)
    ensures lowest.Some? && last <= lowest.value
    ensures IsEarliest(lowest.value, LevelsBag(levels)) && LevelsBag(levels) != multiset{}
  {
    var e :| e in levels[info.level].slots[info.slot] && e.expireAt == lowest.value;
    EntryInBag(levels, info.level, info.slot, e);
    NextSlotHoldsMinimum(levels, last, info, lowest.value, e);
    forall f | f in LevelsBag(levels) ensures lowest.value <= f.expireAt {
      NextSlotHoldsMinimum(levels, last, info, lowest.value, f);
    }
  }

  lemma SlotStartBefore(t: nat, level: nat)
    ensures SlotStart(t, level) <= t
  {
  }

  lemma PushFront(levels: seq<Wheel>, i: nat, e: Entry)
    requires i < |levels| && |levels[i].occupied| == |levels[i].slots| == SLOTS_CNT
    ensures var levels' := levels[i := WithEntry(levels[i], e)];
            && LevelsBag(levels') == LevelsBag(levels) + multiset{e}
            && Weight(levels') == Weight(levels) + i + 1
  {
    var w := levels[i];
    var k := SlotOf(w, e);
    var v := [e] + w.slots[k];
    SlotUpdate(levels, i, k, w.occupied[k := true], v);
    SlotWeightUpdate(levels, i, k, w.occupied[k := true], v);
    assert multiset(v) == multiset{e} + multiset(w.slots[k]);
    var bag' := LevelsBag(levels[i := WithEntry(w, e)]);
    assert bag' + multiset(w.slots[k]) == (LevelsBag(levels) + multiset{e}) + multiset(w.slots[k]);
    Cancel(bag', LevelsBag(levels) + multiset{e}, multiset(w.slots[k]));
    assert Times(|v|, i + 1) == Times(|w.slots[k]|, i + 1) + (i + 1);
  }

  lemma TakeSlot(levels: seq<Wheel>, i: nat, k: nat)
    requires i < |levels| && k < |levels[i].occupied| && k < |levels[i].slots|
    ensures var levels' := levels[i := WithoutSlot(levels[i], k)];
            && LevelsBag(levels) == LevelsBag(levels') + multiset(levels[i].slots[k])
            && Weight(levels) == Weight(levels') + Times(|levels[i].slots[k]|, i + 1)
  {
    SlotUpdate(levels, i, k, levels[i].occupied[k := false], []);
    SlotWeightUpdate(levels, i, k, levels[i].occupied[k := false], []);
  }

  /** What taking the next slot out does to the order, the bag and the weight. */
  lemma NextSlotTaken(levels: seq<Wheel>, last: u64, info: ExpireInfo)
    requires LevelsOk(levels, last) && IsNext(levels, last, info) && info.deadline < U64_RANGE
    ensures |levels[info.level].occupied| == |levels[info.level].slots| == SLOTS_CNT
    ensures levels[info.level].level == info.level
    ensures var levels' := levels[info.level := WithoutSlot(levels[info.level], info.slot)];
            var entries := levels[info.level].slots[info.slot];
            && LevelsOk(levels', info.deadline)
            && LevelsBag(levels) == LevelsBag(levels') + multiset(entries)
            && Weight(levels) == Weight(levels') + Times(|entries|, info.level + 1)
            && entries != []
            && (forall e :: e in entries ==> SlotStart(e.expireAt, info.level) == info.deadline)
  {
    assert WheelOk(levels[info.level], last);
    AcquireKeepsOrder(levels, last, info);
    TakeSlot(levels, info.level, info.slot);
  }

  /** Every entry of `all` has fired at its deadline, is on a wheel, or is still in the taken list. */
  ghost predicate Accounted(all: multiset<Entry>, fired: seq<Entry>, held: multiset<Entry>, rest: seq<Entry>, deadline: nat) {
    && all == multiset(fired) + held + multiset(rest)
    && (forall e :: e in fired ==> e.expireAt == deadline)
  }

  lemma SpendOne(n: nat, cost: nat)
    ensures n > 0 ==> Times(n, cost) == cost + Times(n - 1, cost)
    ensures Times(0, cost) == 0
  {
  }

  lemma NothingMoved(all: multiset<Entry>, held: multiset<Entry>, entries: seq<Entry>, deadline: nat)
    requires all == held + multiset(entries)
    ensures Accounted(all, [], held, entries[0..], deadline)
  {
    assert entries[0..] == entries;
  }

  lemma AllMoved(all: multiset<Entry>, fired: seq<Entry>, held: multiset<Entry>, rest: seq<Entry>, deadline: nat)
    requires Accounted(all, fired, held, rest, deadline) && rest == []
    ensures all == multiset(fired) + held && |all| == |fired| + |held|
    ensures forall e :: e in fired ==> e.expireAt == deadline
  {
    assert all + multiset{} == multiset(fired) + held;
    SameSize(all, multiset{}, multiset(fired), held);
  }

  /** The entry at `i` leaves the taken list, either fired or back on a wheel. */
  lemma MoveOne(all: multiset<Entry>, fired: seq<Entry>, held: multiset<Entry>, held': multiset<Entry>,
                entries: seq<Entry>, i: nat, due: bool, deadline: nat)
    requires i < |entries| && Accounted(all, fired, held, entries[i..], deadline)
    requires held' == held + if due then multiset{} else multiset{entries[i]}
    requires due ==> entries[i].expireAt == deadline
    ensures Accounted(all, if due then fired + [entries[i]] else fired, held', entries[i + 1..], deadline)
  {
    assert entries[i..] == [entries[i]] + entries[i + 1..];
  }

  /** What has fired between two times, earliest first, and what is still held. */
  ghost predicate FiredSoFar(all: multiset<Entry>, fired: seq<Entry>, held: multiset<Entry>, from: nat, upTo: nat) {
    && all == multiset(fired) + held
    && Sorted(fired)
    && (forall e :: e in fired ==> from <= e.expireAt <= upTo)
  }

  lemma NoneFired(all: multiset<Entry>, from: nat)
    ensures FiredSoFar(all, [], all, from, from)
  {
  }

  lemma JoinFired(all: multiset<Entry>, before: multiset<Entry>, fired: seq<Entry>, woken: seq<Entry>,
                  after: multiset<Entry>, from: nat, last: nat, deadline: nat)
    requires FiredSoFar(all, fired, before, from, last) && before == multiset(woken) + after
    requires from <= last <= deadline
    requires forall e :: e in woken ==> e.expireAt == deadline
    ensures FiredSoFar(all, fired + woken, after, from, deadline)
  {
    forall e | e in fired + woken ensures from <= e.expireAt <= deadline {
      assert e in fired || e in woken;
    }
  }

  lemma AllFired(all: multiset<Entry>, fired: seq<Entry>, held: multiset<Entry>, from: nat, now: nat)
    requires FiredSoFar(all, fired, held, from, now)
    requires forall e :: e in held ==> now < e.expireAt
    ensures Splits(all, multiset(fired), held, now) && Sorted(fired)
    ensures forall e :: e in fired ==> from <= e.expireAt
  {
    assert forall e :: e in multiset(fired) ==> e in fired;
  }

  lemma Cancel(a: multiset<Entry>, b: multiset<Entry>, c: multiset<Entry>)
    requires a + c == b + c
    ensures a == b
  {
    forall e ensures a[e] == b[e] {
      assert (a + c)[e] == (b + c)[e];
    }
  }
}
