/** The sleep future: rounding its deadline up, and the driver rounding the clock down. */
module Sleep {
  import opened WordArithmetic
  import opened WheelModel
  import opened WheelBag
  import opened TimeDriver

  datatype FutureState = New | Polled | Finished
  /** `Fatal` is an unrecoverable error: a failed registration, or a poll after completion. */
  datatype PollResult = Ready | Pending | Fatal

  /** The deadline handed to the timer driver: rounded up to the next millisecond. */
  function RoundedDeadline(expireAt: nat): nat {
    expireAt + 999_999
  }

  /** The clock, not before the driver's start and rounded down, has reached the millisecond of a rounded-up deadline. */
  predicate ReachedBy(start: nat, expireAt: nat, now: nat) {
    start <= now && InstantIntoU64(start, RoundedDeadline(expireAt)) <= InstantIntoU64(start, now)
  }

  class SleepFuture {
    const expireAt: nat
    var state: FutureState

    constructor (duration: nat, now: nat)
      ensures expireAt == now + duration && state == New
    {
      expireAt := now + duration;
      state := New;
    }

    /** Polls with the clock at `now`; the driver has only processed times the clock has shown. */
    method Poll(driver: Inner, waker: nat, now: nat) returns (r: PollResult)
      requires driver.Valid() && driver.startTime <= expireAt
      requires driver.lastCheckTime <= InstantIntoU64(driver.startTime, now)
      modifies this, driver, driver.levels
      ensures driver.Valid() && driver.lastCheckTime == old(driver.lastCheckTime)
      ensures r == Ready ==> now >= expireAt
      ensures r == Pending && old(state) == Polled ==> now < expireAt
      ensures r == Fatal <==> old(state) == Finished || (old(state) == New && old(!CanRegister(driver)))
      ensures state == (match r case Ready => Finished case Pending => Polled case Fatal => old(state))
      ensures driver.Pending() == old(driver.Pending())
                + if old(state) == New && r == Pending
                  then multiset{Entry(waker, InstantIntoU64(driver.startTime, RoundedDeadline(expireAt)))} else multiset{}
    {
      hide InstantIntoU64, Inner.Valid, Inner.Pending;
      match state {
        case New =>
          ghost var last := driver.lastCheckTime;
          var res := driver.RegisterTimeout(RoundedDeadline(expireAt), waker);
          if res == AlreadyDone {
            AlreadyDoneMeansPast(driver.startTime, expireAt, last, now);
            r := Ready;
          } else {
            r := if res == Registered then Pending else Fatal;
          }
        case Polled =>
          r := if now >= expireAt then Ready else Pending;
        case Finished =>
          r := Fatal;
      }
      state := match r case Ready => Finished case Pending => Polled case Fatal => state;
    }

    /** The deadline was already processed, or it is in range and window and a timer is free. */
    ghost predicate CanRegister(driver: Inner)
      reads driver
    {
      var msec := InstantIntoU64(driver.startTime, RoundedDeadline(expireAt));
      || msec < driver.lastCheckTime
      || (&& msec <= driver.lastCheckTime + MAX_TIMEOUT_TIME && driver.free > 0
          && msec / MAX_TIMEOUT_TIME == driver.lastCheckTime / MAX_TIMEOUT_TIME)
    }
  }

  /** A deadline whose rounded millisecond is already behind the clock is in the past. */
  lemma AlreadyDoneMeansPast(start: nat, expireAt: nat, last: nat, now: nat)
    requires start <= expireAt
    requires InstantIntoU64(start, RoundedDeadline(expireAt)) < last <= InstantIntoU64(start, now)
    ensures now >= expireAt
  {
  }

  /**
    Rounding the deadline up and the clock down never leaves a woken sleep pending: the
    wake finds it ready for every clock value exactly when the deadline's millisecond
    count fits in 64 bits.
   */
  lemma WakeFindsReadyIff(start: nat, expireAt: nat)
    requires start <= expireAt
    ensures (forall now: nat :: ReachedBy(start, expireAt, now) ==> now >= expireAt)
       <==> (RoundedDeadline(expireAt) - start) / NANOS_PER_MILLI < U64_RANGE
  {
    var fits := (RoundedDeadline(expireAt) - start) / NANOS_PER_MILLI < U64_RANGE;
    if fits {
      forall now: nat | ReachedBy(start, expireAt, now) ensures now >= expireAt {
        CeilingBelowFloor(start, expireAt, now);
      }
    } else {
      var now := start + (U64_RANGE - 1) * NANOS_PER_MILLI;
      assert ReachedBy(start, expireAt, now) && now < expireAt;
    }
  }

  lemma CeilingBelowFloor(start: nat, expireAt: nat, now: nat)
    requires start <= expireAt
    requires (RoundedDeadline(expireAt) - start) / NANOS_PER_MILLI < U64_RANGE
    requires ReachedBy(start, expireAt, now)
    ensures now >= expireAt
  {
  }

  /** The millisecond handed to the driver is the first that is not before the deadline. */
  lemma RoundedIsCeiling(start: nat, expireAt: nat)
    requires start <= expireAt && (RoundedDeadline(expireAt) - start) / NANOS_PER_MILLI < U64_RANGE
    ensures var msec := InstantIntoU64(start, RoundedDeadline(expireAt));
            start + msec * NANOS_PER_MILLI >= expireAt > start + (msec - 1) * NANOS_PER_MILLI
  {
  }

  /** Conversely the wheel fires the entry no later than one millisecond after the deadline. */
  lemma FiresWithinAMillisecond(start: nat, expireAt: nat, now: nat)
    requires start <= expireAt
    requires now >= expireAt + NANOS_PER_MILLI
    ensures ReachedBy(start, expireAt, now)
  {
  }

  /**
    A sleep from its first poll to its wake: it registers, the driver processes at `woken`, and
    it is polled again at `polled`. The wheel fires its entry exactly once the clock has reached
    the rounded deadline, at the latest a millisecond after the deadline, and the poll that
    follows a firing finds the sleep ready.
   */
  method SleepUntilWoken(sleep: SleepFuture, driver: Inner, waker: nat, now: nat, woken: nat, polled: nat)
    returns (first: PollResult, fired: seq<Entry>, second: PollResult)
    requires driver.Valid() && driver.startTime <= sleep.expireAt && sleep.state == New
    requires driver.lastCheckTime <= InstantIntoU64(driver.startTime, now) && driver.startTime <= now <= woken <= polled
    modifies sleep, driver, driver.levels
    ensures driver.Valid()
    ensures first == Pending ==>
              var e := Entry(waker, InstantIntoU64(driver.startTime, RoundedDeadline(sleep.expireAt)));
              && (e in fired <==> ReachedBy(driver.startTime, sleep.expireAt, woken))
              && (woken >= sleep.expireAt + NANOS_PER_MILLI ==> e in fired)
              && (second == Ready <==> polled >= sleep.expireAt) && (second == Pending <==> polled < sleep.expireAt)
              && (e in fired && (RoundedDeadline(sleep.expireAt) - driver.startTime) / NANOS_PER_MILLI < U64_RANGE ==>
                    second == Ready)
  {
    ghost var start, e := driver.startTime, Entry(waker, InstantIntoU64(driver.startTime, RoundedDeadline(sleep.expireAt)));
    first := sleep.Poll(driver, waker, now);
    fired, second := [], first;
    if first != Pending { return; }
    ghost var pending := driver.Pending();
    assert e in pending;
    ClockMonotone(start, now, woken);
    ClockMonotone(start, woken, polled);
    hide InstantIntoU64, Splits, Inner.Valid, Inner.Pending, RoundedDeadline;
    fired := driver.ProcessTimeouts(woken);
    DueIsFired(pending, fired, driver.Pending(), driver.lastCheckTime, e);
    second := sleep.Poll(driver, waker, polled);
    if woken >= sleep.expireAt + NANOS_PER_MILLI { FiresWithinAMillisecond(start, sleep.expireAt, woken); }
    if ReachedBy(start, sleep.expireAt, woken)
      && (RoundedDeadline(sleep.expireAt) - start) / NANOS_PER_MILLI < U64_RANGE {
      CeilingBelowFloor(start, sleep.expireAt, woken);
    }
  }

  lemma ClockMonotone(start: nat, a: nat, b: nat)
    requires a <= b
    ensures InstantIntoU64(start, a) <= InstantIntoU64(start, b)
  {
    if start <= a { DivMono(a - start, b - start, NANOS_PER_MILLI); }
  }

  /** Of what was pending, exactly what is due has fired. */
  lemma DueIsFired(pending: multiset<Entry>, fired: seq<Entry>, after: multiset<Entry>, now: nat, e: Entry)
    requires Splits(pending, multiset(fired), after, now) && e in pending
    ensures e in fired <==> e.expireAt <= now
  {
    assert e in multiset(fired) || e in after;
  }
}
