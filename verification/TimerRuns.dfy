/** Whole runs of the timer driver against a plain list of deadlines. */
module TimerRuns {
  import opened WordArithmetic
  import opened WheelModel
  import opened WheelBag
  import opened TimeDriver

  /** A call to the driver; instants are in nanoseconds. */
  datatype Op = Register(at: nat, waker: nat) | Process(at: nat)

  datatype Outcome = Answered(result: RegisterResult) | Fired(entries: seq<Entry>)

  /** The reference: a list of pending deadlines, nothing else. */
  datatype Ledger = Ledger(start: nat, last: u64, free: nat, pending: seq<Entry>) {

    /** What the driver asserts of its callers. */
    predicate Admits(op: Op) {
      match op
      case Register(at, _) => at >= start
      case Process(at) => InstantIntoU64(start, at) >= last
    }

    function RegisterAnswer(msec: u64): RegisterResult {
      if msec < last then AlreadyDone
      else if msec > last + MAX_TIMEOUT_TIME then WrongArgs
      else if free == 0 then NoSpaceLeft
      else if last / MAX_TIMEOUT_TIME != msec / MAX_TIMEOUT_TIME then Panicked
      else Registered
    }

    function Step(op: Op): (Ledger, Outcome) {
      match op
      case Register(at, waker) =>
        var msec := InstantIntoU64(start, at);
        var answer := RegisterAnswer(msec);
        (Ledger(start, last,
                if answer in {Registered, Panicked} then free - 1 else free,
                if answer == Registered then pending + [Entry(waker, msec)] else pending),
         Answered(answer))
      case Process(at) =>
        var now := InstantIntoU64(start, at);
        (Ledger(start, now, free + |Due(pending, now)|, NotDue(pending, now)), Fired(Due(pending, now)))
    }
  }

  predicate Admissible(l: Ledger, ops: seq<Op>)
    decreases |ops|
  {
    ops != [] ==> l.Admits(ops[0]) && Admissible(l.Step(ops[0]).0, ops[1..])
  }

  /** Outcomes of a run on the list. */
  function ListRun(l: Ledger, ops: seq<Op>): seq<Outcome>
    decreases |ops|
  {
    if ops == [] then [] else [l.Step(ops[0]).1] + ListRun(l.Step(ops[0]).0, ops[1..])
  }

  /** The same answer, or the same entries fired, each as often. */
  predicate Agrees(o: Outcome, p: Outcome) {
    match o
    case Answered(r) => p == Answered(r)
    case Fired(es) => p.Fired? && multiset(es) == multiset(p.entries)
  }

  predicate AllAgree(log: seq<Outcome>, reference: seq<Outcome>) {
    |log| == |reference| && forall i :: 0 <= i < |log| ==> Agrees(log[i], reference[i])
  }

  function FiredIn(log: seq<Outcome>): seq<Entry> {
    if log == [] then []
    else FiredIn(log[..|log| - 1]) + (if log[|log| - 1].Fired? then log[|log| - 1].entries else [])
  }

  ghost predicate Represents(d: Inner, l: Ledger)
    reads d, d.levels
  {
    && d.Valid() && d.startTime == l.start && d.lastCheckTime == l.last && d.free == l.free
    && d.Pending() == multiset(l.pending)
  }

  /** One call on the driver does what it does on the list. */
  method Perform(d: Inner, ghost l: Ledger, op: Op) returns (o: Outcome)
    requires Represents(d, l) && l.Admits(op)
    modifies d, d.levels
    ensures Represents(d, l.Step(op).0) && Agrees(o, l.Step(op).1)
    ensures o.Fired? ==> Sorted(o.entries) && forall e :: e in o.entries ==> l.last <= e.expireAt <= d.lastCheckTime
    ensures l.last <= d.lastCheckTime
  {
    hide Splits, Sorted, LevelsBag, LevelsOk, Due, NotDue;
    match op {
      case Register(at, waker) =>
        var r := d.RegisterTimeout(at, waker);
        assert multiset(l.pending + [Entry(waker, InstantIntoU64(l.start, at))])
            == multiset(l.pending) + multiset{Entry(waker, InstantIntoU64(l.start, at))};
        o := Answered(r);
      case Process(at) =>
        var fired := d.ProcessTimeouts(at);
        SplitIsDue(l.pending, multiset(fired), d.Pending(), d.lastCheckTime);
        SplitSizes(l.pending, multiset(fired), d.Pending(), d.lastCheckTime);
        o := Fired(fired);
    }
  }

  lemma SplitSizes(pending: seq<Entry>, fired: multiset<Entry>, after: multiset<Entry>, now: nat)
    requires Splits(multiset(pending), fired, after, now)
    ensures |multiset(pending)| == |fired| + |after|
    ensures forall e :: e in fired ==> e.expireAt <= now
    ensures |fired| == |Due(pending, now)|
  {
    SplitIsDue(pending, fired, after, now);
    assert |fired + after| == |fired| + |after|;
  }

  /**
    Any run of calls on the driver has, call by call, the outcomes of the plain list of
    deadlines, and leaves the driver holding what the list holds. Everything fired over the
    whole run is in deadline order, and what was pending or accepted has fired exactly once
    or is still pending in the driver.
   */
  method Replay(d: Inner, ghost start: Ledger, ops: seq<Op>) returns (log: seq<Outcome>)
    requires Represents(d, start) && Admissible(start, ops)
    modifies d, d.levels
    ensures AllAgree(log, ListRun(start, ops)) && Represents(d, FinalLedger(start, ops))
    ensures Sorted(FiredIn(log))
    ensures multiset(start.pending) + AcceptedIn(start, ops) == multiset(FiredIn(log)) + d.Pending()
  {
    hide Represents, Agrees, FiredIn, Sorted, Admissible, ListRun, FinalLedger, AcceptedIn, Ledger.Step, Ledger.Admits;
    log := [];
    ghost var l, reference := start, [];
    NothingFired();
    assert ops[0..] == ops;
    var i := 0;
    while i < |ops|
      invariant 0 <= i <= |ops|
      invariant Represents(d, l) && Admissible(l, ops[i..])
      invariant ListRun(start, ops) == reference + ListRun(l, ops[i..])
      invariant FinalLedger(start, ops) == FinalLedger(l, ops[i..])
      invariant AllAgree(log, reference)
      invariant Sorted(FiredIn(log)) && forall e :: e in FiredIn(log) ==> e.expireAt <= l.last
    {
      UnfoldRun(l, ops, i);
      var o := Perform(d, l, ops[i]);
      RepresentsLast(d, l.Step(ops[i]).0);
      AppendFired(log, o, l.last, l.Step(ops[i]).0.last);
      log := log + [o];
      reference := reference + [l.Step(ops[i]).1];
      l := l.Step(ops[i]).0;
      i := i + 1;
    }
    RunEnds(l, ops[i..]);
    RunAccounts(d, start, ops, log);
  }

  lemma RunAccounts(d: Inner, start: Ledger, ops: seq<Op>, log: seq<Outcome>)
    requires AllAgree(log, ListRun(start, ops)) && Represents(d, FinalLedger(start, ops))
    ensures multiset(start.pending) + AcceptedIn(start, ops) == multiset(FiredIn(log)) + d.Pending()
  {
    hide AllAgree, ListRun, FinalLedger, AcceptedIn, FiredIn, FiredBy, Inner.Valid, Inner.Pending;
    EveryEntryAccountedFor(start, ops);
    LogIsFired(start, ops, log);
  }

  lemma {:induction false} FiredJoins(a: seq<Outcome>, b: seq<Outcome>)
    ensures FiredIn(a + b) == FiredIn(a) + FiredIn(b)
    decreases |b|
  {
    if b == [] {
      assert a + b == a;
    } else {
      var joined, last := a + b, |b| - 1;
      assert joined[..|joined| - 1] == a + b[..last];
      FiredJoins(a, b[..last]);
    }
  }

  /** What the driver's log fired is what the list fired. */
  lemma {:induction false} LogIsFired(l: Ledger, ops: seq<Op>, log: seq<Outcome>)
    requires AllAgree(log, ListRun(l, ops))
    ensures multiset(FiredIn(log)) == FiredBy(l, ops)
    decreases |ops|
  {
    if ops == [] {
      assert log == [];
    } else {
      var l', rest := l.Step(ops[0]).0, log[1..];
      var reference := ListRun(l, ops);
      assert reference[1..] == ListRun(l', ops[1..]);
      assert AllAgree(rest, ListRun(l', ops[1..])) by {
        forall k | 0 <= k < |rest| ensures Agrees(rest[k], reference[1..][k]) { assert Agrees(log[k + 1], reference[k + 1]); }
      }
      LogIsFired(l', ops[1..], rest);
      assert log == [log[0]] + rest;
      FiredJoins([log[0]], rest);
      FirstFires(l, ops[0], log[0]);
    }
  }

  lemma FirstFires(l: Ledger, op: Op, o: Outcome)
    requires Agrees(o, l.Step(op).1)
    ensures multiset(FiredIn([o])) == FiredAt(l, op)
  {
    assert [o][..0] == [];
    assert FiredIn([o]) == if o.Fired? then o.entries else [];
  }

  lemma UnfoldRun(l: Ledger, ops: seq<Op>, i: nat)
    requires i < |ops|
    ensures Admissible(l, ops[i..]) <==> l.Admits(ops[i]) && Admissible(l.Step(ops[i]).0, ops[i + 1..])
    ensures ListRun(l, ops[i..]) == [l.Step(ops[i]).1] + ListRun(l.Step(ops[i]).0, ops[i + 1..])
    ensures FinalLedger(l, ops[i..]) == FinalLedger(l.Step(ops[i]).0, ops[i + 1..])
  {
    assert ops[i..][0] == ops[i] && ops[i..][1..] == ops[i + 1..];
  }

  lemma RunEnds(l: Ledger, ops: seq<Op>)
    requires ops == []
    ensures ListRun(l, ops) == [] && FinalLedger(l, ops) == l
  {
  }

  lemma NothingFired()
    ensures FiredIn([]) == [] && Sorted([])
  {
  }

  lemma RepresentsLast(d: Inner, l: Ledger)
    requires Represents(d, l)
    ensures d.lastCheckTime == l.last
  {
  }

  lemma AppendFired(log: seq<Outcome>, o: Outcome, last: nat, last': nat)
    requires Sorted(FiredIn(log)) && forall e :: e in FiredIn(log) ==> e.expireAt <= last
    requires last <= last'
    requires o.Fired? ==> Sorted(o.entries) && forall e :: e in o.entries ==> last <= e.expireAt <= last'
    ensures Sorted(FiredIn(log + [o])) && forall e :: e in FiredIn(log + [o]) ==> e.expireAt <= last'
  {
    var joined := log + [o];
    assert joined[..|joined| - 1] == log;
    assert FiredIn(joined) == FiredIn(log) + if o.Fired? then o.entries else [];
  }

  // ---------------------------------------------------------------- conservation on the list

  function FinalLedger(l: Ledger, ops: seq<Op>): Ledger
    decreases |ops|
  {
    if ops == [] then l else FinalLedger(l.Step(ops[0]).0, ops[1..])
  }

  /** The entry a call adds, if it is a registration that is accepted. */
  function AcceptedAt(l: Ledger, op: Op): multiset<Entry> {
    if op.Register? && l.Step(op).1 == Answered(Registered)
    then multiset{Entry(op.waker, InstantIntoU64(l.start, op.at))} else multiset{}
  }

  function FiredAt(l: Ledger, op: Op): multiset<Entry> {
    var o := l.Step(op).1;
    if o.Fired? then multiset(o.entries) else multiset{}
  }

  function AcceptedIn(l: Ledger, ops: seq<Op>): multiset<Entry>
    decreases |ops|
  {
    if ops == [] then multiset{} else AcceptedAt(l, ops[0]) + AcceptedIn(l.Step(ops[0]).0, ops[1..])
  }

  function FiredBy(l: Ledger, ops: seq<Op>): multiset<Entry>
    decreases |ops|
  {
    if ops == [] then multiset{} else FiredAt(l, ops[0]) + FiredBy(l.Step(ops[0]).0, ops[1..])
  }

  lemma StepAccounts(l: Ledger, op: Op)
    ensures multiset(l.pending) + AcceptedAt(l, op) == FiredAt(l, op) + multiset(l.Step(op).0.pending)
  {
    if op.Process? { DuePartition(l.pending, InstantIntoU64(l.start, op.at)); }
  }

  /** Over any run, what was pending or accepted has fired exactly once or is still pending. */
  lemma {:induction false} EveryEntryAccountedFor(l: Ledger, ops: seq<Op>)
    ensures multiset(l.pending) + AcceptedIn(l, ops) == FiredBy(l, ops) + multiset(FinalLedger(l, ops).pending)
    decreases |ops|
  {
    if ops != [] {
      var l' := l.Step(ops[0]).0;
      StepAccounts(l, ops[0]);
      EveryEntryAccountedFor(l', ops[1..]);
      hide *;
      Chain(multiset(l.pending), AcceptedAt(l, ops[0]), FiredAt(l, ops[0]), multiset(l'.pending),
            AcceptedIn(l', ops[1..]), FiredBy(l', ops[1..]), multiset(FinalLedger(l', ops[1..]).pending));
      Unfold(l, ops);
    }
  }

  lemma Unfold(l: Ledger, ops: seq<Op>)
    requires ops != []
    ensures var l' := l.Step(ops[0]).0;
            && AcceptedIn(l, ops) == AcceptedAt(l, ops[0]) + AcceptedIn(l', ops[1..])
            && FiredBy(l, ops) == FiredAt(l, ops[0]) + FiredBy(l', ops[1..])
            && FinalLedger(l, ops) == FinalLedger(l', ops[1..])
  {
  }

  lemma Chain(p: multiset<Entry>, a: multiset<Entry>, f: multiset<Entry>, p': multiset<Entry>,
              a': multiset<Entry>, f': multiset<Entry>, p'': multiset<Entry>)
    requires p + a == f + p' && p' + a' == f' + p''
    ensures p + (a + a') == (f + f') + p''
  {
    assert p + (a + a') == (p + a) + a';
    assert f + (p' + a') == (f + p') + a';
  }

  lemma {:induction false} DuePartition(pending: seq<Entry>, now: nat)
    ensures multiset(pending) == multiset(Due(pending, now)) + multiset(NotDue(pending, now))
  {
    forall e ensures multiset(pending)[e] == multiset(Due(pending, now))[e] + multiset(NotDue(pending, now))[e] {
      DueCounts(pending, now, e);
    }
  }
}
