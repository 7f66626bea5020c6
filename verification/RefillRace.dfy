/**
  A run in which a refill does not fit beside a thief's claim: two workers with two slots each,
  and the thief ends up with the refilled value in place of the one it claimed.
 */
module RefillRace {
  import opened Common
  import opened WordArithmetic
  import opened StealQueue
  import opened WorkStealing
  import opened StealInvariant
  import opened StealSteps
  import opened StealRuns

  // ---------------------------------------------------------------- queues of two slots

  /** A queue of two slots whose cursors have not wrapped. */
  function Small(data: seq<Value>, pushed: nat, claimed: nat, released: nat, log: seq<Value>): Queue
    requires pushed < 9 && claimed < 9 && released < 9
  {
    Queue(1, pushed, released * U32_RANGE + claimed, data, pushed, claimed, released, log)
  }

  /** What the code computes on such a queue. */
  lemma SmallFacts(pushed: nat, claimed: nat, released: nat)
    requires pushed < 9 && claimed < 9 && released < 9 && claimed <= pushed && released <= pushed
    ensures Pow2(1) == 2
    ensures UnpackTail(released * U32_RANGE + claimed) == (released, claimed)
    ensures WrappingSub(pushed, claimed) == pushed - claimed && WrappingSub(pushed, released) == pushed - released
    ensures Wrap(pushed) == pushed && WrappingAdd(claimed, 1) == claimed + 1
  {
  }

  lemma SmallSlot(q: Queue, cursor: nat)
    requires q.order == 1 && cursor < 9
    ensures q.SlotOf(cursor) == cursor % 2
  {
    assert Wrap(cursor) == cursor;
    SlotOfWrapped(q, cursor);
    assert Pow2(1) == 2;
  }

  lemma SmallWrite(data: seq<Value>, p: nat, c: nat, r: nat, log: seq<Value>, cursor: nat, v: Value)
    requires p < 9 && c < 9 && r < 9 && |data| == 2 && cursor < 9
    ensures var q := Small(data, p, c, r, log);
            q.SlotOf(cursor) == cursor % 2 && WriteSlot(q, cursor, v) == Small(data[cursor % 2 := v], p, c, r, log)
  {
    SmallSlot(Small(data, p, c, r, log), cursor);
    hide Queue.SlotOf;
  }

  // ---------------------------------------------------------------- a push

  lemma PushStarts(s: State, i: nat, v: Value)
    requires InRange(s, i) && s.pcs[i].Idle?
    ensures Leads(s, Worker(i, StartPush(v)), Goto(s, i, Pushing(v, Load(s.queues[i]), false)))
  {
  }

  lemma PushWrites(s: State, i: nat, v: Value, data: seq<Value>, p: nat, c: nat, r: nat, log: seq<Value>)
    requires InRange(s, i) && p < 8 && r <= c <= p < r + 2 && |data| == 2
    requires s.queues[i] == Small(data, p, c, r, log) && s.pcs[i] == Pushing(v, Load(s.queues[i]), false)
    ensures Leads(s, Worker(i, Continue), Update(s, i, Small(data[p % 2 := v], p, c, r, log), i, PushWritten(v)))
  {
    var q := s.queues[i];
    assert PushFits(q, s.pcs[i].seen) by { SmallFacts(p, c, r); }
    hide PushFits, Queue.SlotOf, WriteSlot;
    SmallWrite(data, p, c, r, log, p, v);
    assert q.head == p && |q.data| == 2;
    hide Small;
  }

  lemma PushPublishes(s: State, i: nat, v: Value, data: seq<Value>, p: nat, c: nat, r: nat, log: seq<Value>)
    requires InRange(s, i) && p < 8 && r <= c <= p
    requires s.queues[i] == Small(data, p, c, r, log) && s.pcs[i] == PushWritten(v)
    ensures Leads(s, Worker(i, Continue), Update(s, i, Small(data, p + 1, c, r, log + [v]), i, Idle(Pushed))
                                          .(accepted := s.accepted + multiset{v}))
  {
  }

  /** A push that finds room, from start to end. */
  lemma PushRun(s: State, i: nat, v: Value, data: seq<Value>, p: nat, c: nat, r: nat, log: seq<Value>)
    requires InRange(s, i) && s.pcs[i].Idle? && p < 8 && r <= c <= p < r + 2 && |data| == 2
    requires s.queues[i] == Small(data, p, c, r, log)
    ensures Reaches(s, s.(queues := s.queues[i := Small(data[p % 2 := v], p + 1, c, r, log + [v])],
                          pcs := s.pcs[i := Idle(Pushed)], accepted := s.accepted + multiset{v}))
  {
    hide Reaches, Leads, Small, Load;
    var data' := data[p % 2 := v];
    var started := Goto(s, i, Pushing(v, Load(s.queues[i]), false));
    var written := Update(started, i, Small(data', p, c, r, log), i, PushWritten(v));
    var done := Update(written, i, Small(data', p + 1, c, r, log + [v]), i, Idle(Pushed))
                .(accepted := s.accepted + multiset{v});
    PushStarts(s, i, v);
    PushWrites(started, i, v, data, p, c, r, log);
    PushPublishes(written, i, v, data', p, c, r, log);
    ReachesItself(done);
    ReachesBefore(written, Worker(i, Continue), done, done);
    ReachesBefore(started, Worker(i, Continue), written, done);
    ReachesBefore(s, Worker(i, StartPush(v)), started, done);
    assert done == s.(queues := s.queues[i := Small(data', p + 1, c, r, log + [v])],
                      pcs := s.pcs[i := Idle(Pushed)], accepted := s.accepted + multiset{v});
  }

  // ---------------------------------------------------------------- a pop

  lemma PopStarts(s: State, i: nat)
    requires InRange(s, i) && s.pcs[i].Idle?
    ensures Leads(s, Worker(i, StartPop), Goto(s, i, Popping(Load(s.queues[i]))))
  {
  }

  lemma PopClaims(s: State, i: nat, data: seq<Value>, p: nat, c: nat, log: seq<Value>)
    requires InRange(s, i) && c < p < 8
    requires s.queues[i] == Small(data, p, c, c, log) && s.pcs[i] == Popping(Load(s.queues[i]))
    ensures Leads(s, Worker(i, Continue), Update(s, i, Small(data, p, c + 1, c + 1, log), i, PopClaimed(c)))
  {
    var q := s.queues[i];
    SmallFacts(p, c, c);
    assert OwnerClaim(q, 1) == Small(data, p, c + 1, c + 1, log);
    hide UnpackTail, OwnerClaim, Small;
  }

  lemma PopReads(s: State, i: nat, data: seq<Value>, p: nat, c: nat, r: nat, log: seq<Value>, cursor: nat)
    requires InRange(s, i) && p < 8 && c < 9 && r < 9 && cursor < 8 && |data| == 2
    requires s.queues[i] == Small(data, p, c, r, log) && s.pcs[i] == PopClaimed(cursor)
    ensures Leads(s, Worker(i, Continue), Goto(s, i, Idle(Popped(data[cursor % 2])))
                                          .(delivered := s.delivered + multiset{data[cursor % 2]}))
  {
    var q := s.queues[i];
    assert Wrap(cursor) == cursor;
    assert q.SlotOf(Wrap(cursor)) == cursor % 2 by { SmallSlot(q, cursor); }
    hide Queue.SlotOf, Wrap;
  }

  /** A pop from a queue no thief works on, from start to end. */
  lemma PopRun(s: State, i: nat, data: seq<Value>, p: nat, c: nat, log: seq<Value>)
    requires InRange(s, i) && s.pcs[i].Idle? && c < p < 8 && |data| == 2
    requires s.queues[i] == Small(data, p, c, c, log)
    ensures Reaches(s, s.(queues := s.queues[i := Small(data, p, c + 1, c + 1, log)],
                          pcs := s.pcs[i := Idle(Popped(data[c % 2]))],
                          delivered := s.delivered + multiset{data[c % 2]}))
  {
    hide Reaches, Leads, Small, Load;
    var started := Goto(s, i, Popping(Load(s.queues[i])));
    var claimed := Update(started, i, Small(data, p, c + 1, c + 1, log), i, PopClaimed(c));
    var done := Goto(claimed, i, Idle(Popped(data[c % 2]))).(delivered := s.delivered + multiset{data[c % 2]});
    PopStarts(s, i);
    PopClaims(started, i, data, p, c, log);
    PopReads(claimed, i, data, p, c + 1, c + 1, log, c);
    ReachesItself(done);
    ReachesBefore(claimed, Worker(i, Continue), done, done);
    ReachesBefore(started, Worker(i, Continue), claimed, done);
    ReachesBefore(s, Worker(i, StartPop), started, done);
    assert done == s.(queues := s.queues[i := Small(data, p, c + 1, c + 1, log)],
                      pcs := s.pcs[i := Idle(Popped(data[c % 2]))],
                      delivered := s.delivered + multiset{data[c % 2]});
  }

  // ---------------------------------------------------------------- worker 1 steals from worker 0

  predicate Pair(s: State) { |s.queues| == |s.pcs| == 2 }

  lemma StealStarts(s: State, data: seq<Value>)
    requires Pair(s) && s.pcs[1].Idle? && s.queues[1] == Small(data, 0, 0, 0, [])
    ensures Leads(s, Worker(1, StartSteal(0, 2)), Goto(s, 1, StealReady(0, 2, 2)))
  {
    SmallFacts(0, 0, 0);
    hide UnpackTail, WrappingSub;
  }

  lemma StealLooks(s: State)
    requires Pair(s) && s.pcs[1] == StealReady(0, 2, 2)
    ensures Leads(s, Worker(1, Continue), Goto(s, 1, StealSeen(0, 2, 2, Load(s.queues[0]))))
  {
  }

  lemma StealCounts(s: State, data: seq<Value>, log: seq<Value>)
    requires Pair(s) && s.queues[0] == Small(data, 2, 0, 0, log) && s.pcs[1] == StealSeen(0, 2, 2, Load(s.queues[0]))
    ensures Leads(s, Worker(1, Continue), Goto(s, 1, StealCounted(0, 2, 2, Load(s.queues[0]), 2, 1)))
  {
    SmallFacts(2, 0, 0);
    assert StealCount(2, 0, 2, 2) == 1;
    hide UnpackTail, WrappingSub, StealCount;
  }

  lemma StealClaims(s: State, data: seq<Value>, log: seq<Value>)
    requires Pair(s) && s.queues[0] == Small(data, 2, 0, 0, log)
    requires s.pcs[1] == StealCounted(0, 2, 2, Load(s.queues[0]), 2, 1)
    ensures Leads(s, Worker(1, Continue), Update(s, 0, Small(data, 2, 1, 0, log), 1, StealCopying(0, 0, 1, 0)))
  {
    SmallFacts(2, 0, 0);
    assert ThiefClaim(s.queues[0], 1) == Small(data, 2, 1, 0, log);
    hide ThiefClaim, Small;
  }

  /** The thief claims one of two values and has not copied it yet. */
  lemma StealBegins(s: State, data: seq<Value>, log: seq<Value>, own: seq<Value>)
    requires Pair(s) && s.pcs[1].Idle?
    requires s.queues[0] == Small(data, 2, 0, 0, log) && s.queues[1] == Small(own, 0, 0, 0, [])
    ensures Reaches(s, Update(s, 0, Small(data, 2, 1, 0, log), 1, StealCopying(0, 0, 1, 0)))
  {
    hide Reaches, Leads, Small, Load;
    var seen := Load(s.queues[0]);
    var ready := Goto(s, 1, StealReady(0, 2, 2));
    var looked := Goto(ready, 1, StealSeen(0, 2, 2, seen));
    var counted := Goto(looked, 1, StealCounted(0, 2, 2, seen, 2, 1));
    var claimed := Update(counted, 0, Small(data, 2, 1, 0, log), 1, StealCopying(0, 0, 1, 0));
    StealStarts(s, own);
    StealLooks(ready);
    StealCounts(looked, data, log);
    StealClaims(counted, data, log);
    ReachesItself(claimed);
    ReachesBefore(counted, Worker(1, Continue), claimed, claimed);
    ReachesBefore(looked, Worker(1, Continue), counted, claimed);
    ReachesBefore(ready, Worker(1, Continue), looked, claimed);
    ReachesBefore(s, Worker(1, StartSteal(0, 2)), ready, claimed);
    assert claimed == Update(s, 0, Small(data, 2, 1, 0, log), 1, StealCopying(0, 0, 1, 0));
  }

  lemma ThiefLeads(s: State, t: nat)
    requires InRange(s, t) && s.pcs[t].StealCopying?
    ensures Leads(s, Worker(t, Continue), StealStep(s, t))
  {
    hide StealStep, PushStep, OverflowStep, PopStep, FetchStep;
  }

  lemma StealCopies(s: State, data: seq<Value>, log: seq<Value>, own: seq<Value>)
    requires Pair(s) && |data| == |own| == 2 && s.pcs[1] == StealCopying(0, 0, 1, 0)
    requires s.queues[0] == Small(data, 3, 1, 0, log) && s.queues[1] == Small(own, 0, 0, 0, [])
    ensures Leads(s, Worker(1, Continue),
                  Update(s, 1, Small(own[0 := data[0]], 0, 0, 0, []), 1, StealCopying(0, 0, 1, 1)))
  {
    assert Wrap(0) == 0 && WrappingAdd(0, 0) == 0;
    hide Leads, StealStep, WriteSlot, Queue.SlotOf, Wrap, WrappingAdd;
    SmallWrite(data, 3, 1, 0, log, 0, 0);
    SmallWrite(own, 0, 0, 0, [], 0, data[0]);
    assert s.queues[0].data == data && s.queues[1].data == own && s.queues[1].head == 0;
    hide Small;
    ThiefLeads(s, 1);
    StealCopyShape(s, 1, data[0]);
  }

  lemma StealStopsCopying(s: State)
    requires Pair(s) && s.pcs[1] == StealCopying(0, 0, 1, 1)
    ensures Leads(s, Worker(1, Continue), Goto(s, 1, StealReleasing(0, 0, 1)))
  {
  }

  lemma StealLoadsTail(s: State)
    requires Pair(s) && s.pcs[1] == StealReleasing(0, 0, 1)
    ensures Leads(s, Worker(1, Continue), Goto(s, 1, StealReleaseSeen(0, 0, 1, Load(s.queues[0]))))
  {
  }

  lemma StealReleases(s: State, data: seq<Value>, log: seq<Value>)
    requires Pair(s) && s.queues[0] == Small(data, 3, 1, 0, log)
    requires s.pcs[1] == StealReleaseSeen(0, 0, 1, Load(s.queues[0]))
    ensures Leads(s, Worker(1, Continue), Update(s, 0, Small(data, 3, 1, 1, log), 1, StealPublishing(0, 0, 1)))
  {
    SmallFacts(3, 1, 0);
    assert Release(s.queues[0]) == Small(data, 3, 1, 1, log);
    hide Release, Small;
  }

  lemma StealPublishes(s: State, own: seq<Value>)
    requires Pair(s) && |own| == 2 && s.queues[1] == Small(own, 0, 0, 0, []) && s.pcs[1] == StealPublishing(0, 0, 1)
    ensures Leads(s, Worker(1, Continue), Update(s, 1, Small(own, 1, 0, 0, [own[0]]), 1, Idle(Stole(1))))
  {
    var q := s.queues[1];
    assert Spot(1, 0) == 0;
    var values := ReadSlots(q, 1);
    assert values == [own[0]];
    assert Publish(q, values) == Small(own, 1, 0, 0, [own[0]]);
    hide ReadSlots, Publish, Small;
  }

  /** The thief copies what it finds, releases its claim and publishes. */
  lemma StealEnds(s: State, data: seq<Value>, log: seq<Value>, own: seq<Value>)
    requires Pair(s) && |data| == |own| == 2 && s.pcs[1] == StealCopying(0, 0, 1, 0)
    requires s.queues[0] == Small(data, 3, 1, 0, log) && s.queues[1] == Small(own, 0, 0, 0, [])
    ensures Reaches(s, s.(queues := [Small(data, 3, 1, 1, log), Small(own[0 := data[0]], 1, 0, 0, [data[0]])],
                          pcs := s.pcs[1 := Idle(Stole(1))]))
  {
    hide Reaches, Leads, Small, Load;
    var own' := own[0 := data[0]];
    var copied := Update(s, 1, Small(own', 0, 0, 0, []), 1, StealCopying(0, 0, 1, 1));
    var stopped := Goto(copied, 1, StealReleasing(0, 0, 1));
    var loaded := Goto(stopped, 1, StealReleaseSeen(0, 0, 1, Load(s.queues[0])));
    var released := Update(loaded, 0, Small(data, 3, 1, 1, log), 1, StealPublishing(0, 0, 1));
    var done := Update(released, 1, Small(own', 1, 0, 0, [own'[0]]), 1, Idle(Stole(1)));
    StealCopies(s, data, log, own);
    StealStopsCopying(copied);
    StealLoadsTail(stopped);
    StealReleases(loaded, data, log);
    StealPublishes(released, own');
    ReachesItself(done);
    ReachesBefore(released, Worker(1, Continue), done, done);
    ReachesBefore(loaded, Worker(1, Continue), released, done);
    ReachesBefore(stopped, Worker(1, Continue), loaded, done);
    ReachesBefore(copied, Worker(1, Continue), stopped, done);
    ReachesBefore(s, Worker(1, Continue), copied, done);
    assert done.queues == [Small(data, 3, 1, 1, log), Small(own', 1, 0, 0, [data[0]])];
    assert done.pcs == s.pcs[1 := Idle(Stole(1))];
  }

  // ---------------------------------------------------------------- worker 0 refills

  lemma FetchStarts(s: State)
    requires Pair(s) && s.pcs[0].Idle?
    ensures Leads(s, Worker(0, StartFetch), Goto(s, 0, Fetching(Load(s.queues[0]))))
  {
  }

  /** One free slot is found after the claimed cursor. */
  lemma FetchSizes(s: State, data: seq<Value>, log: seq<Value>)
    requires Pair(s) && s.lock.None? && |s.global| == 1
    requires s.queues[0] == Small(data, 2, 1, 0, log) && s.pcs[0] == Fetching(Load(s.queues[0]))
    ensures Leads(s, Worker(0, Continue), Goto(s, 0, FetchSized(1)))
  {
    SmallFacts(2, 1, 0);
    hide UnpackTail, WrappingSub;
  }

  lemma FetchLocks(s: State)
    requires Pair(s) && s.lock.None? && s.pcs[0] == FetchSized(1)
    ensures Leads(s, Worker(0, Continue), Goto(s, 0, FetchCopying(1, [])).(lock := Some(0)))
  {
  }

  /** The slot the refill writes is the one the thief is about to copy. */
  lemma FetchOverwrites(s: State, data: seq<Value>, log: seq<Value>, v: Value)
    requires Pair(s) && s.global == [v] && |data| == 2 && s.pcs[0] == FetchCopying(1, [])
    requires s.queues[0] == Small(data, 2, 1, 0, log)
    ensures Leads(s, Worker(0, Continue),
                  Update(s, 0, Small(data[0 := v], 2, 1, 0, log), 0, FetchCopying(1, [v])).(global := []))
    ensures !RefillFits(s, 0, Continue)
  {
    var q := s.queues[0];
    assert q.Capacity() == 2;
    assert WrappingAdd(2, Wrap(0)) == 2;
    hide Queue.SlotOf, WrappingAdd, Wrap, WriteSlot;
    SmallWrite(data, 2, 1, 0, log, 2, v);
    assert s.global[1..] == [] && [] + [v] == [v];
    assert q.head == 2 && q.pushed == 2 && q.released == 0 && |q.data| == 2;
    hide Small, Pow2;
  }

  lemma FetchPublishes(s: State, data: seq<Value>, log: seq<Value>, v: Value)
    requires Pair(s) && s.pcs[0] == FetchCopying(1, [v]) && s.queues[0] == Small(data, 2, 1, 0, log)
    ensures Leads(s, Worker(0, Continue), Update(s, 0, Small(data, 3, 1, 0, log + [v]), 0, Idle(Fetched(1))).(lock := None))
  {
  }

  lemma RefillRun(s: State, data: seq<Value>, log: seq<Value>, v: Value)
    requires Pair(s) && s.pcs[0].Idle? && s.lock.None? && s.global == [v] && |data| == 2
    requires s.queues[0] == Small(data, 2, 1, 0, log)
    ensures Reaches(s, s.(queues := s.queues[0 := Small(data[0 := v], 3, 1, 0, log + [v])],
                          pcs := s.pcs[0 := Idle(Fetched(1))], global := []))
  {
    hide Reaches, Leads, Small, Load;
    var started := Goto(s, 0, Fetching(Load(s.queues[0])));
    var sized := Goto(started, 0, FetchSized(1));
    var locked := Goto(sized, 0, FetchCopying(1, [])).(lock := Some(0));
    var copied := Update(locked, 0, Small(data[0 := v], 2, 1, 0, log), 0, FetchCopying(1, [v])).(global := []);
    var done := Update(copied, 0, Small(data[0 := v], 3, 1, 0, log + [v]), 0, Idle(Fetched(1))).(lock := None);
    FetchStarts(s);
    FetchSizes(started, data, log);
    FetchLocks(sized);
    FetchOverwrites(locked, data, log, v);
    FetchPublishes(copied, data[0 := v], log, v);
    ReachesItself(done);
    ReachesBefore(copied, Worker(0, Continue), done, done);
    ReachesBefore(locked, Worker(0, Continue), copied, done);
    ReachesBefore(sized, Worker(0, Continue), locked, done);
    ReachesBefore(started, Worker(0, Continue), sized, done);
    ReachesBefore(s, Worker(0, StartFetch), started, done);
    assert done == s.(queues := s.queues[0 := Small(data[0 := v], 3, 1, 0, log + [v])],
                      pcs := s.pcs[0 := Idle(Fetched(1))], global := []);
  }

  // ---------------------------------------------------------------- the run

  function Stage(q0: Queue, last: Answer, q1: Queue, pc1: Pc, global: seq<Value>,
                 accepted: multiset<Value>, delivered: multiset<Value>): State {
    State([q0, q1], [Idle(last), pc1], global, 4, None, accepted, delivered, false)
  }

  const EMPTY := Small([0, 0], 0, 0, 0, [])

  const ACCEPTED := multiset{7} + multiset{8} + multiset{9}

  lemma UpToThePushes()
    ensures Initial(Stage(EMPTY, NoAnswer, EMPTY, Idle(NoAnswer), [], multiset{}, multiset{}))
    ensures Reaches(Stage(EMPTY, NoAnswer, EMPTY, Idle(NoAnswer), [], multiset{}, multiset{}),
                    Stage(Small([7, 8], 2, 0, 0, [7, 8]), Pushed, EMPTY, Idle(NoAnswer), [], multiset{7} + multiset{8}, multiset{}))
  {
    var start := Stage(EMPTY, NoAnswer, EMPTY, Idle(NoAnswer), [], multiset{}, multiset{});
    assert Pow2(1) == 2;
    var one := Stage(Small([7, 0], 1, 0, 0, [7]), Pushed, EMPTY, Idle(NoAnswer), [], multiset{7}, multiset{});
    var two := Stage(Small([7, 8], 2, 0, 0, [7, 8]), Pushed, EMPTY, Idle(NoAnswer), [], multiset{7} + multiset{8}, multiset{});
    assert Initial(start);
    hide Reaches, Initial;
    assert Reaches(start, one) by {
      PushRun(start, 0, 7, [0, 0], 0, 0, 0, []);
      assert [0, 0][0 := 7] == [7, 0] && [] + [7] == [7];
      assert start.queues[0 := Small([7, 0], 1, 0, 0, [7])] == one.queues;
    }
    assert Reaches(one, two) by {
      PushRun(one, 0, 8, [7, 0], 1, 0, 0, [7]);
      assert [7, 0][1 := 8] == [7, 8] && [7] + [8] == [7, 8];
      assert one.queues[0 := Small([7, 8], 2, 0, 0, [7, 8])] == two.queues;
    }
    ReachesJoin(start, one, two);
  }

  /** A third value enters the global queue and the thief claims one of the two. */
  lemma UpToTheClaim()
    ensures Reaches(Stage(Small([7, 8], 2, 0, 0, [7, 8]), Pushed, EMPTY, Idle(NoAnswer), [], multiset{7} + multiset{8}, multiset{}),
                    Stage(Small([7, 8], 2, 1, 0, [7, 8]), Pushed, EMPTY, StealCopying(0, 0, 1, 0), [9], ACCEPTED, multiset{}))
  {
    var two := Stage(Small([7, 8], 2, 0, 0, [7, 8]), Pushed, EMPTY, Idle(NoAnswer), [], multiset{7} + multiset{8}, multiset{});
    var three := Stage(Small([7, 8], 2, 0, 0, [7, 8]), Pushed, EMPTY, Idle(NoAnswer), [9], ACCEPTED, multiset{});
    var claimed := Stage(Small([7, 8], 2, 1, 0, [7, 8]), Pushed, EMPTY, StealCopying(0, 0, 1, 0), [9], ACCEPTED, multiset{});
    hide Reaches;
    assert Reaches(two, three) by {
      assert Leads(two, PushGlobal(9), three);
      ReachesItself(three);
      ReachesBefore(two, PushGlobal(9), three, three);
    }
    StealBegins(three, [7, 8], [7, 8], [0, 0]);
    assert Update(three, 0, Small([7, 8], 2, 1, 0, [7, 8]), 1, StealCopying(0, 0, 1, 0)) == claimed;
    ReachesJoin(two, three, claimed);
  }

  /** The owner refills over the claimed slot, and the thief copies and publishes what it finds there. */
  lemma UpToTheTheft()
    ensures Reaches(Stage(Small([7, 8], 2, 1, 0, [7, 8]), Pushed, EMPTY, StealCopying(0, 0, 1, 0), [9], ACCEPTED, multiset{}),
                    Stage(Small([9, 8], 3, 1, 1, [7, 8, 9]), Fetched(1), Small([9, 0], 1, 0, 0, [9]), Idle(Stole(1)), [], ACCEPTED, multiset{}))
  {
    var claimed := Stage(Small([7, 8], 2, 1, 0, [7, 8]), Pushed, EMPTY, StealCopying(0, 0, 1, 0), [9], ACCEPTED, multiset{});
    var refilled := Stage(Small([9, 8], 3, 1, 0, [7, 8, 9]), Fetched(1), EMPTY, StealCopying(0, 0, 1, 0), [], ACCEPTED, multiset{});
    var stolen := Stage(Small([9, 8], 3, 1, 1, [7, 8, 9]), Fetched(1), Small([9, 0], 1, 0, 0, [9]), Idle(Stole(1)), [], ACCEPTED, multiset{});
    hide Reaches;
    assert Reaches(claimed, refilled) by {
      RefillRun(claimed, [7, 8], [7, 8], 9);
      assert [7, 8][0 := 9] == [9, 8] && [7, 8] + [9] == [7, 8, 9];
      assert claimed.queues[0 := Small([9, 8], 3, 1, 0, [7, 8, 9])] == refilled.queues;
    }
    assert Reaches(refilled, stolen) by {
      StealEnds(refilled, [9, 8], [7, 8, 9], [0, 0]);
      assert [0, 0][0 := 9] == [9, 0];
      assert refilled.pcs[1 := Idle(Stole(1))] == stolen.pcs;
    }
    ReachesJoin(claimed, refilled, stolen);
  }

  lemma ThiefPops()
    ensures Reaches(Stage(Small([9, 8], 3, 1, 1, [7, 8, 9]), Fetched(1), Small([9, 0], 1, 0, 0, [9]), Idle(Stole(1)), [], ACCEPTED, multiset{}),
                    Stage(Small([9, 8], 3, 1, 1, [7, 8, 9]), Fetched(1), Small([9, 0], 1, 1, 1, [9]), Idle(Popped(9)), [], ACCEPTED, multiset{9}))
  {
    var stolen := Stage(Small([9, 8], 3, 1, 1, [7, 8, 9]), Fetched(1), Small([9, 0], 1, 0, 0, [9]), Idle(Stole(1)), [], ACCEPTED, multiset{});
    var first := Stage(Small([9, 8], 3, 1, 1, [7, 8, 9]), Fetched(1), Small([9, 0], 1, 1, 1, [9]), Idle(Popped(9)), [], ACCEPTED, multiset{9});
    hide Reaches;
    PopRun(stolen, 1, [9, 0], 1, 0, [9]);
    assert stolen.queues[1 := Small([9, 0], 1, 1, 1, [9])] == first.queues;
    assert multiset{} + multiset{9} == multiset{9};
  }

  lemma OwnerPops(q: Queue, last: Answer, c: nat, delivered: multiset<Value>, v: Value)
    requires 1 <= c <= 2 && v == [9, 8][c % 2]
    ensures Reaches(Stage(Small([9, 8], 3, c, c, [7, 8, 9]), last, q, Idle(Popped(9)), [], ACCEPTED, delivered),
                    Stage(Small([9, 8], 3, c + 1, c + 1, [7, 8, 9]), Popped(v), q, Idle(Popped(9)), [], ACCEPTED,
                          delivered + multiset{v}))
  {
    var before := Stage(Small([9, 8], 3, c, c, [7, 8, 9]), last, q, Idle(Popped(9)), [], ACCEPTED, delivered);
    hide Reaches;
    PopRun(before, 0, [9, 8], 3, c, [7, 8, 9]);
    assert before.queues[0 := Small([9, 8], 3, c + 1, c + 1, [7, 8, 9])] == [Small([9, 8], 3, c + 1, c + 1, [7, 8, 9]), q];
    assert before.pcs[0 := Idle(Popped(v))] == [Idle(Popped(v)), Idle(Popped(9))];
  }

  /** The queues are emptied. */
  lemma UpToTheEnd()
    ensures Reaches(Stage(Small([9, 8], 3, 1, 1, [7, 8, 9]), Fetched(1), Small([9, 0], 1, 0, 0, [9]), Idle(Stole(1)),
                          [], ACCEPTED, multiset{}),
                    Stage(Small([9, 8], 3, 3, 3, [7, 8, 9]), Popped(9), Small([9, 0], 1, 1, 1, [9]), Idle(Popped(9)),
                          [], ACCEPTED, multiset{9} + multiset{8} + multiset{9}))
  {
    var q, pc := Small([9, 0], 1, 1, 1, [9]), Idle(Popped(9));
    var stolen := Stage(Small([9, 8], 3, 1, 1, [7, 8, 9]), Fetched(1), Small([9, 0], 1, 0, 0, [9]), Idle(Stole(1)),
                        [], ACCEPTED, multiset{});
    var first := Stage(Small([9, 8], 3, 1, 1, [7, 8, 9]), Fetched(1), q, pc, [], ACCEPTED, multiset{9});
    var second := Stage(Small([9, 8], 3, 2, 2, [7, 8, 9]), Popped(8), q, pc, [], ACCEPTED, multiset{9} + multiset{8});
    var third := Stage(Small([9, 8], 3, 3, 3, [7, 8, 9]), Popped(9), q, pc, [], ACCEPTED,
                       multiset{9} + multiset{8} + multiset{9});
    hide Reaches, Stage, Small;
    ThiefPops();
    OwnerPops(q, Fetched(1), 1, multiset{9}, 8);
    OwnerPops(q, Popped(8), 2, multiset{9} + multiset{8}, 9);
    ReachesJoin(stolen, first, second);
    ReachesJoin(stolen, second, third);
  }

  /**
    From a fresh system a refill that does not fit loses a value and delivers another twice:
    7, 8 and 9 are accepted, and once everything is drained 9 came out twice and 7 never.
   */
  lemma RefillCanLoseAndDuplicate()
    ensures var start := Stage(EMPTY, NoAnswer, EMPTY, Idle(NoAnswer), [], multiset{}, multiset{});
            var end := Stage(Small([9, 8], 3, 3, 3, [7, 8, 9]), Popped(9), Small([9, 0], 1, 1, 1, [9]), Idle(Popped(9)), [], ACCEPTED,
                             multiset{9} + multiset{8} + multiset{9});
            && Initial(start) && Reaches(start, end) && Drained(end)
            && end.accepted[7] == 1 && end.delivered[7] == 0
            && end.accepted[9] == 1 && end.delivered[9] == 2
  {
    hide Reaches;
    UpToThePushes();
    UpToTheClaim();
    UpToTheTheft();
    UpToTheEnd();
    var start := Stage(EMPTY, NoAnswer, EMPTY, Idle(NoAnswer), [], multiset{}, multiset{});
    var two := Stage(Small([7, 8], 2, 0, 0, [7, 8]), Pushed, EMPTY, Idle(NoAnswer), [], multiset{7} + multiset{8}, multiset{});
    var claimed := Stage(Small([7, 8], 2, 1, 0, [7, 8]), Pushed, EMPTY, StealCopying(0, 0, 1, 0), [9], ACCEPTED, multiset{});
    var stolen := Stage(Small([9, 8], 3, 1, 1, [7, 8, 9]), Fetched(1), Small([9, 0], 1, 0, 0, [9]), Idle(Stole(1)), [], ACCEPTED, multiset{});
    var end := Stage(Small([9, 8], 3, 3, 3, [7, 8, 9]), Popped(9), Small([9, 0], 1, 1, 1, [9]), Idle(Popped(9)), [], ACCEPTED,
                     multiset{9} + multiset{8} + multiset{9});
    ReachesJoin(start, two, claimed);
    ReachesJoin(start, claimed, stolen);
    ReachesJoin(start, stolen, end);
  }
}
