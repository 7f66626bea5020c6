/**
  Registrations that race on one wheel under the shared lock: the occupancy bit is set first,
  then the entry is pushed on the front of its slot's linked list by compare-exchange, and
  every access is one step. Nodes are numbered; a node is also the thread that registers it.
 */
module RegisterRace {
  import opened Common
  import opened WordArithmetic
  import opened WheelModel
  import opened WheelSteps

  /** `Marked` has set the bit, `Pinned` has put the head it saw into its own link. */
  datatype Pc = Waiting | Marked | Pinned(seen: Option<nat>) | Linked

  /** `lists` has the nodes of each slot in order and `order` the nodes in the order they were linked: history. */
  datatype Race = Race(entries: seq<Entry>, next: seq<Option<nat>>, heads: seq<Option<nat>>, bits: seq<bool>,
                       pcs: seq<Pc>, lists: seq<seq<nat>>, order: seq<nat>)

  function Slot(level: nat, e: Entry): (slot: nat)
    ensures slot < SLOTS_CNT
  {
    e.expireAt / SlotRange(level) % SLOTS_CNT
  }

  lemma SameSlot(w: Wheel, e: Entry)
    ensures SlotOf(w, e) == Slot(w.level, e)
  {
  }

  predicate Sized(r: Race) {
    && |r.entries| == |r.next| == |r.pcs|
    && |r.heads| == |r.bits| == |r.lists| == SLOTS_CNT
  }

  predicate CanStep(r: Race, t: nat) {
    Sized(r) && t < |r.pcs| && !r.pcs[t].Linked?
  }

  /** The next access of the thread that registers node `t`. */
  function Step(r: Race, level: nat, t: nat): Race
    requires CanStep(r, t)
  {
    var slot := Slot(level, r.entries[t]);
    match r.pcs[t]
    case Waiting => r.(bits := r.bits[slot := true], pcs := r.pcs[t := Marked])
    case Marked => r.(next := r.next[t := r.heads[slot]], pcs := r.pcs[t := Pinned(r.heads[slot])])
    case Pinned(seen) =>
      if r.heads[slot] != seen then r.(pcs := r.pcs[t := Marked])
      else r.(heads := r.heads[slot := Some(t)], pcs := r.pcs[t := Linked],
              lists := r.lists[slot := [t] + r.lists[slot]], order := r.order + [t])
    case Linked => r
  }

  // ---------------------------------------------------------------- linked lists

  /** Following the links from `head` visits exactly `list`. */
  predicate Chain(next: seq<Option<nat>>, head: Option<nat>, list: seq<nat>)
    decreases |list|
  {
    if list == [] then head.None?
    else head == Some(list[0]) && list[0] < |next| && Chain(next, next[list[0]], list[1..])
  }

  lemma {:induction false} ChainStays(next: seq<Option<nat>>, head: Option<nat>, list: seq<nat>, t: nat, link: Option<nat>)
    requires Chain(next, head, list) && t < |next| && t !in list
    ensures Chain(next[t := link], head, list)
    decreases |list|
  {
    if list != [] { ChainStays(next, next[list[0]], list[1..], t, link); }
  }

  // ---------------------------------------------------------------- one after another

  /** The wheel after registering the entries of `order` one after another. */
  function Registered(w: Wheel, entries: seq<Entry>, order: seq<nat>): (w': Wheel)
    requires |w.occupied| == |w.slots| == SLOTS_CNT && forall j :: 0 <= j < |order| ==> order[j] < |entries|
    ensures |w'.occupied| == |w'.slots| == SLOTS_CNT && w'.level == w.level
  {
    if order == [] then w
    else WithEntry(Registered(w, entries, order[..|order| - 1]), entries[order[|order| - 1]])
  }

  function EntriesOf(entries: seq<Entry>, list: seq<nat>): seq<Entry>
    requires forall j :: 0 <= j < |list| ==> list[j] < |entries|
  {
    seq(|list|, j requires 0 <= j < |list| => entries[list[j]])
  }

  // ---------------------------------------------------------------- what every run keeps

  /** Node numbers are in range. */
  predicate Ranged(r: Race) {
    && (forall j :: 0 <= j < |r.order| ==> r.order[j] < |r.entries|)
    && (forall k, j :: 0 <= k < |r.lists| && 0 <= j < |r.lists[k]| ==> r.lists[k][j] < |r.entries|)
  }

  /** Every slot's links form its list, of nodes that are linked; a pinned node points to the head it saw. */
  predicate LinksOk(r: Race)
    requires Sized(r)
  {
    && (forall k :: 0 <= k < SLOTS_CNT ==> Chain(r.next, r.heads[k], r.lists[k]))
    && (forall k, j :: 0 <= k < SLOTS_CNT && 0 <= j < |r.lists[k]| ==> r.lists[k][j] < |r.pcs| && r.pcs[r.lists[k][j]].Linked?)
    && (forall t :: 0 <= t < |r.pcs| && r.pcs[t].Pinned? ==> r.next[t] == r.pcs[t].seen)
  }

  /** The slots are those of the registrations linked so far, made one after another. */
  predicate SlotsOk(r: Race, start: Wheel)
    requires Sized(r) && Ranged(r) && |start.occupied| == |start.slots| == SLOTS_CNT
  {
    var w := Registered(start, r.entries, r.order);
    forall k :: 0 <= k < SLOTS_CNT ==> w.slots[k] == EntriesOf(r.entries, r.lists[k])
  }

  /** Some thread has set bit `k` and not linked its node yet. */
  predicate Ahead(r: Race, level: nat, k: nat)
    requires Sized(r)
  {
    exists t :: 0 <= t < |r.pcs| && (r.pcs[t].Marked? || r.pcs[t].Pinned?) && Slot(level, r.entries[t]) == k
  }

  /** The bits are those of these registrations, and of the threads about to link. */
  predicate BitsOk(r: Race, start: Wheel)
    requires Sized(r) && Ranged(r) && |start.occupied| == |start.slots| == SLOTS_CNT
  {
    var w := Registered(start, r.entries, r.order);
    forall k :: 0 <= k < SLOTS_CNT ==> (r.bits[k] <==> w.occupied[k] || Ahead(r, start.level, k))
  }

  /** Of the nodes `joining`, exactly the linked ones are in `order`, each once. */
  predicate OrderOk(r: Race, joining: set<nat>)
    requires Sized(r)
  {
    && Distinct(r.order)
    && (forall j :: 0 <= j < |r.order| ==> r.order[j] in joining && r.order[j] < |r.pcs| && r.pcs[r.order[j]].Linked?)
    && (forall t :: t in joining && t < |r.pcs| && r.pcs[t].Linked? ==> t in r.order)
    && (forall t :: 0 <= t < |r.pcs| && !r.pcs[t].Linked? ==> t in joining)
  }

  predicate Inv(r: Race, start: Wheel, joining: set<nat>) {
    && |start.occupied| == |start.slots| == SLOTS_CNT
    && Sized(r) && Ranged(r) && LinksOk(r) && SlotsOk(r, start) && BitsOk(r, start) && OrderOk(r, joining)
  }

  lemma MarkKeeps(r: Race, start: Wheel, joining: set<nat>, t: nat)
    requires Inv(r, start, joining) && CanStep(r, t) && r.pcs[t].Waiting?
    ensures Inv(Step(r, start.level, t), start, joining)
  {
    var r', slot := Step(r, start.level, t), Slot(start.level, r.entries[t]);
    hide Registered, EntriesOf, Chain, Slot;
    forall k | 0 <= k < SLOTS_CNT
      ensures r'.bits[k] <==> Registered(start, r.entries, r.order).occupied[k] || Ahead(r', start.level, k)
    {
      if k == slot { assert r'.pcs[t].Marked?; }
      else { AheadElsewhere(r, r', start.level, t, k); }
    }
  }

  /** A thread's own progress changes who is ahead only on its own slot. */
  lemma AheadElsewhere(r: Race, r': Race, level: nat, t: nat, k: nat)
    requires Sized(r) && Sized(r') && t < |r.pcs| && r'.entries == r.entries && r'.pcs == r.pcs[t := r'.pcs[t]]
    requires Slot(level, r.entries[t]) != k
    ensures Ahead(r', level, k) <==> Ahead(r, level, k)
  {
    hide Slot;
    if u :| 0 <= u < |r.pcs| && (r.pcs[u].Marked? || r.pcs[u].Pinned?) && Slot(level, r.entries[u]) == k {
      assert r'.pcs[u] == r.pcs[u];
    }
    if u :| 0 <= u < |r.pcs| && (r'.pcs[u].Marked? || r'.pcs[u].Pinned?) && Slot(level, r.entries[u]) == k {
      assert r'.pcs[u] == r.pcs[u];
    }
  }

  lemma AheadSame(r: Race, r': Race, level: nat, t: nat, k: nat)
    requires Sized(r) && Sized(r') && t < |r.pcs| && r'.entries == r.entries && r'.pcs == r.pcs[t := r'.pcs[t]]
    requires (r.pcs[t].Marked? || r.pcs[t].Pinned?) && (r'.pcs[t].Marked? || r'.pcs[t].Pinned?)
    ensures Ahead(r', level, k) <==> Ahead(r, level, k)
  {
    hide Slot;
    if u :| 0 <= u < |r.pcs| && (r.pcs[u].Marked? || r.pcs[u].Pinned?) && Slot(level, r.entries[u]) == k {
      assert r'.pcs[u].Marked? || r'.pcs[u].Pinned?;
    }
    if u :| 0 <= u < |r.pcs| && (r'.pcs[u].Marked? || r'.pcs[u].Pinned?) && Slot(level, r.entries[u]) == k {
      assert r.pcs[u].Marked? || r.pcs[u].Pinned?;
    }
  }

  lemma RetryKeeps(r: Race, start: Wheel, joining: set<nat>, t: nat)
    requires Inv(r, start, joining) && CanStep(r, t)
    requires r.pcs[t].Pinned? && r.heads[Slot(start.level, r.entries[t])] != r.pcs[t].seen
    ensures Inv(Step(r, start.level, t), start, joining)
  {
    var r' := Step(r, start.level, t);
    hide Registered, EntriesOf, Chain;
    forall k | 0 <= k < SLOTS_CNT ensures Ahead(r', start.level, k) <==> Ahead(r, start.level, k) {
      AheadSame(r, r', start.level, t, k);
    }
  }

  lemma PinKeeps(r: Race, start: Wheel, joining: set<nat>, t: nat)
    requires Inv(r, start, joining) && CanStep(r, t) && r.pcs[t].Marked?
    ensures Inv(Step(r, start.level, t), start, joining)
  {
    var r' := Step(r, start.level, t);
    hide Registered, EntriesOf, Slot;
    forall k | 0 <= k < SLOTS_CNT ensures Ahead(r', start.level, k) <==> Ahead(r, start.level, k) {
      AheadSame(r, r', start.level, t, k);
    }
    forall k | 0 <= k < SLOTS_CNT ensures Chain(r'.next, r'.heads[k], r'.lists[k]) {
      assert t !in r.lists[k];
      ChainStays(r.next, r.heads[k], r.lists[k], t, r'.next[t]);
    }
    hide Chain;
  }

  lemma RegisteredNext(w: Wheel, entries: seq<Entry>, order: seq<nat>, t: nat)
    requires |w.occupied| == |w.slots| == SLOTS_CNT && t < |entries|
    requires forall j :: 0 <= j < |order| ==> order[j] < |entries|
    ensures forall j :: 0 <= j < |order + [t]| ==> (order + [t])[j] < |entries|
    ensures Registered(w, entries, order + [t]) == WithEntry(Registered(w, entries, order), entries[t])
  {
    assert (order + [t])[..|order + [t]| - 1] == order;
  }

  lemma EntriesPush(entries: seq<Entry>, list: seq<nat>, t: nat)
    requires t < |entries| && forall j :: 0 <= j < |list| ==> list[j] < |entries|
    ensures EntriesOf(entries, [t] + list) == [entries[t]] + EntriesOf(entries, list)
  {
  }

  /** The push: one more registration, made after all those before it. */
  lemma LinkSlots(r: Race, start: Wheel, t: nat)
    requires Sized(r) && Ranged(r) && |start.occupied| == |start.slots| == SLOTS_CNT
    requires SlotsOk(r, start) && CanStep(r, t) && r.pcs[t].Pinned? && r.heads[Slot(start.level, r.entries[t])] == r.pcs[t].seen
    ensures var r' := Step(r, start.level, t);
            && Ranged(r') && SlotsOk(r', start)
            && Registered(start, r'.entries, r'.order)
               == WithEntry(Registered(start, r.entries, r.order), r.entries[t])
  {
    hide Slot, SlotOf, Registered, EntriesOf;
    var r', slot := Step(r, start.level, t), Slot(start.level, r.entries[t]);
    RegisteredNext(start, r.entries, r.order, t);
    EntriesPush(r.entries, r.lists[slot], t);
    var w := Registered(start, r.entries, r.order);
    SameSlot(w, r.entries[t]);
    forall k | 0 <= k < SLOTS_CNT ensures WithEntry(w, r.entries[t]).slots[k] == EntriesOf(r.entries, r'.lists[k]) {
      assert w.slots[k] == EntriesOf(r.entries, r.lists[k]);
    }
  }

  lemma LinkBits(r: Race, start: Wheel, t: nat)
    requires Sized(r) && Ranged(r) && |start.occupied| == |start.slots| == SLOTS_CNT
    requires SlotsOk(r, start) && BitsOk(r, start)
    requires CanStep(r, t) && r.pcs[t].Pinned? && r.heads[Slot(start.level, r.entries[t])] == r.pcs[t].seen
    requires Ranged(Step(r, start.level, t))
    ensures BitsOk(Step(r, start.level, t), start)
  {
    var r', slot := Step(r, start.level, t), Slot(start.level, r.entries[t]);
    LinkSlots(r, start, t);
    var w := Registered(start, r.entries, r.order);
    SameSlot(w, r.entries[t]);
    hide Registered, EntriesOf, SlotsOk, Slot, SlotOf;
    forall k | 0 <= k < SLOTS_CNT
      ensures r'.bits[k] <==> Registered(start, r'.entries, r'.order).occupied[k] || Ahead(r', start.level, k)
    {
      if k == slot { assert Ahead(r, start.level, k); }
      else { AheadElsewhere(r, r', start.level, t, k); }
    }
  }

  lemma LinkLinks(r: Race, start: Wheel, t: nat)
    requires Sized(r) && Ranged(r) && LinksOk(r)
    requires CanStep(r, t) && r.pcs[t].Pinned? && r.heads[Slot(start.level, r.entries[t])] == r.pcs[t].seen
    ensures LinksOk(Step(r, start.level, t))
  {
    var r', slot := Step(r, start.level, t), Slot(start.level, r.entries[t]);
    hide Slot;
    assert r'.lists[slot][1..] == r.lists[slot];
    assert Chain(r'.next, r'.heads[slot], r'.lists[slot]);
  }

  lemma LinkOrder(r: Race, start: Wheel, joining: set<nat>, t: nat)
    requires Sized(r) && OrderOk(r, joining)
    requires CanStep(r, t) && r.pcs[t].Pinned? && r.heads[Slot(start.level, r.entries[t])] == r.pcs[t].seen
    ensures OrderOk(Step(r, start.level, t), joining)
  {
    hide Slot;
    var r' := Step(r, start.level, t);
    assert t in joining && t !in r.order;
    assert r'.order == r.order + [t] && r'.pcs == r.pcs[t := Linked];
    hide Step;
    assert Distinct(r'.order);
    assert t == r'.order[|r.order|];
    forall u | u in joining && u < |r'.pcs| && r'.pcs[u].Linked? ensures u in r'.order {
      if u != t { assert u in r.order; }
    }
  }

  lemma LinkKeeps(r: Race, start: Wheel, joining: set<nat>, t: nat)
    requires Inv(r, start, joining) && CanStep(r, t)
    requires r.pcs[t].Pinned? && r.heads[Slot(start.level, r.entries[t])] == r.pcs[t].seen
    ensures Inv(Step(r, start.level, t), start, joining)
  {
    hide LinksOk, SlotsOk, BitsOk, Ranged, OrderOk, Slot, Registered, WithEntry;
    LinkSlots(r, start, t);
    LinkBits(r, start, t);
    LinkLinks(r, start, t);
    LinkOrder(r, start, joining, t);
  }

  lemma StepKeeps(r: Race, start: Wheel, joining: set<nat>, t: nat)
    requires Inv(r, start, joining) && CanStep(r, t)
    ensures Inv(Step(r, start.level, t), start, joining)
  {
    hide Inv, Step;
    if r.pcs[t].Waiting? { MarkKeeps(r, start, joining, t); }
    else if r.pcs[t].Marked? { PinKeeps(r, start, joining, t); }
    else if r.heads[Slot(start.level, r.entries[t])] != r.pcs[t].seen { RetryKeeps(r, start, joining, t); }
    else { LinkKeeps(r, start, joining, t); }
  }

  // ---------------------------------------------------------------- runs

  predicate IsRun(r: Race, level: nat, steps: seq<nat>)
    decreases |steps|
  {
    steps != [] ==> CanStep(r, steps[0]) && IsRun(Step(r, level, steps[0]), level, steps[1..])
  }

  function After(r: Race, level: nat, steps: seq<nat>): Race
    requires IsRun(r, level, steps)
    decreases |steps|
  {
    if steps == [] then r else After(Step(r, level, steps[0]), level, steps[1..])
  }

  lemma {:induction false} RunKeeps(r: Race, start: Wheel, joining: set<nat>, steps: seq<nat>)
    requires Inv(r, start, joining) && IsRun(r, start.level, steps)
    ensures Inv(After(r, start.level, steps), start, joining)
    decreases |steps|
  {
    if steps != [] {
      StepKeeps(r, start, joining, steps[0]);
      hide Inv, Step, CanStep;
      RunKeeps(Step(r, start.level, steps[0]), start, joining, steps[1..]);
    }
  }

  /** A wheel with its lists linked, and threads about to register the nodes `joining`. */
  predicate Begins(r: Race, start: Wheel, joining: set<nat>) {
    && |start.occupied| == |start.slots| == SLOTS_CNT
    && Sized(r) && Ranged(r) && LinksOk(r) && r.order == [] && r.bits == start.occupied
    && (forall k :: 0 <= k < SLOTS_CNT ==> start.slots[k] == EntriesOf(r.entries, r.lists[k]))
    && (forall t :: 0 <= t < |r.pcs| ==> r.pcs[t] == if t in joining then Waiting else Linked)
  }

  /**
    However the registrations interleave, when all have returned the wheel is the one they give
    one after another in the order their nodes were linked: the same bits, the same lists, every
    entry exactly once.
   */
  lemma RaceIsSomeOrder(r: Race, start: Wheel, joining: set<nat>, steps: seq<nat>)
    requires Begins(r, start, joining) && IsRun(r, start.level, steps)
    requires forall t :: 0 <= t < |After(r, start.level, steps).pcs| ==> After(r, start.level, steps).pcs[t].Linked?
    ensures var end := After(r, start.level, steps);
            && Sized(end) && Ranged(end) && Distinct(end.order)
            && (forall t :: 0 <= t < |end.pcs| ==> (t in end.order <==> t in joining))
            && var w := Registered(start, end.entries, end.order);
               && end.bits == w.occupied
               && (forall k :: 0 <= k < SLOTS_CNT ==>
                     Chain(end.next, end.heads[k], end.lists[k]) && w.slots[k] == EntriesOf(end.entries, end.lists[k]))
  {
    BeginsInv(r, start, joining);
    RunKeeps(r, start, joining, steps);
    var end := After(r, start.level, steps);
    hide IsRun, After, Begins, Registered, EntriesOf, Chain, Slot;
    assert forall k :: 0 <= k < SLOTS_CNT ==> !Ahead(end, start.level, k);
  }

  lemma BeginsInv(r: Race, start: Wheel, joining: set<nat>)
    requires Begins(r, start, joining)
    ensures Inv(r, start, joining)
  {
    hide Chain, Slot, EntriesOf;
    assert forall k :: 0 <= k < SLOTS_CNT ==> !Ahead(r, start.level, k);
  }

  // ---------------------------------------------------------------- a registration by itself

  /** Node `t` is at the front of its slot's list. */
  function LinkedIn(r: Race, level: nat, t: nat): Race
    requires Sized(r) && t < |r.pcs|
  {
    var slot := Slot(level, r.entries[t]);
    r.(next := r.next[t := r.heads[slot]], heads := r.heads[slot := Some(t)], pcs := r.pcs[t := Linked],
       lists := r.lists[slot := [t] + r.lists[slot]], order := r.order + [t])
  }

  /**
    A registration by itself sets its bit and is then linked in front; one whose compare-exchange
    lost starts over from the head as it is now.
   */
  lemma RegisterAlone(r: Race, level: nat, t: nat)
    requires CanStep(r, t)
    ensures var slot, r' := Slot(level, r.entries[t]), Step(r, level, t);
            match r.pcs[t]
            case Waiting =>
              Step(Step(r', level, t), level, t) == LinkedIn(r.(bits := r.bits[slot := true]), level, t)
            case Marked => Step(r', level, t) == LinkedIn(r, level, t)
            case Pinned(seen) =>
              r.heads[slot] != seen ==> Step(Step(r', level, t), level, t) == LinkedIn(r, level, t)
            case Linked => true
  {
    var slot := Slot(level, r.entries[t]);
    var head := r.heads[slot];
    assert r.pcs[t := Marked][t := Pinned(head)][t := Linked] == r.pcs[t := Linked];
    assert r.pcs[t := Pinned(head)][t := Linked] == r.pcs[t := Linked];
  }
}
