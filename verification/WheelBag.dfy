/** The entries held by the wheels as one bag, and the plain bag of deadlines they must agree with. */
module WheelBag {
  import opened WordArithmetic
  import opened WheelModel

  function SlotsBag(slots: seq<seq<Entry>>): multiset<Entry> {
    if |slots| == 0 then multiset{}
    else SlotsBag(slots[..|slots| - 1]) + multiset(slots[|slots| - 1])
  }

  function LevelsBag(levels: seq<Wheel>): multiset<Entry> {
    if |levels| == 0 then multiset{}
    else LevelsBag(levels[..|levels| - 1]) + SlotsBag(levels[|levels| - 1].slots)
  }

  /** `n` copies of `cost`. */
  function Times(n: nat, cost: nat): nat {
    if n == 0 then 0 else cost + Times(n - 1, cost)
  }

  lemma {:induction false} TimesAdd(m: nat, n: nat, cost: nat)
    ensures Times(m + n, cost) == Times(m, cost) + Times(n, cost)
  {
    if m != 0 { TimesAdd(m - 1, n, cost); }
  }

  /** Sum of (level + 1) over all entries: how often they can still be touched. */
  function Weight(levels: seq<Wheel>): nat {
    if |levels| == 0 then 0
    else Weight(levels[..|levels| - 1]) + Times(|SlotsBag(levels[|levels| - 1].slots)|, |levels|)
  }

  lemma {:induction false} SlotsBagUpdate(slots: seq<seq<Entry>>, k: nat, v: seq<Entry>)
    requires k < |slots|
    ensures SlotsBag(slots[k := v]) + multiset(slots[k]) == SlotsBag(slots) + multiset(v)
  {
    var n := |slots| - 1;
    if k == n {
      assert slots[k := v][..n] == slots[..n];
    } else {
      assert slots[k := v][..n] == slots[..n][k := v];
      SlotsBagUpdate(slots[..n], k, v);
      Regroup(SlotsBag(slots[..n][k := v]), multiset(slots[k]), SlotsBag(slots[..n]), multiset(v), multiset(slots[n]));
    }
  }

  lemma Regroup(a: multiset<Entry>, b: multiset<Entry>, c: multiset<Entry>, d: multiset<Entry>, l: multiset<Entry>)
    requires a + b == c + d
    ensures (a + l) + b == (c + l) + d
  {
    assert (a + l) + b == (a + b) + l;
  }

  lemma {:induction false} LevelsBagUpdate(levels: seq<Wheel>, i: nat, w: Wheel)
    requires i < |levels|
    ensures LevelsBag(levels[i := w]) + SlotsBag(levels[i].slots) == LevelsBag(levels) + SlotsBag(w.slots)
  {
    hide SlotsBag;
    var n := |levels| - 1;
    if i == n {
      assert levels[i := w][..n] == levels[..n];
    } else {
      assert levels[i := w][..n] == levels[..n][i := w];
      LevelsBagUpdate(levels[..n], i, w);
      Regroup(LevelsBag(levels[..n][i := w]), SlotsBag(levels[i].slots), LevelsBag(levels[..n]), SlotsBag(w.slots),
              SlotsBag(levels[n].slots));
    }
  }

  lemma {:induction false} WeightUpdate(levels: seq<Wheel>, i: nat, w: Wheel)
    requires i < |levels|
    ensures Weight(levels[i := w]) + Times(|SlotsBag(levels[i].slots)|, i + 1)
         == Weight(levels) + Times(|SlotsBag(w.slots)|, i + 1)
  {
    var n := |levels| - 1;
    if i == n {
      assert levels[i := w][..n] == levels[..n];
    } else {
      assert levels[i := w][..n] == levels[..n][i := w];
      WeightUpdate(levels[..n], i, w);
    }
  }

  /** Replacing one slot of one wheel. */
  lemma SlotUpdate(levels: seq<Wheel>, i: nat, k: nat, occupied: seq<bool>, v: seq<Entry>)
    requires i < |levels| && k < |levels[i].slots|
    ensures var levels' := levels[i := Wheel(levels[i].level, occupied, levels[i].slots[k := v])];
            LevelsBag(levels') + multiset(levels[i].slots[k]) == LevelsBag(levels) + multiset(v)
  {
    var w := Wheel(levels[i].level, occupied, levels[i].slots[k := v]);
    SlotsBagUpdate(levels[i].slots, k, v);
    LevelsBagUpdate(levels, i, w);
    CancelMiddle(LevelsBag(levels[i := w]), SlotsBag(levels[i].slots), LevelsBag(levels), SlotsBag(w.slots),
                 multiset(levels[i].slots[k]), multiset(v));
  }

  lemma SlotWeightUpdate(levels: seq<Wheel>, i: nat, k: nat, occupied: seq<bool>, v: seq<Entry>)
    requires i < |levels| && k < |levels[i].slots|
    ensures var levels' := levels[i := Wheel(levels[i].level, occupied, levels[i].slots[k := v])];
            Weight(levels') + Times(|levels[i].slots[k]|, i + 1) == Weight(levels) + Times(|v|, i + 1)
  {
    var w := Wheel(levels[i].level, occupied, levels[i].slots[k := v]);
    SlotsBagUpdate(levels[i].slots, k, v);
    WeightUpdate(levels, i, w);
    var before, after := SlotsBag(levels[i].slots), SlotsBag(w.slots);
    SameSize(after, multiset(levels[i].slots[k]), before, multiset(v));
    ShiftCost(Weight(levels[i := w]), Weight(levels), |after|, |before|, |levels[i].slots[k]|, |v|, i + 1);
  }

  lemma {:induction false} ShiftCost(x: nat, y: nat, after: nat, before: nat, out: nat, put: nat, cost: nat)
    requires x + Times(before, cost) == y + Times(after, cost) && after + out == before + put
    ensures x + Times(out, cost) == y + Times(put, cost)
  {
    TimesAdd(after, out, cost);
    TimesAdd(before, put, cost);
  }

  lemma SameSize(a: multiset<Entry>, b: multiset<Entry>, c: multiset<Entry>, d: multiset<Entry>)
    requires a + b == c + d
    ensures |a| + |b| == |c| + |d|
  {
    assert |a + b| == |a| + |b|;
  }

  lemma CancelMiddle(x: multiset<Entry>, p: multiset<Entry>, y: multiset<Entry>, q: multiset<Entry>,
                     s: multiset<Entry>, t: multiset<Entry>)
    requires x + p == y + q && q + s == p + t
    ensures x + s == y + t
  {
    forall e ensures (x + s)[e] == (y + t)[e] {
      assert (x + p)[e] == (y + q)[e];
      assert (q + s)[e] == (p + t)[e];
    }
  }

  lemma {:induction false} FindInSlots(slots: seq<seq<Entry>>, e: Entry) returns (k: nat)
    requires e in SlotsBag(slots)
    ensures k < |slots| && e in slots[k]
  {
    var n := |slots| - 1;
    if e in slots[n] { k := n; } else { k := FindInSlots(slots[..n], e); }
  }

  lemma {:induction false} FindInLevels(levels: seq<Wheel>, e: Entry) returns (i: nat, k: nat)
    requires e in LevelsBag(levels)
    ensures i < |levels| && k < |levels[i].slots| && e in levels[i].slots[k]
  {
    var n := |levels| - 1;
    if e in SlotsBag(levels[n].slots) {
      i := n;
      k := FindInSlots(levels[n].slots, e);
    } else {
      i, k := FindInLevels(levels[..n], e);
    }
  }

  lemma {:induction false} SlotInBag(slots: seq<seq<Entry>>, k: nat, e: Entry)
    requires k < |slots| && e in slots[k]
    ensures e in SlotsBag(slots)
  {
    var n := |slots| - 1;
    if k < n { SlotInBag(slots[..n], k, e); }
  }

  lemma {:induction false} EntryInBag(levels: seq<Wheel>, i: nat, k: nat, e: Entry)
    requires i < |levels| && k < |levels[i].slots| && e in levels[i].slots[k]
    ensures e in LevelsBag(levels)
  {
    var n := |levels| - 1;
    if i < n { EntryInBag(levels[..n], i, k, e); } else { SlotInBag(levels[n].slots, k, e); }
  }

  // ---------------------------------------------------------------- the reference: a plain list of deadlines

  /** Entries whose deadline has passed at `now`, in list order. */
  function Due(pending: seq<Entry>, now: nat): seq<Entry> {
    if pending == [] then []
    else (if pending[0].expireAt <= now then [pending[0]] else []) + Due(pending[1..], now)
  }

  /** Entries still pending after `now`, in list order. */
  function NotDue(pending: seq<Entry>, now: nat): seq<Entry> {
    if pending == [] then []
    else (if pending[0].expireAt <= now then [] else [pending[0]]) + NotDue(pending[1..], now)
  }

  lemma {:induction false} DueCounts(pending: seq<Entry>, now: nat, e: Entry)
    ensures multiset(Due(pending, now))[e] == if e.expireAt <= now then multiset(pending)[e] else 0
    ensures multiset(NotDue(pending, now))[e] == if e.expireAt <= now then 0 else multiset(pending)[e]
  {
    if pending != [] {
      assert pending == [pending[0]] + pending[1..];
      DueCounts(pending[1..], now, e);
    }
  }

  predicate Sorted(fired: seq<Entry>) {
    forall i, j :: 0 <= i < j < |fired| ==> fired[i].expireAt <= fired[j].expireAt
  }

  /** `fired` is exactly the part of `before` due at `now`, `after` exactly the rest. */
  ghost predicate Splits(before: multiset<Entry>, fired: multiset<Entry>, after: multiset<Entry>, now: nat) {
    && before == fired + after
    && (forall e :: e in fired ==> e.expireAt <= now)
    && (forall e :: e in after ==> e.expireAt > now)
  }

  /** A split at `now` is the list's own split: it is unique. */
  lemma SplitIsDue(pending: seq<Entry>, fired: multiset<Entry>, after: multiset<Entry>, now: nat)
    requires Splits(multiset(pending), fired, after, now)
    ensures fired == multiset(Due(pending, now))
    ensures after == multiset(NotDue(pending, now))
  {
    forall e ensures fired[e] == multiset(Due(pending, now))[e] && after[e] == multiset(NotDue(pending, now))[e] {
      DueCounts(pending, now, e);
      assert multiset(pending)[e] == fired[e] + after[e];
      assert fired[e] > 0 ==> e in fired;
      assert after[e] > 0 ==> e in after;
    }
  }
}
