/** The steps of the timer driver on the values of its five wheels, and the invariant each keeps. */
module WheelSteps {
  import opened Common
  import opened WordArithmetic
  import opened WheelModel
  import opened WheelBag

  function EmptyWheel(level: nat): Wheel {
    Wheel(level, seq(SLOTS_CNT, _ => false), seq(SLOTS_CNT, _ => []))
  }

  /** The wheel once a slot has been taken out. */
  function WithoutSlot(w: Wheel, slot: nat): Wheel
    requires slot < |w.occupied| && slot < |w.slots|
  {
    Wheel(w.level, w.occupied[slot := false], w.slots[slot := []])
  }

  function SlotOf(w: Wheel, e: Entry): nat {
    e.expireAt / SlotRange(w.level) % SLOTS_CNT
  }

  /** The wheel once an entry has been pushed on the front of its slot list. */
  function WithEntry(w: Wheel, e: Entry): Wheel
    requires |w.occupied| == |w.slots| == SLOTS_CNT
  {
    var slot := SlotOf(w, e);
    Wheel(w.level, w.occupied[slot := true], w.slots[slot := [e] + w.slots[slot]])
  }

  /** Expiration reported by the first wheel, from `i` on, that has one. */
  function FindNextExpiring(levels: seq<Wheel>, i: nat, now: u64): Option<ExpireInfo>
    requires i <= |levels|
    requires forall w :: w in levels ==> |w.occupied| == SLOTS_CNT
    decreases |levels| - i
  {
    if i == |levels| then None
    else match NextExpiration(levels[i], now)
         case Some(info) => Some(info)
         case None => FindNextExpiring(levels, i + 1, now)
  }

  /** `info` is the earliest occupied slot and its deadline is that slot's start. */
  ghost predicate IsNext(levels: seq<Wheel>, last: u64, info: ExpireInfo) {
    && IsFirstSlot(levels, info)
    && last <= info.deadline
    && (forall e :: e in levels[info.level].slots[info.slot] ==> SlotStart(e.expireAt, info.level) == info.deadline)
  }

  lemma {:induction false} FindNextExpiringIsNext(levels: seq<Wheel>, i: nat, last: u64)
    requires LevelsOk(levels, last) && i <= MAX_LEVELS
    requires forall j, k :: 0 <= j < i && 0 <= k < SLOTS_CNT ==> levels[j].slots[k] == []
    ensures forall w :: w in levels ==> |w.occupied| == SLOTS_CNT
    ensures match FindNextExpiring(levels, i, last)
            case Some(info) => IsNext(levels, last, info)
            case None => LevelsBag(levels) == multiset{}
    decreases MAX_LEVELS - i
  {
    if i == MAX_LEVELS {
      if LevelsBag(levels) != multiset{} {
        var e :| e in LevelsBag(levels);
        var j, k := FindInLevels(levels, e);
        assert false;
      }
    } else {
      assert WheelOk(levels[i], last);
      if exists k :: 0 <= k < SLOTS_CNT && levels[i].slots[k] != [] {
        NextExpirationOccupied(levels[i], last);
      } else {
        NextExpirationEmpty(levels[i], last);
        FindNextExpiringIsNext(levels, i + 1, last);
      }
    }
  }

  /** Every pending deadline is at or after the start of the next slot. */
  lemma NextIsLowerBound(levels: seq<Wheel>, last: u64, info: ExpireInfo, e: Entry)
    requires LevelsOk(levels, last) && IsNext(levels, last, info)
    requires e in LevelsBag(levels)
    ensures info.deadline <= e.expireAt
  {
    var i, k := FindInLevels(levels, e);
    FirstSlotIsEarliest(levels, last, info, i, k, e);
  }

  /** The lowest deadline of the next slot is the lowest of all. */
  lemma NextSlotHoldsMinimum(levels: seq<Wheel>, last: u64, info: ExpireInfo, lowest: nat, e: Entry)
    requires LevelsOk(levels, last) && IsNext(levels, last, info)
    requires exists f :: f in levels[info.level].slots[info.slot] && f.expireAt == lowest
    requires forall f :: f in levels[info.level].slots[info.slot] ==> lowest <= f.expireAt
    requires e in LevelsBag(levels)
    ensures last <= lowest <= e.expireAt
  {
    var f :| f in levels[info.level].slots[info.slot] && f.expireAt == lowest;
    FirstSlotIsEarliest(levels, last, info, info.level, info.slot, f);
    var i, k := FindInLevels(levels, e);
    if !(i == info.level && k == info.slot) {
      FirstSlotBeforeOthers(levels, last, info, f, i, k, e);
    }
  }

  /** The next deadline fits in 64 bits. */
  lemma NextFits(levels: seq<Wheel>, last: u64, info: ExpireInfo)
    requires LevelsOk(levels, last) && IsNext(levels, last, info)
    ensures info.deadline < U64_RANGE && info.level < MAX_LEVELS && info.slot < SLOTS_CNT
  {
    var e := levels[info.level].slots[info.slot][0];
    assert e in levels[info.level].slots[info.slot];
    FirstSlotIsEarliest(levels, last, info, info.level, info.slot, e);
  }

  /** Taking the next slot out leaves wheels that are in order for the slot's own deadline. */
  lemma AcquireKeepsOrder(levels: seq<Wheel>, last: u64, info: ExpireInfo)
    requires LevelsOk(levels, last) && IsNext(levels, last, info) && info.deadline < U64_RANGE
    ensures LevelsOk(levels[info.level := WithoutSlot(levels[info.level], info.slot)], info.deadline)
  {
    var levels' := levels[info.level := WithoutSlot(levels[info.level], info.slot)];
    forall i | 0 <= i < MAX_LEVELS ensures levels'[i].level == i && WheelOk(levels'[i], info.deadline) {
      assert WheelOk(levels[i], last);
      forall k, e | 0 <= k < SLOTS_CNT && e in levels'[i].slots[k]
        ensures PlacedAt(e, info.deadline, i, k)
      {
        assert e in levels[i].slots[k];
        assert PlacedAt(e, last, i, k);
        FirstSlotIsEarliest(levels, last, info, i, k, e);
        PlacedLater(e, last, info.deadline, i, k);
      }
    }
  }

  /** Registering an entry on its computed level keeps the wheels in order. */
  lemma RegisterKeepsOrder(levels: seq<Wheel>, last: u64, e: Entry)
    requires LevelsOk(levels, last) && last <= e.expireAt
    requires ComputeLevel(last, e.expireAt) < MAX_LEVELS
    ensures var i := ComputeLevel(last, e.expireAt);
            LevelsOk(levels[i := WithEntry(levels[i], e)], last)
  {
    ComputeLevelIsHighestDigit(last, e.expireAt);
    var i := ComputeLevel(last, e.expireAt);
    var w, w' := levels[i], WithEntry(levels[i], e);
    assert WheelOk(w, last);
    forall k, f | 0 <= k < SLOTS_CNT && f in w'.slots[k] ensures PlacedAt(f, last, w'.level, k) {
      if f !in w.slots[k] { assert f == e && k == SlotOf(w, e); }
    }
    assert WheelOk(w', last);
  }

  /** Time may pass freely up to the start of the next slot. */
  lemma AdvanceKeepsOrder(levels: seq<Wheel>, last: u64, now: u64)
    requires LevelsOk(levels, last) && last <= now
    requires match FindNextExpiring(levels, 0, last)
             case Some(info) => now < info.deadline
             case None => true
    ensures LevelsOk(levels, now)
    ensures forall e :: e in LevelsBag(levels) ==> now < e.expireAt
  {
    FindNextExpiringIsNext(levels, 0, last);
    forall e | e in LevelsBag(levels) ensures now < e.expireAt {
      NextIsLowerBound(levels, last, FindNextExpiring(levels, 0, last).value, e);
    }
    forall i | 0 <= i < MAX_LEVELS ensures WheelOk(levels[i], now) {
      assert WheelOk(levels[i], last);
      forall k, e | 0 <= k < SLOTS_CNT && e in levels[i].slots[k] ensures PlacedAt(e, now, i, k) {
        EntryInBag(levels, i, k, e);
        assert PlacedAt(e, last, i, k);
        FirstSlotIsEarliest(levels, last, FindNextExpiring(levels, 0, last).value, i, k, e);
        PlacedLater(e, last, now, i, k);
      }
    }
  }

  /** Five empty wheels are in order at time zero. */
  lemma EmptyOk(levels: seq<Wheel>)
    requires |levels| == MAX_LEVELS
    requires forall i :: 0 <= i < MAX_LEVELS ==> levels[i] == EmptyWheel(i)
    ensures LevelsOk(levels, 0)
    ensures LevelsBag(levels) == multiset{}
  {
    assert LevelsOk(levels, 0);
    if LevelsBag(levels) != multiset{} {
      var e :| e in LevelsBag(levels);
      var i, k := FindInLevels(levels, e);
      assert false;
    }
  }
}
