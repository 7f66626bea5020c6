/**
  Values and invariants of the hierarchical timer wheel: which level and slot a
  deadline belongs to, what an occupied slot says about the deadlines inside it,
  and the bag of entries the five wheels hold together.
 */
module WheelModel {
  import opened Common
  import opened WordArithmetic

  const SLOTS_CNT: nat := 64
  const MAX_LEVELS: nat := 5
  const MAX_TIMEOUT_TIME: nat := SLOTS_CNT * 16777216

  /** A registered timeout; `waker` identifies the waker to call. */
  datatype Entry = Entry(waker: nat, expireAt: u64)

  /** One wheel: the 64 bits of the occupancy word, lowest first, and the slot lists, head first. */
  datatype Wheel = Wheel(level: nat, occupied: seq<bool>, slots: seq<seq<Entry>>)

  datatype ExpireInfo = ExpireInfo(level: nat, slot: nat, deadline: nat)

  // ---------------------------------------------------------------- levels

  /** Milliseconds covered by one slot of a level. */
  function SlotRange(level: nat): (r: nat)
    ensures r > 0
  {
    if level == 0 then 1 else SLOTS_CNT * SlotRange(level - 1)
  }

  /** Level chosen from the leading zeros of `last ^ expire | 0b111111`. */
  function ComputeLevel(last: u64, expireAt: u64): nat {
    XorBound(last, expireAt, 64);
    OrLowSix(Xor(last, expireAt));
    var masked: u64 := Or(Xor(last, expireAt), 63);
    BitLengthSplit(masked);
    var significant: nat := 63 - LeadingZeros(masked);
    significant / 6
  }

  lemma OrLowSix(x: nat)
    ensures Or(x, 63) / 64 == x / 64 && Or(x, 63) % 64 == 63
    ensures x < U64_RANGE ==> Or(x, 63) < U64_RANGE
  {
    Pow2At64();
    OrLowBits(x, 6);
  }

  lemma BitLengthSplit(x: nat)
    requires x % 64 == 63
    ensures BitLength(x) == if x < 64 then 6 else 6 + BitLength(x / 64)
  {
    if x < 64 { assert BitLength(63) == 6; } else { BitLength64(x); }
  }

  lemma {:induction false} XorBound(a: nat, b: nat, k: nat)
    requires (a < Pow2(k) && b < Pow2(k)) || (k == 64 && a < U64_RANGE && b < U64_RANGE)
    ensures Xor(a, b) < Pow2(k)
    ensures k == 64 ==> Pow2(k) == U64_RANGE
  {
    Pow2At64();
    if k != 0 { XorBound(a / 2, b / 2, k - 1); }
  }

  /** Position of the highest base-64 digit in which two times differ, 0 if none above the lowest does. */
  function HighestDigit(a: nat, b: nat): nat
    decreases a + b
  {
    if a / 64 == b / 64 then 0 else 1 + HighestDigit(a / 64, b / 64)
  }

  lemma {:induction false} XorLengthIsDigit(a: nat, b: nat)
    requires a != b
    ensures BitLength(Xor(a, b)) >= 1
    ensures (BitLength(Xor(a, b)) - 1) / 6 == HighestDigit(a, b)
    decreases a + b
  {
    var x := Xor(a, b);
    XorZeroIffEqual(a, b);
    Pow2At64();
    XorQuotient64(a, b);
    XorZeroIffEqual(a / 64, b / 64);
    if a / 64 == b / 64 {
      BitLengthBound(x, 6);
    } else {
      XorLengthIsDigit(a / 64, b / 64);
      BitLength64(x);
    }
  }

  /** The bit trick computes the highest differing base-64 digit. */
  lemma ComputeLevelIsHighestDigit(last: u64, expireAt: u64)
    ensures ComputeLevel(last, expireAt) == HighestDigit(last, expireAt)
  {
    var x := Xor(last, expireAt);
    var m := Or(x, 63);
    OrLowSix(x);
    BitLengthSplit(m);
    Pow2At64();
    XorQuotient64(last, expireAt);
    XorZeroIffEqual(last / 64, expireAt / 64);
    assert ComputeLevel(last, expireAt) == (BitLength(m) - 1) / 6;
    if last / 64 != expireAt / 64 {
      XorLengthIsDigit(last / 64, expireAt / 64);
    }
  }

  lemma {:induction false} HighestDigitAtMost(a: nat, b: nat, level: nat)
    ensures HighestDigit(a, b) <= level <==> a / SlotRange(level + 1) == b / SlotRange(level + 1)
  {
    DivDiv(a, 64, SlotRange(level));
    DivDiv(b, 64, SlotRange(level));
    if level != 0 {
      HighestDigitAtMost(a / 64, b / 64, level - 1);
    }
  }

  /** The level exists among the five wheels exactly when both times lie in the same 2^30 ms window. */
  lemma LevelInRangeIff(last: u64, expireAt: u64)
    ensures ComputeLevel(last, expireAt) < MAX_LEVELS
       <==> last / MAX_TIMEOUT_TIME == expireAt / MAX_TIMEOUT_TIME
  {
    ComputeLevelIsHighestDigit(last, expireAt);
    HighestDigitAtMost(last, expireAt, 4);
    assert SlotRange(3) == 262144;
    assert SlotRange(5) == 64 * (64 * SlotRange(3));
  }

  /** A deadline the range check lets through and no wheel can hold. */
  lemma RangeCheckAdmitsMissingLevel(last: u64, expireAt: u64)
    requires last == 0 && expireAt == MAX_TIMEOUT_TIME
    ensures expireAt - last <= MAX_TIMEOUT_TIME && ComputeLevel(last, expireAt) >= MAX_LEVELS
  {
    LevelInRangeIff(last, expireAt);
  }

  // ---------------------------------------------------------------- occupancy words

  function RotateRight(bits: seq<bool>, n: u32): (r: seq<bool>)
    requires |bits| == SLOTS_CNT
    ensures |r| == SLOTS_CNT
  {
    bits[n % 64..] + bits[..n % 64]
  }

  /** Index of the first set bit, the length if there is none. */
  function TrailingZeros(bits: seq<bool>): (n: nat)
    ensures n <= |bits|
    ensures forall t :: 0 <= t < n ==> !bits[t]
    ensures n < |bits| ==> bits[n]
  {
    if bits == [] || bits[0] then 0 else 1 + TrailingZeros(bits[1..])
  }

  /** How many slots of a level have started by `now`. */
  function SlotPosition(now: nat, level: nat): nat {
    now / SlotRange(level)
  }

  /** First occupied slot at or after the slot of `now`, going round the wheel. */
  function NextOccupiedSlot(w: Wheel, now: u64): Option<nat>
    requires |w.occupied| == SLOTS_CNT
  {
    if true !in w.occupied then None
    else
      var current: u32 := SlotPosition(now, w.level) % U32_RANGE;
      var x := RotateRight(w.occupied, current);
      Some((TrailingZeros(x) + current) % U32_RANGE % SLOTS_CNT)
  }

  /** Start of the window of 64 slots that a wheel covers at `now`. */
  function WheelStart(now: nat, level: nat): nat {
    AndNot(now, SlotRange(level) * SLOTS_CNT - 1)
  }

  /** Start time of the next occupied slot of a wheel. */
  function NextExpiration(w: Wheel, now: u64): Option<ExpireInfo>
    requires |w.occupied| == SLOTS_CNT
  {
    match NextOccupiedSlot(w, now)
    case None => None
    case Some(slot) =>
      Some(ExpireInfo(w.level, slot, WheelStart(now, w.level) + slot * SlotRange(w.level)))
  }

  lemma RotatedSearch(bits: seq<bool>, current: u32)
    requires |bits| == SLOTS_CNT
    requires true in bits
    requires forall k :: 0 <= k < current % 64 ==> !bits[k]
    ensures var tz := TrailingZeros(RotateRight(bits, current));
            && tz + current < U32_RANGE
            && var slot := (tz + current) % 64;
               && bits[slot]
               && (forall k :: 0 <= k < slot ==> !bits[k])
  {
    var c := current % 64;
    var x := RotateRight(bits, current);
    var tz := TrailingZeros(x);
    var k :| 0 <= k < SLOTS_CNT && bits[k];
    assert x[k - c] == bits[k];
    assert tz <= k - c;
    AddWithinBlock(current, tz);
    forall j | c <= j < tz + c ensures !bits[j] {
      assert x[j - c] == bits[j];
    }
  }

  lemma AddWithinBlock(current: u32, n: nat)
    requires current % 64 + n < 64
    ensures (n + current) % 64 == n + current % 64
    ensures n + current < U32_RANGE
  {
  }

  lemma ModMod64(position: nat)
    ensures position % U32_RANGE % 64 == position % 64
  {
  }

  /**
    When no slot before the current one is occupied, the search finds the lowest
    occupied slot, and the 32-bit addition does not overflow.
   */
  lemma NextOccupiedSlotIsLowest(w: Wheel, now: u64)
    requires |w.occupied| == SLOTS_CNT
    requires true in w.occupied
    requires forall k :: 0 <= k < SlotPosition(now, w.level) % 64 ==> !w.occupied[k]
    ensures NextOccupiedSlot(w, now).Some?
    ensures var slot := NextOccupiedSlot(w, now).value;
            slot < SLOTS_CNT && w.occupied[slot] && forall k :: 0 <= k < slot ==> !w.occupied[k]
    ensures var current := SlotPosition(now, w.level) % U32_RANGE;
            TrailingZeros(RotateRight(w.occupied, current)) + current < U32_RANGE
  {
    hide SlotPosition, TrailingZeros, RotateRight;
    var position := SlotPosition(now, w.level);
    ModMod64(position);
    RotatedSearch(w.occupied, position % U32_RANGE);
  }

  // ---------------------------------------------------------------- placement

  /** Start of the slot that holds `t` on a level. */
  function SlotStart(t: nat, level: nat): nat {
    t / SlotRange(level) * SlotRange(level)
  }

  /** The entry is not due before `last` and sits where its highest differing digit puts it. */
  predicate PlacedAt(e: Entry, last: u64, level: nat, slot: nat) {
    && last <= e.expireAt
    && HighestDigit(last, e.expireAt) == level
    && e.expireAt / SlotRange(level) % 64 == slot
  }

  predicate WheelOk(w: Wheel, last: u64) {
    && |w.occupied| == SLOTS_CNT
    && |w.slots| == SLOTS_CNT
    && (forall k :: 0 <= k < SLOTS_CNT ==> (w.occupied[k] <==> w.slots[k] != []))
    && (forall k, e :: 0 <= k < SLOTS_CNT && e in w.slots[k] ==> PlacedAt(e, last, w.level, k))
  }

  predicate LevelsOk(levels: seq<Wheel>, last: u64) {
    && |levels| == MAX_LEVELS
    && (forall i :: 0 <= i < MAX_LEVELS ==> levels[i].level == i && WheelOk(levels[i], last))
  }

  /** The slots of a window of 64 slots: where `t` sits in the window that holds `last` too. */
  lemma SlotInWindow(last: nat, t: nat, r: nat)
    requires r > 0 && last <= t && last / (r * 64) == t / (r * 64)
    ensures t / r == 64 * (last / (r * 64)) + t / r % 64
    ensures last / r % 64 <= t / r % 64
    ensures t / r * r == (r * 64) * (last / (r * 64)) + t / r % 64 * r
  {
    var q := last / (r * 64);
    DivDiv(t, r, 64);
    DivDiv(last, r, 64);
    DivMono(last, t, r);
    var k := t / r % 64;
    assert (r * 64) * q + k * r == (64 * q + k) * r;
  }

  /** The mask rounds a time down to a multiple of the wheel's range. */
  lemma WheelStartRoundsDown(now: nat, level: nat)
    ensures WheelStart(now, level) == (SlotRange(level) * 64) * (now / (SlotRange(level) * 64))
  {
    SlotRangeIsPow2(level + 1);
    AndNotRoundsDown(now, 6 * (level + 1));
    assert SlotRange(level + 1) == SlotRange(level) * 64;
  }

  lemma NextSlotStartsAfter(last: nat, t: nat, r: nat)
    requires r > 0 && last / r < t / r
    ensures last < t / r * r <= t
  {
    MulMono(r, last / r + 1, t / r);
  }

  /** Where a placed entry sits relative to `last`. */
  lemma PlacedBounds(e: Entry, last: u64, level: nat, slot: nat)
    requires PlacedAt(e, last, level, slot)
    ensures last <= SlotStart(e.expireAt, level) <= e.expireAt
    ensures level == 0 ==> SlotStart(e.expireAt, level) == e.expireAt
    ensures level > 0 ==> last / SlotRange(level) < e.expireAt / SlotRange(level)
    ensures last / SlotRange(level) % 64 <= slot
    ensures SlotStart(e.expireAt, level) == WheelStart(last, level) + slot * SlotRange(level)
  {
    WheelStartRoundsDown(last, level);
    HighestDigitAtMost(last, e.expireAt, level);
    assert SlotRange(level + 1) == SlotRange(level) * 64;
    SlotInWindow(last, e.expireAt, SlotRange(level));
    if level > 0 {
      PlacedInLaterSlot(e, last, level, slot);
      NextSlotStartsAfter(last, e.expireAt, SlotRange(level));
    }
  }

  lemma PlacedInLaterSlot(e: Entry, last: u64, level: nat, slot: nat)
    requires PlacedAt(e, last, level, slot) && level > 0
    ensures last / SlotRange(level) < e.expireAt / SlotRange(level)
  {
    HighestDigitAtMost(last, e.expireAt, level - 1);
    DivMono(last, e.expireAt, SlotRange(level));
  }

  lemma BeforeSlotStart(now: nat, t: nat, r: nat)
    requires r > 0 && now < t / r * r
    ensures now / r != t / r
  {
  }

  /** Placement survives moving `last` forward to any time before the entry's slot starts. */
  lemma PlacedLater(e: Entry, last: u64, now: u64, level: nat, slot: nat)
    requires PlacedAt(e, last, level, slot)
    requires last <= now <= e.expireAt
    requires level > 0 ==> now < SlotStart(e.expireAt, level)
    ensures PlacedAt(e, now, level, slot)
  {
    HighestDigitAtMost(last, e.expireAt, level);
    HighestDigitAtMost(now, e.expireAt, level);
    DivMono(last, now, SlotRange(level + 1));
    DivMono(now, e.expireAt, SlotRange(level + 1));
    if level > 0 {
      HighestDigitAtMost(now, e.expireAt, level - 1);
      BeforeSlotStart(now, e.expireAt, SlotRange(level));
    }
  }

  /** An entry whose slot on `level` starts at `now` cascades to a lower level, or is due. */
  lemma CascadesLower(e: Entry, now: u64, level: nat)
    requires SlotStart(e.expireAt, level) == now
    requires now < e.expireAt
    ensures HighestDigit(now, e.expireAt) < level
  {
    var r := SlotRange(level);
    ModUnique(now, r, e.expireAt / r, 0);
    if level > 0 {
      HighestDigitAtMost(now, e.expireAt, level - 1);
    }
  }

  /** A lower-level entry comes before the slot of any higher-level entry starts. */
  lemma LowerLevelFirst(e: Entry, last: u64, level: nat, slot: nat, e': Entry, level': nat, slot': nat)
    requires PlacedAt(e, last, level, slot) && PlacedAt(e', last, level', slot') && level < level'
    ensures e.expireAt < SlotStart(e'.expireAt, level')
  {
    HighestDigitAtMost(last, e.expireAt, level' - 1);
    PlacedInLaterSlot(e', last, level', slot');
    NextSlotStartsAfter(e.expireAt, e'.expireAt, SlotRange(level'));
  }

  /** On one level a later slot starts later. */
  lemma LowerSlotFirst(e: Entry, last: u64, level: nat, slot: nat, e': Entry, slot': nat)
    requires PlacedAt(e, last, level, slot) && PlacedAt(e', last, level, slot') && slot < slot'
    ensures SlotStart(e.expireAt, level) < SlotStart(e'.expireAt, level)
    ensures e.expireAt < SlotStart(e'.expireAt, level)
  {
    SlotEnd(e.expireAt, level);
    hide SlotStart, PlacedAt, SlotRange, WheelStart;
    PlacedBounds(e, last, level, slot);
    PlacedBounds(e', last, level, slot');
    LaterSlotStartsLater(WheelStart(last, level), SlotRange(level), slot, slot');
  }

  lemma SlotEnd(t: nat, level: nat)
    ensures t < SlotStart(t, level) + SlotRange(level)
  {
  }

  lemma LaterSlotStartsLater(base: nat, r: nat, slot: nat, slot': nat)
    requires r > 0 && slot < slot'
    ensures base + slot * r + r <= base + slot' * r
  {
    MulMono(r, slot + 1, slot');
    assert r * (slot + 1) == slot * r + r;
  }

  // ---------------------------------------------------------------- the earliest slot

  /** The lowest occupied slot of the first wheel that has one. */
  predicate IsFirstSlot(levels: seq<Wheel>, info: ExpireInfo) {
    && |levels| == MAX_LEVELS
    && info.level < MAX_LEVELS && info.slot < SLOTS_CNT
    && (forall i :: 0 <= i < MAX_LEVELS ==> |levels[i].slots| == SLOTS_CNT)
    && (forall i, k :: 0 <= i < info.level && 0 <= k < SLOTS_CNT ==> levels[i].slots[k] == [])
    && (forall k :: 0 <= k < info.slot ==> levels[info.level].slots[k] == [])
    && levels[info.level].slots[info.slot] != []
  }

  /** `NextExpiration` on an occupied wheel: lowest slot, its start, never in the past. */
  lemma NextExpirationOccupied(w: Wheel, last: u64)
    requires WheelOk(w, last)
    requires exists k :: 0 <= k < SLOTS_CNT && w.slots[k] != []
    ensures NextExpiration(w, last).Some?
    ensures var info := NextExpiration(w, last).value;
            && info.level == w.level && info.slot < SLOTS_CNT && w.slots[info.slot] != []
            && (forall k :: 0 <= k < info.slot ==> w.slots[k] == [])
            && last <= info.deadline
            && (forall e :: e in w.slots[info.slot] ==> SlotStart(e.expireAt, w.level) == info.deadline)
  {
    hide SlotStart, SlotRange, WheelStart, NextOccupiedSlot, PlacedAt;
    var k0 :| 0 <= k0 < SLOTS_CNT && w.slots[k0] != [];
    assert w.occupied[k0];
    forall k | 0 <= k < SlotPosition(last, w.level) % 64 ensures !w.occupied[k] {
      if w.slots[k] != [] {
        var e := w.slots[k][0];
        assert PlacedAt(e, last, w.level, k);
        PlacedBounds(e, last, w.level, k);
      }
    }
    NextOccupiedSlotIsLowest(w, last);
    var info := NextExpiration(w, last).value;
    forall e | e in w.slots[info.slot]
      ensures SlotStart(e.expireAt, w.level) == info.deadline && last <= info.deadline
    {
      assert PlacedAt(e, last, w.level, info.slot);
      PlacedBounds(e, last, w.level, info.slot);
    }
    assert w.slots[info.slot][0] in w.slots[info.slot];
  }

  lemma NextExpirationEmpty(w: Wheel, last: u64)
    requires WheelOk(w, last)
    requires forall k :: 0 <= k < SLOTS_CNT ==> w.slots[k] == []
    ensures NextExpiration(w, last).None?
  {
  }

  lemma {:induction false} SlotRangeIsPow2(level: nat)
    ensures SlotRange(level) == Pow2(6 * level)
  {
    if level != 0 {
      SlotRangeIsPow2(level - 1);
      Pow2At64();
      Pow2Add(6, 6 * (level - 1));
    }
  }

  /** The entry `e` of the first slot against any entry in any slot: the first slot starts first. */
  lemma FirstSlotIsEarliest(levels: seq<Wheel>, last: u64, info: ExpireInfo, i: nat, k: nat, e: Entry)
    requires LevelsOk(levels, last) && IsFirstSlot(levels, info)
    requires forall f :: f in levels[info.level].slots[info.slot] ==> SlotStart(f.expireAt, info.level) == info.deadline
    requires i < MAX_LEVELS && k < SLOTS_CNT && e in levels[i].slots[k]
    ensures i == info.level && k == info.slot ==> info.deadline == SlotStart(e.expireAt, i)
    ensures !(i == info.level && k == info.slot) ==> info.deadline < SlotStart(e.expireAt, i)
    ensures info.deadline <= e.expireAt
  {
    var f := levels[info.level].slots[info.slot][0];
    assert f in levels[info.level].slots[info.slot];
    assert PlacedAt(f, last, info.level, info.slot);
    assert PlacedAt(e, last, i, k);
    PlacedBounds(f, last, info.level, info.slot);
    PlacedBounds(e, last, i, k);
    if i > info.level {
      LowerLevelFirst(f, last, info.level, info.slot, e, i, k);
    } else if i == info.level && k > info.slot {
      LowerSlotFirst(f, last, info.level, info.slot, e, k);
    }
  }

  /** Every deadline in the first slot comes before every deadline outside it. */
  lemma FirstSlotBeforeOthers(levels: seq<Wheel>, last: u64, info: ExpireInfo, f: Entry, i: nat, k: nat, e: Entry)
    requires LevelsOk(levels, last) && IsFirstSlot(levels, info)
    requires f in levels[info.level].slots[info.slot]
    requires i < MAX_LEVELS && k < SLOTS_CNT && e in levels[i].slots[k]
    requires !(i == info.level && k == info.slot)
    ensures f.expireAt < e.expireAt
  {
    hide PlacedAt, SlotStart, HighestDigit;
    assert PlacedAt(f, last, info.level, info.slot);
    assert PlacedAt(e, last, i, k);
    PlacedBounds(e, last, i, k);
    if i > info.level {
      LowerLevelFirst(f, last, info.level, info.slot, e, i, k);
    } else {
      LowerSlotFirst(f, last, info.level, info.slot, e, k);
    }
  }
}
