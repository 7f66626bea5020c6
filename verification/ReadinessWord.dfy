/** The readiness word with its masks and shifts: 16 bits of state below 16 bits of tick. */
module ReadinessWord {
  import opened Common
  import opened WordArithmetic
  import StealQueue
  import opened Readiness

  const STATE_MASK := TICKS - 1

  /** `self.0 & READINESS_STATE_MASK`. */
  function ExtractState(w: u32): (state: nat)
    ensures state == w % TICKS
  {
    LowHalf(w);
    StealQueue.And(w, STATE_MASK)
  }

  /** `(self.0 & READINESS_TICK_MASK) >> 16`: the tick mask keeps what the state mask drops. */
  function ExtractTick(w: u32): (tick: nat)
    ensures tick == w / TICKS && tick < TICKS
  {
    LowHalf(w);
    AndNot(w, STATE_MASK) / TICKS
  }

  lemma LowHalf(w: nat)
    ensures AndNot(w, STATE_MASK) == w - w % TICKS && StealQueue.And(w, STATE_MASK) == w % TICKS
  {
    Pow2At16();
    AndNotRoundsDown(w, 16);
  }

  lemma Pow2At16()
    ensures Pow2(16) == TICKS
  {
    Pow2Add(8, 8);
    assert Pow2(8) == 256 by { Pow2Add(4, 4); assert Pow2(4) == 16; }
  }

  /** `(tick << 16) | state`. */
  function FromComponents(state: nat, tick: nat): (w: u32)
    requires state < TICKS && tick < TICKS
    ensures w == tick * TICKS + state
  {
    Pow2At16();
    StealQueue.OrDisjoint(tick, state, 16);
    Or(tick * TICKS, state)
  }

  lemma ComponentsRoundTrip(state: nat, tick: nat, w: u32)
    requires state < TICKS && tick < TICKS
    ensures ExtractState(FromComponents(state, tick)) == state && ExtractTick(FromComponents(state, tick)) == tick
    ensures FromComponents(ExtractState(w), ExtractTick(w)) == w
  {
  }

  // ---------------------------------------------------------------- operations on the word

  function UnionWord(w: u32, other: u32): u32 {
    Pow2At16();
    OrBelow(ExtractState(w), ExtractState(other), 16);
    FromComponents(Or(ExtractState(w), ExtractState(other)), ExtractTick(w))
  }

  function ClearWord(w: u32, mask: u32): u32 {
    StealQueue.AndNotAtMost(ExtractState(w), ExtractState(mask));
    FromComponents(AndNot(ExtractState(w), ExtractState(mask)), ExtractTick(w))
  }

  function IntersectionWord(w: u32, other: u32): Option<u32> {
    var common := StealQueue.And(ExtractState(w), ExtractState(other));
    if common == 0 then None else Some(FromComponents(common, ExtractTick(w)))
  }

  function IncrementTick(w: u32): u32 {
    FromComponents(ExtractState(w), (ExtractTick(w) + 1) % TICKS)
  }

  /** The interest of one side: readable is bit 0, writable bit 1. */
  function InterestWord(side: nat): u32
    requires side < SIDES
  {
    if side == 0 then 1 else 2
  }

  lemma {:induction false} OrBelow(a: nat, b: nat, k: nat)
    requires a < Pow2(k) && b < Pow2(k)
    ensures Or(a, b) < Pow2(k)
  {
    if k == 0 {
    } else {
      OrBelow(a / 2, b / 2, k - 1);
    }
  }

  // ---------------------------------------------------------------- what the word stands for

  function FlagsOf(state: nat): seq<bool> { [state % 2 == 1, state / 2 % 2 == 1] }

  function Decode(w: u32): (word: Word)
    ensures word.Ok()
  {
    Word(FlagsOf(ExtractState(w)), ExtractTick(w))
  }

  lemma OrFlags(a: nat, b: nat)
    ensures FlagsOf(Or(a, b)) == Union(FlagsOf(a), FlagsOf(b))
  {
    OrHalves(a, b);
    OrHalves(a / 2, b / 2);
  }

  lemma OrHalves(a: nat, b: nat)
    ensures Or(a, b) % 2 == (if a % 2 == 1 || b % 2 == 1 then 1 else 0) && Or(a, b) / 2 == Or(a / 2, b / 2)
  {
  }

  lemma AndNotHalves(a: nat, b: nat)
    ensures AndNot(a, b) % 2 == (if a % 2 == 1 && b % 2 == 0 then 1 else 0) && AndNot(a, b) / 2 == AndNot(a / 2, b / 2)
  {
  }

  lemma AndNotFlags(a: nat, side: nat)
    requires side < SIDES
    ensures FlagsOf(AndNot(a, InterestWord(side))) == FlagsOf(a)[side := false]
  {
    AndNotHalves(a, InterestWord(side));
    AndNotHalves(a / 2, InterestWord(side) / 2);
  }

  lemma AndSide(a: nat, side: nat)
    requires side < SIDES
    ensures StealQueue.And(a, InterestWord(side)) != 0 <==> FlagsOf(a)[side]
  {
    AndNotHalves(a, InterestWord(side));
    AndNotHalves(a / 2, InterestWord(side) / 2);
    AndNotZero(a / 2);
    AndNotZero(a / 2 / 2);
  }

  /** Marking an event on the word is marking it on the flags and the tick. */
  lemma MarkRefines(w: u32, event: u32)
    ensures Decode(UnionWord(IncrementTick(w), event)) == Mark(Decode(w), Decode(event).flags)
  {
    var state, tick := ExtractState(w), (ExtractTick(w) + 1) % TICKS;
    ComponentsRoundTrip(state, tick, w);
    OrFlags(state, ExtractState(event));
    Pow2At16();
    OrBelow(state, ExtractState(event), 16);
    ComponentsRoundTrip(Or(state, ExtractState(event)), tick, w);
    hide Or, FlagsOf, ExtractState, ExtractTick, FromComponents, Pow2;
  }

  /** Clearing one side on the word is clearing it on the flags, with the same tick test. */
  lemma ClearRefines(w: u32, side: nat, tick: nat)
    requires side < SIDES
    ensures Decode(if ExtractTick(w) != tick then w else ClearWord(w, InterestWord(side))) == Clear(Decode(w), side, tick)
  {
    var state, mask := ExtractState(w), InterestWord(side);
    AndNotFlags(state, side);
    StealQueue.AndNotAtMost(state, mask);
    ComponentsRoundTrip(AndNot(state, mask), ExtractTick(w), w);
    assert ExtractState(mask) == mask;
    hide AndNot, FlagsOf, ExtractState, ExtractTick, FromComponents, InterestWord;
  }

  /** A poll is ready exactly if its side's bit is up, and carries the tick. */
  lemma ReadyRefines(w: u32, side: nat)
    requires side < SIDES
    ensures IntersectionWord(w, InterestWord(side)).Some? <==> Decode(w).flags[side]
    ensures IntersectionWord(w, InterestWord(side)).Some? ==>
              ExtractTick(IntersectionWord(w, InterestWord(side)).value) == Decode(w).tick
  {
    var state, mask := ExtractState(w), InterestWord(side);
    AndSide(state, side);
    assert ExtractState(mask) == mask;
    var common := StealQueue.And(state, mask);
    ComponentsRoundTrip(common, ExtractTick(w), w);
    hide StealQueue.And, FlagsOf, ExtractState, ExtractTick, FromComponents, InterestWord;
  }
}
