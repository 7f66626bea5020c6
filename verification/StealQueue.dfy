/**
  One lock-free single-producer queue: its 32-bit cursors, the packed tail word, and the
  unbounded history the wrapping cursors stand for.
 */
module StealQueue {
  import opened WordArithmetic

  type Value = nat

  // ---------------------------------------------------------------- words

  function Wrap(x: nat): u32 { x % U32_RANGE }

  function WrappingAdd(a: u32, b: u32): u32 { (a + b) % U32_RANGE }

  function WrappingSub(a: u32, b: u32): u32 { (a + U32_RANGE - b) % U32_RANGE }

  /** `(steal << 32) | tail`. */
  function PackTail(steal: u32, tail: u32): (word: u64)
    ensures word == steal * U32_RANGE + tail
  {
    Pow2At32();
    OrDisjoint(steal, tail, 32);
    Or(steal * U32_RANGE, tail)
  }

  /** `(word >> 32, word as u32)`. */
  function UnpackTail(word: u64): (u32, u32) {
    (word / U32_RANGE, word % U32_RANGE)
  }

  lemma PackUnpack(steal: u32, tail: u32, word: u64)
    ensures UnpackTail(PackTail(steal, tail)) == (steal, tail)
    ensures PackTail(UnpackTail(word).0, UnpackTail(word).1) == word
  {
  }

  lemma Pow2At32()
    ensures Pow2(32) == U32_RANGE
  {
    assert Pow2(8) == 256;
    Pow2Double(8, 256);
    Pow2Double(16, 0x1_0000);
  }

  lemma {:induction false} OrDisjoint(a: nat, b: nat, k: nat)
    requires b < Pow2(k)
    ensures Or(a * Pow2(k), b) == a * Pow2(k) + b
  {
    if k == 0 {
      OrZero(a);
    } else {
      var p := Pow2(k - 1);
      hide Or;
      OrDisjoint(a, b / 2, k - 1);
      TwiceTimes(a, p);
      assert Pow2(k) == 2 * p;
      hide Pow2;
      OrEven(a * p, b);
    }
  }

  lemma TwiceTimes(a: nat, p: nat)
    ensures a * (2 * p) == 2 * (a * p)
  {
  }

  lemma OrEven(x: nat, b: nat)
    ensures Or(2 * x, b) == 2 * Or(x, b / 2) + b % 2
  {
  }

  /** `a & m`, as what is left of `a` once the bits outside `m` are taken away. */
  function And(a: nat, m: nat): nat {
    AndNotAtMost(a, m);
    a - AndNot(a, m)
  }

  lemma {:induction false} AndNotAtMost(a: nat, m: nat)
    ensures AndNot(a, m) <= a
  {
    if a != 0 { AndNotAtMost(a / 2, m / 2); }
  }

  // ---------------------------------------------------------------- the queue

  /**
    `head` and `tail` are the atomics, `data` the slots. The rest is history: `pushed`,
    `claimed` and `released` count without wrapping what `head`, the tail and the steal
    half of the tail word count modulo 2^32, and `log` holds every value ever published.
   */
  datatype Queue = Queue(order: nat, head: u32, tail: u64, data: seq<Value>,
                         pushed: nat, claimed: nat, released: nat, log: seq<Value>) {

    /** The capacity: a power of two. */
    function Capacity(): nat { Pow2(order) }

    /** Index of a cursor: `cursor & access_mask`. */
    function SlotOf(cursor: u32): nat { And(cursor, Capacity() - 1) }
  }

  /** Slot of an unbounded cursor. */
  function Spot(order: nat, x: nat): (slot: nat)
    ensures slot < Pow2(order)
  {
    x % Pow2(order)
  }

  /** The slots of the cursors `[from, to)` hold what was published there. */
  ghost predicate Intact(order: nat, data: seq<Value>, from: nat, to: nat, log: seq<Value>) {
    && |data| == Pow2(order) && to <= |log|
    && (forall k :: from <= k < to ==> data[Spot(order, k)] == log[k])
  }

  /** The slots from cursor `from` on hold `values`. */
  ghost predicate Written(order: nat, data: seq<Value>, from: nat, values: seq<Value>) {
    && |data| == Pow2(order)
    && (forall t :: 0 <= t < |values| ==> data[Spot(order, from + t)] == values[t])
  }

  ghost predicate QueueOk(q: Queue) {
    && q.order <= 31
    && |q.data| == q.Capacity()
    && q.head == Wrap(q.pushed)
    && q.tail == PackTail(Wrap(q.released), Wrap(q.claimed))
    && q.released <= q.claimed <= q.pushed <= q.released + q.Capacity()
    && |q.log| == q.pushed
    && Intact(q.order, q.data, q.released, q.pushed, q.log)
  }

  /** The mask picks the same slot for the wrapped and the unbounded cursor. */
  lemma SlotOfWrapped(q: Queue, x: nat)
    requires q.order <= 31
    ensures q.SlotOf(Wrap(x)) == Spot(q.order, x)
  {
    AndNotRoundsDown(Wrap(x), q.order);
    Pow2At32();
    Pow2Add(q.order, 32 - q.order);
    ModOfMultiple(x, q.Capacity(), Pow2(32 - q.order));
  }

  lemma ModOfMultiple(x: nat, c: nat, m: nat)
    requires c > 0 && m > 0
    ensures c * m > 0
    ensures x % (c * m) % c == x % c
  {
    var q, r := x / (c * m), x % (c * m);
    var q', r' := r / c, r % c;
    Regroup(x, c, m, q, q', r');
    ModUnique(x, c, m * q + q', r');
  }

  lemma Regroup(x: nat, c: nat, m: nat, q: nat, q': nat, r: nat)
    requires x == (c * m) * q + (c * q' + r)
    ensures x == c * (m * q + q') + r
  {
    assert (c * m) * q == c * (m * q);
    assert c * (m * q + q') == c * (m * q) + c * q';
  }

  lemma CapacityBound(order: nat)
    requires order <= 31
    ensures 0 < Pow2(order) <= 0x8000_0000
  {
    Pow2At32();
    Pow2Mono(order, 31);
    assert Pow2(32) == 2 * Pow2(31);
  }

  lemma {:induction false} Pow2Mono(j: nat, k: nat)
    requires j <= k
    ensures Pow2(j) <= Pow2(k)
  {
    if j < k { Pow2Mono(j, k - 1); }
  }

  /** Wrapping subtraction is exact for cursors less than 2^32 apart. */
  lemma WrappingSubExact(a: nat, b: nat)
    requires b <= a < b + U32_RANGE
    ensures WrappingSub(Wrap(a), Wrap(b)) == a - b
    ensures Wrap(a) == Wrap(b) <==> a == b
  {
  }

  /** Fewer than 2^32 apart and the same word: the same cursors, so a compare-exchange tells them apart. */
  lemma SameTailWord(released: nat, claimed: nat, released': nat, claimed': nat)
    requires released <= released' && claimed <= claimed'
    requires released' - released < U32_RANGE && claimed' - claimed < U32_RANGE
    requires PackTail(Wrap(released), Wrap(claimed)) == PackTail(Wrap(released'), Wrap(claimed'))
    ensures released == released' && claimed == claimed'
  {
    PackUnpack(Wrap(released), Wrap(claimed), 0);
    PackUnpack(Wrap(released'), Wrap(claimed'), 0);
    WrappingSubExact(released', released);
    WrappingSubExact(claimed', claimed);
  }

  /** Distinct cursors within one capacity of each other have distinct slots. */
  lemma SpotsDistinct(order: nat, x: nat, y: nat)
    requires x < y < x + Pow2(order)
    ensures Spot(order, x) != Spot(order, y)
  {
    var c := Pow2(order);
    if x % c == y % c {
      var d := y / c - x / c;
      assert y - x == c * d;
      if d >= 1 { MulMono(c, 1, d); }
      assert false;
    }
  }

  // ---------------------------------------------------------------- the code's updates of the words

  /** Tail word stored when the owner claims `n` values. */
  function OwnerClaimWord(tail: u64, n: u32): u64 {
    var (steal, realTail) := UnpackTail(tail);
    var next := WrappingAdd(realTail, n);
    if steal == realTail then PackTail(next, next) else PackTail(steal, next)
  }

  /** Tail word stored when a thief claims `n` values. */
  function ThiefClaimWord(tail: u64, n: u32): u64 {
    var (steal, realTail) := UnpackTail(tail);
    PackTail(steal, WrappingAdd(realTail, n))
  }

  /** Tail word stored when a thief has copied what it claimed. */
  function ReleaseWord(tail: u64): u64 {
    var (_, realTail) := UnpackTail(tail);
    PackTail(realTail, realTail)
  }

  /** How many values a thief tries to take. */
  function StealCount(head: u32, realTail: u32, room: nat, divider: nat): (n: nat)
    requires divider > 0 && room > 0
    ensures 1 <= n <= room
  {
    var share := WrappingSub(head, realTail) / divider;
    var capped := if share < room then share else room;
    if capped < 1 then 1 else capped
  }

  /** The owner's claim: pop takes one value, overflow several. */
  function OwnerClaim(q: Queue, n: nat): Queue
    requires n < U32_RANGE
  {
    q.(tail := OwnerClaimWord(q.tail, n),
       claimed := q.claimed + n,
       released := if q.released == q.claimed then q.claimed + n else q.released)
  }

  function ThiefClaim(q: Queue, n: nat): Queue
    requires n < U32_RANGE
  {
    q.(tail := ThiefClaimWord(q.tail, n), claimed := q.claimed + n)
  }

  function Release(q: Queue): Queue {
    q.(tail := ReleaseWord(q.tail), released := q.claimed)
  }

  /** One slot written beyond the head: not published yet. */
  function WriteSlot(q: Queue, cursor: u32, v: Value): Queue
    requires q.SlotOf(cursor) < |q.data|
  {
    q.(data := q.data[q.SlotOf(cursor) := v])
  }

  /** The head moves over the `n` slots written beyond it. */
  function Publish(q: Queue, values: seq<Value>): Queue
    requires |values| < U32_RANGE
  {
    q.(head := WrappingAdd(q.head, |values|), pushed := q.pushed + |values|, log := q.log + values)
  }

  lemma WrapAdd(x: nat, n: nat)
    requires n < U32_RANGE
    ensures WrappingAdd(Wrap(x), n) == Wrap(x + n)
  {
  }

  lemma OwnerClaimKeeps(q: Queue, n: nat)
    requires QueueOk(q) && q.claimed + n <= q.pushed
    ensures n < U32_RANGE && QueueOk(OwnerClaim(q, n))
  {
    CapacityBound(q.order);
    hide Pow2, PackTail, UnpackTail, Wrap, WrappingAdd, Spot;
    PackUnpack(Wrap(q.released), Wrap(q.claimed), 0);
    WrappingSubExact(q.claimed, q.released);
    WrapAdd(q.claimed, n);
  }

  lemma ThiefClaimKeeps(q: Queue, n: nat)
    requires QueueOk(q) && q.claimed + n <= q.pushed
    ensures n < U32_RANGE && QueueOk(ThiefClaim(q, n))
  {
    CapacityBound(q.order);
    hide Pow2, PackTail, UnpackTail, Wrap, WrappingAdd, Spot;
    PackUnpack(Wrap(q.released), Wrap(q.claimed), 0);
    WrapAdd(q.claimed, n);
  }

  lemma ReleaseKeeps(q: Queue)
    requires QueueOk(q)
    ensures QueueOk(Release(q))
  {
    hide Pow2, PackTail, UnpackTail, Wrap, WrappingAdd, Spot;
    PackUnpack(Wrap(q.released), Wrap(q.claimed), 0);
  }

  /** A slot beyond the head and short of a full lap is free: writing it disturbs nothing unreleased. */
  lemma WriteSlotKeeps(q: Queue, written: seq<Value>, v: Value)
    requires QueueOk(q) && q.pushed + |written| < q.released + q.Capacity()
    requires Written(q.order, q.data, q.pushed, written)
    ensures |written| < U32_RANGE && q.SlotOf(WrappingAdd(q.head, |written|)) < |q.data|
    ensures var q' := WriteSlot(q, WrappingAdd(q.head, |written|), v);
            QueueOk(q') && Written(q'.order, q'.data, q'.pushed, written + [v])
  {
    CapacityBound(q.order);
    var x := q.pushed + |written|;
    SlotOfWrapped(q, x);
    WrapAdd(q.pushed, |written|);
    hide Pow2, PackTail, Wrap, WrappingAdd, Spot, And;
    var q' := WriteSlot(q, WrappingAdd(q.head, |written|), v);
    assert q'.data == q.data[Spot(q.order, x) := v];
    forall k | q.released <= k < x ensures q'.data[Spot(q.order, k)] == q.data[Spot(q.order, k)] {
      SpotsDistinct(q.order, k, x);
    }
  }

  /** Publishing what was written beyond the head. */
  lemma PublishKeeps(q: Queue, values: seq<Value>)
    requires QueueOk(q) && q.pushed + |values| <= q.released + q.Capacity()
    requires Written(q.order, q.data, q.pushed, values)
    ensures |values| < U32_RANGE && QueueOk(Publish(q, values))
  {
    CapacityBound(q.order);
    WrapAdd(q.pushed, |values|);
    hide Pow2, PackTail, Wrap, WrappingAdd, Spot;
    var q' := Publish(q, values);
    forall k | q.released <= k < q'.pushed ensures q'.data[Spot(q.order, k)] == q'.log[k] {
      if k >= q.pushed {
        var t := k - q.pushed;
        assert q.data[Spot(q.order, q.pushed + t)] == values[t];
      }
    }
  }
}
