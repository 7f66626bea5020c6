/** Fixed-width words and the bit operations the timer wheel and the queues use on them. */
module WordArithmetic {

  const U32_RANGE: nat := 0x1_0000_0000
  const U64_RANGE: nat := 0x1_0000_0000_0000_0000

  type u32 = x: nat | x < U32_RANGE
  type u64 = x: nat | x < U64_RANGE

  /** Bitwise exclusive or. */
  function Xor(a: nat, b: nat): nat {
    if a == 0 && b == 0 then 0
    else 2 * Xor(a / 2, b / 2) + (if a % 2 == b % 2 then 0 else 1)
  }

  /** Bitwise inclusive or. */
  function Or(a: nat, b: nat): nat {
    if a == 0 && b == 0 then 0
    else 2 * Or(a / 2, b / 2) + (if a % 2 == 1 || b % 2 == 1 then 1 else 0)
  }

  /** `a & !m`: the bits of `a` that `m` does not have. */
  function AndNot(a: nat, m: nat): nat {
    if a == 0 then 0
    else 2 * AndNot(a / 2, m / 2) + (if a % 2 == 1 && m % 2 == 0 then 1 else 0)
  }

  /** Number of bits up to and including the highest one that is set. */
  function BitLength(x: nat): nat {
    if x == 0 then 0 else 1 + BitLength(x / 2)
  }

  /** Leading zeros of a 64-bit word. */
  function LeadingZeros(x: u64): nat {
    BitLengthBound(x, 64);
    64 - BitLength(x)
  }

  function Pow2(k: nat): (r: nat)
    ensures r > 0
  {
    if k == 0 then 1 else 2 * Pow2(k - 1)
  }

  lemma BitLengthBound(x: nat, k: nat)
    requires x < Pow2(k) || (k == 64 && x < U64_RANGE)
    ensures BitLength(x) <= k
  {
    if k == 64 { assert Pow2(64) == U64_RANGE by { Pow2At64(); } }
    if x != 0 && k != 0 { BitLengthBound(x / 2, k - 1); }
  }

  lemma Pow2At64()
    ensures Pow2(64) == U64_RANGE
    ensures Pow2(6) == 64
  {
    assert Pow2(6) == 64;
    assert Pow2(8) == 256;
    Pow2Add(8, 8);
    Pow2Double(16, 0x1_0000);
    Pow2Double(32, 0x1_0000_0000);
  }

  lemma Pow2Double(k: nat, p: nat)
    requires Pow2(k) == p
    ensures Pow2(2 * k) == p * p
  {
    Pow2Add(k, k);
  }

  lemma {:induction false} Pow2Add(j: nat, k: nat)
    ensures Pow2(j + k) == Pow2(j) * Pow2(k)
  {
    if j != 0 {
      Pow2Add(j - 1, k);
      assert 2 * (Pow2(j - 1) * Pow2(k)) == (2 * Pow2(j - 1)) * Pow2(k);
    }
  }

  lemma {:induction false} XorZeroIffEqual(a: nat, b: nat)
    ensures Xor(a, b) == 0 <==> a == b
  {
    if a != 0 || b != 0 { XorZeroIffEqual(a / 2, b / 2); }
  }

  /** The low six bits do not reach the quotient by 64. */
  lemma XorQuotient64(a: nat, b: nat)
    ensures Xor(a, b) / 64 == Xor(a / 64, b / 64)
  {
    hide Xor;
    XorHalf(a, b);
    XorHalf(a / 2, b / 2);
    XorHalf(a / 4, b / 4);
    XorHalf(a / 8, b / 8);
    XorHalf(a / 16, b / 16);
    XorHalf(a / 32, b / 32);
  }

  lemma XorHalf(a: nat, b: nat)
    ensures Xor(a, b) / 2 == Xor(a / 2, b / 2)
  {
  }

  /** Setting the low `k` bits leaves the rest of the word alone. */
  lemma {:induction false} OrLowBits(x: nat, k: nat)
    ensures Or(x, Pow2(k) - 1) == x - x % Pow2(k) + Pow2(k) - 1
  {
    if k == 0 {
      OrZero(x);
    } else {
      OrLowBits(x / 2, k - 1);
      hide Or;
      var p := Pow2(k - 1);
      OrOdd(x, p - 1);
      ModDouble(x, p);
    }
  }

  lemma OrOdd(a: nat, m: nat)
    ensures Or(a, 2 * m + 1) == 2 * Or(a / 2, m) + 1
  {
    assert (2 * m + 1) / 2 == m && (2 * m + 1) % 2 == 1;
  }

  lemma {:induction false} OrZero(x: nat)
    ensures Or(x, 0) == x
  {
    if x != 0 { OrZero(x / 2); }
  }

  lemma BitLength64(x: nat)
    requires x >= 64
    ensures BitLength(x) == 6 + BitLength(x / 64)
  {
    assert BitLength(x) == 1 + BitLength(x / 2);
    assert BitLength(x / 2) == 1 + BitLength(x / 4);
    assert BitLength(x / 4) == 1 + BitLength(x / 8);
    assert BitLength(x / 8) == 1 + BitLength(x / 16);
    assert BitLength(x / 16) == 1 + BitLength(x / 32);
    assert BitLength(x / 32) == 1 + BitLength(x / 64);
  }

  /** Clearing the low `k` bits rounds down to a multiple of 2^k. */
  lemma {:induction false} AndNotRoundsDown(a: nat, k: nat)
    ensures AndNot(a, Pow2(k) - 1) == a - a % Pow2(k)
  {
    if k == 0 {
      AndNotZero(a);
    } else {
      AndNotRoundsDown(a / 2, k - 1);
      hide AndNot;
      var p := Pow2(k - 1);
      AndNotOdd(a, p - 1);
      ModDouble(a, p);
    }
  }

  lemma AndNotOdd(a: nat, m: nat)
    ensures AndNot(a, 2 * m + 1) == 2 * AndNot(a / 2, m)
  {
    assert (2 * m + 1) / 2 == m && (2 * m + 1) % 2 == 1;
  }

  lemma ModDouble(a: nat, p: nat)
    requires p > 0
    ensures a % (2 * p) == 2 * ((a / 2) % p) + a % 2
  {
    var q, r := (a / 2) / p, (a / 2) % p;
    assert a == (2 * p) * q + (2 * r + a % 2);
    ModUnique(a, 2 * p, q, 2 * r + a % 2);
  }

  lemma {:induction false} AndNotZero(a: nat)
    ensures AndNot(a, 0) == a
  {
    if a != 0 { AndNotZero(a / 2); }
  }

  /** Quotient and remainder are unique. */
  lemma ModUnique(a: nat, d: nat, q: nat, r: nat)
    requires d > 0 && r < d && a == d * q + r
    ensures a / d == q && a % d == r
  {
    var q', r' := a / d, a % d;
    assert a == d * q' + r';
    if q' < q {
      assert d * q >= d * (q' + 1) by { MulMono(d, q' + 1, q); }
      assert false;
    } else if q < q' {
      assert d * q' >= d * (q + 1) by { MulMono(d, q + 1, q'); }
      assert false;
    }
  }

  lemma MulMono(d: nat, a: nat, b: nat)
    requires a <= b
    ensures d * a <= d * b
  {
  }

  lemma DivMono(a: nat, b: nat, d: nat)
    requires d > 0 && a <= b
    ensures a / d <= b / d
  {
    if a / d > b / d {
      MulMono(d, b / d + 1, a / d);
      assert false;
    }
  }

  lemma DivDiv(a: nat, b: nat, c: nat)
    requires b > 0 && c > 0
    ensures b * c > 0
    ensures a / (b * c) == (a / b) / c
  {
    var q := a / b;
    var r := a % b;
    var q2, r2 := q / c, q % c;
    assert a == b * (c * q2 + r2) + r;
    assert b * (c * q2 + r2) == (b * c) * q2 + b * r2;
    assert b * r2 + r < b * c by { MulMono(b, r2 + 1, c); }
    ModUnique(a, b * c, q2, b * r2 + r);
  }
}
