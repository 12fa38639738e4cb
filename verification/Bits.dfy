/** JavaScript's bit operators on non-negative integers, bit by bit, and the
    arithmetic that a codec's uses of them amount to. */
module Bits {

  function And(a: nat, b: nat): nat
    decreases a
  {
    if a == 0 || b == 0 then 0 else (if a % 2 == 1 && b % 2 == 1 then 1 else 0) + 2 * And(a / 2, b / 2)
  }

  function Or(a: nat, b: nat): nat
    decreases a + b
  {
    if a == 0 then b else if b == 0 then a
    else (if a % 2 == 1 || b % 2 == 1 then 1 else 0) + 2 * Or(a / 2, b / 2)
  }

  /** `a >> k` drops the lowest bit k times. */
  function Shr(a: nat, k: nat): nat { if k == 0 then a else Shr(a / 2, k - 1) }

  /** `a << k` adds a zero bit k times. */
  function Shl(a: nat, k: nat): nat
    decreases k
  {
    if k == 0 then a else Shl(2 * a, k - 1)
  }

  function Pow2(k: nat): (p: nat)
    ensures p >= 1
  {
    if k == 0 then 1 else 2 * Pow2(k - 1)
  }

  lemma Powers()
    ensures Pow2(2) == 4 && Pow2(3) == 8 && Pow2(4) == 0x10 && Pow2(5) == 0x20 && Pow2(6) == 0x40
    ensures Pow2(10) == 0x400 && Pow2(12) == 0x1000 && Pow2(18) == 0x40000
  {
    assert Pow2(1) == 2 && Pow2(2) == 4 && Pow2(3) == 8;
    assert Pow2(4) == 0x10 && Pow2(5) == 0x20 && Pow2(6) == 0x40 && Pow2(7) == 0x80 && Pow2(8) == 0x100 && Pow2(9) == 0x200;
    assert Pow2(10) == 0x400 && Pow2(11) == 0x800 && Pow2(12) == 0x1000 && Pow2(13) == 0x2000 && Pow2(14) == 0x4000;
    assert Pow2(15) == 0x8000 && Pow2(16) == 0x10000 && Pow2(17) == 0x20000;
  }

  lemma Multiples(d: int, z: int)
    requires d >= 0
    ensures z >= 1 ==> d * z >= d
    ensures z <= -1 ==> d * z <= -d
  {
  }

  lemma DivMod(a: nat, d: nat, q: nat, r: nat)
    requires a == d * q + r && r < d
    ensures a / d == q && a % d == r
  {
    var z := a / d - q;
    assert d * z == d * (a / d) - d * q;
    Multiples(d, z);
  }

  lemma Regroup(p: nat, q: nat, r: nat, bit: nat)
    ensures 2 * (q * p + r) + bit == (2 * p) * q + (2 * r + bit)
  {
  }

  lemma HalfDivided(a: nat, p: nat)
    requires p >= 1
    ensures a / 2 / p == a / (2 * p) && a % (2 * p) == a % 2 + 2 * (a / 2 % p)
  {
    var q, r := a / 2 / p, a / 2 % p;
    assert a / 2 == q * p + r;
    Regroup(p, q, r, a % 2);
    DivMod(a, 2 * p, q, 2 * r + a % 2);
  }

  lemma {:induction false} ShiftRight(a: nat, k: nat)
    ensures Shr(a, k) == a / Pow2(k)
  {
    if k > 0 {
      ShiftRight(a / 2, k - 1);
      HalfDivided(a, Pow2(k - 1));
    }
  }

  lemma {:induction false} ShiftLeft(a: nat, k: nat)
    ensures Shl(a, k) == a * Pow2(k)
    decreases k
  {
    if k > 0 { ShiftLeft(2 * a, k - 1); }
  }

  /** A mask of the k lowest bits keeps the remainder. */
  lemma {:induction false} LowBits(a: nat, k: nat)
    ensures And(a, Pow2(k) - 1) == a % Pow2(k)
  {
    if k > 0 {
      LowBits(a / 2, k - 1);
      HalfDivided(a, Pow2(k - 1));
      assert (Pow2(k) - 1) % 2 == 1 && (Pow2(k) - 1) / 2 == Pow2(k - 1) - 1;
    }
  }

  lemma OrEven(x: nat, b: nat)
    ensures Or(2 * x, b) == b % 2 + 2 * Or(x, b / 2)
  {
  }

  lemma Twice(a: nat, p: nat)
    ensures a * (2 * p) == 2 * (a * p)
  {
  }

  /** Bits above and below position k do not meet. */
  lemma {:induction false} Disjoint(a: nat, b: nat, k: nat)
    requires b < Pow2(k)
    ensures Or(a * Pow2(k), b) == a * Pow2(k) + b
  {
    if k > 0 {
      Twice(a, Pow2(k - 1));
      Disjoint(a, b / 2, k - 1);
      OrEven(a * Pow2(k - 1), b);
    }
  }

  lemma Halved(a: nat, b: nat, c: nat, d: nat)
    requires b == 2 * d && c == a / 2
    ensures And(a, b) == 2 * And(c, d)
  {
  }

  /** The mask 0xC0 keeps the two highest bits of an octet. */
  lemma HighestTwo(b: nat)
    requires b < 0x100
    ensures And(b, 0xC0) == b / 0x40 * 0x40
  {
    var c := b / 2;
    var d := c / 2;
    var e := d / 2;
    var f := e / 2;
    var g := f / 2;
    Halved(b, 0xC0, c, 0x60);
    Halved(c, 0x60, d, 0x30);
    Halved(d, 0x30, e, 0x18);
    Halved(e, 0x18, f, 0xC);
    Halved(f, 0xC, g, 6);
    Halved(g, 6, b / 0x40, 3);
    LowestTwo(b / 0x40);
  }

  lemma LowestTwo(q: nat)
    ensures And(q, 3) == q % 4
  {
    LowBits(q, 2);
    Powers();
  }

  lemma LowMasks(a: nat)
    ensures And(a, 0x07) == a % 8 && And(a, 0x0F) == a % 0x10 && And(a, 0x1F) == a % 0x20 && And(a, 0x3F) == a % 0x40
  {
    LowBits(a, 3);
    LowBits(a, 4);
    LowBits(a, 5);
    LowBits(a, 6);
    Powers();
  }
}
