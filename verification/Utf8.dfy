/** The UTF-8 codec that the mini-program installs when the platform has none.

    Code units, bytes and code points are bounded naturals.  The reference
    definitions follow RFC 3629 (sections 3 and 4) and RFC 2781 (section 2) and
    use arithmetic; the methods at the end follow the polyfill branch by branch
    and use its bit operators, which the facts in between relate to the arithmetic. */
module Utf8 {
  import opened Bits

  type Unit = x: nat | x < 0x10000
  type Byte = x: nat | x < 0x100
  type Code = nat

  const REPLACEMENT: Code := 0xFFFD

  predicate High(u: Unit) { 0xD800 <= u <= 0xDBFF }

  predicate Low(u: Unit) { 0xDC00 <= u <= 0xDFFF }

  predicate Surrogate(u: Unit) { High(u) || Low(u) }

  predicate IsScalar(c: Code) { c <= 0x10FFFF && !(0xD800 <= c <= 0xDFFF) }

  // ---------------------------------------------------------------- UTF-16

  /** RFC 2781, section 2.2: the scalar value of a surrogate pair. */
  function PairCode(h: Unit, l: Unit): Code
    requires High(h) && Low(l)
  {
    0x10000 + (h - 0xD800) * 0x400 + (l - 0xDC00)
  }

  predicate StartsWithPair(s: seq<Unit>) {
    |s| >= 2 && High(s[0]) && Low(s[1])
  }

  /** How many units the first scalar of `s` takes. */
  function UnitsOfFirst(s: seq<Unit>): (n: nat)
    requires s != []
    ensures 1 <= n <= |s|
  {
    if StartsWithPair(s) then 2 else 1
  }

  /** The first scalar of `s`; a surrogate outside a pair reads as U+FFFD. */
  function FirstScalar(s: seq<Unit>): (c: Code)
    requires s != []
    ensures IsScalar(c)
  {
    if StartsWithPair(s) then PairCode(s[0], s[1])
    else if Surrogate(s[0]) then REPLACEMENT
    else s[0]
  }

  function Scalars(s: seq<Unit>): (cs: seq<Code>)
    ensures AllScalars(cs)
  {
    if s == [] then [] else [FirstScalar(s)] + Scalars(s[UnitsOfFirst(s)..])
  }

  // The two halves of `v`, the code point less 0x10000.
  function HighOf(v: nat): Unit requires v <= 0xFFFFF { 0xD800 + v / 0x400 }

  function LowOf(v: nat): Unit { 0xDC00 + v % 0x400 }

  /** RFC 2781, section 2.1: the units of one scalar value. */
  function UnitsOf(c: Code): (u: seq<Unit>)
    requires IsScalar(c)
    ensures 1 <= |u| <= 2
  {
    if c <= 0xFFFF then [c] else [HighOf(c - 0x10000), LowOf(c - 0x10000)]
  }

  ghost predicate AllScalars(cs: seq<Code>) { forall i | 0 <= i < |cs| :: IsScalar(cs[i]) }

  function UnitsOfAll(cs: seq<Code>): seq<Unit>
    requires AllScalars(cs)
  {
    if cs == [] then [] else UnitsOf(cs[0]) + UnitsOfAll(cs[1..])
  }

  /** Position `i` holds a surrogate that has no partner. */
  predicate LoneAt(s: seq<Unit>, i: nat)
    requires i < |s|
  {
    || (High(s[i]) && !(i + 1 < |s| && Low(s[i + 1])))
    || (Low(s[i]) && !(i > 0 && High(s[i - 1])))
  }

  /** `s` with every unpaired surrogate replaced by U+FFFD. */
  function Repair(s: seq<Unit>): (r: seq<Unit>)
    ensures |r| == |s|
  {
    seq(|s|, i requires 0 <= i < |s| => if LoneAt(s, i) then 0xFFFD else s[i])
  }

  ghost predicate WellFormedUnits(s: seq<Unit>) { forall i | 0 <= i < |s| :: !LoneAt(s, i) }

  // ----------------------------------------------------------------- UTF-8

  function Lead2(c: Code): Byte requires c <= 0x7FF { 0xC0 + c / 0x40 }

  function Lead3(c: Code): Byte requires c <= 0xFFFF { 0xE0 + c / 0x1000 }

  function Lead4(c: Code): Byte requires c <= 0x10FFFF { 0xF0 + c / 0x40000 }

  /** A continuation octet carrying the six lowest bits of `c`. */
  function Cont(c: Code): Byte { 0x80 + c % 0x40 }

  /** RFC 3629, section 3: the octets of one scalar value. */
  function BytesOf(c: Code): (b: seq<Byte>)
    requires IsScalar(c)
    ensures 1 <= |b| <= 4
  {
    if c <= 0x7F then [c]
    else if c <= 0x7FF then [Lead2(c), Cont(c)]
    else if c <= 0xFFFF then [Lead3(c), Cont(c / 0x40), Cont(c)]
    else [Lead4(c), Cont(c / 0x1000), Cont(c / 0x40), Cont(c)]
  }

  function BytesOfAll(cs: seq<Code>): seq<Byte>
    requires AllScalars(cs)
  {
    if cs == [] then [] else BytesOf(cs[0]) + BytesOfAll(cs[1..])
  }

  predicate Tail(b: Byte) { 0x80 <= b <= 0xBF }

  // The productions UTF8-2, UTF8-3 and UTF8-4 of RFC 3629, section 4.
  predicate Two(a: Byte, b: Byte) { 0xC2 <= a <= 0xDF && Tail(b) }

  predicate Three(a: Byte, b: Byte, c: Byte) {
    || (a == 0xE0 && 0xA0 <= b <= 0xBF && Tail(c))
    || (0xE1 <= a <= 0xEC && Tail(b) && Tail(c))
    || (a == 0xED && 0x80 <= b <= 0x9F && Tail(c))
    || (0xEE <= a <= 0xEF && Tail(b) && Tail(c))
  }

  predicate Four(a: Byte, b: Byte, c: Byte, d: Byte) {
    || (a == 0xF0 && 0x90 <= b <= 0xBF && Tail(c) && Tail(d))
    || (0xF1 <= a <= 0xF3 && Tail(b) && Tail(c) && Tail(d))
    || (a == 0xF4 && 0x80 <= b <= 0x8F && Tail(c) && Tail(d))
  }

  /** Length of the UTF8-char that `b` starts with; 0 when it starts with none. */
  function CharLength(b: seq<Byte>): (n: nat)
    ensures n <= |b| && n <= 4
  {
    if |b| >= 1 && b[0] <= 0x7F then 1
    else if |b| >= 2 && Two(b[0], b[1]) then 2
    else if |b| >= 3 && Three(b[0], b[1], b[2]) then 3
    else if |b| >= 4 && Four(b[0], b[1], b[2], b[3]) then 4
    else 0
  }

  /** UTF8-octets of RFC 3629, section 4. */
  predicate WellFormed(b: seq<Byte>) {
    b == [] || (CharLength(b) > 0 && WellFormed(b[CharLength(b)..]))
  }

  function Join2(a: Byte, b: Byte): Code { (a % 0x20) * 0x40 + b % 0x40 }

  function Join3(a: Byte, b: Byte, c: Byte): Code { (a % 0x10) * 0x1000 + (b % 0x40) * 0x40 + c % 0x40 }

  function Join4(a: Byte, b: Byte, c: Byte, d: Byte): Code {
    (a % 8) * 0x40000 + (b % 0x40) * 0x1000 + (c % 0x40) * 0x40 + d % 0x40
  }

  /** The scalar value of the UTF8-char that `b` starts with. */
  function ScalarOf(b: seq<Byte>): Code
    requires CharLength(b) > 0
  {
    match CharLength(b)
    case 1 => b[0]
    case 2 => Join2(b[0], b[1])
    case 3 => Join3(b[0], b[1], b[2])
    case _ => Join4(b[0], b[1], b[2], b[3])
  }

  /** A valid scalar per UTF8-char, U+FFFD for each byte that starts none. */
  function ScalarsOf(b: seq<Byte>): (cs: seq<Code>)
    ensures AllScalars(cs)
  {
    if b == [] then []
    else if CharLength(b) > 0 then
      CharReadBack(b);
      [ScalarOf(b)] + ScalarsOf(b[CharLength(b)..])
    else [REPLACEMENT] + ScalarsOf(b[1..])
  }

  // ------------------------------------------------ facts about one scalar

  // The polyfill's bit operations, one fact per definition.

  lemma Lead2Bits(c: Code)
    requires c <= 0x7FF
    ensures Or(0xC0, Shr(c, 6)) == Lead2(c)
  {
    Powers();
    ShiftRight(c, 6);
    Disjoint(3, c / 0x40, 6);
  }

  lemma Lead3Bits(c: Code)
    requires c <= 0xFFFF
    ensures Or(0xE0, Shr(c, 12)) == Lead3(c)
  {
    Powers();
    ShiftRight(c, 12);
    Disjoint(14, c / 0x1000, 4);
  }

  lemma Lead4Bits(c: Code)
    requires c <= 0x10FFFF
    ensures Or(0xF0, Shr(c, 18)) == Lead4(c)
  {
    Powers();
    ShiftRight(c, 18);
    Disjoint(30, c / 0x40000, 3);
  }

  lemma ContBits(c: Code)
    ensures Or(0x80, And(c, 0x3F)) == Cont(c)
  {
    Powers();
    LowBits(c, 6);
    Disjoint(2, c % 0x40, 6);
  }

  lemma ShiftedCont(c: Code)
    ensures Or(0x80, And(Shr(c, 6), 0x3F)) == Cont(c / 0x40) && Or(0x80, And(Shr(c, 12), 0x3F)) == Cont(c / 0x1000)
  {
    Powers();
    ShiftRight(c, 6);
    ShiftRight(c, 12);
    ContBits(c / 0x40);
    ContBits(c / 0x1000);
  }

  lemma Join2Bits(a: Byte, b: Byte)
    ensures Or(Shl(And(a, 0x1F), 6), And(b, 0x3F)) == Join2(a, b)
  {
    Powers();
    LowBits(a, 5);
    LowBits(b, 6);
    ShiftLeft(a % 0x20, 6);
    Disjoint(a % 0x20, b % 0x40, 6);
  }

  lemma ThreeParts(x: nat, y: nat, z: nat)
    requires y < 0x40 && z < 0x40
    ensures Or(Or(Shl(x, 12), Shl(y, 6)), z) == x * 0x1000 + y * 0x40 + z
  {
    Powers();
    var q := y * 0x40;
    ShiftLeft(x, 12);
    ShiftLeft(y, 6);
    Disjoint(x, q, 12);
    Disjoint(x * 0x40 + y, z, 6);
  }

  lemma FourParts(w: nat, x: nat, y: nat, z: nat)
    requires x < 0x40 && y < 0x40 && z < 0x40
    ensures Or(Or(Or(Shl(w, 18), Shl(x, 12)), Shl(y, 6)), z) == w * 0x40000 + x * 0x1000 + y * 0x40 + z
  {
    Powers();
    var p, q := x * 0x1000, y * 0x40;
    ShiftLeft(w, 18);
    ShiftLeft(x, 12);
    ShiftLeft(y, 6);
    Disjoint(w, p, 18);
    Disjoint(w * 0x40 + x, q, 12);
    Disjoint(w * 0x1000 + x * 0x40 + y, z, 6);
  }

  lemma Join3Bits(a: Byte, b: Byte, c: Byte)
    ensures Or(Or(Shl(And(a, 0x0F), 12), Shl(And(b, 0x3F), 6)), And(c, 0x3F)) == Join3(a, b, c)
  {
    LowMasks(a);
    LowMasks(b);
    LowMasks(c);
    ThreeParts(a % 0x10, b % 0x40, c % 0x40);
  }

  lemma Join4Bits(a: Byte, b: Byte, c: Byte, d: Byte)
    ensures Or(Or(Or(Shl(And(a, 0x07), 18), Shl(And(b, 0x3F), 12)), Shl(And(c, 0x3F), 6)), And(d, 0x3F)) == Join4(a, b, c, d)
  {
    LowMasks(a);
    LowMasks(b);
    LowMasks(c);
    LowMasks(d);
    FourParts(a % 8, b % 0x40, c % 0x40, d % 0x40);
  }

  lemma HalvesBits(v: nat)
    requires v <= 0xFFFFF
    ensures 0xD800 + Shr(v, 10) == HighOf(v) && 0xDC00 + And(v, 0x3FF) == LowOf(v)
  {
    Powers();
    ShiftRight(v, 10);
    LowBits(v, 10);
  }

  lemma TailBits(b: Byte)
    ensures And(b, 0xC0) == 0x80 <==> Tail(b)
  {
    HighestTwo(b);
    TailByHighest(b, And(b, 0xC0));
  }

  lemma TailByHighest(b: Byte, h: nat)
    requires h == b / 0x40 * 0x40
    ensures h == 0x80 <==> Tail(b)
  {
  }

  lemma Digit(q: nat, r: nat)
    requires r < 0x40
    ensures (q * 0x40 + r) / 0x40 == q && (q * 0x40 + r) % 0x40 == r
  {
  }

  lemma Digits(c: nat)
    ensures (c / 0x40) / 0x40 == c / 0x1000 && (c / 0x1000) / 0x40 == c / 0x40000
  {
  }

  lemma Bits2(c: Code)
    requires 0x80 <= c <= 0x7FF
    ensures Two(Lead2(c), Cont(c)) && Join2(Lead2(c), Cont(c)) == c
  {
  }

  lemma Bits3(c: Code)
    requires 0x800 <= c <= 0xFFFF && IsScalar(c)
    ensures Three(Lead3(c), Cont(c / 0x40), Cont(c)) && Join3(Lead3(c), Cont(c / 0x40), Cont(c)) == c
  {
    Digits(c);
  }

  lemma Bits4(c: Code)
    requires 0x10000 <= c <= 0x10FFFF
    ensures Four(Lead4(c), Cont(c / 0x1000), Cont(c / 0x40), Cont(c))
    ensures Join4(Lead4(c), Cont(c / 0x1000), Cont(c / 0x40), Cont(c)) == c
  {
    Digits(c);
  }

  lemma Bits2Back(a: Byte, b: Byte)
    requires Two(a, b)
    ensures 0x80 <= Join2(a, b) <= 0x7FF
    ensures Lead2(Join2(a, b)) == a && Cont(Join2(a, b)) == b
  {
    Digit(a % 0x20, b % 0x40);
  }

  lemma ThreeDigits(x: nat, y: nat, z: nat)
    requires y < 0x40 && z < 0x40
    ensures (x * 0x1000 + y * 0x40 + z) / 0x1000 == x
    ensures (x * 0x1000 + y * 0x40 + z) / 0x40 % 0x40 == y && (x * 0x1000 + y * 0x40 + z) % 0x40 == z
  {
    Digits(x * 0x1000 + y * 0x40 + z);
    Digit(x * 0x40 + y, z);
    Digit(x, y);
  }

  lemma Bits3Back(a: Byte, b: Byte, c: Byte)
    requires Three(a, b, c)
    ensures 0x800 <= Join3(a, b, c) <= 0xFFFF && IsScalar(Join3(a, b, c))
    ensures Lead3(Join3(a, b, c)) == a && Cont(Join3(a, b, c) / 0x40) == b && Cont(Join3(a, b, c)) == c
  {
    assert a % 0x10 == a - 0xE0 && b % 0x40 == b - 0x80 && c % 0x40 == c - 0x80;
    ThreeDigits(a - 0xE0, b - 0x80, c - 0x80);
  }

  lemma FourDigits(w: nat, x: nat, y: nat, z: nat)
    requires x < 0x40 && y < 0x40 && z < 0x40
    ensures var c := w * 0x40000 + x * 0x1000 + y * 0x40 + z;
            c / 0x40000 == w && c / 0x1000 % 0x40 == x && c / 0x40 % 0x40 == y && c % 0x40 == z
  {
    Digits(w * 0x40000 + x * 0x1000 + y * 0x40 + z);
    ThreeDigits(w * 0x40 + x, y, z);
    Digit(w, x);
  }

  lemma Bits4Back(a: Byte, b: Byte, c: Byte, d: Byte)
    requires Four(a, b, c, d)
    ensures 0x10000 <= Join4(a, b, c, d) <= 0x10FFFF
    ensures Lead4(Join4(a, b, c, d)) == a && Cont(Join4(a, b, c, d) / 0x1000) == b
    ensures Cont(Join4(a, b, c, d) / 0x40) == c && Cont(Join4(a, b, c, d)) == d
  {
    Unmarked4(a, b, c, d);
    FourDigits(a - 0xF0, b - 0x80, c - 0x80, d - 0x80);
  }

  /** The digits of the code point, without the marks of the octets. */
  lemma Unmarked4(a: Byte, b: Byte, c: Byte, d: Byte)
    requires Four(a, b, c, d)
    ensures Join4(a, b, c, d) == (a - 0xF0) * 0x40000 + (b - 0x80) * 0x1000 + (c - 0x80) * 0x40 + (d - 0x80)
  {
    assert a % 8 == a - 0xF0;
    assert b % 0x40 == b - 0x80;
    assert c % 0x40 == c - 0x80;
    assert d % 0x40 == d - 0x80;
  }

  lemma UnitsReadBack(c: Code, rest: seq<Unit>)
    requires IsScalar(c)
    ensures FirstScalar(UnitsOf(c) + rest) == c && UnitsOfFirst(UnitsOf(c) + rest) == |UnitsOf(c)|
  {
    var s := UnitsOf(c) + rest;
    if c <= 0xFFFF {
      assert s[0] == c;
    } else {
      assert s[0] == HighOf(c - 0x10000) && s[1] == LowOf(c - 0x10000);
    }
  }

  lemma BytesReadBack(c: Code, rest: seq<Byte>)
    requires IsScalar(c)
    ensures CharLength(BytesOf(c) + rest) == |BytesOf(c)|
    ensures ScalarOf(BytesOf(c) + rest) == c
  {
    if 0x80 <= c <= 0x7FF { Bits2(c); }
    else if 0x800 <= c <= 0xFFFF { Bits3(c); }
    else if c >= 0x10000 { Bits4(c); }
  }

  lemma CharReadBack(b: seq<Byte>)
    requires CharLength(b) > 0
    ensures IsScalar(ScalarOf(b)) && BytesOf(ScalarOf(b)) == b[..CharLength(b)]
  {
    match CharLength(b)
    case 1 =>
    case 2 => Bits2Back(b[0], b[1]);
    case 3 => Bits3Back(b[0], b[1], b[2]);
    case _ => Bits4Back(b[0], b[1], b[2], b[3]);
  }

  // ------------------------------------------------------- whole sequences

  /** What the encoder has to produce, and what the decoder has to. */
  function Encode(s: seq<Unit>): seq<Byte> { BytesOfAll(Scalars(s)) }

  function Decode(b: seq<Byte>): seq<Unit> { UnitsOfAll(ScalarsOf(b)) }

  lemma {:induction false} ScalarsOfUnits(cs: seq<Code>)
    requires AllScalars(cs)
    ensures Scalars(UnitsOfAll(cs)) == cs
  {
    if cs != [] {
      var u, rest := UnitsOf(cs[0]), UnitsOfAll(cs[1..]);
      UnitsReadBack(cs[0], rest);
      ScalarsOfUnits(cs[1..]);
      assert (u + rest)[|u|..] == rest;
    }
  }

  lemma {:induction false} ScalarsOfBytes(cs: seq<Code>)
    requires AllScalars(cs)
    ensures WellFormed(BytesOfAll(cs)) && ScalarsOf(BytesOfAll(cs)) == cs
  {
    if cs != [] {
      var b, rest := BytesOf(cs[0]), BytesOfAll(cs[1..]);
      BytesReadBack(cs[0], rest);
      ScalarsOfBytes(cs[1..]);
      assert (b + rest)[|b|..] == rest;
    }
  }

  lemma {:induction false} BytesOfScalars(b: seq<Byte>)
    requires WellFormed(b)
    ensures BytesOfAll(ScalarsOf(b)) == b
  {
    if b != [] {
      CharReadBack(b);
      BytesOfScalars(b[CharLength(b)..]);
    }
  }

  lemma PairReadBack(h: Unit, l: Unit)
    requires High(h) && Low(l)
    ensures UnitsOf(PairCode(h, l)) == [h, l]
  {
  }

  lemma FirstUnits(s: seq<Unit>)
    requires s != []
    ensures UnitsOf(FirstScalar(s))
         == if StartsWithPair(s) then s[..2] else [if Surrogate(s[0]) then 0xFFFD else s[0]]
  {
    if StartsWithPair(s) { PairReadBack(s[0], s[1]); }
  }

  lemma FirstRepaired(s: seq<Unit>)
    requires s != []
    ensures UnitsOf(FirstScalar(s)) + Repair(s[UnitsOfFirst(s)..]) == Repair(s)
  {
    FirstUnits(s);
    var n, t := UnitsOfFirst(s), s[UnitsOfFirst(s)..];
    forall i | n <= i < |s| ensures LoneAt(s, i) == LoneAt(t, i - n) {
      assert t[i - n] == s[i];
    }
  }

  lemma {:induction false} UnitsOfScalars(s: seq<Unit>)
    ensures UnitsOfAll(Scalars(s)) == Repair(s)
  {
    if s != [] {
      FirstRepaired(s);
      UnitsOfScalars(s[UnitsOfFirst(s)..]);
    }
  }

  /** Decoding what was encoded gives the text back, lone surrogates repaired. */
  lemma {:induction false} DecodeEncode(s: seq<Unit>)
    ensures Decode(Encode(s)) == Repair(s)
    ensures WellFormedUnits(s) ==> Decode(Encode(s)) == s
  {
    ScalarsOfBytes(Scalars(s));
    UnitsOfScalars(s);
  }

  /** Re-encoding is the identity exactly on the octets RFC 3629 admits. */
  lemma {:induction false} EncodeDecode(b: seq<Byte>)
    ensures Encode(Decode(b)) == b <==> WellFormed(b)
  {
    ScalarsOfUnits(ScalarsOf(b));
    ScalarsOfBytes(ScalarsOf(b));
    if WellFormed(b) { BytesOfScalars(b); }
  }

  lemma {:induction false} EncodedLength(s: seq<Unit>)
    ensures |Encode(s)| <= 3 * |s|
  {
    if s != [] {
      EncodedLength(s[UnitsOfFirst(s)..]);
      assert |BytesOf(FirstScalar(s))| <= 3 * UnitsOfFirst(s);
    }
  }

  /** Whatever the input, the octets are well formed and at most three a unit. */
  lemma {:induction false} EncodeIsWellFormed(s: seq<Unit>)
    ensures WellFormed(Encode(s)) && |Encode(s)| <= 3 * |s|
  {
    ScalarsOfBytes(Scalars(s));
    EncodedLength(s);
  }

  lemma {:induction false} DecodedLength(b: seq<Byte>)
    ensures |Decode(b)| <= |b|
  {
    if b != [] {
      if CharLength(b) > 0 {
        CharReadBack(b);
        DecodedLength(b[CharLength(b)..]);
      } else {
        DecodedLength(b[1..]);
      }
    }
  }

  /** Whatever the octets, no lone surrogate comes out and no more units than octets went in. */
  lemma {:induction false} DecodeIsWellFormed(b: seq<Byte>)
    ensures WellFormedUnits(Decode(b)) && |Decode(b)| <= |b|
  {
    DecodedLength(b);
    var u := Decode(b);
    ScalarsOfUnits(ScalarsOf(b));
    UnitsOfScalars(u);
    assert forall i | 0 <= i < |u| :: Repair(u)[i] == u[i];
  }

  predicate SplitsPair(a: seq<Unit>, b: seq<Unit>) {
    a != [] && b != [] && High(a[|a| - 1]) && Low(b[0])
  }

  lemma Associative<T>(a: seq<T>, b: seq<T>, c: seq<T>)
    ensures a + (b + c) == a + b + c
  {
  }

  lemma {:induction false} BytesOfConcat(x: seq<Code>, y: seq<Code>)
    requires AllScalars(x) && AllScalars(y)
    ensures AllScalars(x + y) && BytesOfAll(x + y) == BytesOfAll(x) + BytesOfAll(y)
  {
    if x == [] {
      assert x + y == y;
    } else {
      assert (x + y)[1..] == x[1..] + y;
      BytesOfConcat(x[1..], y);
      Associative(BytesOf(x[0]), BytesOfAll(x[1..]), BytesOfAll(y));
    }
  }

  lemma FirstOfConcat(a: seq<Unit>, b: seq<Unit>)
    requires a != [] && (|a| > 1 || !SplitsPair(a, b))
    ensures FirstScalar(a + b) == FirstScalar(a) && UnitsOfFirst(a + b) == UnitsOfFirst(a)
  {
    assert |a| > 1 ==> (a + b)[1] == a[1];
  }

  lemma {:induction false} ScalarsOfConcat(a: seq<Unit>, b: seq<Unit>)
    requires !SplitsPair(a, b)
    ensures Scalars(a + b) == Scalars(a) + Scalars(b)
  {
    if a == [] {
      assert a + b == b;
    } else {
      var n := UnitsOfFirst(a);
      FirstOfConcat(a, b);
      assert (a + b)[n..] == a[n..] + b;
      ScalarsOfConcat(a[n..], b);
    }
  }

  lemma {:induction false} SplitPairIsLonger(a: seq<Unit>, b: seq<Unit>)
    requires SplitsPair(a, b)
    ensures |Encode(a + b)| < |Encode(a)| + |Encode(b)|
  {
    var n := UnitsOfFirst(a);
    if |a| == 1 {
      assert (a + b)[2..] == b[1..] && a[1..] == [];
      assert |BytesOf(PairCode(a[0], b[0]))| == 4;
    } else {
      FirstOfConcat(a, b);
      assert (a + b)[n..] == a[n..] + b;
      SplitPairIsLonger(a[n..], b);
    }
  }

  /** Encoding distributes over a cut unless the cut falls inside a surrogate pair, and then it never does. */
  lemma {:induction false} EncodeConcat(a: seq<Unit>, b: seq<Unit>)
    ensures Encode(a + b) == Encode(a) + Encode(b) <==> !SplitsPair(a, b)
  {
    if SplitsPair(a, b) {
      SplitPairIsLonger(a, b);
    } else {
      ScalarsOfConcat(a, b);
      BytesOfConcat(Scalars(a), Scalars(b));
    }
  }

  // ---------------------------------------------------------- the polyfill

  /** What one turn of the encoder appends. */
  function Chunk(s: seq<Unit>): seq<Byte>
    requires s != []
  {
    BytesOf(FirstScalar(s))
  }

  lemma EncodeFrom(s: seq<Unit>, i: nat)
    requires i < |s|
    ensures i + UnitsOfFirst(s[i..]) <= |s|
    ensures Encode(s[i..]) == Chunk(s[i..]) + Encode(s[i + UnitsOfFirst(s[i..])..])
  {
    var t := s[i..];
    assert t[UnitsOfFirst(t)..] == s[i + UnitsOfFirst(t)..];
  }

  /** The code point read at `index`, and the index of its last unit. */
  method ReadScalar(source: seq<Unit>, index: nat) returns (codePoint: Code, last: nat)
    requires index < |source|
    ensures codePoint == FirstScalar(source[index..])
    ensures last + 1 == index + UnitsOfFirst(source[index..])
  {
    var first: nat := source[index];
    codePoint, last := first, index;
    if first >= 0xD800 && first <= 0xDBFF {
      if index + 1 < |source| && source[index + 1] >= 0xDC00 && source[index + 1] <= 0xDFFF {
        var second: nat := source[index + 1];
        codePoint := 0x10000 + (first - 0xD800) * 0x400 + (second - 0xDC00);
        last := index + 1;
      } else {
        codePoint := 0xFFFD;
      }
    } else if first >= 0xDC00 && first <= 0xDFFF {
      codePoint := 0xFFFD;
    }
  }

  /** The bytes pushed for one code point. */
  method Octets(codePoint: Code) returns (octets: seq<Byte>)
    requires IsScalar(codePoint)
    ensures octets == BytesOf(codePoint)
  {
    ContBits(codePoint);
    if codePoint <= 0x7F {
      octets := [codePoint];
    } else if codePoint <= 0x7FF {
      Lead2Bits(codePoint);
      octets := [Or(0xC0, Shr(codePoint, 6)), Or(0x80, And(codePoint, 0x3F))];
    } else if codePoint <= 0xFFFF {
      Lead3Bits(codePoint);
      ShiftedCont(codePoint);
      octets := [Or(0xE0, Shr(codePoint, 12)), Or(0x80, And(Shr(codePoint, 6), 0x3F)), Or(0x80, And(codePoint, 0x3F))];
    } else {
      Lead4Bits(codePoint);
      ShiftedCont(codePoint);
      octets := [Or(0xF0, Shr(codePoint, 18)), Or(0x80, And(Shr(codePoint, 12), 0x3F)),
                 Or(0x80, And(Shr(codePoint, 6), 0x3F)), Or(0x80, And(codePoint, 0x3F))];
    }
  }

  /** One turn of the encoder's loop: the bytes it pushes and the index it moves to. */
  method EncodeAt(source: seq<Unit>, index: nat) returns (octets: seq<Byte>, next: nat)
    requires index < |source|
    ensures octets == Chunk(source[index..]) && next == index + UnitsOfFirst(source[index..])
  {
    var codePoint, last := ReadScalar(source, index);
    octets := Octets(codePoint);
    next := last + 1;
  }

  method EncodeUtf8(source: seq<Unit>) returns (bytes: seq<Byte>)
    ensures bytes == Encode(source)
  {
    bytes := [];
    var index := 0;
    while index < |source|
      invariant index <= |source|
      invariant bytes + Encode(source[index..]) == Encode(source)
    {
      EncodeFrom(source, index);
      var octets, next := EncodeAt(source, index);
      Associative(bytes, octets, Encode(source[next..]));
      bytes := bytes + octets;
      index := next;
    }
    assert source[index..] == [];
  }

  /** What one turn of the decoder appends, and how far it moves. */
  function StepLength(b: seq<Byte>): (n: nat)
    requires b != []
    ensures 1 <= n <= |b|
  {
    if CharLength(b) > 0 then CharLength(b) else 1
  }

  function StepUnits(b: seq<Byte>): seq<Unit>
    requires b != []
  {
    if CharLength(b) > 0 then CharReadBack(b); UnitsOf(ScalarOf(b)) else [0xFFFD]
  }

  lemma DecodeFrom(b: seq<Byte>, i: nat)
    requires i < |b|
    ensures i + StepLength(b[i..]) <= |b|
    ensures Decode(b[i..]) == StepUnits(b[i..]) + Decode(b[i + StepLength(b[i..])..])
  {
    var t := b[i..];
    assert t[StepLength(t)..] == b[i + StepLength(t)..];
  }

  method IsTail(b: Byte) returns (tail: bool)
    ensures tail <==> Tail(b)
  {
    TailBits(b);
    tail := And(b, 0xC0) == 0x80;
  }

  method ReadTwo(first: Byte, second: Byte) returns (codePoint: Code)
    ensures codePoint == Join2(first, second)
  {
    Join2Bits(first, second);
    codePoint := Or(Shl(And(first, 0x1F), 6), And(second, 0x3F));
  }

  method ReadThree(first: Byte, second: Byte, third: Byte) returns (codePoint: Code)
    ensures codePoint == Join3(first, second, third)
  {
    Join3Bits(first, second, third);
    codePoint := Or(Or(Shl(And(first, 0x0F), 12), Shl(And(second, 0x3F), 6)), And(third, 0x3F));
  }

  method ReadFour(first: Byte, second: Byte, third: Byte, fourth: Byte) returns (codePoint: Code)
    ensures codePoint == Join4(first, second, third, fourth)
  {
    Join4Bits(first, second, third, fourth);
    codePoint := Or(Or(Or(Shl(And(first, 0x07), 18), Shl(And(second, 0x3F), 12)), Shl(And(third, 0x3F), 6)), And(fourth, 0x3F));
  }

  /** The surrogate pair of a code point above 0xFFFF, given less 0x10000. */
  method Halves(adjusted: nat) returns (units: seq<Unit>)
    requires adjusted <= 0xFFFFF
    ensures units == [HighOf(adjusted), LowOf(adjusted)]
  {
    HalvesBits(adjusted);
    units := [0xD800 + Shr(adjusted, 10), 0xDC00 + And(adjusted, 0x3FF)];
  }

  /** One turn of the decoder's loop: the units it appends and the index it moves to. */
  method DecodeAt(bytes: seq<Byte>, index: nat) returns (units: seq<Unit>, next: nat)
    requires index < |bytes|
    ensures next == index + StepLength(bytes[index..]) && units == StepUnits(bytes[index..])
  {
    ghost var rest := bytes[index..];
    var first := bytes[index];
    if first < 0x80 {
      return [first], index + 1;
    }
    if first >= 0xC2 && first <= 0xDF && index + 1 < |bytes| {
      var second := bytes[index + 1];
      var tail := IsTail(second);
      if tail {
        assert CharLength(rest) == 2;
        Bits2Back(first, second);
        var codePoint := ReadTwo(first, second);
        return [codePoint], index + 2;
      }
    }
    if first >= 0xE0 && first <= 0xEF && index + 2 < |bytes| {
      var second, third := bytes[index + 1], bytes[index + 2];
      var tail2 := IsTail(second);
      var tail3 := IsTail(third);
      if tail2 && tail3 && (first != 0xE0 || second >= 0xA0) && (first != 0xED || second < 0xA0) {
        assert CharLength(rest) == 3;
        Bits3Back(first, second, third);
        var codePoint := ReadThree(first, second, third);
        return [codePoint], index + 3;
      }
    }
    if first >= 0xF0 && first <= 0xF4 && index + 3 < |bytes| {
      var second, third, fourth := bytes[index + 1], bytes[index + 2], bytes[index + 3];
      var tail2 := IsTail(second);
      var tail3 := IsTail(third);
      var tail4 := IsTail(fourth);
      if tail2 && tail3 && tail4 && (first != 0xF0 || second >= 0x90) && (first != 0xF4 || second < 0x90) {
        assert CharLength(rest) == 4;
        Bits4Back(first, second, third, fourth);
        var codePoint := ReadFour(first, second, third, fourth);
        units := Halves(codePoint - 0x10000);
        return units, index + 4;
      }
    }
    assert CharLength(rest) == 0;
    return [0xFFFD], index + 1;
  }

  method DecodeUtf8(bytes: seq<Byte>) returns (output: seq<Unit>)
    ensures output == Decode(bytes)
  {
    output := [];
    var index := 0;
    while index < |bytes|
      invariant index <= |bytes|
      invariant output + Decode(bytes[index..]) == Decode(bytes)
      decreases |bytes| - index
    {
      DecodeFrom(bytes, index);
      var units, next := DecodeAt(bytes, index);
      Associative(output, units, Decode(bytes[next..]));
      output := output + units;
      index := next;
    }
    assert bytes[index..] == [];
  }
}
