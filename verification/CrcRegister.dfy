/** Powers of x modulo the generator, by repeated squaring of machine words. */
module CrcRegister {
  import opened Crc24q

  // ----- squares of polynomials -----

  /** The square of a polynomial: x^k becomes x^2k. */
  function Spread(p: Poly): (s: Poly)
    ensures |s| == 2 * |p|
  {
    if p == [] then [] else Spread(p[..|p| - 1]) + [false, p[|p| - 1]]
  }

  lemma SpreadNext(p: Poly, b: bool)
    ensures Spread(p + [b]) == Spread(p) + [false, b]
  {
    assert (p + [b])[..|p|] == p;
  }

  lemma RemSpreadNext(p: Poly, b: bool)
    ensures Rem(Spread(p + [b])) == Feed(Feed(Rem(Spread(p)), false), b)
  {
    hide Rem, Feed, Spread;
    SpreadNext(p, b);
    RemNext(Spread(p), false);
    RemNext(Spread(p) + [false], b);
    assert Spread(p) + [false, b] == Spread(p) + [false] + [b];
  }

  lemma {:induction false} SpreadLinear(a: Poly, b: Poly)
    requires |a| == |b|
    ensures Spread(Sum(a, b)) == Sum(Spread(a), Spread(b))
  {
    if a != [] {
      var n := |a| - 1;
      assert Sum(a, b)[..n] == Sum(a[..n], b[..n]);
      SpreadLinear(a[..n], b[..n]);
    }
  }

  lemma {:induction false} SpreadZeros(n: nat)
    ensures Spread(Zeros(n)) == Zeros(2 * n)
  {
    if n > 0 {
      assert Zeros(n)[..n - 1] == Zeros(n - 1);
      SpreadZeros(n - 1);
      assert Zeros(2 * n) == Zeros(2 * (n - 1)) + [false, false];
    }
  }

  lemma SpreadLeading(p: Poly)
    ensures Spread([false] + p) == [false, false] + Spread(p)
  {
    if p != [] {
      var n := |p| - 1;
      assert ([false] + p)[..n + 1] == [false] + p[..n];
      SpreadLeading(p[..n]);
    }
  }

  // ----- polynomials below x^24 as machine words -----

  /** A register of 24 bits. */
  datatype Reg = Reg(bits: bv24)

  const MASK := Reg(0x864CFB)
  const NONE := Reg(0)
  const ONE := Reg(1)

  function Xor(v: bv24, w: bv24): bv24 { v ^ w }

  predicate Meets(v: bv24, w: bv24) { v & w != 0 }

  /** At most one bit is set. */
  predicate OneBit(v: bv24) { v & (v - 1) == 0 }

  function Plus(v: Reg, w: Reg): Reg { Reg(Xor(v.bits, w.bits)) }

  function Twice(v: Reg): Reg { Reg(v.bits << 1) }

  function Half(v: Reg): Reg { Reg(v.bits >> 1) }

  predicate Single(v: Reg) { OneBit(v.bits) }

  predicate Has(v: Reg, bit: Reg) { Meets(v.bits, bit.bits) }

  /** The bit that holds coefficient k, the highest coming first. */
  function Bit(k: nat): Reg
  {
    if k == 0 then Reg(0x800000) else Half(Bit(k - 1))
  }

  /** The word holds the coefficients of p. */
  ghost predicate Holds(v: Reg, p: Poly)
  {
    |p| == 24 && forall k :: 0 <= k < 24 ==> p[k] == Has(v, Bit(k))
  }

  /** Times x, reduced. */
  function Shift(v: Reg): Reg
  {
    Plus(Twice(v), if Has(v, Reg(0x800000)) then MASK else NONE)
  }

  lemma BitValues()
    ensures Bit(0) == Reg(0x800000) && Bit(1) == Reg(0x400000) && Bit(2) == Reg(0x200000) && Bit(3) == Reg(0x100000)
    ensures Bit(4) == Reg(0x80000) && Bit(5) == Reg(0x40000) && Bit(6) == Reg(0x20000) && Bit(7) == Reg(0x10000)
    ensures Bit(8) == Reg(0x8000) && Bit(9) == Reg(0x4000) && Bit(10) == Reg(0x2000) && Bit(11) == Reg(0x1000)
    ensures Bit(12) == Reg(0x800) && Bit(13) == Reg(0x400) && Bit(14) == Reg(0x200) && Bit(15) == Reg(0x100)
    ensures Bit(16) == Reg(0x80) && Bit(17) == Reg(0x40) && Bit(18) == Reg(0x20) && Bit(19) == Reg(0x10)
    ensures Bit(20) == Reg(0x8) && Bit(21) == Reg(0x4) && Bit(22) == Reg(0x2) && Bit(23) == Reg(0x1)
  {
  }

  lemma BitFacts(k: nat)
    requires k < 24
    ensures Single(Bit(k))
    ensures Half(Bit(k)) == if k < 23 then Bit(k + 1) else NONE
  {
    BitValues();
  }

  lemma MaskBits(k: nat)
    requires k < 24
    ensures Has(MASK, Bit(k)) == LOW[k]
  {
    BitValues();
    MaskValues();
    hide Bit, Has;
  }

  lemma MaskValues()
    ensures Has(MASK, Reg(0x800000)) && !Has(MASK, Reg(0x400000))
    ensures !Has(MASK, Reg(0x200000)) && !Has(MASK, Reg(0x100000))
    ensures !Has(MASK, Reg(0x80000)) && Has(MASK, Reg(0x40000)) && Has(MASK, Reg(0x20000)) && !Has(MASK, Reg(0x10000))
    ensures !Has(MASK, Reg(0x8000)) && Has(MASK, Reg(0x4000)) && !Has(MASK, Reg(0x2000)) && !Has(MASK, Reg(0x1000))
    ensures Has(MASK, Reg(0x800)) && Has(MASK, Reg(0x400)) && !Has(MASK, Reg(0x200)) && !Has(MASK, Reg(0x100))
    ensures Has(MASK, Reg(0x80)) && Has(MASK, Reg(0x40)) && Has(MASK, Reg(0x20)) && Has(MASK, Reg(0x10))
    ensures Has(MASK, Reg(0x8)) && !Has(MASK, Reg(0x4)) && Has(MASK, Reg(0x2)) && Has(MASK, Reg(0x1))
  {
  }

  lemma SameWord(v: Reg, w: Reg, p: Poly)
    requires Holds(v, p) && Holds(w, p)
    ensures v == w
  {
    hide Bit, Has;
    BitValues();
    forall k | 0 <= k < 24 ensures Has(v, Bit(k)) == Has(w, Bit(k)) {}
    hide Holds;
    SameBits(v, w);
  }

  lemma SameBits(v: Reg, w: Reg)
    requires Has(v, Reg(0x800000)) == Has(w, Reg(0x800000)) && Has(v, Reg(0x400000)) == Has(w, Reg(0x400000))
    requires Has(v, Reg(0x200000)) == Has(w, Reg(0x200000)) && Has(v, Reg(0x100000)) == Has(w, Reg(0x100000))
    requires Has(v, Reg(0x80000)) == Has(w, Reg(0x80000)) && Has(v, Reg(0x40000)) == Has(w, Reg(0x40000))
    requires Has(v, Reg(0x20000)) == Has(w, Reg(0x20000)) && Has(v, Reg(0x10000)) == Has(w, Reg(0x10000))
    requires Has(v, Reg(0x8000)) == Has(w, Reg(0x8000)) && Has(v, Reg(0x4000)) == Has(w, Reg(0x4000))
    requires Has(v, Reg(0x2000)) == Has(w, Reg(0x2000)) && Has(v, Reg(0x1000)) == Has(w, Reg(0x1000))
    requires Has(v, Reg(0x800)) == Has(w, Reg(0x800)) && Has(v, Reg(0x400)) == Has(w, Reg(0x400))
    requires Has(v, Reg(0x200)) == Has(w, Reg(0x200)) && Has(v, Reg(0x100)) == Has(w, Reg(0x100))
    requires Has(v, Reg(0x80)) == Has(w, Reg(0x80)) && Has(v, Reg(0x40)) == Has(w, Reg(0x40))
    requires Has(v, Reg(0x20)) == Has(w, Reg(0x20)) && Has(v, Reg(0x10)) == Has(w, Reg(0x10))
    requires Has(v, Reg(0x8)) == Has(w, Reg(0x8)) && Has(v, Reg(0x4)) == Has(w, Reg(0x4))
    requires Has(v, Reg(0x2)) == Has(w, Reg(0x2)) && Has(v, Reg(0x1)) == Has(w, Reg(0x1))
    ensures v == w
  {
  }

  lemma Doubled(v: Reg, bit: Reg)
    ensures Has(Twice(v), bit) == Has(v, Half(bit))
  {
    assert (v.bits << 1) & bit.bits == (v.bits & (bit.bits >> 1)) << 1;
  }

  lemma NoBits(v: Reg)
    ensures !Has(NONE, v) && !Has(v, NONE)
  {
  }

  lemma SumBit(v: Reg, w: Reg, bit: Reg)
    requires Single(bit)
    ensures Has(Plus(v, w), bit) == (Has(v, bit) != Has(w, bit))
  {
    XorBit(v.bits, w.bits, bit.bits);
    hide Xor, Meets, OneBit;
  }

  lemma XorBit(v: bv24, w: bv24, bit: bv24)
    requires OneBit(bit)
    ensures Meets(Xor(v, w), bit) == (Meets(v, bit) != Meets(w, bit))
  {
    XorMeets(v, w, bit);
  }

  lemma XorMeets(v: bv24, w: bv24, bit: bv24)
    requires bit & (bit - 1) == 0
    ensures ((v ^ w) & bit != 0) == ((v & bit != 0) != (w & bit != 0))
  {
  }

  lemma ShiftBit(v: Reg, bit: Reg)
    requires Single(bit)
    ensures Has(Shift(v), bit) == (Has(v, Half(bit)) != (Has(v, Reg(0x800000)) && Has(MASK, bit)))
  {
    Doubled(v, bit);
    NoBits(bit);
    hide Has, Plus, Single, Half;
    if Has(v, Reg(0x800000)) { SumBit(Twice(v), MASK, bit); } else { SumBit(Twice(v), NONE, bit); }
  }

  lemma FeedAt(p: Poly, k: nat)
    requires |p| == 24 && k < 24
    ensures Feed(p, false)[k] == ((k < 23 && p[k + 1]) != (p[0] && LOW[k]))
  {
  }

  lemma ShiftFeedsAt(v: Reg, p: Poly, k: nat)
    requires Holds(v, p) && k < 24
    ensures Feed(p, false)[k] == Has(Shift(v), Bit(k))
  {
    assert p[0] == Has(v, Bit(0)) && Bit(0) == Reg(0x800000);
    assert k < 23 ==> p[k + 1] == Has(v, Bit(k + 1));
    hide Has, Shift, Bit, Feed, Holds, Single, Half;
    FeedAt(p, k);
    NoBits(v);
    BitFacts(k);
    MaskBits(k);
    ShiftBit(v, Bit(k));
  }

  lemma ShiftFeeds(v: Reg, p: Poly)
    requires Holds(v, p)
    ensures Holds(Shift(v), Feed(p, false))
  {
    hide Has, Shift, Bit, Feed;
    forall k | 0 <= k < 24 ensures Feed(p, false)[k] == Has(Shift(v), Bit(k)) { ShiftFeedsAt(v, p, k); }
  }

  lemma PlusSums(v: Reg, p: Poly, w: Reg, q: Poly)
    requires Holds(v, p) && Holds(w, q)
    ensures Holds(Plus(v, w), Sum(p, q))
  {
    hide Has, Bit, Plus, Single, Half;
    forall k | 0 <= k < 24 ensures Sum(p, q)[k] == Has(Plus(v, w), Bit(k)) {
      BitFacts(k);
      SumBit(v, w, Bit(k));
    }
  }

  lemma NoneHeld(p: Poly)
    requires Holds(NONE, p)
    ensures p == Zeros(24)
  {
    hide Has, Bit;
    forall k | 0 <= k < 24 ensures !p[k] { NoBits(Bit(k)); }
  }

  lemma NoneIs()
    ensures Holds(NONE, Zeros(24))
  {
    hide Has, Bit;
    forall k | 0 <= k < 24 ensures !Has(NONE, Bit(k)) { NoBits(Bit(k)); }
  }

  lemma OneIs()
    ensures Holds(ONE, Rem([true]))
  {
    hide Rem, Feed;
    RemShort([true]);
    BitValues();
    OneValues();
    hide Bit, Has;
  }

  lemma OneValues()
    ensures !Has(ONE, Reg(0x800000)) && !Has(ONE, Reg(0x400000)) && !Has(ONE, Reg(0x200000)) && !Has(ONE, Reg(0x100000))
    ensures !Has(ONE, Reg(0x80000)) && !Has(ONE, Reg(0x40000)) && !Has(ONE, Reg(0x20000)) && !Has(ONE, Reg(0x10000))
    ensures !Has(ONE, Reg(0x8000)) && !Has(ONE, Reg(0x4000)) && !Has(ONE, Reg(0x2000)) && !Has(ONE, Reg(0x1000))
    ensures !Has(ONE, Reg(0x800)) && !Has(ONE, Reg(0x400)) && !Has(ONE, Reg(0x200)) && !Has(ONE, Reg(0x100))
    ensures !Has(ONE, Reg(0x80)) && !Has(ONE, Reg(0x40)) && !Has(ONE, Reg(0x20)) && !Has(ONE, Reg(0x10))
    ensures !Has(ONE, Reg(0x8)) && !Has(ONE, Reg(0x4)) && !Has(ONE, Reg(0x2)) && Has(ONE, Reg(0x1))
  {
  }

  lemma MaskIs()
    ensures Holds(MASK, LOW)
  {
    hide Has, Bit;
    forall k | 0 <= k < 24 ensures LOW[k] == Has(MASK, Bit(k)) { MaskBits(k); }
  }

  // ----- the square of a word -----

  /** The square of x^n, reduced. */
  function EvenPower(n: nat): Reg
  {
    if n == 0 then ONE else Shift(Shift(EvenPower(n - 1)))
  }

  lemma {:induction false} EvenPowerIs(n: nat)
    ensures Holds(EvenPower(n), Rem(Spread([true] + Zeros(n))))
  {
    hide Shift, Feed, Rem, Holds, Spread;
    if n == 0 {
      assert [true] + Zeros(0) == [true];
      SpreadOne();
      LeadingZeros(1, [true]);
      OneIs();
    } else {
      var p := [true] + Zeros(n - 1);
      EvenPowerIs(n - 1);
      assert [true] + Zeros(n) == p + [false];
      RemSpreadNext(p, false);
      ShiftFeeds(EvenPower(n - 1), Rem(Spread(p)));
      ShiftFeeds(Shift(EvenPower(n - 1)), Feed(Rem(Spread(p)), false));
    }
  }

  lemma SpreadOne()
    ensures Spread([true]) == Zeros(1) + [true]
  {
    assert Zeros(1) == [false];
  }

  lemma SpreadNone()
    ensures Spread([]) == [] && Rem(Spread([])) == Zeros(24)
  {
  }

  /** The squares of the last n terms of a word. */
  function SquareOf(v: Reg, n: nat): Reg
    requires n <= 24
    decreases n
  {
    if n == 0 then NONE
    else Plus(SquareOf(v, n - 1), if Has(v, Bit(24 - n)) then EvenPower(n - 1) else NONE)
  }

  lemma {:induction false} SquareOfHolds(v: Reg, p: Poly, n: nat)
    requires Holds(v, p) && n <= 24
    ensures Holds(SquareOf(v, n), Rem(Spread(p[24 - n..])))
  {
    hide Shift, Feed, Rem, Spread, EvenPower;
    if n == 0 {
      assert p[24..] == [];
      SpreadNone();
      NoneIs();
    } else {
      var s, b := p[24 - (n - 1)..], p[24 - n];
      SquareOfHolds(v, p, n - 1);
      assert p[24 - n..] == [b] + s;
      assert b == Has(v, Bit(24 - n));
      hide Holds, Bit, Has;
      FirstTerm(b, s);
      EvenPowerIs(n - 1);
      NoneIs();
      PlusSums(SquareOf(v, n - 1), Rem(Spread(s)), if b then EvenPower(n - 1) else NONE,
               if b then Rem(Spread([true] + Zeros(n - 1))) else Zeros(24));
    }
  }

  lemma FirstTerm(b: bool, s: Poly)
    ensures Rem(Spread([b] + s)) ==
            Sum(Rem(Spread(s)), if b then Rem(Spread([true] + Zeros(|s|))) else Zeros(24))
  {
    hide Rem, Feed, Spread, Sum, Zeros;
    RestSquared(s);
    if b {
      TopApart(s);
      SpreadLinear([false] + s, [true] + Zeros(|s|));
      RemLinear(Spread([false] + s), Spread([true] + Zeros(|s|)));
    } else {
      SumNone(Rem(Spread(s)));
    }
  }

  lemma RestSquared(s: Poly)
    ensures Rem(Spread([false] + s)) == Rem(Spread(s))
  {
    hide Rem, Feed, Spread;
    SpreadLeading(s);
    LeadingZeros(2, Spread(s));
    assert [false, false] + Spread(s) == Zeros(2) + Spread(s);
  }

  lemma TopApart(s: Poly)
    ensures [true] + s == Sum([false] + s, [true] + Zeros(|s|))
  {
  }

  lemma SumNone(p: Poly)
    requires |p| == 24
    ensures Sum(p, Zeros(24)) == p
  {
  }

  lemma EvenPowers()
    ensures EvenPower(0) == Reg(0x1) && EvenPower(1) == Reg(0x4) && EvenPower(2) == Reg(0x10)
    ensures EvenPower(3) == Reg(0x40) && EvenPower(4) == Reg(0x100) && EvenPower(5) == Reg(0x400)
    ensures EvenPower(6) == Reg(0x1000) && EvenPower(7) == Reg(0x4000) && EvenPower(8) == Reg(0x10000)
    ensures EvenPower(9) == Reg(0x40000) && EvenPower(10) == Reg(0x100000) && EvenPower(11) == Reg(0x400000)
    ensures EvenPower(12) == Reg(0x864CFB) && EvenPower(13) == Reg(0x93E6E1) && EvenPower(14) == Reg(0xC54E89)
    ensures EvenPower(15) == Reg(0x19A3D2) && EvenPower(16) == Reg(0x668F48) && EvenPower(17) == Reg(0x1C71DB)
    ensures EvenPower(18) == Reg(0x71C76C) && EvenPower(19) == Reg(0x41514B) && EvenPower(20) == Reg(0x8309D7)
    ensures EvenPower(21) == Reg(0x86F251) && EvenPower(22) == Reg(0x911C49) && EvenPower(23) == Reg(0xCEA429)
    ensures EvenPower(24) == Reg(0x360952)
  {
    assert Shift(Reg(0x1)) == Reg(0x2) && Shift(Reg(0x2)) == Reg(0x4);
    assert Shift(Reg(0x4)) == Reg(0x8) && Shift(Reg(0x8)) == Reg(0x10);
    assert Shift(Reg(0x10)) == Reg(0x20) && Shift(Reg(0x20)) == Reg(0x40);
    assert Shift(Reg(0x40)) == Reg(0x80) && Shift(Reg(0x80)) == Reg(0x100);
    assert Shift(Reg(0x100)) == Reg(0x200) && Shift(Reg(0x200)) == Reg(0x400);
    assert Shift(Reg(0x400)) == Reg(0x800) && Shift(Reg(0x800)) == Reg(0x1000);
    assert Shift(Reg(0x1000)) == Reg(0x2000) && Shift(Reg(0x2000)) == Reg(0x4000);
    assert Shift(Reg(0x4000)) == Reg(0x8000) && Shift(Reg(0x8000)) == Reg(0x10000);
    assert Shift(Reg(0x10000)) == Reg(0x20000) && Shift(Reg(0x20000)) == Reg(0x40000);
    assert Shift(Reg(0x40000)) == Reg(0x80000) && Shift(Reg(0x80000)) == Reg(0x100000);
    assert Shift(Reg(0x100000)) == Reg(0x200000) && Shift(Reg(0x200000)) == Reg(0x400000);
    assert Shift(Reg(0x400000)) == Reg(0x800000) && Shift(Reg(0x800000)) == Reg(0x864CFB);
    assert Shift(Reg(0x864CFB)) == Reg(0x8AD50D) && Shift(Reg(0x8AD50D)) == Reg(0x93E6E1);
    assert Shift(Reg(0x93E6E1)) == Reg(0xA18139) && Shift(Reg(0xA18139)) == Reg(0xC54E89);
    assert Shift(Reg(0xC54E89)) == Reg(0xCD1E9) && Shift(Reg(0xCD1E9)) == Reg(0x19A3D2);
    assert Shift(Reg(0x19A3D2)) == Reg(0x3347A4) && Shift(Reg(0x3347A4)) == Reg(0x668F48);
    assert Shift(Reg(0x668F48)) == Reg(0xCD1E90) && Shift(Reg(0xCD1E90)) == Reg(0x1C71DB);
    assert Shift(Reg(0x1C71DB)) == Reg(0x38E3B6) && Shift(Reg(0x38E3B6)) == Reg(0x71C76C);
    assert Shift(Reg(0x71C76C)) == Reg(0xE38ED8) && Shift(Reg(0xE38ED8)) == Reg(0x41514B);
    assert Shift(Reg(0x41514B)) == Reg(0x82A296) && Shift(Reg(0x82A296)) == Reg(0x8309D7);
    assert Shift(Reg(0x8309D7)) == Reg(0x805F55) && Shift(Reg(0x805F55)) == Reg(0x86F251);
    assert Shift(Reg(0x86F251)) == Reg(0x8BA859) && Shift(Reg(0x8BA859)) == Reg(0x911C49);
    assert Shift(Reg(0x911C49)) == Reg(0xA47469) && Shift(Reg(0xA47469)) == Reg(0xCEA429);
    assert Shift(Reg(0xCEA429)) == Reg(0x1B04A9) && Shift(Reg(0x1B04A9)) == Reg(0x360952);
  }

  function Term(v: Reg, bit: bv24, power: bv24): Reg { if Has(v, Reg(bit)) then Reg(power) else NONE }

  /** The square, term by term. */
  function Square(v: Reg): Reg
  {
    var s := NONE;
    var s := Plus(s, Term(v, 0x1, 0x1));
    var s := Plus(s, Term(v, 0x2, 0x4));
    var s := Plus(s, Term(v, 0x4, 0x10));
    var s := Plus(s, Term(v, 0x8, 0x40));
    var s := Plus(s, Term(v, 0x10, 0x100));
    var s := Plus(s, Term(v, 0x20, 0x400));
    var s := Plus(s, Term(v, 0x40, 0x1000));
    var s := Plus(s, Term(v, 0x80, 0x4000));
    var s := Plus(s, Term(v, 0x100, 0x10000));
    var s := Plus(s, Term(v, 0x200, 0x40000));
    var s := Plus(s, Term(v, 0x400, 0x100000));
    var s := Plus(s, Term(v, 0x800, 0x400000));
    var s := Plus(s, Term(v, 0x1000, 0x864CFB));
    var s := Plus(s, Term(v, 0x2000, 0x93E6E1));
    var s := Plus(s, Term(v, 0x4000, 0xC54E89));
    var s := Plus(s, Term(v, 0x8000, 0x19A3D2));
    var s := Plus(s, Term(v, 0x10000, 0x668F48));
    var s := Plus(s, Term(v, 0x20000, 0x1C71DB));
    var s := Plus(s, Term(v, 0x40000, 0x71C76C));
    var s := Plus(s, Term(v, 0x80000, 0x41514B));
    var s := Plus(s, Term(v, 0x100000, 0x8309D7));
    var s := Plus(s, Term(v, 0x200000, 0x86F251));
    var s := Plus(s, Term(v, 0x400000, 0x911C49));
    var s := Plus(s, Term(v, 0x800000, 0xCEA429));
    s
  }

  lemma SquareIs(v: Reg)
    ensures Square(v) == SquareOf(v, 24)
  {
    SquareLow(v);
    SquareMiddle(v);
    SquareHigh(v);
    hide SquareOf, Term, Plus;
  }

  lemma SquareLow(v: Reg)
    ensures SquareOf(v, 1) == Plus(SquareOf(v, 0), Term(v, 0x1, 0x1))
    ensures SquareOf(v, 2) == Plus(SquareOf(v, 1), Term(v, 0x2, 0x4))
    ensures SquareOf(v, 3) == Plus(SquareOf(v, 2), Term(v, 0x4, 0x10))
    ensures SquareOf(v, 4) == Plus(SquareOf(v, 3), Term(v, 0x8, 0x40))
    ensures SquareOf(v, 5) == Plus(SquareOf(v, 4), Term(v, 0x10, 0x100))
    ensures SquareOf(v, 6) == Plus(SquareOf(v, 5), Term(v, 0x20, 0x400))
    ensures SquareOf(v, 7) == Plus(SquareOf(v, 6), Term(v, 0x40, 0x1000))
    ensures SquareOf(v, 8) == Plus(SquareOf(v, 7), Term(v, 0x80, 0x4000))
    ensures SquareOf(v, 0) == NONE
  {
    BitValues();
    EvenPowers();
    hide Bit, EvenPower, Has, Plus;
  }

  lemma SquareMiddle(v: Reg)
    ensures SquareOf(v, 9) == Plus(SquareOf(v, 8), Term(v, 0x100, 0x10000))
    ensures SquareOf(v, 10) == Plus(SquareOf(v, 9), Term(v, 0x200, 0x40000))
    ensures SquareOf(v, 11) == Plus(SquareOf(v, 10), Term(v, 0x400, 0x100000))
    ensures SquareOf(v, 12) == Plus(SquareOf(v, 11), Term(v, 0x800, 0x400000))
    ensures SquareOf(v, 13) == Plus(SquareOf(v, 12), Term(v, 0x1000, 0x864CFB))
    ensures SquareOf(v, 14) == Plus(SquareOf(v, 13), Term(v, 0x2000, 0x93E6E1))
    ensures SquareOf(v, 15) == Plus(SquareOf(v, 14), Term(v, 0x4000, 0xC54E89))
    ensures SquareOf(v, 16) == Plus(SquareOf(v, 15), Term(v, 0x8000, 0x19A3D2))
  {
    BitValues();
    EvenPowers();
    hide Bit, EvenPower, Has, Plus;
  }

  lemma SquareHigh(v: Reg)
    ensures SquareOf(v, 17) == Plus(SquareOf(v, 16), Term(v, 0x10000, 0x668F48))
    ensures SquareOf(v, 18) == Plus(SquareOf(v, 17), Term(v, 0x20000, 0x1C71DB))
    ensures SquareOf(v, 19) == Plus(SquareOf(v, 18), Term(v, 0x40000, 0x71C76C))
    ensures SquareOf(v, 20) == Plus(SquareOf(v, 19), Term(v, 0x80000, 0x41514B))
    ensures SquareOf(v, 21) == Plus(SquareOf(v, 20), Term(v, 0x100000, 0x8309D7))
    ensures SquareOf(v, 22) == Plus(SquareOf(v, 21), Term(v, 0x200000, 0x86F251))
    ensures SquareOf(v, 23) == Plus(SquareOf(v, 22), Term(v, 0x400000, 0x911C49))
    ensures SquareOf(v, 24) == Plus(SquareOf(v, 23), Term(v, 0x800000, 0xCEA429))
  {
    BitValues();
    EvenPowers();
    hide Bit, EvenPower, Has, Plus;
  }

  lemma SquareHolds(v: Reg, p: Poly)
    requires Holds(v, p)
    ensures Holds(Square(v), Rem(Spread(p)))
  {
    hide Holds, Square, Rem, Spread;
    HoldsSize(v, p);
    SquareIs(v);
    SquareOfHolds(v, p, 24);
    assert p[0..] == p;
  }

  lemma HoldsSize(v: Reg, p: Poly)
    requires Holds(v, p)
    ensures |p| == 24
  {
  }

  // ----- the square of a remainder -----

  lemma MaskSquared()
    ensures Plus(Square(MASK), EvenPower(24)) == NONE
  {
    EvenPowers();
    hide EvenPower;
  }

  /** The square of the generator is a multiple of it. */
  lemma GeneratorSquared(c: bool)
    ensures Rem(Spread(Scaled(c))) == Zeros(24)
  {
    hide Holds, Square, Rem, Spread, EvenPower, Plus, Zeros;
    if c {
      MaskIs();
      SquareHolds(MASK, LOW);
      EvenPowerIs(24);
      PlusSums(Square(MASK), Rem(Spread(LOW)), EvenPower(24), Rem(Spread([true] + Zeros(24))));
      MaskSquared();
      FirstTerm(true, LOW);
      NoneHeld(Rem(Spread(GENERATOR)));
    } else {
      SpreadZeros(25);
      RemZeros(50);
    }
  }

  /** Squaring after one more coefficient. */
  lemma SquareFeeds(r: Poly, b: bool)
    requires |r| == 24
    ensures Rem(Spread(Feed(r, b))) == Feed(Feed(Rem(Spread(r)), false), b)
  {
    hide Feed, Rem, Spread, Sum, Zeros;
    var f := [false] + Feed(r, b);
    DivideOnce(r, b);
    SpreadLinear(Scaled(r[0]), f);
    RemLinear(Spread(Scaled(r[0])), Spread(f));
    GeneratorSquared(r[0]);
    RestSquared(Feed(r, b));
    NoneSum(Rem(Spread(Feed(r, b))));
    RemSpreadNext(r, b);
  }

  lemma NoneSum(p: Poly)
    requires |p| == 24
    ensures Sum(Zeros(24), p) == p
  {
  }

  /** Squaring doubles the exponent. */
  lemma {:induction false} SquareDoubles(n: nat)
    ensures Rem(Spread(Rem([true] + Zeros(n)))) == Rem([true] + Zeros(2 * n))
  {
    hide Feed, Rem, Spread;
    if n == 0 {
      assert [true] + Zeros(0) == [true];
      RemShort([true]);
      assert Zeros(23) + [true] == Zeros(23) + ([true] + Zeros(0));
      SpreadLeadingZeros(23);
      assert Spread(Rem([true])) == Zeros(47) + [true];
      LeadingZeros(47, [true]);
    } else {
      SquareDoubles(n - 1);
      var p, q := [true] + Zeros(n - 1), [true] + Zeros(2 * (n - 1));
      assert [true] + Zeros(n) == p + [false];
      RemNext(p, false);
      SquareFeeds(Rem(p), false);
      assert [true] + Zeros(2 * n) == (q + [false]) + [false];
      RemNext(q, false);
      RemNext(q + [false], false);
    }
  }

  lemma SpreadLeadingZeros(n: nat)
    ensures Spread(Zeros(n) + [true]) == Zeros(2 * n + 1) + [true]
  {
    hide Spread;
    SpreadNext(Zeros(n), true);
    SpreadZeros(n);
    assert Zeros(2 * n) + [false, true] == Zeros(2 * n + 1) + [true];
  }

  // ----- powers of x by repeated squaring -----

  function Power(n: nat): Reg
  {
    if n == 0 then ONE
    else
      var s := Square(Power(n / 2));
      if n % 2 == 0 then s else Shift(s)
  }

  lemma {:induction false} PowerIs(n: nat)
    ensures Holds(Power(n), Rem([true] + Zeros(n)))
  {
    hide Feed, Rem, Spread, Holds, Square, Shift;
    if n == 0 {
      assert [true] + Zeros(0) == [true];
      OneIs();
    } else {
      var k := n / 2;
      PowerIs(k);
      SquareHolds(Power(k), Rem([true] + Zeros(k)));
      SquareDoubles(k);
      if n % 2 == 1 {
        assert [true] + Zeros(n) == ([true] + Zeros(2 * k)) + [false];
        RemNext([true] + Zeros(2 * k), false);
        ShiftFeeds(Square(Power(k)), Rem([true] + Zeros(2 * k)));
      }
    }
  }
}
