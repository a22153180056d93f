/** CRC-24Q: the table-driven hash against division of polynomials over the two-element field. */
module Crc24q {
  import opened TreeIndex

  // ----- polynomials and words, highest coefficient or bit first -----

  type Poly = seq<bool>

  function Zeros(n: nat): (z: Poly)
    ensures |z| == n && forall k :: 0 <= k < n ==> !z[k]
  {
    seq(n, _ => false)
  }

  /** The sum of two polynomials, which is also their difference, and the exclusive or of two words. */
  function Sum(a: Poly, b: Poly): (c: Poly)
    requires |a| == |b|
    ensures |c| == |a| && forall k :: 0 <= k < |c| ==> c[k] == (a[k] != b[k])
  {
    seq(|a|, k requires 0 <= k < |a| => a[k] != b[k])
  }

  /** The generator without its leading term: x^23 + x^18 + x^17 + x^14 + x^11 + x^10 + x^7 + x^6 + x^5 + x^4 +
      x^3 + x + 1, or 0x864CFB. */
  const LOW: Poly := [
    true, false, false, false, false, true, true, false, false, true, false, false,
    true, true, false, false, true, true, true, true, true, false, true, true]

  const GENERATOR: Poly := [true] + LOW

  /** The product of q and the generator, by shifting and adding. */
  function Times(q: Poly): (p: Poly)
    ensures |p| == |q| + 24
  {
    if q == [] then Zeros(24)
    else
      var n := |q| - 1;
      Sum(Times(q[..n]) + [false], Zeros(n) + Scaled(q[n]))
  }

  /** The generator, or nothing. */
  function Scaled(c: bool): (p: Poly)
    ensures |p| == 25
  {
    if c then GENERATOR else Zeros(25)
  }

  // ----- division by the generator -----

  /** The remainder after one more coefficient. */
  function Feed(r: Poly, b: bool): (s: Poly)
    requires |r| == 24
    ensures |s| == 24
  {
    Sum(r[1..] + [b], if r[0] then LOW else Zeros(24))
  }

  /** Bitwise long division. */
  function Rem(p: Poly): (r: Poly)
    ensures |r| == 24
  {
    if p == [] then Zeros(24) else Feed(Rem(p[..|p| - 1]), p[|p| - 1])
  }

  lemma FeedLinear(a: Poly, b: Poly, c: bool, d: bool)
    requires |a| == |b| == 24
    ensures Feed(Sum(a, b), c != d) == Sum(Feed(a, c), Feed(b, d))
  {
  }

  lemma RemNext(p: Poly, b: bool)
    ensures Rem(p + [b]) == Feed(Rem(p), b)
  {
    assert (p + [b])[..|p|] == p;
  }

  /** The remainder of a sum is the sum of the remainders. */
  lemma {:induction false} RemLinear(a: Poly, b: Poly)
    requires |a| == |b|
    ensures Rem(Sum(a, b)) == Sum(Rem(a), Rem(b))
  {
    hide Feed;
    if a != [] {
      var n := |a| - 1;
      assert Sum(a, b)[..n] == Sum(a[..n], b[..n]);
      RemLinear(a[..n], b[..n]);
      FeedLinear(Rem(a[..n]), Rem(b[..n]), a[n], b[n]);
    } else {
      assert Sum(Zeros(24), Zeros(24)) == Zeros(24);
    }
  }

  lemma FeedZero()
    ensures Feed(Zeros(24), false) == Zeros(24)
  {
  }

  lemma {:induction false} RemZeros(n: nat)
    ensures Rem(Zeros(n)) == Zeros(24)
  {
    hide Feed;
    if n > 0 {
      RemZeros(n - 1);
      assert Zeros(n) == Zeros(n - 1) + [false];
      RemNext(Zeros(n - 1), false);
      FeedZero();
    }
  }

  lemma {:induction false} LeadingZeros(n: nat, p: Poly)
    ensures Rem(Zeros(n) + p) == Rem(p)
  {
    hide Feed;
    if p != [] {
      var k := |p| - 1;
      assert Zeros(n) + p == (Zeros(n) + p[..k]) + [p[k]];
      LeadingZeros(n, p[..k]);
      RemNext(Zeros(n) + p[..k], p[k]);
    } else {
      assert Zeros(n) + p == Zeros(n);
      RemZeros(n);
    }
  }

  /** What is shorter than the generator is its own remainder. */
  lemma {:induction false} RemShort(p: Poly)
    requires |p| <= 24
    ensures Rem(p) == Zeros(24 - |p|) + p
  {
    hide Feed, Zeros;
    if p != [] {
      var n := |p| - 1;
      RemShort(p[..n]);
      FeedShort(p[..n], p[n]);
      assert p == p[..n] + [p[n]];
    } else {
      assert Zeros(24) + p == Zeros(24);
    }
  }

  lemma FeedShort(p: Poly, b: bool)
    requires |p| < 24
    ensures Feed(Zeros(24 - |p|) + p, b) == Zeros(24 - |p| - 1) + (p + [b])
  {
  }

  lemma DivideOnce(r: Poly, b: bool)
    requires |r| == 24
    ensures r + [b] == Sum(Scaled(r[0]), [false] + Feed(r, b))
  {
  }

  lemma RemGenerator(c: bool)
    ensures Rem(Scaled(c)) == Zeros(24)
  {
    hide Feed, Rem;
    if c {
      var p := [true] + LOW[..23];
      LowParts();
      RemNext(p, true);
      RemShort(p);
      assert Zeros(0) + p == p;
      FeedLow();
    } else {
      RemZeros(25);
    }
  }

  lemma LowParts()
    ensures GENERATOR == ([true] + LOW[..23]) + [true]
  {
    assert LOW == LOW[..23] + [true];
  }

  lemma FeedLow()
    ensures Feed([true] + LOW[..23], true) == Zeros(24)
  {
    var p := [true] + LOW[..23];
    LowParts();
    assert p[1..] + [true] == LOW;
  }

  /** Multiples of the generator leave no remainder. */
  lemma {:induction false} RemTimes(q: Poly)
    ensures Rem(Times(q)) == Zeros(24)
  {
    hide Feed, Scaled;
    if q == [] {
      RemZeros(24);
    } else {
      var n := |q| - 1;
      RemTimes(q[..n]);
      RemNext(Times(q[..n]), false);
      FeedZero();
      LeadingZeros(n, Scaled(q[n]));
      RemGenerator(q[n]);
      RemLinear(Times(q[..n]) + [false], Zeros(n) + Scaled(q[n]));
      assert Sum(Zeros(24), Zeros(24)) == Zeros(24);
    }
  }

  function Padded(n: nat, r: Poly): (p: Poly)
    ensures |p| == n + |r|
  {
    Zeros(n) + r
  }

  /** The quotient: p is its product with the generator, plus the remainder. */
  lemma {:induction false} Quotient(p: Poly) returns (q: Poly)
    requires 24 <= |p|
    ensures |q| == |p| - 24 && p == Sum(Times(q), Padded(|q|, Rem(p)))
  {
    hide Feed, Times, Rem, Padded, Sum;
    if |p| == 24 {
      q := [];
      QuotientNone(p);
    } else {
      var n := |p| - 1;
      var q' := Quotient(p[..n]);
      var r := Rem(p[..n]);
      q := q' + [r[0]];
      assert p == p[..n] + [p[n]];
      RemNext(p[..n], p[n]);
      TimesNext(q', r[0]);
      DivideOnce(r, p[n]);
      Recombine(|q'|, Times(q'), r, p[n], Scaled(r[0]), Feed(r, p[n]));
    }
  }

  lemma QuotientNone(p: Poly)
    requires |p| == 24
    ensures p == Sum(Times([]), Padded(0, Rem(p)))
  {
    hide Rem;
    RemShort(p);
    TimesNone();
    assert Padded(0, Rem(p)) == p && Sum(Zeros(24), p) == p;
  }

  lemma TimesNone()
    ensures Times([]) == Zeros(24)
  {
  }

  lemma TimesNext(q: Poly, c: bool)
    ensures Times(q + [c]) == Sum(Times(q) + [false], Padded(|q|, Scaled(c)))
  {
    assert (q + [c])[..|q|] == q;
  }

  lemma Recombine(n: nat, t: Poly, r: Poly, b: bool, g: Poly, f: Poly)
    requires |t| == n + 24 && |r| == 24 && |g| == 25 && |f| == 24 && r + [b] == Sum(g, [false] + f)
    ensures Sum(t, Padded(n, r)) + [b] == Sum(Sum(t + [false], Padded(n, g)), Padded(n + 1, f))
  {
    var x, y := Sum(t, Padded(n, r)) + [b], Sum(Sum(t + [false], Padded(n, g)), Padded(n + 1, f));
    assert Padded(n + 1, f) == Padded(n, [false] + f);
    forall k | 0 <= k < |x| ensures x[k] == y[k] {
      if n <= k { assert (r + [b])[k - n] == Sum(g, [false] + f)[k - n]; }
    }
  }

  /** The remainder is the only one: whatever polynomial of degree below 24 makes up a multiple is it. */
  lemma OnlyRemainder(p: Poly, q: Poly, s: Poly)
    requires |s| == 24 && |p| == |q| + 24 && p == Sum(Times(q), Padded(|q|, s))
    ensures s == Rem(p)
  {
    hide Feed, Times, Rem, Padded, Sum;
    RemLinear(Times(q), Padded(|q|, s));
    RemTimes(q);
    PaddedRem(|q|, s);
    ZeroSum(s);
  }

  lemma PaddedRem(n: nat, s: Poly)
    requires |s| == 24
    ensures Rem(Padded(n, s)) == s
  {
    hide Rem;
    LeadingZeros(n, s);
    RemShort(s);
    assert Zeros(0) + s == s;
  }

  lemma ZeroSum(s: Poly)
    requires |s| == 24
    ensures Sum(Zeros(24), s) == s
  {
  }

  // ----- errors -----

  /** An error goes undetected exactly if it is a multiple of the generator. */
  lemma Undetected(c: Poly, e: Poly)
    requires |c| == |e| && Rem(c) == Zeros(24)
    ensures Rem(Sum(c, e)) == Zeros(24) <==> Rem(e) == Zeros(24)
  {
    hide Rem;
    RemLinear(c, e);
    assert Sum(Zeros(24), Rem(e)) == Rem(e);
  }

  lemma FeedInjective(r: Poly)
    requires |r| == 24 && Feed(r, false) == Zeros(24)
    ensures r == Zeros(24)
  {
    assert LOW[23] && Feed(r, false)[23] == r[0];
    assert forall k :: 0 <= k < 23 ==> Feed(r, false)[k] == r[k + 1];
    forall k | 0 <= k < 24 ensures !r[k] { if 0 < k { assert !Feed(r, false)[k - 1]; } }
  }

  lemma {:induction false} TrailingZeros(p: Poly, n: nat)
    requires Rem(p + Zeros(n)) == Zeros(24)
    ensures Rem(p) == Zeros(24)
  {
    hide Feed, Rem;
    if n > 0 {
      assert p + Zeros(n) == (p + Zeros(n - 1)) + [false];
      RemNext(p + Zeros(n - 1), false);
      FeedInjective(Rem(p + Zeros(n - 1)));
      TrailingZeros(p, n - 1);
    } else {
      assert p + Zeros(0) == p;
    }
  }

  /** Any error burst of at most 24 bits, a single-bit error among them, is detected at any length. */
  lemma BurstDetected(c: Poly, before: nat, burst: Poly, after: nat)
    requires |c| == before + |burst| + after && Rem(c) == Zeros(24)
    requires |burst| <= 24 && true in burst
    ensures Rem(Sum(c, Zeros(before) + burst + Zeros(after))) != Zeros(24)
  {
    hide Rem, Feed;
    var e := Zeros(before) + burst + Zeros(after);
    Undetected(c, e);
    if Rem(e) == Zeros(24) {
      TrailingZeros(Zeros(before) + burst, after);
      LeadingZeros(before, burst);
      ShortNonZero(burst);
    }
  }

  lemma ShortNonZero(p: Poly)
    requires |p| <= 24 && true in p
    ensures Rem(p) != Zeros(24)
  {
    hide Rem;
    RemShort(p);
    var k :| 0 <= k < |p| && p[k];
    assert Rem(p)[24 - |p| + k];
  }

  function Double(before: nat, apart: nat, after: nat): Poly
    requires 0 < apart
  {
    Zeros(before) + ([true] + Zeros(apart - 1) + [true]) + Zeros(after)
  }

  /** Two flipped bits go undetected exactly if their distance is a period of the generator. */
  lemma DoubleUndetected(c: Poly, before: nat, apart: nat, after: nat)
    requires 0 < apart && |c| == before + apart + 1 + after && Rem(c) == Zeros(24)
    ensures Rem(Sum(c, Double(before, apart, after))) == Zeros(24) <==> Rem([true] + Zeros(apart)) == Rem([true])
  {
    hide Rem, Feed;
    var p := [true] + Zeros(apart - 1) + [true];
    Undetected(c, Double(before, apart, after));
    LeadingZeros(before, p);
    if Rem(Zeros(before) + p + Zeros(after)) == Zeros(24) { TrailingZeros(Zeros(before) + p, after); }
    RemOfRem(Zeros(before) + p, after);
    assert Zeros(24) + Zeros(after) == Zeros(24 + after);
    RemZeros(24 + after);
    assert p == Sum([true] + Zeros(apart), Zeros(apart) + [true]);
    RemLinear([true] + Zeros(apart), Zeros(apart) + [true]);
    LeadingZeros(apart, [true]);
    SumZero(Rem([true] + Zeros(apart)), Rem([true]));
  }

  lemma SumZero(a: Poly, b: Poly)
    requires |a| == |b| == 24
    ensures Sum(a, b) == Zeros(24) <==> a == b
  {
    if Sum(a, b) == Zeros(24) {
      forall k | 0 <= k < 24 ensures a[k] == b[k] { assert !Sum(a, b)[k]; }
    }
  }

  /** Whether a polynomial has an odd number of terms. */
  predicate Odd(p: Poly)
  {
    if p == [] then false else Odd(p[..|p| - 1]) != p[|p| - 1]
  }

  lemma {:induction false} OddSum(a: Poly, b: Poly)
    requires |a| == |b|
    ensures Odd(Sum(a, b)) == (Odd(a) != Odd(b))
  {
    if a != [] {
      var n := |a| - 1;
      assert Sum(a, b)[..n] == Sum(a[..n], b[..n]);
      OddSum(a[..n], b[..n]);
    }
  }

  lemma {:induction false} OddJoin(a: Poly, b: Poly)
    ensures Odd(a + b) == (Odd(a) != Odd(b))
  {
    if b != [] {
      assert (a + b)[..|a + b| - 1] == a + b[..|b| - 1];
      OddJoin(a, b[..|b| - 1]);
    } else {
      assert a + b == a;
    }
  }

  lemma {:induction false} OddZeros(n: nat)
    ensures !Odd(Zeros(n))
  {
    if n > 0 {
      assert Zeros(n)[..n - 1] == Zeros(n - 1);
      OddZeros(n - 1);
    }
  }

  /** The generator has 14 terms: x + 1 divides it. */
  lemma GeneratorEven(c: bool)
    ensures !Odd(Scaled(c))
  {
    if c {
      var g := GENERATOR;
      assert g == g[..5] + g[5..10] + g[10..15] + g[15..20] + g[20..];
      OddFive(g[..5]);
      OddFive(g[5..10]);
      OddFive(g[10..15]);
      OddFive(g[15..20]);
      OddFive(g[20..]);
      OddJoin(g[..5], g[5..10]);
      OddJoin(g[..5] + g[5..10], g[10..15]);
      OddJoin(g[..5] + g[5..10] + g[10..15], g[15..20]);
      OddJoin(g[..5] + g[5..10] + g[10..15] + g[15..20], g[20..]);
    } else {
      OddZeros(25);
    }
  }

  lemma OddFive(p: Poly)
    requires |p| == 5
    ensures Odd(p) == (p[0] != (p[1] != (p[2] != (p[3] != p[4]))))
  {
    assert p[..4][..3] == p[..3] && p[..3][..2] == p[..2] && p[..2][..1] == p[..1] && p[..1][..0] == [];
    assert Odd(p[..1]) == p[0];
    assert Odd(p[..2]) == (p[0] != p[1]);
    assert Odd(p[..3]) == ((p[0] != p[1]) != p[2]);
    assert Odd(p[..4]) == (((p[0] != p[1]) != p[2]) != p[3]);
  }

  lemma {:induction false} MultiplesEven(q: Poly)
    ensures !Odd(Times(q))
  {
    hide Scaled, Odd;
    if q == [] {
      OddZeros(24);
    } else {
      var n := |q| - 1;
      MultiplesEven(q[..n]);
      OddSum(Times(q[..n]) + [false], Zeros(n) + Scaled(q[n]));
      OddJoin(Times(q[..n]), [false]);
      assert [false] == Zeros(1);
      OddZeros(1);
      OddJoin(Zeros(n), Scaled(q[n]));
      OddZeros(n);
      GeneratorEven(q[n]);
    }
  }

  /** Any odd number of flipped bits is detected at any length. */
  lemma OddDetected(c: Poly, e: Poly)
    requires |c| == |e| && Rem(c) == Zeros(24) && Odd(e)
    ensures Rem(Sum(c, e)) != Zeros(24)
  {
    hide Rem, Feed, Odd, Times;
    Undetected(c, e);
    if Rem(e) == Zeros(24) {
      var p := Padded(24, e);
      LeadingZeros(24, e);
      var q := Quotient(p);
      assert Padded(|q|, Zeros(24)) == Zeros(|p|) && Sum(Times(q), Zeros(|p|)) == Times(q);
      MultiplesEven(q);
      OddJoin(Zeros(24), e);
      OddZeros(24);
    }
  }

  // ----- the register and the table -----

  type Byte = b: Poly | |b| == 8 witness Zeros(8)
  type Word = w: Poly | |w| == 32 witness Zeros(32)

  /** Multiplication of a register by x^8. */
  function Mul8(r: Poly): (s: Poly)
    requires |r| == 24
    ensures |s| == 24
  {
    Rem(r + Zeros(8))
  }

  lemma Mul8Linear(a: Poly, b: Poly)
    requires |a| == |b| == 24
    ensures Mul8(Sum(a, b)) == Sum(Mul8(a), Mul8(b))
  {
    hide Rem;
    assert Sum(a, b) + Zeros(8) == Sum(a + Zeros(8), b + Zeros(8));
    RemLinear(a + Zeros(8), b + Zeros(8));
  }

  /** More zeros: the remainder can be taken first. */
  lemma {:induction false} RemOfRem(p: Poly, n: nat)
    ensures Rem(p + Zeros(n)) == Rem(Rem(p) + Zeros(n))
  {
    hide Feed, Rem;
    if n == 0 {
      assert p + Zeros(0) == p && Rem(p) + Zeros(0) == Rem(p) && Zeros(0) + Rem(p) == Rem(p);
      RemShort(Rem(p));
    } else {
      assert p + Zeros(n) == (p + Zeros(n - 1)) + [false] && Rem(p) + Zeros(n) == (Rem(p) + Zeros(n - 1)) + [false];
      RemNext(p + Zeros(n - 1), false);
      RemNext(Rem(p) + Zeros(n - 1), false);
      RemOfRem(p, n - 1);
    }
  }

  /** The table's entry for byte v: v itself, then v times x^24 reduced. */
  function Entry(v: Byte): (w: Word)
  {
    v + Mul8(v + Zeros(16))
  }

  lemma EntryLinear(a: Byte, b: Byte)
    ensures Entry(Sum(a, b)) == Sum(Entry(a), Entry(b))
  {
    hide Mul8;
    assert Sum(a, b) + Zeros(16) == Sum(a + Zeros(16), b + Zeros(16));
    Mul8Linear(a + Zeros(16), b + Zeros(16));
  }

  function Value(p: Poly): nat
  {
    if p == [] then 0 else 2 * Value(p[..|p| - 1]) + if p[|p| - 1] then 1 else 0
  }

  /** A word's value, read from its highest bit. */
  lemma {:induction false} ValueTop(b: bool, p: Poly)
    ensures Value([b] + p) == Value(p) + if b then Pow2(|p|) else 0
    ensures Value(p) < Pow2(|p|)
  {
    if p == [] {
      assert Value([b][..0]) == 0;
    } else {
      var n := |p| - 1;
      assert ([b] + p)[..|p|] == [b] + p[..n];
      ValueTop(b, p[..n]);
    }
  }

  function One(k: nat): (v: Byte)
    requires k < 8
  {
    Zeros(7 - k) + [true] + Zeros(k)
  }

  const CRCPOLY: Word := Zeros(7) + [true] + LOW

  /** What the loop does to h: shift, and subtract the generator if bit 24 is set. */
  function NextH(h: Word): Word
  {
    var s := h[1..] + [false];
    if s[7] then Sum(s, CRCPOLY) else s
  }

  lemma FirstH()
    ensures Entry(One(0)) == CRCPOLY
  {
    hide Feed, Rem;
    var p := [true] + Zeros(23);
    assert One(0) + Zeros(16) + Zeros(8) == Zeros(7) + (p + [false]);
    LeadingZeros(7, p + [false]);
    RemNext(p, false);
    RemShort(p);
    assert Zeros(0) + p == p;
    FeedTop();
  }

  lemma FeedTop()
    ensures Feed([true] + Zeros(23), false) == LOW
  {
  }

  lemma HStep(k: nat)
    requires k < 7
    ensures NextH(Entry(One(k))) == Entry(One(k + 1))
  {
    hide Rem;
    var r := Mul8(One(k) + Zeros(16));
    var p := One(k) + Zeros(16) + Zeros(8);
    assert [false] + (One(k + 1) + Zeros(16) + Zeros(8)) == p + [false];
    assert [false] == Zeros(1);
    LeadingZeros(1, One(k + 1) + Zeros(16) + Zeros(8));
    RemNext(p, false);
    assert Mul8(One(k + 1) + Zeros(16)) == Feed(r, false);
    var s := Entry(One(k))[1..] + [false];
    assert s == One(k)[1..] + r + [false];
    HShape(k, r);
  }

  lemma HShape(k: nat, r: Poly)
    requires k < 7 && |r| == 24
    ensures var s: Word := One(k)[1..] + r + [false];
            (if s[7] then Sum(s, CRCPOLY) else s) == One(k + 1) + Feed(r, false)
  {
  }

  /** The entries for bytes of k low bits are in place. */
  ghost predicate Filled(table: seq<Word>, k: nat)
    requires k <= 8 && |table| == 256
  {
    forall w: Poly :: |w| == k && Value(w) < 256 ==> table[Value(w)] == Entry(Zeros(8 - k) + w)
  }

  lemma FillsNext(was: seq<Word>, table: seq<Word>, k: nat)
    requires k < 8 && |was| == |table| == 256 && Pow2(k) <= 128 && Filled(was, k)
    requires forall m: nat :: m < Pow2(k) ==> table[m] == was[m] && table[Pow2(k) + m] == Sum(was[m], Entry(One(k)))
    ensures Filled(table, k + 1)
  {
    hide Entry, Value, Pow2;
    forall w: Poly | |w| == k + 1 && Value(w) < 256 ensures table[Value(w)] == Entry(Zeros(7 - k) + w) {
      var low := w[1..];
      assert w == [w[0]] + low;
      ValueTop(w[0], low);
      assert was[Value(low)] == Entry(Zeros(8 - k) + low);
      if w[0] {
        assert Zeros(7 - k) + w == Sum(Zeros(8 - k) + low, One(k));
        EntryLinear(Zeros(8 - k) + low, One(k));
      } else {
        assert Zeros(7 - k) + w == Zeros(8 - k) + low;
      }
    }
  }

  lemma SmallPowers(k: nat)
    requires k <= 8
    ensures Pow2(k) <= 256 && (k < 8 ==> Pow2(k) <= 128) && (Pow2(k) < 256 ==> k < 8)
    ensures k > 0 ==> Pow2(k) == 2 * Pow2(k - 1)
  {
    assert Pow2(0) == 1 && Pow2(1) == 2 && Pow2(2) == 4 && Pow2(3) == 8;
    assert Pow2(4) == 16 && Pow2(5) == 32 && Pow2(6) == 64 && Pow2(7) == 128 && Pow2(8) == 256;
  }

  lemma ZeroEntry()
    ensures Entry(Zeros(8)) == Zeros(32)
  {
    hide Rem;
    assert Zeros(8) + Zeros(16) + Zeros(8) == Zeros(32);
    RemZeros(32);
  }

  /** Rebuild the table by doubling. */
  method CrcInit(table: array<Word>)
    requires table.Length == 256
    modifies table
    ensures Filled(table[..], 8)
  {
    hide Entry, NextH, Pow2, Value;
    table[0] := Zeros(32);
    var h := CRCPOLY;
    table[1] := h;
    ghost var k := 1;
    StartFilled(table[..]);
    var i := 2;
    while i < 256
      invariant 1 <= k <= 8 && i == Pow2(k) && h == Entry(One(k - 1)) && Filled(table[..], k)
      decreases 8 - k
    {
      SmallPowers(k);
      SmallPowers(k + 1);
      HStep(k - 1);
      h := NextH(h);
      ghost var was := table[..];
      DoubleUp(table, i, h);
      FillsNext(was, table[..], k);
      i, k := i * 2, k + 1;
    }
    SmallPowers(k);
  }

  /** The second half of the first 2 i entries, from the first half. */
  method DoubleUp(table: array<Word>, i: nat, h: Word)
    requires table.Length == 256 && 2 * i <= 256
    modifies table
    ensures forall m: nat :: m < i ==> table[m] == old(table[m]) && table[i + m] == Sum(old(table[m]), h)
  {
    for j := 0 to i
      invariant forall m: nat :: m < i ==> table[m] == old(table[m])
      invariant forall m: nat :: m < j ==> table[i + m] == Sum(old(table[m]), h)
    {
      table[i + j] := Sum(table[j], h);
    }
  }

  lemma StartFilled(table: seq<Word>)
    requires |table| == 256 && table[0] == Zeros(32) && table[1] == CRCPOLY
    ensures Filled(table, 1) && CRCPOLY == Entry(One(0)) && Pow2(1) == 2
  {
    hide Entry;
    FirstH();
    ZeroEntry();
    assert Pow2(0) == 1;
    forall w: Poly | |w| == 1 && Value(w) < 256 ensures table[Value(w)] == Entry(Zeros(7) + w) {
      assert w == [w[0]] && w[..0] == [];
      if w[0] { assert One(0) == Zeros(7) + w; } else { assert Zeros(8) == Zeros(7) + w; }
    }
  }

  // ----- hashing -----

  function Bits(data: seq<Byte>): (p: Poly)
    ensures |p| == 8 * |data|
  {
    if data == [] then [] else Bits(data[..|data| - 1]) + data[|data| - 1]
  }

  /** The check value of a message: its remainder after 24 more zero bits. */
  function Crc(data: seq<Byte>): (r: Poly)
    ensures |r| == 24
  {
    Rem(Bits(data) + Zeros(24))
  }

  /** One more byte, bit by bit. */
  lemma CrcNext(data: seq<Byte>, d: Byte)
    ensures Crc(data + [d]) == Mul8(Sum(Crc(data), d + Zeros(16)))
  {
    hide Rem;
    assert (data + [d])[..|data|] == data;
    var a, b := Bits(data) + Zeros(8) + Zeros(24), Zeros(|Bits(data)|) + (d + Zeros(24));
    assert Bits(data + [d]) + Zeros(24) == Sum(a, b);
    RemLinear(a, b);
    assert a == Bits(data) + Zeros(24) + Zeros(8);
    RemOfRem(Bits(data) + Zeros(24), 8);
    LeadingZeros(|Bits(data)|, d + Zeros(24));
    assert d + Zeros(24) == d + Zeros(16) + Zeros(8);
    Mul8Linear(Crc(data), d + Zeros(16));
  }

  /** One more byte, by the table. */
  function TableStep(crc: Word, entry: Word): Word
  {
    Sum(crc[8..] + Zeros(8), entry)
  }

  lemma TableStepIs(crc: Word, d: Byte)
    ensures TableStep(crc, Entry(Sum(d, crc[8..16])))[8..] == Mul8(Sum(crc[8..], d + Zeros(16)))
  {
    hide Rem, Mul8;
    var hi, lo: Poly := crc[8..16], crc[16..];
    var top: Poly := Sum(d, hi) + Zeros(16);
    assert Sum(crc[8..], d + Zeros(16)) == Sum(top, Zeros(8) + lo);
    Mul8Linear(top, Zeros(8) + lo);
    ShiftLow(lo);
    assert TableStep(crc, Entry(Sum(d, hi)))[8..] == Sum(lo + Zeros(8), Mul8(top));
    assert Sum(lo + Zeros(8), Mul8(top)) == Sum(Mul8(top), lo + Zeros(8));
  }

  lemma ShiftLow(lo: Poly)
    requires |lo| == 16
    ensures Mul8(Zeros(8) + lo) == lo + Zeros(8)
  {
    hide Rem;
    assert Zeros(8) + lo + Zeros(8) == Zeros(8) + (lo + Zeros(8));
    LeadingZeros(8, lo + Zeros(8));
    RemShort(lo + Zeros(8));
    assert Zeros(0) + (lo + Zeros(8)) == lo + Zeros(8);
  }

  lemma EntryOf(table: seq<Word>, v: Byte)
    requires |table| == 256 && Filled(table, 8)
    ensures Value(v) < 256 && table[Value(v)] == Entry(v)
  {
    hide Entry;
    ValueTop(false, v);
    SmallPowers(8);
    assert Zeros(0) + v == v;
    hide Value, Pow2;
  }

  lemma CrcNone()
    ensures Crc([]) == Zeros(24)
  {
    assert [] + Zeros(24) == Zeros(24);
    RemZeros(24);
  }

  /** The table-driven hash is the bitwise remainder. */
  method Hash(table: array<Word>, data: seq<Byte>) returns (r: Word)
    requires table.Length == 256 && Filled(table[..], 8)
    ensures r == Zeros(8) + Crc(data)
  {
    hide Entry, Crc, Mul8, Filled, Value, TableStep;
    var crc: Word := Zeros(32);
    CrcNone();
    for i := 0 to |data|
      invariant crc[8..] == Crc(data[..i])
    {
      var v: Byte := Sum(data[i], crc[8..16]);
      EntryOf(table[..], v);
      TableStepIs(crc, data[i]);
      CrcNext(data[..i], data[i]);
      assert data[..i + 1] == data[..i] + [data[i]];
      crc := TableStep(crc, table[Value(v)]);
    }
    assert data[..|data|] == data;
    r := Zeros(8) + crc[8..];
  }

  /** A message followed by 24 bits is a multiple of the generator exactly if they are its check value. */
  lemma CodeWord(m: Poly, t: Poly)
    requires |t| == 24
    ensures Rem(m + t) == Sum(Rem(m + Zeros(24)), t)
    ensures Rem(m + t) == Zeros(24) <==> t == Rem(m + Zeros(24))
  {
    hide Rem;
    var c := Rem(m + Zeros(24));
    assert m + t == Sum(m + Zeros(24), Zeros(|m|) + t);
    RemLinear(m + Zeros(24), Zeros(|m|) + t);
    LeadingZeros(|m|, t);
    RemShort(t);
    assert Zeros(0) + t == t;
    if Sum(c, t) == Zeros(24) {
      forall k | 0 <= k < 24 ensures t[k] == c[k] { assert !Sum(c, t)[k]; }
      assert t == c;
    }
  }

  /** The last three bytes, as one polynomial. */
  function Three(a: Poly, b: Poly, c: Poly): Poly { a + b + c }

  lemma BitsNext(data: seq<Byte>, d: Byte)
    ensures Bits(data + [d]) == Bits(data) + d
  {
    assert (data + [d])[..|data|] == data;
  }

  lemma BitsTail(data: seq<Byte>, a: Byte, b: Byte, c: Byte)
    ensures Bits(data + [a, b, c]) == Bits(data) + Three(a, b, c)
  {
    hide Bits;
    BitsNext(data, a);
    BitsNext(data + [a], b);
    BitsNext(data + [a] + [b], c);
    assert data + [a, b, c] == data + [a] + [b] + [c];
  }

  /** A message is accepted exactly if, with its last three bytes, it is a multiple of the generator. */
  method Check(table: array<Word>, data: seq<Byte>) returns (ok: bool)
    requires table.Length == 256 && Filled(table[..], 8) && 3 <= |data|
    ensures ok <==> Rem(Bits(data)) == Zeros(24)
  {
    hide Rem, Filled, Entry;
    var n := |data| - 3;
    var crc := Hash(table, data[..n]);
    ok := data[n] == crc[8..16] && data[n + 1] == crc[16..24] && data[n + 2] == crc[24..];
    assert data == data[..n] + [data[n], data[n + 1], data[n + 2]];
    BitsTail(data[..n], data[n], data[n + 1], data[n + 2]);
    var t := Three(data[n], data[n + 1], data[n + 2]);
    CodeWord(Bits(data[..n]), t);
    assert crc[8..] == Crc(data[..n]);
    assert data[n] == t[..8] && data[n + 1] == t[8..16] && data[n + 2] == t[16..];
    assert crc[8..] == crc[8..16] + crc[16..24] + crc[24..];
    assert crc[8..16] == crc[8..][..8] && crc[16..24] == crc[8..][8..16] && crc[24..] == crc[8..][16..];
  }

  /** A message with its check value appended is accepted. */
  lemma SignedIsAccepted(data: seq<Byte>, hi: Byte, mid: Byte, lo: Byte)
    requires Three(hi, mid, lo) == Crc(data)
    ensures Rem(Bits(data + [hi, mid, lo])) == Zeros(24)
  {
    hide Rem;
    BitsTail(data, hi, mid, lo);
    CodeWord(Bits(data), Three(hi, mid, lo));
  }
}
