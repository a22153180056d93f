/** Which tree bin of the heap a chunk size belongs to, and which of its bits steer the walk. */
module TreeIndex {

  const NTREEBINS: nat := 32
  const TREEBIN_SHIFT: nat := 8
  const MIN_LARGE_SIZE: nat := 256
  const SIZE_LIMIT: nat := 0x100_0000_0000

  function Pow2(n: nat): (r: nat)
    ensures r >= 1
  {
    if n == 0 then 1 else 2 * Pow2(n - 1)
  }

  lemma {:induction false} Pow2Sum(m: nat, n: nat)
    ensures Pow2(m + n) == Pow2(m) * Pow2(n)
  {
    if n > 0 {
      Pow2Sum(m, n - 1);
      assert Pow2(m + n) == 2 * Pow2(m + n - 1);
    }
  }

  lemma {:induction false} Pow2Grows(m: nat, n: nat)
    requires m <= n
    ensures Pow2(m) <= Pow2(n)
  {
    if m < n { Pow2Grows(m, n - 1); }
  }

  lemma Pow2Values()
    ensures Pow2(4) == 16 && Pow2(7) == 128 && Pow2(8) == 256 && Pow2(16) == 0x1_0000 && Pow2(24) == 0x100_0000
    ensures Pow2(32) == 0x1_0000_0000 && Pow2(40) == SIZE_LIMIT
    ensures Pow2(63) == 0x8000_0000_0000_0000 && Pow2(64) == 0x1_0000_0000_0000_0000
  {
    assert Pow2(4) == 2 * Pow2(3) == 4 * Pow2(2) == 8 * Pow2(1) == 16;
    Pow2Sum(4, 4);
    assert Pow2(8) == 2 * Pow2(7);
    Pow2Sum(8, 8);
    Pow2Sum(16, 8);
    Pow2Sum(16, 16);
    Pow2Sum(32, 8);
    Pow2Sum(32, 32);
    assert Pow2(64) == 2 * Pow2(63);
  }

  /** The position of the highest set bit. */
  function Log2(x: nat): (k: nat)
    requires 0 < x
    ensures Pow2(k) <= x < Pow2(k + 1)
  {
    if x == 1 then 0 else Log2(x / 2) + 1
  }

  /** The size shifted right, in a 32-bit word. */
  function Word(s: nat): nat
  {
    s / 256 % 0x1_0000_0000
  }

  function ComputeTreeIndex(s: nat): nat
  {
    if Word(s) == 0 then 0
    else if 0xFFFF < Word(s) then NTREEBINS - 1
    else 2 * Log2(Word(s)) + HalfBit(s, Log2(Word(s)))
  }

  /** The bit below the highest one, for a size whose highest bit is k + 8. */
  function HalfBit(s: nat, k: nat): nat
  {
    s / Pow2(k + TREEBIN_SHIFT - 1) % 2
  }

  function MinSize(i: nat): nat
  {
    Pow2(i / 2 + TREEBIN_SHIFT) + (if i % 2 == 1 then Pow2(i / 2 + TREEBIN_SHIFT - 1) else 0)
  }

  lemma HalvesOf(s: nat, k: nat)
    requires Pow2(k + 8) <= s < Pow2(k + 9)
    ensures HalfBit(s, k) == (if s < Pow2(k + 8) + Pow2(k + 7) then 0 else 1)
  {
    var p := Pow2(k + 7);
    assert Pow2(k + 8) == 2 * p && Pow2(k + 9) == 4 * p;
    if s < 3 * p {
      DivIs(s, p, 2);
    } else {
      DivIs(s, p, 3);
    }
  }

  lemma MulMonotone(a: nat, b: nat, p: nat)
    requires a <= b
    ensures a * p <= b * p
  {
    assert b * p == a * p + (b - a) * p;
  }

  lemma DivIs(s: nat, p: nat, q: nat)
    requires 0 < p && q * p <= s < (q + 1) * p
    ensures s / p == q
  {
    var d := s / p;
    assert d * p <= s < d * p + p;
    assert (d + 1) * p == d * p + p;
    if d < q { MulMonotone(d + 1, q, p); }
    if q < d { MulMonotone(q + 1, d, p); }
  }

  /** Every size from 2^8 up to 2^40 is in the bracket of its bin; the last bin has no upper end. */
  lemma IndexBrackets(s: nat)
    requires MIN_LARGE_SIZE <= s < SIZE_LIMIT
    ensures var i := ComputeTreeIndex(s);
            i < NTREEBINS && MinSize(i) <= s && (i == NTREEBINS - 1 || s < MinSize(i + 1))
  {
    hide ComputeTreeIndex, Word, Pow2, MinSize, HalfBit, Log2;
    WordIs(s);
    IndexCases(s);
    if 0xFFFF < Word(s) {
      LastBinMin(s);
    } else {
      InnerIndex(s);
      InnerBrackets(s, Log2(Word(s)));
    }
  }

  lemma IndexCases(s: nat)
    requires 0 < Word(s)
    ensures ComputeTreeIndex(s) ==
            if 0xFFFF < Word(s) then NTREEBINS - 1 else 2 * Log2(Word(s)) + HalfBit(s, Log2(Word(s)))
  {
  }

  lemma WordIs(s: nat)
    requires MIN_LARGE_SIZE <= s < SIZE_LIMIT
    ensures 1 <= Word(s) && Word(s) == s / 256
  {
  }

  lemma LastBinMin(s: nat)
    requires MIN_LARGE_SIZE <= s < SIZE_LIMIT && 0xFFFF < Word(s)
    ensures MinSize(31) <= s
  {
    WordIs(s);
    Pow2Values();
    assert Pow2(24) == 2 * Pow2(23) && Pow2(23) == 2 * Pow2(22);
  }

  lemma InnerIndex(s: nat)
    requires MIN_LARGE_SIZE <= s < SIZE_LIMIT && 0 < Word(s) <= 0xFFFF
    ensures var k := Log2(Word(s)); k <= 15 && Pow2(k + 8) <= s < Pow2(k + 9)
  {
    WordIs(s);
    ScaledUp(s, s / 256, Log2(Word(s)));
  }

  lemma ScaledUp(s: nat, x: nat, k: nat)
    requires 256 * x <= s < 256 * (x + 1) && 0 < x <= 0xFFFF && Pow2(k) <= x < Pow2(k + 1)
    ensures k <= 15 && Pow2(k + 8) <= s < Pow2(k + 9)
  {
    Pow2Values();
    if 16 <= k { Pow2Grows(16, k); }
    Pow2Sum(k, 8);
    Pow2Sum(k + 1, 8);
    assert k + 9 == k + 1 + 8;
  }

  lemma InnerBrackets(s: nat, k: nat)
    requires Pow2(k + 8) <= s < Pow2(k + 9) && k <= 15
    ensures var i := 2 * k + HalfBit(s, k);
            i < NTREEBINS && MinSize(i) <= s < MinSize(i + 1)
  {
    HalvesOf(s, k);
    hide HalfBit;
    var p := Pow2(k + 7);
    assert Pow2(k + 8) == 2 * p && Pow2(k + 9) == 4 * p;
    if s < 3 * p {
      MinSizeIs(2 * k, k, 0);
      MinSizeIs(2 * k + 1, k, 1);
    } else {
      MinSizeIs(2 * k + 1, k, 1);
      MinSizeIs(2 * k + 2, k + 1, 0);
    }
  }

  lemma MinSizeIs(i: nat, k: nat, half: nat)
    requires i == 2 * k + half && half < 2
    ensures MinSize(i) == Pow2(k + 8) + (if half == 1 then Pow2(k + 7) else 0)
  {
    assert i / 2 == k && i % 2 == half;
  }

  lemma {:induction false} MinSizeGrows(i: nat, j: nat)
    requires i <= j
    ensures MinSize(i) <= MinSize(j)
  {
    hide MinSize, Pow2;
    if i < j {
      MinSizeGrows(i, j - 1);
      BracketWidth(j - 1);
    }
  }

  /** Sizes in a later bin are larger. */
  lemma LaterBinIsLarger(s: nat, t: nat)
    requires MIN_LARGE_SIZE <= s < SIZE_LIMIT && MIN_LARGE_SIZE <= t < SIZE_LIMIT
    requires ComputeTreeIndex(s) < ComputeTreeIndex(t)
    ensures s < t
  {
    hide ComputeTreeIndex, MinSize, Pow2;
    IndexBrackets(s);
    IndexBrackets(t);
    MinSizeGrows(ComputeTreeIndex(s) + 1, ComputeTreeIndex(t));
  }

  // ----- the portable form of the index computation -----

  /** The shifts and masks that stand in for a count of leading zeros, on 32-bit words. */
  function PortableLog2(x: bv32): bv32
  {
    var n0 := ((x - 0x100) >> 16) & 8;
    var y0 := x << (n0 as bv6);
    var k1 := ((y0 - 0x1000) >> 16) & 4;
    var y1 := y0 << (k1 as bv6);
    var k2 := ((y1 - 0x4000) >> 16) & 2;
    var y2 := y1 << (k2 as bv6);
    14 - (n0 + k1 + k2) + (y2 >> 15)
  }

  /** For every word the index computation passes it, it finds the highest set bit. */
  lemma PortableLog2Correct(x: bv32)
    requires 0 < x <= 0xFFFF
    ensures PortableLog2(x) <= 15
    ensures x >> (PortableLog2(x) as bv6) == 1
  {
  }

  lemma Log2Unique(x: nat, k: nat)
    requires 0 < x && Pow2(k) <= x < Pow2(k + 1)
    ensures Log2(x) == k
  {
    if Log2(x) < k { Pow2Grows(Log2(x) + 1, k); }
    if k < Log2(x) { Pow2Grows(k + 1, Log2(x)); }
  }

  /** A word that a shift by k brings down to its highest bit lies between two powers of two. */
  lemma ShiftedToOne(x: bv32, k: bv32) returns (n: nat)
    requires k <= 15 && x >> (k as bv6) == 1
    ensures n == k as nat && n <= 15 && Pow2(n) <= x as nat < Pow2(n + 1) && 0 < x as nat <= 0xFFFF
  {
    FirstPowers();
    hide Pow2;
    if k == 0 { n := 0; assert x >> 0 == 1; }
    else if k == 1 { n := 1; assert x >> 1 == 1; }
    else if k == 2 { n := 2; assert x >> 2 == 1; }
    else if k == 3 { n := 3; assert x >> 3 == 1; }
    else if k == 4 { n := 4; assert x >> 4 == 1; }
    else if k == 5 { n := 5; assert x >> 5 == 1; }
    else if k == 6 { n := 6; assert x >> 6 == 1; }
    else if k == 7 { n := 7; assert x >> 7 == 1; }
    else if k == 8 { n := 8; assert x >> 8 == 1; }
    else if k == 9 { n := 9; assert x >> 9 == 1; }
    else if k == 10 { n := 10; assert x >> 10 == 1; }
    else if k == 11 { n := 11; assert x >> 11 == 1; }
    else if k == 12 { n := 12; assert x >> 12 == 1; }
    else if k == 13 { n := 13; assert x >> 13 == 1; }
    else if k == 14 { n := 14; assert x >> 14 == 1; }
    else { n := 15; assert k == 15 && x >> 15 == 1; }
  }

  lemma FirstPowers()
    ensures Pow2(0) == 1 && Pow2(1) == 2 && Pow2(2) == 4 && Pow2(3) == 8 && Pow2(4) == 16 && Pow2(5) == 32
    ensures Pow2(6) == 64 && Pow2(7) == 128 && Pow2(8) == 256 && Pow2(9) == 512 && Pow2(10) == 1024
    ensures Pow2(11) == 2048 && Pow2(12) == 4096 && Pow2(13) == 8192 && Pow2(14) == 16384
    ensures Pow2(15) == 32768 && Pow2(16) == 65536
  {
    assert Pow2(4) == 16 && Pow2(8) == 256 && Pow2(12) == 4096 && Pow2(16) == 65536;
  }

  /** The shifts and masks find the same bit as the logarithm. */
  lemma PortableIsLog2(x: bv32)
    requires 0 < x <= 0xFFFF
    ensures 0 < x as nat <= 0xFFFF && PortableLog2(x) as nat == Log2(x as nat)
  {
    hide PortableLog2, Log2, Pow2;
    PortableLog2Correct(x);
    var n := ShiftedToOne(x, PortableLog2(x));
    Log2Unique(x as nat, n);
  }

  /** The portable form computes the same index. */
  lemma PortableIndex(s: nat, x: bv32)
    requires 0 < x <= 0xFFFF && x as nat == Word(s)
    ensures ComputeTreeIndex(s) == 2 * PortableLog2(x) as nat + HalfBit(s, PortableLog2(x) as nat)
  {
    hide PortableLog2, HalfBit, Log2, Word;
    PortableIsLog2(x);
  }

  // ----- the interval of a bin, and the bit a walk looks at -----

  /** All sizes of bin i lie in [Lo, Lo + Width): below that only lower bits differ. */
  function Width(i: nat): nat
  {
    if i == NTREEBINS - 1 then Pow2(64) else Pow2(i / 2 + TREEBIN_SHIFT - 1)
  }

  function Lo(i: nat): nat
  {
    if i == NTREEBINS - 1 then 0 else MinSize(i)
  }

  function LeftShift(i: nat): nat
    requires i < NTREEBINS
  {
    if i == NTREEBINS - 1 then 0 else 63 - (i / 2 + TREEBIN_SHIFT - 2)
  }

  lemma BinInterval(s: nat)
    requires MIN_LARGE_SIZE <= s < SIZE_LIMIT
    ensures var i := ComputeTreeIndex(s); i < NTREEBINS && Lo(i) <= s < Lo(i) + Width(i)
  {
    hide ComputeTreeIndex, MinSize;
    IndexBrackets(s);
    var i := ComputeTreeIndex(s);
    if i < NTREEBINS - 1 {
      BracketWidth(i);
    } else {
      Pow2Values();
    }
  }

  lemma BracketWidth(i: nat)
    ensures MinSize(i + 1) == MinSize(i) + Pow2(i / 2 + 7)
  {
    var k, half := i / 2, i % 2;
    MinSizeIs(i, k, half);
    assert Pow2(k + 8) == 2 * Pow2(k + 7) && Pow2(k + 9) == 2 * Pow2(k + 8);
    if half == 0 { MinSizeIs(i + 1, k, 1); } else { MinSizeIs(i + 1, k + 1, 0); }
  }

  /** lo and Pow2(b) describe a subtree: an aligned interval of sizes that differ in the lowest b bits. */
  predicate Aligned(lo: nat, b: nat)
  {
    lo % Pow2(b) == 0 && b <= 64
  }

  /** size bits after the walk has come to a subtree of b free bits: its next free bit is in front. */
  function SizeBits(s: nat, b: nat): nat
    requires b <= 64
  {
    s * Pow2(64 - b) % Pow2(64)
  }

  lemma AlignedBits(s: nat, lo: nat, b: nat)
    requires Aligned(lo, b) && lo <= s < lo + Pow2(b)
    ensures SizeBits(s, b) == (s - lo) * Pow2(64 - b)
  {
    Pow2Sum(b, 64 - b);
    hide Pow2;
    AlignedArithmetic(s, lo, Pow2(b), Pow2(64 - b), Pow2(64));
  }

  lemma AlignedArithmetic(s: nat, lo: nat, p: nat, c: nat, m: nat)
    requires 0 < p && 0 < c && lo % p == 0 && lo <= s < lo + p && m == p * c
    ensures m != 0 && s * c % m == (s - lo) * c
  {
    var q, r := lo / p, s - lo;
    assert lo == q * p;
    assert s * c == q * p * c + r * c;
    assert q * p * c == q * (p * c);
    MulMonotone(r + 1, p, c);
    assert (r + 1) * c == r * c + c;
    ModIs(s * c, m, q, r * c);
  }

  lemma ModIs(a: nat, m: nat, q: nat, r: nat)
    requires 0 < m && a == q * m + r && r < m
    ensures a % m == r
  {
    DivIs(a, m, q);
  }

  /** The sign bit of a 64-bit word, and the word shifted left by one. */
  function TopBit(bits: nat): nat { bits / 0x8000_0000_0000_0000 }

  function Shl(bits: nat): nat { bits * 2 % 0x1_0000_0000_0000_0000 }

  /** The sign bit says in which half of the interval the size is, and one shift brings the next one up. */
  lemma SignBit(s: nat, lo: nat, b: nat)
    requires 0 < b && Aligned(lo, b) && lo <= s < lo + Pow2(b)
    ensures Pow2(b) == 2 * Pow2(b - 1)
    ensures Aligned(lo, b - 1) && Aligned(lo + Pow2(b - 1), b - 1)
    ensures TopBit(SizeBits(s, b)) == (if s < lo + Pow2(b - 1) then 0 else 1)
    ensures Shl(SizeBits(s, b)) == SizeBits(s, b - 1)
  {
    HalfFacts(b);
    HalfAligned(lo, b);
    AlignedBits(s, lo, b);
    hide Pow2, SizeBits, Aligned, TopBit, Shl;
    var h, c := Pow2(b - 1), Pow2(64 - b);
    if s < lo + h { AlignedBits(s, lo, b - 1); } else { AlignedBits(s, lo + h, b - 1); }
    SignArithmetic(s - lo, h, c);
  }

  lemma HalfFacts(b: nat)
    requires 0 < b <= 64
    ensures Pow2(b) == 2 * Pow2(b - 1) && Pow2(65 - b) == 2 * Pow2(64 - b)
    ensures Pow2(b - 1) * Pow2(64 - b) == 0x8000_0000_0000_0000
  {
    Pow2Sum(b - 1, 64 - b);
    Pow2Values();
  }

  lemma SignArithmetic(r: nat, h: nat, c: nat)
    requires r < 2 * h && 0 < c && h * c == 0x8000_0000_0000_0000
    ensures TopBit(r * c) == (if r < h then 0 else 1)
    ensures Shl(r * c) == (if r < h then r else r - h) * (2 * c)
  {
    var rest := if r < h then r else r - h;
    MulMonotone(rest + 1, h, c);
    assert (rest + 1) * c == rest * c + c;
    assert rest * (2 * c) == 2 * (rest * c);
    assert r * c == rest * c + (if r < h then 0 else h * c);
    Doubled(r * c, rest * c, if r < h then 0 else 1);
  }

  lemma Doubled(x: nat, rest: nat, top: nat)
    requires x == rest + top * 0x8000_0000_0000_0000 && rest < 0x8000_0000_0000_0000 && top <= 1
    ensures TopBit(x) == top && Shl(x) == 2 * rest
  {
  }

  lemma HalfAligned(lo: nat, b: nat)
    requires 0 < b && Aligned(lo, b)
    ensures Aligned(lo, b - 1) && Aligned(lo + Pow2(b - 1), b - 1)
  {
    var h, q := Pow2(b - 1), lo / Pow2(b);
    assert lo == q * Pow2(b) == (2 * q) * h;
    ModIs(lo, h, 2 * q, 0);
    assert lo + h == (2 * q + 1) * h;
    ModIs(lo + h, h, 2 * q + 1, 0);
  }

  /** How many low bits tell the sizes of bin i apart. */
  function FreeBits(i: nat): (b: nat)
    requires i < NTREEBINS
    ensures b <= 64
  {
    64 - LeftShift(i)
  }

  /** Where a walk starts: the left shift of the bin brings its first free bit to the front. */
  lemma WalkStart(i: nat)
    requires i < NTREEBINS
    ensures FreeBits(i) <= 64 && Aligned(Lo(i), FreeBits(i)) && Width(i) == Pow2(FreeBits(i))
  {
    if i < NTREEBINS - 1 {
      var k := i / 2;
      var p := Pow2(k + 7);
      assert Pow2(k + 8) == 2 * p;
      assert Lo(i) == (2 + i % 2) * p;
      ModIs(Lo(i), p, 2 + i % 2, 0);
    } else {
      assert 0 % Pow2(64) == 0;
    }
  }
}
