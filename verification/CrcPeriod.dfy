/** How far apart two flipped bits must be for the checksum to miss them: exactly a multiple of 2^23 - 1. */
module CrcPeriod {
  import opened Crc24q
  import opened CrcRegister

  /** The distance after which powers of x come round, and its prime factors. */
  const PERIOD: nat := 8388607
  const SMALL: nat := 47
  const LARGE: nat := 178481

  // ----- three powers of x -----

  lemma PowerSmallSquares()
    ensures Square(Reg(0x1)) == Reg(0x1) && Shift(Reg(0x1)) == Reg(0x2)
    ensures Square(Reg(0x2)) == Reg(0x4)
    ensures Square(Reg(0x4)) == Reg(0x10) && Shift(Reg(0x10)) == Reg(0x20)
    ensures Square(Reg(0x20)) == Reg(0x400) && Shift(Reg(0x400)) == Reg(0x800)
    ensures Square(Reg(0x800)) == Reg(0x400000) && Shift(Reg(0x400000)) == Reg(0x800000)
    ensures Square(Reg(0x800000)) == Reg(0xCEA429) && Shift(Reg(0xCEA429)) == Reg(0x1B04A9)
  {
  }

  lemma PowerSmall()
    ensures Power(47) == Reg(0x1B04A9)
  {
    PowerSmallSquares();
    hide Square, Shift;
    assert Power(0) == Reg(1);
    assert Power(1) == Reg(0x2);
    assert Power(2) == Reg(0x4);
    assert Power(5) == Reg(0x20);
    assert Power(11) == Reg(0x800);
    assert Power(23) == Reg(0x800000);
    assert Power(47) == Reg(0x1B04A9);
  }

  lemma PowerLargeSquares1()
    ensures Square(Reg(0x1)) == Reg(0x1) && Shift(Reg(0x1)) == Reg(0x2)
    ensures Square(Reg(0x2)) == Reg(0x4)
    ensures Square(Reg(0x4)) == Reg(0x10) && Shift(Reg(0x10)) == Reg(0x20)
    ensures Square(Reg(0x20)) == Reg(0x400)
    ensures Square(Reg(0x400)) == Reg(0x100000) && Shift(Reg(0x100000)) == Reg(0x200000)
    ensures Square(Reg(0x200000)) == Reg(0x86F251) && Shift(Reg(0x86F251)) == Reg(0x8BA859)
  {
  }

  lemma PowerLargeSquares2()
    ensures Square(Reg(0x8BA859)) == Reg(0x3F5F83) && Shift(Reg(0x3F5F83)) == Reg(0x7EBF06)
    ensures Square(Reg(0x7EBF06)) == Reg(0xE109EF)
    ensures Square(Reg(0xE109EF)) == Reg(0xFE912C)
    ensures Square(Reg(0xFE912C)) == Reg(0xE84F63) && Shift(Reg(0xE84F63)) == Reg(0x56D23D)
    ensures Square(Reg(0x56D23D)) == Reg(0x2107D8)
    ensures Square(Reg(0x2107D8)) == Reg(0xF52C59)
  {
  }

  lemma PowerLargeSquares3()
    ensures Square(Reg(0xF52C59)) == Reg(0x8EFC62) && Shift(Reg(0x8EFC62)) == Reg(0x9BB43F)
    ensures Square(Reg(0x9BB43F)) == Reg(0x6A0EBB) && Shift(Reg(0x6A0EBB)) == Reg(0xD41D76)
    ensures Square(Reg(0xD41D76)) == Reg(0x7A2F34)
    ensures Square(Reg(0x7A2F34)) == Reg(0xF24AE)
    ensures Square(Reg(0xF24AE)) == Reg(0xC9CA01)
    ensures Square(Reg(0xC9CA01)) == Reg(0xE08B39) && Shift(Reg(0xE08B39)) == Reg(0x475A89)
  {
  }

  lemma PowerLarge()
    ensures Power(178481) == Reg(0x475A89)
  {
    PowerLargeSquares1();
    PowerLargeSquares2();
    PowerLargeSquares3();
    hide Square, Shift;
    assert Power(0) == Reg(1);
    assert Power(1) == Reg(0x2);
    assert Power(2) == Reg(0x4);
    assert Power(5) == Reg(0x20);
    assert Power(10) == Reg(0x400);
    assert Power(21) == Reg(0x200000);
    assert Power(43) == Reg(0x8BA859);
    assert Power(87) == Reg(0x7EBF06);
    assert Power(174) == Reg(0xE109EF);
    assert Power(348) == Reg(0xFE912C);
    assert Power(697) == Reg(0x56D23D);
    assert Power(1394) == Reg(0x2107D8);
    assert Power(2788) == Reg(0xF52C59);
    assert Power(5577) == Reg(0x9BB43F);
    assert Power(11155) == Reg(0xD41D76);
    assert Power(22310) == Reg(0x7A2F34);
    assert Power(44620) == Reg(0xF24AE);
    assert Power(89240) == Reg(0xC9CA01);
    assert Power(178481) == Reg(0x475A89);
  }

  lemma PowerPeriodSquares1()
    ensures Square(Reg(0x1)) == Reg(0x1) && Shift(Reg(0x1)) == Reg(0x2)
    ensures Square(Reg(0x2)) == Reg(0x4) && Shift(Reg(0x4)) == Reg(0x8)
    ensures Square(Reg(0x8)) == Reg(0x40) && Shift(Reg(0x40)) == Reg(0x80)
    ensures Square(Reg(0x80)) == Reg(0x4000) && Shift(Reg(0x4000)) == Reg(0x8000)
    ensures Square(Reg(0x8000)) == Reg(0x19A3D2) && Shift(Reg(0x19A3D2)) == Reg(0x3347A4)
    ensures Square(Reg(0x3347A4)) == Reg(0xAF0F8C) && Shift(Reg(0xAF0F8C)) == Reg(0xD853E3)
  {
  }

  lemma PowerPeriodSquares2()
    ensures Square(Reg(0xD853E3)) == Reg(0xDBB68B) && Shift(Reg(0xDBB68B)) == Reg(0x3121ED)
    ensures Square(Reg(0x3121ED)) == Reg(0xF1C67E) && Shift(Reg(0xF1C67E)) == Reg(0x65C007)
    ensures Square(Reg(0x65C007)) == Reg(0xDC4B72) && Shift(Reg(0xDC4B72)) == Reg(0x3EDA1F)
    ensures Square(Reg(0x3EDA1F)) == Reg(0x37BC8F) && Shift(Reg(0x37BC8F)) == Reg(0x6F791E)
    ensures Square(Reg(0x6F791E)) == Reg(0xCC636B) && Shift(Reg(0xCC636B)) == Reg(0x1E8A2D)
    ensures Square(Reg(0x1E8A2D)) == Reg(0xF249A8) && Shift(Reg(0xF249A8)) == Reg(0x62DFAB)
  {
  }

  lemma PowerPeriodSquares3()
    ensures Square(Reg(0x62DFAB)) == Reg(0x47A26) && Shift(Reg(0x47A26)) == Reg(0x8F44C)
    ensures Square(Reg(0x8F44C)) == Reg(0x98065A) && Shift(Reg(0x98065A)) == Reg(0xB6404F)
    ensures Square(Reg(0xB6404F)) == Reg(0x63B7C4) && Shift(Reg(0x63B7C4)) == Reg(0xC76F88)
    ensures Square(Reg(0xC76F88)) == Reg(0x5769B7) && Shift(Reg(0x5769B7)) == Reg(0xAED36E)
    ensures Square(Reg(0xAED36E)) == Reg(0x3B0470) && Shift(Reg(0x3B0470)) == Reg(0x7608E0)
    ensures Square(Reg(0x7608E0)) == Reg(0xB90578) && Shift(Reg(0xB90578)) == Reg(0xF4460B)
  {
  }

  lemma PowerPeriodSquares4()
    ensures Square(Reg(0xF4460B)) == Reg(0xFACA46) && Shift(Reg(0xFACA46)) == Reg(0x73D877)
    ensures Square(Reg(0x73D877)) == Reg(0xF4ADE9) && Shift(Reg(0xF4ADE9)) == Reg(0x6F1729)
    ensures Square(Reg(0x6F1729)) == Reg(0xCECE16) && Shift(Reg(0xCECE16)) == Reg(0x1BD0D7)
    ensures Square(Reg(0x1BD0D7)) == Reg(0xE256BA) && Shift(Reg(0xE256BA)) == Reg(0x42E18F)
    ensures Square(Reg(0x42E18F)) == Reg(0xC3267D) && Shift(Reg(0xC3267D)) == Reg(0x1)
  {
  }

  lemma PowerPeriod()
    ensures Power(8388607) == Reg(0x1)
  {
    PowerPeriodSquares1();
    PowerPeriodSquares2();
    PowerPeriodSquares3();
    PowerPeriodSquares4();
    hide Square, Shift;
    assert Power(0) == Reg(1);
    assert Power(1) == Reg(0x2);
    assert Power(3) == Reg(0x8);
    assert Power(7) == Reg(0x80);
    assert Power(15) == Reg(0x8000);
    assert Power(31) == Reg(0x3347A4);
    assert Power(63) == Reg(0xD853E3);
    assert Power(127) == Reg(0x3121ED);
    assert Power(255) == Reg(0x65C007);
    assert Power(511) == Reg(0x3EDA1F);
    assert Power(1023) == Reg(0x6F791E);
    assert Power(2047) == Reg(0x1E8A2D);
    assert Power(4095) == Reg(0x62DFAB);
    assert Power(8191) == Reg(0x8F44C);
    assert Power(16383) == Reg(0xB6404F);
    assert Power(32767) == Reg(0xC76F88);
    assert Power(65535) == Reg(0xAED36E);
    assert Power(131071) == Reg(0x7608E0);
    assert Power(262143) == Reg(0xF4460B);
    assert Power(524287) == Reg(0x73D877);
    assert Power(1048575) == Reg(0x6F1729);
    assert Power(2097151) == Reg(0x1BD0D7);
    assert Power(4194303) == Reg(0x42E18F);
    assert Power(8388607) == Reg(0x1);
  }

  // ----- periods -----

  /** Distances at which powers of x come round. */
  ghost predicate Period(n: nat)
  {
    Rem([true] + Zeros(n)) == Rem([true])
  }

  lemma PeriodExactly(n: nat)
    ensures Period(n) <==> Power(n) == ONE
  {
    hide Holds, Rem;
    PowerIs(n);
    OneIs();
    if Period(n) { SameWord(Power(n), ONE, Rem([true])); }
    if Power(n) == ONE { SamePoly(ONE, Rem([true] + Zeros(n)), Rem([true])); }
  }

  lemma SamePoly(v: Reg, p: Poly, q: Poly)
    requires Holds(v, p) && Holds(v, q)
    ensures p == q
  {
    hide Has, Bit;
    forall k | 0 <= k < 24 ensures p[k] == q[k] {}
  }

  lemma {:induction false} PeriodSum(m: nat, n: nat)
    requires Period(m)
    ensures Rem([true] + Zeros(m + n)) == Rem([true] + Zeros(n))
  {
    hide Rem, Feed;
    if n == 0 {
      assert [true] + Zeros(0) == [true];
    } else {
      PeriodSum(m, n - 1);
      assert [true] + Zeros(m + n) == ([true] + Zeros(m + n - 1)) + [false];
      assert [true] + Zeros(n) == ([true] + Zeros(n - 1)) + [false];
      RemNext([true] + Zeros(m + n - 1), false);
      RemNext([true] + Zeros(n - 1), false);
    }
  }

  lemma {:induction false} PeriodMultiple(m: nat, k: nat, n: nat, x: nat)
    requires Period(m) && x == m * k + n
    ensures Period(x) <==> Period(n)
    decreases k
  {
    hide Period;
    if k > 0 {
      assert m * k == m + m * (k - 1);
      Nonnegative(m, k - 1);
      PeriodMultiple(m, k - 1, n, x - m);
      PeriodMore(m, x - m);
    }
  }

  lemma Nonnegative(m: nat, k: nat)
    ensures 0 <= m * k
  {
  }

  lemma PeriodMore(m: nat, n: nat)
    requires Period(m)
    ensures Period(m + n) <==> Period(n)
  {
    hide Rem;
    PeriodSum(m, n);
  }

  /** Two periods have a common divisor that is one. */
  lemma {:induction false} CommonPeriod(a: nat, b: nat) returns (d: nat, i: nat, j: nat)
    requires Period(a) && Period(b) && 0 < a
    ensures 0 < d && Period(d) && a == d * i && b == d * j
    decreases a
  {
    hide Period;
    var r, q := b % a, b / a;
    assert b == a * q + r;
    PeriodMultiple(a, q, r, b);
    if r == 0 {
      d, i, j := a, 1, q;
    } else {
      var u;
      d, u, i := CommonPeriod(r, a);
      j := i * q + u;
      assert b == d * i * q + d * u == d * j;
    }
  }

  // ----- the period of the generator -----

  /** None of the twenty numbers from q on divides n. */
  predicate NoneOfTwenty(n: nat, q: nat)
    requires 0 < q
  {
    && n % q != 0 && n % (q + 1) != 0 && n % (q + 2) != 0 && n % (q + 3) != 0 && n % (q + 4) != 0
    && n % (q + 5) != 0 && n % (q + 6) != 0 && n % (q + 7) != 0 && n % (q + 8) != 0 && n % (q + 9) != 0
    && n % (q + 10) != 0 && n % (q + 11) != 0 && n % (q + 12) != 0 && n % (q + 13) != 0 && n % (q + 14) != 0
    && n % (q + 15) != 0 && n % (q + 16) != 0 && n % (q + 17) != 0 && n % (q + 18) != 0 && n % (q + 19) != 0
  }

  predicate NoFactor(n: nat, q: nat, rows: nat)
    requires 0 < q
    decreases rows
  {
    rows == 0 || (NoneOfTwenty(n, q) && NoFactor(n, q + 20, rows - 1))
  }

  lemma {:induction false} NoFactorIs(n: nat, q: nat, rows: nat, x: nat)
    requires 0 < q <= x < q + 20 * rows && NoFactor(n, q, rows)
    ensures n % x != 0
    decreases rows
  {
    if q + 20 <= x { NoFactorIs(n, q + 20, rows - 1, x); }
  }

  ghost predicate Prime(n: nat)
  {
    1 < n && forall a: nat, b: nat :: a * b == n ==> a == 1 || b == 1
  }

  lemma ByTrial(n: nat, rows: nat)
    requires 1 < n < (20 * rows + 2) * (20 * rows + 2) && NoFactor(n, 2, rows)
    ensures Prime(n)
  {
    hide NoFactor;
    forall a: nat, b: nat | a * b == n ensures a == 1 || b == 1 {
      if a != 1 && b != 1 {
        var x, y := if a <= b then a else b, if a <= b then b else a;
        assert x * y == n;
        SmallerFactor(x, y, 20 * rows + 2);
        NoFactorIs(n, 2, rows, x);
        MultipleOf(x, y);
        assert false;
      }
    }
  }

  lemma SmallerFactor(x: nat, y: nat, top: nat)
    requires x <= y && 0 < x * y < top * top
    ensures 0 < x < top
  {
    if top <= x {
      ProductAtLeast(x, top, y);
      assert false;
    }
  }

  lemma ProductAtLeast(x: nat, top: nat, y: nat)
    requires top <= x <= y
    ensures top * top <= x * y
  {
    assert top * top <= x * top <= x * y;
  }

  lemma MultipleOf(x: nat, y: nat)
    requires 0 < x
    ensures (x * y) % x == 0
  {
    var n := x * y;
    var q, r := n / x, n % x;
    assert n == x * q + r;
    assert r == x * (y - q);
    Apart(x, y - q);
  }

  lemma Apart(x: nat, z: int)
    ensures (1 <= z ==> x <= x * z) && (z <= -1 ==> x * z + x <= 0)
  {
  }

  lemma SmallIsPrime()
    ensures Prime(SMALL)
  {
    hide Prime;
    assert NoneOfTwenty(47, 2);
    hide NoneOfTwenty;
    assert NoFactor(47, 22, 0);
    assert NoFactor(47, 2, 1);
    ByTrial(47, 1);
  }

  lemma LargeTrial1()
    ensures NoneOfTwenty(178481, 2)
    ensures NoneOfTwenty(178481, 22)
    ensures NoneOfTwenty(178481, 42)
    ensures NoneOfTwenty(178481, 62)
    ensures NoneOfTwenty(178481, 82)
    ensures NoneOfTwenty(178481, 102)
    ensures NoneOfTwenty(178481, 122)
    ensures NoneOfTwenty(178481, 142)
    ensures NoneOfTwenty(178481, 162)
    ensures NoneOfTwenty(178481, 182)
    ensures NoneOfTwenty(178481, 202)
  {
  }

  lemma LargeTrial2()
    ensures NoneOfTwenty(178481, 222)
    ensures NoneOfTwenty(178481, 242)
    ensures NoneOfTwenty(178481, 262)
    ensures NoneOfTwenty(178481, 282)
    ensures NoneOfTwenty(178481, 302)
    ensures NoneOfTwenty(178481, 322)
    ensures NoneOfTwenty(178481, 342)
    ensures NoneOfTwenty(178481, 362)
    ensures NoneOfTwenty(178481, 382)
    ensures NoneOfTwenty(178481, 402)
    ensures NoneOfTwenty(178481, 422)
  {
  }

  lemma LargeIsPrime()
    ensures Prime(LARGE)
  {
    hide Prime, NoneOfTwenty;
    LargeTrial1();
    LargeTrial2();
    assert NoFactor(178481, 442, 0);
    assert NoFactor(178481, 422, 1);
    assert NoFactor(178481, 402, 2);
    assert NoFactor(178481, 382, 3);
    assert NoFactor(178481, 362, 4);
    assert NoFactor(178481, 342, 5);
    assert NoFactor(178481, 322, 6);
    assert NoFactor(178481, 302, 7);
    assert NoFactor(178481, 282, 8);
    assert NoFactor(178481, 262, 9);
    assert NoFactor(178481, 242, 10);
    assert NoFactor(178481, 222, 11);
    assert NoFactor(178481, 202, 12);
    assert NoFactor(178481, 182, 13);
    assert NoFactor(178481, 162, 14);
    assert NoFactor(178481, 142, 15);
    assert NoFactor(178481, 122, 16);
    assert NoFactor(178481, 102, 17);
    assert NoFactor(178481, 82, 18);
    assert NoFactor(178481, 62, 19);
    assert NoFactor(178481, 42, 20);
    assert NoFactor(178481, 22, 21);
    assert NoFactor(178481, 2, 22);
    hide NoFactor;
    ByTrial(178481, 22);
  }

  /** What divides a product and is prime divides one of the factors. */
  lemma {:induction false} Euclid(p: nat, a: nat, b: nat, k: int) returns (m: int)
    requires Prime(p) && 0 < a < p && a * b == p * k
    ensures b == p * m
    decreases a
  {
    if a == 1 {
      m := k;
    } else {
      var q, r := p / a, p % a;
      assert p == a * q + r;
      Remainder(p, a, b, k, q, r);
      if r == 0 {
        assert false;
      }
      m := Euclid(p, r, b, b - q * k);
    }
  }

  lemma Remainder(p: nat, a: nat, b: nat, k: int, q: nat, r: nat)
    requires a * b == p * k && p == a * q + r
    ensures r * b == p * (b - q * k)
  {
    calc {
      r * b;
      (p - a * q) * b;
      p * b - q * (a * b);
      p * b - q * (p * k);
      p * (b - q * k);
    }
  }

  lemma TheseArePeriods()
    ensures Period(PERIOD) && !Period(SMALL) && !Period(LARGE)
  {
    hide Power, Period;
    PowerPeriod();
    PowerSmall();
    PowerLarge();
    PeriodExactly(PERIOD);
    PeriodExactly(SMALL);
    PeriodExactly(LARGE);
  }

  lemma PeriodTimes(d: nat, m: nat, x: nat)
    requires Period(d) && x == d * m
    ensures Period(x)
  {
    hide Rem;
    assert [true] + Zeros(0) == [true];
    PeriodMultiple(d, m, 0, x);
  }

  /** A divisor of both primes' product, other than the product, is 1 or one of them. */
  lemma Divisor(d: nat, j: nat)
    requires d * j == SMALL * LARGE && j != 1
    ensures exists m: nat :: d * m == SMALL || d * m == LARGE
  {
    SmallIsPrime();
    LargeIsPrime();
    var u, a := d / LARGE, d % LARGE;
    assert d == LARGE * u + a;
    if a == 0 {
      assert LARGE * (u * j) == LARGE * SMALL;
      assert u * j == SMALL;
      assert d * 1 == LARGE;
    } else {
      assert a * j == LARGE * (SMALL - u * j);
      var m := Euclid(LARGE, a, j, SMALL - u * j);
      assert LARGE * (d * m) == LARGE * SMALL;
      assert d * m == SMALL;
    }
  }

  lemma NoShorterPeriod(r: nat)
    requires 0 < r < PERIOD
    ensures !Period(r)
  {
    hide Period, Prime;
    TheseArePeriods();
    if Period(r) {
      var d, i, j := CommonPeriod(r, PERIOD);
      Divisor(d, j);
      var m: nat :| d * m == SMALL || d * m == LARGE;
      PeriodTimes(d, m, if d * m == SMALL then SMALL else LARGE);
      assert false;
    }
  }

  /** Powers of x come round after 2^23 - 1 steps, and not before. */
  lemma PeriodIff(n: nat)
    ensures Period(n) <==> n % PERIOD == 0
  {
    hide Rem;
    var q, r := n / PERIOD, n % PERIOD;
    TheseArePeriods();
    assert n == PERIOD * q + r;
    PeriodMultiple(PERIOD, q, r, n);
    if r == 0 { assert [true] + Zeros(0) == [true]; } else { NoShorterPeriod(r); }
  }

  // ----- double errors -----

  /** Two flipped bits go undetected if and only if their distance is a multiple of 2^23 - 1. */
  lemma DoubleUndetectedExactly(c: Poly, before: nat, apart: nat, after: nat)
    requires 0 < apart && |c| == before + apart + 1 + after && Rem(c) == Zeros(24)
    ensures Rem(Sum(c, Double(before, apart, after))) == Zeros(24) <==> apart % PERIOD == 0
  {
    hide Rem;
    DoubleUndetected(c, before, apart, after);
    PeriodIff(apart);
  }

  /** No two flipped bits turn a code word of n bits into another one. */
  ghost predicate DetectsDoubles(n: nat)
  {
    forall c: Poly, before: nat, apart: nat, after: nat ::
      |c| == n == before + apart + 1 + after && 0 < apart && Rem(c) == Zeros(24) ==>
        Rem(Sum(c, Double(before, apart, after))) != Zeros(24)
  }

  /** All double errors are detected exactly up to code words of 2^23 - 1 bits. */
  lemma DoublesDetectedExactly(n: nat)
    ensures DetectsDoubles(n) <==> n <= PERIOD
  {
    hide Rem;
    if n <= PERIOD {
      forall c: Poly, before: nat, apart: nat, after: nat
        | |c| == n == before + apart + 1 + after && 0 < apart && Rem(c) == Zeros(24)
        ensures Rem(Sum(c, Double(before, apart, after))) != Zeros(24)
      {
        DoubleUndetectedExactly(c, before, apart, after);
      }
    } else {
      var c := Zeros(n);
      RemZeros(n);
      DoubleUndetectedExactly(c, 0, PERIOD, n - PERIOD - 1);
    }
  }
}
