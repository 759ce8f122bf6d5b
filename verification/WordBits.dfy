/** The bits of the numbers behind 32-bit words. */
module WordBits {
  import opened Words
  import opened CpuTypes

  function Pow2(k: nat): (p: nat)
    ensures p > 0
  {
    if k == 0 then 1 else 2 * Pow2(k - 1)
  }

  function BitAt(x: nat, k: nat): nat {
    x / Pow2(k) % 2
  }

  lemma HalfBit(x: nat, k: nat)
    requires k > 0
    ensures BitAt(x, k) == BitAt(x / 2, k - 1)
  {
    var p := Pow2(k - 1);
    var q := x / 2 / p;
    assert x / 2 == q * p + x / 2 % p;
    assert x == 2 * (x / 2) + x % 2;
    assert x == q * (2 * p) + (2 * (x / 2 % p) + x % 2);
    QuotientIs(x, 2 * p, q, 2 * (x / 2 % p) + x % 2);
  }

  lemma QuotientIs(x: nat, m: nat, q: nat, rest: nat)
    requires x == q * m + rest && rest < m
    ensures x / m == q
  {
    var d := x / m;
    if d < q {
      Apart(d, q, m);
    } else {
      Apart(q, d, m);
    }
    assert d * m <= x < d * m + m;
  }

  lemma {:induction false} Apart(a: nat, b: nat, m: nat)
    requires a <= b
    ensures a * m <= b * m && (a < b ==> a * m + m <= b * m)
  {
    if a < b {
      Apart(a, b - 1, m);
      assert b * m == (b - 1) * m + m;
    }
  }

  lemma Doubled(x: bv32)
    requires x < 0x8000_0000
    ensures OfBits(x << 1) == 2 * OfBits(x)
  {
  }

  lemma DoubledOdd(x: bv32)
    requires x < 0x8000_0000
    ensures OfBits((x << 1) | 1) == 2 * OfBits(x) + 1
  {
  }

  /** A word is its upper half shifted back, with its lowest bit. */
  lemma Halved(x: bv32)
    ensures x >> 1 < 0x8000_0000
    ensures x & 1 == 1 ==> x == ((x >> 1) << 1) | 1
    ensures x & 1 != 1 ==> x == (x >> 1) << 1
  {
  }

  lemma HalvedNumber(x: bv32)
    ensures OfBits(x) / 2 == OfBits(x >> 1)
    ensures OfBits(x) % 2 == if x & 1 == 1 then 1 else 0
  {
    hide OfBits;
    Halved(x);
    if x & 1 == 1 {
      DoubledOdd(x >> 1);
    } else {
      Doubled(x >> 1);
    }
  }

  lemma AndHalved(x: bv32, y: bv32)
    ensures BitAnd(x, y) >> 1 == BitAnd(x >> 1, y >> 1)
    ensures BitAnd(x, y) & 1 == 1 <==> x & 1 == 1 && y & 1 == 1
  {
  }

  /** Bit by bit the word operation is the product of the operands' bits. */
  lemma {:induction false} AndBit(x: bv32, y: bv32, k: nat)
    ensures BitAt(OfBits(BitAnd(x, y)), k) == BitAt(OfBits(x), k) * BitAt(OfBits(y), k)
  {
    hide OfBits; hide BitAnd; hide BitAt;
    HalvedNumber(x);
    HalvedNumber(y);
    HalvedNumber(BitAnd(x, y));
    AndHalved(x, y);
    if k > 0 {
      AndBit(x >> 1, y >> 1, k - 1);
      HalfBit(OfBits(x), k);
      HalfBit(OfBits(y), k);
      HalfBit(OfBits(BitAnd(x, y)), k);
    } else {
      LowBit(OfBits(x));
      LowBit(OfBits(y));
      LowBit(OfBits(BitAnd(x, y)));
    }
  }

  lemma LowBit(x: nat)
    ensures BitAt(x, 0) == x % 2
  {
  }

  /** Every number is the value of some word. */
  lemma {:induction false} WordFor(a: u32, n: nat) returns (x: bv32)
    requires n <= 32 && a < Pow2(n)
    ensures OfBits(x) == a
  {
    hide OfBits;
    if n == 0 {
      x := 0;
      ZeroWord();
    } else {
      var y := WordFor(a / 2, n - 1);
      SmallWord(y);
      assert a / 2 < Pow2(31) == 0x8000_0000 by { PowGrows(n - 1, 31); Pow31(); }
      if a % 2 == 1 {
        DoubledOdd(y);
        x := (y << 1) | 1;
      } else {
        Doubled(y);
        x := y << 1;
      }
    }
  }

  lemma ZeroWord()
    ensures OfBits(0) == 0
  {
  }

  lemma SmallWord(x: bv32)
    ensures OfBits(x) < 0x8000_0000 ==> x < 0x8000_0000
  {
  }

  lemma {:induction false} PowGrows(k: nat, n: nat)
    requires k <= n
    ensures Pow2(k) <= Pow2(n)
  {
    if k < n {
      PowGrows(k, n - 1);
    }
  }

  lemma Pow31()
    ensures Pow2(31) == 0x8000_0000 && Pow2(32) == 0x1_0000_0000
  {
    assert Pow2(8) == 0x100;
    assert Pow2(16) == 0x1_0000;
    assert Pow2(24) == 0x100_0000;
  }

  lemma WordBack(x: bv32)
    ensures Bits(OfBits(x)) == x
  {
  }

  lemma WordOf(a: u32)
    ensures OfBits(Bits(a)) == a
  {
    hide OfBits; hide Bits;
    Pow31();
    var x := WordFor(a, 32);
    WordBack(x);
  }

  /** The bits determine the number. */
  lemma {:induction false} SameBits(x: nat, y: nat, n: nat)
    requires x < Pow2(n) && y < Pow2(n) && forall k: nat :: k < n ==> BitAt(x, k) == BitAt(y, k)
    ensures x == y
  {
    hide BitAt;
    if n > 0 {
      LowBit(x);
      LowBit(y);
      assert BitAt(x, 0) == BitAt(y, 0);
      forall k: nat | k < n - 1 ensures BitAt(x / 2, k) == BitAt(y / 2, k) {
        HalfBit(x, k + 1);
        HalfBit(y, k + 1);
        assert BitAt(x, k + 1) == BitAt(y, k + 1);
      }
      SameBits(x / 2, y / 2, n - 1);
    }
  }
}
