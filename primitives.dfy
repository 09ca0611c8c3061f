/**
 * Machine integers of the driver (`u8`, `i8`), the bitwise AND it uses for
 * field masks, and the two's-complement cast `i8 as u8`.
 */
module Primitives {
  /** An unsigned byte (`u8`). */
  type Byte = b: int | 0 <= b < 256

  /** A signed byte (`i8`). */
  type I8 = x: int | -128 <= x < 128

  function Pow2(k: nat): (r: nat)
    ensures r >= 1
  {
    if k == 0 then 1 else 2 * Pow2(k - 1)
  }

  /** Bitwise AND of two naturals, one binary digit at a time. */
  function BitAnd(a: nat, b: nat): (r: nat)
    ensures r <= a && r <= b
  {
    if a == 0 || b == 0 then 0
    else 2 * BitAnd(a / 2, b / 2) + (if a % 2 == 1 && b % 2 == 1 then 1 else 0)
  }

  /** AND with a mask of k low one-bits keeps exactly the value modulo 2^k. */
  lemma {:induction false} AndLowMask(a: nat, k: nat)
    ensures BitAnd(a, Pow2(k) - 1) == a % Pow2(k)
  {
    if k == 0 {
    } else if a == 0 {
    } else {
      var m := Pow2(k) - 1;
      assert m / 2 == Pow2(k - 1) - 1 && m % 2 == 1;
      AndLowMask(a / 2, k - 1);
      DivModStep(a, Pow2(k - 1));
    }
  }

  lemma DivModStep(a: nat, p: nat)
    requires p >= 1
    ensures a % (2 * p) == 2 * ((a / 2) % p) + a % 2
  {
    var q, r := a / 2, a % 2;
    var qq, qr := q / p, q % p;
    assert q == p * qq + qr;
    calc {
      a;
      2 * q + r;
      2 * (p * qq + qr) + r;
      { assert 2 * (p * qq) == (2 * p) * qq; }
      (2 * p) * qq + (2 * qr + r);
    }
    ModUnique(a, 2 * p, qq, 2 * qr + r);
  }

  lemma ModUnique(a: nat, d: nat, q: nat, r: nat)
    requires d > 0 && a == d * q + r && r < d
    ensures a % d == r
  {
    var q', r' := a / d, a % d;
    if q' < q {
      assert d * (q' + 1) == d * q' + d;
      MulMono(d, q' + 1, q);
    } else if q < q' {
      assert d * (q + 1) == d * q + d;
      MulMono(d, q + 1, q');
    }
  }

  lemma {:induction false} MulMono(d: nat, x: nat, y: nat)
    requires x <= y
    ensures d * x <= d * y
  {
    if x < y {
      MulMono(d, x, y - 1);
      assert d * y == d * (y - 1) + d;
    }
  }

  /** `x & 0x7F` on a byte: the low seven bits. */
  function Low7(x: Byte): (r: Byte)
    ensures r == x % 128 && r < 128
  {
    AndLowMask(x, 7);
    BitAnd(x, 0x7F)
  }

  /** `x & 0x3` on a byte: the low two bits. */
  function Low2(x: Byte): (r: Byte)
    ensures r == x % 4 && r < 4
  {
    AndLowMask(x, 2);
    BitAnd(x, 0x3)
  }

  /** `x as u8` for an `i8`: the same eight bits read as unsigned. */
  function AsU8(x: I8): (b: Byte)
    ensures b == x % 256
    ensures x >= 0 ==> b == x
    ensures x < 0 ==> b >= 128
  {
    if x < 0 then x + 256 else x
  }

  /** `b as i8` for a `u8`: the same eight bits read as two's complement. */
  function AsI8(b: Byte): (x: I8)
    ensures x % 256 == b
  {
    if b >= 128 then b - 256 else b
  }

  /** The cast loses nothing: reading the byte back as `i8` gives the offset again. */
  lemma AsU8RoundTrip(x: I8)
    ensures AsI8(AsU8(x)) == x
  {
  }

  /** Every byte is the image of exactly one `i8`. */
  lemma AsU8Bijective(b: Byte)
    ensures AsU8(AsI8(b)) == b
    ensures forall x: I8 :: AsU8(x) == b ==> x == AsI8(b)
  {
  }
}
