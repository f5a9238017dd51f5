/**
  Unsigned machine integers as bounded naturals, and facts about Euclidean division
  shared by the value semantics, the checksum and the front end.
*/
module Arith {
  const Two32: nat := 0x1_0000_0000

  /** An unsigned 32-bit integer (`u32`). */
  type U32 = x: nat | x < Two32

  /** An unsigned 16-bit integer (`u16`). */
  type U16 = x: nat | x < 0x1_0000

  /** `n as u32`: the low 32 bits of `n`. */
  function AsU32(n: int): U32 {
    n % Two32
  }

  lemma MulAtLeast(d: int, n: int)
    requires d > 0 && n >= 1
    ensures d * n >= d
  {
  }

  /** Quotient and remainder are the unique `q`, `r` with `a == d * q + r` and `0 <= r < d`. */
  lemma DivModUnique(a: int, d: int, q: int, r: int)
    requires d > 0 && a == d * q + r && 0 <= r < d
    ensures a / d == q && a % d == r
  {
    var q0 := a / d;
    var r0 := a % d;
    assert d * (q - q0) == r0 - r;
    if q > q0 {
      MulAtLeast(d, q - q0);
    } else if q < q0 {
      MulAtLeast(d, q0 - q);
    }
  }

  /** Subtracting a multiple of `d` does not change the remainder. */
  lemma ModSubMultiple(a: int, d: int, t: int)
    requires d > 0
    ensures (a - d * t) % d == a % d
  {
    assert a - d * t == d * (a / d - t) + a % d;
    DivModUnique(a - d * t, d, a / d - t, a % d);
  }

  /** Scaling by `s` scales the remainder: `(x * s) mod (p * s) == (x mod p) * s`. */
  lemma ModScaled(x: nat, p: nat, s: nat)
    requires p > 0 && s > 0
    ensures (x * s) % (p * s) == (x % p) * s
  {
    var q, r := x / p, x % p;
    assert x * s == (p * s) * q + r * s;
    MulAtLeast(s, p - r);
    DivModUnique(x * s, p * s, q, r * s);
  }

  /** Reducing modulo a multiple of `d` first does not change the remainder modulo `d`. */
  lemma ModOfMod(x: int, p: int, d: int)
    requires d > 0 && p > 0 && p % d == 0
    ensures (x % p) % d == x % d
  {
    var k := p / d;
    assert p == d * k;
    assert x % p == x - d * (k * (x / p));
    ModSubMultiple(x, d, k * (x / p));
  }

  /** The remainder of a sum depends only on the remainders of its terms. */
  lemma ModOfSum(a: int, b: int, d: int)
    requires d > 0
    ensures (a + b) % d == (a % d + b % d) % d
  {
    assert a % d + b % d == (a + b) - d * (a / d + b / d);
    ModSubMultiple(a + b, d, a / d + b / d);
  }

  /** `2^n`. */
  function Pow2(n: nat): (r: nat)
    ensures r > 0
  {
    if n == 0 then 1 else 2 * Pow2(n - 1)
  }

  /** Bitwise and of two bit patterns. */
  function BitAnd(a: nat, b: nat): (r: nat)
    ensures r <= a && r <= b
    decreases a
  {
    if a == 0 || b == 0 then 0
    else 2 * BitAnd(a / 2, b / 2) + (if a % 2 == 1 && b % 2 == 1 then 1 else 0)
  }

  /** Masking with `2^k - 1` keeps the low `k` bits. */
  lemma {:induction false} BitAndLowMask(a: nat, k: nat)
    ensures BitAnd(a, Pow2(k) - 1) == a % Pow2(k)
    decreases k
  {
    if k == 0 {
      assert Pow2(k) - 1 == 0;
    } else if a == 0 {
      DivModUnique(0, Pow2(k), 0, 0);
    } else {
      var m := Pow2(k - 1);
      assert Pow2(k) == 2 * m;
      BitAndOddMask(a, m);
      BitAndLowMask(a / 2, k - 1);
      ModOfDouble(a, m);
    }
  }

  /** One step of `BitAnd` against an odd mask `2m - 1`. */
  lemma BitAndOddMask(a: nat, m: nat)
    requires a > 0 && m > 0
    ensures BitAnd(a, 2 * m - 1) == 2 * BitAnd(a / 2, m - 1) + a % 2
  {
    var b := 2 * m - 1;
    assert b / 2 == m - 1 && b % 2 == 1;
  }

  /** `a mod 2m` from `a / 2 mod m` and the low bit of `a`. */
  lemma ModOfDouble(a: nat, m: nat)
    requires m > 0
    ensures a % (2 * m) == 2 * ((a / 2) % m) + a % 2
  {
    var q := (a / 2) / m;
    var s := (a / 2) % m;
    assert a == (2 * m) * q + (2 * s + a % 2);
    DivModUnique(a, 2 * m, q, 2 * s + a % 2);
  }

  /** A mask with a clear low bit clears that bit and masks the rest one place up. */
  lemma AndDouble(a: nat, c: nat)
    ensures BitAnd(a, 2 * c) == 2 * BitAnd(a / 2, c)
  {
    if a != 0 && c != 0 {
      assert (2 * c) / 2 == c;
    }
  }

  /** Three halvings divide by 8. */
  lemma ThreeHalvings(a: nat)
    ensures a / 2 / 2 / 2 == a / 8
  {
    var a3 := a / 2 / 2 / 2;
    DivModUnique(a, 8, a3, a - 8 * a3);
  }

  /** Masking with `8 * c` clears the three low bits and masks the rest with `c`. */
  lemma AndTimes8(a: nat, c: nat)
    ensures BitAnd(a, 8 * c) == 8 * BitAnd(a / 8, c)
  {
    var a1, a2 := a / 2, a / 2 / 2;
    AndDouble(a2, c);
    var r2 := BitAnd(a2, 2 * c);
    AndDouble(a1, 2 * c);
    var r1 := BitAnd(a1, 4 * c);
    assert r1 == 2 * r2;
    AndDouble(a, 4 * c);
    assert BitAnd(a, 8 * c) == 2 * r1;
    ThreeHalvings(a);
  }

  /** Masking with `64 * c` clears the six low bits and masks the rest with `c`. */
  lemma AndTimes64(a: nat, c: nat)
    ensures BitAnd(a, 64 * c) == 64 * BitAnd(a / 64, c)
  {
    AndTimes8(a, 8 * c);
    AndTimes8(a / 8, c);
    DivModUnique(a, 64, a / 8 / 8, a - 64 * (a / 8 / 8));
  }

  /** `a & 0xffffffc0` for a `u32` value: the value rounded down to a multiple of 64. */
  lemma AndClearLow6(a: U32)
    ensures BitAnd(a, 0xffff_ffc0) == a - a % 64
  {
    assert Pow2(8) == 0x100;
    assert Pow2(16) == 0x1_0000;
    assert Pow2(24) == 0x100_0000;
    assert Pow2(26) == 0x400_0000;
    AndTimes64(a, Pow2(26) - 1);
    BitAndLowMask(a / 64, 26);
    DivModUnique(a / 64, Pow2(26), 0, a / 64);
  }
}
