/**
  Value semantics of the opcodes the rule tables use, for checking that a rewrite
  keeps the value of the instruction it replaces.

  A value of bit size `w` is a natural number below `2^w` (its bit pattern read as
  unsigned). Float arithmetic is not modelled: the only float-producing opcodes given
  a meaning are `u2f`/`i2f`, through an environment function that rounds an integer
  to a float of a given size, so their result depends on nothing but the integer
  value of the source. Every other float opcode evaluates to `None`.
*/
module NirEval {
  import opened Wrappers
  import opened NirSearch
  import opened Arith

  /** The bit pattern of every non-ALU SSA value, and the rounding of an integer to an `n`-bit float. */
  datatype Env = Env(ssa: nat -> nat, toFloat: (nat, int) -> nat)

  /** The two's-complement value of a `w`-bit pattern. */
  function Signed(x: nat, w: nat): int
    requires w > 0
  {
    if x >= Pow2(w - 1) then x - Pow2(w) else x
  }

  /** NIR shifts use only the low bits of the count, `count & (bit_size - 1)`, which is `count % bit_size`. */
  function ShiftCount(c: nat, w: nat): (k: nat)
    requires ValidWidth(w)
    ensures k < w
  {
    c % w
  }

  /** One-source opcodes: integer conversions, integer-to-float conversions and boolean conversions. */
  function EvalUnary(env: Env, op: Opcode, w: nat, aw: nat, a: nat): (r: Option<nat>)
    requires ValidWidth(w) && ValidWidth(aw) && a < Pow2(aw)
    ensures r.Some? ==> r.value < Pow2(w)
  {
    match op
    case U2U(n) => if n == w then Some(a % Pow2(w)) else None
    case I2I(n) => if n == w then Some(Signed(a, aw) % Pow2(w)) else None
    case U2F(n) => if n == w && w >= 16 then Some(env.toFloat(w, a) % Pow2(w)) else None
    case I2F(n) => if n == w && w >= 16 then Some(env.toFloat(w, Signed(a, aw)) % Pow2(w)) else None
    case B2I(n) => if n == w then Some(if a == 0 then 0 else 1) else None
    case B2B(n) => if n == w then Some(if a == 0 then 0 else Pow2(w) - 1) else None
    case _ => None
  }

  /** Two-source integer opcodes; `ine` yields a 1-bit boolean. */
  function EvalBinary(op: Opcode, w: nat, aw: nat, cw: nat, a: nat, c: nat): (r: Option<nat>)
    requires ValidWidth(w) && a < Pow2(aw) && c < Pow2(cw)
    ensures r.Some? ==> r.value < Pow2(w)
  {
    match op
    case IAnd => if aw == w && cw == w then Some(BitAnd(a, c)) else None
    case IShl => if aw == w then Some((a * Pow2(ShiftCount(c, w))) % Pow2(w)) else None
    case IShr => if aw == w then Some((Signed(a, w) / Pow2(ShiftCount(c, w))) % Pow2(w)) else None
    case INe => if w == 1 && aw == cw then Some(if a == c then 0 else 1) else None
    case _ => None
  }

  /**
    The value of a term, or `None` when it is ill-typed or involves float arithmetic.
    A value always fits the term's bit size.
  */
  function Eval(env: Env, e: Term): (r: Option<nat>)
    ensures r.Some? ==> ValidWidth(e.bitSize) && r.value < Pow2(e.bitSize)
  {
    match e
    case Ssa(id, w) => if ValidWidth(w) then Some(env.ssa(id) % Pow2(w)) else None
    case Lit(w, kind, bits) => if kind == IntType && ValidWidth(w) then Some(bits % Pow2(w)) else None
    case Alu(op, w, srcs) =>
      if !ValidWidth(w) || |srcs| != Arity(op) then None
      else
        var a :- Eval(env, srcs[0]);
        if |srcs| == 1 then EvalUnary(env, op, w, srcs[0].bitSize, a)
        else
          var c :- Eval(env, srcs[1]);
          EvalBinary(op, w, srcs[0].bitSize, srcs[1].bitSize, a, c)
  }

  /** The value of a one-source instruction is its opcode applied to the value of its source. */
  lemma UnaryEval(env: Env, op: Opcode, w: nat, x: Term)
    requires ValidWidth(w) && Arity(op) == 1
    ensures Eval(env, Alu(op, w, [x])) ==
      if Eval(env, x).Some? then EvalUnary(env, op, w, x.bitSize, Eval(env, x).value) else None
  {
    assert [x][0] == x;
  }

  /** The value of a two-source instruction is its opcode applied to the values of its sources. */
  lemma BinaryEval(env: Env, op: Opcode, w: nat, x: Term, y: Term)
    requires ValidWidth(w) && Arity(op) == 2
    ensures Eval(env, Alu(op, w, [x, y])) ==
      if Eval(env, x).Some? && Eval(env, y).Some?
      then EvalBinary(op, w, x.bitSize, y.bitSize, Eval(env, x).value, Eval(env, y).value)
      else None
  {
    assert [x, y][0] == x;
    assert [x, y][1] == y;
  }

  /** An integer constant that fits its width evaluates to itself. */
  lemma LitEval(env: Env, w: nat, c: nat)
    requires ValidWidth(w) && c < Pow2(w)
    ensures Eval(env, Lit(w, IntType, c)) == Some(c)
  {
    TruncWider(c, w, w);
  }

  // ---------------------------------------------------------------------------
  // Arithmetic facts behind the conversion lowerings

  lemma {:induction false} Pow2Add(a: nat, b: nat)
    ensures Pow2(a + b) == Pow2(a) * Pow2(b)
    decreases a
  {
    if a > 0 {
      Pow2Add(a - 1, b);
    }
  }

  lemma Pow2Mono(a: nat, b: nat)
    requires a <= b
    ensures Pow2(a) <= Pow2(b)
  {
    Pow2Add(a, b - a);
    MulAtLeast(Pow2(a), Pow2(b - a));
  }

  /** The powers of two the lowering passes' bit sizes and shift counts need. */
  lemma Pow2Values()
    ensures Pow2(1) == 2 && Pow2(7) == 0x80 && Pow2(8) == 0x100 && Pow2(15) == 0x8000 && Pow2(16) == 0x1_0000
    ensures Pow2(24) == 0x100_0000 && Pow2(31) == 0x8000_0000 && Pow2(32) == 0x1_0000_0000
    ensures Pow2(48) == 0x1_0000_0000_0000 && Pow2(56) == 0x100_0000_0000_0000
    ensures Pow2(63) == 0x8000_0000_0000_0000 && Pow2(64) == 0x1_0000_0000_0000_0000
  {
    assert Pow2(7) == 0x80 && Pow2(8) == 0x100;
    Pow2Add(7, 8);
    Pow2Add(8, 8);
    Pow2Add(16, 8);
    Pow2Add(15, 16);
    Pow2Add(16, 16);
    Pow2Add(32, 16);
    Pow2Add(48, 8);
    Pow2Add(31, 32);
    Pow2Add(32, 32);
  }

  /** Truncating a `k`-bit value to `n >= k` bits leaves it unchanged. */
  lemma TruncWider(x: nat, k: nat, n: nat)
    requires k <= n && x < Pow2(k)
    ensures x % Pow2(n) == x
  {
    Pow2Mono(k, n);
    DivModUnique(x, Pow2(n), 0, x);
  }

  /** Sign extension from `w` bits does not change the low `k <= w` bits. */
  lemma SignedLowBits(x: nat, k: nat, w: nat)
    requires 0 < k <= w && x < Pow2(w)
    ensures Signed(x, w) % Pow2(k) == x % Pow2(k)
  {
    Pow2Add(k, w - k);
    if x >= Pow2(w - 1) {
      ModSubMultiple(x, Pow2(k), Pow2(w - k));
    }
  }

  lemma MulLeMono(a: int, b: int, s: int)
    requires a <= b && s >= 0
    ensures a * s <= b * s
  {
    assert b * s - a * s == (b - a) * s;
  }

  /** A `k`-bit pattern moved to the top of `w` bits reads as its signed value times `2^(w-k)`. */
  lemma SignedScaled(r: nat, k: nat, w: nat)
    requires 0 < k <= w && r < Pow2(k)
    ensures Signed(r * Pow2(w - k), w) == Signed(r, k) * Pow2(w - k)
  {
    Pow2Add(k, w - k);
    Pow2Add(k - 1, w - k);
    SignedScaledBy(r, Pow2(k), Pow2(k - 1), Pow2(w - k), Signed(r, k), Pow2(w - 1));
  }

  /** `SignedScaled` with the powers of two named: `p = 2^k = 2h`, `s = 2^(w-k)`, `hw = 2^(w-1) = h * s`. */
  lemma SignedScaledBy(r: nat, p: nat, h: nat, s: nat, v: int, hw: nat)
    requires r < p && p == 2 * h && s > 0 && hw == h * s
    requires v == if r >= h then r - p else r
    ensures (if r * s >= hw then r * s - p * s else r * s) == v * s
  {
    if r >= h {
      MulLeMono(h, r, s);
      assert r * s - p * s == (r - p) * s;
    } else {
      MulLeMono(r + 1, h, s);
      assert r * s + s <= h * s;
    }
  }

  /**
    Shifting a `w`-bit value left by `w - k` and arithmetically right by `w - k`
    leaves its low `k` bits sign-extended to `w` bits.
  */
  lemma ShiftPairSignExtends(x: nat, k: nat, w: nat)
    requires 0 < k < w && x < Pow2(w)
    ensures (Signed((x * Pow2(w - k)) % Pow2(w), w) / Pow2(w - k)) % Pow2(w) == Signed(x % Pow2(k), k) % Pow2(w)
  {
    var s := Pow2(w - k);
    Pow2Add(k, w - k);
    ModScaled(x, Pow2(k), s);
    SignedScaled(x % Pow2(k), k, w);
    var v := Signed(x % Pow2(k), k);
    DivModUnique(v * s, s, v, 0);
  }

  /** A sign-extended `k`-bit value truncated to `w >= k` bits reads back as the same signed value. */
  lemma SignedSurvivesTrunc(r: nat, k: nat, w: nat)
    requires 0 < k <= w && r < Pow2(k)
    ensures Signed(Signed(r, k) % Pow2(w), w) == Signed(r, k)
  {
    var v := Signed(r, k);
    Pow2Mono(k - 1, w - 1);
    assert Pow2(k) == 2 * Pow2(k - 1) && Pow2(w) == 2 * Pow2(w - 1);
    if v >= 0 {
      DivModUnique(v, Pow2(w), 0, v);
    } else {
      DivModUnique(v, Pow2(w), -1, v + Pow2(w));
    }
  }
}
