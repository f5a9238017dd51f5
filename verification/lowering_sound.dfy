/**
  The two rewrite shapes the 8- and 16-bit conversion lowerings use for integer
  sources, stated over a pass's value slots, and their soundness: whenever the search
  pattern matches an instruction, the replacement built from the bindings has the
  same value.

  * Zero extension of a narrowed value, `outer(u2u_k(a))` or `outer(i2i_k(a))` with
    `outer` a `u2u` or `u2f`, becomes `outer(iand(a, 2^k - 1))`, or just the `iand`
    when `outer` is `u2u` to the width of `a`.
  * Sign extension, `outer(u2u_k(a))` or `outer(i2i_k(a))` with `outer` an `i2i` or
    `i2f`, becomes `outer(ishr(ishl(a, w - k), w - k))`, or just the shift pair when
    `outer` is `i2i` to the width of `a`.
*/
module LoweringSound {
  import opened Wrappers
  import opened NirSearch
  import opened NirEval
  import opened Arith

  /** The narrowed width `k` and the source width `w` of a conversion lowering. */
  predicate NarrowWidths(k: nat, w: nat) {
    (k == 8 || k == 16) && (w == 16 || w == 32 || w == 64) && k < w
  }

  /** Source `j` of expression slot `s`. */
  function Src(vals: seq<Slot>, s: nat, j: nat): (c: nat)
    requires ValuesOrdered(vals) && s < |vals| && vals[s].Expression? && j < |vals[s].srcs|
    ensures c < s
  {
    assert SlotOrdered(vals[s], s);
    vals[s].srcs[j]
  }

  /** Slot `s` is an `n`-bit `op` instruction. */
  predicate ExprAt(vals: seq<Slot>, s: nat, op: Opcode, n: nat)
    requires ValuesOrdered(vals) && s < |vals|
  {
    assert SlotOrdered(vals[s], s);
    vals[s].Expression? && vals[s].op == op && vals[s].bitSize == n && |vals[s].srcs| == Arity(op)
  }

  /** A reference to variable `v` that is either `w` bits wide or unsized. */
  predicate VarRef(sl: Slot, w: nat, v: nat) {
    sl.Variable? && sl.variable == v && (sl.bitSize == w || sl.bitSize == -1)
  }

  /** Search pattern `outer(narrow_k(a))` with `a` the `w`-bit variable `v` and `narrow_k` a `k`-bit `u2u` or `i2i`. */
  predicate NarrowSearch(vals: seq<Slot>, s: nat, outer: Opcode, n: nat, k: nat, w: nat, v: nat)
    requires ValuesOrdered(vals) && s < |vals|
  {
    && Arity(outer) == 1
    && ExprAt(vals, s, outer, n)
    && var s1 := Src(vals, s, 0);
       && (ExprAt(vals, s1, U2U(k), k) || ExprAt(vals, s1, I2I(k), k))
       && vals[Src(vals, s1, 0)] == Variable(w, v)
  }

  /** Search pattern `outer(inner(a))` at bit sizes `n` and `k`, with `a` a `w`-bit variable. */
  predicate SearchesFor(vals: seq<Slot>, s: nat, outer: Opcode, n: nat, inner: Opcode, k: nat, w: nat)
    requires ValuesOrdered(vals) && s < |vals|
  {
    && Arity(outer) == 1
    && ExprAt(vals, s, outer, n)
    && var s1 := Src(vals, s, 0);
       && Arity(inner) == 1
       && ExprAt(vals, s1, inner, k)
       && vals[Src(vals, s1, 0)].Variable?
       && vals[Src(vals, s1, 0)].bitSize == w
  }

  /** Slot `r` is `iand(a, 2^k - 1)` at `w` bits. */
  predicate LowBitsAt(vals: seq<Slot>, r: nat, k: nat, w: nat, v: nat)
    requires ValuesOrdered(vals) && r < |vals|
  {
    && ExprAt(vals, r, IAnd, w)
    && VarRef(vals[Src(vals, r, 0)], w, v)
    && vals[Src(vals, r, 1)] == Constant(w, IntType, Pow2(k) - 1)
  }

  /** A 32-bit integer constant slot holding `c`, as the shift counts of the lowering are written. */
  predicate ShiftConst(sl: Slot, c: nat) {
    sl == Constant(32, IntType, c)
  }

  /** Slot `r` is `ishr(ishl(a, w - k), w - k)` at `w` bits. */
  predicate ShiftPairAt(vals: seq<Slot>, r: nat, k: nat, w: nat, v: nat)
    requires ValuesOrdered(vals) && r < |vals|
  {
    && ExprAt(vals, r, IShr, w)
    && var l := Src(vals, r, 0);
       && ExprAt(vals, l, IShl, w)
       && VarRef(vals[Src(vals, l, 0)], w, v)
       && k <= w
       && ShiftConst(vals[Src(vals, l, 1)], w - k)
       && ShiftConst(vals[Src(vals, r, 1)], w - k)
  }

  /** The replacement of a zero-extending rule: the mask alone, or `outer` of the mask. */
  predicate ZeroExtendReplace(vals: seq<Slot>, r: nat, outer: Opcode, n: nat, k: nat, w: nat, v: nat)
    requires ValuesOrdered(vals) && r < |vals|
  {
    || (outer == U2U(w) && n == w && LowBitsAt(vals, r, k, w, v))
    || (Arity(outer) == 1 && ExprAt(vals, r, outer, n) && LowBitsAt(vals, Src(vals, r, 0), k, w, v))
  }

  /** The replacement of a sign-extending rule: the shift pair alone, or `outer` of the shift pair. */
  predicate SignExtendReplace(vals: seq<Slot>, r: nat, outer: Opcode, n: nat, k: nat, w: nat, v: nat)
    requires ValuesOrdered(vals) && r < |vals|
  {
    || (outer == I2I(w) && n == w && ShiftPairAt(vals, r, k, w, v))
    || (Arity(outer) == 1 && ExprAt(vals, r, outer, n) && ShiftPairAt(vals, Src(vals, r, 0), k, w, v))
  }

  /** A record of one of the two lowering shapes, with the shape's parameters read off its search pattern. */
  predicate LoweringRule(vals: seq<Slot>, s: nat, r: nat)
    requires ValuesOrdered(vals) && s < |vals| && r < |vals|
  {
    && vals[s].Expression? && |vals[s].srcs| == 1 && vals[s].bitSize >= 0
    && var s1 := Src(vals, s, 0);
       && vals[s1].Expression? && |vals[s1].srcs| == 1 && vals[s1].bitSize >= 0
       && var s0 := Src(vals, s1, 0);
          && vals[s0].Variable? && vals[s0].bitSize >= 0
          && var outer, n, k, w, v := vals[s].op, vals[s].bitSize, vals[s1].bitSize, vals[s0].bitSize, vals[s0].variable;
             && NarrowWidths(k, w) && ValidWidth(n) && k < n
             && NarrowSearch(vals, s, outer, n, k, w, v)
             && if outer == U2U(n) || outer == U2F(n) then ZeroExtendReplace(vals, r, outer, n, k, w, v)
                else (outer == I2I(n) || outer == I2F(n)) && SignExtendReplace(vals, r, outer, n, k, w, v)
  }

  /** Record `j` of table `t` is a rule of one of the two lowering shapes. */
  predicate LoweringRecord(t: AlgebraicTable, j: int) {
    && 0 <= j < |t.transforms|
    && t.transforms[j].Rule?
    && t.transforms[j].search < |t.values| && t.transforms[j].replace < |t.values|
    && ValuesOrdered(t.values)
    && LoweringRule(t.values, t.transforms[j].search, t.transforms[j].replace)
  }

  /** If the search pattern matches `e`, the replacement builds and has the value of `e`. */
  ghost predicate SoundOn(vals: seq<Slot>, s: nat, r: nat, e: Term, env: Env)
    requires ValuesOrdered(vals) && s < |vals| && r < |vals|
  {
    Match(vals, s, e, map[]).Some? ==>
      && Build(vals, r, Match(vals, s, e, map[]).value).Some?
      && Eval(env, Build(vals, r, Match(vals, s, e, map[]).value).value) == Eval(env, e)
  }

  /** Every instruction the search pattern matches is rebuilt by the replacement with the same value. */
  ghost predicate RuleSound(vals: seq<Slot>, s: nat, r: nat)
    requires ValuesOrdered(vals) && s < |vals| && r < |vals|
  {
    forall e: Term, env: Env :: SoundOn(vals, s, r, e, env)
  }

  // ---------------------------------------------------------------------------
  // Matching the search pattern, building the replacement

  /** What a match of `outer(narrow_k(a))` says about the instruction and the bindings. */
  lemma NarrowMatch(vals: seq<Slot>, s: nat, outer: Opcode, n: nat, k: nat, w: nat, v: nat, e: Term)
    requires ValuesOrdered(vals) && s < |vals| && w > 0
    requires NarrowSearch(vals, s, outer, n, k, w, v)
    requires Match(vals, s, e, map[]).Some?
    ensures e.Alu? && e.op == outer && e.bitSize == n && |e.srcs| == 1
    ensures e.srcs[0].Alu? && e.srcs[0].bitSize == k && |e.srcs[0].srcs| == 1
    ensures e.srcs[0].op == U2U(k) || e.srcs[0].op == I2I(k)
    ensures e.srcs[0].srcs[0].bitSize == w
    ensures Match(vals, s, e, map[]).value == map[v := e.srcs[0].srcs[0]]
  {
    var s1 := Src(vals, s, 0);
    var s0 := Src(vals, s1, 0);
    assert Match(vals, s, e, map[]) == Match(vals, s1, e.srcs[0], map[]);
    assert Match(vals, s1, e.srcs[0], map[]) == Match(vals, s0, e.srcs[0].srcs[0], map[]);
  }

  /** The mask replacement builds `iand(a, 2^k - 1)` from the binding of `a`. */
  lemma BuildLowBits(vals: seq<Slot>, r: nat, k: nat, w: nat, v: nat, x: Term)
    requires ValuesOrdered(vals) && r < |vals| && NarrowWidths(k, w)
    requires LowBitsAt(vals, r, k, w, v)
    ensures Build(vals, r, map[v := x]) == Some(Alu(IAnd, w, [x, Lit(w, IntType, Pow2(k) - 1)]))
  {
    var b := map[v := x];
    MaskConst(k, w);
    assert Build(vals, Src(vals, r, 0), b) == Some(x);
    assert Build(vals, Src(vals, r, 1), b) == Some(Lit(w, IntType, Pow2(k) - 1));
  }

  /** The mask constant `2^k - 1` fits `w` bits, so its slot stands for itself. */
  lemma MaskConst(k: nat, w: nat)
    requires NarrowWidths(k, w)
    ensures ConstTerm(w, IntType, Pow2(k) - 1) == Lit(w, IntType, Pow2(k) - 1)
  {
    Pow2Mono(k, w);
    TruncWider(Pow2(k) - 1, k, w);
  }

  /** The shift-pair replacement builds `ishr(ishl(a, w - k), w - k)` from the binding of `a`. */
  lemma BuildShiftPair(vals: seq<Slot>, r: nat, k: nat, w: nat, v: nat, x: Term)
    requires ValuesOrdered(vals) && r < |vals| && NarrowWidths(k, w)
    requires ShiftPairAt(vals, r, k, w, v)
    ensures Build(vals, r, map[v := x]) == Some(Alu(IShr, w, [Alu(IShl, w, [x, Lit(32, IntType, w - k)]), Lit(32, IntType, w - k)]))
  {
    ShiftCountFits(k, w);
    TruncWider(w - k, 32, 32);
    var l := Src(vals, r, 0);
    assert Build(vals, Src(vals, l, 0), map[v := x]) == Some(x);
    assert Build(vals, l, map[v := x]) == Some(Alu(IShl, w, [x, Lit(32, IntType, w - k)]));
  }

  // ---------------------------------------------------------------------------
  // Values of the pieces

  /** Narrowing to `k` bits, unsigned or signed, keeps the low `k` bits. */
  lemma NarrowValue(env: Env, inner: Opcode, k: nat, w: nat, a: nat)
    requires NarrowWidths(k, w) && a < Pow2(w) && (inner == U2U(k) || inner == I2I(k))
    ensures EvalUnary(env, inner, k, w, a) == Some(a % Pow2(k))
  {
    SignedLowBits(a, k, w);
  }

  /** `iand` with `2^k - 1` keeps the low `k` bits. */
  lemma LowBitsValue(k: nat, w: nat, a: nat)
    requires NarrowWidths(k, w) && a < Pow2(w)
    ensures Pow2(k) - 1 < Pow2(w)
    ensures EvalBinary(IAnd, w, w, w, a, Pow2(k) - 1) == Some(a % Pow2(k))
  {
    Pow2Mono(k, w);
    BitAndLowMask(a, k);
  }

  /** The shift count `w - k` fits a 32-bit constant and is used unmasked by a `w`-bit shift. */
  lemma ShiftCountFits(k: nat, w: nat)
    requires NarrowWidths(k, w)
    ensures w - k < Pow2(32)
    ensures ShiftCount(w - k, w) == w - k
  {
    DivModUnique(w - k, w, 0, w - k);
    assert Pow2(6) == 64;
    Pow2Mono(6, 32);
  }

  /** Shifting left by `w - k` moves the low `k` bits to the top. */
  lemma ShiftLeftValue(k: nat, w: nat, a: nat)
    requires NarrowWidths(k, w) && a < Pow2(w)
    ensures EvalBinary(IShl, w, w, 32, a, w - k) == Some((a * Pow2(w - k)) % Pow2(w))
  {
    ShiftCountFits(k, w);
  }

  /** Shifting back arithmetically by `w - k` sign-extends the low `k` bits. */
  lemma ShiftRightValue(k: nat, w: nat, a: nat)
    requires NarrowWidths(k, w) && a < Pow2(w)
    ensures EvalBinary(IShr, w, w, 32, (a * Pow2(w - k)) % Pow2(w), w - k) == Some(Signed(a % Pow2(k), k) % Pow2(w))
  {
    ShiftCountFits(k, w);
    ShiftPairSignExtends(a, k, w);
  }

  /** A `u2u`/`u2f` conversion of a value below `2^k` does not depend on whether the source is `k` or `w` bits wide. */
  lemma ZeroOuterValue(env: Env, outer: Opcode, n: nat, k: nat, w: nat, low: nat)
    requires outer == U2U(n) || outer == U2F(n)
    requires NarrowWidths(k, w) && ValidWidth(n) && k < n && low < Pow2(k)
    ensures low < Pow2(w)
    ensures EvalUnary(env, outer, n, w, low) == EvalUnary(env, outer, n, k, low)
    ensures outer == U2U(w) ==> EvalUnary(env, outer, n, k, low) == Some(low)
  {
    Pow2Mono(k, w);
    TruncWider(low, k, n);
  }

  /** An `i2i`/`i2f` conversion of the sign extension of a `k`-bit value to `w` bits is the conversion of the `k`-bit value. */
  lemma SignOuterValue(env: Env, outer: Opcode, n: nat, k: nat, w: nat, low: nat)
    requires outer == I2I(n) || outer == I2F(n)
    requires NarrowWidths(k, w) && ValidWidth(n) && k < n && low < Pow2(k)
    ensures EvalUnary(env, outer, n, w, Signed(low, k) % Pow2(w)) == EvalUnary(env, outer, n, k, low)
    ensures outer == I2I(w) ==> EvalUnary(env, outer, n, k, low) == Some(Signed(low, k) % Pow2(w))
  {
    SignedSurvivesTrunc(low, k, w);
  }

  /** Narrowing to `k` bits, as a term. */
  lemma NarrowEval(env: Env, inner: Opcode, k: nat, w: nat, x: Term)
    requires NarrowWidths(k, w) && x.bitSize == w && (inner == U2U(k) || inner == I2I(k))
    ensures Eval(env, Alu(inner, k, [x])) == (if Eval(env, x).Some? then Some(Eval(env, x).value % Pow2(k)) else None)
  {
    UnaryEval(env, inner, k, x);
    if Eval(env, x).Some? {
      NarrowValue(env, inner, k, w, Eval(env, x).value);
    }
  }

  /** `iand` of a term with a constant that keeps the residue modulo `p` of every `w`-bit value, as a term. */
  lemma AndConstEval(env: Env, w: nat, x: Term, mask: nat, p: nat)
    requires ValidWidth(w) && mask < Pow2(w) && x.bitSize == w && p > 0
    requires forall a :: 0 <= a < Pow2(w) ==> BitAnd(a, mask) == a % p
    ensures Eval(env, Alu(IAnd, w, [x, Lit(w, IntType, mask)]))
         == (if Eval(env, x).Some? then Some(Eval(env, x).value % p) else None)
  {
    LitEval(env, w, mask);
    BinaryEval(env, IAnd, w, x, Lit(w, IntType, mask));
  }

  /** `iand(a, 2^k - 1)`, as a term. */
  lemma LowBitsEval(env: Env, k: nat, w: nat, x: Term)
    requires ValidWidth(w) && k <= w && x.bitSize == w
    ensures Eval(env, Alu(IAnd, w, [x, Lit(w, IntType, Pow2(k) - 1)]))
         == (if Eval(env, x).Some? then Some(Eval(env, x).value % Pow2(k)) else None)
  {
    Pow2Mono(k, w);
    LowMaskEverywhere(k, w);
    AndConstEval(env, w, x, Pow2(k) - 1, Pow2(k));
  }

  /** The low-bits mask, for every value of a width. */
  lemma LowMaskEverywhere(k: nat, w: nat)
    ensures forall a :: 0 <= a < Pow2(w) ==> BitAnd(a, Pow2(k) - 1) == a % Pow2(k)
  {
    forall a | 0 <= a < Pow2(w)
      ensures BitAnd(a, Pow2(k) - 1) == a % Pow2(k)
    {
      BitAndLowMask(a, k);
    }
  }

  /** `ishl(a, w - k)`, as a term. */
  lemma ShiftLeftEval(env: Env, k: nat, w: nat, x: Term)
    requires NarrowWidths(k, w) && x.bitSize == w
    ensures Eval(env, Alu(IShl, w, [x, Lit(32, IntType, w - k)]))
         == (if Eval(env, x).Some? then Some((Eval(env, x).value * Pow2(w - k)) % Pow2(w)) else None)
  {
    ShiftCountFits(k, w);
    LitEval(env, 32, w - k);
    BinaryEval(env, IShl, w, x, Lit(32, IntType, w - k));
    if Eval(env, x).Some? {
      ShiftLeftValue(k, w, Eval(env, x).value);
    }
  }

  /** `ishr(y, w - k)` of a term `y` holding `a` shifted left by `w - k`, as a term. */
  lemma ShiftRightEval(env: Env, k: nat, w: nat, y: Term, a: nat)
    requires NarrowWidths(k, w) && a < Pow2(w) && y.bitSize == w
    requires Eval(env, y) == Some((a * Pow2(w - k)) % Pow2(w))
    ensures Eval(env, Alu(IShr, w, [y, Lit(32, IntType, w - k)])) == Some(Signed(a % Pow2(k), k) % Pow2(w))
  {
    ShiftCountFits(k, w);
    LitEval(env, 32, w - k);
    BinaryEval(env, IShr, w, y, Lit(32, IntType, w - k));
    ShiftRightValue(k, w, a);
  }

  /** `ishr(ishl(a, w - k), w - k)`, as a term. */
  lemma ShiftPairEval(env: Env, k: nat, w: nat, x: Term)
    requires NarrowWidths(k, w) && x.bitSize == w
    ensures Eval(env, Alu(IShr, w, [Alu(IShl, w, [x, Lit(32, IntType, w - k)]), Lit(32, IntType, w - k)]))
         == (if Eval(env, x).Some? then Some(Signed(Eval(env, x).value % Pow2(k), k) % Pow2(w)) else None)
  {
    var cnt := Lit(32, IntType, w - k);
    var shl := Alu(IShl, w, [x, cnt]);
    ShiftLeftEval(env, k, w, x);
    if Eval(env, x).Some? {
      ShiftRightEval(env, k, w, shl, Eval(env, x).value);
    } else {
      BinaryEval(env, IShr, w, shl, cnt);
    }
  }

  /** The mask and the narrowing conversion both leave the low `k` bits of `a`. */
  lemma MaskMatchesNarrow(env: Env, inner: Opcode, k: nat, w: nat, x: Term)
    requires NarrowWidths(k, w) && (inner == U2U(k) || inner == I2I(k)) && x.bitSize == w
    ensures Eval(env, Masked(k, w, x)) == Eval(env, Alu(inner, k, [x]))
  {
    assert Masked(k, w, x) == Alu(IAnd, w, [x, Lit(w, IntType, Pow2(k) - 1)]);
    NarrowEval(env, inner, k, w, x);
    LowBitsEval(env, k, w, x);
  }

  /** The shift pair yields the sign extension to `w` bits of what the narrowing conversion yields. */
  lemma ShiftPairMatchesNarrow(env: Env, inner: Opcode, k: nat, w: nat, x: Term)
    requires NarrowWidths(k, w) && (inner == U2U(k) || inner == I2I(k)) && x.bitSize == w
    ensures var cnt := Lit(32, IntType, w - k);
      var m := Eval(env, Alu(inner, k, [x]));
      Eval(env, Alu(IShr, w, [Alu(IShl, w, [x, cnt]), cnt]))
      == (if m.Some? then Some(Signed(m.value, k) % Pow2(w)) else None)
  {
    NarrowEval(env, inner, k, w, x);
    ShiftPairEval(env, k, w, x);
  }

  /** A `u2u`/`u2f` of a `w`-bit term and of a `k`-bit term with the same value agree. */
  lemma ZeroOuterEval(env: Env, outer: Opcode, n: nat, k: nat, w: nat, m1: Term, m2: Term)
    requires outer == U2U(n) || outer == U2F(n)
    requires NarrowWidths(k, w) && ValidWidth(n) && k < n
    requires m1.bitSize == w && m2.bitSize == k && Eval(env, m1) == Eval(env, m2)
    ensures Eval(env, Alu(outer, n, [m1])) == Eval(env, Alu(outer, n, [m2]))
  {
    UnaryEval(env, outer, n, m1);
    UnaryEval(env, outer, n, m2);
    if Eval(env, m1).Some? {
      ZeroOuterValue(env, outer, n, k, w, Eval(env, m1).value);
    }
  }

  /** A `u2u_w` of a `k`-bit term has the value of the term. */
  lemma ZeroElidedEval(env: Env, k: nat, w: nat, m1: Term, m2: Term)
    requires NarrowWidths(k, w)
    requires m1.bitSize == w && m2.bitSize == k && Eval(env, m1) == Eval(env, m2)
    ensures Eval(env, m1) == Eval(env, Alu(U2U(w), w, [m2]))
  {
    UnaryEval(env, U2U(w), w, m2);
    if Eval(env, m2).Some? {
      ZeroOuterValue(env, U2U(w), w, k, w, Eval(env, m2).value);
    }
  }

  /** An `i2i`/`i2f` of a `w`-bit term holding the sign extension of a `k`-bit term's value agrees with one of the `k`-bit term. */
  lemma SignOuterEval(env: Env, outer: Opcode, n: nat, k: nat, w: nat, p: Term, m: Term)
    requires outer == I2I(n) || outer == I2F(n)
    requires NarrowWidths(k, w) && ValidWidth(n) && k < n
    requires p.bitSize == w && m.bitSize == k
    requires Eval(env, p) == (if Eval(env, m).Some? then Some(Signed(Eval(env, m).value, k) % Pow2(w)) else None)
    ensures Eval(env, Alu(outer, n, [p])) == Eval(env, Alu(outer, n, [m]))
  {
    UnaryEval(env, outer, n, p);
    UnaryEval(env, outer, n, m);
    if Eval(env, m).Some? {
      SignOuterValue(env, outer, n, k, w, Eval(env, m).value);
    }
  }

  /** An `i2i_w` of a `k`-bit term is its sign extension to `w` bits. */
  lemma SignElidedEval(env: Env, k: nat, w: nat, p: Term, m: Term)
    requires NarrowWidths(k, w)
    requires p.bitSize == w && m.bitSize == k
    requires Eval(env, p) == (if Eval(env, m).Some? then Some(Signed(Eval(env, m).value, k) % Pow2(w)) else None)
    ensures Eval(env, p) == Eval(env, Alu(I2I(w), w, [m]))
  {
    UnaryEval(env, I2I(w), w, m);
    if Eval(env, m).Some? {
      SignOuterValue(env, I2I(w), w, k, w, Eval(env, m).value);
    }
  }

  // ---------------------------------------------------------------------------
  // Soundness of the two shapes

  /** `iand(a, 2^k - 1)` at `w` bits. */
  function Masked(k: nat, w: nat, x: Term): Term {
    Alu(IAnd, w, [x, Lit(w, IntType, Pow2(k) - 1)])
  }

  /** `ishr(ishl(a, w - k), w - k)` at `w` bits. */
  function ShiftPair(k: nat, w: nat, x: Term): Term
    requires k <= w
  {
    Alu(IShr, w, [Alu(IShl, w, [x, Lit(32, IntType, w - k)]), Lit(32, IntType, w - k)])
  }

  /** The replacement a zero-extending record builds: the mask, or `outer` of it. */
  function ZeroImage(elided: bool, outer: Opcode, n: nat, k: nat, w: nat, x: Term): Term {
    if elided then Masked(k, w, x) else Alu(outer, n, [Masked(k, w, x)])
  }

  /** The replacement a sign-extending record builds: the shift pair, or `outer` of it. */
  function SignImage(elided: bool, outer: Opcode, n: nat, k: nat, w: nat, x: Term): Term
    requires k <= w
  {
    if elided then ShiftPair(k, w, x) else Alu(outer, n, [ShiftPair(k, w, x)])
  }

  /** The zero-extending replacement has the value of the instruction it replaces. */
  lemma ZeroImageEval(env: Env, elided: bool, outer: Opcode, n: nat, inner: Opcode, k: nat, w: nat, x: Term)
    requires outer == U2U(n) || outer == U2F(n)
    requires NarrowWidths(k, w) && ValidWidth(n) && k < n
    requires inner == U2U(k) || inner == I2I(k)
    requires x.bitSize == w && (elided ==> outer == U2U(w) && n == w)
    ensures Eval(env, ZeroImage(elided, outer, n, k, w, x)) == Eval(env, Alu(outer, n, [Alu(inner, k, [x])]))
  {
    if elided {
      MaskElidedEval(env, inner, k, w, x);
    } else {
      MaskOuterEval(env, outer, n, inner, k, w, x);
    }
  }

  /** The mask stands for `u2u_w` of the narrowing. */
  lemma MaskElidedEval(env: Env, inner: Opcode, k: nat, w: nat, x: Term)
    requires NarrowWidths(k, w) && (inner == U2U(k) || inner == I2I(k)) && x.bitSize == w
    ensures Eval(env, Masked(k, w, x)) == Eval(env, Alu(U2U(w), w, [Alu(inner, k, [x])]))
  {
    MaskMatchesNarrow(env, inner, k, w, x);
    ZeroElidedEval(env, k, w, Masked(k, w, x), Alu(inner, k, [x]));
  }

  /** `outer` of the mask stands for `outer` of the narrowing. */
  lemma MaskOuterEval(env: Env, outer: Opcode, n: nat, inner: Opcode, k: nat, w: nat, x: Term)
    requires outer == U2U(n) || outer == U2F(n)
    requires NarrowWidths(k, w) && ValidWidth(n) && k < n
    requires (inner == U2U(k) || inner == I2I(k)) && x.bitSize == w
    ensures Eval(env, Alu(outer, n, [Masked(k, w, x)])) == Eval(env, Alu(outer, n, [Alu(inner, k, [x])]))
  {
    MaskMatchesNarrow(env, inner, k, w, x);
    ZeroOuterEval(env, outer, n, k, w, Masked(k, w, x), Alu(inner, k, [x]));
  }

  /** The sign-extending replacement has the value of the instruction it replaces. */
  lemma SignImageEval(env: Env, elided: bool, outer: Opcode, n: nat, inner: Opcode, k: nat, w: nat, x: Term)
    requires outer == I2I(n) || outer == I2F(n)
    requires NarrowWidths(k, w) && ValidWidth(n) && k < n
    requires inner == U2U(k) || inner == I2I(k)
    requires x.bitSize == w && (elided ==> outer == I2I(w) && n == w)
    ensures Eval(env, SignImage(elided, outer, n, k, w, x)) == Eval(env, Alu(outer, n, [Alu(inner, k, [x])]))
  {
    ShiftPairMatchesNarrow(env, inner, k, w, x);
    var p, m := ShiftPair(k, w, x), Alu(inner, k, [x]);
    if elided {
      SignElidedEval(env, k, w, p, m);
    } else {
      SignOuterEval(env, outer, n, k, w, p, m);
    }
  }

  /** A zero-extending record rebuilds a matched instruction's variable into the mask shape. */
  lemma ZeroExtendBuild(vals: seq<Slot>, r: nat, outer: Opcode, n: nat, k: nat, w: nat, v: nat, x: Term)
    requires ValuesOrdered(vals) && r < |vals| && NarrowWidths(k, w)
    requires ZeroExtendReplace(vals, r, outer, n, k, w, v)
    ensures var elided := outer == U2U(w) && n == w && LowBitsAt(vals, r, k, w, v);
      Build(vals, r, map[v := x]) == Some(ZeroImage(elided, outer, n, k, w, x))
  {
    if outer == U2U(w) && n == w && LowBitsAt(vals, r, k, w, v) {
      BuildLowBits(vals, r, k, w, v, x);
    } else {
      BuildLowBits(vals, Src(vals, r, 0), k, w, v, x);
    }
  }

  /** A sign-extending record rebuilds a matched instruction's variable into the shift-pair shape. */
  lemma SignExtendBuild(vals: seq<Slot>, r: nat, outer: Opcode, n: nat, k: nat, w: nat, v: nat, x: Term)
    requires ValuesOrdered(vals) && r < |vals| && NarrowWidths(k, w)
    requires SignExtendReplace(vals, r, outer, n, k, w, v)
    ensures var elided := outer == I2I(w) && n == w && ShiftPairAt(vals, r, k, w, v);
      Build(vals, r, map[v := x]) == Some(SignImage(elided, outer, n, k, w, x))
  {
    if outer == I2I(w) && n == w && ShiftPairAt(vals, r, k, w, v) {
      BuildShiftPair(vals, r, k, w, v, x);
    } else {
      BuildShiftPair(vals, Src(vals, r, 0), k, w, v, x);
    }
  }

  /** A zero-extending lowering keeps the value of every instruction it matches. */
  lemma ZeroExtendSound(vals: seq<Slot>, s: nat, r: nat, outer: Opcode, n: nat, k: nat, w: nat, v: nat, e: Term, env: Env)
    requires ValuesOrdered(vals) && s < |vals| && r < |vals|
    requires outer == U2U(n) || outer == U2F(n)
    requires NarrowWidths(k, w) && ValidWidth(n) && k < n
    requires NarrowSearch(vals, s, outer, n, k, w, v) && ZeroExtendReplace(vals, r, outer, n, k, w, v)
    requires Match(vals, s, e, map[]).Some?
    ensures Build(vals, r, Match(vals, s, e, map[]).value).Some?
    ensures Eval(env, Build(vals, r, Match(vals, s, e, map[]).value).value) == Eval(env, e)
  {
    NarrowMatch(vals, s, outer, n, k, w, v, e);
    var x := e.srcs[0].srcs[0];
    var inner := e.srcs[0].op;
    assert e.srcs[0] == Alu(inner, k, [x]);
    assert e == Alu(outer, n, [e.srcs[0]]);
    var elided := outer == U2U(w) && n == w && LowBitsAt(vals, r, k, w, v);
    ZeroExtendBuild(vals, r, outer, n, k, w, v, x);
    assert Build(vals, r, Match(vals, s, e, map[]).value) == Some(ZeroImage(elided, outer, n, k, w, x));
    ZeroImageEval(env, elided, outer, n, inner, k, w, x);
  }

  /** A sign-extending lowering keeps the value of every instruction it matches. */
  lemma SignExtendSound(vals: seq<Slot>, s: nat, r: nat, outer: Opcode, n: nat, k: nat, w: nat, v: nat, e: Term, env: Env)
    requires ValuesOrdered(vals) && s < |vals| && r < |vals|
    requires outer == I2I(n) || outer == I2F(n)
    requires NarrowWidths(k, w) && ValidWidth(n) && k < n
    requires NarrowSearch(vals, s, outer, n, k, w, v) && SignExtendReplace(vals, r, outer, n, k, w, v)
    requires Match(vals, s, e, map[]).Some?
    ensures Build(vals, r, Match(vals, s, e, map[]).value).Some?
    ensures Eval(env, Build(vals, r, Match(vals, s, e, map[]).value).value) == Eval(env, e)
  {
    NarrowMatch(vals, s, outer, n, k, w, v, e);
    var x := e.srcs[0].srcs[0];
    var inner := e.srcs[0].op;
    assert e.srcs[0] == Alu(inner, k, [x]);
    assert e == Alu(outer, n, [e.srcs[0]]);
    var elided := outer == I2I(w) && n == w && ShiftPairAt(vals, r, k, w, v);
    SignExtendBuild(vals, r, outer, n, k, w, v, x);
    SignImageEval(env, elided, outer, n, inner, k, w, x);
  }

  /** Every record of either lowering shape is sound. */
  lemma LoweringRuleSound(vals: seq<Slot>, s: nat, r: nat)
    requires ValuesOrdered(vals) && s < |vals| && r < |vals|
    requires LoweringRule(vals, s, r)
    ensures RuleSound(vals, s, r)
  {
    var s1 := Src(vals, s, 0);
    var s0 := Src(vals, s1, 0);
    var outer, n, k, w, v := vals[s].op, vals[s].bitSize, vals[s1].bitSize, vals[s0].bitSize, vals[s0].variable;
    forall e: Term, env: Env
      ensures SoundOn(vals, s, r, e, env)
    {
      if Match(vals, s, e, map[]).None? {
      } else if outer == U2U(n) || outer == U2F(n) {
        ZeroExtendSound(vals, s, r, outer, n, k, w, v, e, env);
      } else {
        SignExtendSound(vals, s, r, outer, n, k, w, v, e, env);
      }
    }
  }

  /** When the record the pass chooses for `e` holds a sound rule, the rewrite exists and keeps `e`'s value. */
  lemma RewriteSound(t: AlgebraicTable, flags: seq<bool>, e: Term, env: Env)
    requires WellFormed(t, |flags|)
    requires Chosen(t, flags, e).Some?
    requires RuleSound(t.values, t.transforms[Chosen(t, flags, e).value].search, t.transforms[Chosen(t, flags, e).value].replace)
    ensures Rewrite(t, flags, e).Some?
    ensures Eval(env, Rewrite(t, flags, e).value) == Eval(env, e)
  {
    var j := Chosen(t, flags, e).value;
    assert SoundOn(t.values, t.transforms[j].search, t.transforms[j].replace, e, env);
  }

  /** A pattern `outer(inner(a))` matches every instruction of that shape whose innermost source has `a`'s width. */
  lemma SearchMatches(vals: seq<Slot>, s: nat, outer: Opcode, n: nat, inner: Opcode, k: nat, w: nat, x: Term)
    requires ValuesOrdered(vals) && s < |vals|
    requires SearchesFor(vals, s, outer, n, inner, k, w) && x.bitSize == w
    ensures Match(vals, s, Alu(outer, n, [Alu(inner, k, [x])]), map[]).Some?
  {
    var s1 := Src(vals, s, 0);
    var s0 := Src(vals, s1, 0);
    assert Match(vals, s0, x, map[]).Some?;
    assert Match(vals, s1, Alu(inner, k, [x]), map[]) == Match(vals, s0, x, map[]);
    assert Match(vals, s, Alu(outer, n, [Alu(inner, k, [x])]), map[]) == Match(vals, s1, Alu(inner, k, [x]), map[]);
  }

  /**
    If a record applies to `e` inside the run of `e`'s state, and every record of that
    run up to `k` is a lowering rule, the pass rewrites `e` and keeps its value.
  */
  lemma RunRewriteSound(t: AlgebraicTable, flags: seq<bool>, e: Term, j: nat, k: nat, env: Env)
    requires WellFormed(t, |flags|)
    requires t.transformOffsets[StateOf(t, |flags|, e)] <= j < k <= |t.transforms|
    requires forall i :: t.transformOffsets[StateOf(t, |flags|, e)] <= i < k ==> LoweringRecord(t, i)
    requires Applies(t, flags, j, e)
    ensures Rewrite(t, flags, e).Some?
    ensures Eval(env, Rewrite(t, flags, e).value) == Eval(env, e)
  {
    forall i | t.transformOffsets[StateOf(t, |flags|, e)] <= i < k
      ensures t.transforms[i].Rule?
    {
      assert LoweringRecord(t, i);
    }
    ChosenInRun(t, flags, e, j, k);
    var c := Chosen(t, flags, e).value;
    assert LoweringRecord(t, c);
    LoweringRuleSound(t.values, t.transforms[c].search, t.transforms[c].replace);
    RewriteSound(t, flags, e, env);
  }
}
