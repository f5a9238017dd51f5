/**
  What the `dxil_nir_algebraic` pass does to the two boolean-width conversions.

  `b2b1` narrows a boolean to one bit and is replaced by `ine(b2i32(a), 0)`, which has
  exactly its value. `b2b32` widens a boolean to the 32-bit form NIR writes as 0 or
  all ones; the pass replaces it by `b2i32`, which yields 0 or 1 instead, so the
  replacement keeps whether the boolean is true but not its bit pattern.
*/
module DxilAlgebraicSound {
  import opened Wrappers
  import opened Arith
  import opened NirSearch
  import opened NirEval
  import opened DxilAlgebraic

  /**
    The pass's rewrite of one instruction (`None`: no record applies). The tables are
    well formed (`TableWellFormed`), so the guard always holds.
  */
  function Apply(e: Term): Option<Term> {
    if WellFormed(Table, |Flags|) then Rewrite(Table, Flags, e) else None
  }

  /** A 32-bit boolean is true when it is not zero. */
  predicate Truthy(v: Option<nat>) {
    v.Some? && v.value != 0
  }

  lemma B2b1Found()
    ensures Lookup(OpTables, Exact(B2B(1))) == Some(B2b1Dispatch)
  {
  }

  lemma B2b32Found()
    ensures Lookup(OpTables, Exact(B2B(32))) == Some(B2b32Dispatch)
  {
  }

  /** `b2b1(a)` is rewritten, whatever `a` is, to `ine(b2i32(a), 0)`. */
  lemma B2b1Rewritten(x: Term)
    ensures Apply(Alu(B2B(1), 1, [x])) == Some(Alu(INe, 1, [Alu(B2I(32), 32, [x]), Lit(32, IntType, 0)]))
  {
    TableWellFormed();
    var e := Alu(B2B(1), 1, [x]);
    B2b1Found();
    assert StateOf(Table, |Flags|, e) == 3;
    assert Transforms[3] == Rule(3, 5, 0);
    var b := map[0 := x];
    assert Match(Values, 0, x, map[]) == Some(b);
    assert Match(Values, 3, e, map[]) == Some(b);
    assert Applies(Table, Flags, 3, e);
    assert Chosen(Table, Flags, e) == Some(3);
    assert Build(Values, 2, b) == Some(Alu(B2I(32), 32, [x]));
    assert Build(Values, 4, b) == Some(Lit(32, IntType, 0));
  }

  /** `b2b32(a)` is rewritten, whatever `a` is, to `b2i32(a)`. */
  lemma B2b32Rewritten(x: Term)
    ensures Apply(Alu(B2B(32), 32, [x])) == Some(Alu(B2I(32), 32, [x]))
  {
    TableWellFormed();
    var e := Alu(B2B(32), 32, [x]);
    B2b32Found();
    assert StateOf(Table, |Flags|, e) == 2;
    assert Transforms[1] == Rule(1, 2, 0);
    var b := map[0 := x];
    assert Match(Values, 0, x, map[]) == Some(b);
    assert Match(Values, 1, e, map[]) == Some(b);
    assert Applies(Table, Flags, 1, e);
    assert Chosen(Table, Flags, e) == Some(1);
  }

  /** A boolean read as 0 or 1. */
  function AsBit(v: Option<nat>): Option<nat> {
    if v.Some? then Some(if v.value == 0 then 0 else 1) else None
  }

  /** `b2i32(a)` is `a` read as 0 or 1. */
  lemma B2iValue(x: Term, env: Env)
    ensures Eval(env, Alu(B2I(32), 32, [x])) == AsBit(Eval(env, x))
  {
    UnaryEval(env, B2I(32), 32, x);
  }

  /** Comparing a 32-bit value with zero reads it as 0 or 1. */
  lemma IneZeroValue(y: Term, env: Env)
    requires y.bitSize == 32
    ensures Eval(env, Alu(INe, 1, [y, Lit(32, IntType, 0)])) == AsBit(Eval(env, y))
  {
    LitEval(env, 32, 0);
    BinaryEval(env, INe, 1, y, Lit(32, IntType, 0));
    if Eval(env, y).Some? {
      IneZeroBinary(Eval(env, y).value);
    }
  }

  /** `ine` of a defined 32-bit value and 0 is 0 for 0 and 1 otherwise. */
  lemma IneZeroBinary(a: nat)
    requires a < Pow2(32)
    ensures EvalBinary(INe, 1, 32, 32, a, 0) == Some(if a == 0 then 0 else 1)
  {
  }

  /** `ine(b2i32(a), 0)` is `a` read as 0 or 1. */
  lemma IneOfB2iValue(x: Term, env: Env)
    ensures Eval(env, Alu(INe, 1, [Alu(B2I(32), 32, [x]), Lit(32, IntType, 0)])) == AsBit(Eval(env, x))
  {
    B2iValue(x, env);
    IneZeroValue(Alu(B2I(32), 32, [x]), env);
  }

  /** `b2b1(a)` is `a` read as 0 or 1. */
  lemma B2b1Value(x: Term, env: Env)
    ensures Eval(env, Alu(B2B(1), 1, [x])) == AsBit(Eval(env, x))
  {
    assert Pow2(1) == 2 by {
      Pow2Values();
    }
    UnaryEval(env, B2B(1), 1, x);
  }

  /** `ine(b2i32(a), 0)` has the value of `b2b1(a)`. */
  lemma IneOfB2iEval(x: Term, env: Env)
    ensures Eval(env, Alu(INe, 1, [Alu(B2I(32), 32, [x]), Lit(32, IntType, 0)])) == Eval(env, Alu(B2B(1), 1, [x]))
  {
    IneOfB2iValue(x, env);
    B2b1Value(x, env);
  }

  /** The `b2b1` rewrite keeps the instruction's value exactly. */
  lemma B2b1Sound(x: Term, env: Env)
    ensures Apply(Alu(B2B(1), 1, [x])).Some?
    ensures Eval(env, Apply(Alu(B2B(1), 1, [x])).value) == Eval(env, Alu(B2B(1), 1, [x]))
  {
    B2b1Rewritten(x);
    IneOfB2iEval(x, env);
  }

  /** `b2b32(a)` is 0 for a zero `a` and all ones otherwise. */
  lemma B2bValue(x: Term, env: Env)
    ensures Eval(env, Alu(B2B(32), 32, [x])).Some? <==> Eval(env, x).Some?
    ensures Eval(env, x).Some? ==> (Eval(env, Alu(B2B(32), 32, [x])).value == 0 <==> Eval(env, x).value == 0)
  {
    UnaryEval(env, B2B(32), 32, x);
    if Eval(env, x).Some? {
      B2bUnary(env, x.bitSize, Eval(env, x).value);
    }
  }

  /** `b2b32` of a defined value: 0 stays 0, anything else becomes all ones, which is not 0. */
  lemma B2bUnary(env: Env, aw: nat, a: nat)
    requires ValidWidth(aw) && a < Pow2(aw)
    ensures EvalUnary(env, B2B(32), 32, aw, a) == Some(if a == 0 then 0 else Pow2(32) - 1)
    ensures Pow2(32) - 1 != 0
  {
    Pow2Mono(1, 32);
  }

  /** `b2i32(a)` and `b2b32(a)` are both defined or both not, and zero together. */
  lemma B2iB2bEval(x: Term, env: Env)
    ensures Eval(env, Alu(B2I(32), 32, [x])).Some? <==> Eval(env, Alu(B2B(32), 32, [x])).Some?
    ensures Truthy(Eval(env, Alu(B2I(32), 32, [x]))) <==> Truthy(Eval(env, Alu(B2B(32), 32, [x])))
  {
    B2iValue(x, env);
    B2bValue(x, env);
  }

  /**
    The `b2b32` rewrite is defined exactly when the original is, and is true exactly when
    the original is.
  */
  lemma B2b32KeepsTruth(x: Term, env: Env)
    ensures Apply(Alu(B2B(32), 32, [x])).Some?
    ensures Eval(env, Apply(Alu(B2B(32), 32, [x])).value).Some? <==> Eval(env, Alu(B2B(32), 32, [x])).Some?
    ensures Truthy(Eval(env, Apply(Alu(B2B(32), 32, [x])).value)) <==> Truthy(Eval(env, Alu(B2B(32), 32, [x])))
  {
    B2b32Rewritten(x);
    B2iB2bEval(x, env);
  }

  /** The `b2b32` rewrite changes the bit pattern of a true boolean: all ones becomes 1. */
  lemma B2b32ChangesPattern(env: Env)
    ensures Eval(env, Alu(B2B(32), 32, [Lit(1, IntType, 1)])) == Some(0xFFFF_FFFF)
    ensures Apply(Alu(B2B(32), 32, [Lit(1, IntType, 1)])).Some?
         && Eval(env, Apply(Alu(B2B(32), 32, [Lit(1, IntType, 1)])).value) == Some(1)
  {
    B2b32Rewritten(Lit(1, IntType, 1));
    B2b32OfTrue(env);
    B2i32OfTrue(env);
  }

  /** A 32-bit boolean true is all ones. */
  lemma B2b32OfTrue(env: Env)
    ensures Eval(env, Alu(B2B(32), 32, [Lit(1, IntType, 1)])) == Some(0xFFFF_FFFF)
  {
    assert Pow2(32) == 0x1_0000_0000 by {
      Pow2Values();
    }
    LitEval(env, 1, 1);
    UnaryEval(env, B2B(32), 32, Lit(1, IntType, 1));
  }

  /** `b2i32` of a true 1-bit boolean is 1. */
  lemma B2i32OfTrue(env: Env)
    ensures Eval(env, Alu(B2I(32), 32, [Lit(1, IntType, 1)])) == Some(1)
  {
    assert Pow2(32) == 0x1_0000_0000 by {
      Pow2Values();
    }
    LitEval(env, 1, 1);
    UnaryEval(env, B2I(32), 32, Lit(1, IntType, 1));
  }
}
