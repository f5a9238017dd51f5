/**
  Soundness of the `dxil_nir_lower_8bit_conv` pass: every u2u, i2i, u2f or i2f
  conversion to 16, 32 or 64 bits of a u2u8 or i2i8 narrowing of a 16-, 32- or 64-bit
  value is rewritten, and the rewritten instruction has the original's value.
*/
module Lower8BitConvSound {
  import opened Wrappers
  import opened Arith
  import opened NirSearch
  import opened NirEval
  import opened LoweringSound
  import opened Lower8BitConv

  /**
    The pass's rewrite of one instruction (`None`: no record applies). The tables are
    well formed (`TableWellFormed`), so the guard always holds.
  */
  function Apply(e: Term): Option<Term> {
    if WellFormed(Table, |Flags|) then Rewrite(Table, Flags, e) else None
  }

  /** The automaton state the pass gives `e`. */
  function State(e: Term): nat {
    if WellFormed(Table, |Flags|) then StateOf(Table, |Flags|, e) else 0
  }

  /** The widths this pass lowers from and to. */
  predicate Wide(w: nat) {
    w == 16 || w == 32 || w == 64
  }

  /** Position of a width among 16, 32, 64. */
  function WidthRank(w: nat): nat {
    if w == 16 then 0 else if w == 32 then 1 else 2
  }

  /**
    The record of the run starting at `off` that handles destination width `n` and
    source width `w`: each run lists its rules by destination width, then source width.
  */
  function RunRecord(off: nat, n: nat, w: nat): nat {
    off + 3 * WidthRank(n) + WidthRank(w)
  }

  /** The `u2u` family's dispatch table, and the states it moves narrowings to. */
  lemma U2uFound()
    ensures Lookup(Table.opTables, FamU2U) == Some(U2uDispatch)
    ensures FilteredIndex(U2uDispatch, 0) == 0 && U2uDispatch.table[0] == 2
    ensures FilteredIndex(U2uDispatch, 1) == 0 && U2uDispatch.table[0] == 2
    ensures FilteredIndex(U2uDispatch, 2) == 1 && U2uDispatch.table[1] == 6
    ensures FilteredIndex(U2uDispatch, 3) == 2 && U2uDispatch.table[2] == 7
  {
    U2uRoutes();
    U2uListed();
  }

  /** The `u2u` family's entry in the dispatch list. */
  lemma U2uListed()
    ensures Lookup(Table.opTables, FamU2U) == Some(U2uDispatch)
  {
    var ops := Table.opTables;
    LookupHit(ops, 0, FamU2U);
    assert ops[0..] == ops;
  }

  lemma U2uRoutes()
    ensures FilteredIndex(U2uDispatch, 0) == 0 && U2uDispatch.table[0] == 2
    ensures FilteredIndex(U2uDispatch, 1) == 0 && U2uDispatch.table[0] == 2
    ensures FilteredIndex(U2uDispatch, 2) == 1 && U2uDispatch.table[1] == 6
    ensures FilteredIndex(U2uDispatch, 3) == 2 && U2uDispatch.table[2] == 7
  {
  }

  /** The `i2i` family's dispatch table, and the states it moves narrowings to. */
  lemma I2iFound()
    ensures Lookup(Table.opTables, FamI2I) == Some(I2iDispatch)
    ensures FilteredIndex(I2iDispatch, 0) == 0 && I2iDispatch.table[0] == 3
    ensures FilteredIndex(I2iDispatch, 1) == 0 && I2iDispatch.table[0] == 3
    ensures FilteredIndex(I2iDispatch, 2) == 1 && I2iDispatch.table[1] == 10
    ensures FilteredIndex(I2iDispatch, 3) == 2 && I2iDispatch.table[2] == 11
  {
    I2iRoutes();
    I2iListed();
  }

  /** The `i2i` family's entry in the dispatch list. */
  lemma I2iListed()
    ensures Lookup(Table.opTables, FamI2I) == Some(I2iDispatch)
  {
    var ops := Table.opTables;
    LookupHit(ops, 1, FamI2I);
    LookupSkip(ops, 0, FamI2I);
    assert ops[0..] == ops;
  }

  lemma I2iRoutes()
    ensures FilteredIndex(I2iDispatch, 0) == 0 && I2iDispatch.table[0] == 3
    ensures FilteredIndex(I2iDispatch, 1) == 0 && I2iDispatch.table[0] == 3
    ensures FilteredIndex(I2iDispatch, 2) == 1 && I2iDispatch.table[1] == 10
    ensures FilteredIndex(I2iDispatch, 3) == 2 && I2iDispatch.table[2] == 11
  {
  }

  /** The `u2f` family's dispatch table, and the states it moves narrowings to. */
  lemma U2fFound()
    ensures Lookup(Table.opTables, FamU2F) == Some(U2fDispatch)
    ensures FilteredIndex(U2fDispatch, 0) == 0 && U2fDispatch.table[0] == 0
    ensures FilteredIndex(U2fDispatch, 1) == 0 && U2fDispatch.table[0] == 0
    ensures FilteredIndex(U2fDispatch, 2) == 1 && U2fDispatch.table[1] == 14
    ensures FilteredIndex(U2fDispatch, 3) == 2 && U2fDispatch.table[2] == 15
  {
    U2fRoutes();
    U2fListed();
  }

  /** The `u2f` family's entry in the dispatch list. */
  lemma U2fListed()
    ensures Lookup(Table.opTables, FamU2F) == Some(U2fDispatch)
  {
    var ops := Table.opTables;
    LookupHit(ops, 4, FamU2F);
    LookupSkip(ops, 3, FamU2F);
    LookupSkip(ops, 2, FamU2F);
    LookupSkip(ops, 1, FamU2F);
    LookupSkip(ops, 0, FamU2F);
    assert ops[0..] == ops;
  }

  lemma U2fRoutes()
    ensures FilteredIndex(U2fDispatch, 0) == 0 && U2fDispatch.table[0] == 0
    ensures FilteredIndex(U2fDispatch, 1) == 0 && U2fDispatch.table[0] == 0
    ensures FilteredIndex(U2fDispatch, 2) == 1 && U2fDispatch.table[1] == 14
    ensures FilteredIndex(U2fDispatch, 3) == 2 && U2fDispatch.table[2] == 15
  {
  }

  /** The `i2f` family's dispatch table, and the states it moves narrowings to. */
  lemma I2fFound()
    ensures Lookup(Table.opTables, FamI2F) == Some(I2fDispatch)
    ensures FilteredIndex(I2fDispatch, 0) == 0 && I2fDispatch.table[0] == 0
    ensures FilteredIndex(I2fDispatch, 1) == 0 && I2fDispatch.table[0] == 0
    ensures FilteredIndex(I2fDispatch, 2) == 1 && I2fDispatch.table[1] == 18
    ensures FilteredIndex(I2fDispatch, 3) == 2 && I2fDispatch.table[2] == 19
  {
    I2fRoutes();
    I2fListed();
  }

  /** The `i2f` family's entry in the dispatch list. */
  lemma I2fListed()
    ensures Lookup(Table.opTables, FamI2F) == Some(I2fDispatch)
  {
    var ops := Table.opTables;
    LookupHit(ops, 5, FamI2F);
    LookupSkip(ops, 4, FamI2F);
    LookupSkip(ops, 3, FamI2F);
    LookupSkip(ops, 2, FamI2F);
    LookupSkip(ops, 1, FamI2F);
    LookupSkip(ops, 0, FamI2F);
    assert ops[0..] == ops;
  }

  lemma I2fRoutes()
    ensures FilteredIndex(I2fDispatch, 0) == 0 && I2fDispatch.table[0] == 0
    ensures FilteredIndex(I2fDispatch, 1) == 0 && I2fDispatch.table[0] == 0
    ensures FilteredIndex(I2fDispatch, 2) == 1 && I2fDispatch.table[1] == 18
    ensures FilteredIndex(I2fDispatch, 3) == 2 && I2fDispatch.table[2] == 19
  {
  }

  /** A state that the filter of each of the u2u, i2i, u2f and i2f tables sends to class `k`. */
  predicate FiltersTo(s: nat, k: nat) {
    && s < |U2uDispatch.filter.value| && s < |I2iDispatch.filter.value|
    && s < |U2fDispatch.filter.value| && s < |I2fDispatch.filter.value|
    && FilteredIndex(U2uDispatch, s) == k && FilteredIndex(I2iDispatch, s) == k
    && FilteredIndex(U2fDispatch, s) == k && FilteredIndex(I2fDispatch, s) == k
  }

  /** Whatever its source, a u2u8 narrowing is in a state every conversion filter sends to class 1. */
  lemma U2uNarrowState(x: Term)
    requires WellFormed(Table, |Flags|)
    ensures FiltersTo(StateOf(Table, |Flags|, Alu(U2U(8), 8, [x])), 1)
  {
    U2uListed();
    assert KeyOf(U2U(8)) == FamU2U;
    UnaryState(Table, |Flags|, U2U(8), 8, x, U2uDispatch);
    U2uTargets(FilteredIndex(U2uDispatch, StateOf(Table, |Flags|, x)));
  }

  /** Every state the u2u table moves to is one the filters send to class 1. */
  lemma U2uTargets(i: nat)
    requires i < |U2uDispatch.table|
    ensures FiltersTo(U2uDispatch.table[i], 1)
  {
  }

  /** Whatever its source, an i2i8 narrowing is in a state every conversion filter sends to class 2. */
  lemma I2iNarrowState(x: Term)
    requires WellFormed(Table, |Flags|)
    ensures FiltersTo(StateOf(Table, |Flags|, Alu(I2I(8), 8, [x])), 2)
  {
    I2iListed();
    assert KeyOf(I2I(8)) == FamI2I;
    UnaryState(Table, |Flags|, I2I(8), 8, x, I2iDispatch);
    I2iTargets(FilteredIndex(I2iDispatch, StateOf(Table, |Flags|, x)));
  }

  /** Every state the i2i table moves to is one the filters send to class 2. */
  lemma I2iTargets(i: nat)
    requires i < |I2iDispatch.table|
    ensures FiltersTo(I2iDispatch.table[i], 2)
  {
  }

  lemma U2uOfU2u8State(n: nat, y: Term)
    requires WellFormed(Table, |Flags|) && FilteredIndex(U2uDispatch, StateOf(Table, |Flags|, y)) == 1
    ensures StateOf(Table, |Flags|, Alu(U2U(n), n, [y])) == 6
  {
    U2uFound();
    assert KeyOf(U2U(n)) == FamU2U;
    UnaryState(Table, |Flags|, U2U(n), n, y, U2uDispatch);
  }

  lemma U2uOfI2i8State(n: nat, y: Term)
    requires WellFormed(Table, |Flags|) && FilteredIndex(U2uDispatch, StateOf(Table, |Flags|, y)) == 2
    ensures StateOf(Table, |Flags|, Alu(U2U(n), n, [y])) == 7
  {
    U2uFound();
    assert KeyOf(U2U(n)) == FamU2U;
    UnaryState(Table, |Flags|, U2U(n), n, y, U2uDispatch);
  }

  lemma I2iOfU2u8State(n: nat, y: Term)
    requires WellFormed(Table, |Flags|) && FilteredIndex(I2iDispatch, StateOf(Table, |Flags|, y)) == 1
    ensures StateOf(Table, |Flags|, Alu(I2I(n), n, [y])) == 10
  {
    I2iFound();
    assert KeyOf(I2I(n)) == FamI2I;
    UnaryState(Table, |Flags|, I2I(n), n, y, I2iDispatch);
  }

  lemma I2iOfI2i8State(n: nat, y: Term)
    requires WellFormed(Table, |Flags|) && FilteredIndex(I2iDispatch, StateOf(Table, |Flags|, y)) == 2
    ensures StateOf(Table, |Flags|, Alu(I2I(n), n, [y])) == 11
  {
    I2iFound();
    assert KeyOf(I2I(n)) == FamI2I;
    UnaryState(Table, |Flags|, I2I(n), n, y, I2iDispatch);
  }

  lemma U2fOfU2u8State(n: nat, y: Term)
    requires WellFormed(Table, |Flags|) && FilteredIndex(U2fDispatch, StateOf(Table, |Flags|, y)) == 1
    ensures StateOf(Table, |Flags|, Alu(U2F(n), n, [y])) == 14
  {
    U2fFound();
    assert KeyOf(U2F(n)) == FamU2F;
    UnaryState(Table, |Flags|, U2F(n), n, y, U2fDispatch);
  }

  lemma U2fOfI2i8State(n: nat, y: Term)
    requires WellFormed(Table, |Flags|) && FilteredIndex(U2fDispatch, StateOf(Table, |Flags|, y)) == 2
    ensures StateOf(Table, |Flags|, Alu(U2F(n), n, [y])) == 15
  {
    U2fFound();
    assert KeyOf(U2F(n)) == FamU2F;
    UnaryState(Table, |Flags|, U2F(n), n, y, U2fDispatch);
  }

  lemma I2fOfU2u8State(n: nat, y: Term)
    requires WellFormed(Table, |Flags|) && FilteredIndex(I2fDispatch, StateOf(Table, |Flags|, y)) == 1
    ensures StateOf(Table, |Flags|, Alu(I2F(n), n, [y])) == 18
  {
    I2fFound();
    assert KeyOf(I2F(n)) == FamI2F;
    UnaryState(Table, |Flags|, I2F(n), n, y, I2fDispatch);
  }

  lemma I2fOfI2i8State(n: nat, y: Term)
    requires WellFormed(Table, |Flags|) && FilteredIndex(I2fDispatch, StateOf(Table, |Flags|, y)) == 2
    ensures StateOf(Table, |Flags|, Alu(I2F(n), n, [y])) == 19
  {
    I2fFound();
    assert KeyOf(I2F(n)) == FamI2F;
    UnaryState(Table, |Flags|, I2F(n), n, y, I2fDispatch);
  }

  /** The first record of the run of each state a conversion of a narrowing reaches. */
  lemma RunOffsets()
    ensures TransformOffsets[6] == 1
    ensures TransformOffsets[7] == 11
    ensures TransformOffsets[10] == 29
    ensures TransformOffsets[11] == 39
    ensures TransformOffsets[14] == 57
    ensures TransformOffsets[15] == 67
    ensures TransformOffsets[18] == 97
    ensures TransformOffsets[19] == 107
  {
  }

  // Each record of a lowering run has the lowering shape and searches for its conversion pair.

  lemma Record1Lowers()
    ensures LoweringRecord(Table, 1)
    ensures SearchesFor(Values, Transforms[1].search, U2U(16), 16, U2U(8), 8, 16)
    ensures Transforms[1].search == 2
  {
    AllValuesOrdered();
    assert Transforms[1] == Rule(2, 4, 0);
    assert Src(Values, 2, 0) == 1;
    assert Src(Values, 1, 0) == 0;
    assert Src(Values, 4, 0) == 0;
    assert Src(Values, 4, 1) == 3;
    assert Pow2(8) == 256 by {
      Pow2Values();
    }
  }

  lemma Record1Matches(x: Term)
    requires WellFormed(Table, |Flags|) && x.bitSize == 16
    ensures Applies(Table, Flags, 1, Alu(U2U(16), 16, [Alu(U2U(8), 8, [x])]))
  {
    Record1Lowers();
    SearchMatches(Values, 2, U2U(16), 16, U2U(8), 8, 16, x);
  }

  lemma Record2Lowers()
    ensures LoweringRecord(Table, 2)
    ensures SearchesFor(Values, Transforms[2].search, U2U(16), 16, U2U(8), 8, 32)
    ensures Transforms[2].search == 7
  {
    AllValuesOrdered();
    assert Transforms[2] == Rule(7, 10, 0);
    assert Src(Values, 7, 0) == 6;
    assert Src(Values, 6, 0) == 5;
    assert Src(Values, 10, 0) == 9;
    assert Src(Values, 9, 0) == 5;
    assert Src(Values, 9, 1) == 8;
    assert Pow2(8) == 256 by {
      Pow2Values();
    }
  }

  lemma Record2Matches(x: Term)
    requires WellFormed(Table, |Flags|) && x.bitSize == 32
    ensures Applies(Table, Flags, 2, Alu(U2U(16), 16, [Alu(U2U(8), 8, [x])]))
  {
    Record2Lowers();
    SearchMatches(Values, 7, U2U(16), 16, U2U(8), 8, 32, x);
  }

  lemma Record3Lowers()
    ensures LoweringRecord(Table, 3)
    ensures SearchesFor(Values, Transforms[3].search, U2U(16), 16, U2U(8), 8, 64)
    ensures Transforms[3].search == 13
  {
    AllValuesOrdered();
    assert Transforms[3] == Rule(13, 16, 0);
    assert Src(Values, 13, 0) == 12;
    assert Src(Values, 12, 0) == 11;
    assert Src(Values, 16, 0) == 15;
    assert Src(Values, 15, 0) == 11;
    assert Src(Values, 15, 1) == 14;
    assert Pow2(8) == 256 by {
      Pow2Values();
    }
  }

  lemma Record3Matches(x: Term)
    requires WellFormed(Table, |Flags|) && x.bitSize == 64
    ensures Applies(Table, Flags, 3, Alu(U2U(16), 16, [Alu(U2U(8), 8, [x])]))
  {
    Record3Lowers();
    SearchMatches(Values, 13, U2U(16), 16, U2U(8), 8, 64, x);
  }

  lemma Record4Lowers()
    ensures LoweringRecord(Table, 4)
    ensures SearchesFor(Values, Transforms[4].search, U2U(32), 32, U2U(8), 8, 16)
    ensures Transforms[4].search == 33
  {
    AllValuesOrdered();
    assert Transforms[4] == Rule(33, 34, 0);
    assert Src(Values, 33, 0) == 1;
    assert Src(Values, 1, 0) == 0;
    assert Src(Values, 34, 0) == 4;
    assert Src(Values, 4, 0) == 0;
    assert Src(Values, 4, 1) == 3;
    assert Pow2(8) == 256 by {
      Pow2Values();
    }
  }

  lemma Record4Matches(x: Term)
    requires WellFormed(Table, |Flags|) && x.bitSize == 16
    ensures Applies(Table, Flags, 4, Alu(U2U(32), 32, [Alu(U2U(8), 8, [x])]))
  {
    Record4Lowers();
    SearchMatches(Values, 33, U2U(32), 32, U2U(8), 8, 16, x);
  }

  lemma Record5Lowers()
    ensures LoweringRecord(Table, 5)
    ensures SearchesFor(Values, Transforms[5].search, U2U(32), 32, U2U(8), 8, 32)
    ensures Transforms[5].search == 35
  {
    AllValuesOrdered();
    assert Transforms[5] == Rule(35, 9, 0);
    assert Src(Values, 35, 0) == 6;
    assert Src(Values, 6, 0) == 5;
    assert Src(Values, 9, 0) == 5;
    assert Src(Values, 9, 1) == 8;
    assert Pow2(8) == 256 by {
      Pow2Values();
    }
  }

  lemma Record5Matches(x: Term)
    requires WellFormed(Table, |Flags|) && x.bitSize == 32
    ensures Applies(Table, Flags, 5, Alu(U2U(32), 32, [Alu(U2U(8), 8, [x])]))
  {
    Record5Lowers();
    SearchMatches(Values, 35, U2U(32), 32, U2U(8), 8, 32, x);
  }

  lemma Record6Lowers()
    ensures LoweringRecord(Table, 6)
    ensures SearchesFor(Values, Transforms[6].search, U2U(32), 32, U2U(8), 8, 64)
    ensures Transforms[6].search == 36
  {
    AllValuesOrdered();
    assert Transforms[6] == Rule(36, 37, 0);
    assert Src(Values, 36, 0) == 12;
    assert Src(Values, 12, 0) == 11;
    assert Src(Values, 37, 0) == 15;
    assert Src(Values, 15, 0) == 11;
    assert Src(Values, 15, 1) == 14;
    assert Pow2(8) == 256 by {
      Pow2Values();
    }
  }

  lemma Record6Matches(x: Term)
    requires WellFormed(Table, |Flags|) && x.bitSize == 64
    ensures Applies(Table, Flags, 6, Alu(U2U(32), 32, [Alu(U2U(8), 8, [x])]))
  {
    Record6Lowers();
    SearchMatches(Values, 36, U2U(32), 32, U2U(8), 8, 64, x);
  }

  lemma Record7Lowers()
    ensures LoweringRecord(Table, 7)
    ensures SearchesFor(Values, Transforms[7].search, U2U(64), 64, U2U(8), 8, 16)
    ensures Transforms[7].search == 48
  {
    AllValuesOrdered();
    assert Transforms[7] == Rule(48, 49, 0);
    assert Src(Values, 48, 0) == 1;
    assert Src(Values, 1, 0) == 0;
    assert Src(Values, 49, 0) == 4;
    assert Src(Values, 4, 0) == 0;
    assert Src(Values, 4, 1) == 3;
    assert Pow2(8) == 256 by {
      Pow2Values();
    }
  }

  lemma Record7Matches(x: Term)
    requires WellFormed(Table, |Flags|) && x.bitSize == 16
    ensures Applies(Table, Flags, 7, Alu(U2U(64), 64, [Alu(U2U(8), 8, [x])]))
  {
    Record7Lowers();
    SearchMatches(Values, 48, U2U(64), 64, U2U(8), 8, 16, x);
  }

  lemma Record8Lowers()
    ensures LoweringRecord(Table, 8)
    ensures SearchesFor(Values, Transforms[8].search, U2U(64), 64, U2U(8), 8, 32)
    ensures Transforms[8].search == 50
  {
    AllValuesOrdered();
    assert Transforms[8] == Rule(50, 51, 0);
    assert Src(Values, 50, 0) == 6;
    assert Src(Values, 6, 0) == 5;
    assert Src(Values, 51, 0) == 9;
    assert Src(Values, 9, 0) == 5;
    assert Src(Values, 9, 1) == 8;
    assert Pow2(8) == 256 by {
      Pow2Values();
    }
  }

  lemma Record8Matches(x: Term)
    requires WellFormed(Table, |Flags|) && x.bitSize == 32
    ensures Applies(Table, Flags, 8, Alu(U2U(64), 64, [Alu(U2U(8), 8, [x])]))
  {
    Record8Lowers();
    SearchMatches(Values, 50, U2U(64), 64, U2U(8), 8, 32, x);
  }

  lemma Record9Lowers()
    ensures LoweringRecord(Table, 9)
    ensures SearchesFor(Values, Transforms[9].search, U2U(64), 64, U2U(8), 8, 64)
    ensures Transforms[9].search == 52
  {
    AllValuesOrdered();
    assert Transforms[9] == Rule(52, 15, 0);
    assert Src(Values, 52, 0) == 12;
    assert Src(Values, 12, 0) == 11;
    assert Src(Values, 15, 0) == 11;
    assert Src(Values, 15, 1) == 14;
    assert Pow2(8) == 256 by {
      Pow2Values();
    }
  }

  lemma Record9Matches(x: Term)
    requires WellFormed(Table, |Flags|) && x.bitSize == 64
    ensures Applies(Table, Flags, 9, Alu(U2U(64), 64, [Alu(U2U(8), 8, [x])]))
  {
    Record9Lowers();
    SearchMatches(Values, 52, U2U(64), 64, U2U(8), 8, 64, x);
  }

  lemma LoweringRun1()
    ensures forall j :: 1 <= j < 10 ==> LoweringRecord(Table, j)
  {
    Record1Lowers();
    Record2Lowers();
    Record3Lowers();
    Record4Lowers();
    Record5Lowers();
    Record6Lowers();
    Record7Lowers();
    Record8Lowers();
    Record9Lowers();
    forall j | 1 <= j < 10
      ensures LoweringRecord(Table, j)
    {
      assert j == 1 || j == 2 || j == 3 || j == 4 || j == 5 || j == 6 || j == 7 || j == 8 || j == 9;
    }
  }

  lemma Record11Lowers()
    ensures LoweringRecord(Table, 11)
    ensures SearchesFor(Values, Transforms[11].search, U2U(16), 16, I2I(8), 8, 16)
    ensures Transforms[11].search == 18
  {
    AllValuesOrdered();
    assert Transforms[11] == Rule(18, 19, 0);
    assert Src(Values, 18, 0) == 17;
    assert Src(Values, 17, 0) == 0;
    assert Src(Values, 19, 0) == 4;
    assert Src(Values, 4, 0) == 0;
    assert Src(Values, 4, 1) == 3;
    assert Pow2(8) == 256 by {
      Pow2Values();
    }
  }

  lemma Record11Matches(x: Term)
    requires WellFormed(Table, |Flags|) && x.bitSize == 16
    ensures Applies(Table, Flags, 11, Alu(U2U(16), 16, [Alu(I2I(8), 8, [x])]))
  {
    Record11Lowers();
    SearchMatches(Values, 18, U2U(16), 16, I2I(8), 8, 16, x);
  }

  lemma Record12Lowers()
    ensures LoweringRecord(Table, 12)
    ensures SearchesFor(Values, Transforms[12].search, U2U(16), 16, I2I(8), 8, 32)
    ensures Transforms[12].search == 21
  {
    AllValuesOrdered();
    assert Transforms[12] == Rule(21, 10, 0);
    assert Src(Values, 21, 0) == 20;
    assert Src(Values, 20, 0) == 5;
    assert Src(Values, 10, 0) == 9;
    assert Src(Values, 9, 0) == 5;
    assert Src(Values, 9, 1) == 8;
    assert Pow2(8) == 256 by {
      Pow2Values();
    }
  }

  lemma Record12Matches(x: Term)
    requires WellFormed(Table, |Flags|) && x.bitSize == 32
    ensures Applies(Table, Flags, 12, Alu(U2U(16), 16, [Alu(I2I(8), 8, [x])]))
  {
    Record12Lowers();
    SearchMatches(Values, 21, U2U(16), 16, I2I(8), 8, 32, x);
  }

  lemma Record13Lowers()
    ensures LoweringRecord(Table, 13)
    ensures SearchesFor(Values, Transforms[13].search, U2U(16), 16, I2I(8), 8, 64)
    ensures Transforms[13].search == 23
  {
    AllValuesOrdered();
    assert Transforms[13] == Rule(23, 16, 0);
    assert Src(Values, 23, 0) == 22;
    assert Src(Values, 22, 0) == 11;
    assert Src(Values, 16, 0) == 15;
    assert Src(Values, 15, 0) == 11;
    assert Src(Values, 15, 1) == 14;
    assert Pow2(8) == 256 by {
      Pow2Values();
    }
  }

  lemma Record13Matches(x: Term)
    requires WellFormed(Table, |Flags|) && x.bitSize == 64
    ensures Applies(Table, Flags, 13, Alu(U2U(16), 16, [Alu(I2I(8), 8, [x])]))
  {
    Record13Lowers();
    SearchMatches(Values, 23, U2U(16), 16, I2I(8), 8, 64, x);
  }

  lemma Record14Lowers()
    ensures LoweringRecord(Table, 14)
    ensures SearchesFor(Values, Transforms[14].search, U2U(32), 32, I2I(8), 8, 16)
    ensures Transforms[14].search == 38
  {
    AllValuesOrdered();
    assert Transforms[14] == Rule(38, 34, 0);
    assert Src(Values, 38, 0) == 17;
    assert Src(Values, 17, 0) == 0;
    assert Src(Values, 34, 0) == 4;
    assert Src(Values, 4, 0) == 0;
    assert Src(Values, 4, 1) == 3;
    assert Pow2(8) == 256 by {
      Pow2Values();
    }
  }

  lemma Record14Matches(x: Term)
    requires WellFormed(Table, |Flags|) && x.bitSize == 16
    ensures Applies(Table, Flags, 14, Alu(U2U(32), 32, [Alu(I2I(8), 8, [x])]))
  {
    Record14Lowers();
    SearchMatches(Values, 38, U2U(32), 32, I2I(8), 8, 16, x);
  }

  lemma Record15Lowers()
    ensures LoweringRecord(Table, 15)
    ensures SearchesFor(Values, Transforms[15].search, U2U(32), 32, I2I(8), 8, 32)
    ensures Transforms[15].search == 39
  {
    AllValuesOrdered();
    assert Transforms[15] == Rule(39, 40, 0);
    assert Src(Values, 39, 0) == 20;
    assert Src(Values, 20, 0) == 5;
    assert Src(Values, 40, 0) == 9;
    assert Src(Values, 9, 0) == 5;
    assert Src(Values, 9, 1) == 8;
    assert Pow2(8) == 256 by {
      Pow2Values();
    }
  }

  lemma Record15Matches(x: Term)
    requires WellFormed(Table, |Flags|) && x.bitSize == 32
    ensures Applies(Table, Flags, 15, Alu(U2U(32), 32, [Alu(I2I(8), 8, [x])]))
  {
    Record15Lowers();
    SearchMatches(Values, 39, U2U(32), 32, I2I(8), 8, 32, x);
  }

  lemma Record16Lowers()
    ensures LoweringRecord(Table, 16)
    ensures SearchesFor(Values, Transforms[16].search, U2U(32), 32, I2I(8), 8, 64)
    ensures Transforms[16].search == 41
  {
    AllValuesOrdered();
    assert Transforms[16] == Rule(41, 37, 0);
    assert Src(Values, 41, 0) == 22;
    assert Src(Values, 22, 0) == 11;
    assert Src(Values, 37, 0) == 15;
    assert Src(Values, 15, 0) == 11;
    assert Src(Values, 15, 1) == 14;
    assert Pow2(8) == 256 by {
      Pow2Values();
    }
  }

  lemma Record16Matches(x: Term)
    requires WellFormed(Table, |Flags|) && x.bitSize == 64
    ensures Applies(Table, Flags, 16, Alu(U2U(32), 32, [Alu(I2I(8), 8, [x])]))
  {
    Record16Lowers();
    SearchMatches(Values, 41, U2U(32), 32, I2I(8), 8, 64, x);
  }

  lemma Record17Lowers()
    ensures LoweringRecord(Table, 17)
    ensures SearchesFor(Values, Transforms[17].search, U2U(64), 64, I2I(8), 8, 16)
    ensures Transforms[17].search == 53
  {
    AllValuesOrdered();
    assert Transforms[17] == Rule(53, 49, 0);
    assert Src(Values, 53, 0) == 17;
    assert Src(Values, 17, 0) == 0;
    assert Src(Values, 49, 0) == 4;
    assert Src(Values, 4, 0) == 0;
    assert Src(Values, 4, 1) == 3;
    assert Pow2(8) == 256 by {
      Pow2Values();
    }
  }

  lemma Record17Matches(x: Term)
    requires WellFormed(Table, |Flags|) && x.bitSize == 16
    ensures Applies(Table, Flags, 17, Alu(U2U(64), 64, [Alu(I2I(8), 8, [x])]))
  {
    Record17Lowers();
    SearchMatches(Values, 53, U2U(64), 64, I2I(8), 8, 16, x);
  }

  lemma Record18Lowers()
    ensures LoweringRecord(Table, 18)
    ensures SearchesFor(Values, Transforms[18].search, U2U(64), 64, I2I(8), 8, 32)
    ensures Transforms[18].search == 54
  {
    AllValuesOrdered();
    assert Transforms[18] == Rule(54, 51, 0);
    assert Src(Values, 54, 0) == 20;
    assert Src(Values, 20, 0) == 5;
    assert Src(Values, 51, 0) == 9;
    assert Src(Values, 9, 0) == 5;
    assert Src(Values, 9, 1) == 8;
    assert Pow2(8) == 256 by {
      Pow2Values();
    }
  }

  lemma Record18Matches(x: Term)
    requires WellFormed(Table, |Flags|) && x.bitSize == 32
    ensures Applies(Table, Flags, 18, Alu(U2U(64), 64, [Alu(I2I(8), 8, [x])]))
  {
    Record18Lowers();
    SearchMatches(Values, 54, U2U(64), 64, I2I(8), 8, 32, x);
  }

  lemma Record19Lowers()
    ensures LoweringRecord(Table, 19)
    ensures SearchesFor(Values, Transforms[19].search, U2U(64), 64, I2I(8), 8, 64)
    ensures Transforms[19].search == 55
  {
    AllValuesOrdered();
    assert Transforms[19] == Rule(55, 56, 0);
    assert Src(Values, 55, 0) == 22;
    assert Src(Values, 22, 0) == 11;
    assert Src(Values, 56, 0) == 15;
    assert Src(Values, 15, 0) == 11;
    assert Src(Values, 15, 1) == 14;
    assert Pow2(8) == 256 by {
      Pow2Values();
    }
  }

  lemma Record19Matches(x: Term)
    requires WellFormed(Table, |Flags|) && x.bitSize == 64
    ensures Applies(Table, Flags, 19, Alu(U2U(64), 64, [Alu(I2I(8), 8, [x])]))
  {
    Record19Lowers();
    SearchMatches(Values, 55, U2U(64), 64, I2I(8), 8, 64, x);
  }

  lemma LoweringRun11()
    ensures forall j :: 11 <= j < 20 ==> LoweringRecord(Table, j)
  {
    Record11Lowers();
    Record12Lowers();
    Record13Lowers();
    Record14Lowers();
    Record15Lowers();
    Record16Lowers();
    Record17Lowers();
    Record18Lowers();
    Record19Lowers();
    forall j | 11 <= j < 20
      ensures LoweringRecord(Table, j)
    {
      assert j == 11 || j == 12 || j == 13 || j == 14 || j == 15 || j == 16 || j == 17 || j == 18 || j == 19;
    }
  }

  lemma Record29Lowers()
    ensures LoweringRecord(Table, 29)
    ensures SearchesFor(Values, Transforms[29].search, I2I(16), 16, U2U(8), 8, 16)
    ensures Transforms[29].search == 63
  {
    AllValuesOrdered();
    assert Transforms[29] == Rule(63, 67, 0);
    assert Src(Values, 63, 0) == 1;
    assert Src(Values, 1, 0) == 0;
    assert Src(Values, 67, 0) == 66;
    assert Src(Values, 66, 0) == 65;
    assert Src(Values, 65, 0) == 0;
    assert Src(Values, 65, 1) == 64;
    assert Src(Values, 66, 1) == 64;
  }

  lemma Record29Matches(x: Term)
    requires WellFormed(Table, |Flags|) && x.bitSize == 16
    ensures Applies(Table, Flags, 29, Alu(I2I(16), 16, [Alu(U2U(8), 8, [x])]))
  {
    Record29Lowers();
    SearchMatches(Values, 63, I2I(16), 16, U2U(8), 8, 16, x);
  }

  lemma Record30Lowers()
    ensures LoweringRecord(Table, 30)
    ensures SearchesFor(Values, Transforms[30].search, I2I(16), 16, U2U(8), 8, 32)
    ensures Transforms[30].search == 68
  {
    AllValuesOrdered();
    assert Transforms[30] == Rule(68, 72, 0);
    assert Src(Values, 68, 0) == 6;
    assert Src(Values, 6, 0) == 5;
    assert Src(Values, 72, 0) == 71;
    assert Src(Values, 71, 0) == 70;
    assert Src(Values, 70, 0) == 5;
    assert Src(Values, 70, 1) == 69;
    assert Src(Values, 71, 1) == 69;
  }

  lemma Record30Matches(x: Term)
    requires WellFormed(Table, |Flags|) && x.bitSize == 32
    ensures Applies(Table, Flags, 30, Alu(I2I(16), 16, [Alu(U2U(8), 8, [x])]))
  {
    Record30Lowers();
    SearchMatches(Values, 68, I2I(16), 16, U2U(8), 8, 32, x);
  }

  lemma Record31Lowers()
    ensures LoweringRecord(Table, 31)
    ensures SearchesFor(Values, Transforms[31].search, I2I(16), 16, U2U(8), 8, 64)
    ensures Transforms[31].search == 73
  {
    AllValuesOrdered();
    assert Transforms[31] == Rule(73, 77, 0);
    assert Src(Values, 73, 0) == 12;
    assert Src(Values, 12, 0) == 11;
    assert Src(Values, 77, 0) == 76;
    assert Src(Values, 76, 0) == 75;
    assert Src(Values, 75, 0) == 11;
    assert Src(Values, 75, 1) == 74;
    assert Src(Values, 76, 1) == 74;
  }

  lemma Record31Matches(x: Term)
    requires WellFormed(Table, |Flags|) && x.bitSize == 64
    ensures Applies(Table, Flags, 31, Alu(I2I(16), 16, [Alu(U2U(8), 8, [x])]))
  {
    Record31Lowers();
    SearchMatches(Values, 73, I2I(16), 16, U2U(8), 8, 64, x);
  }

  lemma Record32Lowers()
    ensures LoweringRecord(Table, 32)
    ensures SearchesFor(Values, Transforms[32].search, I2I(32), 32, U2U(8), 8, 16)
    ensures Transforms[32].search == 87
  {
    AllValuesOrdered();
    assert Transforms[32] == Rule(87, 88, 0);
    assert Src(Values, 87, 0) == 1;
    assert Src(Values, 1, 0) == 0;
    assert Src(Values, 88, 0) == 66;
    assert Src(Values, 66, 0) == 65;
    assert Src(Values, 65, 0) == 0;
    assert Src(Values, 65, 1) == 64;
    assert Src(Values, 66, 1) == 64;
  }

  lemma Record32Matches(x: Term)
    requires WellFormed(Table, |Flags|) && x.bitSize == 16
    ensures Applies(Table, Flags, 32, Alu(I2I(32), 32, [Alu(U2U(8), 8, [x])]))
  {
    Record32Lowers();
    SearchMatches(Values, 87, I2I(32), 32, U2U(8), 8, 16, x);
  }

  lemma Record33Lowers()
    ensures LoweringRecord(Table, 33)
    ensures SearchesFor(Values, Transforms[33].search, I2I(32), 32, U2U(8), 8, 32)
    ensures Transforms[33].search == 89
  {
    AllValuesOrdered();
    assert Transforms[33] == Rule(89, 90, 0);
    assert Src(Values, 89, 0) == 6;
    assert Src(Values, 6, 0) == 5;
    assert Src(Values, 90, 0) == 71;
    assert Src(Values, 71, 0) == 70;
    assert Src(Values, 70, 0) == 5;
    assert Src(Values, 70, 1) == 69;
    assert Src(Values, 71, 1) == 69;
  }

  lemma Record33Matches(x: Term)
    requires WellFormed(Table, |Flags|) && x.bitSize == 32
    ensures Applies(Table, Flags, 33, Alu(I2I(32), 32, [Alu(U2U(8), 8, [x])]))
  {
    Record33Lowers();
    SearchMatches(Values, 89, I2I(32), 32, U2U(8), 8, 32, x);
  }

  lemma Record34Lowers()
    ensures LoweringRecord(Table, 34)
    ensures SearchesFor(Values, Transforms[34].search, I2I(32), 32, U2U(8), 8, 64)
    ensures Transforms[34].search == 91
  {
    AllValuesOrdered();
    assert Transforms[34] == Rule(91, 92, 0);
    assert Src(Values, 91, 0) == 12;
    assert Src(Values, 12, 0) == 11;
    assert Src(Values, 92, 0) == 76;
    assert Src(Values, 76, 0) == 75;
    assert Src(Values, 75, 0) == 11;
    assert Src(Values, 75, 1) == 74;
    assert Src(Values, 76, 1) == 74;
  }

  lemma Record34Matches(x: Term)
    requires WellFormed(Table, |Flags|) && x.bitSize == 64
    ensures Applies(Table, Flags, 34, Alu(I2I(32), 32, [Alu(U2U(8), 8, [x])]))
  {
    Record34Lowers();
    SearchMatches(Values, 91, I2I(32), 32, U2U(8), 8, 64, x);
  }

  lemma Record35Lowers()
    ensures LoweringRecord(Table, 35)
    ensures SearchesFor(Values, Transforms[35].search, I2I(64), 64, U2U(8), 8, 16)
    ensures Transforms[35].search == 102
  {
    AllValuesOrdered();
    assert Transforms[35] == Rule(102, 103, 0);
    assert Src(Values, 102, 0) == 1;
    assert Src(Values, 1, 0) == 0;
    assert Src(Values, 103, 0) == 66;
    assert Src(Values, 66, 0) == 65;
    assert Src(Values, 65, 0) == 0;
    assert Src(Values, 65, 1) == 64;
    assert Src(Values, 66, 1) == 64;
  }

  lemma Record35Matches(x: Term)
    requires WellFormed(Table, |Flags|) && x.bitSize == 16
    ensures Applies(Table, Flags, 35, Alu(I2I(64), 64, [Alu(U2U(8), 8, [x])]))
  {
    Record35Lowers();
    SearchMatches(Values, 102, I2I(64), 64, U2U(8), 8, 16, x);
  }

  lemma Record36Lowers()
    ensures LoweringRecord(Table, 36)
    ensures SearchesFor(Values, Transforms[36].search, I2I(64), 64, U2U(8), 8, 32)
    ensures Transforms[36].search == 104
  {
    AllValuesOrdered();
    assert Transforms[36] == Rule(104, 105, 0);
    assert Src(Values, 104, 0) == 6;
    assert Src(Values, 6, 0) == 5;
    assert Src(Values, 105, 0) == 71;
    assert Src(Values, 71, 0) == 70;
    assert Src(Values, 70, 0) == 5;
    assert Src(Values, 70, 1) == 69;
    assert Src(Values, 71, 1) == 69;
  }

  lemma Record36Matches(x: Term)
    requires WellFormed(Table, |Flags|) && x.bitSize == 32
    ensures Applies(Table, Flags, 36, Alu(I2I(64), 64, [Alu(U2U(8), 8, [x])]))
  {
    Record36Lowers();
    SearchMatches(Values, 104, I2I(64), 64, U2U(8), 8, 32, x);
  }

  lemma Record37Lowers()
    ensures LoweringRecord(Table, 37)
    ensures SearchesFor(Values, Transforms[37].search, I2I(64), 64, U2U(8), 8, 64)
    ensures Transforms[37].search == 106
  {
    AllValuesOrdered();
    assert Transforms[37] == Rule(106, 107, 0);
    assert Src(Values, 106, 0) == 12;
    assert Src(Values, 12, 0) == 11;
    assert Src(Values, 107, 0) == 76;
    assert Src(Values, 76, 0) == 75;
    assert Src(Values, 75, 0) == 11;
    assert Src(Values, 75, 1) == 74;
    assert Src(Values, 76, 1) == 74;
  }

  lemma Record37Matches(x: Term)
    requires WellFormed(Table, |Flags|) && x.bitSize == 64
    ensures Applies(Table, Flags, 37, Alu(I2I(64), 64, [Alu(U2U(8), 8, [x])]))
  {
    Record37Lowers();
    SearchMatches(Values, 106, I2I(64), 64, U2U(8), 8, 64, x);
  }

  lemma LoweringRun29()
    ensures forall j :: 29 <= j < 38 ==> LoweringRecord(Table, j)
  {
    Record29Lowers();
    Record30Lowers();
    Record31Lowers();
    Record32Lowers();
    Record33Lowers();
    Record34Lowers();
    Record35Lowers();
    Record36Lowers();
    Record37Lowers();
    forall j | 29 <= j < 38
      ensures LoweringRecord(Table, j)
    {
      assert j == 29 || j == 30 || j == 31 || j == 32 || j == 33 || j == 34 || j == 35 || j == 36 || j == 37;
    }
  }

  lemma Record39Lowers()
    ensures LoweringRecord(Table, 39)
    ensures SearchesFor(Values, Transforms[39].search, I2I(16), 16, I2I(8), 8, 16)
    ensures Transforms[39].search == 78
  {
    AllValuesOrdered();
    assert Transforms[39] == Rule(78, 66, 0);
    assert Src(Values, 78, 0) == 17;
    assert Src(Values, 17, 0) == 0;
    assert Src(Values, 66, 0) == 65;
    assert Src(Values, 65, 0) == 0;
    assert Src(Values, 65, 1) == 64;
    assert Src(Values, 66, 1) == 64;
  }

  lemma Record39Matches(x: Term)
    requires WellFormed(Table, |Flags|) && x.bitSize == 16
    ensures Applies(Table, Flags, 39, Alu(I2I(16), 16, [Alu(I2I(8), 8, [x])]))
  {
    Record39Lowers();
    SearchMatches(Values, 78, I2I(16), 16, I2I(8), 8, 16, x);
  }

  lemma Record40Lowers()
    ensures LoweringRecord(Table, 40)
    ensures SearchesFor(Values, Transforms[40].search, I2I(16), 16, I2I(8), 8, 32)
    ensures Transforms[40].search == 79
  {
    AllValuesOrdered();
    assert Transforms[40] == Rule(79, 72, 0);
    assert Src(Values, 79, 0) == 20;
    assert Src(Values, 20, 0) == 5;
    assert Src(Values, 72, 0) == 71;
    assert Src(Values, 71, 0) == 70;
    assert Src(Values, 70, 0) == 5;
    assert Src(Values, 70, 1) == 69;
    assert Src(Values, 71, 1) == 69;
  }

  lemma Record40Matches(x: Term)
    requires WellFormed(Table, |Flags|) && x.bitSize == 32
    ensures Applies(Table, Flags, 40, Alu(I2I(16), 16, [Alu(I2I(8), 8, [x])]))
  {
    Record40Lowers();
    SearchMatches(Values, 79, I2I(16), 16, I2I(8), 8, 32, x);
  }

  lemma Record41Lowers()
    ensures LoweringRecord(Table, 41)
    ensures SearchesFor(Values, Transforms[41].search, I2I(16), 16, I2I(8), 8, 64)
    ensures Transforms[41].search == 80
  {
    AllValuesOrdered();
    assert Transforms[41] == Rule(80, 77, 0);
    assert Src(Values, 80, 0) == 22;
    assert Src(Values, 22, 0) == 11;
    assert Src(Values, 77, 0) == 76;
    assert Src(Values, 76, 0) == 75;
    assert Src(Values, 75, 0) == 11;
    assert Src(Values, 75, 1) == 74;
    assert Src(Values, 76, 1) == 74;
  }

  lemma Record41Matches(x: Term)
    requires WellFormed(Table, |Flags|) && x.bitSize == 64
    ensures Applies(Table, Flags, 41, Alu(I2I(16), 16, [Alu(I2I(8), 8, [x])]))
  {
    Record41Lowers();
    SearchMatches(Values, 80, I2I(16), 16, I2I(8), 8, 64, x);
  }

  lemma Record42Lowers()
    ensures LoweringRecord(Table, 42)
    ensures SearchesFor(Values, Transforms[42].search, I2I(32), 32, I2I(8), 8, 16)
    ensures Transforms[42].search == 93
  {
    AllValuesOrdered();
    assert Transforms[42] == Rule(93, 88, 0);
    assert Src(Values, 93, 0) == 17;
    assert Src(Values, 17, 0) == 0;
    assert Src(Values, 88, 0) == 66;
    assert Src(Values, 66, 0) == 65;
    assert Src(Values, 65, 0) == 0;
    assert Src(Values, 65, 1) == 64;
    assert Src(Values, 66, 1) == 64;
  }

  lemma Record42Matches(x: Term)
    requires WellFormed(Table, |Flags|) && x.bitSize == 16
    ensures Applies(Table, Flags, 42, Alu(I2I(32), 32, [Alu(I2I(8), 8, [x])]))
  {
    Record42Lowers();
    SearchMatches(Values, 93, I2I(32), 32, I2I(8), 8, 16, x);
  }

  lemma Record43Lowers()
    ensures LoweringRecord(Table, 43)
    ensures SearchesFor(Values, Transforms[43].search, I2I(32), 32, I2I(8), 8, 32)
    ensures Transforms[43].search == 94
  {
    AllValuesOrdered();
    assert Transforms[43] == Rule(94, 71, 0);
    assert Src(Values, 94, 0) == 20;
    assert Src(Values, 20, 0) == 5;
    assert Src(Values, 71, 0) == 70;
    assert Src(Values, 70, 0) == 5;
    assert Src(Values, 70, 1) == 69;
    assert Src(Values, 71, 1) == 69;
  }

  lemma Record43Matches(x: Term)
    requires WellFormed(Table, |Flags|) && x.bitSize == 32
    ensures Applies(Table, Flags, 43, Alu(I2I(32), 32, [Alu(I2I(8), 8, [x])]))
  {
    Record43Lowers();
    SearchMatches(Values, 94, I2I(32), 32, I2I(8), 8, 32, x);
  }

  lemma Record44Lowers()
    ensures LoweringRecord(Table, 44)
    ensures SearchesFor(Values, Transforms[44].search, I2I(32), 32, I2I(8), 8, 64)
    ensures Transforms[44].search == 95
  {
    AllValuesOrdered();
    assert Transforms[44] == Rule(95, 92, 0);
    assert Src(Values, 95, 0) == 22;
    assert Src(Values, 22, 0) == 11;
    assert Src(Values, 92, 0) == 76;
    assert Src(Values, 76, 0) == 75;
    assert Src(Values, 75, 0) == 11;
    assert Src(Values, 75, 1) == 74;
    assert Src(Values, 76, 1) == 74;
  }

  lemma Record44Matches(x: Term)
    requires WellFormed(Table, |Flags|) && x.bitSize == 64
    ensures Applies(Table, Flags, 44, Alu(I2I(32), 32, [Alu(I2I(8), 8, [x])]))
  {
    Record44Lowers();
    SearchMatches(Values, 95, I2I(32), 32, I2I(8), 8, 64, x);
  }

  lemma Record45Lowers()
    ensures LoweringRecord(Table, 45)
    ensures SearchesFor(Values, Transforms[45].search, I2I(64), 64, I2I(8), 8, 16)
    ensures Transforms[45].search == 108
  {
    AllValuesOrdered();
    assert Transforms[45] == Rule(108, 103, 0);
    assert Src(Values, 108, 0) == 17;
    assert Src(Values, 17, 0) == 0;
    assert Src(Values, 103, 0) == 66;
    assert Src(Values, 66, 0) == 65;
    assert Src(Values, 65, 0) == 0;
    assert Src(Values, 65, 1) == 64;
    assert Src(Values, 66, 1) == 64;
  }

  lemma Record45Matches(x: Term)
    requires WellFormed(Table, |Flags|) && x.bitSize == 16
    ensures Applies(Table, Flags, 45, Alu(I2I(64), 64, [Alu(I2I(8), 8, [x])]))
  {
    Record45Lowers();
    SearchMatches(Values, 108, I2I(64), 64, I2I(8), 8, 16, x);
  }

  lemma Record46Lowers()
    ensures LoweringRecord(Table, 46)
    ensures SearchesFor(Values, Transforms[46].search, I2I(64), 64, I2I(8), 8, 32)
    ensures Transforms[46].search == 109
  {
    AllValuesOrdered();
    assert Transforms[46] == Rule(109, 105, 0);
    assert Src(Values, 109, 0) == 20;
    assert Src(Values, 20, 0) == 5;
    assert Src(Values, 105, 0) == 71;
    assert Src(Values, 71, 0) == 70;
    assert Src(Values, 70, 0) == 5;
    assert Src(Values, 70, 1) == 69;
    assert Src(Values, 71, 1) == 69;
  }

  lemma Record46Matches(x: Term)
    requires WellFormed(Table, |Flags|) && x.bitSize == 32
    ensures Applies(Table, Flags, 46, Alu(I2I(64), 64, [Alu(I2I(8), 8, [x])]))
  {
    Record46Lowers();
    SearchMatches(Values, 109, I2I(64), 64, I2I(8), 8, 32, x);
  }

  lemma Record47Lowers()
    ensures LoweringRecord(Table, 47)
    ensures SearchesFor(Values, Transforms[47].search, I2I(64), 64, I2I(8), 8, 64)
    ensures Transforms[47].search == 110
  {
    AllValuesOrdered();
    assert Transforms[47] == Rule(110, 76, 0);
    assert Src(Values, 110, 0) == 22;
    assert Src(Values, 22, 0) == 11;
    assert Src(Values, 76, 0) == 75;
    assert Src(Values, 75, 0) == 11;
    assert Src(Values, 75, 1) == 74;
    assert Src(Values, 76, 1) == 74;
  }

  lemma Record47Matches(x: Term)
    requires WellFormed(Table, |Flags|) && x.bitSize == 64
    ensures Applies(Table, Flags, 47, Alu(I2I(64), 64, [Alu(I2I(8), 8, [x])]))
  {
    Record47Lowers();
    SearchMatches(Values, 110, I2I(64), 64, I2I(8), 8, 64, x);
  }

  lemma LoweringRun39()
    ensures forall j :: 39 <= j < 48 ==> LoweringRecord(Table, j)
  {
    Record39Lowers();
    Record40Lowers();
    Record41Lowers();
    Record42Lowers();
    Record43Lowers();
    Record44Lowers();
    Record45Lowers();
    Record46Lowers();
    Record47Lowers();
    forall j | 39 <= j < 48
      ensures LoweringRecord(Table, j)
    {
      assert j == 39 || j == 40 || j == 41 || j == 42 || j == 43 || j == 44 || j == 45 || j == 46 || j == 47;
    }
  }

  lemma Record57Lowers()
    ensures LoweringRecord(Table, 57)
    ensures SearchesFor(Values, Transforms[57].search, U2F(16), 16, U2U(8), 8, 16)
    ensures Transforms[57].search == 117
  {
    AllValuesOrdered();
    assert Transforms[57] == Rule(117, 118, 0);
    assert Src(Values, 117, 0) == 1;
    assert Src(Values, 1, 0) == 0;
    assert Src(Values, 118, 0) == 4;
    assert Src(Values, 4, 0) == 0;
    assert Src(Values, 4, 1) == 3;
    assert Pow2(8) == 256 by {
      Pow2Values();
    }
  }

  lemma Record57Matches(x: Term)
    requires WellFormed(Table, |Flags|) && x.bitSize == 16
    ensures Applies(Table, Flags, 57, Alu(U2F(16), 16, [Alu(U2U(8), 8, [x])]))
  {
    Record57Lowers();
    SearchMatches(Values, 117, U2F(16), 16, U2U(8), 8, 16, x);
  }

  lemma Record58Lowers()
    ensures LoweringRecord(Table, 58)
    ensures SearchesFor(Values, Transforms[58].search, U2F(16), 16, U2U(8), 8, 32)
    ensures Transforms[58].search == 119
  {
    AllValuesOrdered();
    assert Transforms[58] == Rule(119, 120, 0);
    assert Src(Values, 119, 0) == 6;
    assert Src(Values, 6, 0) == 5;
    assert Src(Values, 120, 0) == 9;
    assert Src(Values, 9, 0) == 5;
    assert Src(Values, 9, 1) == 8;
    assert Pow2(8) == 256 by {
      Pow2Values();
    }
  }

  lemma Record58Matches(x: Term)
    requires WellFormed(Table, |Flags|) && x.bitSize == 32
    ensures Applies(Table, Flags, 58, Alu(U2F(16), 16, [Alu(U2U(8), 8, [x])]))
  {
    Record58Lowers();
    SearchMatches(Values, 119, U2F(16), 16, U2U(8), 8, 32, x);
  }

  lemma Record59Lowers()
    ensures LoweringRecord(Table, 59)
    ensures SearchesFor(Values, Transforms[59].search, U2F(16), 16, U2U(8), 8, 64)
    ensures Transforms[59].search == 121
  {
    AllValuesOrdered();
    assert Transforms[59] == Rule(121, 122, 0);
    assert Src(Values, 121, 0) == 12;
    assert Src(Values, 12, 0) == 11;
    assert Src(Values, 122, 0) == 15;
    assert Src(Values, 15, 0) == 11;
    assert Src(Values, 15, 1) == 14;
    assert Pow2(8) == 256 by {
      Pow2Values();
    }
  }

  lemma Record59Matches(x: Term)
    requires WellFormed(Table, |Flags|) && x.bitSize == 64
    ensures Applies(Table, Flags, 59, Alu(U2F(16), 16, [Alu(U2U(8), 8, [x])]))
  {
    Record59Lowers();
    SearchMatches(Values, 121, U2F(16), 16, U2U(8), 8, 64, x);
  }

  lemma Record60Lowers()
    ensures LoweringRecord(Table, 60)
    ensures SearchesFor(Values, Transforms[60].search, U2F(32), 32, U2U(8), 8, 16)
    ensures Transforms[60].search == 152
  {
    AllValuesOrdered();
    assert Transforms[60] == Rule(152, 153, 0);
    assert Src(Values, 152, 0) == 1;
    assert Src(Values, 1, 0) == 0;
    assert Src(Values, 153, 0) == 4;
    assert Src(Values, 4, 0) == 0;
    assert Src(Values, 4, 1) == 3;
    assert Pow2(8) == 256 by {
      Pow2Values();
    }
  }

  lemma Record60Matches(x: Term)
    requires WellFormed(Table, |Flags|) && x.bitSize == 16
    ensures Applies(Table, Flags, 60, Alu(U2F(32), 32, [Alu(U2U(8), 8, [x])]))
  {
    Record60Lowers();
    SearchMatches(Values, 152, U2F(32), 32, U2U(8), 8, 16, x);
  }

  lemma Record61Lowers()
    ensures LoweringRecord(Table, 61)
    ensures SearchesFor(Values, Transforms[61].search, U2F(32), 32, U2U(8), 8, 32)
    ensures Transforms[61].search == 154
  {
    AllValuesOrdered();
    assert Transforms[61] == Rule(154, 155, 0);
    assert Src(Values, 154, 0) == 6;
    assert Src(Values, 6, 0) == 5;
    assert Src(Values, 155, 0) == 9;
    assert Src(Values, 9, 0) == 5;
    assert Src(Values, 9, 1) == 8;
    assert Pow2(8) == 256 by {
      Pow2Values();
    }
  }

  lemma Record61Matches(x: Term)
    requires WellFormed(Table, |Flags|) && x.bitSize == 32
    ensures Applies(Table, Flags, 61, Alu(U2F(32), 32, [Alu(U2U(8), 8, [x])]))
  {
    Record61Lowers();
    SearchMatches(Values, 154, U2F(32), 32, U2U(8), 8, 32, x);
  }

  lemma Record62Lowers()
    ensures LoweringRecord(Table, 62)
    ensures SearchesFor(Values, Transforms[62].search, U2F(32), 32, U2U(8), 8, 64)
    ensures Transforms[62].search == 156
  {
    AllValuesOrdered();
    assert Transforms[62] == Rule(156, 157, 0);
    assert Src(Values, 156, 0) == 12;
    assert Src(Values, 12, 0) == 11;
    assert Src(Values, 157, 0) == 15;
    assert Src(Values, 15, 0) == 11;
    assert Src(Values, 15, 1) == 14;
    assert Pow2(8) == 256 by {
      Pow2Values();
    }
  }

  lemma Record62Matches(x: Term)
    requires WellFormed(Table, |Flags|) && x.bitSize == 64
    ensures Applies(Table, Flags, 62, Alu(U2F(32), 32, [Alu(U2U(8), 8, [x])]))
  {
    Record62Lowers();
    SearchMatches(Values, 156, U2F(32), 32, U2U(8), 8, 64, x);
  }

  lemma Record63Lowers()
    ensures LoweringRecord(Table, 63)
    ensures SearchesFor(Values, Transforms[63].search, U2F(64), 64, U2U(8), 8, 16)
    ensures Transforms[63].search == 169
  {
    AllValuesOrdered();
    assert Transforms[63] == Rule(169, 170, 0);
    assert Src(Values, 169, 0) == 1;
    assert Src(Values, 1, 0) == 0;
    assert Src(Values, 170, 0) == 4;
    assert Src(Values, 4, 0) == 0;
    assert Src(Values, 4, 1) == 3;
    assert Pow2(8) == 256 by {
      Pow2Values();
    }
  }

  lemma Record63Matches(x: Term)
    requires WellFormed(Table, |Flags|) && x.bitSize == 16
    ensures Applies(Table, Flags, 63, Alu(U2F(64), 64, [Alu(U2U(8), 8, [x])]))
  {
    Record63Lowers();
    SearchMatches(Values, 169, U2F(64), 64, U2U(8), 8, 16, x);
  }

  lemma Record64Lowers()
    ensures LoweringRecord(Table, 64)
    ensures SearchesFor(Values, Transforms[64].search, U2F(64), 64, U2U(8), 8, 32)
    ensures Transforms[64].search == 171
  {
    AllValuesOrdered();
    assert Transforms[64] == Rule(171, 172, 0);
    assert Src(Values, 171, 0) == 6;
    assert Src(Values, 6, 0) == 5;
    assert Src(Values, 172, 0) == 9;
    assert Src(Values, 9, 0) == 5;
    assert Src(Values, 9, 1) == 8;
    assert Pow2(8) == 256 by {
      Pow2Values();
    }
  }

  lemma Record64Matches(x: Term)
    requires WellFormed(Table, |Flags|) && x.bitSize == 32
    ensures Applies(Table, Flags, 64, Alu(U2F(64), 64, [Alu(U2U(8), 8, [x])]))
  {
    Record64Lowers();
    SearchMatches(Values, 171, U2F(64), 64, U2U(8), 8, 32, x);
  }

  lemma Record65Lowers()
    ensures LoweringRecord(Table, 65)
    ensures SearchesFor(Values, Transforms[65].search, U2F(64), 64, U2U(8), 8, 64)
    ensures Transforms[65].search == 173
  {
    AllValuesOrdered();
    assert Transforms[65] == Rule(173, 174, 0);
    assert Src(Values, 173, 0) == 12;
    assert Src(Values, 12, 0) == 11;
    assert Src(Values, 174, 0) == 15;
    assert Src(Values, 15, 0) == 11;
    assert Src(Values, 15, 1) == 14;
    assert Pow2(8) == 256 by {
      Pow2Values();
    }
  }

  lemma Record65Matches(x: Term)
    requires WellFormed(Table, |Flags|) && x.bitSize == 64
    ensures Applies(Table, Flags, 65, Alu(U2F(64), 64, [Alu(U2U(8), 8, [x])]))
  {
    Record65Lowers();
    SearchMatches(Values, 173, U2F(64), 64, U2U(8), 8, 64, x);
  }

  lemma LoweringRun57()
    ensures forall j :: 57 <= j < 66 ==> LoweringRecord(Table, j)
  {
    Record57Lowers();
    Record58Lowers();
    Record59Lowers();
    Record60Lowers();
    Record61Lowers();
    Record62Lowers();
    Record63Lowers();
    Record64Lowers();
    Record65Lowers();
    forall j | 57 <= j < 66
      ensures LoweringRecord(Table, j)
    {
      assert j == 57 || j == 58 || j == 59 || j == 60 || j == 61 || j == 62 || j == 63 || j == 64 || j == 65;
    }
  }

  lemma Record67Lowers()
    ensures LoweringRecord(Table, 67)
    ensures SearchesFor(Values, Transforms[67].search, U2F(16), 16, I2I(8), 8, 16)
    ensures Transforms[67].search == 123
  {
    AllValuesOrdered();
    assert Transforms[67] == Rule(123, 118, 0);
    assert Src(Values, 123, 0) == 17;
    assert Src(Values, 17, 0) == 0;
    assert Src(Values, 118, 0) == 4;
    assert Src(Values, 4, 0) == 0;
    assert Src(Values, 4, 1) == 3;
    assert Pow2(8) == 256 by {
      Pow2Values();
    }
  }

  lemma Record67Matches(x: Term)
    requires WellFormed(Table, |Flags|) && x.bitSize == 16
    ensures Applies(Table, Flags, 67, Alu(U2F(16), 16, [Alu(I2I(8), 8, [x])]))
  {
    Record67Lowers();
    SearchMatches(Values, 123, U2F(16), 16, I2I(8), 8, 16, x);
  }

  lemma Record68Lowers()
    ensures LoweringRecord(Table, 68)
    ensures SearchesFor(Values, Transforms[68].search, U2F(16), 16, I2I(8), 8, 32)
    ensures Transforms[68].search == 124
  {
    AllValuesOrdered();
    assert Transforms[68] == Rule(124, 120, 0);
    assert Src(Values, 124, 0) == 20;
    assert Src(Values, 20, 0) == 5;
    assert Src(Values, 120, 0) == 9;
    assert Src(Values, 9, 0) == 5;
    assert Src(Values, 9, 1) == 8;
    assert Pow2(8) == 256 by {
      Pow2Values();
    }
  }

  lemma Record68Matches(x: Term)
    requires WellFormed(Table, |Flags|) && x.bitSize == 32
    ensures Applies(Table, Flags, 68, Alu(U2F(16), 16, [Alu(I2I(8), 8, [x])]))
  {
    Record68Lowers();
    SearchMatches(Values, 124, U2F(16), 16, I2I(8), 8, 32, x);
  }

  lemma Record69Lowers()
    ensures LoweringRecord(Table, 69)
    ensures SearchesFor(Values, Transforms[69].search, U2F(16), 16, I2I(8), 8, 64)
    ensures Transforms[69].search == 125
  {
    AllValuesOrdered();
    assert Transforms[69] == Rule(125, 122, 0);
    assert Src(Values, 125, 0) == 22;
    assert Src(Values, 22, 0) == 11;
    assert Src(Values, 122, 0) == 15;
    assert Src(Values, 15, 0) == 11;
    assert Src(Values, 15, 1) == 14;
    assert Pow2(8) == 256 by {
      Pow2Values();
    }
  }

  lemma Record69Matches(x: Term)
    requires WellFormed(Table, |Flags|) && x.bitSize == 64
    ensures Applies(Table, Flags, 69, Alu(U2F(16), 16, [Alu(I2I(8), 8, [x])]))
  {
    Record69Lowers();
    SearchMatches(Values, 125, U2F(16), 16, I2I(8), 8, 64, x);
  }

  lemma Record70Lowers()
    ensures LoweringRecord(Table, 70)
    ensures SearchesFor(Values, Transforms[70].search, U2F(32), 32, I2I(8), 8, 16)
    ensures Transforms[70].search == 158
  {
    AllValuesOrdered();
    assert Transforms[70] == Rule(158, 153, 0);
    assert Src(Values, 158, 0) == 17;
    assert Src(Values, 17, 0) == 0;
    assert Src(Values, 153, 0) == 4;
    assert Src(Values, 4, 0) == 0;
    assert Src(Values, 4, 1) == 3;
    assert Pow2(8) == 256 by {
      Pow2Values();
    }
  }

  lemma Record70Matches(x: Term)
    requires WellFormed(Table, |Flags|) && x.bitSize == 16
    ensures Applies(Table, Flags, 70, Alu(U2F(32), 32, [Alu(I2I(8), 8, [x])]))
  {
    Record70Lowers();
    SearchMatches(Values, 158, U2F(32), 32, I2I(8), 8, 16, x);
  }

  lemma Record71Lowers()
    ensures LoweringRecord(Table, 71)
    ensures SearchesFor(Values, Transforms[71].search, U2F(32), 32, I2I(8), 8, 32)
    ensures Transforms[71].search == 159
  {
    AllValuesOrdered();
    assert Transforms[71] == Rule(159, 155, 0);
    assert Src(Values, 159, 0) == 20;
    assert Src(Values, 20, 0) == 5;
    assert Src(Values, 155, 0) == 9;
    assert Src(Values, 9, 0) == 5;
    assert Src(Values, 9, 1) == 8;
    assert Pow2(8) == 256 by {
      Pow2Values();
    }
  }

  lemma Record71Matches(x: Term)
    requires WellFormed(Table, |Flags|) && x.bitSize == 32
    ensures Applies(Table, Flags, 71, Alu(U2F(32), 32, [Alu(I2I(8), 8, [x])]))
  {
    Record71Lowers();
    SearchMatches(Values, 159, U2F(32), 32, I2I(8), 8, 32, x);
  }

  lemma Record72Lowers()
    ensures LoweringRecord(Table, 72)
    ensures SearchesFor(Values, Transforms[72].search, U2F(32), 32, I2I(8), 8, 64)
    ensures Transforms[72].search == 160
  {
    AllValuesOrdered();
    assert Transforms[72] == Rule(160, 157, 0);
    assert Src(Values, 160, 0) == 22;
    assert Src(Values, 22, 0) == 11;
    assert Src(Values, 157, 0) == 15;
    assert Src(Values, 15, 0) == 11;
    assert Src(Values, 15, 1) == 14;
    assert Pow2(8) == 256 by {
      Pow2Values();
    }
  }

  lemma Record72Matches(x: Term)
    requires WellFormed(Table, |Flags|) && x.bitSize == 64
    ensures Applies(Table, Flags, 72, Alu(U2F(32), 32, [Alu(I2I(8), 8, [x])]))
  {
    Record72Lowers();
    SearchMatches(Values, 160, U2F(32), 32, I2I(8), 8, 64, x);
  }

  lemma Record73Lowers()
    ensures LoweringRecord(Table, 73)
    ensures SearchesFor(Values, Transforms[73].search, U2F(64), 64, I2I(8), 8, 16)
    ensures Transforms[73].search == 175
  {
    AllValuesOrdered();
    assert Transforms[73] == Rule(175, 170, 0);
    assert Src(Values, 175, 0) == 17;
    assert Src(Values, 17, 0) == 0;
    assert Src(Values, 170, 0) == 4;
    assert Src(Values, 4, 0) == 0;
    assert Src(Values, 4, 1) == 3;
    assert Pow2(8) == 256 by {
      Pow2Values();
    }
  }

  lemma Record73Matches(x: Term)
    requires WellFormed(Table, |Flags|) && x.bitSize == 16
    ensures Applies(Table, Flags, 73, Alu(U2F(64), 64, [Alu(I2I(8), 8, [x])]))
  {
    Record73Lowers();
    SearchMatches(Values, 175, U2F(64), 64, I2I(8), 8, 16, x);
  }

  lemma Record74Lowers()
    ensures LoweringRecord(Table, 74)
    ensures SearchesFor(Values, Transforms[74].search, U2F(64), 64, I2I(8), 8, 32)
    ensures Transforms[74].search == 176
  {
    AllValuesOrdered();
    assert Transforms[74] == Rule(176, 172, 0);
    assert Src(Values, 176, 0) == 20;
    assert Src(Values, 20, 0) == 5;
    assert Src(Values, 172, 0) == 9;
    assert Src(Values, 9, 0) == 5;
    assert Src(Values, 9, 1) == 8;
    assert Pow2(8) == 256 by {
      Pow2Values();
    }
  }

  lemma Record74Matches(x: Term)
    requires WellFormed(Table, |Flags|) && x.bitSize == 32
    ensures Applies(Table, Flags, 74, Alu(U2F(64), 64, [Alu(I2I(8), 8, [x])]))
  {
    Record74Lowers();
    SearchMatches(Values, 176, U2F(64), 64, I2I(8), 8, 32, x);
  }

  lemma Record75Lowers()
    ensures LoweringRecord(Table, 75)
    ensures SearchesFor(Values, Transforms[75].search, U2F(64), 64, I2I(8), 8, 64)
    ensures Transforms[75].search == 177
  {
    AllValuesOrdered();
    assert Transforms[75] == Rule(177, 174, 0);
    assert Src(Values, 177, 0) == 22;
    assert Src(Values, 22, 0) == 11;
    assert Src(Values, 174, 0) == 15;
    assert Src(Values, 15, 0) == 11;
    assert Src(Values, 15, 1) == 14;
    assert Pow2(8) == 256 by {
      Pow2Values();
    }
  }

  lemma Record75Matches(x: Term)
    requires WellFormed(Table, |Flags|) && x.bitSize == 64
    ensures Applies(Table, Flags, 75, Alu(U2F(64), 64, [Alu(I2I(8), 8, [x])]))
  {
    Record75Lowers();
    SearchMatches(Values, 177, U2F(64), 64, I2I(8), 8, 64, x);
  }

  lemma LoweringRun67()
    ensures forall j :: 67 <= j < 76 ==> LoweringRecord(Table, j)
  {
    Record67Lowers();
    Record68Lowers();
    Record69Lowers();
    Record70Lowers();
    Record71Lowers();
    Record72Lowers();
    Record73Lowers();
    Record74Lowers();
    Record75Lowers();
    forall j | 67 <= j < 76
      ensures LoweringRecord(Table, j)
    {
      assert j == 67 || j == 68 || j == 69 || j == 70 || j == 71 || j == 72 || j == 73 || j == 74 || j == 75;
    }
  }

  lemma Record97Lowers()
    ensures LoweringRecord(Table, 97)
    ensures SearchesFor(Values, Transforms[97].search, I2F(16), 16, U2U(8), 8, 16)
    ensures Transforms[97].search == 186
  {
    AllValuesOrdered();
    assert Transforms[97] == Rule(186, 187, 0);
    assert Src(Values, 186, 0) == 1;
    assert Src(Values, 1, 0) == 0;
    assert Src(Values, 187, 0) == 66;
    assert Src(Values, 66, 0) == 65;
    assert Src(Values, 65, 0) == 0;
    assert Src(Values, 65, 1) == 64;
    assert Src(Values, 66, 1) == 64;
  }

  lemma Record97Matches(x: Term)
    requires WellFormed(Table, |Flags|) && x.bitSize == 16
    ensures Applies(Table, Flags, 97, Alu(I2F(16), 16, [Alu(U2U(8), 8, [x])]))
  {
    Record97Lowers();
    SearchMatches(Values, 186, I2F(16), 16, U2U(8), 8, 16, x);
  }

  lemma Record98Lowers()
    ensures LoweringRecord(Table, 98)
    ensures SearchesFor(Values, Transforms[98].search, I2F(16), 16, U2U(8), 8, 32)
    ensures Transforms[98].search == 188
  {
    AllValuesOrdered();
    assert Transforms[98] == Rule(188, 189, 0);
    assert Src(Values, 188, 0) == 6;
    assert Src(Values, 6, 0) == 5;
    assert Src(Values, 189, 0) == 71;
    assert Src(Values, 71, 0) == 70;
    assert Src(Values, 70, 0) == 5;
    assert Src(Values, 70, 1) == 69;
    assert Src(Values, 71, 1) == 69;
  }

  lemma Record98Matches(x: Term)
    requires WellFormed(Table, |Flags|) && x.bitSize == 32
    ensures Applies(Table, Flags, 98, Alu(I2F(16), 16, [Alu(U2U(8), 8, [x])]))
  {
    Record98Lowers();
    SearchMatches(Values, 188, I2F(16), 16, U2U(8), 8, 32, x);
  }

  lemma Record99Lowers()
    ensures LoweringRecord(Table, 99)
    ensures SearchesFor(Values, Transforms[99].search, I2F(16), 16, U2U(8), 8, 64)
    ensures Transforms[99].search == 190
  {
    AllValuesOrdered();
    assert Transforms[99] == Rule(190, 191, 0);
    assert Src(Values, 190, 0) == 12;
    assert Src(Values, 12, 0) == 11;
    assert Src(Values, 191, 0) == 76;
    assert Src(Values, 76, 0) == 75;
    assert Src(Values, 75, 0) == 11;
    assert Src(Values, 75, 1) == 74;
    assert Src(Values, 76, 1) == 74;
  }

  lemma Record99Matches(x: Term)
    requires WellFormed(Table, |Flags|) && x.bitSize == 64
    ensures Applies(Table, Flags, 99, Alu(I2F(16), 16, [Alu(U2U(8), 8, [x])]))
  {
    Record99Lowers();
    SearchMatches(Values, 190, I2F(16), 16, U2U(8), 8, 64, x);
  }

  lemma Record100Lowers()
    ensures LoweringRecord(Table, 100)
    ensures SearchesFor(Values, Transforms[100].search, I2F(32), 32, U2U(8), 8, 16)
    ensures Transforms[100].search == 215
  {
    AllValuesOrdered();
    assert Transforms[100] == Rule(215, 216, 0);
    assert Src(Values, 215, 0) == 1;
    assert Src(Values, 1, 0) == 0;
    assert Src(Values, 216, 0) == 66;
    assert Src(Values, 66, 0) == 65;
    assert Src(Values, 65, 0) == 0;
    assert Src(Values, 65, 1) == 64;
    assert Src(Values, 66, 1) == 64;
  }

  lemma Record100Matches(x: Term)
    requires WellFormed(Table, |Flags|) && x.bitSize == 16
    ensures Applies(Table, Flags, 100, Alu(I2F(32), 32, [Alu(U2U(8), 8, [x])]))
  {
    Record100Lowers();
    SearchMatches(Values, 215, I2F(32), 32, U2U(8), 8, 16, x);
  }

  lemma Record101Lowers()
    ensures LoweringRecord(Table, 101)
    ensures SearchesFor(Values, Transforms[101].search, I2F(32), 32, U2U(8), 8, 32)
    ensures Transforms[101].search == 217
  {
    AllValuesOrdered();
    assert Transforms[101] == Rule(217, 218, 0);
    assert Src(Values, 217, 0) == 6;
    assert Src(Values, 6, 0) == 5;
    assert Src(Values, 218, 0) == 71;
    assert Src(Values, 71, 0) == 70;
    assert Src(Values, 70, 0) == 5;
    assert Src(Values, 70, 1) == 69;
    assert Src(Values, 71, 1) == 69;
  }

  lemma Record101Matches(x: Term)
    requires WellFormed(Table, |Flags|) && x.bitSize == 32
    ensures Applies(Table, Flags, 101, Alu(I2F(32), 32, [Alu(U2U(8), 8, [x])]))
  {
    Record101Lowers();
    SearchMatches(Values, 217, I2F(32), 32, U2U(8), 8, 32, x);
  }

  lemma Record102Lowers()
    ensures LoweringRecord(Table, 102)
    ensures SearchesFor(Values, Transforms[102].search, I2F(32), 32, U2U(8), 8, 64)
    ensures Transforms[102].search == 219
  {
    AllValuesOrdered();
    assert Transforms[102] == Rule(219, 220, 0);
    assert Src(Values, 219, 0) == 12;
    assert Src(Values, 12, 0) == 11;
    assert Src(Values, 220, 0) == 76;
    assert Src(Values, 76, 0) == 75;
    assert Src(Values, 75, 0) == 11;
    assert Src(Values, 75, 1) == 74;
    assert Src(Values, 76, 1) == 74;
  }

  lemma Record102Matches(x: Term)
    requires WellFormed(Table, |Flags|) && x.bitSize == 64
    ensures Applies(Table, Flags, 102, Alu(I2F(32), 32, [Alu(U2U(8), 8, [x])]))
  {
    Record102Lowers();
    SearchMatches(Values, 219, I2F(32), 32, U2U(8), 8, 64, x);
  }

  lemma Record103Lowers()
    ensures LoweringRecord(Table, 103)
    ensures SearchesFor(Values, Transforms[103].search, I2F(64), 64, U2U(8), 8, 16)
    ensures Transforms[103].search == 232
  {
    AllValuesOrdered();
    assert Transforms[103] == Rule(232, 233, 0);
    assert Src(Values, 232, 0) == 1;
    assert Src(Values, 1, 0) == 0;
    assert Src(Values, 233, 0) == 66;
    assert Src(Values, 66, 0) == 65;
    assert Src(Values, 65, 0) == 0;
    assert Src(Values, 65, 1) == 64;
    assert Src(Values, 66, 1) == 64;
  }

  lemma Record103Matches(x: Term)
    requires WellFormed(Table, |Flags|) && x.bitSize == 16
    ensures Applies(Table, Flags, 103, Alu(I2F(64), 64, [Alu(U2U(8), 8, [x])]))
  {
    Record103Lowers();
    SearchMatches(Values, 232, I2F(64), 64, U2U(8), 8, 16, x);
  }

  lemma Record104Lowers()
    ensures LoweringRecord(Table, 104)
    ensures SearchesFor(Values, Transforms[104].search, I2F(64), 64, U2U(8), 8, 32)
    ensures Transforms[104].search == 234
  {
    AllValuesOrdered();
    assert Transforms[104] == Rule(234, 235, 0);
    assert Src(Values, 234, 0) == 6;
    assert Src(Values, 6, 0) == 5;
    assert Src(Values, 235, 0) == 71;
    assert Src(Values, 71, 0) == 70;
    assert Src(Values, 70, 0) == 5;
    assert Src(Values, 70, 1) == 69;
    assert Src(Values, 71, 1) == 69;
  }

  lemma Record104Matches(x: Term)
    requires WellFormed(Table, |Flags|) && x.bitSize == 32
    ensures Applies(Table, Flags, 104, Alu(I2F(64), 64, [Alu(U2U(8), 8, [x])]))
  {
    Record104Lowers();
    SearchMatches(Values, 234, I2F(64), 64, U2U(8), 8, 32, x);
  }

  lemma Record105Lowers()
    ensures LoweringRecord(Table, 105)
    ensures SearchesFor(Values, Transforms[105].search, I2F(64), 64, U2U(8), 8, 64)
    ensures Transforms[105].search == 236
  {
    AllValuesOrdered();
    assert Transforms[105] == Rule(236, 237, 0);
    assert Src(Values, 236, 0) == 12;
    assert Src(Values, 12, 0) == 11;
    assert Src(Values, 237, 0) == 76;
    assert Src(Values, 76, 0) == 75;
    assert Src(Values, 75, 0) == 11;
    assert Src(Values, 75, 1) == 74;
    assert Src(Values, 76, 1) == 74;
  }

  lemma Record105Matches(x: Term)
    requires WellFormed(Table, |Flags|) && x.bitSize == 64
    ensures Applies(Table, Flags, 105, Alu(I2F(64), 64, [Alu(U2U(8), 8, [x])]))
  {
    Record105Lowers();
    SearchMatches(Values, 236, I2F(64), 64, U2U(8), 8, 64, x);
  }

  lemma LoweringRun97()
    ensures forall j :: 97 <= j < 106 ==> LoweringRecord(Table, j)
  {
    Record97Lowers();
    Record98Lowers();
    Record99Lowers();
    Record100Lowers();
    Record101Lowers();
    Record102Lowers();
    Record103Lowers();
    Record104Lowers();
    Record105Lowers();
    forall j | 97 <= j < 106
      ensures LoweringRecord(Table, j)
    {
      assert j == 97 || j == 98 || j == 99 || j == 100 || j == 101 || j == 102 || j == 103 || j == 104 || j == 105;
    }
  }

  lemma Record107Lowers()
    ensures LoweringRecord(Table, 107)
    ensures SearchesFor(Values, Transforms[107].search, I2F(16), 16, I2I(8), 8, 16)
    ensures Transforms[107].search == 192
  {
    AllValuesOrdered();
    assert Transforms[107] == Rule(192, 187, 0);
    assert Src(Values, 192, 0) == 17;
    assert Src(Values, 17, 0) == 0;
    assert Src(Values, 187, 0) == 66;
    assert Src(Values, 66, 0) == 65;
    assert Src(Values, 65, 0) == 0;
    assert Src(Values, 65, 1) == 64;
    assert Src(Values, 66, 1) == 64;
  }

  lemma Record107Matches(x: Term)
    requires WellFormed(Table, |Flags|) && x.bitSize == 16
    ensures Applies(Table, Flags, 107, Alu(I2F(16), 16, [Alu(I2I(8), 8, [x])]))
  {
    Record107Lowers();
    SearchMatches(Values, 192, I2F(16), 16, I2I(8), 8, 16, x);
  }

  lemma Record108Lowers()
    ensures LoweringRecord(Table, 108)
    ensures SearchesFor(Values, Transforms[108].search, I2F(16), 16, I2I(8), 8, 32)
    ensures Transforms[108].search == 193
  {
    AllValuesOrdered();
    assert Transforms[108] == Rule(193, 189, 0);
    assert Src(Values, 193, 0) == 20;
    assert Src(Values, 20, 0) == 5;
    assert Src(Values, 189, 0) == 71;
    assert Src(Values, 71, 0) == 70;
    assert Src(Values, 70, 0) == 5;
    assert Src(Values, 70, 1) == 69;
    assert Src(Values, 71, 1) == 69;
  }

  lemma Record108Matches(x: Term)
    requires WellFormed(Table, |Flags|) && x.bitSize == 32
    ensures Applies(Table, Flags, 108, Alu(I2F(16), 16, [Alu(I2I(8), 8, [x])]))
  {
    Record108Lowers();
    SearchMatches(Values, 193, I2F(16), 16, I2I(8), 8, 32, x);
  }

  lemma Record109Lowers()
    ensures LoweringRecord(Table, 109)
    ensures SearchesFor(Values, Transforms[109].search, I2F(16), 16, I2I(8), 8, 64)
    ensures Transforms[109].search == 194
  {
    AllValuesOrdered();
    assert Transforms[109] == Rule(194, 191, 0);
    assert Src(Values, 194, 0) == 22;
    assert Src(Values, 22, 0) == 11;
    assert Src(Values, 191, 0) == 76;
    assert Src(Values, 76, 0) == 75;
    assert Src(Values, 75, 0) == 11;
    assert Src(Values, 75, 1) == 74;
    assert Src(Values, 76, 1) == 74;
  }

  lemma Record109Matches(x: Term)
    requires WellFormed(Table, |Flags|) && x.bitSize == 64
    ensures Applies(Table, Flags, 109, Alu(I2F(16), 16, [Alu(I2I(8), 8, [x])]))
  {
    Record109Lowers();
    SearchMatches(Values, 194, I2F(16), 16, I2I(8), 8, 64, x);
  }

  lemma Record110Lowers()
    ensures LoweringRecord(Table, 110)
    ensures SearchesFor(Values, Transforms[110].search, I2F(32), 32, I2I(8), 8, 16)
    ensures Transforms[110].search == 221
  {
    AllValuesOrdered();
    assert Transforms[110] == Rule(221, 216, 0);
    assert Src(Values, 221, 0) == 17;
    assert Src(Values, 17, 0) == 0;
    assert Src(Values, 216, 0) == 66;
    assert Src(Values, 66, 0) == 65;
    assert Src(Values, 65, 0) == 0;
    assert Src(Values, 65, 1) == 64;
    assert Src(Values, 66, 1) == 64;
  }

  lemma Record110Matches(x: Term)
    requires WellFormed(Table, |Flags|) && x.bitSize == 16
    ensures Applies(Table, Flags, 110, Alu(I2F(32), 32, [Alu(I2I(8), 8, [x])]))
  {
    Record110Lowers();
    SearchMatches(Values, 221, I2F(32), 32, I2I(8), 8, 16, x);
  }

  lemma Record111Lowers()
    ensures LoweringRecord(Table, 111)
    ensures SearchesFor(Values, Transforms[111].search, I2F(32), 32, I2I(8), 8, 32)
    ensures Transforms[111].search == 222
  {
    AllValuesOrdered();
    assert Transforms[111] == Rule(222, 218, 0);
    assert Src(Values, 222, 0) == 20;
    assert Src(Values, 20, 0) == 5;
    assert Src(Values, 218, 0) == 71;
    assert Src(Values, 71, 0) == 70;
    assert Src(Values, 70, 0) == 5;
    assert Src(Values, 70, 1) == 69;
    assert Src(Values, 71, 1) == 69;
  }

  lemma Record111Matches(x: Term)
    requires WellFormed(Table, |Flags|) && x.bitSize == 32
    ensures Applies(Table, Flags, 111, Alu(I2F(32), 32, [Alu(I2I(8), 8, [x])]))
  {
    Record111Lowers();
    SearchMatches(Values, 222, I2F(32), 32, I2I(8), 8, 32, x);
  }

  lemma Record112Lowers()
    ensures LoweringRecord(Table, 112)
    ensures SearchesFor(Values, Transforms[112].search, I2F(32), 32, I2I(8), 8, 64)
    ensures Transforms[112].search == 223
  {
    AllValuesOrdered();
    assert Transforms[112] == Rule(223, 220, 0);
    assert Src(Values, 223, 0) == 22;
    assert Src(Values, 22, 0) == 11;
    assert Src(Values, 220, 0) == 76;
    assert Src(Values, 76, 0) == 75;
    assert Src(Values, 75, 0) == 11;
    assert Src(Values, 75, 1) == 74;
    assert Src(Values, 76, 1) == 74;
  }

  lemma Record112Matches(x: Term)
    requires WellFormed(Table, |Flags|) && x.bitSize == 64
    ensures Applies(Table, Flags, 112, Alu(I2F(32), 32, [Alu(I2I(8), 8, [x])]))
  {
    Record112Lowers();
    SearchMatches(Values, 223, I2F(32), 32, I2I(8), 8, 64, x);
  }

  lemma Record113Lowers()
    ensures LoweringRecord(Table, 113)
    ensures SearchesFor(Values, Transforms[113].search, I2F(64), 64, I2I(8), 8, 16)
    ensures Transforms[113].search == 238
  {
    AllValuesOrdered();
    assert Transforms[113] == Rule(238, 233, 0);
    assert Src(Values, 238, 0) == 17;
    assert Src(Values, 17, 0) == 0;
    assert Src(Values, 233, 0) == 66;
    assert Src(Values, 66, 0) == 65;
    assert Src(Values, 65, 0) == 0;
    assert Src(Values, 65, 1) == 64;
    assert Src(Values, 66, 1) == 64;
  }

  lemma Record113Matches(x: Term)
    requires WellFormed(Table, |Flags|) && x.bitSize == 16
    ensures Applies(Table, Flags, 113, Alu(I2F(64), 64, [Alu(I2I(8), 8, [x])]))
  {
    Record113Lowers();
    SearchMatches(Values, 238, I2F(64), 64, I2I(8), 8, 16, x);
  }

  lemma Record114Lowers()
    ensures LoweringRecord(Table, 114)
    ensures SearchesFor(Values, Transforms[114].search, I2F(64), 64, I2I(8), 8, 32)
    ensures Transforms[114].search == 239
  {
    AllValuesOrdered();
    assert Transforms[114] == Rule(239, 235, 0);
    assert Src(Values, 239, 0) == 20;
    assert Src(Values, 20, 0) == 5;
    assert Src(Values, 235, 0) == 71;
    assert Src(Values, 71, 0) == 70;
    assert Src(Values, 70, 0) == 5;
    assert Src(Values, 70, 1) == 69;
    assert Src(Values, 71, 1) == 69;
  }

  lemma Record114Matches(x: Term)
    requires WellFormed(Table, |Flags|) && x.bitSize == 32
    ensures Applies(Table, Flags, 114, Alu(I2F(64), 64, [Alu(I2I(8), 8, [x])]))
  {
    Record114Lowers();
    SearchMatches(Values, 239, I2F(64), 64, I2I(8), 8, 32, x);
  }

  lemma Record115Lowers()
    ensures LoweringRecord(Table, 115)
    ensures SearchesFor(Values, Transforms[115].search, I2F(64), 64, I2I(8), 8, 64)
    ensures Transforms[115].search == 240
  {
    AllValuesOrdered();
    assert Transforms[115] == Rule(240, 237, 0);
    assert Src(Values, 240, 0) == 22;
    assert Src(Values, 22, 0) == 11;
    assert Src(Values, 237, 0) == 76;
    assert Src(Values, 76, 0) == 75;
    assert Src(Values, 75, 0) == 11;
    assert Src(Values, 75, 1) == 74;
    assert Src(Values, 76, 1) == 74;
  }

  lemma Record115Matches(x: Term)
    requires WellFormed(Table, |Flags|) && x.bitSize == 64
    ensures Applies(Table, Flags, 115, Alu(I2F(64), 64, [Alu(I2I(8), 8, [x])]))
  {
    Record115Lowers();
    SearchMatches(Values, 240, I2F(64), 64, I2I(8), 8, 64, x);
  }

  lemma LoweringRun107()
    ensures forall j :: 107 <= j < 116 ==> LoweringRecord(Table, j)
  {
    Record107Lowers();
    Record108Lowers();
    Record109Lowers();
    Record110Lowers();
    Record111Lowers();
    Record112Lowers();
    Record113Lowers();
    Record114Lowers();
    Record115Lowers();
    forall j | 107 <= j < 116
      ensures LoweringRecord(Table, j)
    {
      assert j == 107 || j == 108 || j == 109 || j == 110 || j == 111 || j == 112 || j == 113 || j == 114 || j == 115;
    }
  }

  lemma U2uOfU2u8Applies(n: nat, w: nat, x: Term)
    requires WellFormed(Table, |Flags|)
    requires Wide(n) && Wide(w) && x.bitSize == w
    ensures Applies(Table, Flags, RunRecord(1, n, w), Alu(U2U(n), n, [Alu(U2U(8), 8, [x])]))
  {
    if n == 16 && w == 16 {
      assert RunRecord(1, n, w) == 1;
      Record1Matches(x);
    } else if n == 16 && w == 32 {
      assert RunRecord(1, n, w) == 2;
      Record2Matches(x);
    } else if n == 16 && w == 64 {
      assert RunRecord(1, n, w) == 3;
      Record3Matches(x);
    } else if n == 32 && w == 16 {
      assert RunRecord(1, n, w) == 4;
      Record4Matches(x);
    } else if n == 32 && w == 32 {
      assert RunRecord(1, n, w) == 5;
      Record5Matches(x);
    } else if n == 32 && w == 64 {
      assert RunRecord(1, n, w) == 6;
      Record6Matches(x);
    } else if n == 64 && w == 16 {
      assert RunRecord(1, n, w) == 7;
      Record7Matches(x);
    } else if n == 64 && w == 32 {
      assert RunRecord(1, n, w) == 8;
      Record8Matches(x);
    } else {
      assert RunRecord(1, n, w) == 9;
      Record9Matches(x);
    }
  }

  /** `u2u` of an `u2u8` narrowing is rewritten by one of records 1 to 9, keeping its value. */
  lemma U2uOfU2u8Lowered(n: nat, w: nat, x: Term, env: Env)
    requires Wide(n) && Wide(w) && x.bitSize == w
    ensures Apply(Alu(U2U(n), n, [Alu(U2U(8), 8, [x])])).Some?
    ensures Eval(env, Apply(Alu(U2U(n), n, [Alu(U2U(8), 8, [x])])).value) == Eval(env, Alu(U2U(n), n, [Alu(U2U(8), 8, [x])]))
  {
    TableWellFormed();
    U2uNarrowState(x);
    U2uOfU2u8State(n, Alu(U2U(8), 8, [x]));
    RunOffsets();
    U2uOfU2u8Applies(n, w, x);
    LoweringRun1();
    RunRewriteSound(Table, Flags, Alu(U2U(n), n, [Alu(U2U(8), 8, [x])]), RunRecord(1, n, w), 10, env);
  }

  lemma U2uOfI2i8Applies(n: nat, w: nat, x: Term)
    requires WellFormed(Table, |Flags|)
    requires Wide(n) && Wide(w) && x.bitSize == w
    ensures Applies(Table, Flags, RunRecord(11, n, w), Alu(U2U(n), n, [Alu(I2I(8), 8, [x])]))
  {
    if n == 16 && w == 16 {
      assert RunRecord(11, n, w) == 11;
      Record11Matches(x);
    } else if n == 16 && w == 32 {
      assert RunRecord(11, n, w) == 12;
      Record12Matches(x);
    } else if n == 16 && w == 64 {
      assert RunRecord(11, n, w) == 13;
      Record13Matches(x);
    } else if n == 32 && w == 16 {
      assert RunRecord(11, n, w) == 14;
      Record14Matches(x);
    } else if n == 32 && w == 32 {
      assert RunRecord(11, n, w) == 15;
      Record15Matches(x);
    } else if n == 32 && w == 64 {
      assert RunRecord(11, n, w) == 16;
      Record16Matches(x);
    } else if n == 64 && w == 16 {
      assert RunRecord(11, n, w) == 17;
      Record17Matches(x);
    } else if n == 64 && w == 32 {
      assert RunRecord(11, n, w) == 18;
      Record18Matches(x);
    } else {
      assert RunRecord(11, n, w) == 19;
      Record19Matches(x);
    }
  }

  /** `u2u` of an `i2i8` narrowing is rewritten by one of records 11 to 19, keeping its value. */
  lemma U2uOfI2i8Lowered(n: nat, w: nat, x: Term, env: Env)
    requires Wide(n) && Wide(w) && x.bitSize == w
    ensures Apply(Alu(U2U(n), n, [Alu(I2I(8), 8, [x])])).Some?
    ensures Eval(env, Apply(Alu(U2U(n), n, [Alu(I2I(8), 8, [x])])).value) == Eval(env, Alu(U2U(n), n, [Alu(I2I(8), 8, [x])]))
  {
    TableWellFormed();
    I2iNarrowState(x);
    U2uOfI2i8State(n, Alu(I2I(8), 8, [x]));
    RunOffsets();
    U2uOfI2i8Applies(n, w, x);
    LoweringRun11();
    RunRewriteSound(Table, Flags, Alu(U2U(n), n, [Alu(I2I(8), 8, [x])]), RunRecord(11, n, w), 20, env);
  }

  lemma I2iOfU2u8Applies(n: nat, w: nat, x: Term)
    requires WellFormed(Table, |Flags|)
    requires Wide(n) && Wide(w) && x.bitSize == w
    ensures Applies(Table, Flags, RunRecord(29, n, w), Alu(I2I(n), n, [Alu(U2U(8), 8, [x])]))
  {
    if n == 16 && w == 16 {
      assert RunRecord(29, n, w) == 29;
      Record29Matches(x);
    } else if n == 16 && w == 32 {
      assert RunRecord(29, n, w) == 30;
      Record30Matches(x);
    } else if n == 16 && w == 64 {
      assert RunRecord(29, n, w) == 31;
      Record31Matches(x);
    } else if n == 32 && w == 16 {
      assert RunRecord(29, n, w) == 32;
      Record32Matches(x);
    } else if n == 32 && w == 32 {
      assert RunRecord(29, n, w) == 33;
      Record33Matches(x);
    } else if n == 32 && w == 64 {
      assert RunRecord(29, n, w) == 34;
      Record34Matches(x);
    } else if n == 64 && w == 16 {
      assert RunRecord(29, n, w) == 35;
      Record35Matches(x);
    } else if n == 64 && w == 32 {
      assert RunRecord(29, n, w) == 36;
      Record36Matches(x);
    } else {
      assert RunRecord(29, n, w) == 37;
      Record37Matches(x);
    }
  }

  /** `i2i` of an `u2u8` narrowing is rewritten by one of records 29 to 37, keeping its value. */
  lemma I2iOfU2u8Lowered(n: nat, w: nat, x: Term, env: Env)
    requires Wide(n) && Wide(w) && x.bitSize == w
    ensures Apply(Alu(I2I(n), n, [Alu(U2U(8), 8, [x])])).Some?
    ensures Eval(env, Apply(Alu(I2I(n), n, [Alu(U2U(8), 8, [x])])).value) == Eval(env, Alu(I2I(n), n, [Alu(U2U(8), 8, [x])]))
  {
    TableWellFormed();
    U2uNarrowState(x);
    I2iOfU2u8State(n, Alu(U2U(8), 8, [x]));
    RunOffsets();
    I2iOfU2u8Applies(n, w, x);
    LoweringRun29();
    RunRewriteSound(Table, Flags, Alu(I2I(n), n, [Alu(U2U(8), 8, [x])]), RunRecord(29, n, w), 38, env);
  }

  lemma I2iOfI2i8Applies(n: nat, w: nat, x: Term)
    requires WellFormed(Table, |Flags|)
    requires Wide(n) && Wide(w) && x.bitSize == w
    ensures Applies(Table, Flags, RunRecord(39, n, w), Alu(I2I(n), n, [Alu(I2I(8), 8, [x])]))
  {
    if n == 16 && w == 16 {
      assert RunRecord(39, n, w) == 39;
      Record39Matches(x);
    } else if n == 16 && w == 32 {
      assert RunRecord(39, n, w) == 40;
      Record40Matches(x);
    } else if n == 16 && w == 64 {
      assert RunRecord(39, n, w) == 41;
      Record41Matches(x);
    } else if n == 32 && w == 16 {
      assert RunRecord(39, n, w) == 42;
      Record42Matches(x);
    } else if n == 32 && w == 32 {
      assert RunRecord(39, n, w) == 43;
      Record43Matches(x);
    } else if n == 32 && w == 64 {
      assert RunRecord(39, n, w) == 44;
      Record44Matches(x);
    } else if n == 64 && w == 16 {
      assert RunRecord(39, n, w) == 45;
      Record45Matches(x);
    } else if n == 64 && w == 32 {
      assert RunRecord(39, n, w) == 46;
      Record46Matches(x);
    } else {
      assert RunRecord(39, n, w) == 47;
      Record47Matches(x);
    }
  }

  /** `i2i` of an `i2i8` narrowing is rewritten by one of records 39 to 47, keeping its value. */
  lemma I2iOfI2i8Lowered(n: nat, w: nat, x: Term, env: Env)
    requires Wide(n) && Wide(w) && x.bitSize == w
    ensures Apply(Alu(I2I(n), n, [Alu(I2I(8), 8, [x])])).Some?
    ensures Eval(env, Apply(Alu(I2I(n), n, [Alu(I2I(8), 8, [x])])).value) == Eval(env, Alu(I2I(n), n, [Alu(I2I(8), 8, [x])]))
  {
    TableWellFormed();
    I2iNarrowState(x);
    I2iOfI2i8State(n, Alu(I2I(8), 8, [x]));
    RunOffsets();
    I2iOfI2i8Applies(n, w, x);
    LoweringRun39();
    RunRewriteSound(Table, Flags, Alu(I2I(n), n, [Alu(I2I(8), 8, [x])]), RunRecord(39, n, w), 48, env);
  }

  lemma U2fOfU2u8Applies(n: nat, w: nat, x: Term)
    requires WellFormed(Table, |Flags|)
    requires Wide(n) && Wide(w) && x.bitSize == w
    ensures Applies(Table, Flags, RunRecord(57, n, w), Alu(U2F(n), n, [Alu(U2U(8), 8, [x])]))
  {
    if n == 16 && w == 16 {
      assert RunRecord(57, n, w) == 57;
      Record57Matches(x);
    } else if n == 16 && w == 32 {
      assert RunRecord(57, n, w) == 58;
      Record58Matches(x);
    } else if n == 16 && w == 64 {
      assert RunRecord(57, n, w) == 59;
      Record59Matches(x);
    } else if n == 32 && w == 16 {
      assert RunRecord(57, n, w) == 60;
      Record60Matches(x);
    } else if n == 32 && w == 32 {
      assert RunRecord(57, n, w) == 61;
      Record61Matches(x);
    } else if n == 32 && w == 64 {
      assert RunRecord(57, n, w) == 62;
      Record62Matches(x);
    } else if n == 64 && w == 16 {
      assert RunRecord(57, n, w) == 63;
      Record63Matches(x);
    } else if n == 64 && w == 32 {
      assert RunRecord(57, n, w) == 64;
      Record64Matches(x);
    } else {
      assert RunRecord(57, n, w) == 65;
      Record65Matches(x);
    }
  }

  /** `u2f` of an `u2u8` narrowing is rewritten by one of records 57 to 65, keeping its value. */
  lemma U2fOfU2u8Lowered(n: nat, w: nat, x: Term, env: Env)
    requires Wide(n) && Wide(w) && x.bitSize == w
    ensures Apply(Alu(U2F(n), n, [Alu(U2U(8), 8, [x])])).Some?
    ensures Eval(env, Apply(Alu(U2F(n), n, [Alu(U2U(8), 8, [x])])).value) == Eval(env, Alu(U2F(n), n, [Alu(U2U(8), 8, [x])]))
  {
    TableWellFormed();
    U2uNarrowState(x);
    U2fOfU2u8State(n, Alu(U2U(8), 8, [x]));
    RunOffsets();
    U2fOfU2u8Applies(n, w, x);
    LoweringRun57();
    RunRewriteSound(Table, Flags, Alu(U2F(n), n, [Alu(U2U(8), 8, [x])]), RunRecord(57, n, w), 66, env);
  }

  lemma U2fOfI2i8Applies(n: nat, w: nat, x: Term)
    requires WellFormed(Table, |Flags|)
    requires Wide(n) && Wide(w) && x.bitSize == w
    ensures Applies(Table, Flags, RunRecord(67, n, w), Alu(U2F(n), n, [Alu(I2I(8), 8, [x])]))
  {
    if n == 16 && w == 16 {
      assert RunRecord(67, n, w) == 67;
      Record67Matches(x);
    } else if n == 16 && w == 32 {
      assert RunRecord(67, n, w) == 68;
      Record68Matches(x);
    } else if n == 16 && w == 64 {
      assert RunRecord(67, n, w) == 69;
      Record69Matches(x);
    } else if n == 32 && w == 16 {
      assert RunRecord(67, n, w) == 70;
      Record70Matches(x);
    } else if n == 32 && w == 32 {
      assert RunRecord(67, n, w) == 71;
      Record71Matches(x);
    } else if n == 32 && w == 64 {
      assert RunRecord(67, n, w) == 72;
      Record72Matches(x);
    } else if n == 64 && w == 16 {
      assert RunRecord(67, n, w) == 73;
      Record73Matches(x);
    } else if n == 64 && w == 32 {
      assert RunRecord(67, n, w) == 74;
      Record74Matches(x);
    } else {
      assert RunRecord(67, n, w) == 75;
      Record75Matches(x);
    }
  }

  /** `u2f` of an `i2i8` narrowing is rewritten by one of records 67 to 75, keeping its value. */
  lemma U2fOfI2i8Lowered(n: nat, w: nat, x: Term, env: Env)
    requires Wide(n) && Wide(w) && x.bitSize == w
    ensures Apply(Alu(U2F(n), n, [Alu(I2I(8), 8, [x])])).Some?
    ensures Eval(env, Apply(Alu(U2F(n), n, [Alu(I2I(8), 8, [x])])).value) == Eval(env, Alu(U2F(n), n, [Alu(I2I(8), 8, [x])]))
  {
    TableWellFormed();
    I2iNarrowState(x);
    U2fOfI2i8State(n, Alu(I2I(8), 8, [x]));
    RunOffsets();
    U2fOfI2i8Applies(n, w, x);
    LoweringRun67();
    RunRewriteSound(Table, Flags, Alu(U2F(n), n, [Alu(I2I(8), 8, [x])]), RunRecord(67, n, w), 76, env);
  }

  lemma I2fOfU2u8Applies(n: nat, w: nat, x: Term)
    requires WellFormed(Table, |Flags|)
    requires Wide(n) && Wide(w) && x.bitSize == w
    ensures Applies(Table, Flags, RunRecord(97, n, w), Alu(I2F(n), n, [Alu(U2U(8), 8, [x])]))
  {
    if n == 16 && w == 16 {
      assert RunRecord(97, n, w) == 97;
      Record97Matches(x);
    } else if n == 16 && w == 32 {
      assert RunRecord(97, n, w) == 98;
      Record98Matches(x);
    } else if n == 16 && w == 64 {
      assert RunRecord(97, n, w) == 99;
      Record99Matches(x);
    } else if n == 32 && w == 16 {
      assert RunRecord(97, n, w) == 100;
      Record100Matches(x);
    } else if n == 32 && w == 32 {
      assert RunRecord(97, n, w) == 101;
      Record101Matches(x);
    } else if n == 32 && w == 64 {
      assert RunRecord(97, n, w) == 102;
      Record102Matches(x);
    } else if n == 64 && w == 16 {
      assert RunRecord(97, n, w) == 103;
      Record103Matches(x);
    } else if n == 64 && w == 32 {
      assert RunRecord(97, n, w) == 104;
      Record104Matches(x);
    } else {
      assert RunRecord(97, n, w) == 105;
      Record105Matches(x);
    }
  }

  /** `i2f` of an `u2u8` narrowing is rewritten by one of records 97 to 105, keeping its value. */
  lemma I2fOfU2u8Lowered(n: nat, w: nat, x: Term, env: Env)
    requires Wide(n) && Wide(w) && x.bitSize == w
    ensures Apply(Alu(I2F(n), n, [Alu(U2U(8), 8, [x])])).Some?
    ensures Eval(env, Apply(Alu(I2F(n), n, [Alu(U2U(8), 8, [x])])).value) == Eval(env, Alu(I2F(n), n, [Alu(U2U(8), 8, [x])]))
  {
    TableWellFormed();
    U2uNarrowState(x);
    I2fOfU2u8State(n, Alu(U2U(8), 8, [x]));
    RunOffsets();
    I2fOfU2u8Applies(n, w, x);
    LoweringRun97();
    RunRewriteSound(Table, Flags, Alu(I2F(n), n, [Alu(U2U(8), 8, [x])]), RunRecord(97, n, w), 106, env);
  }

  lemma I2fOfI2i8Applies(n: nat, w: nat, x: Term)
    requires WellFormed(Table, |Flags|)
    requires Wide(n) && Wide(w) && x.bitSize == w
    ensures Applies(Table, Flags, RunRecord(107, n, w), Alu(I2F(n), n, [Alu(I2I(8), 8, [x])]))
  {
    if n == 16 && w == 16 {
      assert RunRecord(107, n, w) == 107;
      Record107Matches(x);
    } else if n == 16 && w == 32 {
      assert RunRecord(107, n, w) == 108;
      Record108Matches(x);
    } else if n == 16 && w == 64 {
      assert RunRecord(107, n, w) == 109;
      Record109Matches(x);
    } else if n == 32 && w == 16 {
      assert RunRecord(107, n, w) == 110;
      Record110Matches(x);
    } else if n == 32 && w == 32 {
      assert RunRecord(107, n, w) == 111;
      Record111Matches(x);
    } else if n == 32 && w == 64 {
      assert RunRecord(107, n, w) == 112;
      Record112Matches(x);
    } else if n == 64 && w == 16 {
      assert RunRecord(107, n, w) == 113;
      Record113Matches(x);
    } else if n == 64 && w == 32 {
      assert RunRecord(107, n, w) == 114;
      Record114Matches(x);
    } else {
      assert RunRecord(107, n, w) == 115;
      Record115Matches(x);
    }
  }

  /** `i2f` of an `i2i8` narrowing is rewritten by one of records 107 to 115, keeping its value. */
  lemma I2fOfI2i8Lowered(n: nat, w: nat, x: Term, env: Env)
    requires Wide(n) && Wide(w) && x.bitSize == w
    ensures Apply(Alu(I2F(n), n, [Alu(I2I(8), 8, [x])])).Some?
    ensures Eval(env, Apply(Alu(I2F(n), n, [Alu(I2I(8), 8, [x])])).value) == Eval(env, Alu(I2F(n), n, [Alu(I2I(8), 8, [x])]))
  {
    TableWellFormed();
    I2iNarrowState(x);
    I2fOfI2i8State(n, Alu(I2I(8), 8, [x]));
    RunOffsets();
    I2fOfI2i8Applies(n, w, x);
    LoweringRun107();
    RunRewriteSound(Table, Flags, Alu(I2F(n), n, [Alu(I2I(8), 8, [x])]), RunRecord(107, n, w), 116, env);
  }

  /**
    The pass rewrites every u2u, i2i, u2f or i2f conversion to width `n` of an 8-bit
    u2u or i2i narrowing of any `w`-bit value (an SSA value, a literal, or an instruction the
    automaton tracks, such as another conversion), and the rewritten instruction has the
    value of the original.
  */
  lemma NarrowingConversionLowered(outer: Opcode, inner: Opcode, n: nat, w: nat, x: Term, env: Env)
    requires outer == U2U(n) || outer == I2I(n) || outer == U2F(n) || outer == I2F(n)
    requires inner == U2U(8) || inner == I2I(8)
    requires Wide(n) && Wide(w) && x.bitSize == w
    ensures Apply(Alu(outer, n, [Alu(inner, 8, [x])])).Some?
    ensures Eval(env, Apply(Alu(outer, n, [Alu(inner, 8, [x])])).value) == Eval(env, Alu(outer, n, [Alu(inner, 8, [x])]))
  {
    if outer == U2U(n) && inner == U2U(8) {
      U2uOfU2u8Lowered(n, w, x, env);
    } else if outer == U2U(n) && inner == I2I(8) {
      U2uOfI2i8Lowered(n, w, x, env);
    } else if outer == I2I(n) && inner == U2U(8) {
      I2iOfU2u8Lowered(n, w, x, env);
    } else if outer == I2I(n) && inner == I2I(8) {
      I2iOfI2i8Lowered(n, w, x, env);
    } else if outer == U2F(n) && inner == U2U(8) {
      U2fOfU2u8Lowered(n, w, x, env);
    } else if outer == U2F(n) && inner == I2I(8) {
      U2fOfI2i8Lowered(n, w, x, env);
    } else if outer == I2F(n) && inner == U2U(8) {
      I2fOfU2u8Lowered(n, w, x, env);
    } else {
      I2fOfI2i8Lowered(n, w, x, env);
    }
  }

  /** The automaton's base states: SSA values are in state 0 and literals in state 1. */
  lemma SourceStates(id: nat, w: nat, kind: ConstType, bits: nat)
    ensures State(Ssa(id, w)) == 0
    ensures State(Lit(w, kind, bits)) == ConstState
  {
    TableWellFormed();
  }

}
