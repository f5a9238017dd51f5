/**
  Soundness of the `dxil_nir_lower_16bit_conv` pass: every u2u, i2i, u2f or i2f
  conversion to 32 or 64 bits of a u2u16 or i2i16 narrowing of a 32- or 64-bit value
  is rewritten, and the rewritten instruction has the original's value.
*/
module Lower16BitConvSound {
  import opened Wrappers
  import opened Arith
  import opened NirSearch
  import opened NirEval
  import opened LoweringSound
  import opened Lower16BitConv

  /**
    The pass's rewrite of one instruction (`None`: no record applies). The tables are
    well formed (`TableWellFormed`), so the guard always holds.
  */
  function Apply(e: Term): Option<Term> {
    if WellFormed(Table, |Flags|) then Rewrite(Table, Flags, e) else None
  }

  /** The automaton state the pass gives `e`. */
  function State(e: Term): nat {
    if WellFormed(Table, |Flags|) then StateOf(Table, |Flags|, e) else 0
  }

  /** The widths this pass lowers from and to. */
  predicate Wide(w: nat) {
    w == 32 || w == 64
  }

  /** Position of a width among 32, 64. */
  function WidthRank(w: nat): nat {
    if w == 32 then 0 else 1
  }

  /**
    The record of the run starting at `off` that handles destination width `n` and
    source width `w`: each run lists its rules by destination width, then source width.
  */
  function RunRecord(off: nat, n: nat, w: nat): nat {
    off + 2 * WidthRank(n) + WidthRank(w)
  }

  /** The `u2u` family's dispatch table, and the states it moves narrowings to. */
  lemma U2uFound()
    ensures Lookup(Table.opTables, FamU2U) == Some(U2uDispatch)
    ensures FilteredIndex(U2uDispatch, 0) == 0 && U2uDispatch.table[0] == 2
    ensures FilteredIndex(U2uDispatch, 1) == 0 && U2uDispatch.table[0] == 2
    ensures FilteredIndex(U2uDispatch, 2) == 1 && U2uDispatch.table[1] == 7
    ensures FilteredIndex(U2uDispatch, 3) == 2 && U2uDispatch.table[2] == 8
  {
    U2uRoutes();
    U2uListed();
  }

  /** The `u2u` family's entry in the dispatch list. */
  lemma U2uListed()
    ensures Lookup(Table.opTables, FamU2U) == Some(U2uDispatch)
  {
    var ops := Table.opTables;
    LookupHit(ops, 0, FamU2U);
    assert ops[0..] == ops;
  }

  lemma U2uRoutes()
    ensures FilteredIndex(U2uDispatch, 0) == 0 && U2uDispatch.table[0] == 2
    ensures FilteredIndex(U2uDispatch, 1) == 0 && U2uDispatch.table[0] == 2
    ensures FilteredIndex(U2uDispatch, 2) == 1 && U2uDispatch.table[1] == 7
    ensures FilteredIndex(U2uDispatch, 3) == 2 && U2uDispatch.table[2] == 8
  {
  }

  /** The `i2i` family's dispatch table, and the states it moves narrowings to. */
  lemma I2iFound()
    ensures Lookup(Table.opTables, FamI2I) == Some(I2iDispatch)
    ensures FilteredIndex(I2iDispatch, 0) == 0 && I2iDispatch.table[0] == 3
    ensures FilteredIndex(I2iDispatch, 1) == 0 && I2iDispatch.table[0] == 3
    ensures FilteredIndex(I2iDispatch, 2) == 1 && I2iDispatch.table[1] == 12
    ensures FilteredIndex(I2iDispatch, 3) == 2 && I2iDispatch.table[2] == 13
  {
    I2iRoutes();
    I2iListed();
  }

  /** The `i2i` family's entry in the dispatch list. */
  lemma I2iListed()
    ensures Lookup(Table.opTables, FamI2I) == Some(I2iDispatch)
  {
    var ops := Table.opTables;
    LookupHit(ops, 1, FamI2I);
    LookupSkip(ops, 0, FamI2I);
    assert ops[0..] == ops;
  }

  lemma I2iRoutes()
    ensures FilteredIndex(I2iDispatch, 0) == 0 && I2iDispatch.table[0] == 3
    ensures FilteredIndex(I2iDispatch, 1) == 0 && I2iDispatch.table[0] == 3
    ensures FilteredIndex(I2iDispatch, 2) == 1 && I2iDispatch.table[1] == 12
    ensures FilteredIndex(I2iDispatch, 3) == 2 && I2iDispatch.table[2] == 13
  {
  }

  /** The `u2f` family's dispatch table, and the states it moves narrowings to. */
  lemma U2fFound()
    ensures Lookup(Table.opTables, FamU2F) == Some(U2fDispatch)
    ensures FilteredIndex(U2fDispatch, 0) == 0 && U2fDispatch.table[0] == 0
    ensures FilteredIndex(U2fDispatch, 1) == 0 && U2fDispatch.table[0] == 0
    ensures FilteredIndex(U2fDispatch, 2) == 1 && U2fDispatch.table[1] == 16
    ensures FilteredIndex(U2fDispatch, 3) == 2 && U2fDispatch.table[2] == 17
  {
    U2fRoutes();
    U2fListed();
  }

  /** The `u2f` family's entry in the dispatch list. */
  lemma U2fListed()
    ensures Lookup(Table.opTables, FamU2F) == Some(U2fDispatch)
  {
    var ops := Table.opTables;
    LookupHit(ops, 4, FamU2F);
    LookupSkip(ops, 3, FamU2F);
    LookupSkip(ops, 2, FamU2F);
    LookupSkip(ops, 1, FamU2F);
    LookupSkip(ops, 0, FamU2F);
    assert ops[0..] == ops;
  }

  lemma U2fRoutes()
    ensures FilteredIndex(U2fDispatch, 0) == 0 && U2fDispatch.table[0] == 0
    ensures FilteredIndex(U2fDispatch, 1) == 0 && U2fDispatch.table[0] == 0
    ensures FilteredIndex(U2fDispatch, 2) == 1 && U2fDispatch.table[1] == 16
    ensures FilteredIndex(U2fDispatch, 3) == 2 && U2fDispatch.table[2] == 17
  {
  }

  /** The `i2f` family's dispatch table, and the states it moves narrowings to. */
  lemma I2fFound()
    ensures Lookup(Table.opTables, FamI2F) == Some(I2fDispatch)
    ensures FilteredIndex(I2fDispatch, 0) == 0 && I2fDispatch.table[0] == 0
    ensures FilteredIndex(I2fDispatch, 1) == 0 && I2fDispatch.table[0] == 0
    ensures FilteredIndex(I2fDispatch, 2) == 1 && I2fDispatch.table[1] == 20
    ensures FilteredIndex(I2fDispatch, 3) == 2 && I2fDispatch.table[2] == 21
  {
    I2fRoutes();
    I2fListed();
  }

  /** The `i2f` family's entry in the dispatch list. */
  lemma I2fListed()
    ensures Lookup(Table.opTables, FamI2F) == Some(I2fDispatch)
  {
    var ops := Table.opTables;
    LookupHit(ops, 5, FamI2F);
    LookupSkip(ops, 4, FamI2F);
    LookupSkip(ops, 3, FamI2F);
    LookupSkip(ops, 2, FamI2F);
    LookupSkip(ops, 1, FamI2F);
    LookupSkip(ops, 0, FamI2F);
    assert ops[0..] == ops;
  }

  lemma I2fRoutes()
    ensures FilteredIndex(I2fDispatch, 0) == 0 && I2fDispatch.table[0] == 0
    ensures FilteredIndex(I2fDispatch, 1) == 0 && I2fDispatch.table[0] == 0
    ensures FilteredIndex(I2fDispatch, 2) == 1 && I2fDispatch.table[1] == 20
    ensures FilteredIndex(I2fDispatch, 3) == 2 && I2fDispatch.table[2] == 21
  {
  }

  /** A state that the filter of each of the u2u, i2i, u2f and i2f tables sends to class `k`. */
  predicate FiltersTo(s: nat, k: nat) {
    && s < |U2uDispatch.filter.value| && s < |I2iDispatch.filter.value|
    && s < |U2fDispatch.filter.value| && s < |I2fDispatch.filter.value|
    && FilteredIndex(U2uDispatch, s) == k && FilteredIndex(I2iDispatch, s) == k
    && FilteredIndex(U2fDispatch, s) == k && FilteredIndex(I2fDispatch, s) == k
  }

  /** Whatever its source, a u2u16 narrowing is in a state every conversion filter sends to class 1. */
  lemma U2uNarrowState(x: Term)
    requires WellFormed(Table, |Flags|)
    ensures FiltersTo(StateOf(Table, |Flags|, Alu(U2U(16), 16, [x])), 1)
  {
    U2uListed();
    assert KeyOf(U2U(16)) == FamU2U;
    UnaryState(Table, |Flags|, U2U(16), 16, x, U2uDispatch);
    U2uTargets(FilteredIndex(U2uDispatch, StateOf(Table, |Flags|, x)));
  }

  /** Every state the u2u table moves to is one the filters send to class 1. */
  lemma U2uTargets(i: nat)
    requires i < |U2uDispatch.table|
    ensures FiltersTo(U2uDispatch.table[i], 1)
  {
  }

  /** Whatever its source, an i2i16 narrowing is in a state every conversion filter sends to class 2. */
  lemma I2iNarrowState(x: Term)
    requires WellFormed(Table, |Flags|)
    ensures FiltersTo(StateOf(Table, |Flags|, Alu(I2I(16), 16, [x])), 2)
  {
    I2iListed();
    assert KeyOf(I2I(16)) == FamI2I;
    UnaryState(Table, |Flags|, I2I(16), 16, x, I2iDispatch);
    I2iTargets(FilteredIndex(I2iDispatch, StateOf(Table, |Flags|, x)));
  }

  /** Every state the i2i table moves to is one the filters send to class 2. */
  lemma I2iTargets(i: nat)
    requires i < |I2iDispatch.table|
    ensures FiltersTo(I2iDispatch.table[i], 2)
  {
  }

  lemma U2uOfU2u16State(n: nat, y: Term)
    requires WellFormed(Table, |Flags|) && FilteredIndex(U2uDispatch, StateOf(Table, |Flags|, y)) == 1
    ensures StateOf(Table, |Flags|, Alu(U2U(n), n, [y])) == 7
  {
    U2uFound();
    assert KeyOf(U2U(n)) == FamU2U;
    UnaryState(Table, |Flags|, U2U(n), n, y, U2uDispatch);
  }

  lemma U2uOfI2i16State(n: nat, y: Term)
    requires WellFormed(Table, |Flags|) && FilteredIndex(U2uDispatch, StateOf(Table, |Flags|, y)) == 2
    ensures StateOf(Table, |Flags|, Alu(U2U(n), n, [y])) == 8
  {
    U2uFound();
    assert KeyOf(U2U(n)) == FamU2U;
    UnaryState(Table, |Flags|, U2U(n), n, y, U2uDispatch);
  }

  lemma I2iOfU2u16State(n: nat, y: Term)
    requires WellFormed(Table, |Flags|) && FilteredIndex(I2iDispatch, StateOf(Table, |Flags|, y)) == 1
    ensures StateOf(Table, |Flags|, Alu(I2I(n), n, [y])) == 12
  {
    I2iFound();
    assert KeyOf(I2I(n)) == FamI2I;
    UnaryState(Table, |Flags|, I2I(n), n, y, I2iDispatch);
  }

  lemma I2iOfI2i16State(n: nat, y: Term)
    requires WellFormed(Table, |Flags|) && FilteredIndex(I2iDispatch, StateOf(Table, |Flags|, y)) == 2
    ensures StateOf(Table, |Flags|, Alu(I2I(n), n, [y])) == 13
  {
    I2iFound();
    assert KeyOf(I2I(n)) == FamI2I;
    UnaryState(Table, |Flags|, I2I(n), n, y, I2iDispatch);
  }

  lemma U2fOfU2u16State(n: nat, y: Term)
    requires WellFormed(Table, |Flags|) && FilteredIndex(U2fDispatch, StateOf(Table, |Flags|, y)) == 1
    ensures StateOf(Table, |Flags|, Alu(U2F(n), n, [y])) == 16
  {
    U2fFound();
    assert KeyOf(U2F(n)) == FamU2F;
    UnaryState(Table, |Flags|, U2F(n), n, y, U2fDispatch);
  }

  lemma U2fOfI2i16State(n: nat, y: Term)
    requires WellFormed(Table, |Flags|) && FilteredIndex(U2fDispatch, StateOf(Table, |Flags|, y)) == 2
    ensures StateOf(Table, |Flags|, Alu(U2F(n), n, [y])) == 17
  {
    U2fFound();
    assert KeyOf(U2F(n)) == FamU2F;
    UnaryState(Table, |Flags|, U2F(n), n, y, U2fDispatch);
  }

  lemma I2fOfU2u16State(n: nat, y: Term)
    requires WellFormed(Table, |Flags|) && FilteredIndex(I2fDispatch, StateOf(Table, |Flags|, y)) == 1
    ensures StateOf(Table, |Flags|, Alu(I2F(n), n, [y])) == 20
  {
    I2fFound();
    assert KeyOf(I2F(n)) == FamI2F;
    UnaryState(Table, |Flags|, I2F(n), n, y, I2fDispatch);
  }

  lemma I2fOfI2i16State(n: nat, y: Term)
    requires WellFormed(Table, |Flags|) && FilteredIndex(I2fDispatch, StateOf(Table, |Flags|, y)) == 2
    ensures StateOf(Table, |Flags|, Alu(I2F(n), n, [y])) == 21
  {
    I2fFound();
    assert KeyOf(I2F(n)) == FamI2F;
    UnaryState(Table, |Flags|, I2F(n), n, y, I2fDispatch);
  }

  /** The first record of the run of each state a conversion of a narrowing reaches. */
  lemma RunOffsets()
    ensures TransformOffsets[7] == 1
    ensures TransformOffsets[8] == 6
    ensures TransformOffsets[12] == 19
    ensures TransformOffsets[13] == 24
    ensures TransformOffsets[16] == 35
    ensures TransformOffsets[17] == 40
    ensures TransformOffsets[20] == 55
    ensures TransformOffsets[21] == 60
  {
  }

  // Each record of a lowering run has the lowering shape and searches for its conversion pair.

  lemma Record1Lowers()
    ensures LoweringRecord(Table, 1)
    ensures SearchesFor(Values, Transforms[1].search, U2U(32), 32, U2U(16), 16, 32)
    ensures Transforms[1].search == 2
  {
    AllValuesOrdered();
    assert Transforms[1] == Rule(2, 4, 0);
    assert Src(Values, 2, 0) == 1;
    assert Src(Values, 1, 0) == 0;
    assert Src(Values, 4, 0) == 0;
    assert Src(Values, 4, 1) == 3;
    assert Pow2(16) == 65536 by {
      Pow2Values();
    }
  }

  lemma Record1Matches(x: Term)
    requires WellFormed(Table, |Flags|) && x.bitSize == 32
    ensures Applies(Table, Flags, 1, Alu(U2U(32), 32, [Alu(U2U(16), 16, [x])]))
  {
    Record1Lowers();
    SearchMatches(Values, 2, U2U(32), 32, U2U(16), 16, 32, x);
  }

  lemma Record2Lowers()
    ensures LoweringRecord(Table, 2)
    ensures SearchesFor(Values, Transforms[2].search, U2U(32), 32, U2U(16), 16, 64)
    ensures Transforms[2].search == 7
  {
    AllValuesOrdered();
    assert Transforms[2] == Rule(7, 10, 0);
    assert Src(Values, 7, 0) == 6;
    assert Src(Values, 6, 0) == 5;
    assert Src(Values, 10, 0) == 9;
    assert Src(Values, 9, 0) == 5;
    assert Src(Values, 9, 1) == 8;
    assert Pow2(16) == 65536 by {
      Pow2Values();
    }
  }

  lemma Record2Matches(x: Term)
    requires WellFormed(Table, |Flags|) && x.bitSize == 64
    ensures Applies(Table, Flags, 2, Alu(U2U(32), 32, [Alu(U2U(16), 16, [x])]))
  {
    Record2Lowers();
    SearchMatches(Values, 7, U2U(32), 32, U2U(16), 16, 64, x);
  }

  lemma Record3Lowers()
    ensures LoweringRecord(Table, 3)
    ensures SearchesFor(Values, Transforms[3].search, U2U(64), 64, U2U(16), 16, 32)
    ensures Transforms[3].search == 25
  {
    AllValuesOrdered();
    assert Transforms[3] == Rule(25, 26, 0);
    assert Src(Values, 25, 0) == 1;
    assert Src(Values, 1, 0) == 0;
    assert Src(Values, 26, 0) == 4;
    assert Src(Values, 4, 0) == 0;
    assert Src(Values, 4, 1) == 3;
    assert Pow2(16) == 65536 by {
      Pow2Values();
    }
  }

  lemma Record3Matches(x: Term)
    requires WellFormed(Table, |Flags|) && x.bitSize == 32
    ensures Applies(Table, Flags, 3, Alu(U2U(64), 64, [Alu(U2U(16), 16, [x])]))
  {
    Record3Lowers();
    SearchMatches(Values, 25, U2U(64), 64, U2U(16), 16, 32, x);
  }

  lemma Record4Lowers()
    ensures LoweringRecord(Table, 4)
    ensures SearchesFor(Values, Transforms[4].search, U2U(64), 64, U2U(16), 16, 64)
    ensures Transforms[4].search == 27
  {
    AllValuesOrdered();
    assert Transforms[4] == Rule(27, 9, 0);
    assert Src(Values, 27, 0) == 6;
    assert Src(Values, 6, 0) == 5;
    assert Src(Values, 9, 0) == 5;
    assert Src(Values, 9, 1) == 8;
    assert Pow2(16) == 65536 by {
      Pow2Values();
    }
  }

  lemma Record4Matches(x: Term)
    requires WellFormed(Table, |Flags|) && x.bitSize == 64
    ensures Applies(Table, Flags, 4, Alu(U2U(64), 64, [Alu(U2U(16), 16, [x])]))
  {
    Record4Lowers();
    SearchMatches(Values, 27, U2U(64), 64, U2U(16), 16, 64, x);
  }

  lemma LoweringRun1()
    ensures forall j :: 1 <= j < 5 ==> LoweringRecord(Table, j)
  {
    Record1Lowers();
    Record2Lowers();
    Record3Lowers();
    Record4Lowers();
    forall j | 1 <= j < 5
      ensures LoweringRecord(Table, j)
    {
      assert j == 1 || j == 2 || j == 3 || j == 4;
    }
  }

  lemma Record6Lowers()
    ensures LoweringRecord(Table, 6)
    ensures SearchesFor(Values, Transforms[6].search, U2U(32), 32, I2I(16), 16, 32)
    ensures Transforms[6].search == 12
  {
    AllValuesOrdered();
    assert Transforms[6] == Rule(12, 13, 0);
    assert Src(Values, 12, 0) == 11;
    assert Src(Values, 11, 0) == 0;
    assert Src(Values, 13, 0) == 4;
    assert Src(Values, 4, 0) == 0;
    assert Src(Values, 4, 1) == 3;
    assert Pow2(16) == 65536 by {
      Pow2Values();
    }
  }

  lemma Record6Matches(x: Term)
    requires WellFormed(Table, |Flags|) && x.bitSize == 32
    ensures Applies(Table, Flags, 6, Alu(U2U(32), 32, [Alu(I2I(16), 16, [x])]))
  {
    Record6Lowers();
    SearchMatches(Values, 12, U2U(32), 32, I2I(16), 16, 32, x);
  }

  lemma Record7Lowers()
    ensures LoweringRecord(Table, 7)
    ensures SearchesFor(Values, Transforms[7].search, U2U(32), 32, I2I(16), 16, 64)
    ensures Transforms[7].search == 15
  {
    AllValuesOrdered();
    assert Transforms[7] == Rule(15, 10, 0);
    assert Src(Values, 15, 0) == 14;
    assert Src(Values, 14, 0) == 5;
    assert Src(Values, 10, 0) == 9;
    assert Src(Values, 9, 0) == 5;
    assert Src(Values, 9, 1) == 8;
    assert Pow2(16) == 65536 by {
      Pow2Values();
    }
  }

  lemma Record7Matches(x: Term)
    requires WellFormed(Table, |Flags|) && x.bitSize == 64
    ensures Applies(Table, Flags, 7, Alu(U2U(32), 32, [Alu(I2I(16), 16, [x])]))
  {
    Record7Lowers();
    SearchMatches(Values, 15, U2U(32), 32, I2I(16), 16, 64, x);
  }

  lemma Record8Lowers()
    ensures LoweringRecord(Table, 8)
    ensures SearchesFor(Values, Transforms[8].search, U2U(64), 64, I2I(16), 16, 32)
    ensures Transforms[8].search == 28
  {
    AllValuesOrdered();
    assert Transforms[8] == Rule(28, 26, 0);
    assert Src(Values, 28, 0) == 11;
    assert Src(Values, 11, 0) == 0;
    assert Src(Values, 26, 0) == 4;
    assert Src(Values, 4, 0) == 0;
    assert Src(Values, 4, 1) == 3;
    assert Pow2(16) == 65536 by {
      Pow2Values();
    }
  }

  lemma Record8Matches(x: Term)
    requires WellFormed(Table, |Flags|) && x.bitSize == 32
    ensures Applies(Table, Flags, 8, Alu(U2U(64), 64, [Alu(I2I(16), 16, [x])]))
  {
    Record8Lowers();
    SearchMatches(Values, 28, U2U(64), 64, I2I(16), 16, 32, x);
  }

  lemma Record9Lowers()
    ensures LoweringRecord(Table, 9)
    ensures SearchesFor(Values, Transforms[9].search, U2U(64), 64, I2I(16), 16, 64)
    ensures Transforms[9].search == 29
  {
    AllValuesOrdered();
    assert Transforms[9] == Rule(29, 30, 0);
    assert Src(Values, 29, 0) == 14;
    assert Src(Values, 14, 0) == 5;
    assert Src(Values, 30, 0) == 9;
    assert Src(Values, 9, 0) == 5;
    assert Src(Values, 9, 1) == 8;
    assert Pow2(16) == 65536 by {
      Pow2Values();
    }
  }

  lemma Record9Matches(x: Term)
    requires WellFormed(Table, |Flags|) && x.bitSize == 64
    ensures Applies(Table, Flags, 9, Alu(U2U(64), 64, [Alu(I2I(16), 16, [x])]))
  {
    Record9Lowers();
    SearchMatches(Values, 29, U2U(64), 64, I2I(16), 16, 64, x);
  }

  lemma LoweringRun6()
    ensures forall j :: 6 <= j < 10 ==> LoweringRecord(Table, j)
  {
    Record6Lowers();
    Record7Lowers();
    Record8Lowers();
    Record9Lowers();
    forall j | 6 <= j < 10
      ensures LoweringRecord(Table, j)
    {
      assert j == 6 || j == 7 || j == 8 || j == 9;
    }
  }

  lemma Record19Lowers()
    ensures LoweringRecord(Table, 19)
    ensures SearchesFor(Values, Transforms[19].search, I2I(32), 32, U2U(16), 16, 32)
    ensures Transforms[19].search == 37
  {
    AllValuesOrdered();
    assert Transforms[19] == Rule(37, 41, 0);
    assert Src(Values, 37, 0) == 1;
    assert Src(Values, 1, 0) == 0;
    assert Src(Values, 41, 0) == 40;
    assert Src(Values, 40, 0) == 39;
    assert Src(Values, 39, 0) == 0;
    assert Src(Values, 39, 1) == 38;
    assert Src(Values, 40, 1) == 38;
  }

  lemma Record19Matches(x: Term)
    requires WellFormed(Table, |Flags|) && x.bitSize == 32
    ensures Applies(Table, Flags, 19, Alu(I2I(32), 32, [Alu(U2U(16), 16, [x])]))
  {
    Record19Lowers();
    SearchMatches(Values, 37, I2I(32), 32, U2U(16), 16, 32, x);
  }

  lemma Record20Lowers()
    ensures LoweringRecord(Table, 20)
    ensures SearchesFor(Values, Transforms[20].search, I2I(32), 32, U2U(16), 16, 64)
    ensures Transforms[20].search == 42
  {
    AllValuesOrdered();
    assert Transforms[20] == Rule(42, 46, 0);
    assert Src(Values, 42, 0) == 6;
    assert Src(Values, 6, 0) == 5;
    assert Src(Values, 46, 0) == 45;
    assert Src(Values, 45, 0) == 44;
    assert Src(Values, 44, 0) == 5;
    assert Src(Values, 44, 1) == 43;
    assert Src(Values, 45, 1) == 43;
  }

  lemma Record20Matches(x: Term)
    requires WellFormed(Table, |Flags|) && x.bitSize == 64
    ensures Applies(Table, Flags, 20, Alu(I2I(32), 32, [Alu(U2U(16), 16, [x])]))
  {
    Record20Lowers();
    SearchMatches(Values, 42, I2I(32), 32, U2U(16), 16, 64, x);
  }

  lemma Record21Lowers()
    ensures LoweringRecord(Table, 21)
    ensures SearchesFor(Values, Transforms[21].search, I2I(64), 64, U2U(16), 16, 32)
    ensures Transforms[21].search == 55
  {
    AllValuesOrdered();
    assert Transforms[21] == Rule(55, 56, 0);
    assert Src(Values, 55, 0) == 1;
    assert Src(Values, 1, 0) == 0;
    assert Src(Values, 56, 0) == 40;
    assert Src(Values, 40, 0) == 39;
    assert Src(Values, 39, 0) == 0;
    assert Src(Values, 39, 1) == 38;
    assert Src(Values, 40, 1) == 38;
  }

  lemma Record21Matches(x: Term)
    requires WellFormed(Table, |Flags|) && x.bitSize == 32
    ensures Applies(Table, Flags, 21, Alu(I2I(64), 64, [Alu(U2U(16), 16, [x])]))
  {
    Record21Lowers();
    SearchMatches(Values, 55, I2I(64), 64, U2U(16), 16, 32, x);
  }

  lemma Record22Lowers()
    ensures LoweringRecord(Table, 22)
    ensures SearchesFor(Values, Transforms[22].search, I2I(64), 64, U2U(16), 16, 64)
    ensures Transforms[22].search == 57
  {
    AllValuesOrdered();
    assert Transforms[22] == Rule(57, 58, 0);
    assert Src(Values, 57, 0) == 6;
    assert Src(Values, 6, 0) == 5;
    assert Src(Values, 58, 0) == 45;
    assert Src(Values, 45, 0) == 44;
    assert Src(Values, 44, 0) == 5;
    assert Src(Values, 44, 1) == 43;
    assert Src(Values, 45, 1) == 43;
  }

  lemma Record22Matches(x: Term)
    requires WellFormed(Table, |Flags|) && x.bitSize == 64
    ensures Applies(Table, Flags, 22, Alu(I2I(64), 64, [Alu(U2U(16), 16, [x])]))
  {
    Record22Lowers();
    SearchMatches(Values, 57, I2I(64), 64, U2U(16), 16, 64, x);
  }

  lemma LoweringRun19()
    ensures forall j :: 19 <= j < 23 ==> LoweringRecord(Table, j)
  {
    Record19Lowers();
    Record20Lowers();
    Record21Lowers();
    Record22Lowers();
    forall j | 19 <= j < 23
      ensures LoweringRecord(Table, j)
    {
      assert j == 19 || j == 20 || j == 21 || j == 22;
    }
  }

  lemma Record24Lowers()
    ensures LoweringRecord(Table, 24)
    ensures SearchesFor(Values, Transforms[24].search, I2I(32), 32, I2I(16), 16, 32)
    ensures Transforms[24].search == 47
  {
    AllValuesOrdered();
    assert Transforms[24] == Rule(47, 40, 0);
    assert Src(Values, 47, 0) == 11;
    assert Src(Values, 11, 0) == 0;
    assert Src(Values, 40, 0) == 39;
    assert Src(Values, 39, 0) == 0;
    assert Src(Values, 39, 1) == 38;
    assert Src(Values, 40, 1) == 38;
  }

  lemma Record24Matches(x: Term)
    requires WellFormed(Table, |Flags|) && x.bitSize == 32
    ensures Applies(Table, Flags, 24, Alu(I2I(32), 32, [Alu(I2I(16), 16, [x])]))
  {
    Record24Lowers();
    SearchMatches(Values, 47, I2I(32), 32, I2I(16), 16, 32, x);
  }

  lemma Record25Lowers()
    ensures LoweringRecord(Table, 25)
    ensures SearchesFor(Values, Transforms[25].search, I2I(32), 32, I2I(16), 16, 64)
    ensures Transforms[25].search == 48
  {
    AllValuesOrdered();
    assert Transforms[25] == Rule(48, 46, 0);
    assert Src(Values, 48, 0) == 14;
    assert Src(Values, 14, 0) == 5;
    assert Src(Values, 46, 0) == 45;
    assert Src(Values, 45, 0) == 44;
    assert Src(Values, 44, 0) == 5;
    assert Src(Values, 44, 1) == 43;
    assert Src(Values, 45, 1) == 43;
  }

  lemma Record25Matches(x: Term)
    requires WellFormed(Table, |Flags|) && x.bitSize == 64
    ensures Applies(Table, Flags, 25, Alu(I2I(32), 32, [Alu(I2I(16), 16, [x])]))
  {
    Record25Lowers();
    SearchMatches(Values, 48, I2I(32), 32, I2I(16), 16, 64, x);
  }

  lemma Record26Lowers()
    ensures LoweringRecord(Table, 26)
    ensures SearchesFor(Values, Transforms[26].search, I2I(64), 64, I2I(16), 16, 32)
    ensures Transforms[26].search == 59
  {
    AllValuesOrdered();
    assert Transforms[26] == Rule(59, 56, 0);
    assert Src(Values, 59, 0) == 11;
    assert Src(Values, 11, 0) == 0;
    assert Src(Values, 56, 0) == 40;
    assert Src(Values, 40, 0) == 39;
    assert Src(Values, 39, 0) == 0;
    assert Src(Values, 39, 1) == 38;
    assert Src(Values, 40, 1) == 38;
  }

  lemma Record26Matches(x: Term)
    requires WellFormed(Table, |Flags|) && x.bitSize == 32
    ensures Applies(Table, Flags, 26, Alu(I2I(64), 64, [Alu(I2I(16), 16, [x])]))
  {
    Record26Lowers();
    SearchMatches(Values, 59, I2I(64), 64, I2I(16), 16, 32, x);
  }

  lemma Record27Lowers()
    ensures LoweringRecord(Table, 27)
    ensures SearchesFor(Values, Transforms[27].search, I2I(64), 64, I2I(16), 16, 64)
    ensures Transforms[27].search == 60
  {
    AllValuesOrdered();
    assert Transforms[27] == Rule(60, 45, 0);
    assert Src(Values, 60, 0) == 14;
    assert Src(Values, 14, 0) == 5;
    assert Src(Values, 45, 0) == 44;
    assert Src(Values, 44, 0) == 5;
    assert Src(Values, 44, 1) == 43;
    assert Src(Values, 45, 1) == 43;
  }

  lemma Record27Matches(x: Term)
    requires WellFormed(Table, |Flags|) && x.bitSize == 64
    ensures Applies(Table, Flags, 27, Alu(I2I(64), 64, [Alu(I2I(16), 16, [x])]))
  {
    Record27Lowers();
    SearchMatches(Values, 60, I2I(64), 64, I2I(16), 16, 64, x);
  }

  lemma LoweringRun24()
    ensures forall j :: 24 <= j < 28 ==> LoweringRecord(Table, j)
  {
    Record24Lowers();
    Record25Lowers();
    Record26Lowers();
    Record27Lowers();
    forall j | 24 <= j < 28
      ensures LoweringRecord(Table, j)
    {
      assert j == 24 || j == 25 || j == 26 || j == 27;
    }
  }

  lemma Record35Lowers()
    ensures LoweringRecord(Table, 35)
    ensures SearchesFor(Values, Transforms[35].search, U2F(32), 32, U2U(16), 16, 32)
    ensures Transforms[35].search == 67
  {
    AllValuesOrdered();
    assert Transforms[35] == Rule(67, 68, 0);
    assert Src(Values, 67, 0) == 1;
    assert Src(Values, 1, 0) == 0;
    assert Src(Values, 68, 0) == 4;
    assert Src(Values, 4, 0) == 0;
    assert Src(Values, 4, 1) == 3;
    assert Pow2(16) == 65536 by {
      Pow2Values();
    }
  }

  lemma Record35Matches(x: Term)
    requires WellFormed(Table, |Flags|) && x.bitSize == 32
    ensures Applies(Table, Flags, 35, Alu(U2F(32), 32, [Alu(U2U(16), 16, [x])]))
  {
    Record35Lowers();
    SearchMatches(Values, 67, U2F(32), 32, U2U(16), 16, 32, x);
  }

  lemma Record36Lowers()
    ensures LoweringRecord(Table, 36)
    ensures SearchesFor(Values, Transforms[36].search, U2F(32), 32, U2U(16), 16, 64)
    ensures Transforms[36].search == 69
  {
    AllValuesOrdered();
    assert Transforms[36] == Rule(69, 70, 0);
    assert Src(Values, 69, 0) == 6;
    assert Src(Values, 6, 0) == 5;
    assert Src(Values, 70, 0) == 9;
    assert Src(Values, 9, 0) == 5;
    assert Src(Values, 9, 1) == 8;
    assert Pow2(16) == 65536 by {
      Pow2Values();
    }
  }

  lemma Record36Matches(x: Term)
    requires WellFormed(Table, |Flags|) && x.bitSize == 64
    ensures Applies(Table, Flags, 36, Alu(U2F(32), 32, [Alu(U2U(16), 16, [x])]))
  {
    Record36Lowers();
    SearchMatches(Values, 69, U2F(32), 32, U2U(16), 16, 64, x);
  }

  lemma Record37Lowers()
    ensures LoweringRecord(Table, 37)
    ensures SearchesFor(Values, Transforms[37].search, U2F(64), 64, U2U(16), 16, 32)
    ensures Transforms[37].search == 90
  {
    AllValuesOrdered();
    assert Transforms[37] == Rule(90, 91, 0);
    assert Src(Values, 90, 0) == 1;
    assert Src(Values, 1, 0) == 0;
    assert Src(Values, 91, 0) == 4;
    assert Src(Values, 4, 0) == 0;
    assert Src(Values, 4, 1) == 3;
    assert Pow2(16) == 65536 by {
      Pow2Values();
    }
  }

  lemma Record37Matches(x: Term)
    requires WellFormed(Table, |Flags|) && x.bitSize == 32
    ensures Applies(Table, Flags, 37, Alu(U2F(64), 64, [Alu(U2U(16), 16, [x])]))
  {
    Record37Lowers();
    SearchMatches(Values, 90, U2F(64), 64, U2U(16), 16, 32, x);
  }

  lemma Record38Lowers()
    ensures LoweringRecord(Table, 38)
    ensures SearchesFor(Values, Transforms[38].search, U2F(64), 64, U2U(16), 16, 64)
    ensures Transforms[38].search == 92
  {
    AllValuesOrdered();
    assert Transforms[38] == Rule(92, 93, 0);
    assert Src(Values, 92, 0) == 6;
    assert Src(Values, 6, 0) == 5;
    assert Src(Values, 93, 0) == 9;
    assert Src(Values, 9, 0) == 5;
    assert Src(Values, 9, 1) == 8;
    assert Pow2(16) == 65536 by {
      Pow2Values();
    }
  }

  lemma Record38Matches(x: Term)
    requires WellFormed(Table, |Flags|) && x.bitSize == 64
    ensures Applies(Table, Flags, 38, Alu(U2F(64), 64, [Alu(U2U(16), 16, [x])]))
  {
    Record38Lowers();
    SearchMatches(Values, 92, U2F(64), 64, U2U(16), 16, 64, x);
  }

  lemma LoweringRun35()
    ensures forall j :: 35 <= j < 39 ==> LoweringRecord(Table, j)
  {
    Record35Lowers();
    Record36Lowers();
    Record37Lowers();
    Record38Lowers();
    forall j | 35 <= j < 39
      ensures LoweringRecord(Table, j)
    {
      assert j == 35 || j == 36 || j == 37 || j == 38;
    }
  }

  lemma Record40Lowers()
    ensures LoweringRecord(Table, 40)
    ensures SearchesFor(Values, Transforms[40].search, U2F(32), 32, I2I(16), 16, 32)
    ensures Transforms[40].search == 71
  {
    AllValuesOrdered();
    assert Transforms[40] == Rule(71, 68, 0);
    assert Src(Values, 71, 0) == 11;
    assert Src(Values, 11, 0) == 0;
    assert Src(Values, 68, 0) == 4;
    assert Src(Values, 4, 0) == 0;
    assert Src(Values, 4, 1) == 3;
    assert Pow2(16) == 65536 by {
      Pow2Values();
    }
  }

  lemma Record40Matches(x: Term)
    requires WellFormed(Table, |Flags|) && x.bitSize == 32
    ensures Applies(Table, Flags, 40, Alu(U2F(32), 32, [Alu(I2I(16), 16, [x])]))
  {
    Record40Lowers();
    SearchMatches(Values, 71, U2F(32), 32, I2I(16), 16, 32, x);
  }

  lemma Record41Lowers()
    ensures LoweringRecord(Table, 41)
    ensures SearchesFor(Values, Transforms[41].search, U2F(32), 32, I2I(16), 16, 64)
    ensures Transforms[41].search == 72
  {
    AllValuesOrdered();
    assert Transforms[41] == Rule(72, 70, 0);
    assert Src(Values, 72, 0) == 14;
    assert Src(Values, 14, 0) == 5;
    assert Src(Values, 70, 0) == 9;
    assert Src(Values, 9, 0) == 5;
    assert Src(Values, 9, 1) == 8;
    assert Pow2(16) == 65536 by {
      Pow2Values();
    }
  }

  lemma Record41Matches(x: Term)
    requires WellFormed(Table, |Flags|) && x.bitSize == 64
    ensures Applies(Table, Flags, 41, Alu(U2F(32), 32, [Alu(I2I(16), 16, [x])]))
  {
    Record41Lowers();
    SearchMatches(Values, 72, U2F(32), 32, I2I(16), 16, 64, x);
  }

  lemma Record42Lowers()
    ensures LoweringRecord(Table, 42)
    ensures SearchesFor(Values, Transforms[42].search, U2F(64), 64, I2I(16), 16, 32)
    ensures Transforms[42].search == 94
  {
    AllValuesOrdered();
    assert Transforms[42] == Rule(94, 91, 0);
    assert Src(Values, 94, 0) == 11;
    assert Src(Values, 11, 0) == 0;
    assert Src(Values, 91, 0) == 4;
    assert Src(Values, 4, 0) == 0;
    assert Src(Values, 4, 1) == 3;
    assert Pow2(16) == 65536 by {
      Pow2Values();
    }
  }

  lemma Record42Matches(x: Term)
    requires WellFormed(Table, |Flags|) && x.bitSize == 32
    ensures Applies(Table, Flags, 42, Alu(U2F(64), 64, [Alu(I2I(16), 16, [x])]))
  {
    Record42Lowers();
    SearchMatches(Values, 94, U2F(64), 64, I2I(16), 16, 32, x);
  }

  lemma Record43Lowers()
    ensures LoweringRecord(Table, 43)
    ensures SearchesFor(Values, Transforms[43].search, U2F(64), 64, I2I(16), 16, 64)
    ensures Transforms[43].search == 95
  {
    AllValuesOrdered();
    assert Transforms[43] == Rule(95, 93, 0);
    assert Src(Values, 95, 0) == 14;
    assert Src(Values, 14, 0) == 5;
    assert Src(Values, 93, 0) == 9;
    assert Src(Values, 9, 0) == 5;
    assert Src(Values, 9, 1) == 8;
    assert Pow2(16) == 65536 by {
      Pow2Values();
    }
  }

  lemma Record43Matches(x: Term)
    requires WellFormed(Table, |Flags|) && x.bitSize == 64
    ensures Applies(Table, Flags, 43, Alu(U2F(64), 64, [Alu(I2I(16), 16, [x])]))
  {
    Record43Lowers();
    SearchMatches(Values, 95, U2F(64), 64, I2I(16), 16, 64, x);
  }

  lemma LoweringRun40()
    ensures forall j :: 40 <= j < 44 ==> LoweringRecord(Table, j)
  {
    Record40Lowers();
    Record41Lowers();
    Record42Lowers();
    Record43Lowers();
    forall j | 40 <= j < 44
      ensures LoweringRecord(Table, j)
    {
      assert j == 40 || j == 41 || j == 42 || j == 43;
    }
  }

  lemma Record55Lowers()
    ensures LoweringRecord(Table, 55)
    ensures SearchesFor(Values, Transforms[55].search, I2F(32), 32, U2U(16), 16, 32)
    ensures Transforms[55].search == 101
  {
    AllValuesOrdered();
    assert Transforms[55] == Rule(101, 102, 0);
    assert Src(Values, 101, 0) == 1;
    assert Src(Values, 1, 0) == 0;
    assert Src(Values, 102, 0) == 40;
    assert Src(Values, 40, 0) == 39;
    assert Src(Values, 39, 0) == 0;
    assert Src(Values, 39, 1) == 38;
    assert Src(Values, 40, 1) == 38;
  }

  lemma Record55Matches(x: Term)
    requires WellFormed(Table, |Flags|) && x.bitSize == 32
    ensures Applies(Table, Flags, 55, Alu(I2F(32), 32, [Alu(U2U(16), 16, [x])]))
  {
    Record55Lowers();
    SearchMatches(Values, 101, I2F(32), 32, U2U(16), 16, 32, x);
  }

  lemma Record56Lowers()
    ensures LoweringRecord(Table, 56)
    ensures SearchesFor(Values, Transforms[56].search, I2F(32), 32, U2U(16), 16, 64)
    ensures Transforms[56].search == 103
  {
    AllValuesOrdered();
    assert Transforms[56] == Rule(103, 104, 0);
    assert Src(Values, 103, 0) == 6;
    assert Src(Values, 6, 0) == 5;
    assert Src(Values, 104, 0) == 45;
    assert Src(Values, 45, 0) == 44;
    assert Src(Values, 44, 0) == 5;
    assert Src(Values, 44, 1) == 43;
    assert Src(Values, 45, 1) == 43;
  }

  lemma Record56Matches(x: Term)
    requires WellFormed(Table, |Flags|) && x.bitSize == 64
    ensures Applies(Table, Flags, 56, Alu(I2F(32), 32, [Alu(U2U(16), 16, [x])]))
  {
    Record56Lowers();
    SearchMatches(Values, 103, I2F(32), 32, U2U(16), 16, 64, x);
  }

  lemma Record57Lowers()
    ensures LoweringRecord(Table, 57)
    ensures SearchesFor(Values, Transforms[57].search, I2F(64), 64, U2U(16), 16, 32)
    ensures Transforms[57].search == 120
  {
    AllValuesOrdered();
    assert Transforms[57] == Rule(120, 121, 0);
    assert Src(Values, 120, 0) == 1;
    assert Src(Values, 1, 0) == 0;
    assert Src(Values, 121, 0) == 40;
    assert Src(Values, 40, 0) == 39;
    assert Src(Values, 39, 0) == 0;
    assert Src(Values, 39, 1) == 38;
    assert Src(Values, 40, 1) == 38;
  }

  lemma Record57Matches(x: Term)
    requires WellFormed(Table, |Flags|) && x.bitSize == 32
    ensures Applies(Table, Flags, 57, Alu(I2F(64), 64, [Alu(U2U(16), 16, [x])]))
  {
    Record57Lowers();
    SearchMatches(Values, 120, I2F(64), 64, U2U(16), 16, 32, x);
  }

  lemma Record58Lowers()
    ensures LoweringRecord(Table, 58)
    ensures SearchesFor(Values, Transforms[58].search, I2F(64), 64, U2U(16), 16, 64)
    ensures Transforms[58].search == 122
  {
    AllValuesOrdered();
    assert Transforms[58] == Rule(122, 123, 0);
    assert Src(Values, 122, 0) == 6;
    assert Src(Values, 6, 0) == 5;
    assert Src(Values, 123, 0) == 45;
    assert Src(Values, 45, 0) == 44;
    assert Src(Values, 44, 0) == 5;
    assert Src(Values, 44, 1) == 43;
    assert Src(Values, 45, 1) == 43;
  }

  lemma Record58Matches(x: Term)
    requires WellFormed(Table, |Flags|) && x.bitSize == 64
    ensures Applies(Table, Flags, 58, Alu(I2F(64), 64, [Alu(U2U(16), 16, [x])]))
  {
    Record58Lowers();
    SearchMatches(Values, 122, I2F(64), 64, U2U(16), 16, 64, x);
  }

  lemma LoweringRun55()
    ensures forall j :: 55 <= j < 59 ==> LoweringRecord(Table, j)
  {
    Record55Lowers();
    Record56Lowers();
    Record57Lowers();
    Record58Lowers();
    forall j | 55 <= j < 59
      ensures LoweringRecord(Table, j)
    {
      assert j == 55 || j == 56 || j == 57 || j == 58;
    }
  }

  lemma Record60Lowers()
    ensures LoweringRecord(Table, 60)
    ensures SearchesFor(Values, Transforms[60].search, I2F(32), 32, I2I(16), 16, 32)
    ensures Transforms[60].search == 105
  {
    AllValuesOrdered();
    assert Transforms[60] == Rule(105, 102, 0);
    assert Src(Values, 105, 0) == 11;
    assert Src(Values, 11, 0) == 0;
    assert Src(Values, 102, 0) == 40;
    assert Src(Values, 40, 0) == 39;
    assert Src(Values, 39, 0) == 0;
    assert Src(Values, 39, 1) == 38;
    assert Src(Values, 40, 1) == 38;
  }

  lemma Record60Matches(x: Term)
    requires WellFormed(Table, |Flags|) && x.bitSize == 32
    ensures Applies(Table, Flags, 60, Alu(I2F(32), 32, [Alu(I2I(16), 16, [x])]))
  {
    Record60Lowers();
    SearchMatches(Values, 105, I2F(32), 32, I2I(16), 16, 32, x);
  }

  lemma Record61Lowers()
    ensures LoweringRecord(Table, 61)
    ensures SearchesFor(Values, Transforms[61].search, I2F(32), 32, I2I(16), 16, 64)
    ensures Transforms[61].search == 106
  {
    AllValuesOrdered();
    assert Transforms[61] == Rule(106, 104, 0);
    assert Src(Values, 106, 0) == 14;
    assert Src(Values, 14, 0) == 5;
    assert Src(Values, 104, 0) == 45;
    assert Src(Values, 45, 0) == 44;
    assert Src(Values, 44, 0) == 5;
    assert Src(Values, 44, 1) == 43;
    assert Src(Values, 45, 1) == 43;
  }

  lemma Record61Matches(x: Term)
    requires WellFormed(Table, |Flags|) && x.bitSize == 64
    ensures Applies(Table, Flags, 61, Alu(I2F(32), 32, [Alu(I2I(16), 16, [x])]))
  {
    Record61Lowers();
    SearchMatches(Values, 106, I2F(32), 32, I2I(16), 16, 64, x);
  }

  lemma Record62Lowers()
    ensures LoweringRecord(Table, 62)
    ensures SearchesFor(Values, Transforms[62].search, I2F(64), 64, I2I(16), 16, 32)
    ensures Transforms[62].search == 124
  {
    AllValuesOrdered();
    assert Transforms[62] == Rule(124, 121, 0);
    assert Src(Values, 124, 0) == 11;
    assert Src(Values, 11, 0) == 0;
    assert Src(Values, 121, 0) == 40;
    assert Src(Values, 40, 0) == 39;
    assert Src(Values, 39, 0) == 0;
    assert Src(Values, 39, 1) == 38;
    assert Src(Values, 40, 1) == 38;
  }

  lemma Record62Matches(x: Term)
    requires WellFormed(Table, |Flags|) && x.bitSize == 32
    ensures Applies(Table, Flags, 62, Alu(I2F(64), 64, [Alu(I2I(16), 16, [x])]))
  {
    Record62Lowers();
    SearchMatches(Values, 124, I2F(64), 64, I2I(16), 16, 32, x);
  }

  lemma Record63Lowers()
    ensures LoweringRecord(Table, 63)
    ensures SearchesFor(Values, Transforms[63].search, I2F(64), 64, I2I(16), 16, 64)
    ensures Transforms[63].search == 125
  {
    AllValuesOrdered();
    assert Transforms[63] == Rule(125, 123, 0);
    assert Src(Values, 125, 0) == 14;
    assert Src(Values, 14, 0) == 5;
    assert Src(Values, 123, 0) == 45;
    assert Src(Values, 45, 0) == 44;
    assert Src(Values, 44, 0) == 5;
    assert Src(Values, 44, 1) == 43;
    assert Src(Values, 45, 1) == 43;
  }

  lemma Record63Matches(x: Term)
    requires WellFormed(Table, |Flags|) && x.bitSize == 64
    ensures Applies(Table, Flags, 63, Alu(I2F(64), 64, [Alu(I2I(16), 16, [x])]))
  {
    Record63Lowers();
    SearchMatches(Values, 125, I2F(64), 64, I2I(16), 16, 64, x);
  }

  lemma LoweringRun60()
    ensures forall j :: 60 <= j < 64 ==> LoweringRecord(Table, j)
  {
    Record60Lowers();
    Record61Lowers();
    Record62Lowers();
    Record63Lowers();
    forall j | 60 <= j < 64
      ensures LoweringRecord(Table, j)
    {
      assert j == 60 || j == 61 || j == 62 || j == 63;
    }
  }

  lemma U2uOfU2u16Applies(n: nat, w: nat, x: Term)
    requires WellFormed(Table, |Flags|)
    requires Wide(n) && Wide(w) && x.bitSize == w
    ensures Applies(Table, Flags, RunRecord(1, n, w), Alu(U2U(n), n, [Alu(U2U(16), 16, [x])]))
  {
    if n == 32 && w == 32 {
      assert RunRecord(1, n, w) == 1;
      Record1Matches(x);
    } else if n == 32 && w == 64 {
      assert RunRecord(1, n, w) == 2;
      Record2Matches(x);
    } else if n == 64 && w == 32 {
      assert RunRecord(1, n, w) == 3;
      Record3Matches(x);
    } else {
      assert RunRecord(1, n, w) == 4;
      Record4Matches(x);
    }
  }

  /** `u2u` of an `u2u16` narrowing is rewritten by one of records 1 to 4, keeping its value. */
  lemma U2uOfU2u16Lowered(n: nat, w: nat, x: Term, env: Env)
    requires Wide(n) && Wide(w) && x.bitSize == w
    ensures Apply(Alu(U2U(n), n, [Alu(U2U(16), 16, [x])])).Some?
    ensures Eval(env, Apply(Alu(U2U(n), n, [Alu(U2U(16), 16, [x])])).value) == Eval(env, Alu(U2U(n), n, [Alu(U2U(16), 16, [x])]))
  {
    TableWellFormed();
    U2uNarrowState(x);
    U2uOfU2u16State(n, Alu(U2U(16), 16, [x]));
    RunOffsets();
    U2uOfU2u16Applies(n, w, x);
    LoweringRun1();
    RunRewriteSound(Table, Flags, Alu(U2U(n), n, [Alu(U2U(16), 16, [x])]), RunRecord(1, n, w), 5, env);
  }

  lemma U2uOfI2i16Applies(n: nat, w: nat, x: Term)
    requires WellFormed(Table, |Flags|)
    requires Wide(n) && Wide(w) && x.bitSize == w
    ensures Applies(Table, Flags, RunRecord(6, n, w), Alu(U2U(n), n, [Alu(I2I(16), 16, [x])]))
  {
    if n == 32 && w == 32 {
      assert RunRecord(6, n, w) == 6;
      Record6Matches(x);
    } else if n == 32 && w == 64 {
      assert RunRecord(6, n, w) == 7;
      Record7Matches(x);
    } else if n == 64 && w == 32 {
      assert RunRecord(6, n, w) == 8;
      Record8Matches(x);
    } else {
      assert RunRecord(6, n, w) == 9;
      Record9Matches(x);
    }
  }

  /** `u2u` of an `i2i16` narrowing is rewritten by one of records 6 to 9, keeping its value. */
  lemma U2uOfI2i16Lowered(n: nat, w: nat, x: Term, env: Env)
    requires Wide(n) && Wide(w) && x.bitSize == w
    ensures Apply(Alu(U2U(n), n, [Alu(I2I(16), 16, [x])])).Some?
    ensures Eval(env, Apply(Alu(U2U(n), n, [Alu(I2I(16), 16, [x])])).value) == Eval(env, Alu(U2U(n), n, [Alu(I2I(16), 16, [x])]))
  {
    TableWellFormed();
    I2iNarrowState(x);
    U2uOfI2i16State(n, Alu(I2I(16), 16, [x]));
    RunOffsets();
    U2uOfI2i16Applies(n, w, x);
    LoweringRun6();
    RunRewriteSound(Table, Flags, Alu(U2U(n), n, [Alu(I2I(16), 16, [x])]), RunRecord(6, n, w), 10, env);
  }

  lemma I2iOfU2u16Applies(n: nat, w: nat, x: Term)
    requires WellFormed(Table, |Flags|)
    requires Wide(n) && Wide(w) && x.bitSize == w
    ensures Applies(Table, Flags, RunRecord(19, n, w), Alu(I2I(n), n, [Alu(U2U(16), 16, [x])]))
  {
    if n == 32 && w == 32 {
      assert RunRecord(19, n, w) == 19;
      Record19Matches(x);
    } else if n == 32 && w == 64 {
      assert RunRecord(19, n, w) == 20;
      Record20Matches(x);
    } else if n == 64 && w == 32 {
      assert RunRecord(19, n, w) == 21;
      Record21Matches(x);
    } else {
      assert RunRecord(19, n, w) == 22;
      Record22Matches(x);
    }
  }

  /** `i2i` of an `u2u16` narrowing is rewritten by one of records 19 to 22, keeping its value. */
  lemma I2iOfU2u16Lowered(n: nat, w: nat, x: Term, env: Env)
    requires Wide(n) && Wide(w) && x.bitSize == w
    ensures Apply(Alu(I2I(n), n, [Alu(U2U(16), 16, [x])])).Some?
    ensures Eval(env, Apply(Alu(I2I(n), n, [Alu(U2U(16), 16, [x])])).value) == Eval(env, Alu(I2I(n), n, [Alu(U2U(16), 16, [x])]))
  {
    TableWellFormed();
    U2uNarrowState(x);
    I2iOfU2u16State(n, Alu(U2U(16), 16, [x]));
    RunOffsets();
    I2iOfU2u16Applies(n, w, x);
    LoweringRun19();
    RunRewriteSound(Table, Flags, Alu(I2I(n), n, [Alu(U2U(16), 16, [x])]), RunRecord(19, n, w), 23, env);
  }

  lemma I2iOfI2i16Applies(n: nat, w: nat, x: Term)
    requires WellFormed(Table, |Flags|)
    requires Wide(n) && Wide(w) && x.bitSize == w
    ensures Applies(Table, Flags, RunRecord(24, n, w), Alu(I2I(n), n, [Alu(I2I(16), 16, [x])]))
  {
    if n == 32 && w == 32 {
      assert RunRecord(24, n, w) == 24;
      Record24Matches(x);
    } else if n == 32 && w == 64 {
      assert RunRecord(24, n, w) == 25;
      Record25Matches(x);
    } else if n == 64 && w == 32 {
      assert RunRecord(24, n, w) == 26;
      Record26Matches(x);
    } else {
      assert RunRecord(24, n, w) == 27;
      Record27Matches(x);
    }
  }

  /** `i2i` of an `i2i16` narrowing is rewritten by one of records 24 to 27, keeping its value. */
  lemma I2iOfI2i16Lowered(n: nat, w: nat, x: Term, env: Env)
    requires Wide(n) && Wide(w) && x.bitSize == w
    ensures Apply(Alu(I2I(n), n, [Alu(I2I(16), 16, [x])])).Some?
    ensures Eval(env, Apply(Alu(I2I(n), n, [Alu(I2I(16), 16, [x])])).value) == Eval(env, Alu(I2I(n), n, [Alu(I2I(16), 16, [x])]))
  {
    TableWellFormed();
    I2iNarrowState(x);
    I2iOfI2i16State(n, Alu(I2I(16), 16, [x]));
    RunOffsets();
    I2iOfI2i16Applies(n, w, x);
    LoweringRun24();
    RunRewriteSound(Table, Flags, Alu(I2I(n), n, [Alu(I2I(16), 16, [x])]), RunRecord(24, n, w), 28, env);
  }

  lemma U2fOfU2u16Applies(n: nat, w: nat, x: Term)
    requires WellFormed(Table, |Flags|)
    requires Wide(n) && Wide(w) && x.bitSize == w
    ensures Applies(Table, Flags, RunRecord(35, n, w), Alu(U2F(n), n, [Alu(U2U(16), 16, [x])]))
  {
    if n == 32 && w == 32 {
      assert RunRecord(35, n, w) == 35;
      Record35Matches(x);
    } else if n == 32 && w == 64 {
      assert RunRecord(35, n, w) == 36;
      Record36Matches(x);
    } else if n == 64 && w == 32 {
      assert RunRecord(35, n, w) == 37;
      Record37Matches(x);
    } else {
      assert RunRecord(35, n, w) == 38;
      Record38Matches(x);
    }
  }

  /** `u2f` of an `u2u16` narrowing is rewritten by one of records 35 to 38, keeping its value. */
  lemma U2fOfU2u16Lowered(n: nat, w: nat, x: Term, env: Env)
    requires Wide(n) && Wide(w) && x.bitSize == w
    ensures Apply(Alu(U2F(n), n, [Alu(U2U(16), 16, [x])])).Some?
    ensures Eval(env, Apply(Alu(U2F(n), n, [Alu(U2U(16), 16, [x])])).value) == Eval(env, Alu(U2F(n), n, [Alu(U2U(16), 16, [x])]))
  {
    TableWellFormed();
    U2uNarrowState(x);
    U2fOfU2u16State(n, Alu(U2U(16), 16, [x]));
    RunOffsets();
    U2fOfU2u16Applies(n, w, x);
    LoweringRun35();
    RunRewriteSound(Table, Flags, Alu(U2F(n), n, [Alu(U2U(16), 16, [x])]), RunRecord(35, n, w), 39, env);
  }

  lemma U2fOfI2i16Applies(n: nat, w: nat, x: Term)
    requires WellFormed(Table, |Flags|)
    requires Wide(n) && Wide(w) && x.bitSize == w
    ensures Applies(Table, Flags, RunRecord(40, n, w), Alu(U2F(n), n, [Alu(I2I(16), 16, [x])]))
  {
    if n == 32 && w == 32 {
      assert RunRecord(40, n, w) == 40;
      Record40Matches(x);
    } else if n == 32 && w == 64 {
      assert RunRecord(40, n, w) == 41;
      Record41Matches(x);
    } else if n == 64 && w == 32 {
      assert RunRecord(40, n, w) == 42;
      Record42Matches(x);
    } else {
      assert RunRecord(40, n, w) == 43;
      Record43Matches(x);
    }
  }

  /** `u2f` of an `i2i16` narrowing is rewritten by one of records 40 to 43, keeping its value. */
  lemma U2fOfI2i16Lowered(n: nat, w: nat, x: Term, env: Env)
    requires Wide(n) && Wide(w) && x.bitSize == w
    ensures Apply(Alu(U2F(n), n, [Alu(I2I(16), 16, [x])])).Some?
    ensures Eval(env, Apply(Alu(U2F(n), n, [Alu(I2I(16), 16, [x])])).value) == Eval(env, Alu(U2F(n), n, [Alu(I2I(16), 16, [x])]))
  {
    TableWellFormed();
    I2iNarrowState(x);
    U2fOfI2i16State(n, Alu(I2I(16), 16, [x]));
    RunOffsets();
    U2fOfI2i16Applies(n, w, x);
    LoweringRun40();
    RunRewriteSound(Table, Flags, Alu(U2F(n), n, [Alu(I2I(16), 16, [x])]), RunRecord(40, n, w), 44, env);
  }

  lemma I2fOfU2u16Applies(n: nat, w: nat, x: Term)
    requires WellFormed(Table, |Flags|)
    requires Wide(n) && Wide(w) && x.bitSize == w
    ensures Applies(Table, Flags, RunRecord(55, n, w), Alu(I2F(n), n, [Alu(U2U(16), 16, [x])]))
  {
    if n == 32 && w == 32 {
      assert RunRecord(55, n, w) == 55;
      Record55Matches(x);
    } else if n == 32 && w == 64 {
      assert RunRecord(55, n, w) == 56;
      Record56Matches(x);
    } else if n == 64 && w == 32 {
      assert RunRecord(55, n, w) == 57;
      Record57Matches(x);
    } else {
      assert RunRecord(55, n, w) == 58;
      Record58Matches(x);
    }
  }

  /** `i2f` of an `u2u16` narrowing is rewritten by one of records 55 to 58, keeping its value. */
  lemma I2fOfU2u16Lowered(n: nat, w: nat, x: Term, env: Env)
    requires Wide(n) && Wide(w) && x.bitSize == w
    ensures Apply(Alu(I2F(n), n, [Alu(U2U(16), 16, [x])])).Some?
    ensures Eval(env, Apply(Alu(I2F(n), n, [Alu(U2U(16), 16, [x])])).value) == Eval(env, Alu(I2F(n), n, [Alu(U2U(16), 16, [x])]))
  {
    TableWellFormed();
    U2uNarrowState(x);
    I2fOfU2u16State(n, Alu(U2U(16), 16, [x]));
    RunOffsets();
    I2fOfU2u16Applies(n, w, x);
    LoweringRun55();
    RunRewriteSound(Table, Flags, Alu(I2F(n), n, [Alu(U2U(16), 16, [x])]), RunRecord(55, n, w), 59, env);
  }

  lemma I2fOfI2i16Applies(n: nat, w: nat, x: Term)
    requires WellFormed(Table, |Flags|)
    requires Wide(n) && Wide(w) && x.bitSize == w
    ensures Applies(Table, Flags, RunRecord(60, n, w), Alu(I2F(n), n, [Alu(I2I(16), 16, [x])]))
  {
    if n == 32 && w == 32 {
      assert RunRecord(60, n, w) == 60;
      Record60Matches(x);
    } else if n == 32 && w == 64 {
      assert RunRecord(60, n, w) == 61;
      Record61Matches(x);
    } else if n == 64 && w == 32 {
      assert RunRecord(60, n, w) == 62;
      Record62Matches(x);
    } else {
      assert RunRecord(60, n, w) == 63;
      Record63Matches(x);
    }
  }

  /** `i2f` of an `i2i16` narrowing is rewritten by one of records 60 to 63, keeping its value. */
  lemma I2fOfI2i16Lowered(n: nat, w: nat, x: Term, env: Env)
    requires Wide(n) && Wide(w) && x.bitSize == w
    ensures Apply(Alu(I2F(n), n, [Alu(I2I(16), 16, [x])])).Some?
    ensures Eval(env, Apply(Alu(I2F(n), n, [Alu(I2I(16), 16, [x])])).value) == Eval(env, Alu(I2F(n), n, [Alu(I2I(16), 16, [x])]))
  {
    TableWellFormed();
    I2iNarrowState(x);
    I2fOfI2i16State(n, Alu(I2I(16), 16, [x]));
    RunOffsets();
    I2fOfI2i16Applies(n, w, x);
    LoweringRun60();
    RunRewriteSound(Table, Flags, Alu(I2F(n), n, [Alu(I2I(16), 16, [x])]), RunRecord(60, n, w), 64, env);
  }

  /**
    The pass rewrites every u2u, i2i, u2f or i2f conversion to width `n` of a 16-bit
    u2u or i2i narrowing of any `w`-bit value (an SSA value, a literal, or an instruction the
    automaton tracks, such as another conversion), and the rewritten instruction has the
    value of the original.
  */
  lemma NarrowingConversionLowered(outer: Opcode, inner: Opcode, n: nat, w: nat, x: Term, env: Env)
    requires outer == U2U(n) || outer == I2I(n) || outer == U2F(n) || outer == I2F(n)
    requires inner == U2U(16) || inner == I2I(16)
    requires Wide(n) && Wide(w) && x.bitSize == w
    ensures Apply(Alu(outer, n, [Alu(inner, 16, [x])])).Some?
    ensures Eval(env, Apply(Alu(outer, n, [Alu(inner, 16, [x])])).value) == Eval(env, Alu(outer, n, [Alu(inner, 16, [x])]))
  {
    if outer == U2U(n) && inner == U2U(16) {
      U2uOfU2u16Lowered(n, w, x, env);
    } else if outer == U2U(n) && inner == I2I(16) {
      U2uOfI2i16Lowered(n, w, x, env);
    } else if outer == I2I(n) && inner == U2U(16) {
      I2iOfU2u16Lowered(n, w, x, env);
    } else if outer == I2I(n) && inner == I2I(16) {
      I2iOfI2i16Lowered(n, w, x, env);
    } else if outer == U2F(n) && inner == U2U(16) {
      U2fOfU2u16Lowered(n, w, x, env);
    } else if outer == U2F(n) && inner == I2I(16) {
      U2fOfI2i16Lowered(n, w, x, env);
    } else if outer == I2F(n) && inner == U2U(16) {
      I2fOfU2u16Lowered(n, w, x, env);
    } else {
      I2fOfI2i16Lowered(n, w, x, env);
    }
  }

  /** The automaton's base states: SSA values are in state 0 and literals in state 1. */
  lemma SourceStates(id: nat, w: nat, kind: ConstType, bits: nat)
    ensures State(Ssa(id, w)) == 0
    ensures State(Lit(w, kind, bits)) == ConstState
  {
    TableWellFormed();
  }

}
