/**
  The compiled rule tables of the `dxil_nir_algebraic` pass, which rewrites the two
  boolean-width conversions DXIL has no instruction for.
*/
module DxilAlgebraic {
  import opened Wrappers
  import opened NirSearch

  /**
    Slot `i` of the value array; indices past the end are never read.
    The slots are split into blocks of 16 so that each block is checked on its own.
  */
  function Value(i: int): Slot {
    ValueBlock0(i)
  }

  function ValueBlock0(i: int): Slot {
    match i
    case 0 => Variable(-1, 0)
    case 1 => Expression(32, B2B(32), -1, 0, [0], -1)
    case 2 => Expression(32, B2I(32), -1, 0, [0], -1)
    case 3 => Expression(1, B2B(1), -1, 0, [0], -1)
    case 4 => Constant(32, IntType, 0x0)
    case 5 => Expression(1, INe, 0, 1, [2, 4], -1)
    case _ => Variable(-1, 0)
  }

  function ValueArray(): seq<Slot> { seq(6, Value) }
  const Values: seq<Slot> := ValueArray()

  /**
    Record `i` of the transform array; each run of rules ends at a sentinel.
    The records are split into blocks of 16 so that each block is checked on its own.
  */
  function Record(i: int): Transform {
    RecordBlock0(i)
  }

  function RecordBlock0(i: int): Transform {
    match i
    case 0 => Sentinel
    case 1 => Rule(1, 2, 0)
    case 2 => Sentinel
    case 3 => Rule(3, 5, 0)
    case 4 => Sentinel
    case _ => Sentinel
  }

  function TransformArray(): seq<Transform> { seq(5, Record) }
  const Transforms: seq<Transform> := TransformArray()

  const B2b32Dispatch := PerOpTable(None, 1, [2])
  const B2b1Dispatch := PerOpTable(None, 1, [3])

  /** The per-opcode dispatch tables, keyed by conversion family or opcode. */
  const OpTables: seq<(SearchOp, PerOpTable)> := [(Exact(B2B(32)), B2b32Dispatch), (Exact(B2B(1)), B2b1Dispatch)]

  /** First record of the run of each automaton state; 0 (the leading sentinel) for states with no rules. */
  const TransformOffsets: seq<nat> := [0, 0, 1, 3]

  const Table := AlgebraicTable(Values, Transforms, OpTables, TransformOffsets)

  /** The pass has one condition flag, set unconditionally. */
  const Flags: seq<bool> := [true]

  // ---------------------------------------------------------------------------
  // Load-time checks, proved block by block

  lemma ValuesOrdered0()
    ensures forall i :: 0 <= i < 6 ==> SlotOrdered(Value(i), i)
  {
  }

  lemma RecordsInBounds0()
    ensures forall i :: 0 <= i < 5 ==> TransformInBounds(Record(i), 6, 1)
  {
  }

  lemma B2b32DispatchOk()
    ensures PerOpOk(B2b32Dispatch, 4)
  {
  }

  lemma B2b1DispatchOk()
    ensures PerOpOk(B2b1Dispatch, 4)
  {
  }

  lemma OpTablesOk()
    ensures forall e :: e in OpTables ==> UnaryKey(e.0) && PerOpOk(e.1, |TransformOffsets|)
  {
    B2b32DispatchOk();
    B2b1DispatchOk();
  }

  lemma OffsetsInRange()
    ensures forall s :: 0 <= s < |TransformOffsets| ==> TransformOffsets[s] <= |Transforms|
  {
  }

  lemma AllValuesOrdered()
    ensures ValuesOrdered(Values)
  {
    ValuesOrdered0();
    forall i | 0 <= i < |Values|
      ensures SlotOrdered(Values[i], i)
    {
      assert Values[i] == Value(i);
    }
  }

  lemma AllRecordsInBounds()
    ensures forall i :: 0 <= i < |Transforms| ==> TransformInBounds(Transforms[i], |Values|, |Flags|)
  {
    RecordsInBounds0();
    forall i | 0 <= i < |Transforms|
      ensures TransformInBounds(Transforms[i], |Values|, |Flags|)
    {
      assert Transforms[i] == Record(i);
    }
  }

  /** The tables pass every index check the engine relies on. */
  lemma TableWellFormed()
    ensures WellFormed(Table, |Flags|)
  {
    AllValuesOrdered();
    AllRecordsInBounds();
    OpTablesOk();
    OffsetsInRange();
  }

  // ---------------------------------------------------------------------------
  // Run layout

  lemma Sentinel0()
    ensures Table.transforms[0] == Sentinel
  {
    assert Transforms[0] == Record(0);
  }

  lemma Sentinel2()
    ensures Table.transforms[2] == Sentinel
  {
    assert Transforms[2] == Record(2);
  }

  lemma Sentinel4()
    ensures Table.transforms[4] == Sentinel
  {
    assert Transforms[4] == Record(4);
  }

  lemma Rooted1()
    ensures Table.transforms[1] == Rule(1, 2, 0) && RootOf(Table.values, 1, Exact(B2B(32)))
  {
    assert Transforms[1] == Record(1);
    assert Values[1] == Value(1);
  }

  lemma Rooted3()
    ensures Table.transforms[3] == Rule(3, 5, 0) && RootOf(Table.values, 3, Exact(B2B(1)))
  {
    assert Transforms[3] == Record(3);
    assert Values[3] == Value(3);
  }

  /** The run of state 2: records 1 to 1, all searching for `Exact(B2B(32))`, closed by the sentinel at 2. */
  lemma Run1()
    ensures StartsRun(Table.transforms, 1) && RunRooted(Table, Exact(B2B(32)), 2)
  {
    Sentinel0();
    Sentinel2();
    Rooted1();
    assert RootedRange(Table, Exact(B2B(32)), 1, 2);
    RunRootedAt(Table, Exact(B2B(32)), 2, 2);
  }

  /** The run of state 3: records 3 to 3, all searching for `Exact(B2B(1))`, closed by the sentinel at 4. */
  lemma Run3()
    ensures StartsRun(Table.transforms, 3) && RunRooted(Table, Exact(B2B(1)), 3)
  {
    Sentinel2();
    Sentinel4();
    Rooted3();
    assert RootedRange(Table, Exact(B2B(1)), 3, 4);
    RunRootedAt(Table, Exact(B2B(1)), 3, 4);
  }

  /** Both ends are sentinels, states 0 and 1 have no rules, and every other offset starts a run. */
  lemma TableRunsDelimited()
    ensures RunsDelimited(Table)
  {
    Sentinel0();
    Sentinel4();
    Run1();
    Run3();
    assert OffsetsStartRuns(Table.transforms, TransformOffsets, 3);
    assert OffsetsStartRuns(Table.transforms, TransformOffsets, 2);
    assert OffsetsStartRuns(Table.transforms, TransformOffsets, 1);
    assert OffsetsStartRuns(Table.transforms, TransformOffsets, 0);
  }

  lemma B2b32Rooted()
    ensures FamilyRooted(Table, Exact(B2B(32)), B2b32Dispatch.table, 0)
  {
    Sentinel0();
    Run1();
    assert FamilyRooted(Table, Exact(B2B(32)), B2b32Dispatch.table, 0);
  }

  lemma B2b1Rooted()
    ensures FamilyRooted(Table, Exact(B2B(1)), B2b1Dispatch.table, 0)
  {
    Sentinel0();
    Run3();
    assert FamilyRooted(Table, Exact(B2B(1)), B2b1Dispatch.table, 0);
  }

  /** Every run a family's table leads to holds rules for that family only. */
  lemma TableRootsInFamily()
    ensures RootsInFamily(Table)
  {
    B2b32Rooted();
    B2b1Rooted();
    assert TablesRooted(Table, OpTables, 1);
    assert TablesRooted(Table, OpTables, 0);
  }

  /**
    The pass only applies to an instruction a rule whose search root is of that
    instruction's opcode family and matches without swapping sources.
  */
  lemma ChosenInOwnFamily(e: Term)
    ensures WellFormed(Table, |Flags|)
    ensures Chosen(Table, Flags, e).Some? ==>
      e.Alu? && RootOf(Values, Transforms[Chosen(Table, Flags, e).value].search, KeyOf(e.op))
  {
    TableWellFormed();
    TableRunsDelimited();
    TableRootsInFamily();
    if Chosen(Table, Flags, e).Some? {
      ChosenInFamily(Table, Flags, e);
    }
  }
}
