/**
  The compiled rule tables of the `dxil_nir_lower_16bit_conv` pass, which removes
  16-bit values from conversions the same way for the low half-word.
*/
module Lower16BitConv {
  import opened Wrappers
  import opened NirSearch

  /**
    Slot `i` of the value array; indices past the end are never read.
    The slots are split into blocks of 16 so that each block is checked on its own.
  */
  function Value(i: int): Slot {
    if i < 16 then ValueBlock0(i)
    else if i < 32 then ValueBlock16(i)
    else if i < 48 then ValueBlock32(i)
    else if i < 64 then ValueBlock48(i)
    else if i < 80 then ValueBlock64(i)
    else if i < 96 then ValueBlock80(i)
    else if i < 112 then ValueBlock96(i)
    else if i < 128 then ValueBlock112(i)
    else ValueBlock128(i)
  }

  function ValueBlock0(i: int): Slot {
    match i
    case 0 => Variable(32, 0)
    case 1 => Expression(16, U2U(16), -1, 0, [0], -1)
    case 2 => Expression(32, U2U(32), -1, 0, [1], -1)
    case 3 => Constant(32, IntType, 0xffff)
    case 4 => Expression(32, IAnd, 0, 1, [0, 3], -1)
    case 5 => Variable(64, 0)
    case 6 => Expression(16, U2U(16), -1, 0, [5], -1)
    case 7 => Expression(32, U2U(32), -1, 0, [6], -1)
    case 8 => Constant(64, IntType, 0xffff)
    case 9 => Expression(64, IAnd, 0, 1, [5, 8], -1)
    case 10 => Expression(32, U2U(32), -1, 1, [9], -1)
    case 11 => Expression(16, I2I(16), -1, 0, [0], -1)
    case 12 => Expression(32, U2U(32), -1, 0, [11], -1)
    case 13 => Expression(32, U2U(32), -1, 1, [4], -1)
    case 14 => Expression(16, I2I(16), -1, 0, [5], -1)
    case 15 => Expression(32, U2U(32), -1, 0, [14], -1)
    case _ => Variable(-1, 0)
  }

  function ValueBlock16(i: int): Slot {
    match i
    case 16 => Variable(-1, 0)
    case 17 => Expression(16, F2U(16), -1, 0, [16], -1)
    case 18 => Expression(32, U2U(32), -1, 0, [17], -1)
    case 19 => Expression(32, F2U(32), -1, 0, [16], -1)
    case 20 => Expression(32, IAnd, 0, 1, [19, 3], -1)
    case 21 => Expression(16, F2I(16), -1, 0, [16], -1)
    case 22 => Expression(32, U2U(32), -1, 0, [21], -1)
    case 23 => Expression(32, F2I(32), -1, 0, [16], -1)
    case 24 => Expression(32, IAnd, 0, 1, [23, 3], -1)
    case 25 => Expression(64, U2U(64), -1, 0, [1], -1)
    case 26 => Expression(64, U2U(64), -1, 1, [4], -1)
    case 27 => Expression(64, U2U(64), -1, 0, [6], -1)
    case 28 => Expression(64, U2U(64), -1, 0, [11], -1)
    case 29 => Expression(64, U2U(64), -1, 0, [14], -1)
    case 30 => Expression(64, U2U(64), -1, 1, [9], -1)
    case 31 => Expression(64, U2U(64), -1, 0, [17], -1)
    case _ => Variable(-1, 0)
  }

  function ValueBlock32(i: int): Slot {
    match i
    case 32 => Expression(64, F2U(64), -1, 0, [16], -1)
    case 33 => Expression(64, IAnd, 0, 1, [32, 8], -1)
    case 34 => Expression(64, U2U(64), -1, 0, [21], -1)
    case 35 => Expression(64, F2I(64), -1, 0, [16], -1)
    case 36 => Expression(64, IAnd, 0, 1, [35, 8], -1)
    case 37 => Expression(32, I2I(32), -1, 0, [1], -1)
    case 38 => Constant(32, IntType, 0x10)
    case 39 => Expression(32, IShl, -1, 0, [0, 38], -1)
    case 40 => Expression(32, IShr, -1, 0, [39, 38], -1)
    case 41 => Expression(32, I2I(32), -1, 0, [40], -1)
    case 42 => Expression(32, I2I(32), -1, 0, [6], -1)
    case 43 => Constant(32, IntType, 0x30)
    case 44 => Expression(64, IShl, -1, 0, [5, 43], -1)
    case 45 => Expression(64, IShr, -1, 0, [44, 43], -1)
    case 46 => Expression(32, I2I(32), -1, 0, [45], -1)
    case 47 => Expression(32, I2I(32), -1, 0, [11], -1)
    case _ => Variable(-1, 0)
  }

  function ValueBlock48(i: int): Slot {
    match i
    case 48 => Expression(32, I2I(32), -1, 0, [14], -1)
    case 49 => Expression(32, I2I(32), -1, 0, [17], -1)
    case 50 => Expression(32, IShl, -1, 0, [19, 38], -1)
    case 51 => Expression(32, IShr, -1, 0, [50, 38], -1)
    case 52 => Expression(32, I2I(32), -1, 0, [21], -1)
    case 53 => Expression(32, IShl, -1, 0, [23, 38], -1)
    case 54 => Expression(32, IShr, -1, 0, [53, 38], -1)
    case 55 => Expression(64, I2I(64), -1, 0, [1], -1)
    case 56 => Expression(64, I2I(64), -1, 0, [40], -1)
    case 57 => Expression(64, I2I(64), -1, 0, [6], -1)
    case 58 => Expression(64, I2I(64), -1, 0, [45], -1)
    case 59 => Expression(64, I2I(64), -1, 0, [11], -1)
    case 60 => Expression(64, I2I(64), -1, 0, [14], -1)
    case 61 => Expression(64, I2I(64), -1, 0, [17], -1)
    case 62 => Expression(64, IShl, -1, 0, [32, 43], -1)
    case 63 => Expression(64, IShr, -1, 0, [62, 43], -1)
    case _ => Variable(-1, 0)
  }

  function ValueBlock64(i: int): Slot {
    match i
    case 64 => Expression(64, I2I(64), -1, 0, [21], -1)
    case 65 => Expression(64, IShl, -1, 0, [35, 43], -1)
    case 66 => Expression(64, IShr, -1, 0, [65, 43], -1)
    case 67 => Expression(32, U2F(32), -1, 0, [1], -1)
    case 68 => Expression(32, U2F(32), -1, 1, [4], -1)
    case 69 => Expression(32, U2F(32), -1, 0, [6], -1)
    case 70 => Expression(32, U2F(32), -1, 1, [9], -1)
    case 71 => Expression(32, U2F(32), -1, 0, [11], -1)
    case 72 => Expression(32, U2F(32), -1, 0, [14], -1)
    case 73 => Expression(16, F2U(16), -1, 0, [0], -1)
    case 74 => Expression(32, U2F(32), -1, 0, [73], -1)
    case 75 => Constant(32, FloatType, 0x0)
    case 76 => Expression(32, FMax, 1, 1, [0, 75], -1)
    case 77 => Constant(32, FloatType, 0x40efffe000000000)
    case 78 => Expression(32, FMin, 0, 2, [76, 77], -1)
    case 79 => Expression(16, F2U(16), -1, 0, [5], -1)
    case _ => Variable(-1, 0)
  }

  function ValueBlock80(i: int): Slot {
    match i
    case 80 => Expression(32, U2F(32), -1, 0, [79], -1)
    case 81 => Constant(64, FloatType, 0x0)
    case 82 => Expression(64, FMax, 1, 1, [5, 81], -1)
    case 83 => Constant(64, FloatType, 0x40efffe000000000)
    case 84 => Expression(64, FMin, 0, 2, [82, 83], -1)
    case 85 => Expression(32, F2F(32), -1, 2, [84], -1)
    case 86 => Expression(16, F2I(16), -1, 0, [0], -1)
    case 87 => Expression(32, U2F(32), -1, 0, [86], -1)
    case 88 => Expression(16, F2I(16), -1, 0, [5], -1)
    case 89 => Expression(32, U2F(32), -1, 0, [88], -1)
    case 90 => Expression(64, U2F(64), -1, 0, [1], -1)
    case 91 => Expression(64, U2F(64), -1, 1, [4], -1)
    case 92 => Expression(64, U2F(64), -1, 0, [6], -1)
    case 93 => Expression(64, U2F(64), -1, 1, [9], -1)
    case 94 => Expression(64, U2F(64), -1, 0, [11], -1)
    case 95 => Expression(64, U2F(64), -1, 0, [14], -1)
    case _ => Variable(-1, 0)
  }

  function ValueBlock96(i: int): Slot {
    match i
    case 96 => Expression(64, U2F(64), -1, 0, [73], -1)
    case 97 => Expression(64, F2F(64), -1, 2, [78], -1)
    case 98 => Expression(64, U2F(64), -1, 0, [79], -1)
    case 99 => Expression(64, U2F(64), -1, 0, [86], -1)
    case 100 => Expression(64, U2F(64), -1, 0, [88], -1)
    case 101 => Expression(32, I2F(32), -1, 0, [1], -1)
    case 102 => Expression(32, I2F(32), -1, 0, [40], -1)
    case 103 => Expression(32, I2F(32), -1, 0, [6], -1)
    case 104 => Expression(32, I2F(32), -1, 0, [45], -1)
    case 105 => Expression(32, I2F(32), -1, 0, [11], -1)
    case 106 => Expression(32, I2F(32), -1, 0, [14], -1)
    case 107 => Expression(32, I2F(32), -1, 0, [73], -1)
    case 108 => Constant(32, FloatType, 0xc0e0000000000000)
    case 109 => Expression(32, FMax, 1, 1, [0, 108], -1)
    case 110 => Constant(32, FloatType, 0x40dfffc000000000)
    case 111 => Expression(32, FMin, 0, 2, [109, 110], -1)
    case _ => Variable(-1, 0)
  }

  function ValueBlock112(i: int): Slot {
    match i
    case 112 => Expression(32, I2F(32), -1, 0, [79], -1)
    case 113 => Constant(64, FloatType, 0xc0e0000000000000)
    case 114 => Expression(64, FMax, 1, 1, [5, 113], -1)
    case 115 => Constant(64, FloatType, 0x40dfffc000000000)
    case 116 => Expression(64, FMin, 0, 2, [114, 115], -1)
    case 117 => Expression(32, F2F(32), -1, 2, [116], -1)
    case 118 => Expression(32, I2F(32), -1, 0, [86], -1)
    case 119 => Expression(32, I2F(32), -1, 0, [88], -1)
    case 120 => Expression(64, I2F(64), -1, 0, [1], -1)
    case 121 => Expression(64, I2F(64), -1, 0, [40], -1)
    case 122 => Expression(64, I2F(64), -1, 0, [6], -1)
    case 123 => Expression(64, I2F(64), -1, 0, [45], -1)
    case 124 => Expression(64, I2F(64), -1, 0, [11], -1)
    case 125 => Expression(64, I2F(64), -1, 0, [14], -1)
    case 126 => Expression(64, I2F(64), -1, 0, [73], -1)
    case 127 => Expression(64, F2F(64), -1, 2, [111], -1)
    case _ => Variable(-1, 0)
  }

  function ValueBlock128(i: int): Slot {
    match i
    case 128 => Expression(64, I2F(64), -1, 0, [79], -1)
    case 129 => Expression(64, I2F(64), -1, 0, [86], -1)
    case 130 => Expression(64, I2F(64), -1, 0, [88], -1)
    case 131 => Expression(32, F2F(32), -1, 0, [1], -1)
    case 132 => Expression(32, UnpackHalf2x16SplitX, -1, 0, [0], -1)
    case 133 => Expression(16, F2F16Rtz, -1, 0, [0], -1)
    case 134 => Expression(32, U2U(32), -1, 0, [133], -1)
    case 135 => Constant(32, IntType, 0x0)
    case 136 => Expression(32, PackHalf2x16Split, -1, 0, [0, 135], -1)
    case _ => Variable(-1, 0)
  }

  function ValueArray(): seq<Slot> { seq(137, Value) }
  const Values: seq<Slot> := ValueArray()

  /**
    Record `i` of the transform array; each run of rules ends at a sentinel.
    The records are split into blocks of 16 so that each block is checked on its own.
  */
  function Record(i: int): Transform {
    if i < 16 then RecordBlock0(i)
    else if i < 32 then RecordBlock16(i)
    else if i < 48 then RecordBlock32(i)
    else if i < 64 then RecordBlock48(i)
    else RecordBlock64(i)
  }

  function RecordBlock0(i: int): Transform {
    match i
    case 0 => Sentinel
    case 1 => Rule(2, 4, 0)
    case 2 => Rule(7, 10, 0)
    case 3 => Rule(25, 26, 0)
    case 4 => Rule(27, 9, 0)
    case 5 => Sentinel
    case 6 => Rule(12, 13, 0)
    case 7 => Rule(15, 10, 0)
    case 8 => Rule(28, 26, 0)
    case 9 => Rule(29, 30, 0)
    case 10 => Sentinel
    case 11 => Rule(18, 20, 0)
    case 12 => Rule(31, 33, 0)
    case 13 => Sentinel
    case 14 => Rule(22, 24, 0)
    case 15 => Rule(34, 36, 0)
    case _ => Sentinel
  }

  function RecordBlock16(i: int): Transform {
    match i
    case 16 => Sentinel
    case 17 => Rule(134, 136, 0)
    case 18 => Sentinel
    case 19 => Rule(37, 41, 0)
    case 20 => Rule(42, 46, 0)
    case 21 => Rule(55, 56, 0)
    case 22 => Rule(57, 58, 0)
    case 23 => Sentinel
    case 24 => Rule(47, 40, 0)
    case 25 => Rule(48, 46, 0)
    case 26 => Rule(59, 56, 0)
    case 27 => Rule(60, 45, 0)
    case 28 => Sentinel
    case 29 => Rule(49, 51, 0)
    case 30 => Rule(61, 63, 0)
    case 31 => Sentinel
    case _ => Sentinel
  }

  function RecordBlock32(i: int): Transform {
    match i
    case 32 => Rule(52, 54, 0)
    case 33 => Rule(64, 66, 0)
    case 34 => Sentinel
    case 35 => Rule(67, 68, 0)
    case 36 => Rule(69, 70, 0)
    case 37 => Rule(90, 91, 0)
    case 38 => Rule(92, 93, 0)
    case 39 => Sentinel
    case 40 => Rule(71, 68, 0)
    case 41 => Rule(72, 70, 0)
    case 42 => Rule(94, 91, 0)
    case 43 => Rule(95, 93, 0)
    case 44 => Sentinel
    case 45 => Rule(74, 78, 0)
    case 46 => Rule(80, 85, 0)
    case 47 => Rule(96, 97, 0)
    case _ => Sentinel
  }

  function RecordBlock48(i: int): Transform {
    match i
    case 48 => Rule(98, 84, 0)
    case 49 => Sentinel
    case 50 => Rule(87, 78, 0)
    case 51 => Rule(89, 85, 0)
    case 52 => Rule(99, 97, 0)
    case 53 => Rule(100, 84, 0)
    case 54 => Sentinel
    case 55 => Rule(101, 102, 0)
    case 56 => Rule(103, 104, 0)
    case 57 => Rule(120, 121, 0)
    case 58 => Rule(122, 123, 0)
    case 59 => Sentinel
    case 60 => Rule(105, 102, 0)
    case 61 => Rule(106, 104, 0)
    case 62 => Rule(124, 121, 0)
    case 63 => Rule(125, 123, 0)
    case _ => Sentinel
  }

  function RecordBlock64(i: int): Transform {
    match i
    case 64 => Sentinel
    case 65 => Rule(107, 111, 0)
    case 66 => Rule(112, 117, 0)
    case 67 => Rule(126, 127, 0)
    case 68 => Rule(128, 116, 0)
    case 69 => Sentinel
    case 70 => Rule(118, 111, 0)
    case 71 => Rule(119, 117, 0)
    case 72 => Rule(129, 127, 0)
    case 73 => Rule(130, 116, 0)
    case 74 => Sentinel
    case 75 => Rule(131, 132, 0)
    case 76 => Sentinel
    case _ => Sentinel
  }

  function TransformArray(): seq<Transform> { seq(77, Record) }
  const Transforms: seq<Transform> := TransformArray()

  const U2uDispatch := PerOpTable(Some([0, 0, 1, 2, 3, 4, 5, 1, 1, 1, 1, 1, 2, 2, 2, 2, 0, 0, 0, 0, 0, 0, 0, 0, 0]), 6, [2, 7, 8, 9, 10, 11])
  const I2iDispatch := PerOpTable(Some([0, 0, 1, 2, 3, 4, 0, 1, 1, 1, 1, 1, 2, 2, 2, 2, 0, 0, 0, 0, 0, 0, 0, 0, 0]), 5, [3, 12, 13, 14, 15])
  const F2uDispatch := PerOpTable(None, 1, [4])
  const F2iDispatch := PerOpTable(None, 1, [5])
  const U2fDispatch := PerOpTable(Some([0, 0, 1, 2, 3, 4, 0, 1, 1, 1, 1, 1, 2, 2, 2, 2, 0, 0, 0, 0, 0, 0, 0, 0, 0]), 5, [0, 16, 17, 18, 19])
  const I2fDispatch := PerOpTable(Some([0, 0, 1, 2, 3, 4, 0, 1, 1, 1, 1, 1, 2, 2, 2, 2, 0, 0, 0, 0, 0, 0, 0, 0, 0]), 5, [0, 20, 21, 22, 23])
  const F2fDispatch := PerOpTable(Some([0, 0, 1, 0, 0, 0, 0, 1, 1, 1, 1, 1, 0, 0, 0, 0, 0, 0, 0, 0, 0, 0, 0, 0, 0]), 2, [0, 24])
  const F2f16RtzDispatch := PerOpTable(None, 1, [6])

  /** The per-opcode dispatch tables, keyed by conversion family or opcode. */
  const OpTables: seq<(SearchOp, PerOpTable)> := [(FamU2U, U2uDispatch), (FamI2I, I2iDispatch), (FamF2U, F2uDispatch), (FamF2I, F2iDispatch), (FamU2F, U2fDispatch), (FamI2F, I2fDispatch), (FamF2F, F2fDispatch), (Exact(F2F16Rtz), F2f16RtzDispatch)]

  /** First record of the run of each automaton state; 0 (the leading sentinel) for states with no rules. */
  const TransformOffsets: seq<nat> := [0, 0, 0, 0, 0, 0, 0, 1, 6, 11, 14, 17, 19, 24, 29, 32, 35, 40, 45, 50, 55, 60, 65, 70, 75]

  const Table := AlgebraicTable(Values, Transforms, OpTables, TransformOffsets)

  /** The pass has one condition flag, set unconditionally. */
  const Flags: seq<bool> := [true]

  // ---------------------------------------------------------------------------
  // Load-time checks, proved block by block

  lemma ValuesOrdered0()
    ensures forall i :: 0 <= i < 16 ==> SlotOrdered(Value(i), i)
  {
  }

  lemma ValuesOrdered16()
    ensures forall i :: 16 <= i < 32 ==> SlotOrdered(Value(i), i)
  {
  }

  lemma ValuesOrdered32()
    ensures forall i :: 32 <= i < 48 ==> SlotOrdered(Value(i), i)
  {
  }

  lemma ValuesOrdered48()
    ensures forall i :: 48 <= i < 64 ==> SlotOrdered(Value(i), i)
  {
  }

  lemma ValuesOrdered64()
    ensures forall i :: 64 <= i < 80 ==> SlotOrdered(Value(i), i)
  {
  }

  lemma ValuesOrdered80()
    ensures forall i :: 80 <= i < 96 ==> SlotOrdered(Value(i), i)
  {
  }

  lemma ValuesOrdered96()
    ensures forall i :: 96 <= i < 112 ==> SlotOrdered(Value(i), i)
  {
  }

  lemma ValuesOrdered112()
    ensures forall i :: 112 <= i < 128 ==> SlotOrdered(Value(i), i)
  {
  }

  lemma ValuesOrdered128()
    ensures forall i :: 128 <= i < 137 ==> SlotOrdered(Value(i), i)
  {
  }

  lemma RecordsInBounds0()
    ensures forall i :: 0 <= i < 16 ==> TransformInBounds(Record(i), 137, 1)
  {
  }

  lemma RecordsInBounds16()
    ensures forall i :: 16 <= i < 32 ==> TransformInBounds(Record(i), 137, 1)
  {
  }

  lemma RecordsInBounds32()
    ensures forall i :: 32 <= i < 48 ==> TransformInBounds(Record(i), 137, 1)
  {
  }

  lemma RecordsInBounds48()
    ensures forall i :: 48 <= i < 64 ==> TransformInBounds(Record(i), 137, 1)
  {
  }

  lemma RecordsInBounds64()
    ensures forall i :: 64 <= i < 77 ==> TransformInBounds(Record(i), 137, 1)
  {
  }

  lemma U2uDispatchOk()
    ensures PerOpOk(U2uDispatch, 25)
  {
  }

  lemma I2iDispatchOk()
    ensures PerOpOk(I2iDispatch, 25)
  {
  }

  lemma F2uDispatchOk()
    ensures PerOpOk(F2uDispatch, 25)
  {
  }

  lemma F2iDispatchOk()
    ensures PerOpOk(F2iDispatch, 25)
  {
  }

  lemma U2fDispatchOk()
    ensures PerOpOk(U2fDispatch, 25)
  {
  }

  lemma I2fDispatchOk()
    ensures PerOpOk(I2fDispatch, 25)
  {
  }

  lemma F2fDispatchOk()
    ensures PerOpOk(F2fDispatch, 25)
  {
  }

  lemma F2f16RtzDispatchOk()
    ensures PerOpOk(F2f16RtzDispatch, 25)
  {
  }

  lemma OpTablesOk()
    ensures forall e :: e in OpTables ==> UnaryKey(e.0) && PerOpOk(e.1, |TransformOffsets|)
  {
    U2uDispatchOk();
    I2iDispatchOk();
    F2uDispatchOk();
    F2iDispatchOk();
    U2fDispatchOk();
    I2fDispatchOk();
    F2fDispatchOk();
    F2f16RtzDispatchOk();
  }

  lemma OffsetsInRange()
    ensures forall s :: 0 <= s < |TransformOffsets| ==> TransformOffsets[s] <= |Transforms|
  {
  }

  lemma AllValuesOrdered()
    ensures ValuesOrdered(Values)
  {
    ValuesOrdered0();
    ValuesOrdered16();
    ValuesOrdered32();
    ValuesOrdered48();
    ValuesOrdered64();
    ValuesOrdered80();
    ValuesOrdered96();
    ValuesOrdered112();
    ValuesOrdered128();
    forall i | 0 <= i < |Values|
      ensures SlotOrdered(Values[i], i)
    {
      assert Values[i] == Value(i);
    }
  }

  lemma AllRecordsInBounds()
    ensures forall i :: 0 <= i < |Transforms| ==> TransformInBounds(Transforms[i], |Values|, |Flags|)
  {
    RecordsInBounds0();
    RecordsInBounds16();
    RecordsInBounds32();
    RecordsInBounds48();
    RecordsInBounds64();
    forall i | 0 <= i < |Transforms|
      ensures TransformInBounds(Transforms[i], |Values|, |Flags|)
    {
      assert Transforms[i] == Record(i);
    }
  }

  /** The tables pass every index check the engine relies on. */
  lemma TableWellFormed()
    ensures WellFormed(Table, |Flags|)
  {
    AllValuesOrdered();
    AllRecordsInBounds();
    OpTablesOk();
    OffsetsInRange();
  }

  // ---------------------------------------------------------------------------
  // Run layout

  lemma Sentinel0()
    ensures Table.transforms[0] == Sentinel
  {
    assert Transforms[0] == Record(0);
  }

  lemma Sentinel5()
    ensures Table.transforms[5] == Sentinel
  {
    assert Transforms[5] == Record(5);
  }

  lemma Sentinel10()
    ensures Table.transforms[10] == Sentinel
  {
    assert Transforms[10] == Record(10);
  }

  lemma Sentinel13()
    ensures Table.transforms[13] == Sentinel
  {
    assert Transforms[13] == Record(13);
  }

  lemma Sentinel16()
    ensures Table.transforms[16] == Sentinel
  {
    assert Transforms[16] == Record(16);
  }

  lemma Sentinel18()
    ensures Table.transforms[18] == Sentinel
  {
    assert Transforms[18] == Record(18);
  }

  lemma Sentinel23()
    ensures Table.transforms[23] == Sentinel
  {
    assert Transforms[23] == Record(23);
  }

  lemma Sentinel28()
    ensures Table.transforms[28] == Sentinel
  {
    assert Transforms[28] == Record(28);
  }

  lemma Sentinel31()
    ensures Table.transforms[31] == Sentinel
  {
    assert Transforms[31] == Record(31);
  }

  lemma Sentinel34()
    ensures Table.transforms[34] == Sentinel
  {
    assert Transforms[34] == Record(34);
  }

  lemma Sentinel39()
    ensures Table.transforms[39] == Sentinel
  {
    assert Transforms[39] == Record(39);
  }

  lemma Sentinel44()
    ensures Table.transforms[44] == Sentinel
  {
    assert Transforms[44] == Record(44);
  }

  lemma Sentinel49()
    ensures Table.transforms[49] == Sentinel
  {
    assert Transforms[49] == Record(49);
  }

  lemma Sentinel54()
    ensures Table.transforms[54] == Sentinel
  {
    assert Transforms[54] == Record(54);
  }

  lemma Sentinel59()
    ensures Table.transforms[59] == Sentinel
  {
    assert Transforms[59] == Record(59);
  }

  lemma Sentinel64()
    ensures Table.transforms[64] == Sentinel
  {
    assert Transforms[64] == Record(64);
  }

  lemma Sentinel69()
    ensures Table.transforms[69] == Sentinel
  {
    assert Transforms[69] == Record(69);
  }

  lemma Sentinel74()
    ensures Table.transforms[74] == Sentinel
  {
    assert Transforms[74] == Record(74);
  }

  lemma Sentinel76()
    ensures Table.transforms[76] == Sentinel
  {
    assert Transforms[76] == Record(76);
  }

  lemma Rooted1()
    ensures Table.transforms[1] == Rule(2, 4, 0) && RootOf(Table.values, 2, FamU2U)
  {
    assert Transforms[1] == Record(1);
    assert Values[2] == Value(2);
  }

  lemma Rooted2()
    ensures Table.transforms[2] == Rule(7, 10, 0) && RootOf(Table.values, 7, FamU2U)
  {
    assert Transforms[2] == Record(2);
    assert Values[7] == Value(7);
  }

  lemma Rooted3()
    ensures Table.transforms[3] == Rule(25, 26, 0) && RootOf(Table.values, 25, FamU2U)
  {
    assert Transforms[3] == Record(3);
    assert Values[25] == Value(25);
  }

  lemma Rooted4()
    ensures Table.transforms[4] == Rule(27, 9, 0) && RootOf(Table.values, 27, FamU2U)
  {
    assert Transforms[4] == Record(4);
    assert Values[27] == Value(27);
  }

  lemma Rooted6()
    ensures Table.transforms[6] == Rule(12, 13, 0) && RootOf(Table.values, 12, FamU2U)
  {
    assert Transforms[6] == Record(6);
    assert Values[12] == Value(12);
  }

  lemma Rooted7()
    ensures Table.transforms[7] == Rule(15, 10, 0) && RootOf(Table.values, 15, FamU2U)
  {
    assert Transforms[7] == Record(7);
    assert Values[15] == Value(15);
  }

  lemma Rooted8()
    ensures Table.transforms[8] == Rule(28, 26, 0) && RootOf(Table.values, 28, FamU2U)
  {
    assert Transforms[8] == Record(8);
    assert Values[28] == Value(28);
  }

  lemma Rooted9()
    ensures Table.transforms[9] == Rule(29, 30, 0) && RootOf(Table.values, 29, FamU2U)
  {
    assert Transforms[9] == Record(9);
    assert Values[29] == Value(29);
  }

  lemma Rooted11()
    ensures Table.transforms[11] == Rule(18, 20, 0) && RootOf(Table.values, 18, FamU2U)
  {
    assert Transforms[11] == Record(11);
    assert Values[18] == Value(18);
  }

  lemma Rooted12()
    ensures Table.transforms[12] == Rule(31, 33, 0) && RootOf(Table.values, 31, FamU2U)
  {
    assert Transforms[12] == Record(12);
    assert Values[31] == Value(31);
  }

  lemma Rooted14()
    ensures Table.transforms[14] == Rule(22, 24, 0) && RootOf(Table.values, 22, FamU2U)
  {
    assert Transforms[14] == Record(14);
    assert Values[22] == Value(22);
  }

  lemma Rooted15()
    ensures Table.transforms[15] == Rule(34, 36, 0) && RootOf(Table.values, 34, FamU2U)
  {
    assert Transforms[15] == Record(15);
    assert Values[34] == Value(34);
  }

  lemma Rooted17()
    ensures Table.transforms[17] == Rule(134, 136, 0) && RootOf(Table.values, 134, FamU2U)
  {
    assert Transforms[17] == Record(17);
    assert Values[134] == Value(134);
  }

  lemma Rooted19()
    ensures Table.transforms[19] == Rule(37, 41, 0) && RootOf(Table.values, 37, FamI2I)
  {
    assert Transforms[19] == Record(19);
    assert Values[37] == Value(37);
  }

  lemma Rooted20()
    ensures Table.transforms[20] == Rule(42, 46, 0) && RootOf(Table.values, 42, FamI2I)
  {
    assert Transforms[20] == Record(20);
    assert Values[42] == Value(42);
  }

  lemma Rooted21()
    ensures Table.transforms[21] == Rule(55, 56, 0) && RootOf(Table.values, 55, FamI2I)
  {
    assert Transforms[21] == Record(21);
    assert Values[55] == Value(55);
  }

  lemma Rooted22()
    ensures Table.transforms[22] == Rule(57, 58, 0) && RootOf(Table.values, 57, FamI2I)
  {
    assert Transforms[22] == Record(22);
    assert Values[57] == Value(57);
  }

  lemma Rooted24()
    ensures Table.transforms[24] == Rule(47, 40, 0) && RootOf(Table.values, 47, FamI2I)
  {
    assert Transforms[24] == Record(24);
    assert Values[47] == Value(47);
  }

  lemma Rooted25()
    ensures Table.transforms[25] == Rule(48, 46, 0) && RootOf(Table.values, 48, FamI2I)
  {
    assert Transforms[25] == Record(25);
    assert Values[48] == Value(48);
  }

  lemma Rooted26()
    ensures Table.transforms[26] == Rule(59, 56, 0) && RootOf(Table.values, 59, FamI2I)
  {
    assert Transforms[26] == Record(26);
    assert Values[59] == Value(59);
  }

  lemma Rooted27()
    ensures Table.transforms[27] == Rule(60, 45, 0) && RootOf(Table.values, 60, FamI2I)
  {
    assert Transforms[27] == Record(27);
    assert Values[60] == Value(60);
  }

  lemma Rooted29()
    ensures Table.transforms[29] == Rule(49, 51, 0) && RootOf(Table.values, 49, FamI2I)
  {
    assert Transforms[29] == Record(29);
    assert Values[49] == Value(49);
  }

  lemma Rooted30()
    ensures Table.transforms[30] == Rule(61, 63, 0) && RootOf(Table.values, 61, FamI2I)
  {
    assert Transforms[30] == Record(30);
    assert Values[61] == Value(61);
  }

  lemma Rooted32()
    ensures Table.transforms[32] == Rule(52, 54, 0) && RootOf(Table.values, 52, FamI2I)
  {
    assert Transforms[32] == Record(32);
    assert Values[52] == Value(52);
  }

  lemma Rooted33()
    ensures Table.transforms[33] == Rule(64, 66, 0) && RootOf(Table.values, 64, FamI2I)
  {
    assert Transforms[33] == Record(33);
    assert Values[64] == Value(64);
  }

  lemma Rooted35()
    ensures Table.transforms[35] == Rule(67, 68, 0) && RootOf(Table.values, 67, FamU2F)
  {
    assert Transforms[35] == Record(35);
    assert Values[67] == Value(67);
  }

  lemma Rooted36()
    ensures Table.transforms[36] == Rule(69, 70, 0) && RootOf(Table.values, 69, FamU2F)
  {
    assert Transforms[36] == Record(36);
    assert Values[69] == Value(69);
  }

  lemma Rooted37()
    ensures Table.transforms[37] == Rule(90, 91, 0) && RootOf(Table.values, 90, FamU2F)
  {
    assert Transforms[37] == Record(37);
    assert Values[90] == Value(90);
  }

  lemma Rooted38()
    ensures Table.transforms[38] == Rule(92, 93, 0) && RootOf(Table.values, 92, FamU2F)
  {
    assert Transforms[38] == Record(38);
    assert Values[92] == Value(92);
  }

  lemma Rooted40()
    ensures Table.transforms[40] == Rule(71, 68, 0) && RootOf(Table.values, 71, FamU2F)
  {
    assert Transforms[40] == Record(40);
    assert Values[71] == Value(71);
  }

  lemma Rooted41()
    ensures Table.transforms[41] == Rule(72, 70, 0) && RootOf(Table.values, 72, FamU2F)
  {
    assert Transforms[41] == Record(41);
    assert Values[72] == Value(72);
  }

  lemma Rooted42()
    ensures Table.transforms[42] == Rule(94, 91, 0) && RootOf(Table.values, 94, FamU2F)
  {
    assert Transforms[42] == Record(42);
    assert Values[94] == Value(94);
  }

  lemma Rooted43()
    ensures Table.transforms[43] == Rule(95, 93, 0) && RootOf(Table.values, 95, FamU2F)
  {
    assert Transforms[43] == Record(43);
    assert Values[95] == Value(95);
  }

  lemma Rooted45()
    ensures Table.transforms[45] == Rule(74, 78, 0) && RootOf(Table.values, 74, FamU2F)
  {
    assert Transforms[45] == Record(45);
    assert Values[74] == Value(74);
  }

  lemma Rooted46()
    ensures Table.transforms[46] == Rule(80, 85, 0) && RootOf(Table.values, 80, FamU2F)
  {
    assert Transforms[46] == Record(46);
    assert Values[80] == Value(80);
  }

  lemma Rooted47()
    ensures Table.transforms[47] == Rule(96, 97, 0) && RootOf(Table.values, 96, FamU2F)
  {
    assert Transforms[47] == Record(47);
    assert Values[96] == Value(96);
  }

  lemma Rooted48()
    ensures Table.transforms[48] == Rule(98, 84, 0) && RootOf(Table.values, 98, FamU2F)
  {
    assert Transforms[48] == Record(48);
    assert Values[98] == Value(98);
  }

  lemma Rooted50()
    ensures Table.transforms[50] == Rule(87, 78, 0) && RootOf(Table.values, 87, FamU2F)
  {
    assert Transforms[50] == Record(50);
    assert Values[87] == Value(87);
  }

  lemma Rooted51()
    ensures Table.transforms[51] == Rule(89, 85, 0) && RootOf(Table.values, 89, FamU2F)
  {
    assert Transforms[51] == Record(51);
    assert Values[89] == Value(89);
  }

  lemma Rooted52()
    ensures Table.transforms[52] == Rule(99, 97, 0) && RootOf(Table.values, 99, FamU2F)
  {
    assert Transforms[52] == Record(52);
    assert Values[99] == Value(99);
  }

  lemma Rooted53()
    ensures Table.transforms[53] == Rule(100, 84, 0) && RootOf(Table.values, 100, FamU2F)
  {
    assert Transforms[53] == Record(53);
    assert Values[100] == Value(100);
  }

  lemma Rooted55()
    ensures Table.transforms[55] == Rule(101, 102, 0) && RootOf(Table.values, 101, FamI2F)
  {
    assert Transforms[55] == Record(55);
    assert Values[101] == Value(101);
  }

  lemma Rooted56()
    ensures Table.transforms[56] == Rule(103, 104, 0) && RootOf(Table.values, 103, FamI2F)
  {
    assert Transforms[56] == Record(56);
    assert Values[103] == Value(103);
  }

  lemma Rooted57()
    ensures Table.transforms[57] == Rule(120, 121, 0) && RootOf(Table.values, 120, FamI2F)
  {
    assert Transforms[57] == Record(57);
    assert Values[120] == Value(120);
  }

  lemma Rooted58()
    ensures Table.transforms[58] == Rule(122, 123, 0) && RootOf(Table.values, 122, FamI2F)
  {
    assert Transforms[58] == Record(58);
    assert Values[122] == Value(122);
  }

  lemma Rooted60()
    ensures Table.transforms[60] == Rule(105, 102, 0) && RootOf(Table.values, 105, FamI2F)
  {
    assert Transforms[60] == Record(60);
    assert Values[105] == Value(105);
  }

  lemma Rooted61()
    ensures Table.transforms[61] == Rule(106, 104, 0) && RootOf(Table.values, 106, FamI2F)
  {
    assert Transforms[61] == Record(61);
    assert Values[106] == Value(106);
  }

  lemma Rooted62()
    ensures Table.transforms[62] == Rule(124, 121, 0) && RootOf(Table.values, 124, FamI2F)
  {
    assert Transforms[62] == Record(62);
    assert Values[124] == Value(124);
  }

  lemma Rooted63()
    ensures Table.transforms[63] == Rule(125, 123, 0) && RootOf(Table.values, 125, FamI2F)
  {
    assert Transforms[63] == Record(63);
    assert Values[125] == Value(125);
  }

  lemma Rooted65()
    ensures Table.transforms[65] == Rule(107, 111, 0) && RootOf(Table.values, 107, FamI2F)
  {
    assert Transforms[65] == Record(65);
    assert Values[107] == Value(107);
  }

  lemma Rooted66()
    ensures Table.transforms[66] == Rule(112, 117, 0) && RootOf(Table.values, 112, FamI2F)
  {
    assert Transforms[66] == Record(66);
    assert Values[112] == Value(112);
  }

  lemma Rooted67()
    ensures Table.transforms[67] == Rule(126, 127, 0) && RootOf(Table.values, 126, FamI2F)
  {
    assert Transforms[67] == Record(67);
    assert Values[126] == Value(126);
  }

  lemma Rooted68()
    ensures Table.transforms[68] == Rule(128, 116, 0) && RootOf(Table.values, 128, FamI2F)
  {
    assert Transforms[68] == Record(68);
    assert Values[128] == Value(128);
  }

  lemma Rooted70()
    ensures Table.transforms[70] == Rule(118, 111, 0) && RootOf(Table.values, 118, FamI2F)
  {
    assert Transforms[70] == Record(70);
    assert Values[118] == Value(118);
  }

  lemma Rooted71()
    ensures Table.transforms[71] == Rule(119, 117, 0) && RootOf(Table.values, 119, FamI2F)
  {
    assert Transforms[71] == Record(71);
    assert Values[119] == Value(119);
  }

  lemma Rooted72()
    ensures Table.transforms[72] == Rule(129, 127, 0) && RootOf(Table.values, 129, FamI2F)
  {
    assert Transforms[72] == Record(72);
    assert Values[129] == Value(129);
  }

  lemma Rooted73()
    ensures Table.transforms[73] == Rule(130, 116, 0) && RootOf(Table.values, 130, FamI2F)
  {
    assert Transforms[73] == Record(73);
    assert Values[130] == Value(130);
  }

  lemma Rooted75()
    ensures Table.transforms[75] == Rule(131, 132, 0) && RootOf(Table.values, 131, FamF2F)
  {
    assert Transforms[75] == Record(75);
    assert Values[131] == Value(131);
  }

  /** The run of state 7: records 1 to 4, all searching for `FamU2U`, closed by the sentinel at 5. */
  lemma Run1()
    ensures StartsRun(Table.transforms, 1) && RunRooted(Table, FamU2U, 7)
  {
    Sentinel0();
    Sentinel5();
    Rooted4();
    assert RootedRange(Table, FamU2U, 4, 5);
    Rooted3();
    assert RootedRange(Table, FamU2U, 3, 5);
    Rooted2();
    assert RootedRange(Table, FamU2U, 2, 5);
    Rooted1();
    assert RootedRange(Table, FamU2U, 1, 5);
    RunRootedAt(Table, FamU2U, 7, 5);
  }

  /** The run of state 8: records 6 to 9, all searching for `FamU2U`, closed by the sentinel at 10. */
  lemma Run6()
    ensures StartsRun(Table.transforms, 6) && RunRooted(Table, FamU2U, 8)
  {
    Sentinel5();
    Sentinel10();
    Rooted9();
    assert RootedRange(Table, FamU2U, 9, 10);
    Rooted8();
    assert RootedRange(Table, FamU2U, 8, 10);
    Rooted7();
    assert RootedRange(Table, FamU2U, 7, 10);
    Rooted6();
    assert RootedRange(Table, FamU2U, 6, 10);
    RunRootedAt(Table, FamU2U, 8, 10);
  }

  /** The run of state 9: records 11 to 12, all searching for `FamU2U`, closed by the sentinel at 13. */
  lemma Run11()
    ensures StartsRun(Table.transforms, 11) && RunRooted(Table, FamU2U, 9)
  {
    Sentinel10();
    Sentinel13();
    Rooted12();
    assert RootedRange(Table, FamU2U, 12, 13);
    Rooted11();
    assert RootedRange(Table, FamU2U, 11, 13);
    RunRootedAt(Table, FamU2U, 9, 13);
  }

  /** The run of state 10: records 14 to 15, all searching for `FamU2U`, closed by the sentinel at 16. */
  lemma Run14()
    ensures StartsRun(Table.transforms, 14) && RunRooted(Table, FamU2U, 10)
  {
    Sentinel13();
    Sentinel16();
    Rooted15();
    assert RootedRange(Table, FamU2U, 15, 16);
    Rooted14();
    assert RootedRange(Table, FamU2U, 14, 16);
    RunRootedAt(Table, FamU2U, 10, 16);
  }

  /** The run of state 11: records 17 to 17, all searching for `FamU2U`, closed by the sentinel at 18. */
  lemma Run17()
    ensures StartsRun(Table.transforms, 17) && RunRooted(Table, FamU2U, 11)
  {
    Sentinel16();
    Sentinel18();
    Rooted17();
    assert RootedRange(Table, FamU2U, 17, 18);
    RunRootedAt(Table, FamU2U, 11, 18);
  }

  /** The run of state 12: records 19 to 22, all searching for `FamI2I`, closed by the sentinel at 23. */
  lemma Run19()
    ensures StartsRun(Table.transforms, 19) && RunRooted(Table, FamI2I, 12)
  {
    Sentinel18();
    Sentinel23();
    Rooted22();
    assert RootedRange(Table, FamI2I, 22, 23);
    Rooted21();
    assert RootedRange(Table, FamI2I, 21, 23);
    Rooted20();
    assert RootedRange(Table, FamI2I, 20, 23);
    Rooted19();
    assert RootedRange(Table, FamI2I, 19, 23);
    RunRootedAt(Table, FamI2I, 12, 23);
  }

  /** The run of state 13: records 24 to 27, all searching for `FamI2I`, closed by the sentinel at 28. */
  lemma Run24()
    ensures StartsRun(Table.transforms, 24) && RunRooted(Table, FamI2I, 13)
  {
    Sentinel23();
    Sentinel28();
    Rooted27();
    assert RootedRange(Table, FamI2I, 27, 28);
    Rooted26();
    assert RootedRange(Table, FamI2I, 26, 28);
    Rooted25();
    assert RootedRange(Table, FamI2I, 25, 28);
    Rooted24();
    assert RootedRange(Table, FamI2I, 24, 28);
    RunRootedAt(Table, FamI2I, 13, 28);
  }

  /** The run of state 14: records 29 to 30, all searching for `FamI2I`, closed by the sentinel at 31. */
  lemma Run29()
    ensures StartsRun(Table.transforms, 29) && RunRooted(Table, FamI2I, 14)
  {
    Sentinel28();
    Sentinel31();
    Rooted30();
    assert RootedRange(Table, FamI2I, 30, 31);
    Rooted29();
    assert RootedRange(Table, FamI2I, 29, 31);
    RunRootedAt(Table, FamI2I, 14, 31);
  }

  /** The run of state 15: records 32 to 33, all searching for `FamI2I`, closed by the sentinel at 34. */
  lemma Run32()
    ensures StartsRun(Table.transforms, 32) && RunRooted(Table, FamI2I, 15)
  {
    Sentinel31();
    Sentinel34();
    Rooted33();
    assert RootedRange(Table, FamI2I, 33, 34);
    Rooted32();
    assert RootedRange(Table, FamI2I, 32, 34);
    RunRootedAt(Table, FamI2I, 15, 34);
  }

  /** The run of state 16: records 35 to 38, all searching for `FamU2F`, closed by the sentinel at 39. */
  lemma Run35()
    ensures StartsRun(Table.transforms, 35) && RunRooted(Table, FamU2F, 16)
  {
    Sentinel34();
    Sentinel39();
    Rooted38();
    assert RootedRange(Table, FamU2F, 38, 39);
    Rooted37();
    assert RootedRange(Table, FamU2F, 37, 39);
    Rooted36();
    assert RootedRange(Table, FamU2F, 36, 39);
    Rooted35();
    assert RootedRange(Table, FamU2F, 35, 39);
    RunRootedAt(Table, FamU2F, 16, 39);
  }

  /** The run of state 17: records 40 to 43, all searching for `FamU2F`, closed by the sentinel at 44. */
  lemma Run40()
    ensures StartsRun(Table.transforms, 40) && RunRooted(Table, FamU2F, 17)
  {
    Sentinel39();
    Sentinel44();
    Rooted43();
    assert RootedRange(Table, FamU2F, 43, 44);
    Rooted42();
    assert RootedRange(Table, FamU2F, 42, 44);
    Rooted41();
    assert RootedRange(Table, FamU2F, 41, 44);
    Rooted40();
    assert RootedRange(Table, FamU2F, 40, 44);
    RunRootedAt(Table, FamU2F, 17, 44);
  }

  /** The run of state 18: records 45 to 48, all searching for `FamU2F`, closed by the sentinel at 49. */
  lemma Run45()
    ensures StartsRun(Table.transforms, 45) && RunRooted(Table, FamU2F, 18)
  {
    Sentinel44();
    Sentinel49();
    Rooted48();
    assert RootedRange(Table, FamU2F, 48, 49);
    Rooted47();
    assert RootedRange(Table, FamU2F, 47, 49);
    Rooted46();
    assert RootedRange(Table, FamU2F, 46, 49);
    Rooted45();
    assert RootedRange(Table, FamU2F, 45, 49);
    RunRootedAt(Table, FamU2F, 18, 49);
  }

  /** The run of state 19: records 50 to 53, all searching for `FamU2F`, closed by the sentinel at 54. */
  lemma Run50()
    ensures StartsRun(Table.transforms, 50) && RunRooted(Table, FamU2F, 19)
  {
    Sentinel49();
    Sentinel54();
    Rooted53();
    assert RootedRange(Table, FamU2F, 53, 54);
    Rooted52();
    assert RootedRange(Table, FamU2F, 52, 54);
    Rooted51();
    assert RootedRange(Table, FamU2F, 51, 54);
    Rooted50();
    assert RootedRange(Table, FamU2F, 50, 54);
    RunRootedAt(Table, FamU2F, 19, 54);
  }

  /** The run of state 20: records 55 to 58, all searching for `FamI2F`, closed by the sentinel at 59. */
  lemma Run55()
    ensures StartsRun(Table.transforms, 55) && RunRooted(Table, FamI2F, 20)
  {
    Sentinel54();
    Sentinel59();
    Rooted58();
    assert RootedRange(Table, FamI2F, 58, 59);
    Rooted57();
    assert RootedRange(Table, FamI2F, 57, 59);
    Rooted56();
    assert RootedRange(Table, FamI2F, 56, 59);
    Rooted55();
    assert RootedRange(Table, FamI2F, 55, 59);
    RunRootedAt(Table, FamI2F, 20, 59);
  }

  /** The run of state 21: records 60 to 63, all searching for `FamI2F`, closed by the sentinel at 64. */
  lemma Run60()
    ensures StartsRun(Table.transforms, 60) && RunRooted(Table, FamI2F, 21)
  {
    Sentinel59();
    Sentinel64();
    Rooted63();
    assert RootedRange(Table, FamI2F, 63, 64);
    Rooted62();
    assert RootedRange(Table, FamI2F, 62, 64);
    Rooted61();
    assert RootedRange(Table, FamI2F, 61, 64);
    Rooted60();
    assert RootedRange(Table, FamI2F, 60, 64);
    RunRootedAt(Table, FamI2F, 21, 64);
  }

  /** The run of state 22: records 65 to 68, all searching for `FamI2F`, closed by the sentinel at 69. */
  lemma Run65()
    ensures StartsRun(Table.transforms, 65) && RunRooted(Table, FamI2F, 22)
  {
    Sentinel64();
    Sentinel69();
    Rooted68();
    assert RootedRange(Table, FamI2F, 68, 69);
    Rooted67();
    assert RootedRange(Table, FamI2F, 67, 69);
    Rooted66();
    assert RootedRange(Table, FamI2F, 66, 69);
    Rooted65();
    assert RootedRange(Table, FamI2F, 65, 69);
    RunRootedAt(Table, FamI2F, 22, 69);
  }

  /** The run of state 23: records 70 to 73, all searching for `FamI2F`, closed by the sentinel at 74. */
  lemma Run70()
    ensures StartsRun(Table.transforms, 70) && RunRooted(Table, FamI2F, 23)
  {
    Sentinel69();
    Sentinel74();
    Rooted73();
    assert RootedRange(Table, FamI2F, 73, 74);
    Rooted72();
    assert RootedRange(Table, FamI2F, 72, 74);
    Rooted71();
    assert RootedRange(Table, FamI2F, 71, 74);
    Rooted70();
    assert RootedRange(Table, FamI2F, 70, 74);
    RunRootedAt(Table, FamI2F, 23, 74);
  }

  /** The run of state 24: records 75 to 75, all searching for `FamF2F`, closed by the sentinel at 76. */
  lemma Run75()
    ensures StartsRun(Table.transforms, 75) && RunRooted(Table, FamF2F, 24)
  {
    Sentinel74();
    Sentinel76();
    Rooted75();
    assert RootedRange(Table, FamF2F, 75, 76);
    RunRootedAt(Table, FamF2F, 24, 76);
  }

  /** Both ends are sentinels, states 0 and 1 have no rules, and every other offset starts a run. */
  lemma TableRunsDelimited()
    ensures RunsDelimited(Table)
  {
    Sentinel0();
    Sentinel76();
    Run1();
    Run6();
    Run11();
    Run14();
    Run17();
    Run19();
    Run24();
    Run29();
    Run32();
    Run35();
    Run40();
    Run45();
    Run50();
    Run55();
    Run60();
    Run65();
    Run70();
    Run75();
    assert OffsetsStartRuns(Table.transforms, TransformOffsets, 24);
    assert OffsetsStartRuns(Table.transforms, TransformOffsets, 23);
    assert OffsetsStartRuns(Table.transforms, TransformOffsets, 22);
    assert OffsetsStartRuns(Table.transforms, TransformOffsets, 21);
    assert OffsetsStartRuns(Table.transforms, TransformOffsets, 20);
    assert OffsetsStartRuns(Table.transforms, TransformOffsets, 19);
    assert OffsetsStartRuns(Table.transforms, TransformOffsets, 18);
    assert OffsetsStartRuns(Table.transforms, TransformOffsets, 17);
    assert OffsetsStartRuns(Table.transforms, TransformOffsets, 16);
    assert OffsetsStartRuns(Table.transforms, TransformOffsets, 15);
    assert OffsetsStartRuns(Table.transforms, TransformOffsets, 14);
    assert OffsetsStartRuns(Table.transforms, TransformOffsets, 13);
    assert OffsetsStartRuns(Table.transforms, TransformOffsets, 12);
    assert OffsetsStartRuns(Table.transforms, TransformOffsets, 11);
    assert OffsetsStartRuns(Table.transforms, TransformOffsets, 10);
    assert OffsetsStartRuns(Table.transforms, TransformOffsets, 9);
    assert OffsetsStartRuns(Table.transforms, TransformOffsets, 8);
    assert OffsetsStartRuns(Table.transforms, TransformOffsets, 7);
    assert OffsetsStartRuns(Table.transforms, TransformOffsets, 6);
    assert OffsetsStartRuns(Table.transforms, TransformOffsets, 5);
    assert OffsetsStartRuns(Table.transforms, TransformOffsets, 4);
    assert OffsetsStartRuns(Table.transforms, TransformOffsets, 3);
    assert OffsetsStartRuns(Table.transforms, TransformOffsets, 2);
    assert OffsetsStartRuns(Table.transforms, TransformOffsets, 1);
    assert OffsetsStartRuns(Table.transforms, TransformOffsets, 0);
  }

  lemma U2uRooted()
    ensures FamilyRooted(Table, FamU2U, U2uDispatch.table, 0)
  {
    Sentinel0();
    EmptyRunRooted(Table, FamU2U, 2);
    Run1();
    Run6();
    Run11();
    Run14();
    Run17();
    assert FamilyRooted(Table, FamU2U, U2uDispatch.table, 5);
    assert FamilyRooted(Table, FamU2U, U2uDispatch.table, 4);
    assert FamilyRooted(Table, FamU2U, U2uDispatch.table, 3);
    assert FamilyRooted(Table, FamU2U, U2uDispatch.table, 2);
    assert FamilyRooted(Table, FamU2U, U2uDispatch.table, 1);
    assert FamilyRooted(Table, FamU2U, U2uDispatch.table, 0);
  }

  lemma I2iRooted()
    ensures FamilyRooted(Table, FamI2I, I2iDispatch.table, 0)
  {
    Sentinel0();
    EmptyRunRooted(Table, FamI2I, 3);
    Run19();
    Run24();
    Run29();
    Run32();
    assert FamilyRooted(Table, FamI2I, I2iDispatch.table, 4);
    assert FamilyRooted(Table, FamI2I, I2iDispatch.table, 3);
    assert FamilyRooted(Table, FamI2I, I2iDispatch.table, 2);
    assert FamilyRooted(Table, FamI2I, I2iDispatch.table, 1);
    assert FamilyRooted(Table, FamI2I, I2iDispatch.table, 0);
  }

  lemma F2uRooted()
    ensures FamilyRooted(Table, FamF2U, F2uDispatch.table, 0)
  {
    Sentinel0();
    EmptyRunRooted(Table, FamF2U, 4);
    assert FamilyRooted(Table, FamF2U, F2uDispatch.table, 0);
  }

  lemma F2iRooted()
    ensures FamilyRooted(Table, FamF2I, F2iDispatch.table, 0)
  {
    Sentinel0();
    EmptyRunRooted(Table, FamF2I, 5);
    assert FamilyRooted(Table, FamF2I, F2iDispatch.table, 0);
  }

  lemma U2fRooted()
    ensures FamilyRooted(Table, FamU2F, U2fDispatch.table, 0)
  {
    Sentinel0();
    EmptyRunRooted(Table, FamU2F, 0);
    Run35();
    Run40();
    Run45();
    Run50();
    assert FamilyRooted(Table, FamU2F, U2fDispatch.table, 4);
    assert FamilyRooted(Table, FamU2F, U2fDispatch.table, 3);
    assert FamilyRooted(Table, FamU2F, U2fDispatch.table, 2);
    assert FamilyRooted(Table, FamU2F, U2fDispatch.table, 1);
    assert FamilyRooted(Table, FamU2F, U2fDispatch.table, 0);
  }

  lemma I2fRooted()
    ensures FamilyRooted(Table, FamI2F, I2fDispatch.table, 0)
  {
    Sentinel0();
    EmptyRunRooted(Table, FamI2F, 0);
    Run55();
    Run60();
    Run65();
    Run70();
    assert FamilyRooted(Table, FamI2F, I2fDispatch.table, 4);
    assert FamilyRooted(Table, FamI2F, I2fDispatch.table, 3);
    assert FamilyRooted(Table, FamI2F, I2fDispatch.table, 2);
    assert FamilyRooted(Table, FamI2F, I2fDispatch.table, 1);
    assert FamilyRooted(Table, FamI2F, I2fDispatch.table, 0);
  }

  lemma F2fRooted()
    ensures FamilyRooted(Table, FamF2F, F2fDispatch.table, 0)
  {
    Sentinel0();
    EmptyRunRooted(Table, FamF2F, 0);
    Run75();
    assert FamilyRooted(Table, FamF2F, F2fDispatch.table, 1);
    assert FamilyRooted(Table, FamF2F, F2fDispatch.table, 0);
  }

  lemma F2f16RtzRooted()
    ensures FamilyRooted(Table, Exact(F2F16Rtz), F2f16RtzDispatch.table, 0)
  {
    Sentinel0();
    EmptyRunRooted(Table, Exact(F2F16Rtz), 6);
    assert FamilyRooted(Table, Exact(F2F16Rtz), F2f16RtzDispatch.table, 0);
  }

  /** Every run a family's table leads to holds rules for that family only. */
  lemma TableRootsInFamily()
    ensures RootsInFamily(Table)
  {
    U2uRooted();
    I2iRooted();
    F2uRooted();
    F2iRooted();
    U2fRooted();
    I2fRooted();
    F2fRooted();
    F2f16RtzRooted();
    assert TablesRooted(Table, OpTables, 7);
    assert TablesRooted(Table, OpTables, 6);
    assert TablesRooted(Table, OpTables, 5);
    assert TablesRooted(Table, OpTables, 4);
    assert TablesRooted(Table, OpTables, 3);
    assert TablesRooted(Table, OpTables, 2);
    assert TablesRooted(Table, OpTables, 1);
    assert TablesRooted(Table, OpTables, 0);
  }

  /**
    The pass only applies to an instruction a rule whose search root is of that
    instruction's opcode family and matches without swapping sources.
  */
  lemma ChosenInOwnFamily(e: Term)
    ensures WellFormed(Table, |Flags|)
    ensures Chosen(Table, Flags, e).Some? ==>
      e.Alu? && RootOf(Values, Transforms[Chosen(Table, Flags, e).value].search, KeyOf(e.op))
  {
    TableWellFormed();
    TableRunsDelimited();
    TableRootsInFamily();
    if Chosen(Table, Flags, e).Some? {
      ChosenInFamily(Table, Flags, e);
    }
  }
}
