/**
  The compiled rule-table format of NIR's algebraic optimisation passes, and the
  matching, building and dispatch that interpret it.

  A pass is a flat array of value slots (variables, constants and expressions whose
  children are earlier slots), an array of `{search, replace, condition}` transform
  records cut into runs by sentinels, one per-opcode dispatch table per opcode family,
  and a map from automaton state to the first record of that state's run.

  The instruction graph is abstracted as an expression tree (`Term`): an SSA value
  that is not an ALU result, an integer or float literal, or an ALU instruction with
  its bit size and sources. Structural equality of terms stands in for SSA identity.
*/
module NirSearch {
  import opened Wrappers
  import opened Arith

  /** The ALU opcodes that occur in the three rule tables. Sized conversions carry their destination bit size. */
  datatype Opcode =
    | U2U(bits: nat) | I2I(bits: nat) | F2U(bits: nat) | F2I(bits: nat)
    | U2F(bits: nat) | I2F(bits: nat) | F2F(bits: nat) | F2F16Rtz
    | FMin | FMax | IAnd | IShl | IShr
    | B2B(bits: nat) | B2I(bits: nat) | INe
    | PackHalf2x16Split | UnpackHalf2x16SplitX

  /** Number of sources an opcode reads. */
  function Arity(op: Opcode): (n: nat)
    ensures 1 <= n <= 2
  {
    match op
    case FMin | FMax | IAnd | IShl | IShr | INe | PackHalf2x16Split => 2
    case _ => 1
  }

  /**
    Dispatch keys of the per-opcode tables: a width-generic conversion family
    (`nir_search_op_u2u`, ...) or a single opcode (`nir_op_b2b32`, ...).
  */
  datatype SearchOp = FamU2U | FamI2I | FamF2U | FamF2I | FamU2F | FamI2F | FamF2F | FamB2I | Exact(op: Opcode)

  /** Whether an opcode belongs to a dispatch key. */
  predicate InFamily(op: Opcode, key: SearchOp) {
    match key
    case FamU2U => op.U2U?
    case FamI2I => op.I2I?
    case FamF2U => op.F2U?
    case FamF2I => op.F2I?
    case FamU2F => op.U2F?
    case FamI2F => op.I2F?
    case FamF2F => op.F2F?
    case FamB2I => op.B2I?
    case Exact(o) => !o.U2U? && !o.I2I? && !o.F2U? && !o.F2I? && !o.U2F? && !o.I2F? && !o.F2F? && !o.B2I? && op == o
  }

  /** The dispatch key an instruction's opcode is looked up under. */
  function KeyOf(op: Opcode): (key: SearchOp)
    ensures InFamily(op, key)
  {
    match op
    case U2U(_) => FamU2U
    case I2I(_) => FamI2I
    case F2U(_) => FamF2U
    case F2I(_) => FamF2I
    case U2F(_) => FamU2F
    case I2F(_) => FamI2F
    case F2F(_) => FamF2F
    case B2I(_) => FamB2I
    case _ => Exact(op)
  }

  /** Every opcode belongs to exactly one dispatch key, the one `KeyOf` returns. */
  lemma KeyOfUnique(op: Opcode, key: SearchOp)
    ensures InFamily(op, key) <==> key == KeyOf(op)
  {
  }

  datatype ConstType = IntType | FloatType

  /**
    One entry of a pass's value array. A variable of bit size -1 matches a value of
    any width. Expression sources are indices of earlier slots.
  */
  datatype Slot =
    | Variable(bitSize: int, variable: nat)
    | Constant(bitSize: int, kind: ConstType, raw: nat)
    | Expression(bitSize: int, op: Opcode, commExprIdx: int, commExprs: nat, srcs: seq<nat>, cond: int)

  /** A transform record; `Sentinel` is the `{~0, ~0, ~0}` record that ends a run. */
  datatype Transform = Sentinel | Rule(search: nat, replace: nat, condition: nat)

  /** The dispatch table of one opcode family; a missing filter means every source state filters to 0. */
  datatype PerOpTable = PerOpTable(filter: Option<seq<nat>>, numFilteredStates: nat, table: seq<nat>)

  /** A compiled pass: value slots, transform records, per-opcode tables and per-state run offsets. */
  datatype AlgebraicTable = AlgebraicTable(
    values: seq<Slot>,
    transforms: seq<Transform>,
    opTables: seq<(SearchOp, PerOpTable)>,
    transformOffsets: seq<nat>)

  /** An abstract SSA value: a non-ALU definition, a literal, or an ALU instruction. */
  datatype Term =
    | Ssa(id: nat, bitSize: nat)
    | Lit(bitSize: nat, kind: ConstType, bits: nat)
    | Alu(op: Opcode, bitSize: nat, srcs: seq<Term>)

  /** Variable bindings of one match attempt. */
  type Bindings = map<nat, Term>

  /** Automaton state of a literal; every other non-ALU value is in state 0. */
  const ConstState: nat := 1

  // ---------------------------------------------------------------------------
  // Load-time validation

  /**
    An expression slot has the arity of its opcode and only refers to earlier slots;
    constants and expressions carry an explicit NIR bit size, variables one or -1 (any).
  */
  predicate SlotOrdered(s: Slot, i: nat) {
    && (if s.Variable? then s.bitSize == -1 || (s.bitSize >= 0 && ValidWidth(s.bitSize)) else s.bitSize >= 0 && ValidWidth(s.bitSize))
    && (s.Expression? ==> |s.srcs| == Arity(s.op) && forall j :: 0 <= j < |s.srcs| ==> s.srcs[j] < i)
  }

  predicate ValuesOrdered(vals: seq<Slot>) {
    forall i :: 0 <= i < |vals| ==> SlotOrdered(vals[i], i)
  }

  /** A record is a sentinel or refers to existing slots and an existing condition flag. */
  predicate TransformInBounds(tr: Transform, numValues: nat, numConds: nat) {
    tr.Rule? ==> tr.search < numValues && tr.replace < numValues && tr.condition < numConds
  }

  /** The dispatch table of a one-source opcode family over `numStates` automaton states. */
  predicate PerOpOk(pot: PerOpTable, numStates: nat) {
    && pot.numFilteredStates > 0
    && |pot.table| == pot.numFilteredStates
    && (forall k :: 0 <= k < |pot.table| ==> pot.table[k] < numStates)
    && match pot.filter
       case None => pot.numFilteredStates == 1
       case Some(f) => |f| == numStates && forall k :: 0 <= k < |f| ==> f[k] < pot.numFilteredStates
  }

  /** Keys whose opcodes take one source; every per-opcode table of these passes has such a key. */
  predicate UnaryKey(key: SearchOp) {
    key.Exact? ==> Arity(key.op) == 1
  }

  /** The index checks the engine relies on: all slot, record, state and condition indices are in range. */
  predicate WellFormed(t: AlgebraicTable, numConds: nat) {
    && ValuesOrdered(t.values)
    && (forall i :: 0 <= i < |t.transforms| ==> TransformInBounds(t.transforms[i], |t.values|, numConds))
    && |t.transformOffsets| >= 2
    && (forall s :: 0 <= s < |t.transformOffsets| ==> t.transformOffsets[s] <= |t.transforms|)
    && (forall e :: e in t.opTables ==> UnaryKey(e.0) && PerOpOk(e.1, |t.transformOffsets|))
  }

  // ---------------------------------------------------------------------------
  // Dispatch

  /** The first per-opcode table registered under `key`. */
  function Lookup(ops: seq<(SearchOp, PerOpTable)>, key: SearchOp): (r: Option<PerOpTable>)
    ensures r.Some? ==> (key, r.value) in ops
    ensures r.None? ==> forall e :: e in ops ==> e.0 != key
  {
    if |ops| == 0 then None
    else if ops[0].0 == key then Some(ops[0].1)
    else Lookup(ops[1..], key)
  }

  /** `Lookup` past an entry registered under another key. */
  lemma LookupSkip(ops: seq<(SearchOp, PerOpTable)>, i: nat, key: SearchOp)
    requires i < |ops| && ops[i].0 != key
    ensures Lookup(ops[i..], key) == Lookup(ops[i + 1..], key)
  {
    assert ops[i..][1..] == ops[i + 1..];
  }

  /** `Lookup` stops at an entry registered under the key. */
  lemma LookupHit(ops: seq<(SearchOp, PerOpTable)>, i: nat, key: SearchOp)
    requires i < |ops| && ops[i].0 == key
    ensures Lookup(ops[i..], key) == Some(ops[i].1)
  {
  }

  /** The row of `pot.table` selected by a source in state `s`. */
  function FilteredIndex(pot: PerOpTable, s: nat): nat
    requires pot.filter.Some? ==> s < |pot.filter.value|
  {
    match pot.filter
    case None => 0
    case Some(f) => f[s]
  }

  /**
    The automaton state of a term: literals are in state 1, other non-ALU values and
    instructions whose opcode has no table in state 0, and an instruction whose family
    has a table in `table[filter[state(source)]]`.
  */
  function StateOf(t: AlgebraicTable, numConds: nat, e: Term): (s: nat)
    requires WellFormed(t, numConds)
    ensures s < |t.transformOffsets|
  {
    match e
    case Ssa(_, _) => 0
    case Lit(_, _, _) => ConstState
    case Alu(op, _, srcs) =>
      match Lookup(t.opTables, KeyOf(op))
      case None => 0
      case Some(pot) =>
        if |srcs| != 1 then 0
        else pot.table[FilteredIndex(pot, StateOf(t, numConds, srcs[0]))]
  }

  /**
    One step of the automaton: an instruction with one source whose family has the
    table `pot` is in the state `pot` assigns to its source's state.
  */
  lemma UnaryState(t: AlgebraicTable, numConds: nat, op: Opcode, w: nat, y: Term, pot: PerOpTable)
    requires WellFormed(t, numConds) && Lookup(t.opTables, KeyOf(op)) == Some(pot)
    ensures pot.filter.Some? ==> StateOf(t, numConds, y) < |pot.filter.value|
    ensures FilteredIndex(pot, StateOf(t, numConds, y)) < |pot.table|
    ensures StateOf(t, numConds, Alu(op, w, [y])) == pot.table[FilteredIndex(pot, StateOf(t, numConds, y))]
  {
    assert (KeyOf(op), pot) in t.opTables;
  }

  /** Index of the first sentinel at or after `i`: the end of the run starting at `i`. */
  function RunEnd(ts: seq<Transform>, i: nat): (r: nat)
    requires i <= |ts|
    ensures i <= r <= |ts|
    ensures r < |ts| ==> ts[r].Sentinel?
    ensures forall j :: i <= j < r ==> ts[j].Rule?
    decreases |ts| - i
  {
    if i == |ts| || ts[i].Sentinel? then i else RunEnd(ts, i + 1)
  }

  // ---------------------------------------------------------------------------
  // Matching and building

  /** The bit sizes of NIR values. */
  predicate ValidWidth(w: nat) {
    w == 1 || w == 8 || w == 16 || w == 32 || w == 64
  }

  /**
    The literal a constant slot stands for: the 64-bit pattern of an integer constant
    is truncated to the slot's bit size, a float constant keeps its pattern.
  */
  function ConstTerm(bitSize: nat, kind: ConstType, raw: nat): Term {
    Lit(bitSize, kind, if kind == IntType then raw % Pow2(bitSize) else raw)
  }

  /**
    Match slot `s` against term `e`, extending the bindings `b`: a variable binds (or
    must equal its earlier binding), a constant must be the same literal, an expression
    needs the same opcode, bit size and arity and matching sources, left to right.
  */
  function Match(vals: seq<Slot>, s: nat, e: Term, b: Bindings): (r: Option<Bindings>)
    requires ValuesOrdered(vals) && s < |vals|
    ensures r.Some? ==> Extends(b, r.value)
    ensures r.Some? && vals[s].Variable? ==> vals[s].variable in r.value && r.value[vals[s].variable] == e
    ensures r.Some? && vals[s].Variable? && vals[s].bitSize > 0 ==> e.bitSize == vals[s].bitSize
    ensures r.Some? && vals[s].Expression? ==>
              e.Alu? && e.op == vals[s].op && e.bitSize == vals[s].bitSize && |e.srcs| == |vals[s].srcs|
    decreases s
  {
    match vals[s]
    case Variable(bs, v) =>
      if bs > 0 && e.bitSize != bs then None
      else if v in b then (if b[v] == e then Some(b) else None)
      else Some(b[v := e])
    case Constant(bs, kind, raw) =>
      assert SlotOrdered(vals[s], s);
      if e == ConstTerm(bs, kind, raw) then Some(b) else None
    case Expression(bs, op, _, _, srcs, _) =>
      assert SlotOrdered(vals[s], s);
      if !(e.Alu? && e.op == op && e.bitSize == bs && |e.srcs| == |srcs|) then None
      else if |srcs| == 1 then Match(vals, srcs[0], e.srcs[0], b)
      else
        var b1 :- Match(vals, srcs[0], e.srcs[0], b);
        Match(vals, srcs[1], e.srcs[1], b1)
  }

  /** Build slot `s` bottom-up from the bindings; `None` when a variable is unbound. */
  function Build(vals: seq<Slot>, s: nat, b: Bindings): (r: Option<Term>)
    requires ValuesOrdered(vals) && s < |vals|
    ensures vals[s].Variable? ==> (r.Some? <==> vals[s].variable in b)
    ensures r.Some? && vals[s].Expression? ==>
              r.value.Alu? && r.value.op == vals[s].op && r.value.bitSize == vals[s].bitSize
              && |r.value.srcs| == |vals[s].srcs|
    decreases s
  {
    match vals[s]
    case Variable(_, v) => if v in b then Some(b[v]) else None
    case Constant(bs, kind, raw) =>
      assert SlotOrdered(vals[s], s);
      Some(ConstTerm(bs, kind, raw))
    case Expression(bs, op, _, _, srcs, _) =>
      assert SlotOrdered(vals[s], s);
      if |srcs| == 1 then
        var x :- Build(vals, srcs[0], b);
        Some(Alu(op, bs, [x]))
      else
        var x :- Build(vals, srcs[0], b);
        var y :- Build(vals, srcs[1], b);
        Some(Alu(op, bs, [x, y]))
  }

  /** `b2` agrees with `b1` on every variable `b1` binds. */
  predicate Extends(b1: Bindings, b2: Bindings) {
    forall v :: v in b1 ==> v in b2 && b2[v] == b1[v]
  }

  /** Building only depends on the bindings it uses, so more bindings build the same term. */
  lemma {:induction false} BuildMonotone(vals: seq<Slot>, s: nat, b1: Bindings, b2: Bindings)
    requires ValuesOrdered(vals) && s < |vals|
    requires Build(vals, s, b1).Some? && Extends(b1, b2)
    ensures Build(vals, s, b2) == Build(vals, s, b1)
    decreases s
  {
    match vals[s]
    case Variable(_, _) =>
    case Constant(_, _, _) =>
    case Expression(_, _, _, _, srcs, _) =>
      assert SlotOrdered(vals[s], s);
      BuildMonotone(vals, srcs[0], b1, b2);
      if |srcs| == 2 {
        BuildMonotone(vals, srcs[1], b1, b2);
      }
  }

  /**
    Matching only adds bindings, and building the search pattern from the final
    bindings gives back exactly the matched term.
  */
  lemma {:induction false} MatchThenBuild(vals: seq<Slot>, s: nat, e: Term, b: Bindings)
    requires ValuesOrdered(vals) && s < |vals|
    requires Match(vals, s, e, b).Some?
    ensures Extends(b, Match(vals, s, e, b).value)
    ensures Build(vals, s, Match(vals, s, e, b).value) == Some(e)
    decreases s
  {
    var b' := Match(vals, s, e, b).value;
    match vals[s]
    case Variable(_, _) =>
    case Constant(_, _, _) =>
    case Expression(bs, op, _, _, srcs, _) =>
      assert SlotOrdered(vals[s], s);
      if |srcs| == 1 {
        MatchThenBuild(vals, srcs[0], e.srcs[0], b);
        assert e == Alu(op, bs, [e.srcs[0]]);
      } else {
        var b1 := Match(vals, srcs[0], e.srcs[0], b).value;
        MatchThenBuild(vals, srcs[0], e.srcs[0], b);
        MatchThenBuild(vals, srcs[1], e.srcs[1], b1);
        BuildMonotone(vals, srcs[0], b1, b');
        assert e == Alu(op, bs, [e.srcs[0], e.srcs[1]]);
      }
  }

  // ---------------------------------------------------------------------------
  // Rule selection

  /**
    Index of the first record of the run at `i` whose condition flag is set and whose
    search pattern matches `e`; the search stops at the run's sentinel.
  */
  function FirstMatch(t: AlgebraicTable, flags: seq<bool>, i: nat, e: Term): (r: Option<nat>)
    requires WellFormed(t, |flags|) && i <= |t.transforms|
    ensures r.Some? ==> i <= r.value < RunEnd(t.transforms, i)
    ensures r.Some? ==> Applies(t, flags, r.value, e)
    ensures forall j :: i <= j < RunEnd(t.transforms, i) && (r.None? || j < r.value) ==> !Applies(t, flags, j, e)
    decreases |t.transforms| - i
  {
    if i == |t.transforms| then None
    else match t.transforms[i]
      case Sentinel => None
      case Rule(_, _, _) => if Applies(t, flags, i, e) then Some(i) else FirstMatch(t, flags, i + 1, e)
  }

  /** Record `j` is enabled and its search pattern matches `e`. */
  predicate Applies(t: AlgebraicTable, flags: seq<bool>, j: nat, e: Term)
    requires WellFormed(t, |flags|)
  {
    && j < |t.transforms|
    && t.transforms[j].Rule?
    && flags[t.transforms[j].condition]
    && Match(t.values, t.transforms[j].search, e, map[]).Some?
  }

  /** The record the pass applies to instruction `e`, found through `e`'s automaton state. */
  function Chosen(t: AlgebraicTable, flags: seq<bool>, e: Term): Option<nat>
    requires WellFormed(t, |flags|)
  {
    FirstMatch(t, flags, t.transformOffsets[StateOf(t, |flags|, e)], e)
  }

  /** A run whose records up to `k` are all rules ends no earlier than `k`. */
  lemma {:induction false} RunEndCovers(ts: seq<Transform>, i: nat, k: nat)
    requires i <= k <= |ts|
    requires forall j :: i <= j < k ==> ts[j].Rule?
    ensures k <= RunEnd(ts, i)
    decreases k - i
  {
    if i < k {
      RunEndCovers(ts, i + 1, k);
    }
  }

  /**
    A record `j` that applies to `e` inside the run of `e`'s state, with only rules
    between the start of the run and `k > j`, guarantees that some record is chosen:
    one at or before `j`.
  */
  lemma ChosenInRun(t: AlgebraicTable, flags: seq<bool>, e: Term, j: nat, k: nat)
    requires WellFormed(t, |flags|)
    requires t.transformOffsets[StateOf(t, |flags|, e)] <= j < k <= |t.transforms|
    requires forall i :: t.transformOffsets[StateOf(t, |flags|, e)] <= i < k ==> t.transforms[i].Rule?
    requires Applies(t, flags, j, e)
    ensures Chosen(t, flags, e).Some?
    ensures t.transformOffsets[StateOf(t, |flags|, e)] <= Chosen(t, flags, e).value <= j
  {
    RunEndCovers(t.transforms, t.transformOffsets[StateOf(t, |flags|, e)], k);
  }

  // ---------------------------------------------------------------------------
  // Run layout

  /**
    Offset `o` selects no rule (0, the leading sentinel) or the first record of a
    non-empty run, just after the sentinel that closes the run before it.
  */
  predicate StartsRun(ts: seq<Transform>, o: nat) {
    o == 0 || (o < |ts| && ts[o - 1].Sentinel? && ts[o].Rule?)
  }

  /** The offsets of states `s` and on pass `StartsRun`. */
  predicate OffsetsStartRuns(ts: seq<Transform>, offsets: seq<nat>, s: nat)
    decreases |offsets| - s
  {
    s >= |offsets| || (StartsRun(ts, offsets[s]) && OffsetsStartRuns(ts, offsets, s + 1))
  }

  /** Every offset at or after `s` starts a run, when those from `s` on were checked. */
  lemma {:induction false} OffsetStartsRun(ts: seq<Transform>, offsets: seq<nat>, s: nat, k: nat)
    requires OffsetsStartRuns(ts, offsets, s) && s <= k < |offsets|
    ensures StartsRun(ts, offsets[k])
    decreases k - s
  {
    if s < k {
      OffsetStartsRun(ts, offsets, s + 1, k);
    }
  }

  /**
    The layout of the transform array: it begins and ends with a sentinel, so every run
    is closed by one; states 0 and 1 (non-ALU values and literals) have no rules; and
    every state's offset passes `StartsRun`.
  */
  predicate RunsDelimited(t: AlgebraicTable) {
    && |t.transforms| > 0 && t.transforms[0].Sentinel? && t.transforms[|t.transforms| - 1].Sentinel?
    && |t.transformOffsets| > ConstState && t.transformOffsets[0] == 0 && t.transformOffsets[ConstState] == 0
    && OffsetsStartRuns(t.transforms, t.transformOffsets, 0)
  }

  /**
    Slot `s` is the root of a search pattern for instructions of family `key` that
    matches without swapping sources and without a per-slot condition.
  */
  predicate RootOf(vals: seq<Slot>, s: nat, key: SearchOp) {
    && s < |vals| && vals[s].Expression?
    && InFamily(vals[s].op, key) && vals[s].commExprs == 0 && vals[s].cond == -1
  }

  /** Records `i` to `k - 1` are rules whose search roots are of family `key`. */
  predicate RootedRange(t: AlgebraicTable, key: SearchOp, i: nat, k: nat)
    decreases k - i
  {
    i >= k
    || (&& i < |t.transforms| && t.transforms[i].Rule? && RootOf(t.values, t.transforms[i].search, key)
        && RootedRange(t, key, i + 1, k))
  }

  /** Every record of a rooted range is a rule whose search root is of the family. */
  lemma {:induction false} RootedAt(t: AlgebraicTable, key: SearchOp, i: nat, k: nat, j: nat)
    requires RootedRange(t, key, i, k) && i <= j < k
    ensures j < |t.transforms| && t.transforms[j].Rule? && RootOf(t.values, t.transforms[j].search, key)
    decreases j - i
  {
    if i < j {
      RootedAt(t, key, i + 1, k, j);
    }
  }

  /** Every rule of the run of state `st` searches for an instruction of family `key`. */
  predicate RunRooted(t: AlgebraicTable, key: SearchOp, st: nat) {
    && st < |t.transformOffsets| && t.transformOffsets[st] <= |t.transforms|
    && RootedRange(t, key, t.transformOffsets[st], RunEnd(t.transforms, t.transformOffsets[st]))
  }

  /** The states `table[k]`, `table[k + 1]`, ... all have runs of rules for family `key` only. */
  predicate FamilyRooted(t: AlgebraicTable, key: SearchOp, table: seq<nat>, k: nat)
    decreases |table| - k
  {
    k >= |table| || (RunRooted(t, key, table[k]) && FamilyRooted(t, key, table, k + 1))
  }

  /** The per-opcode tables from the `i`-th on lead only to runs of their own family. */
  predicate TablesRooted(t: AlgebraicTable, ops: seq<(SearchOp, PerOpTable)>, i: nat)
    decreases |ops| - i
  {
    i >= |ops| || (FamilyRooted(t, ops[i].0, ops[i].1.table, 0) && TablesRooted(t, ops, i + 1))
  }

  /** Every state a family's table leads to has a run of rules for that family only. */
  predicate RootsInFamily(t: AlgebraicTable) {
    TablesRooted(t, t.opTables, 0)
  }

  /** Each state listed in a rooted family table has a rooted run. */
  lemma {:induction false} FamilyRootedAt(t: AlgebraicTable, key: SearchOp, table: seq<nat>, k: nat, m: nat)
    requires FamilyRooted(t, key, table, k) && k <= m < |table|
    ensures RunRooted(t, key, table[m])
    decreases m - k
  {
    if k < m {
      FamilyRootedAt(t, key, table, k + 1, m);
    }
  }

  /** Each table of a rooted list of per-opcode tables is rooted in its own family. */
  lemma {:induction false} TablesRootedAt(t: AlgebraicTable, ops: seq<(SearchOp, PerOpTable)>, i: nat, m: nat)
    requires TablesRooted(t, ops, i) && i <= m < |ops|
    ensures FamilyRooted(t, ops[m].0, ops[m].1.table, 0)
    decreases m - i
  {
    if i < m {
      TablesRootedAt(t, ops, i + 1, m);
    }
  }

  /** A run of rules from `i` that meets a sentinel at `k` ends there. */
  lemma RunEndAt(ts: seq<Transform>, i: nat, k: nat)
    requires i <= k < |ts| && ts[k].Sentinel?
    requires forall j :: i <= j < k ==> ts[j].Rule?
    ensures RunEnd(ts, i) == k
  {
    RunEndCovers(ts, i, k);
  }

  /** A rooted range that reaches a sentinel is the whole run of a state it starts. */
  lemma RunRootedAt(t: AlgebraicTable, key: SearchOp, st: nat, k: nat)
    requires st < |t.transformOffsets| && t.transformOffsets[st] <= k < |t.transforms|
    requires RootedRange(t, key, t.transformOffsets[st], k) && t.transforms[k].Sentinel?
    ensures RunRooted(t, key, st)
  {
    forall j | t.transformOffsets[st] <= j < k
      ensures t.transforms[j].Rule?
    {
      RootedAt(t, key, t.transformOffsets[st], k, j);
    }
    RunEndAt(t.transforms, t.transformOffsets[st], k);
  }

  /** A state with offset 0 has the empty run, which is rooted in any family. */
  lemma EmptyRunRooted(t: AlgebraicTable, key: SearchOp, st: nat)
    requires st < |t.transformOffsets| && t.transformOffsets[st] == 0
    requires |t.transforms| > 0 && t.transforms[0].Sentinel?
    ensures RunRooted(t, key, st)
  {
    RunEndAt(t.transforms, 0, 0);
  }

  /**
    In a delimited array every state's run is closed by a sentinel inside the array,
    and it is empty exactly when the state's offset is 0.
  */
  lemma RunsClosed(t: AlgebraicTable, s: nat)
    requires RunsDelimited(t) && s < |t.transformOffsets|
    ensures t.transformOffsets[s] < |t.transforms|
    ensures t.transformOffsets[s] <= RunEnd(t.transforms, t.transformOffsets[s]) < |t.transforms|
    ensures t.transforms[RunEnd(t.transforms, t.transformOffsets[s])].Sentinel?
    ensures RunEnd(t.transforms, t.transformOffsets[s]) == t.transformOffsets[s] <==> t.transformOffsets[s] == 0
  {
    OffsetStartsRun(t.transforms, t.transformOffsets, 0, s);
  }

  /**
    The automaton only chooses a rule whose search root belongs to the instruction's
    own opcode family and needs no source swapping: non-ALU values, literals,
    instructions with other than one source and opcodes without a table are in
    states 0 or 1, whose offset selects no rule.
  */
  lemma ChosenInFamily(t: AlgebraicTable, flags: seq<bool>, e: Term)
    requires WellFormed(t, |flags|) && RunsDelimited(t) && RootsInFamily(t)
    requires Chosen(t, flags, e).Some?
    ensures e.Alu? && |e.srcs| == 1 && Lookup(t.opTables, KeyOf(e.op)).Some?
    ensures RootOf(t.values, t.transforms[Chosen(t, flags, e).value].search, KeyOf(e.op))
  {
    var st := StateOf(t, |flags|, e);
    RunsClosed(t, st);
    assert t.transformOffsets[st] != 0;
    assert e.Alu? && |e.srcs| == 1;
    var key := KeyOf(e.op);
    var pot := Lookup(t.opTables, key).value;
    var i :| 0 <= i < |t.opTables| && t.opTables[i] == (key, pot);
    UnaryState(t, |flags|, e.op, e.bitSize, e.srcs[0], pot);
    var k := FilteredIndex(pot, StateOf(t, |flags|, e.srcs[0]));
    assert e == Alu(e.op, e.bitSize, [e.srcs[0]]);
    TablesRootedAt(t, t.opTables, 0, i);
    FamilyRootedAt(t, key, pot.table, 0, k);
    var o := t.transformOffsets[st];
    RootedAt(t, key, o, RunEnd(t.transforms, o), Chosen(t, flags, e).value);
  }

  /** The replacement of `e` built from the chosen record, if any record applies. */
  function Rewrite(t: AlgebraicTable, flags: seq<bool>, e: Term): (r: Option<Term>)
    requires WellFormed(t, |flags|)
    ensures Chosen(t, flags, e).None? ==> r.None?
    ensures r.Some? ==> Applies(t, flags, Chosen(t, flags, e).value, e)
  {
    match Chosen(t, flags, e)
    case None => None
    case Some(j) =>
      var tr := t.transforms[j];
      Build(t.values, tr.replace, Match(t.values, tr.search, e, map[]).value)
  }
}
