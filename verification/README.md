# spirv-to-dxil-rs, modelled in Dafny

This project models the parts of spirv-to-dxil-rs that hold logic of their own, as
opposed to FFI or build plumbing. It covers three groups.

**The three NIR algebraic passes compiled into `dxil_nir_algebraic.c`.**
- The passes are `dxil_nir_lower_8bit_conv`, `dxil_nir_lower_16bit_conv` and `dxil_nir_algebraic`.
- Each pass is transcribed in full:
  - the value slots (249, 137 and 6 of them);
  - the transform records, cut into runs by `{~0, ~0, ~0}` sentinels;
  - the per-opcode dispatch tables (`filter`, `num_filtered_states`, `table`);
  - the per-state `transform_offsets`.
- These tables are interpreted by a model of the search automaton (`NirSearch`):
  - an instruction's state is `table[filter[state(source)]]` for its opcode family;
  - the records of that state's run are tried in order;
  - the first enabled record whose search pattern matches is chosen;
  - its replacement is built from the bindings.
- A value semantics for the integer opcodes (`NirEval`) lets the project state that a rewrite keeps the value of the instruction it replaces.
- For every pass the project proves:
  - that the load-time index checks hold;
  - that the run layout is as the automaton needs;
  - that only rules rooted in the instruction's own family are ever chosen.
- For every integer conversion of a narrowing, whatever the narrowed value is (an SSA value, a literal, or another instruction, conversions included), it proves that the instruction is rewritten and that the rewrite is value-preserving.
- For the boolean pass, it proves the exact rewrites and what they preserve.

**The DXBC container checksum (`mach-siegbert-vogt-dxcsa`).**
- This is an MD5 variant:
  - the RFC 1321 compression function (section 3.4);
  - the RFC 1321 initial state (section 3.3);
  - the byte-buffering `update` with its 64-bit bit counter;
  - a non-standard finalisation in `sign`.
- `sign_in_place` writes the digest into bytes 4..19 of the container.
- Methods that follow the Rust control flow are proved equal to functional definitions: `Compress`, `Absorb`, `Message` and `Checksum`.

**The Rust front end.**
- `spirv_to_dxil`, `dump_nir` and `spirv_to_dxbc`:
  - the register-space and shader-model guards;
  - the NUL-terminated entry point;
  - the specialisation count;
  - the decision to sign the blob;
  - the error cases.
- The bindgen renaming callbacks.
- `RuntimeConfig`'s default and its conversion to the C configuration.
- The `ShaderStage` discriminants and `ShaderModel`'s `Display`.

The native compiler is a parameter: a function from the arguments it is handed to its
boolean result, the blob it wrote and the text its logger collected.

## Model

| member | source | states |
|---|---|---|
| NirSearch.KeyOfUnique | spirv-to-dxil-sys/native/mesa_mako/dxil_nir_algebraic.c:3758-3921 | Every opcode belongs to exactly one dispatch key, and it is the key it is looked up under. |
| NirSearch.Lookup | spirv-to-dxil-sys/native/mesa_mako/dxil_nir_algebraic.c:3758-3921 | A found per-opcode table is registered under the key; when none is found, no entry has that key. |
| NirSearch.StateOf | spirv-to-dxil-sys/native/mesa_mako/dxil_nir_algebraic.c:3758-3947 | The automaton state of any value is a valid index into `transform_offsets`. |
| NirSearch.UnaryState | spirv-to-dxil-sys/native/mesa_mako/dxil_nir_algebraic.c:3758-3947 | The source's state is a valid filter index, and the filtered index is a valid table row. A one-source instruction's state is `table[filter[state(source)]]`. |
| NirSearch.RunEnd | spirv-to-dxil-sys/native/mesa_mako/dxil_nir_algebraic.c:3601-3756 | The end of a run is a sentinel or the end of the array, and every record before it is a rule. |
| NirSearch.MatchThenBuild | spirv-to-dxil-sys/native/mesa_mako/dxil_nir_algebraic.c:133-178 | Matching only adds bindings. Building the search pattern from them gives back exactly the matched instruction. |
| NirSearch.Match | spirv-to-dxil-sys/native/mesa_mako/dxil_nir_algebraic.c:133-178 | A successful match only adds bindings. A variable slot ends up bound to the matched term, of the slot's bit size when it has one. An expression slot matches only an ALU instruction of its opcode, bit size and arity. |
| NirSearch.Build | spirv-to-dxil-sys/native/mesa_mako/dxil_nir_algebraic.c:133-178 | A variable slot builds exactly when it is bound. A built expression slot is an ALU instruction with the slot's opcode, bit size and arity. |
| NirSearch.BuildMonotone | spirv-to-dxil-sys/native/mesa_mako/dxil_nir_algebraic.c:133-178 | A replacement built from some bindings is unchanged by extra bindings. |
| NirSearch.FirstMatch | spirv-to-dxil-sys/native/mesa_mako/dxil_nir_algebraic.c:3601-3756 | The chosen record lies inside the run and applies. No earlier record of the run applies, and when nothing is chosen, no record of the run applies. |
| NirSearch.Rewrite | spirv-to-dxil-sys/native/mesa_mako/dxil_nir_algebraic.c:3958-3976 | An instruction is rewritten only when a record is chosen, and then the chosen record applies to it. |
| NirSearch.ChosenInRun | spirv-to-dxil-sys/native/mesa_mako/dxil_nir_algebraic.c:3601-3947 | A record that applies inside the instruction's run guarantees that a record at or before it is chosen. |
| NirSearch.RunsClosed | spirv-to-dxil-sys/native/mesa_mako/dxil_nir_algebraic.c:3601-3947 | With delimited runs, each state's run ends at a sentinel inside the array. The run is empty exactly when the offset is 0. |
| NirSearch.ChosenInFamily | spirv-to-dxil-sys/native/mesa_mako/dxil_nir_algebraic.c:3601-3947 | When runs are delimited and rooted, a chosen record belongs to a one-source instruction whose family has a table. Its search root is of that family, with no commutative sources and no condition. |
| NirEval.Eval | spirv-to-dxil-sys/native/mesa_mako/dxil_nir_algebraic.c:10-129 | A value that evaluates is of a valid NIR bit size and fits it. |
| LoweringSound.LowBitsEval | spirv-to-dxil-sys/native/mesa_mako/dxil_nir_algebraic.c:10 | `iand(a, 2^k - 1)` at `w` bits is `a` modulo `2^k`. |
| LoweringSound.ShiftPairEval | spirv-to-dxil-sys/native/mesa_mako/dxil_nir_algebraic.c:46 | `ishr(ishl(a, w-k), w-k)` at `w` bits is the sign extension of `a`'s low `k` bits. |
| LoweringSound.MaskMatchesNarrow | spirv-to-dxil-sys/native/mesa_mako/dxil_nir_algebraic.c:3986 | The mask has the value of the `u2u`/`i2i` narrowing to `k` bits. |
| LoweringSound.ShiftPairMatchesNarrow | spirv-to-dxil-sys/native/mesa_mako/dxil_nir_algebraic.c:4000 | The shift pair is the sign extension of the narrowing's value. |
| LoweringSound.ZeroImageEval | spirv-to-dxil-sys/native/mesa_mako/dxil_nir_algebraic.c:10-33 | The zero-extending replacement, with or without its outer conversion, equals `outer(narrow(a))`. |
| LoweringSound.SignImageEval | spirv-to-dxil-sys/native/mesa_mako/dxil_nir_algebraic.c:34-57 | The sign-extending replacement, with or without its outer conversion, equals `outer(narrow(a))`. |
| LoweringSound.ZeroExtendSound | spirv-to-dxil-sys/native/mesa_mako/dxil_nir_algebraic.c:10-33 | A matched zero-extending rule builds its replacement, and the replacement keeps the value. |
| LoweringSound.SignExtendSound | spirv-to-dxil-sys/native/mesa_mako/dxil_nir_algebraic.c:34-57 | A matched sign-extending rule builds its replacement, and the replacement keeps the value. |
| LoweringSound.LoweringRuleSound | spirv-to-dxil-sys/native/mesa_mako/dxil_nir_algebraic.c:10-129 | Every record of either lowering shape is sound for every instruction and environment. |
| LoweringSound.RewriteSound | spirv-to-dxil-sys/native/mesa_mako/dxil_nir_algebraic.c:3958-3976 | When the chosen record holds a sound rule, the pass rewrites the instruction and keeps its value. |
| LoweringSound.RunRewriteSound | spirv-to-dxil-sys/native/mesa_mako/dxil_nir_algebraic.c:3601-3947 | Take a record that applies inside the instruction's run, where the run up to it consists of lowering rules. Then the instruction is rewritten, and the rewrite keeps its value. |
| Lower8BitConv.TableWellFormed | spirv-to-dxil-sys/native/mesa_mako/dxil_nir_algebraic.c:133-3947 | Index checks of the 8-bit pass: slots refer only to earlier slots, and records refer to existing slots and to condition 0. Offsets are in range. Each filter has one entry per state (22) and stays below `num_filtered_states`. Each table entry is a state. |
| Lower8BitConv.TableRunsDelimited | spirv-to-dxil-sys/native/mesa_mako/dxil_nir_algebraic.c:3601-3947 | The transforms begin and end with a sentinel. States 0 and 1 have offset 0, and every other offset is 0 or starts a non-empty run just after a sentinel. |
| Lower8BitConv.TableRootsInFamily | spirv-to-dxil-sys/native/mesa_mako/dxil_nir_algebraic.c:153-3921 | Every run reached through a family's table has search roots of that family, with `comm_exprs` 0 and condition -1. |
| Lower8BitConv.ChosenInOwnFamily | spirv-to-dxil-sys/native/mesa_mako/dxil_nir_algebraic.c:3601-3976 | The 8-bit pass only applies a record whose root is of the instruction's family, with no operand swapping. |
| Lower8BitConvSound.U2uNarrowState | spirv-to-dxil-sys/native/mesa_mako/dxil_nir_algebraic.c:3759-3793 | Whatever its source's state, `u2u8` moves to a state (2, 6, 7, 8 or 9) that the u2u, i2i, u2f and i2f filters all send to class 1. |
| Lower8BitConvSound.I2iNarrowState | spirv-to-dxil-sys/native/mesa_mako/dxil_nir_algebraic.c:3795-3829 | Whatever its source's state, `i2i8` moves to a state (3, 10, 11, 12 or 13) that the u2u, i2i, u2f and i2f filters all send to class 2. |
| Lower8BitConvSound.U2uOfU2u8Lowered | spirv-to-dxil-sys/native/mesa_mako/dxil_nir_algebraic.c:10-33 | `u2uN(u2u8(a@W))` is rewritten for every `W`-bit source `a`, whatever its automaton state, and the rewrite keeps its value. |
| Lower8BitConvSound.U2uOfI2i8Lowered | spirv-to-dxil-sys/native/mesa_mako/dxil_nir_algebraic.c:10-33 | `u2uN(i2i8(a@W))` is rewritten for every `W`-bit source `a`, whatever its automaton state, and the rewrite keeps its value. |
| Lower8BitConvSound.I2iOfU2u8Lowered | spirv-to-dxil-sys/native/mesa_mako/dxil_nir_algebraic.c:34-57 | `i2iN(u2u8(a@W))` is rewritten for every `W`-bit source `a`, whatever its automaton state, and the rewrite keeps its value. |
| Lower8BitConvSound.I2iOfI2i8Lowered | spirv-to-dxil-sys/native/mesa_mako/dxil_nir_algebraic.c:34-57 | `i2iN(i2i8(a@W))` is rewritten for every `W`-bit source `a`, whatever its automaton state, and the rewrite keeps its value. |
| Lower8BitConvSound.U2fOfU2u8Lowered | spirv-to-dxil-sys/native/mesa_mako/dxil_nir_algebraic.c:58-93 | `u2fN(u2u8(a@W))` is rewritten for every `W`-bit source `a`, whatever its automaton state, and the rewrite keeps its value. |
| Lower8BitConvSound.U2fOfI2i8Lowered | spirv-to-dxil-sys/native/mesa_mako/dxil_nir_algebraic.c:58-93 | `u2fN(i2i8(a@W))` is rewritten for every `W`-bit source `a`, whatever its automaton state, and the rewrite keeps its value. |
| Lower8BitConvSound.I2fOfU2u8Lowered | spirv-to-dxil-sys/native/mesa_mako/dxil_nir_algebraic.c:94-129 | `i2fN(u2u8(a@W))` is rewritten for every `W`-bit source `a`, whatever its automaton state, and the rewrite keeps its value. |
| Lower8BitConvSound.I2fOfI2i8Lowered | spirv-to-dxil-sys/native/mesa_mako/dxil_nir_algebraic.c:94-129 | `i2fN(i2i8(a@W))` is rewritten for every `W`-bit source `a`, whatever its automaton state, and the rewrite keeps its value. |
| Lower8BitConvSound.NarrowingConversionLowered | spirv-to-dxil-sys/native/mesa_mako/dxil_nir_algebraic.c:8-129 | Every u2u, i2i, u2f or i2f conversion to 16, 32 or 64 bits of an 8-bit narrowing of any 16/32/64-bit value (SSA value, literal or instruction) is rewritten, with the value kept. |
| Lower8BitConvSound.SourceStates | spirv-to-dxil-sys/native/mesa_mako/dxil_nir_algebraic.c:3924-3947 | SSA values are in state 0 and literals in state 1. |
| Lower16BitConv.TableWellFormed | spirv-to-dxil-sys/native/mesa_mako/dxil_nir_algebraic.c:4047-6187 | The same index checks for the 16-bit pass, whose filters have 25 entries. |
| Lower16BitConv.TableRunsDelimited | spirv-to-dxil-sys/native/mesa_mako/dxil_nir_algebraic.c:5838-6187 | The sentinel and run layout of the 16-bit pass, as for the 8-bit pass. |
| Lower16BitConv.TableRootsInFamily | spirv-to-dxil-sys/native/mesa_mako/dxil_nir_algebraic.c:4047-6158 | The runs reached through each family's table in the 16-bit pass are rooted in that family. |
| Lower16BitConv.ChosenInOwnFamily | spirv-to-dxil-sys/native/mesa_mako/dxil_nir_algebraic.c:5838-6216 | The 16-bit pass only applies rules rooted in the instruction's family. |
| Lower16BitConvSound.U2uNarrowState | spirv-to-dxil-sys/native/mesa_mako/dxil_nir_algebraic.c:5938-5976 | Whatever its source's state, `u2u16` moves to a state (2 or 7 to 11) that the u2u, i2i, u2f and i2f filters all send to class 1. |
| Lower16BitConvSound.I2iNarrowState | spirv-to-dxil-sys/native/mesa_mako/dxil_nir_algebraic.c:5978-6015 | Whatever its source's state, `i2i16` moves to a state (3 or 12 to 15) that the u2u, i2i, u2f and i2f filters all send to class 2. |
| Lower16BitConvSound.U2uOfU2u16Lowered | spirv-to-dxil-sys/native/mesa_mako/dxil_nir_algebraic.c:3986-3997 | `u2uN(u2u16(a@W))` is rewritten for every `W`-bit source `a`, whatever its automaton state, and the rewrite keeps its value. |
| Lower16BitConvSound.U2uOfI2i16Lowered | spirv-to-dxil-sys/native/mesa_mako/dxil_nir_algebraic.c:3986-3997 | `u2uN(i2i16(a@W))` is rewritten for every `W`-bit source `a`, whatever its automaton state, and the rewrite keeps its value. |
| Lower16BitConvSound.I2iOfU2u16Lowered | spirv-to-dxil-sys/native/mesa_mako/dxil_nir_algebraic.c:3998-4009 | `i2iN(u2u16(a@W))` is rewritten for every `W`-bit source `a`, whatever its automaton state, and the rewrite keeps its value. |
| Lower16BitConvSound.I2iOfI2i16Lowered | spirv-to-dxil-sys/native/mesa_mako/dxil_nir_algebraic.c:3998-4009 | `i2iN(i2i16(a@W))` is rewritten for every `W`-bit source `a`, whatever its automaton state, and the rewrite keeps its value. |
| Lower16BitConvSound.U2fOfU2u16Lowered | spirv-to-dxil-sys/native/mesa_mako/dxil_nir_algebraic.c:4010-4025 | `u2fN(u2u16(a@W))` is rewritten for every `W`-bit source `a`, whatever its automaton state, and the rewrite keeps its value. |
| Lower16BitConvSound.U2fOfI2i16Lowered | spirv-to-dxil-sys/native/mesa_mako/dxil_nir_algebraic.c:4010-4025 | `u2fN(i2i16(a@W))` is rewritten for every `W`-bit source `a`, whatever its automaton state, and the rewrite keeps its value. |
| Lower16BitConvSound.I2fOfU2u16Lowered | spirv-to-dxil-sys/native/mesa_mako/dxil_nir_algebraic.c:4026-4041 | `i2fN(u2u16(a@W))` is rewritten for every `W`-bit source `a`, whatever its automaton state, and the rewrite keeps its value. |
| Lower16BitConvSound.I2fOfI2i16Lowered | spirv-to-dxil-sys/native/mesa_mako/dxil_nir_algebraic.c:4026-4041 | `i2fN(i2i16(a@W))` is rewritten for every `W`-bit source `a`, whatever its automaton state, and the rewrite keeps its value. |
| Lower16BitConvSound.NarrowingConversionLowered | spirv-to-dxil-sys/native/mesa_mako/dxil_nir_algebraic.c:3984-4041 | Every u2u, i2i, u2f or i2f conversion to 32 or 64 bits of a 16-bit narrowing of any 32/64-bit value (SSA value, literal or instruction) is rewritten, with the value kept. |
| Lower16BitConvSound.SourceStates | spirv-to-dxil-sys/native/mesa_mako/dxil_nir_algebraic.c:6161-6187 | SSA values are in state 0 and literals in state 1. |
| DxilAlgebraic.TableWellFormed | spirv-to-dxil-sys/native/mesa_mako/dxil_nir_algebraic.c:6231-6336 | The index checks of the boolean pass. |
| DxilAlgebraic.TableRunsDelimited | spirv-to-dxil-sys/native/mesa_mako/dxil_nir_algebraic.c:6298-6336 | The boolean pass's two runs, at offsets 1 and 3, are each closed by a sentinel. |
| DxilAlgebraic.TableRootsInFamily | spirv-to-dxil-sys/native/mesa_mako/dxil_nir_algebraic.c:6231-6328 | The `b2b32` run searches for `b2b32`, and the `b2b1` run for `b2b1`. |
| DxilAlgebraic.ChosenInOwnFamily | spirv-to-dxil-sys/native/mesa_mako/dxil_nir_algebraic.c:6298-6365 | The boolean pass only applies a rule to an instruction of the rule's root opcode. |
| DxilAlgebraicSound.B2b32Found | spirv-to-dxil-sys/native/mesa_mako/dxil_nir_algebraic.c:6309-6328 | `b2b32` is dispatched through its own per-opcode table. |
| DxilAlgebraicSound.B2b1Found | spirv-to-dxil-sys/native/mesa_mako/dxil_nir_algebraic.c:6309-6328 | `b2b1` is dispatched through its own per-opcode table. |
| DxilAlgebraicSound.B2b32Rewritten | spirv-to-dxil-sys/native/mesa_mako/dxil_nir_algebraic.c:6226 | `b2b32(a)` is rewritten to exactly `b2i32(a)`, through state 2 and record `{1, 2, 0}`. |
| DxilAlgebraicSound.B2b1Rewritten | spirv-to-dxil-sys/native/mesa_mako/dxil_nir_algebraic.c:6227 | `b2b1(a)` is rewritten to exactly `ine(b2i32(a), 0)`, with a 32-bit zero, through state 3 and record `{3, 5, 0}`. |
| DxilAlgebraicSound.B2b1Sound | spirv-to-dxil-sys/native/mesa_mako/dxil_nir_algebraic.c:6227 | The `b2b1` rewrite keeps the value. |
| DxilAlgebraicSound.B2b32KeepsTruth | spirv-to-dxil-sys/native/mesa_mako/dxil_nir_algebraic.c:6226 | The `b2b32` rewrite is defined exactly when the original is, and it is non-zero exactly when the original is. |
| DxilAlgebraicSound.B2b32ChangesPattern | spirv-to-dxil-sys/native/mesa_mako/dxil_nir_algebraic.c:6226 | The `b2b32` rewrite does not keep the bit pattern: true is all ones before and 1 after. |
| Dxcsa.Shift | mach-siegbert-vogt-dxcsa/src/lib.rs:15-155 | Every rotation amount is strictly between 0 and 32. |
| Dxcsa.FourSteps | mach-siegbert-vogt-dxcsa/src/lib.rs:15-155 | The four steps of a group rotate the roles of `a, b, c, d`, as the unrolled `transform` does. |
| Dxcsa.Transform | mach-siegbert-vogt-dxcsa/src/lib.rs:15-155 | `transform` equals 64 steps of RFC 1321 section 3.4, then a word-wise wrapping add into the state. |
| Dxcsa.LeWordOfBytes | mach-siegbert-vogt-dxcsa/src/lib.rs:187-190 | Assembling the little-endian bytes of a word gives back the word. |
| Dxcsa.LeBytesOfWord | mach-siegbert-vogt-dxcsa/src/lib.rs:187-190 | The little-endian bytes of an assembled word are the four bytes it was assembled from. |
| Dxcsa.AbsorbConcat | mach-siegbert-vogt-dxcsa/src/lib.rs:180-197 | Absorbing whole blocks and then more data equals absorbing the concatenation. |
| Dxcsa.NewContext | mach-siegbert-vogt-dxcsa/src/lib.rs:158-164 | A new context has an empty 64-byte buffer and a zero bit count. |
| Dxcsa.CountAsWritten | mach-siegbert-vogt-dxcsa/src/lib.rs:171-178 | The low count word as written equals the corrected one; only the carry into the high word differs. |
| Dxcsa.CountAsWrittenSpuriousCarry | mach-siegbert-vogt-dxcsa/src/lib.rs:173-175 | The carry test as written adds 1 to the high word even for an empty update. |
| Dxcsa.CountAddsBits | mach-siegbert-vogt-dxcsa/src/lib.rs:177-178 | The corrected count adds `8 * len` to the 64-bit bit count, modulo 2^64. |
| Dxcsa.CountTracksPending | mach-siegbert-vogt-dxcsa/src/lib.rs:168 | After the count update, `mdi` has advanced by `len` modulo 64. |
| Dxcsa.Put | mach-siegbert-vogt-dxcsa/src/lib.rs:180-196 | Storing one byte appends it to the pending bytes, and a full block is compressed and cleared. |
| Dxcsa.Fill | mach-siegbert-vogt-dxcsa/src/lib.rs:180-197 | The byte loop compresses every whole 64-byte block of pending bytes plus data, in order. It keeps the rest pending, with `mdi` advanced modulo 64. |
| Dxcsa.Update | mach-siegbert-vogt-dxcsa/src/lib.rs:166-198 | `update` sets the bit counters as the code writes them (`CountAsWritten`). Whenever its carry test agrees with the corrected one, that adds `8 * len` to the 64-bit bit count modulo 2^64. It advances `mdi` by `len` modulo 64, absorbs pending bytes plus data into the state, and keeps the trailing bytes buffered. |
| DxcsaSign.Padding | mach-siegbert-vogt-dxcsa/src/lib.rs:1-6 | `PADDING` is 0x80 followed by 63 zeros. |
| DxcsaSign.LengthTag | mach-siegbert-vogt-dxcsa/src/lib.rs:227 | The final length word `(num_bits >> 2) \| 1` is odd. |
| DxcsaSign.FullChunks | mach-siegbert-vogt-dxcsa/src/lib.rs:212 | For a `u32` length, the bitwise `len & 0xffffffc0` is `len` rounded down to a multiple of 64, so the full-chunk prefix is whole blocks. |
| DxcsaSign.Chunks | mach-siegbert-vogt-dxcsa/src/lib.rs:214 | Updating a fresh context with the whole blocks compresses them all and leaves nothing pending. |
| DxcsaSign.MessageBlocks | mach-siegbert-vogt-dxcsa/src/lib.rs:212-245 | The finalised stream is whole blocks: one more block for a tail under 56 bytes, two more otherwise. |
| DxcsaSign.LongTail | mach-siegbert-vogt-dxcsa/src/lib.rs:219-228 | A tail of 56 bytes or more is padded to a full block. It is followed by a block holding only `num_bits` in word 0 and the tag in word 15. |
| DxcsaSign.ShortTail | mach-siegbert-vogt-dxcsa/src/lib.rs:229-245 | A shorter tail is compressed as one block: `num_bits` (LE), then the tail, then padding, with the tag written at the given byte. |
| DxcsaSign.StreamAt60 | mach-siegbert-vogt-dxcsa/src/lib.rs:227 | With the short-tail tag in word 15, as in the long-tail branch, `sign` compresses the DXCSA message. |
| DxcsaSign.Sign | mach-siegbert-vogt-dxcsa/src/lib.rs:202-248 | `sign` with the corrected tag position computes the DXCSA checksum of the container from byte 20 on. |
| DxcsaSign.SignAsWritten | mach-siegbert-vogt-dxcsa/src/lib.rs:202-248 | `sign` as written compresses the stream with the short-tail tag at bytes 15..18. When the tail is 56 bytes or more, that is the DXCSA checksum. |
| DxcsaSign.SignatureLongTail | mach-siegbert-vogt-dxcsa/src/lib.rs:219-240 | With a tail of 56 bytes or more, the as-written signature equals the DXCSA checksum: the misplaced tag is only in the short-tail branch. |
| DxcsaSign.AsWrittenDropsTag | mach-siegbert-vogt-dxcsa/src/lib.rs:240 | For a tail under 56 bytes, the as-written last block has a padding zero where DXCSA has the odd tag, so it hashes a different stream. |
| DxcsaSign.Signed | mach-siegbert-vogt-dxcsa/src/lib.rs:251-255 | The signed container has the same length, the same bytes 0..3 and 20 on, and in bytes 4..19 the digest `sign` computes as written over bytes 20 on. |
| DxcsaSign.SignInPlace | mach-siegbert-vogt-dxcsa/src/lib.rs:251-255 | `sign_in_place` writes the as-written signature of bytes 20 on into bytes 4..19 and leaves every other byte unchanged. |
| DxcsaSign.SignedIgnoresHeader | mach-siegbert-vogt-dxcsa/src/lib.rs:203-208 | The signature depends only on the bytes from 20 on. |
| DxcsaSign.SignedIdempotent | mach-siegbert-vogt-dxcsa/src/lib.rs:251-255 | Signing a signed container changes nothing. |
| Frontend.CheckRegisterSpaces | spirv-to-dxil/src/dxil.rs:23-30 | The guard passes exactly when both register spaces are at most 31. Otherwise it reports `RegisterSpaceOverflow` with the larger of the two. |
| Frontend.NumSpecializations | spirv-to-dxil/src/dxil.rs:31 | The count is 0 without specialisations, and otherwise the slice length cast to `u32`. |
| Frontend.EncodeCharNul | spirv-to-dxil/src/dxil.rs:99-101 | A character's UTF-8 bytes contain a zero exactly when it is NUL. |
| Frontend.EntryPoint | spirv-to-dxil/src/dxil.rs:99-101 | The entry point handed down ends in a zero byte. |
| Frontend.EntryPointReadBack | spirv-to-dxil/src/dxil.rs:99-101 | For a name without NUL, the C string the compiler reads is exactly the name's UTF-8 bytes. |
| Frontend.EntryPointTruncated | spirv-to-dxil/src/dxil.rs:99-101 | For a name with a NUL, the compiler reads only the part before the first NUL. |
| Dxil.OverflowBeforeCompiling | spirv-to-dxil/src/dxil.rs:23-30 | A register space above 31 yields `RegisterSpaceOverflow` whatever the native compiler would do, for both `spirv_to_dxil` and `dump_nir`. |
| Dxil.CompilesWithArgs | spirv-to-dxil/src/dxil.rs:91-117 | Past the guard, the result depends only on the compiler's answer for these arguments: the words, the specialisations and their count, the stage, the NUL-terminated entry point, the validator, dump off and the configuration. |
| Dxil.SpirvToDxil | spirv-to-dxil/src/dxil.rs:11-134 | A failing register-space guard is the result. Past it, the call succeeds exactly when the compiler does, a failure carries the compiler's log, and a success keeps the blob's length. |
| Dxil.DumpNir | spirv-to-dxil/src/dxil.rs:57-82 | `dump_nir` fails exactly when the register-space guard does, with the guard's error. |
| Dxil.SignsWithoutValidator | spirv-to-dxil/src/dxil.rs:121-131 | On success, the blob is signed exactly when the validator is `None`: bytes 4..19 hold the digest `sign` computes as written over bytes 20 on, and every other byte is the compiler's. Otherwise it is returned untouched. |
| Dxil.FailureCarriesLog | spirv-to-dxil/src/dxil.rs:119-134 | A failed compilation yields `CompilerError` with the compiler's log. |
| Dxil.NoShaderModelCheck | spirv-to-dxil/src/dxil.rs:11-54 | `spirv_to_dxil` never reports an invalid shader model. |
| Dxil.DumpNirResult | spirv-to-dxil/src/dxil.rs:57-82 | `dump_nir` fails exactly when the guard does. Otherwise it returns the compiler's boolean for the same call with dumping on. |
| Dxil.TestCompileConfigPasses | spirv-to-dxil/src/dxil.rs:171-180 | Register spaces 0 and 31, as in the test, pass the guard. |
| Dxil.DefaultConfigPasses | spirv-to-dxil/src/config.rs:37-54 | The default configuration, converted, passes the guard. |
| Dxbc.OverflowFirst | spirv-to-dxil/src/dxbc.rs:19-30 | The register-space check comes first: an overflow is reported whatever the shader model and the compiler. |
| Dxbc.ShaderModelGuard | spirv-to-dxil/src/dxbc.rs:28-30 | Past the register check, `InvalidShaderModel` carrying the model is returned exactly for the models newer than 5.1. |
| Dxbc.SpirvToDxbc | spirv-to-dxil/src/dxbc.rs:11-97 | The register-space error comes first, then `InvalidShaderModel` for models newer than 5.1. Past both, the call succeeds exactly when the compiler does, a failure carries the log, and a success keeps the blob's length. |
| Dxbc.AlwaysSigned | spirv-to-dxil/src/dxbc.rs:86-94 | A successful DXBC compilation is always signed: bytes 4..19 hold the digest `sign` computes as written over bytes 20 on, and the other bytes are kept. |
| Dxbc.FailureCarriesLog | spirv-to-dxil/src/dxbc.rs:84-97 | A failed compilation yields `CompilerError` with the compiler's log. |
| Dxbc.TestCompileConfigAccepted | spirv-to-dxil/src/dxbc.rs:112-130 | The test's configuration, with spaces 31 and 30 and model 5.1, passes both guards. |
| Dxbc.SameSigningAsDxil | spirv-to-dxil/src/dxbc.rs:86-94 | Given the same native blob, DXBC and unvalidated DXIL return the same signed bytes. |
| Config.DefaultRuntimeConfig | spirv-to-dxil/src/config.rs:37-54 | The runtime-data CBV is space 31, register 0. The push-constant CBV and the flip are zero. Only `zero_based_vertex_instance_id` is true. |
| Config.NativeRoundTrip | spirv-to-dxil/src/config.rs:56-80 | The conversion copies every field: reading it back gives the original configuration. |
| Config.NativeOnto | spirv-to-dxil/src/config.rs:56-80 | Every C configuration is the conversion of some Rust one. |
| Config.ToNativeInjective | spirv-to-dxil/src/config.rs:56-80 | Distinct configurations convert to distinct C configurations. |
| Config.DefaultNative | spirv-to-dxil/src/config.rs:40-47 | The converted default has bindings (31, 0) and (0, 0) and a zero flip. |
| Defs.DefaultBufferBinding | spirv-to-dxil-sys/src/defs.rs:4-9 | The default binding is space 0, register 0. |
| Defs.Discriminant | spirv-to-dxil-sys/src/defs.rs:14-23 | Discriminants lie in -1..6, and only `None` has -1. |
| Defs.StageOfDiscriminant | spirv-to-dxil-sys/src/defs.rs:14-23 | Every stage is recovered from its discriminant. |
| Defs.DiscriminantOfStage | spirv-to-dxil-sys/src/defs.rs:14-23 | Exactly -1..6 are discriminants, and each names the stage it was taken from. |
| Defs.DiscriminantInjective | spirv-to-dxil-sys/src/defs.rs:14-23 | Distinct stages have distinct discriminants. |
| Defs.DisplayIsVersion | spirv-to-dxil-sys/src/defs.rs:25-42 | Every shader model displays as `major.minor`. |
| Defs.DisplayInjective | spirv-to-dxil-sys/src/defs.rs:27-40 | No two shader models display the same string. |
| Defs.NewerThan51 | spirv-to-dxil/src/dxbc.rs:28 | The models ordered after 5.1 are exactly the 6.x ones. |
| Callbacks.Replace | bindings_generator/src/callbacks.rs:22-28 | `replace` leaves a string shorter than the pattern as it is. It keeps the length when the replacement is as long as the pattern, and never lengthens when it is shorter. |
| Callbacks.ReplaceSelf | bindings_generator/src/callbacks.rs:22-35 | Replacing a pattern by itself changes nothing. |
| Callbacks.ReplaceAbsent | bindings_generator/src/callbacks.rs:22-28 | `replace` leaves a string without the pattern unchanged. |
| Callbacks.ReplaceLeading | bindings_generator/src/callbacks.rs:22-28 | `replace` rewrites a leading occurrence, then continues after it. |
| Callbacks.RenameShaderStage | bindings_generator/src/callbacks.rs:7-20 | Every name `rename_shader_stage` returns is one of the eight stage variant names. |
| Callbacks.StageNamesExact | bindings_generator/src/callbacks.rs:10-17 | The eight variant names are exactly the names of the eight stages. |
| Callbacks.RenameShaderStageNames | bindings_generator/src/callbacks.rs:7-20 | Each of the eight suffixes, after any 4-character prefix, maps to its stage's name. |
| Callbacks.RenameShaderStageOnly | bindings_generator/src/callbacks.rs:7-20 | A name is renamed exactly when its part after the first 4 characters is one of the eight suffixes. |
| Callbacks.StageNameInjective | bindings_generator/src/callbacks.rs:10-17 | The eight suffixes map to distinct names. |
| Callbacks.RenameIgnoresPrefix | bindings_generator/src/callbacks.rs:8 | `DXIL...` and `DXBC...` variants with the same suffix are renamed alike. |
| Callbacks.RenameShaderModel | bindings_generator/src/callbacks.rs:22-24 | `rename_shader_model` always returns a name. |
| Callbacks.RenameShaderModelNames | bindings_generator/src/callbacks.rs:22-24 | `SHADER_MODEL_M_N` becomes `ShaderModelM_N` for every shader model. |
| Callbacks.RenameFlipModePrefix | bindings_generator/src/callbacks.rs:26-28 | The `DXIL_SPIRV_` prefix is deleted. |
| Callbacks.RenameValidatorVersion | bindings_generator/src/callbacks.rs:30-35 | A name is always returned, and the value 0 (signed or unsigned) gives `None`. |
| Callbacks.RenameValidatorNames | bindings_generator/src/callbacks.rs:30-35 | For other values, `DXIL_VALIDATOR_` becomes `Validator`. |
| Callbacks.EnumVariantName | bindings_generator/src/callbacks.rs:38-65 | Only the five listed enums are renamed. The two stage enums use `rename_shader_stage`, and the other three always give a name. |
| Callbacks.ItemName | bindings_generator/src/callbacks.rs:67-82 | `item_name` renames only listed type names, and never to the name itself. |
| Callbacks.ItemNameDomain | bindings_generator/src/callbacks.rs:67-82 | Exactly the nine listed names are renamed. |
| Callbacks.ItemNameBufferBinding | bindings_generator/src/callbacks.rs:69-75 | Exactly the four CBV member types become `BufferBinding`. |
| Callbacks.ItemNameShaderStage | bindings_generator/src/callbacks.rs:78-79 | Exactly the two stage enums become `ShaderStage`. |

## Left out

- Float rewrites: `fmin`/`fmax` clamps, `f2f`, `f2u`/`f2i` and the half-float packing rules are in the tables as opaque opcodes. Their values are not modelled, so only the integer rules (and `u2f`/`i2f` through an abstract rounding function) are proved value-preserving.
- The NIR engine: `nir_algebraic_impl`, the instruction graph, use replacement, dead-code removal and iteration to a fixpoint are not part of this model. Matching and building are modelled over expression trees, and structural equality stands in for SSA identity.
- Constant state: literals are in automaton state 1 and other non-ALU values in state 0. This is the engine's `CONST_STATE`, whose header is not part of this model.
- Commutative matching: the passes' roots all have `comm_exprs` 0, as `TableRootsInFamily` proves, so source swapping is not modelled.
- The native compilers (`spirv_to_dxil`, `spirv_to_dxbc` in C) are a function parameter. Their result, blob and log are whatever that function returns.
- Logging: the logger's C callbacks and `Box` leaking are not modelled. The log is a string that the native output carries.
- `object.rs`, `native.rs`, `ctypes.rs` and the `lib.rs` re-exports hold memory ownership, extern stubs and declarations only.
- `specialization.rs` and `runtime.rs` write into C unions and structs whose layout is not visible. A specialisation is an id with raw bytes, and the runtime configuration keeps only the fields the front end reads.
- `enums.rs` maps to bindgen constants whose values are not visible.
- The build script, `bindings_generator/src/main.rs` and `dxbc_sign/src/main.rs` are file I/O and process plumbing.
- Host byte order: the `bytemuck` casts in `sign` and `sign_in_place` are modelled as little-endian.
- Dxbc.ShaderModelGuard: the Rust code compares the bindgen discriminants of `ShaderModel`. These values are not visible, so the model orders shader models by version; it assumes the C enumerators are declared in version order.
- Callbacks.RenameShaderStage: slicing at 4 panics on a shorter name. The model makes at least 4 characters a precondition instead of modelling the panic. Rust's `&variant[4..]` slices bytes, while the model slices characters. Enumerator names are assumed ASCII, so characters and bytes coincide.
- Callbacks.EnumVariantName: for the two stage enums, the model inherits the same 4-character precondition and the same ASCII assumption.
- Dxil.SpirvToDxil and Dxbc.SpirvToDxbc: `sign_in_place` panics on a blob shorter than 20 bytes. The model requires the native compiler to return a blob it can sign (`SignsSafely`) rather than modelling the panic. Through `Frontend.Signable`, `SignsSafely` also inherits the bound of `DxcsaSign.Sign`: the bit count past byte 20, `8 * (length - 20)`, must fit in 32 bits, so a larger blob is outside the model. For such a blob, lib.rs:209-210 casts the length to `u32` and multiplies it by 8 in `u32` arithmetic, and the model does not say what that produces.
- Dxcsa.Update: the 64-bit bit count is promised only when the carry test as written agrees with the corrected one. Otherwise the high word carries the spurious 1 that `Dxcsa.CountAsWrittenSpuriousCarry` exhibits.
- DxcsaSign.Sign: `len` and `num_bits` are `u32`. The model requires `8 * (length - 20)` to fit in 32 bits, so a container of 512 MiB or more, where `num_bits` would wrap, is not modelled.
- The `InvalidShaderModel` error: `error.rs` declares only `CompilerError` and `RegisterSpaceOverflow`. The model adds the `InvalidShaderModel` case that `dxbc.rs` returns.
- `config.rs` is not declared as a module in `spirv-to-dxil/src/lib.rs`. It is modelled as written.
- The test that re-signs a real container (`mipmap.dxil.blob`) is not reproduced, because the blob's bytes are not available.

## Findings

| source | as written | input that shows it | evidently intended | confidence | as-written member | corrected member |
|---|---|---|---|---|---|---|
| mach-siegbert-vogt-dxcsa/src/lib.rs:173 | `(i[0] + len) << 3 < i[0]`: the length is added before shifting, and the shifted sum is compared | an update of 0 bytes with `i[0] = 0x2000_0000`: `0x2000_0000 << 3` wraps to 0, so `i[1]` gains a spurious 1 | carry when `i[0] + (len << 3)` wraps, as in RFC 1321 | not executed | Dxcsa.CountAsWrittenSpuriousCarry | Dxcsa.CountAddsBits |
| mach-siegbert-vogt-dxcsa/src/lib.rs:240 | the short-tail tag `(num_bits >> 2) \| 1` is copied into bytes 15..18 of the last block | a container of exactly 20 bytes (empty message): the last block keeps a zero in byte 60 and has the tag over the padding at byte 15 | the tag in word 15 (bytes 60..63), as the long-tail branch writes it at line 227 | not executed | DxcsaSign.AsWrittenDropsTag | DxcsaSign.StreamAt60 |

The carry finding does not change any checksum. The spurious carry only alters `i[1]`,
and `sign` never reads it. `Dxcsa.Update` sets the counters as written (`CountAsWritten`). Its
low word, which is all `sign` uses, is the corrected one.

The front ends sign as the code does. `DxcsaSign.SignInPlace`, `DxcsaSign.Signed`,
`Dxil.SignsWithoutValidator` and `Dxbc.AlwaysSigned` all use `DxcsaSign.Signature`,
the digest of the as-written stream. The corrected checksum (`DxcsaSign.Checksum`, computed by
`DxcsaSign.Sign`) is what the tag at byte 60 gives. `DxcsaSign.SignatureLongTail` proves
the two agree whenever the tail after the whole blocks is 56 bytes or more.
