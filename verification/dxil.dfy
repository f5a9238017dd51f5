/**
  `spirv_to_dxil` and `dump_nir`: check the register spaces, hand the words, the
  specialisations, the NUL-terminated entry point and the configuration to the native
  compiler, and on success sign the blob when no validator will.
*/
module Dxil {
  import opened Wrappers
  import opened Arith
  import opened Defs
  import opened Dxcsa
  import opened DxcsaSign
  import opened Config
  import opened Frontend

  /** What `spirv_to_dxil_inner` hands the native `spirv_to_dxil`. */
  datatype DxilArgs = DxilArgs(
    words: seq<U32>,
    specializations: Option<seq<Specialization>>,
    numSpecializations: U32,
    stage: ShaderStage,
    entryPoint: seq<Byte>,
    validatorMax: ValidatorVersion,
    dumpNir: bool,
    conf: RuntimeConf)

  /** `DxilObject`: the compiled blob. */
  datatype DxilObject = DxilObject(binary: seq<Byte>)

  /** The arguments of the native call for the given inputs. */
  function Args(words: seq<U32>, specs: Option<seq<Specialization>>, entry: seq<Byte>, stage: ShaderStage,
                validator: ValidatorVersion, conf: RuntimeConf, dumpNir: bool): (a: DxilArgs)
    ensures a.numSpecializations == NumSpecializations(specs)
  {
    DxilArgs(words, specs, NumSpecializations(specs), stage, entry, validator, dumpNir, conf)
  }

  /** `spirv_to_dxil_inner`: the guard, then the native call. */
  function Inner(compile: DxilArgs -> NativeOutput, words: seq<U32>, specs: Option<seq<Specialization>>,
                 entry: seq<Byte>, stage: ShaderStage, validator: ValidatorVersion, conf: RuntimeConf,
                 dumpNir: bool): Result<NativeOutput, SpirvToDxilError>
  {
    var guard := CheckRegisterSpaces(conf);
    if guard.Err? then Err(guard.error)
    else Ok(compile(Args(words, specs, entry, stage, validator, conf, dumpNir)))
  }

  /** The native compiler's output for `spirv_to_dxil`, whether or not the guard lets it run. */
  function Output(compile: DxilArgs -> NativeOutput, words: seq<U32>, specs: Option<seq<Specialization>>,
                  name: string, stage: ShaderStage, validator: ValidatorVersion, conf: RuntimeConf): NativeOutput
  {
    compile(Args(words, specs, EntryPoint(name), stage, validator, conf, false))
  }

  /**
    What `spirv_to_dxil` needs of the native compiler: a blob it will sign is long
    enough to sign.
  */
  predicate SignsSafely(compile: DxilArgs -> NativeOutput, words: seq<U32>, specs: Option<seq<Specialization>>,
                        name: string, stage: ShaderStage, validator: ValidatorVersion, conf: RuntimeConf)
  {
    var out := Output(compile, words, specs, name, stage, validator, conf);
    CheckRegisterSpaces(conf).Ok? && out.ok && validator == NoValidation ==> Signable(out.binary)
  }

  /** `spirv_to_dxil`. */
  function SpirvToDxil(compile: DxilArgs -> NativeOutput, words: seq<U32>, specs: Option<seq<Specialization>>,
                       name: string, stage: ShaderStage, validator: ValidatorVersion, conf: RuntimeConf): (r: Result<DxilObject, SpirvToDxilError>)
    requires SignsSafely(compile, words, specs, name, stage, validator, conf)
    ensures CheckRegisterSpaces(conf).Err? ==> r == Err(CheckRegisterSpaces(conf).error)
    ensures CheckRegisterSpaces(conf).Ok? ==>
              var out := Output(compile, words, specs, name, stage, validator, conf);
              (r.Ok? <==> out.ok)
              && (!out.ok ==> r == Err(CompilerError(out.log)))
              && (out.ok ==> |r.value.binary| == |out.binary|)
  {
    var r := Inner(compile, words, specs, EntryPoint(name), stage, validator, conf, false);
    if r.Err? then Err(r.error)
    else if r.value.ok then
      Ok(DxilObject(if validator == NoValidation then Signed(r.value.binary) else r.value.binary))
    else Err(CompilerError(r.value.log))
  }

  /** `dump_nir`: the same guard and call with NIR dumping on; the native result is returned as is. */
  function DumpNir(compile: DxilArgs -> NativeOutput, words: seq<U32>, specs: Option<seq<Specialization>>,
                   name: string, stage: ShaderStage, validator: ValidatorVersion, conf: RuntimeConf): (r: Result<bool, SpirvToDxilError>)
    ensures r.Err? <==> CheckRegisterSpaces(conf).Err?
    ensures r.Err? ==> r.error == CheckRegisterSpaces(conf).error
  {
    var r := Inner(compile, words, specs, EntryPoint(name), stage, validator, conf, true);
    if r.Err? then Err(r.error) else Ok(r.value.ok)
  }

  // ---------------------------------------------------------------------------
  // Properties

  /**
    A register space above 31 is reported before the native compiler runs: the result
    is that error, the same whatever the compiler would have done.
  */
  lemma OverflowBeforeCompiling(c1: DxilArgs -> NativeOutput, c2: DxilArgs -> NativeOutput, words: seq<U32>,
                                specs: Option<seq<Specialization>>, name: string, stage: ShaderStage,
                                validator: ValidatorVersion, conf: RuntimeConf)
    requires conf.pushConstantCbv.registerSpace > 31 || conf.runtimeDataCbv.registerSpace > 31
    ensures SignsSafely(c1, words, specs, name, stage, validator, conf)
    ensures SpirvToDxil(c1, words, specs, name, stage, validator, conf).Err?
    ensures SpirvToDxil(c1, words, specs, name, stage, validator, conf).error.RegisterSpaceOverflow?
    ensures SpirvToDxil(c1, words, specs, name, stage, validator, conf).error.space > 31
    ensures SignsSafely(c2, words, specs, name, stage, validator, conf)
    ensures SpirvToDxil(c1, words, specs, name, stage, validator, conf) == SpirvToDxil(c2, words, specs, name, stage, validator, conf)
    ensures DumpNir(c1, words, specs, name, stage, validator, conf) == DumpNir(c2, words, specs, name, stage, validator, conf)
  {
  }

  /**
    Past the guard, the native compiler is asked once, with the NUL-terminated entry
    point, the number of specialisations and NIR dumping off: two compilers that
    answer that one question alike give the same result.
  */
  lemma CompilesWithArgs(c1: DxilArgs -> NativeOutput, c2: DxilArgs -> NativeOutput, words: seq<U32>,
                         specs: Option<seq<Specialization>>, name: string, stage: ShaderStage,
                         validator: ValidatorVersion, conf: RuntimeConf)
    requires SignsSafely(c1, words, specs, name, stage, validator, conf)
    requires c1(DxilArgs(words, specs, NumSpecializations(specs), stage, Utf8(name) + [0], validator, false, conf))
          == c2(DxilArgs(words, specs, NumSpecializations(specs), stage, Utf8(name) + [0], validator, false, conf))
    ensures SignsSafely(c2, words, specs, name, stage, validator, conf)
    ensures SpirvToDxil(c1, words, specs, name, stage, validator, conf) == SpirvToDxil(c2, words, specs, name, stage, validator, conf)
  {
  }

  /**
    A successful compilation is signed exactly when no validator is requested: then
    bytes 4..19 hold the checksum of the blob from byte 20 on and every other byte is
    the compiler's; otherwise the blob is returned untouched.
  */
  lemma SignsWithoutValidator(compile: DxilArgs -> NativeOutput, words: seq<U32>, specs: Option<seq<Specialization>>,
                              name: string, stage: ShaderStage, validator: ValidatorVersion, conf: RuntimeConf)
    requires SignsSafely(compile, words, specs, name, stage, validator, conf)
    requires CheckRegisterSpaces(conf).Ok? && Output(compile, words, specs, name, stage, validator, conf).ok
    ensures var out := Output(compile, words, specs, name, stage, validator, conf);
      var r := SpirvToDxil(compile, words, specs, name, stage, validator, conf);
      && r.Ok?
      && |r.value.binary| == |out.binary|
      && (validator == NoValidation ==>
            r.value.binary[..4] == out.binary[..4]
            && r.value.binary[4..20] == DigestBytes(Signature(out.binary[20..]))
            && r.value.binary[20..] == out.binary[20..])
      && (validator != NoValidation ==> r.value.binary == out.binary)
  {
  }

  /** A compilation that fails yields `CompilerError` with the log the compiler wrote. */
  lemma FailureCarriesLog(compile: DxilArgs -> NativeOutput, words: seq<U32>, specs: Option<seq<Specialization>>,
                          name: string, stage: ShaderStage, validator: ValidatorVersion, conf: RuntimeConf)
    requires CheckRegisterSpaces(conf).Ok? && !Output(compile, words, specs, name, stage, validator, conf).ok
    ensures SignsSafely(compile, words, specs, name, stage, validator, conf)
    ensures SpirvToDxil(compile, words, specs, name, stage, validator, conf)
         == Err(CompilerError(Output(compile, words, specs, name, stage, validator, conf).log))
  {
  }

  /** `spirv_to_dxil` never reports an invalid shader model: only `spirv_to_dxbc` checks it. */
  lemma NoShaderModelCheck(compile: DxilArgs -> NativeOutput, words: seq<U32>, specs: Option<seq<Specialization>>,
                           name: string, stage: ShaderStage, validator: ValidatorVersion, conf: RuntimeConf)
    requires SignsSafely(compile, words, specs, name, stage, validator, conf)
    ensures var r := SpirvToDxil(compile, words, specs, name, stage, validator, conf);
      r.Err? ==> !r.error.InvalidShaderModel?
  {
  }

  /** `dump_nir` asks for the NIR dump and returns the compiler's boolean past the same guard. */
  lemma DumpNirResult(compile: DxilArgs -> NativeOutput, words: seq<U32>, specs: Option<seq<Specialization>>,
                      name: string, stage: ShaderStage, validator: ValidatorVersion, conf: RuntimeConf)
    ensures var r := DumpNir(compile, words, specs, name, stage, validator, conf);
      && (r.Err? <==> CheckRegisterSpaces(conf).Err?)
      && (r.Err? ==> r.error.RegisterSpaceOverflow?)
      && (r.Ok? ==> r.value == compile(DxilArgs(words, specs, NumSpecializations(specs), stage, Utf8(name) + [0], validator, true, conf)).ok)
  {
  }

  /** The configuration of `test_compile` (spaces 0 and 31) passes the guard: 31 is allowed. */
  lemma TestCompileConfigPasses(m: ShaderModel)
    ensures CheckRegisterSpaces(RuntimeConf(BufferBinding(0, 0), BufferBinding(31, 1), m)).Ok?
  {
  }

  /** The default `RuntimeConfig`, converted, passes the guard (spaces 31 and 0). */
  lemma DefaultConfigPasses(m: ShaderModel)
    ensures var n := ToNative(DefaultRuntimeConfig());
      CheckRegisterSpaces(RuntimeConf(n.runtimeDataCbv, n.pushConstantCbv, m)).Ok?
  {
  }
}
