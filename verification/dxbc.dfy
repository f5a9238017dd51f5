/**
  `spirv_to_dxbc`: the register-space guard, then a shader-model guard (DXBC stops at
  shader model 5.1), the native call, and on success a signed blob, always.
*/
module Dxbc {
  import opened Wrappers
  import opened Arith
  import opened Defs
  import opened Dxcsa
  import opened DxcsaSign
  import opened Frontend
  import Dxil

  /** What `spirv_to_dxbc_inner` hands the native `spirv_to_dxbc`. */
  datatype DxbcArgs = DxbcArgs(
    words: seq<U32>,
    specializations: Option<seq<Specialization>>,
    numSpecializations: U32,
    stage: ShaderStage,
    entryPoint: seq<Byte>,
    conf: RuntimeConf)

  /** `DxbcObject`: the compiled blob. */
  datatype DxbcObject = DxbcObject(binary: seq<Byte>)

  /** The arguments of the native call for the given inputs. */
  function Args(words: seq<U32>, specs: Option<seq<Specialization>>, entry: seq<Byte>, stage: ShaderStage,
                conf: RuntimeConf): (a: DxbcArgs)
    ensures a.numSpecializations == NumSpecializations(specs)
  {
    DxbcArgs(words, specs, NumSpecializations(specs), stage, entry, conf)
  }

  /** `spirv_to_dxbc_inner`: the register spaces, then the shader model, then the native call. */
  function Inner(compile: DxbcArgs -> NativeOutput, words: seq<U32>, specs: Option<seq<Specialization>>,
                 entry: seq<Byte>, stage: ShaderStage, conf: RuntimeConf): Result<NativeOutput, SpirvToDxilError>
  {
    var guard := CheckRegisterSpaces(conf);
    if guard.Err? then Err(guard.error)
    else if Newer(conf.shaderModelMax, ShaderModel5_1) then Err(InvalidShaderModel(conf.shaderModelMax))
    else Ok(compile(Args(words, specs, entry, stage, conf)))
  }

  /** The native compiler's output for `spirv_to_dxbc`, whether or not the guards let it run. */
  function Output(compile: DxbcArgs -> NativeOutput, words: seq<U32>, specs: Option<seq<Specialization>>,
                  name: string, stage: ShaderStage, conf: RuntimeConf): NativeOutput
  {
    compile(Args(words, specs, EntryPoint(name), stage, conf))
  }

  /** Both guards pass. */
  predicate Accepted(conf: RuntimeConf) {
    CheckRegisterSpaces(conf).Ok? && !Newer(conf.shaderModelMax, ShaderModel5_1)
  }

  /** What `spirv_to_dxbc` needs of the native compiler: a successful blob is long enough to sign. */
  predicate SignsSafely(compile: DxbcArgs -> NativeOutput, words: seq<U32>, specs: Option<seq<Specialization>>,
                        name: string, stage: ShaderStage, conf: RuntimeConf)
  {
    var out := Output(compile, words, specs, name, stage, conf);
    Accepted(conf) && out.ok ==> Signable(out.binary)
  }

  /** `spirv_to_dxbc`. */
  function SpirvToDxbc(compile: DxbcArgs -> NativeOutput, words: seq<U32>, specs: Option<seq<Specialization>>,
                       name: string, stage: ShaderStage, conf: RuntimeConf): (r: Result<DxbcObject, SpirvToDxilError>)
    requires SignsSafely(compile, words, specs, name, stage, conf)
    ensures CheckRegisterSpaces(conf).Err? ==> r == Err(CheckRegisterSpaces(conf).error)
    ensures CheckRegisterSpaces(conf).Ok? && Newer(conf.shaderModelMax, ShaderModel5_1) ==>
              r == Err(InvalidShaderModel(conf.shaderModelMax))
    ensures Accepted(conf) ==>
              var out := Output(compile, words, specs, name, stage, conf);
              (r.Ok? <==> out.ok)
              && (!out.ok ==> r == Err(CompilerError(out.log)))
              && (out.ok ==> |r.value.binary| == |out.binary|)
  {
    var r := Inner(compile, words, specs, EntryPoint(name), stage, conf);
    if r.Err? then Err(r.error)
    else if r.value.ok then Ok(DxbcObject(Signed(r.value.binary)))
    else Err(CompilerError(r.value.log))
  }

  // ---------------------------------------------------------------------------
  // Properties

  /**
    A register space above 31 is reported first, whatever the shader model and before
    the native compiler runs.
  */
  lemma OverflowFirst(c1: DxbcArgs -> NativeOutput, c2: DxbcArgs -> NativeOutput, words: seq<U32>,
                      specs: Option<seq<Specialization>>, name: string, stage: ShaderStage, conf: RuntimeConf)
    requires conf.pushConstantCbv.registerSpace > 31 || conf.runtimeDataCbv.registerSpace > 31
    ensures SignsSafely(c1, words, specs, name, stage, conf) && SignsSafely(c2, words, specs, name, stage, conf)
    ensures var r := SpirvToDxbc(c1, words, specs, name, stage, conf);
      r.Err? && r.error.RegisterSpaceOverflow? && r.error.space > 31
      && r.error.space >= conf.pushConstantCbv.registerSpace && r.error.space >= conf.runtimeDataCbv.registerSpace
    ensures SpirvToDxbc(c1, words, specs, name, stage, conf) == SpirvToDxbc(c2, words, specs, name, stage, conf)
  {
  }

  /**
    With the register spaces in range, a shader model newer than 5.1 (a 6.x one) is
    refused, naming that model, before the native compiler runs; 5.1 and older pass.
  */
  lemma ShaderModelGuard(compile: DxbcArgs -> NativeOutput, words: seq<U32>, specs: Option<seq<Specialization>>,
                         name: string, stage: ShaderStage, conf: RuntimeConf)
    requires CheckRegisterSpaces(conf).Ok?
    requires SignsSafely(compile, words, specs, name, stage, conf)
    ensures var r := SpirvToDxbc(compile, words, specs, name, stage, conf);
      (r.Err? && r.error.InvalidShaderModel?) <==> Major(conf.shaderModelMax) == 6
    ensures var r := SpirvToDxbc(compile, words, specs, name, stage, conf);
      r.Err? && r.error.InvalidShaderModel? ==> r.error.model == conf.shaderModelMax
  {
    NewerThan51(conf.shaderModelMax);
  }

  /** A successful compilation is always signed: bytes 4..19 hold the checksum, the others are the compiler's. */
  lemma AlwaysSigned(compile: DxbcArgs -> NativeOutput, words: seq<U32>, specs: Option<seq<Specialization>>,
                     name: string, stage: ShaderStage, conf: RuntimeConf)
    requires Accepted(conf) && Output(compile, words, specs, name, stage, conf).ok
    requires SignsSafely(compile, words, specs, name, stage, conf)
    ensures var out := Output(compile, words, specs, name, stage, conf);
      var r := SpirvToDxbc(compile, words, specs, name, stage, conf);
      && r.Ok?
      && |r.value.binary| == |out.binary|
      && r.value.binary[..4] == out.binary[..4]
      && r.value.binary[4..20] == DigestBytes(Signature(out.binary[20..]))
      && r.value.binary[20..] == out.binary[20..]
  {
  }

  /** A compilation that fails yields `CompilerError` with the log the compiler wrote. */
  lemma FailureCarriesLog(compile: DxbcArgs -> NativeOutput, words: seq<U32>, specs: Option<seq<Specialization>>,
                          name: string, stage: ShaderStage, conf: RuntimeConf)
    requires Accepted(conf) && !Output(compile, words, specs, name, stage, conf).ok
    ensures SignsSafely(compile, words, specs, name, stage, conf)
    ensures SpirvToDxbc(compile, words, specs, name, stage, conf)
         == Err(CompilerError(Output(compile, words, specs, name, stage, conf).log))
  {
  }

  /** The configuration of the DXBC `test_compile` (spaces 31 and 30, model 5.1) passes both guards. */
  lemma TestCompileConfigAccepted()
    ensures Accepted(RuntimeConf(BufferBinding(31, 0), BufferBinding(30, 0), ShaderModel5_1))
  {
  }

  /**
    Given the same blob from the native compiler, `spirv_to_dxbc` and `spirv_to_dxil`
    without a validator return the same signed bytes.
  */
  lemma SameSigningAsDxil(cb: DxbcArgs -> NativeOutput, cd: Dxil.DxilArgs -> NativeOutput, words: seq<U32>,
                          specs: Option<seq<Specialization>>, name: string, stage: ShaderStage, conf: RuntimeConf)
    requires Accepted(conf)
    requires Output(cb, words, specs, name, stage, conf) == Dxil.Output(cd, words, specs, name, stage, NoValidation, conf)
    requires SignsSafely(cb, words, specs, name, stage, conf)
    requires Dxil.SignsSafely(cd, words, specs, name, stage, NoValidation, conf)
    ensures SpirvToDxbc(cb, words, specs, name, stage, conf).Ok? <==> Dxil.SpirvToDxil(cd, words, specs, name, stage, NoValidation, conf).Ok?
    ensures SpirvToDxbc(cb, words, specs, name, stage, conf).Ok? ==>
      SpirvToDxbc(cb, words, specs, name, stage, conf).value.binary == Dxil.SpirvToDxil(cd, words, specs, name, stage, NoValidation, conf).value.binary
  {
  }
}
