/**
  The Rust-side runtime configuration of `config.rs`, its defaults, and its conversion
  into the C struct `dxil_spirv_runtime_conf` the native compiler reads. The flip mode
  is a set of bit flags; only its `bits()` value crosses into C, so it is kept as that
  number.
*/
module Config {
  import opened Arith
  import opened Defs

  /** `ConstantBufferConfig`. */
  datatype ConstantBufferConfig = ConstantBufferConfig(registerSpace: U32, baseShaderRegister: U32)

  /** `FlipMode`, by its `bits()`; the empty set of flags is 0. */
  datatype FlipMode = FlipMode(bits: U32)

  /** `FlipConfig`. */
  datatype FlipConfig = FlipConfig(mode: FlipMode, yMask: U16, zMask: U16)

  /** `RuntimeConfig`. */
  datatype RuntimeConfig = RuntimeConfig(
    runtimeDataCbv: ConstantBufferConfig,
    pushConstantCbv: ConstantBufferConfig,
    zeroBasedVertexInstanceId: bool,
    zeroBasedComputeWorkgroupId: bool,
    yzFlip: FlipConfig,
    readOnlyImagesAsSrvs: bool,
    forceSampleRateShading: bool,
    lowerViewIndex: bool,
    lowerViewIndexToRtLayer: bool)

  /** The C `dxil_spirv_runtime_conf_flip_conf`. */
  datatype NativeFlipConf = NativeFlipConf(mode: U32, yMask: U16, zMask: U16)

  /** The C `dxil_spirv_runtime_conf`, with the fields the conversion fills in. */
  datatype NativeRuntimeConf = NativeRuntimeConf(
    runtimeDataCbv: BufferBinding,
    pushConstantCbv: BufferBinding,
    zeroBasedVertexInstanceId: bool,
    zeroBasedComputeWorkgroupId: bool,
    yzFlip: NativeFlipConf,
    readOnlyImagesAsSrvs: bool,
    forceSampleRateShading: bool,
    lowerViewIndex: bool,
    lowerViewIndexToRtLayer: bool)

  /** `ConstantBufferConfig::default()`, derived: both fields zero. */
  function DefaultConstantBuffer(): (c: ConstantBufferConfig)
    ensures c.registerSpace == 0 && c.baseShaderRegister == 0
  {
    ConstantBufferConfig(0, 0)
  }

  /** `FlipConfig::default()`, derived: no flags, both masks zero. */
  function DefaultFlip(): (f: FlipConfig)
    ensures f.mode.bits == 0 && f.yMask == 0 && f.zMask == 0
  {
    FlipConfig(FlipMode(0), 0, 0)
  }

  /**
    `RuntimeConfig::default()`: the runtime-data buffer in register space 31, the push
    constants in space 0, vertex and instance ids already zero-based, everything else off.
  */
  function DefaultRuntimeConfig(): (c: RuntimeConfig)
    ensures c.runtimeDataCbv == ConstantBufferConfig(31, 0)
    ensures c.pushConstantCbv == ConstantBufferConfig(0, 0)
    ensures c.yzFlip == FlipConfig(FlipMode(0), 0, 0)
    ensures c.zeroBasedVertexInstanceId
    ensures !c.zeroBasedComputeWorkgroupId && !c.readOnlyImagesAsSrvs && !c.forceSampleRateShading
    ensures !c.lowerViewIndex && !c.lowerViewIndexToRtLayer
  {
    RuntimeConfig(
      ConstantBufferConfig(31, 0),
      DefaultConstantBuffer(),
      true,
      false,
      DefaultFlip(),
      false,
      false,
      false,
      false)
  }

  /** The C binding of a constant-buffer configuration, field for field. */
  function ToBinding(c: ConstantBufferConfig): BufferBinding {
    BufferBinding(c.registerSpace, c.baseShaderRegister)
  }

  /** `From<RuntimeConfig> for dxil_spirv_runtime_conf`. */
  function ToNative(c: RuntimeConfig): NativeRuntimeConf {
    NativeRuntimeConf(
      ToBinding(c.runtimeDataCbv),
      ToBinding(c.pushConstantCbv),
      c.zeroBasedVertexInstanceId,
      c.zeroBasedComputeWorkgroupId,
      NativeFlipConf(c.yzFlip.mode.bits, c.yzFlip.yMask, c.yzFlip.zMask),
      c.readOnlyImagesAsSrvs,
      c.forceSampleRateShading,
      c.lowerViewIndex,
      c.lowerViewIndexToRtLayer)
  }

  /** Reading a C configuration back as a Rust one: the inverse of `ToNative`. */
  function FromNative(n: NativeRuntimeConf): RuntimeConfig {
    RuntimeConfig(
      ConstantBufferConfig(n.runtimeDataCbv.registerSpace, n.runtimeDataCbv.baseShaderRegister),
      ConstantBufferConfig(n.pushConstantCbv.registerSpace, n.pushConstantCbv.baseShaderRegister),
      n.zeroBasedVertexInstanceId,
      n.zeroBasedComputeWorkgroupId,
      FlipConfig(FlipMode(n.yzFlip.mode), n.yzFlip.yMask, n.yzFlip.zMask),
      n.readOnlyImagesAsSrvs,
      n.forceSampleRateShading,
      n.lowerViewIndex,
      n.lowerViewIndexToRtLayer)
  }

  /** The conversion loses nothing: every field of the Rust configuration comes back. */
  lemma NativeRoundTrip(c: RuntimeConfig)
    ensures FromNative(ToNative(c)) == c
  {
  }

  /** Every C configuration is the conversion of exactly one Rust configuration. */
  lemma NativeOnto(n: NativeRuntimeConf)
    ensures ToNative(FromNative(n)) == n
  {
  }

  /** Distinct Rust configurations convert to distinct C ones. */
  lemma ToNativeInjective(c: RuntimeConfig, d: RuntimeConfig)
    ensures ToNative(c) == ToNative(d) ==> c == d
  {
    NativeRoundTrip(c);
    NativeRoundTrip(d);
  }

  /** The converted default: space 31 for runtime data, 0 for push constants, no flip. */
  lemma DefaultNative()
    ensures ToNative(DefaultRuntimeConfig()).runtimeDataCbv == BufferBinding(31, 0)
    ensures ToNative(DefaultRuntimeConfig()).pushConstantCbv == DefaultBufferBinding()
    ensures ToNative(DefaultRuntimeConfig()).yzFlip == NativeFlipConf(0, 0, 0)
  {
  }
}
