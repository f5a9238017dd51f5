/**
  What `spirv_to_dxil` and `spirv_to_dxbc` share: the error type, the register-space
  guard both apply before calling the native compiler, the NUL-terminated entry point
  they hand down, and the count of specialisation constants.

  The native compiler is not modelled: each entry point takes it as a function from
  the arguments it is handed to a `NativeOutput`, the boolean it returns together with
  the object it fills in and the text its logger collected.
*/
module Frontend {
  import opened Wrappers
  import opened Arith
  import opened Defs
  import opened Dxcsa

  /** `SpirvToDxilError`, with the `InvalidShaderModel` case `spirv_to_dxbc` returns. */
  datatype SpirvToDxilError =
    | CompilerError(log: string)
    | RegisterSpaceOverflow(space: U32)
    | InvalidShaderModel(model: ShaderModel)

  /** `ValidatorVersion`: no validation (the blob is then signed here), or validator 1.`minor`. */
  datatype ValidatorVersion = NoValidation | Validator(minor: nat)

  /** A specialisation constant; its value is a C union and is carried as raw bytes. */
  datatype Specialization = Specialization(id: U32, value: seq<Byte>)

  /**
    The fields of the C runtime configuration the front end reads; the others are
    handed to the native compiler as they are.
  */
  datatype RuntimeConf = RuntimeConf(runtimeDataCbv: BufferBinding, pushConstantCbv: BufferBinding, shaderModelMax: ShaderModel)

  /** What a native compilation yields: its boolean result, the blob it wrote, and the log. */
  datatype NativeOutput = NativeOutput(ok: bool, binary: seq<Byte>, log: string)

  /** The largest register space a constant buffer may use. */
  const MaxRegisterSpace: U32 := 31

  /**
    The guard at the head of `spirv_to_dxil_inner` and `spirv_to_dxbc_inner`: both
    register spaces must be at most 31, else the larger one is reported.
  */
  function CheckRegisterSpaces(conf: RuntimeConf): (r: Result<(), SpirvToDxilError>)
    ensures r.Ok? <==> conf.pushConstantCbv.registerSpace <= MaxRegisterSpace && conf.runtimeDataCbv.registerSpace <= MaxRegisterSpace
    ensures r.Err? ==> r.error.RegisterSpaceOverflow? && r.error.space > MaxRegisterSpace
    ensures r.Err? ==> r.error.space >= conf.pushConstantCbv.registerSpace && r.error.space >= conf.runtimeDataCbv.registerSpace
    ensures r.Err? ==> r.error.space == conf.pushConstantCbv.registerSpace || r.error.space == conf.runtimeDataCbv.registerSpace
  {
    var push, runtime := conf.pushConstantCbv.registerSpace, conf.runtimeDataCbv.registerSpace;
    if push > 31 || runtime > 31 then
      Err(RegisterSpaceOverflow(if push >= runtime then push else runtime))
    else
      Ok(())
  }

  /** `specializations.map(|o| o.len()).unwrap_or(0) as u32`. */
  function NumSpecializations(specs: Option<seq<Specialization>>): (n: U32)
    ensures specs.None? ==> n == 0
    ensures specs.Some? && |specs.value| < Two32 ==> n == |specs.value|
    ensures specs.Some? ==> n % Two32 == |specs.value| % Two32
  {
    match specs
    case None => 0
    case Some(s) => AsU32(|s|)
  }

  // ---------------------------------------------------------------------------
  // The entry point

  /** The byte `x`, below 256; the only zero byte is the one made from 0. */
  function Octet(x: nat): (b: Byte)
    requires x < 256
    ensures b == 0 <==> x == 0
  {
    x as Byte
  }

  /** The UTF-8 encoding of one character (`String::into_bytes`). */
  function EncodeChar(c: char): (b: seq<Byte>)
    ensures 1 <= |b| <= 4
  {
    var v := c as int;
    if v < 0x80 then [Octet(v)]
    else if v < 0x800 then [Octet(0xC0 + v / 0x40), Octet(0x80 + v % 0x40)]
    else if v < 0x1_0000 then [Octet(0xE0 + v / 0x1000), Octet(0x80 + v / 0x40 % 0x40), Octet(0x80 + v % 0x40)]
    else [Octet(0xF0 + v / 0x4_0000), Octet(0x80 + v / 0x1000 % 0x40), Octet(0x80 + v / 0x40 % 0x40), Octet(0x80 + v % 0x40)]
  }

  /** The UTF-8 encoding of a string. */
  function Utf8(s: string): seq<Byte>
    decreases |s|
  {
    if |s| == 0 then [] else EncodeChar(s[0]) + Utf8(s[1..])
  }

  /** No zero byte in `b`. */
  predicate NoNul(b: seq<Byte>) {
    forall i :: 0 <= i < |b| ==> b[i] != 0
  }

  /** A character is encoded without a zero byte exactly when it is not NUL. */
  lemma EncodeCharNul(c: char)
    ensures NoNul(EncodeChar(c)) <==> c != '\0'
  {
    var v := c as int;
    assert c == '\0' <==> v == 0;
    var b := EncodeChar(c);
    if v < 0x80 {
      assert b == [Octet(v)];
      assert b[0] == 0 <==> v == 0;
    }
  }

  /** A string without NUL characters is encoded without zero bytes. */
  lemma {:induction false} Utf8NoNul(s: string)
    requires forall i :: 0 <= i < |s| ==> s[i] != '\0'
    ensures NoNul(Utf8(s))
    decreases |s|
  {
    if |s| > 0 {
      EncodeCharNul(s[0]);
      Utf8NoNul(s[1..]);
    }
  }

  /** The encoding of `s + t` is the encoding of `s`, then that of `t`. */
  lemma {:induction false} Utf8Concat(s: string, t: string)
    ensures Utf8(s + t) == Utf8(s) + Utf8(t)
    decreases |s|
  {
    if |s| == 0 {
      assert s + t == t;
    } else {
      assert (s + t)[1..] == s[1..] + t;
      Utf8Concat(s[1..], t);
    }
  }

  /**
    The entry point as both front ends hand it down: the UTF-8 bytes of the name
    followed by a single zero byte.
  */
  function EntryPoint(name: string): (b: seq<Byte>)
    ensures |b| >= 1 && b[|b| - 1] == 0
  {
    Utf8(name) + [0]
  }

  /** The C string read from `b`: the bytes before the first zero. */
  function CStr(b: seq<Byte>): seq<Byte>
    decreases |b|
  {
    if |b| == 0 || b[0] == 0 then [] else [b[0]] + CStr(b[1..])
  }

  /** Bytes with no zero, then a zero, read back as a C string, are those bytes. */
  lemma {:induction false} CStrOfTerminated(b: seq<Byte>, rest: seq<Byte>)
    requires NoNul(b)
    ensures CStr(b + [0] + rest) == b
    decreases |b|
  {
    if |b| > 0 {
      assert (b + [0] + rest)[1..] == b[1..] + [0] + rest;
      CStrOfTerminated(b[1..], rest);
    }
  }

  /** The native compiler reads back exactly the name, when it has no NUL character. */
  lemma EntryPointReadBack(name: string)
    requires forall i :: 0 <= i < |name| ==> name[i] != '\0'
    ensures CStr(EntryPoint(name)) == Utf8(name)
  {
    Utf8NoNul(name);
    CStrOfTerminated(Utf8(name), []);
    assert Utf8(name) + [0] + [] == EntryPoint(name);
  }

  /** A name with a NUL character is cut short there: the native compiler sees only what precedes it. */
  lemma EntryPointTruncated(name: string, k: nat)
    requires k < |name| && name[k] == '\0'
    requires forall i :: 0 <= i < k ==> name[i] != '\0'
    ensures CStr(EntryPoint(name)) == Utf8(name[..k])
  {
    assert name == name[..k] + ([name[k]] + name[k + 1..]);
    Utf8Concat(name[..k], [name[k]] + name[k + 1..]);
    Utf8Concat([name[k]], name[k + 1..]);
    assert Utf8([name[k]]) == EncodeChar('\0') + Utf8([]);
    Utf8NoNul(name[..k]);
    CStrOfTerminated(Utf8(name[..k]), Utf8(name[k + 1..]) + [0]);
    assert EntryPoint(name) == Utf8(name[..k]) + [0] + (Utf8(name[k + 1..]) + [0]);
  }

  // ---------------------------------------------------------------------------
  // Signing

  /**
    A blob `sign_in_place` can sign: at least the 20 bytes it skips, and few enough
    that its length in bits fits in 32 bits. A shorter blob makes the slicing panic.
  */
  predicate Signable(blob: seq<Byte>) {
    |blob| >= 20 && (|blob| - 20) * 8 < Two32
  }
}
