/**
  The plain types of the `spirv-to-dxil-sys` crate that the front end relies on: the
  constant-buffer binding, the shader stages with their `repr(i32)` discriminants, and
  the shader models with the `major.minor` text `Display` prints for them.
*/
module Defs {
  import opened Wrappers
  import opened Arith

  /** `BufferBinding`: where a constant buffer is bound. */
  datatype BufferBinding = BufferBinding(registerSpace: U32, baseShaderRegister: U32)

  /** `BufferBinding::default()`, derived: both fields zero. */
  function DefaultBufferBinding(): (b: BufferBinding)
    ensures b.registerSpace == 0 && b.baseShaderRegister == 0
  {
    BufferBinding(0, 0)
  }

  // ---------------------------------------------------------------------------
  // Shader stages

  /** `ShaderStage`. */
  datatype ShaderStage =
    | NoStage
    | Vertex
    | TesselationControl
    | TesselationEvaluation
    | Geometry
    | Fragment
    | Compute
    | Kernel

  /** The `repr(i32)` discriminant: `None` is -1, the stages count up from 0. */
  function Discriminant(s: ShaderStage): (d: int)
    ensures -1 <= d <= 6
    ensures d == -1 <==> s == NoStage
  {
    match s
    case NoStage => -1
    case Vertex => 0
    case TesselationControl => 1
    case TesselationEvaluation => 2
    case Geometry => 3
    case Fragment => 4
    case Compute => 5
    case Kernel => 6
  }

  /** The stage with discriminant `d`, if any: the inverse of `Discriminant`. */
  function StageOf(d: int): Option<ShaderStage> {
    if d == -1 then Some(NoStage)
    else if d == 0 then Some(Vertex)
    else if d == 1 then Some(TesselationControl)
    else if d == 2 then Some(TesselationEvaluation)
    else if d == 3 then Some(Geometry)
    else if d == 4 then Some(Fragment)
    else if d == 5 then Some(Compute)
    else if d == 6 then Some(Kernel)
    else None
  }

  /** Every stage is recovered from its discriminant. */
  lemma StageOfDiscriminant(s: ShaderStage)
    ensures StageOf(Discriminant(s)) == Some(s)
  {
  }

  /** Exactly the integers -1..6 are discriminants, each of exactly one stage. */
  lemma DiscriminantOfStage(d: int)
    ensures StageOf(d).Some? <==> -1 <= d <= 6
    ensures StageOf(d).Some? ==> Discriminant(StageOf(d).value) == d
  {
  }

  /** No two stages share a discriminant. */
  lemma DiscriminantInjective(s: ShaderStage, t: ShaderStage)
    ensures Discriminant(s) == Discriminant(t) ==> s == t
  {
    StageOfDiscriminant(s);
    StageOfDiscriminant(t);
  }

  // ---------------------------------------------------------------------------
  // Shader models

  /** `ShaderModel`, in declaration order. */
  datatype ShaderModel =
    | ShaderModel4_0 | ShaderModel4_1 | ShaderModel5_0 | ShaderModel5_1
    | ShaderModel6_0 | ShaderModel6_1 | ShaderModel6_2 | ShaderModel6_3
    | ShaderModel6_4 | ShaderModel6_5 | ShaderModel6_6 | ShaderModel6_7
    | ShaderModel6_8

  /** `Display for ShaderModel`. */
  function Display(m: ShaderModel): string {
    match m
    case ShaderModel4_0 => "4.0"
    case ShaderModel4_1 => "4.1"
    case ShaderModel5_0 => "5.0"
    case ShaderModel5_1 => "5.1"
    case ShaderModel6_0 => "6.0"
    case ShaderModel6_1 => "6.1"
    case ShaderModel6_2 => "6.2"
    case ShaderModel6_3 => "6.3"
    case ShaderModel6_4 => "6.4"
    case ShaderModel6_5 => "6.5"
    case ShaderModel6_6 => "6.6"
    case ShaderModel6_7 => "6.7"
    case ShaderModel6_8 => "6.8"
  }

  /** The major version a variant names. */
  function Major(m: ShaderModel): (r: nat)
    ensures 4 <= r <= 6
  {
    match m
    case ShaderModel4_0 | ShaderModel4_1 => 4
    case ShaderModel5_0 | ShaderModel5_1 => 5
    case _ => 6
  }

  /** The minor version a variant names. */
  function Minor(m: ShaderModel): (r: nat)
    ensures r <= 8
  {
    match m
    case ShaderModel4_0 | ShaderModel5_0 | ShaderModel6_0 => 0
    case ShaderModel4_1 | ShaderModel5_1 | ShaderModel6_1 => 1
    case ShaderModel6_2 => 2
    case ShaderModel6_3 => 3
    case ShaderModel6_4 => 4
    case ShaderModel6_5 => 5
    case ShaderModel6_6 => 6
    case ShaderModel6_7 => 7
    case ShaderModel6_8 => 8
  }

  /** The decimal digit of `d`. */
  function Digit(d: nat): char
    requires d < 10
  {
    ('0' as int + d) as char
  }

  /** `Display` prints the version a variant names, as `major.minor`. */
  lemma DisplayIsVersion(m: ShaderModel)
    ensures Display(m) == [Digit(Major(m)), '.', Digit(Minor(m))]
  {
  }

  /** No two variants name the same version. */
  lemma VersionInjective(m: ShaderModel, n: ShaderModel)
    ensures Major(m) == Major(n) && Minor(m) == Minor(n) ==> m == n
  {
  }

  /** `Display` is injective: no two variants print the same text. */
  lemma DisplayInjective(m: ShaderModel, n: ShaderModel)
    ensures Display(m) == Display(n) ==> m == n
  {
    DisplayIsVersion(m);
    DisplayIsVersion(n);
    if Display(m) == Display(n) {
      assert Digit(Major(m)) == Display(m)[0] == Display(n)[0] == Digit(Major(n));
      assert Digit(Minor(m)) == Display(m)[2] == Display(n)[2] == Digit(Minor(n));
      VersionInjective(m, n);
    }
  }

  /**
    The order of the `as i32` discriminants. Their values live in C headers that are
    not part of this model; they are taken to increase with the version, as the
    declaration order does.
  */
  predicate Newer(m: ShaderModel, n: ShaderModel) {
    Major(m) > Major(n) || (Major(m) == Major(n) && Minor(m) > Minor(n))
  }

  /** The models newer than 5.1 are exactly the 6.x ones. */
  lemma NewerThan51(m: ShaderModel)
    ensures Newer(m, ShaderModel5_1) <==> Major(m) == 6
  {
  }
}
