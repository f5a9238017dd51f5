/**
  The renaming callbacks the bindings generator hands to bindgen: they turn the C
  enumerator and type names of the spirv-to-dxil headers into the Rust names of the
  `spirv-to-dxil-sys` crate (`DXIL_SPIRV_SHADER_VERTEX` into `Vertex`,
  `SHADER_MODEL_6_0` into `ShaderModel6_0`, ...). Rust strings are `seq<char>` here;
  the `eprintln!` of `enum_variant_name` is output and is not modelled.
*/
module Callbacks {
  import opened Wrappers
  import opened Defs

  // ---------------------------------------------------------------------------
  // `str::replace`

  /** `pat` occurs in `s` at index `i`. */
  predicate OccursAt(s: string, pat: string, i: nat) {
    i + |pat| <= |s| && s[i..i + |pat|] == pat
  }

  /** `pat` occurs somewhere in `s`. */
  ghost predicate Occurs(s: string, pat: string) {
    exists i: nat :: OccursAt(s, pat, i)
  }

  /**
    `s.replace(pat, rep)`: every occurrence of `pat`, found left to right without
    overlapping, replaced by `rep`. The patterns the callbacks use are never empty.
  */
  function Replace(s: string, pat: string, rep: string): (r: string)
    requires |pat| > 0
    ensures |s| < |pat| ==> r == s
    ensures |rep| == |pat| ==> |r| == |s|
    ensures |rep| < |pat| ==> |r| <= |s|
    decreases |s|
  {
    if |s| < |pat| then s
    else if s[..|pat|] == pat then rep + Replace(s[|pat|..], pat, rep)
    else [s[0]] + Replace(s[1..], pat, rep)
  }

  /** A string in which `pat` does not occur is left as it is. */
  lemma {:induction false} ReplaceAbsent(s: string, pat: string, rep: string)
    requires |pat| > 0 && !Occurs(s, pat)
    ensures Replace(s, pat, rep) == s
    decreases |s|
  {
    if |s| >= |pat| {
      assert !OccursAt(s, pat, 0);
      assert s[..|pat|] != pat;
      assert !Occurs(s[1..], pat) by {
        forall i: nat | OccursAt(s[1..], pat, i)
          ensures false
        {
          assert s[1..][i..i + |pat|] == s[i + 1..i + 1 + |pat|];
          assert OccursAt(s, pat, i + 1);
        }
      }
      ReplaceAbsent(s[1..], pat, rep);
    }
  }

  /** Replacing a pattern by itself changes nothing. */
  lemma {:induction false} ReplaceSelf(s: string, pat: string)
    requires |pat| > 0
    ensures Replace(s, pat, pat) == s
    decreases |s|
  {
    if |s| >= |pat| {
      if s[..|pat|] == pat {
        ReplaceSelf(s[|pat|..], pat);
        assert s == pat + s[|pat|..];
      } else {
        ReplaceSelf(s[1..], pat);
        assert s == [s[0]] + s[1..];
      }
    }
  }

  /** A string that starts with the pattern starts with the replacement. */
  lemma ReplaceLeading(pat: string, x: string, rep: string)
    requires |pat| > 0
    ensures Replace(pat + x, pat, rep) == rep + Replace(x, pat, rep)
  {
    assert (pat + x)[..|pat|] == pat;
    assert (pat + x)[|pat|..] == x;
  }

  // ---------------------------------------------------------------------------
  // Shader stages

  /** The part of a stage enumerator after its `DXIL` or `DXBC` prefix. */
  function StageSuffix(s: ShaderStage): string {
    match s
    case NoStage => "_SPIRV_SHADER_NONE"
    case Vertex => "_SPIRV_SHADER_VERTEX"
    case TesselationControl => "_SPIRV_SHADER_TESS_CTRL"
    case TesselationEvaluation => "_SPIRV_SHADER_TESS_EVAL"
    case Geometry => "_SPIRV_SHADER_GEOMETRY"
    case Fragment => "_SPIRV_SHADER_FRAGMENT"
    case Compute => "_SPIRV_SHADER_COMPUTE"
    case Kernel => "_SPIRV_SHADER_KERNEL"
  }

  /** The Rust name of each `ShaderStage` variant. */
  function StageName(s: ShaderStage): string {
    match s
    case NoStage => "None"
    case Vertex => "Vertex"
    case TesselationControl => "TesselationControl"
    case TesselationEvaluation => "TesselationEvaluation"
    case Geometry => "Geometry"
    case Fragment => "Fragment"
    case Compute => "Compute"
    case Kernel => "Kernel"
  }

  /**
    `rename_shader_stage`: the first four characters (`DXIL` or `DXBC`) are dropped and
    the rest looked up. Slicing at 4 panics on a shorter name, hence the precondition.
  */
  function RenameShaderStage(variant: string): (r: Option<string>)
    requires |variant| >= 4
    ensures r.Some? ==> r.value in StageNames
  {
    var v := variant[4..];
    if v == "_SPIRV_SHADER_NONE" then Some("None")
    else if v == "_SPIRV_SHADER_VERTEX" then Some("Vertex")
    else if v == "_SPIRV_SHADER_TESS_CTRL" then Some("TesselationControl")
    else if v == "_SPIRV_SHADER_TESS_EVAL" then Some("TesselationEvaluation")
    else if v == "_SPIRV_SHADER_GEOMETRY" then Some("Geometry")
    else if v == "_SPIRV_SHADER_FRAGMENT" then Some("Fragment")
    else if v == "_SPIRV_SHADER_COMPUTE" then Some("Compute")
    else if v == "_SPIRV_SHADER_KERNEL" then Some("Kernel")
    else None
  }

  /** The Rust names of the eight stages. */
  const StageNames: set<string> :=
    {"None", "Vertex", "TesselationControl", "TesselationEvaluation", "Geometry", "Fragment", "Compute", "Kernel"}

  /** Every stage's Rust name is one of the eight, and every one of the eight names a stage. */
  lemma StageNamesExact(name: string)
    ensures name in StageNames <==> exists s: ShaderStage :: StageName(s) == name
  {
    if name in StageNames {
      if name == "None" { assert StageName(NoStage) == name; }
      else if name == "Vertex" { assert StageName(Vertex) == name; }
      else if name == "TesselationControl" { assert StageName(TesselationControl) == name; }
      else if name == "TesselationEvaluation" { assert StageName(TesselationEvaluation) == name; }
      else if name == "Geometry" { assert StageName(Geometry) == name; }
      else if name == "Fragment" { assert StageName(Fragment) == name; }
      else if name == "Compute" { assert StageName(Compute) == name; }
      else { assert StageName(Kernel) == name; }
    }
  }

  /** Each stage's enumerator, whatever its four-character prefix, is renamed to that stage's variant name. */
  lemma RenameShaderStageNames(prefix: string, s: ShaderStage)
    requires |prefix| == 4
    ensures RenameShaderStage(prefix + StageSuffix(s)) == Some(StageName(s))
  {
    assert (prefix + StageSuffix(s))[4..] == StageSuffix(s);
  }

  /** Only those eight enumerators are renamed: any other name gives `None`. */
  lemma RenameShaderStageOnly(variant: string)
    requires |variant| >= 4
    ensures RenameShaderStage(variant).Some? <==> exists s: ShaderStage :: variant[4..] == StageSuffix(s)
    ensures forall s: ShaderStage :: variant[4..] == StageSuffix(s) ==> RenameShaderStage(variant) == Some(StageName(s))
  {
    var v := variant[4..];
    if v == "_SPIRV_SHADER_NONE" { assert v == StageSuffix(NoStage); }
    else if v == "_SPIRV_SHADER_VERTEX" { assert v == StageSuffix(Vertex); }
    else if v == "_SPIRV_SHADER_TESS_CTRL" { assert v == StageSuffix(TesselationControl); }
    else if v == "_SPIRV_SHADER_TESS_EVAL" { assert v == StageSuffix(TesselationEvaluation); }
    else if v == "_SPIRV_SHADER_GEOMETRY" { assert v == StageSuffix(Geometry); }
    else if v == "_SPIRV_SHADER_FRAGMENT" { assert v == StageSuffix(Fragment); }
    else if v == "_SPIRV_SHADER_COMPUTE" { assert v == StageSuffix(Compute); }
    else if v == "_SPIRV_SHADER_KERNEL" { assert v == StageSuffix(Kernel); }
  }

  /** The eight names are distinct, so no two stages are renamed alike. */
  lemma StageNameInjective(s: ShaderStage, t: ShaderStage)
    ensures StageName(s) == StageName(t) ==> s == t
  {
  }

  /** The DXIL and DXBC enumerators of a stage are renamed alike. */
  lemma RenameIgnoresPrefix(p: string, q: string, rest: string)
    requires |p| == 4 && |q| == 4
    ensures RenameShaderStage(p + rest) == RenameShaderStage(q + rest)
  {
    assert (p + rest)[4..] == rest == (q + rest)[4..];
  }

  // ---------------------------------------------------------------------------
  // Shader models, flip modes, validator versions

  /** `rename_shader_model`: `SHADER_MODEL_` becomes `ShaderModel` wherever it occurs. */
  function RenameShaderModel(variant: string): (r: Option<string>)
    ensures r.Some?
  {
    Some(Replace(variant, "SHADER_MODEL_", "ShaderModel"))
  }

  /** The version part `major_minor` of a shader model's names. */
  function VersionSuffix(m: ShaderModel): string {
    [Digit(Major(m)), '_', Digit(Minor(m))]
  }

  /** The C enumerator of every shader model is renamed to its Rust variant name `ShaderModel<major>_<minor>`. */
  lemma RenameShaderModelNames(m: ShaderModel)
    ensures RenameShaderModel("SHADER_MODEL_" + VersionSuffix(m)) == Some("ShaderModel" + VersionSuffix(m))
  {
    ReplaceLeading("SHADER_MODEL_", VersionSuffix(m), "ShaderModel");
  }

  /** `rename_flip_mode`: `DXIL_SPIRV_` is deleted wherever it occurs. */
  function RenameFlipMode(variant: string): (r: Option<string>)
    ensures r.Some?
  {
    Some(Replace(variant, "DXIL_SPIRV_", ""))
  }

  /** A flip-mode enumerator loses its `DXIL_SPIRV_` prefix and nothing else. */
  lemma RenameFlipModePrefix(x: string)
    requires !Occurs(x, "DXIL_SPIRV_")
    ensures RenameFlipMode("DXIL_SPIRV_" + x) == Some(x)
  {
    ReplaceLeading("DXIL_SPIRV_", x, "");
    ReplaceAbsent(x, "DXIL_SPIRV_", "");
    assert "" + x == x;
  }

  /** The value bindgen reports for an enumerator (`EnumVariantValue`). */
  datatype EnumVariantValue = Boolean(b: bool) | Signed(i: int) | Unsigned(u: nat)

  /** Whether the value is the zero `rename_validator_version` treats as "no validation". */
  predicate IsZero(value: EnumVariantValue) {
    value == Unsigned(0) || value == Signed(0)
  }

  /**
    `rename_validator_version`: the enumerator with value 0 becomes `None` whatever its
    name; any other has `DXIL_VALIDATOR_` replaced by `Validator`.
  */
  function RenameValidatorVersion(variant: string, value: EnumVariantValue): (r: Option<string>)
    ensures r.Some?
    ensures IsZero(value) ==> r == Some("None")
  {
    if IsZero(value) then Some("None")
    else Some(Replace(variant, "DXIL_VALIDATOR_", "Validator"))
  }

  /** A validator enumerator `DXIL_VALIDATOR_<v>` with a non-zero value is renamed `Validator<v>`. */
  lemma RenameValidatorNames(v: string, value: EnumVariantValue)
    requires !IsZero(value) && !Occurs(v, "DXIL_VALIDATOR_")
    ensures RenameValidatorVersion("DXIL_VALIDATOR_" + v, value) == Some("Validator" + v)
  {
    ReplaceLeading("DXIL_VALIDATOR_", v, "Validator");
    ReplaceAbsent(v, "DXIL_VALIDATOR_", "Validator");
  }

  // ---------------------------------------------------------------------------
  // The bindgen callbacks

  /** The two stage enums, whose enumerators `rename_shader_stage` slices. */
  predicate IsStageEnum(enumName: Option<string>) {
    enumName == Some("dxil_spirv_shader_stage") || enumName == Some("dxbc_spirv_shader_stage")
  }

  /** The five enums `enum_variant_name` renames. */
  predicate IsRenamedEnum(enumName: Option<string>) {
    IsStageEnum(enumName)
    || enumName == Some("enum dxil_shader_model")
    || enumName == Some("enum dxil_validator_version")
    || enumName == Some("enum dxil_spirv_yz_flip_mode")
  }

  /** `enum_variant_name`: dispatch on the enum's name to one of the renames above. */
  function EnumVariantName(enumName: Option<string>, variant: string, value: EnumVariantValue): (r: Option<string>)
    requires IsStageEnum(enumName) ==> |variant| >= 4
    ensures !IsRenamedEnum(enumName) ==> r == None
    ensures IsRenamedEnum(enumName) && !IsStageEnum(enumName) ==> r.Some?
    ensures IsStageEnum(enumName) ==> r == RenameShaderStage(variant)
  {
    match enumName
    case Some("dxil_spirv_shader_stage") => RenameShaderStage(variant)
    case Some("dxbc_spirv_shader_stage") => RenameShaderStage(variant)
    case Some("enum dxil_shader_model") => RenameShaderModel(variant)
    case Some("enum dxil_validator_version") => RenameValidatorVersion(variant, value)
    case Some("enum dxil_spirv_yz_flip_mode") => RenameFlipMode(variant)
    case _ => None
  }

  /** `item_name`: the nine C type names that get a Rust name of their own. */
  function ItemName(name: string): (r: Option<string>)
    ensures r.Some? ==> name in RenamedItems && r.value != name
  {
    match name
    case "dxil_spirv_runtime_conf__bindgen_ty_1" => Some("BufferBinding")
    case "dxil_spirv_runtime_conf__bindgen_ty_2" => Some("BufferBinding")
    case "dxil_spirv_runtime_conf__bindgen_ty_3" => Some("dxil_spirv_runtime_conf_flip_conf")
    case "dxbc_spirv_runtime_conf__bindgen_ty_1" => Some("BufferBinding")
    case "dxbc_spirv_runtime_conf__bindgen_ty_2" => Some("BufferBinding")
    case "dxil_shader_model" => Some("ShaderModel")
    case "dxil_validator_version" => Some("ValidatorVersion")
    case "dxbc_spirv_shader_stage" => Some("ShaderStage")
    case "dxil_spirv_shader_stage" => Some("ShaderStage")
    case _ => None
  }

  /** The two constant-buffer members of each runtime configuration. */
  const CbvItems: set<string> := {
    "dxil_spirv_runtime_conf__bindgen_ty_1", "dxil_spirv_runtime_conf__bindgen_ty_2",
    "dxbc_spirv_runtime_conf__bindgen_ty_1", "dxbc_spirv_runtime_conf__bindgen_ty_2"
  }

  /** Every type name `item_name` renames. */
  const RenamedItems: set<string> := CbvItems + {
    "dxil_spirv_runtime_conf__bindgen_ty_3", "dxil_shader_model", "dxil_validator_version",
    "dxbc_spirv_shader_stage", "dxil_spirv_shader_stage"
  }

  /** Exactly the nine listed names are renamed. */
  lemma ItemNameDomain(name: string)
    ensures ItemName(name).Some? <==> name in RenamedItems
  {
  }

  /** The four constant-buffer members, and only they, all become the one type `BufferBinding`. */
  lemma ItemNameBufferBinding(name: string)
    ensures ItemName(name) == Some("BufferBinding") <==> name in CbvItems
  {
  }

  /** Both stage enums become the one type `ShaderStage`. */
  lemma ItemNameShaderStage(name: string)
    ensures ItemName(name) == Some("ShaderStage") <==> name == "dxbc_spirv_shader_stage" || name == "dxil_spirv_shader_stage"
  {
  }
}
