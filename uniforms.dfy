/**
 * The shader uniforms the scene manager writes, and the external shader
 * manager that receives them.
 *
 * The shader manager is modelled as a map from uniform name to the last value
 * written under that name. Names are a datatype; `Text` renders each as the
 * string the program passes to the shader manager, and `TextInjective` shows
 * that two different names never render to the same string, so keying the
 * map by the datatype loses nothing.
 */
module Uniforms {
  import opened Wrappers
  import opened Geometry

  /** The six fields of one entry of the shader's light array. */
  datatype LightField = Position | AmbientColor | DiffuseColor | SpecularColor | FocalStrength | SpecularIntensity

  /** The five fields of the shader's material struct. */
  datatype MaterialField = MatAmbientColor | MatAmbientStrength | MatDiffuseColor | MatSpecularColor | MatShininess

  datatype UniformName =
    | Model          // "model"
    | ObjectColor    // "objectColor"
    | ObjectTexture  // "objectTexture"
    | UseTexture     // "bUseTexture"
    | UseLighting    // "bUseLighting"
    | UVScale        // "UVscale"
    | MaterialParam(materialField: MaterialField)       // "material.<field>"
    | LightParam(slot: nat, lightField: LightField)     // "lightSources[<slot>].<field>"

  /** The value types of the shader manager's setters. */
  datatype Uniform =
    | UBool(flag: bool)        // setBoolValue
    | UInt(i: int)             // setIntValue
    | UFloat(f: real)          // setFloatValue
    | UVec2(u: real, v: real)  // setVec2Value
    | UVec3(vec: Vec3)         // setVec3Value
    | UVec4(color: Color)      // setVec4Value
    | UMat4(mat: Mat)          // setMat4Value
    | USampler(unit: int)      // setSampler2DValue

  type UniformMap = map<UniformName, Uniform>

  /** The external shader manager: every setter records the value under its name. */
  class ShaderManager {
    var uniforms: UniformMap

    constructor ()
      ensures uniforms == map[]
    {
      uniforms := map[];
    }

    method SetValue(name: UniformName, value: Uniform)
      modifies this
      ensures uniforms == old(uniforms)[name := value]
    {
      uniforms := uniforms[name := value];
    }
  }

  /** u and v agree on every name outside `written`. */
  ghost predicate AgreeOutside(u: UniformMap, v: UniformMap, written: set<UniformName>) {
    forall n :: n !in written ==> (n in u <==> n in v) && (n in u ==> u[n] == v[n])
  }

  // ---------------------------------------------------------------------
  // The strings behind the names

  function LightFieldText(f: LightField): string {
    match f
    case Position => "position"
    case AmbientColor => "ambientColor"
    case DiffuseColor => "diffuseColor"
    case SpecularColor => "specularColor"
    case FocalStrength => "focalStrength"
    case SpecularIntensity => "specularIntensity"
  }

  function MaterialFieldText(f: MaterialField): string {
    match f
    case MatAmbientColor => "ambientColor"
    case MatAmbientStrength => "ambientStrength"
    case MatDiffuseColor => "diffuseColor"
    case MatSpecularColor => "specularColor"
    case MatShininess => "shininess"
  }

  const Digits := "0123456789"

  /** std::to_string of a non-negative integer. */
  function NatText(n: nat): (s: string)
    ensures |s| > 0
  {
    if n < 10 then [Digits[n]] else NatText(n / 10) + [Digits[n % 10]]
  }

  /** "lightSources[" + std::to_string(slot) + "]." — the base of every light uniform. */
  function LightBase(slot: nat): string {
    "lightSources[" + NatText(slot) + "]."
  }

  function Text(n: UniformName): string {
    match n
    case Model => "model"
    case ObjectColor => "objectColor"
    case ObjectTexture => "objectTexture"
    case UseTexture => "bUseTexture"
    case UseLighting => "bUseLighting"
    case UVScale => "UVscale"
    case MaterialParam(f) => "material." + MaterialFieldText(f)
    case LightParam(i, f) => LightBase(i) + LightFieldText(f)
  }

  /** Names the program can write: light slots are single digits. */
  predicate WellFormed(n: UniformName) {
    n.LightParam? ==> n.slot < 10
  }

  function LightFieldOf(s: string): Option<LightField> {
    if s == "position" then Some(Position)
    else if s == "ambientColor" then Some(AmbientColor)
    else if s == "diffuseColor" then Some(DiffuseColor)
    else if s == "specularColor" then Some(SpecularColor)
    else if s == "focalStrength" then Some(FocalStrength)
    else if s == "specularIntensity" then Some(SpecularIntensity)
    else None
  }

  function MaterialFieldOf(s: string): Option<MaterialField> {
    if s == "ambientColor" then Some(MatAmbientColor)
    else if s == "ambientStrength" then Some(MatAmbientStrength)
    else if s == "diffuseColor" then Some(MatDiffuseColor)
    else if s == "specularColor" then Some(MatSpecularColor)
    else if s == "shininess" then Some(MatShininess)
    else None
  }

  function DigitOf(c: char): Option<nat> {
    if '0' <= c <= '9' then Some((c as int - '0' as int) as nat) else None
  }

  /** Reads a uniform name back from its string. */
  function Parse(s: string): Option<UniformName> {
    if s == "model" then Some(Model)
    else if s == "objectColor" then Some(ObjectColor)
    else if s == "objectTexture" then Some(ObjectTexture)
    else if s == "bUseTexture" then Some(UseTexture)
    else if s == "bUseLighting" then Some(UseLighting)
    else if s == "UVscale" then Some(UVScale)
    else if |s| >= 9 && s[..9] == "material." then
      var f := MaterialFieldOf(s[9..]);
      if f.Some? then Some(MaterialParam(f.value)) else None
    else if |s| >= 16 && s[..13] == "lightSources[" && s[14..16] == "]." && DigitOf(s[13]).Some? then
      var f := LightFieldOf(s[16..]);
      if f.Some? then Some(LightParam(DigitOf(s[13]).value, f.value)) else None
    else None
  }

  lemma LightFieldRoundTrip(f: LightField)
    ensures LightFieldOf(LightFieldText(f)) == Some(f)
  {
    var t := LightFieldText(f);
    assert t[0] == "position"[0] || |t| != 8;
    assert t[0] == "ambientColor"[0] || |t| != 12 || t == "diffuseColor";
    assert t[0] == "specularColor"[0] || |t| != 13 || t == "focalStrength";
  }

  lemma MaterialFieldRoundTrip(f: MaterialField)
    ensures MaterialFieldOf(MaterialFieldText(f)) == Some(f)
  {
    var t := MaterialFieldText(f);
    assert t[0] == "ambientColor"[0] || |t| != 12 || t == "diffuseColor";
  }

  /** Every name the program writes reads back as itself. */
  lemma {:induction false} ParseText(n: UniformName)
    requires WellFormed(n)
    ensures Parse(Text(n)) == Some(n)
  {
    match n
    case MaterialParam(f) =>
      var s := Text(n);
      assert s[..9] == "material." && s[9..] == MaterialFieldText(f);
      MaterialFieldRoundTrip(f);
    case LightParam(i, f) =>
      var s := Text(n);
      assert NatText(i) == [Digits[i]];
      assert s[..13] == "lightSources[" && s[13] == Digits[i];
      assert s[14..16] == "]." && s[16..] == LightFieldText(f);
      assert s[..9] != "material." by { assert s[0] != "material."[0]; }
      assert DigitOf(s[13]) == Some(i);
      LightFieldRoundTrip(f);
    case _ =>
  }

  /** Different names the program writes are different strings. */
  lemma TextInjective(a: UniformName, b: UniformName)
    requires WellFormed(a) && WellFormed(b)
    requires Text(a) == Text(b)
    ensures a == b
  {
    ParseText(a);
    ParseText(b);
  }
}
