/**
 * The light and material parameters `MeshViewer::draw` writes into the active
 * shader program. The choice depends on the shader index alone: the
 * "normals" shader (index 0) gets nothing, every other shader gets the same
 * Phong light and material set.
 */
module Uniforms {
  import opened Vectors

  datatype UniformValue =
    | Vec3Value(v: Vec3)
    | FloatValue(f: real)
      /** A world-space position that is multiplied by the current view matrix before it is written. */
    | EyeSpacePosition(world: Vec4)

  /** The shader parameters this viewer writes. */
  datatype Param =
    | LightLa | LightLd | LightLs | LightPos
    | MaterialKa | MaterialKd | MaterialKs | MaterialAlpha
  {
    /** The uniform name the parameter is written under. */
    function Name(): string
    {
      match this
      case LightLa => "Light.La"
      case LightLd => "Light.Ld"
      case LightLs => "Light.Ls"
      case LightPos => "Light.Pos"
      case MaterialKa => "Material.Ka"
      case MaterialKd => "Material.Kd"
      case MaterialKs => "Material.Ks"
      case MaterialAlpha => "Material.alpha"
    }
  }

  datatype UniformWrite = UniformWrite(param: Param, value: UniformValue)

  /** Index of the "normals" shader, which takes no lighting parameters. */
  const NORMALS_SHADER: int := 0

  /** The light position in world coordinates; the last component 1 marks a positional light. */
  const LIGHT_POSITION: Vec4 := Vec4(10.0, 2.5, 5.0, 1.0)

  /** Ambient and diffuse reflectance of the material. */
  const MATERIAL_COLOR: Vec3 := Vec3(0.21, 0.31, 1.0)

  /** The Phong parameter set, in the order `draw` writes it. */
  const PHONG_WRITES: seq<UniformWrite> := [
    UniformWrite(LightLa, Vec3Value(Splat(0.2))),
    UniformWrite(LightLd, Vec3Value(Splat(0.5))),
    UniformWrite(LightLs, Vec3Value(Splat(1.0))),
    UniformWrite(LightPos, EyeSpacePosition(LIGHT_POSITION)),
    UniformWrite(MaterialKa, Vec3Value(MATERIAL_COLOR)),
    UniformWrite(MaterialKd, Vec3Value(MATERIAL_COLOR)),
    UniformWrite(MaterialKs, Vec3Value(Splat(0.5))),
    UniformWrite(MaterialAlpha, FloatValue(32.0))
  ]

  predicate HasPrefix(s: string, prefix: string)
  {
    |prefix| <= |s| && s[..|prefix|] == prefix
  }

  /** A parameter of the shaders' `Light` or `Material` struct. */
  predicate IsLightingParameter(name: string)
  {
    HasPrefix(name, "Light.") || HasPrefix(name, "Material.")
  }

  /** Every parameter is written under a name of the shaders' `Light` or `Material` struct. */
  lemma ParamNamesAreLightingParameters(p: Param)
    ensures IsLightingParameter(p.Name())
  {
  }

  /** Different parameters are written under different uniform names. */
  lemma ParamNamesDistinct(p: Param, q: Param)
    requires p != q
    ensures p.Name() != q.Name()
  {
  }

  /** The writes `draw` issues after activating shader `curShader`. */
  function UniformWrites(curShader: int): (w: seq<UniformWrite>)
    ensures w == [] <==> curShader == NORMALS_SHADER
    ensures forall i, j :: 0 <= i < j < |w| ==> w[i].param != w[j].param
  {
    if curShader != NORMALS_SHADER then PHONG_WRITES else []
  }

  /** The parameter table of a program after a sequence of writes; a later write to a name replaces an earlier one. */
  function Apply(table: map<Param, UniformValue>, w: seq<UniformWrite>): map<Param, UniformValue>
    decreases |w|
  {
    if w == [] then table
    else Apply(table, w[..|w| - 1])[w[|w| - 1].param := w[|w| - 1].value]
  }

  /** The value each parameter holds under the Phong shaders. */
  function PhongValue(p: Param): UniformValue
  {
    match p
    case LightLa => Vec3Value(Splat(0.2))
    case LightLd => Vec3Value(Splat(0.5))
    case LightLs => Vec3Value(Splat(1.0))
    case LightPos => EyeSpacePosition(LIGHT_POSITION)
    case MaterialKa => Vec3Value(MATERIAL_COLOR)
    case MaterialKd => Vec3Value(MATERIAL_COLOR)
    case MaterialKs => Vec3Value(Splat(0.5))
    case MaterialAlpha => FloatValue(32.0)
  }

  /** Drawing with the "normals" shader leaves every parameter of the program as it was. */
  lemma NormalsShaderWritesNothing(table: map<Param, UniformValue>)
    ensures Apply(table, UniformWrites(NORMALS_SHADER)) == table
  {
  }

  /** Last write wins: a write that no later write to the same parameter overrides decides that parameter's final value. */
  lemma {:induction false} ApplyLastWrite(table: map<Param, UniformValue>, w: seq<UniformWrite>, k: nat)
    requires k < |w|
    requires forall j :: k < j < |w| ==> w[j].param != w[k].param
    ensures w[k].param in Apply(table, w) && Apply(table, w)[w[k].param] == w[k].value
    decreases |w|
  {
    if k < |w| - 1 {
      var front := w[..|w| - 1];
      assert forall j :: k < j < |front| ==> front[j] == w[j];
      ApplyLastWrite(table, front, k);
    }
  }

  /** Any other shader ends up with every light and material parameter at its Phong value, whatever it held before. */
  lemma PhongShaderParameters(curShader: int, table: map<Param, UniformValue>)
    requires curShader != NORMALS_SHADER
    ensures var t := Apply(table, UniformWrites(curShader));
      forall p: Param :: p in t && t[p] == PhongValue(p)
  {
    var w := UniformWrites(curShader);
    forall p: Param
      ensures p in Apply(table, w) && Apply(table, w)[p] == PhongValue(p)
    {
      var k := match p
        case LightLa => 0
        case LightLd => 1
        case LightLs => 2
        case LightPos => 3
        case MaterialKa => 4
        case MaterialKd => 5
        case MaterialKs => 6
        case MaterialAlpha => 7;
      ApplyLastWrite(table, w, k);
    }
  }
}
