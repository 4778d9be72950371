/**
 * The `MeshViewer` window object: its selection and camera fields, updated
 * in place by the input handlers, and the part of `draw` that decides what
 * the mesh is drawn with. Each handler is specified by the matching step
 * function of module ViewerInput, whose properties are proved there.
 */
module MeshViewerApp {
  import opened Vectors
  import opened BoxFit
  import opened Uniforms
  import opened ViewerInput

  /** What one call of `draw` hands to the renderer for the mesh: the shader, the model transform and the parameter writes. */
  datatype Frame = Frame(shader: string, fit: Fit, writes: seq<UniformWrite>)

  class MeshViewer {
    var models: seq<string>
    var shaders: seq<string>
    var numModels: int
    var numShaders: int
    var curShader: int
    var curModel: int
    var radius: real
    var elevation: real
    var azimuth: real
    /** The model files loaded so far, oldest first; the last one is the mesh on screen. */
    var loads: seq<string>

    function State(): ViewState
      reads this
    {
      ViewState(models, shaders, numModels, numShaders, curModel, curShader, radius, azimuth, elevation, loads)
    }

    predicate Valid()
      reads this
    {
      State().Valid()
    }

    /** The field initialisers; the two counts are left unset until `setup` and start at 0 here. */
    constructor ()
      ensures State() == INITIAL
    {
      models, shaders := [], [];
      numModels, numShaders := 0, 0;
      curShader, curModel := 0, 0;
      radius, elevation, azimuth := 10.0, 0.0, 0.0;
      loads := [];
    }

    /** `setup`, run once by the window before any event: needs at least one model file. */
    method Setup(catalog: seq<string>)
      requires State() == INITIAL && |catalog| > 0
      modifies this
      ensures State() == SetupStep(old(State()), catalog)
      ensures Valid()
    {
      shaders := shaders + ["normals"];
      shaders := shaders + ["phong-vertex"];
      shaders := shaders + ["phong-pixel"];
      numShaders := 3;
      models := catalog;
      loads := loads + [ModelPath(models[curModel])];
      numModels := |models|;
    }

    method MouseMotion(x: int, y: int, dx: int, dy: int, shiftDown: bool, leftDown: bool)
      requires Valid()
      modifies this
      ensures State() == MotionStep(old(State()), x, y, dx, dy, shiftDown, leftDown)
      ensures Valid()
    {
      if shiftDown && leftDown {
        radius := Max(10.0, radius - dx as real);
      } else if leftDown {
        azimuth := azimuth + (dx as real) * ORBIT_RATE;
        elevation := elevation + (dy as real) * ORBIT_RATE;
        elevation := Max(elevation, -(HALF_PI as real) + POLE_MARGIN);
        elevation := Min(elevation, (HALF_PI as real) - POLE_MARGIN);
      }
    }

    method Scroll(dx: real, dy: real)
      requires Valid()
      modifies this
      ensures State() == ScrollStep(old(State()), dx, dy)
      ensures Valid()
    {
      radius := Max(10.0, radius - dy);
    }

    method KeyUp(key: int, mods: int)
      requires Valid()
      modifies this
      ensures State() == KeyUpStep(old(State()), key, mods)
      ensures Valid()
    {
      if key == KEY_N {
        curModel := CppRem(curModel + 1, numModels);
        loads := loads + [ModelPath(models[curModel])];
        elevation := 0.0;
        azimuth := 0.0;
      } else if key == KEY_P {
        curModel := CppRem(curModel - 1 + numModels, numModels);
        loads := loads + [ModelPath(models[curModel])];
        elevation := 0.0;
        azimuth := 0.0;
      } else if key == KEY_S {
        curShader := CppRem(curShader + 1, numShaders);
      }
    }

    /** The mesh part of `draw`, for the bounds of the mesh on screen. */
    method Draw(minBounds: Vec3, maxBounds: Vec3) returns (frame: Frame)
      requires Valid()
      ensures frame.shader == SHADER_NAMES[curShader]
      ensures frame.shader == "normals" <==> frame.writes == []
      ensures frame.fit == FitBox(minBounds, maxBounds)
      ensures frame.writes == UniformWrites(curShader)
    {
      var scale := Sub(maxBounds, minBounds);
      scale := scale.(x := AxisScale(scale.x));
      scale := scale.(y := AxisScale(scale.y));
      scale := scale.(z := AxisScale(scale.z));
      var minScale := Min(Min(scale.x, scale.y), scale.z);
      scale := Vec3(minScale, minScale, minScale);
      var sum := Add(maxBounds, minBounds);
      var midPoint := Vec3(sum.x * 0.5, sum.y * 0.5, sum.z * 0.5);
      midPoint := Neg(midPoint);

      var writes: seq<UniformWrite> := [];
      if curShader != 0 {
        writes := writes + [UniformWrite(LightLa, Vec3Value(Splat(0.2)))];
        writes := writes + [UniformWrite(LightLd, Vec3Value(Splat(0.5)))];
        writes := writes + [UniformWrite(LightLs, Vec3Value(Splat(1.0)))];
        writes := writes + [UniformWrite(LightPos, EyeSpacePosition(Vec4(10.0, 2.5, 5.0, 1.0)))];
        writes := writes + [UniformWrite(MaterialKa, Vec3Value(Vec3(0.21, 0.31, 1.0)))];
        writes := writes + [UniformWrite(MaterialKd, Vec3Value(Vec3(0.21, 0.31, 1.0)))];
        writes := writes + [UniformWrite(MaterialKs, Vec3Value(Splat(0.5)))];
        writes := writes + [UniformWrite(MaterialAlpha, FloatValue(32.0))];
        assert writes == PHONG_WRITES;
      }
      frame := Frame(shaders[curShader], Fit(scale, midPoint), writes);
    }
  }
}
