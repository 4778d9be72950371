/**
 * The input-driven state of `MeshViewer`: which model and which shader are
 * selected, and the orbit camera's radius, azimuth and elevation. Each input
 * handler is a step function from one `ViewState` to the next; the class in
 * module MeshViewerApp updates its fields in place exactly as these say.
 */
module ViewerInput {
  import opened Vectors

  /** GLFW key codes of the keys the viewer reacts to. */
  const KEY_N: int := 78
  const KEY_P: int := 80
  const KEY_S: int := 83

  /** The camera never comes closer to the look point than this. */
  const MIN_RADIUS: real := 10.0

  /** Radians of orbit per pixel of mouse motion. */
  const ORBIT_RATE: real := 0.01

  /** How far the elevation stays from the poles. */
  const POLE_MARGIN: real := 0.00001

  type HalfPi = r: real | r > 0.00001 witness 1.0

  /** π/2 as the viewer computes it; only its being larger than the pole margin is used. */
  const HALF_PI: HalfPi

  const MIN_ELEVATION: real := -(HALF_PI as real) + POLE_MARGIN
  const MAX_ELEVATION: real := (HALF_PI as real) - POLE_MARGIN

  /** Directory prefix of every model file the viewer loads. */
  const MODEL_DIR: string := "../models/"

  /** The shader catalog, in the order the viewer registers it. */
  const SHADER_NAMES: seq<string> := ["normals", "phong-vertex", "phong-pixel"]
  const NUM_SHADERS: int := 3

  function ModelPath(name: string): string
  {
    MODEL_DIR + name
  }

  function Abs(a: int): nat
  {
    if a < 0 then -a else a
  }

  /** C++ `/` on `int`: the quotient truncates toward zero. */
  function CppQuot(a: int, n: int): int
    requires n != 0
  {
    var q := Abs(a) / Abs(n);
    if (a < 0) == (n < 0) then q else -q
  }

  /** C++ `%` on `int`: the quotient truncates toward zero, so the remainder has the sign of the dividend. */
  function CppRem(a: int, n: int): (r: int)
    requires n != 0
    ensures a >= 0 && n > 0 ==> r == a % n
    ensures Abs(r) < Abs(n)
    ensures a >= 0 ==> r >= 0
    ensures a <= 0 ==> r <= 0
  {
    if a >= 0 then a % Abs(n) else -((-a) % Abs(n))
  }

  /** The C++ identity `(a / n) * n + a % n == a` for the truncating quotient and remainder. */
  lemma CppQuotRem(a: int, n: int)
    requires n != 0
    ensures CppQuot(a, n) * n + CppRem(a, n) == a
  {
    var m, q := Abs(n), Abs(a) / Abs(n);
    assert Abs(a) == q * m + Abs(a) % m;
    if n < 0 {
      assert q * n == -(q * m);
    } else {
      assert q * n == q * m;
    }
  }

  /** A remainder of a dividend below twice the divisor takes the divisor off at most once. */
  lemma ModBelowTwice(a: int, n: int)
    requires 0 < n && 0 <= a < 2 * n
    ensures a % n == (if a < n then a else a - n)
  {
    if a < n {
      assert a == 0 * n + a;
    } else {
      assert a == 1 * n + (a - n);
    }
  }

  /** Forward step of a cyclic catalog index: `(i + 1) % n`. */
  function NextIndex(i: int, n: int): (r: int)
    requires n > 0
    ensures 0 <= i < n ==> 0 <= r < n && r == (if i == n - 1 then 0 else i + 1)
  {
    if 0 <= i < n then ModBelowTwice(i + 1, n); CppRem(i + 1, n) else CppRem(i + 1, n)
  }

  /** Backward step of a cyclic catalog index: `(i - 1 + n) % n`. */
  function PrevIndex(i: int, n: int): (r: int)
    requires n > 0
    ensures 0 <= i < n ==> 0 <= r < n && r == (if i == 0 then n - 1 else i - 1)
  {
    if 0 <= i < n then ModBelowTwice(i - 1 + n, n); CppRem(i - 1 + n, n) else CppRem(i - 1 + n, n)
  }

  /** Stepping forward and then back, or back and then forward, returns to the same index. */
  lemma NextPrevInverse(i: int, n: int)
    requires 0 <= i < n
    ensures PrevIndex(NextIndex(i, n), n) == i
    ensures NextIndex(PrevIndex(i, n), n) == i
  {
  }

  /** The index after `k` forward steps. */
  function Advance(i: int, n: int, k: nat): int
    requires n > 0
  {
    if k == 0 then i else NextIndex(Advance(i, n, k - 1), n)
  }

  /** Up to one full turn, `k` forward steps rotate the index by `k`, wrapping past the end once. */
  lemma {:induction false} AdvanceRotates(i: int, n: int, k: nat)
    requires 0 <= i < n && k <= n
    ensures Advance(i, n, k) == if i + k < n then i + k else i + k - n
  {
    if k > 0 {
      AdvanceRotates(i, n, k - 1);
    }
  }

  /** Stepping forward once per catalog entry comes back to the start. */
  lemma AdvanceFullCycle(i: int, n: int)
    requires 0 <= i < n
    ensures Advance(i, n, n) == i
  {
    AdvanceRotates(i, n, n);
  }

  /** Everything the input handlers read or write. */
  datatype ViewState = ViewState(
    models: seq<string>,
    shaders: seq<string>,
    numModels: int,
    numShaders: int,
    curModel: int,
    curShader: int,
    radius: real,
    azimuth: real,
    elevation: real,
    /** The model files loaded so far, oldest first; the last one is the mesh on screen. */
    loads: seq<string>)
  {
    predicate Valid()
    {
      && numModels == |models| && numModels > 0
      && shaders == SHADER_NAMES && numShaders == NUM_SHADERS
      && 0 <= curModel < numModels
      && 0 <= curShader < numShaders
      && radius >= MIN_RADIUS
      && MIN_ELEVATION <= elevation <= MAX_ELEVATION
      && |loads| > 0 && loads[|loads| - 1] == ModelPath(models[curModel])
    }
  }

  /** The field values of a freshly constructed viewer, before `setup` (the two counts are not yet set there). */
  const INITIAL: ViewState := ViewState([], [], 0, 0, 0, 0, MIN_RADIUS, 0.0, 0.0, [])

  /** `setup`: register the three shaders, take the model catalog and load the current model. */
  function SetupStep(s: ViewState, catalog: seq<string>): (t: ViewState)
    requires s == INITIAL && |catalog| > 0
    ensures t.Valid()
    ensures t.models == catalog && t.curModel == 0 && t.curShader == 0
    ensures t.loads == [ModelPath(catalog[0])]
  {
    s.(shaders := s.shaders + SHADER_NAMES, numShaders := NUM_SHADERS,
       models := catalog, loads := s.loads + [ModelPath(catalog[s.curModel])],
       numModels := |catalog|)
  }

  lemma ElevationBandInsideOpenInterval()
    ensures -(HALF_PI as real) < MIN_ELEVATION < 0.0 < MAX_ELEVATION < HALF_PI as real
  {
  }

  /** The orbit clamp: first raise to the lower bound, then cap at the upper bound. */
  function ClampElevation(e: real): (r: real)
    ensures MIN_ELEVATION <= r <= MAX_ELEVATION
    ensures MIN_ELEVATION <= e <= MAX_ELEVATION ==> r == e
    ensures e < MIN_ELEVATION ==> r == MIN_ELEVATION
    ensures e > MAX_ELEVATION ==> r == MAX_ELEVATION
  {
    Min(Max(e, MIN_ELEVATION), MAX_ELEVATION)
  }

  lemma ClampElevationIdempotent(e: real)
    ensures ClampElevation(ClampElevation(e)) == ClampElevation(e)
  {
  }

  /** Move the camera `delta` closer, but never inside the minimum radius. */
  function Zoom(radius: real, delta: real): (r: real)
    ensures r >= MIN_RADIUS && r >= radius - delta
    ensures r == radius - delta || r == MIN_RADIUS
  {
    Max(MIN_RADIUS, radius - delta)
  }

  /** A zoom that the minimum radius did not cut short is undone by the opposite zoom. */
  lemma ZoomUndo(radius: real, delta: real)
    requires radius >= MIN_RADIUS && radius - delta >= MIN_RADIUS
    ensures Zoom(Zoom(radius, delta), -delta) == radius
  {
  }

  /** Load model `m` and put the camera back at azimuth and elevation 0. */
  function SwitchModel(s: ViewState, m: int): (t: ViewState)
    requires s.Valid() && 0 <= m < s.numModels
    ensures t.Valid()
  {
    s.(curModel := m, loads := s.loads + [ModelPath(s.models[m])], elevation := 0.0, azimuth := 0.0)
  }

  /** `keyUp`: N and P select the next or previous model, S the next shader; other keys do nothing. */
  function KeyUpStep(s: ViewState, key: int, mods: int): (t: ViewState)
    requires s.Valid()
    ensures t.Valid()
  {
    if key == KEY_N then SwitchModel(s, NextIndex(s.curModel, s.numModels))
    else if key == KEY_P then SwitchModel(s, PrevIndex(s.curModel, s.numModels))
    else if key == KEY_S then s.(curShader := NextIndex(s.curShader, s.numShaders))
    else s
  }

  /** `scroll`: zoom by the vertical scroll amount. */
  function ScrollStep(s: ViewState, dx: real, dy: real): (t: ViewState)
    requires s.Valid()
    ensures t.Valid()
  {
    s.(radius := Zoom(s.radius, dy))
  }

  /** `mouseMotion`: shift-drag zooms by the horizontal motion, a plain drag orbits, anything else is ignored. */
  function MotionStep(s: ViewState, x: int, y: int, dx: int, dy: int, shiftDown: bool, leftDown: bool): (t: ViewState)
    requires s.Valid()
    ensures t.Valid()
  {
    if shiftDown && leftDown then s.(radius := Zoom(s.radius, dx as real))
    else if leftDown then
      s.(azimuth := s.azimuth + (dx as real) * ORBIT_RATE,
         elevation := ClampElevation(s.elevation + (dy as real) * ORBIT_RATE))
    else s
  }

  lemma NextKeyWraps(s: ViewState, mods: int)
    requires s.Valid()
    ensures var t := KeyUpStep(s, KEY_N, mods);
      t.curModel == (s.curModel + 1) % s.numModels
      && (s.curModel == s.numModels - 1 ==> t.curModel == 0)
  {
  }

  lemma PrevKeyWraps(s: ViewState, mods: int)
    requires s.Valid()
    ensures var t := KeyUpStep(s, KEY_P, mods);
      t.curModel == (s.curModel - 1 + s.numModels) % s.numModels
      && (s.curModel == 0 ==> t.curModel == s.numModels - 1)
  {
  }

  /** N followed by P comes back to the model that was selected. */
  lemma NextThenPrevRestoresModel(s: ViewState, mods: int)
    requires s.Valid()
    ensures KeyUpStep(KeyUpStep(s, KEY_N, mods), KEY_P, mods).curModel == s.curModel
  {
    NextPrevInverse(s.curModel, s.numModels);
  }

  /** A model switch reloads the newly selected model, resets the orbit angles and keeps radius and shader. */
  lemma ModelSwitchResetsCamera(s: ViewState, key: int, mods: int)
    requires s.Valid() && (key == KEY_N || key == KEY_P)
    ensures var t := KeyUpStep(s, key, mods);
      && t.elevation == 0.0 && t.azimuth == 0.0
      && t.radius == s.radius && t.curShader == s.curShader
      && t.models == s.models && t.loads == s.loads + [ModelPath(s.models[t.curModel])]
  {
  }

  /** S steps the shader index and leaves the model, the camera and the loaded mesh alone. */
  lemma ShaderKeyChangesOnlyShader(s: ViewState, mods: int)
    requires s.Valid()
    ensures var t := KeyUpStep(s, KEY_S, mods);
      && t.curShader == (s.curShader + 1) % NUM_SHADERS
      && t == s.(curShader := t.curShader)
  {
  }

  lemma OtherKeysChangeNothing(s: ViewState, key: int, mods: int)
    requires s.Valid() && key != KEY_N && key != KEY_P && key != KEY_S
    ensures KeyUpStep(s, key, mods) == s
  {
  }

  /** The state after releasing `key` `k` times. */
  function PressKey(s: ViewState, key: int, k: nat): (t: ViewState)
    requires s.Valid()
    ensures t.Valid()
  {
    if k == 0 then s else KeyUpStep(PressKey(s, key, k - 1), key, 0)
  }

  /** `k` presses of S advance the shader index `k` steps and change nothing else. */
  lemma {:induction false} PressShaderKey(s: ViewState, k: nat)
    requires s.Valid()
    ensures PressKey(s, KEY_S, k) == s.(curShader := Advance(s.curShader, s.numShaders, k))
  {
    if k > 0 {
      PressShaderKey(s, k - 1);
    }
  }

  /** Pressing S once per shader comes back to the state it started from. */
  lemma ShaderKeyFullCycle(s: ViewState)
    requires s.Valid()
    ensures PressKey(s, KEY_S, NUM_SHADERS) == s
  {
    PressShaderKey(s, NUM_SHADERS);
    AdvanceFullCycle(s.curShader, NUM_SHADERS);
  }

  /** `k` presses of N select the model `k` steps ahead. */
  lemma {:induction false} PressNextKey(s: ViewState, k: nat)
    requires s.Valid()
    ensures PressKey(s, KEY_N, k).curModel == Advance(s.curModel, s.numModels, k)
    ensures PressKey(s, KEY_N, k).models == s.models
  {
    if k > 0 {
      PressNextKey(s, k - 1);
    }
  }

  /** Pressing N once per model comes back to the model that was selected. */
  lemma ModelKeyFullCycle(s: ViewState)
    requires s.Valid()
    ensures PressKey(s, KEY_N, s.numModels).curModel == s.curModel
  {
    PressNextKey(s, s.numModels);
    AdvanceFullCycle(s.curModel, s.numModels);
  }

  /** Scrolling zooms by the vertical amount and moves nothing but the radius. */
  lemma ScrollOnlyZooms(s: ViewState, dx: real, dy: real)
    requires s.Valid()
    ensures var t := ScrollStep(s, dx, dy);
      && t.radius >= MIN_RADIUS && t.radius >= s.radius - dy
      && (t.radius == s.radius - dy || t.radius == MIN_RADIUS)
      && t == s.(radius := t.radius)
  {
  }

  /** Shift with the left button held zooms by the horizontal motion and moves nothing but the radius. */
  lemma ShiftDragOnlyZooms(s: ViewState, x: int, y: int, dx: int, dy: int)
    requires s.Valid()
    ensures var t := MotionStep(s, x, y, dx, dy, true, true);
      && t.radius >= MIN_RADIUS && t.radius >= s.radius - dx as real
      && (t.radius == s.radius - dx as real || t.radius == MIN_RADIUS)
      && t == s.(radius := t.radius)
  {
  }

  /** A plain left drag turns the azimuth freely and the elevation within the band, at fixed radius. */
  lemma DragOrbits(s: ViewState, x: int, y: int, dx: int, dy: int)
    requires s.Valid()
    ensures var t := MotionStep(s, x, y, dx, dy, false, true);
      && t.azimuth == s.azimuth + (dx as real) * ORBIT_RATE
      && MIN_ELEVATION <= t.elevation <= MAX_ELEVATION
      && (MIN_ELEVATION <= s.elevation + (dy as real) * ORBIT_RATE <= MAX_ELEVATION
          ==> t.elevation == s.elevation + (dy as real) * ORBIT_RATE)
      && t == s.(azimuth := t.azimuth, elevation := t.elevation)
  {
  }

  lemma NoButtonNoMotion(s: ViewState, x: int, y: int, dx: int, dy: int, shiftDown: bool)
    requires s.Valid()
    ensures MotionStep(s, x, y, dx, dy, shiftDown, false) == s
  {
  }

  /** The input events the window delivers to the viewer; `mouseDown` and `mouseUp` have empty handlers. */
  datatype Event =
    | KeyUpEvent(key: int, mods: int)
    | ScrollEvent(sdx: real, sdy: real)
    | MotionEvent(x: int, y: int, dx: int, dy: int, shiftDown: bool, leftDown: bool)
    | MouseDownEvent(button: int, mods: int)
    | MouseUpEvent(button: int, mods: int)

  function Step(s: ViewState, e: Event): (t: ViewState)
    requires s.Valid()
    ensures t.Valid() && t.models == s.models && t.shaders == s.shaders
  {
    match e
    case KeyUpEvent(key, mods) => KeyUpStep(s, key, mods)
    case ScrollEvent(dx, dy) => ScrollStep(s, dx, dy)
    case MotionEvent(x, y, dx, dy, shiftDown, leftDown) => MotionStep(s, x, y, dx, dy, shiftDown, leftDown)
    case MouseDownEvent(_, _) => s
    case MouseUpEvent(_, _) => s
  }

  /** The state after handling `events` in order. */
  function Run(s: ViewState, events: seq<Event>): ViewState
    requires s.Valid()
    decreases |events|
  {
    if events == [] then s else Run(Step(s, events[0]), events[1..])
  }

  /**
   * Whatever the input, the selections stay in range, the radius at or above
   * the minimum, the elevation inside the band, the catalogs fixed and the
   * mesh on screen the selected model.
   */
  lemma {:induction false} RunKeepsInvariant(s: ViewState, events: seq<Event>)
    requires s.Valid()
    ensures var t := Run(s, events);
      t.Valid() && t.models == s.models && t.shaders == s.shaders
    decreases |events|
  {
    if events != [] {
      RunKeepsInvariant(Step(s, events[0]), events[1..]);
    }
  }
}
