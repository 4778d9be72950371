# Mesh viewer core in Dafny

This project models the logic at the core of `MeshViewer`. `MeshViewer` is an
interactive viewer that loads PLY meshes, fits each into a 10 x 10 x 10 view
cube, and draws it with one of three shaders ("normals", "phong-vertex" and
"phong-pixel") under an orbiting camera. The model covers three parts of
`src/mesh-viewer.cpp`:

- **The input state machine** (`viewer_input.dfy`, `mesh_viewer.dfy`).
  - The fields are the model and shader selection (`curModel`, `curShader`,
    `numModels`, `numShaders`) and the orbit camera (`radius`, `azimuth`,
    `elevation`).
  - The handlers that change them are `keyUp`, `scroll` and `mouseMotion`.
  - `MeshViewerApp.MeshViewer` is a class with those fields. Its methods
    update the fields in place, as the source does.
  - Each method is specified by a step function on the value type
    `ViewerInput.ViewState`. The properties are proved about those step
    functions: indices stay in range, the radius stays at least 10, the
    elevation stays inside the band around ±π/2, cycles return to their
    start, and untouched fields are unchanged. The invariant (indices in
    range, radius at least 10, elevation inside the band, catalogs kept) is
    also proved for any sequence of events (`Run`).
  - A model switch resets both camera angles to 0. Zoom keeps the radius at
    least 10, and nothing bounds it from above.
  - Loading a mesh is recorded in the field `loads`, which lists the model
    file paths loaded so far; its last entry is the mesh on screen.
- **The bounding-box fit** at the top of `draw` (`box_fit.dfy`). This is a pure
  function from the mesh bounds to a uniform scale and a translation. It is
  proved to place every point of the box inside the view cube and to centre
  the box on the origin. An axis is flat when its extent passes the
  inclusive test `-1e-6 <= extent <= 1e-6`. When no axis is flat, the box fills the cube edge
  exactly along its longest axis. When some axis is flat (extent within
  ±1e-6), that axis's candidate 1 caps the scale, so the mesh is never
  enlarged: a 5 x 5 plane is drawn 5 units wide, not 10.
- **The uniform dispatch** in `draw` (`uniforms.dfy`). This is a pure function
  of the shader index. It gives the light and material parameter writes: none
  for the "normals" shader, and the Phong set for every other shader.

Floating-point values are modelled as `real`. `M_PI/2` is the constant
`HALF_PI`, and the proofs use only the fact that it is larger than the pole
margin `0.00001`. The C++ integer `%` is modelled by `CppRem`, which truncates
toward zero. It agrees with Dafny's `%` on the non-negative operands that the
viewer's invariant guarantees.

## Model

| member | source | states |
|---|---|---|
| `BoxFit.AxisScale` | src/mesh-viewer.cpp:99-101 | A flat axis (extent within ±1e-6) gets candidate 1. Any other axis gets the candidate that stretches its extent to exactly the cube edge 10, so nothing near zero is divided by. A non-negative extent gets a positive candidate. |
| `BoxFit.UniformScale` | src/mesh-viewer.cpp:105 | The uniform scale is at most each of the three candidates and equals one of them: it is their minimum. |
| `BoxFit.FitBox` | src/mesh-viewer.cpp:96-112 | The fitted scale is the same on all three axes, which preserves the aspect ratio. The translation moves the box midpoint `(min+max)/2` onto the origin. |
| `BoxFit.FitScaleIsSmallestCandidate` | src/mesh-viewer.cpp:103-108 | The scale assigned to all three components is the smallest of the three per-axis candidates. |
| `BoxFit.FitScalePositive` | src/mesh-viewer.cpp:99-108 | For a box with `min <= max`, the fitted scale is positive, so the mesh is never mirrored or collapsed. |
| `BoxFit.ScaledExtentBounded` | src/mesh-viewer.cpp:99-105 | A positive scale no larger than an axis's candidate keeps that axis's scaled extent within the cube edge, whether or not the axis is flat. |
| `BoxFit.FittedExtentsWithinCube` | src/mesh-viewer.cpp:95-108 | For every box with `min <= max`, including flat ones, scale times extent is at most 10 on every axis. |
| `BoxFit.FitPlacesBoxInCube` | src/mesh-viewer.cpp:95-118 | Every point of such a box, translated and then scaled as `draw` does, lands inside the cube [-5,5]^3 centred on the look point. |
| `BoxFit.FlatAxisCapsScale` | src/mesh-viewer.cpp:99-105 | When any axis is flat (extent within ±1e-6), the uniform scale is at most 1, because that axis's candidate 1 bounds the minimum: a flat mesh is never enlarged to fill the cube. |
| `BoxFit.FitFillsLongestAxis` | src/mesh-viewer.cpp:96-108 | When every extent is above 1e-6, scale times the largest extent is exactly 10: the mesh fills the cube along its longest axis. |
| `BoxFit.UnitBoxFit` | src/mesh-viewer.cpp:96-112 | The box (-1,-1,-1)..(1,1,1) gets scale 5 on every axis and translation (0,0,0). |
| `BoxFit.PointBoxFit` | src/mesh-viewer.cpp:98-112 | A box that is a single point p gets scale 1 and translation -p. |
| `Uniforms.UniformWrites` | src/mesh-viewer.cpp:131-156 | Writes happen exactly when the shader index is not 0. Every parameter written is a different one. |
| `Uniforms.ParamNamesAreLightingParameters` | src/mesh-viewer.cpp:143-155 | Every parameter is written under a `Light.*` or `Material.*` uniform name. |
| `Uniforms.ParamNamesDistinct` | src/mesh-viewer.cpp:143-155 | Different parameters are written under different uniform names. |
| `Uniforms.NormalsShaderWritesNothing` | src/mesh-viewer.cpp:131-132 | With the "normals" shader, the program's parameter table is left as it was. |
| `Uniforms.ApplyLastWrite` | src/mesh-viewer.cpp:143-155 | The parameter table keeps the last value written: a write to a parameter that no later write overrides decides its final value, whatever the table held before. |
| `Uniforms.PhongShaderParameters` | src/mesh-viewer.cpp:136-155 | With any other shader, whatever the table held before, afterwards it holds these values: Light.La = 0.2, Light.Ld = 0.5, Light.Ls = 1.0, Light.Pos = the eye-space image of (10, 2.5, 5, 1), Material.Ka = Material.Kd = (0.21, 0.31, 1.0), Material.Ks = 0.5 and Material.alpha = 32. |
| `ViewerInput.CppRem` | src/mesh-viewer.cpp:70 | C++ `%` is modelled with its sign rules: the result has the dividend's sign and is smaller than the divisor in magnitude. It equals the mathematical remainder for a non-negative dividend and a positive divisor. |
| `ViewerInput.CppQuotRem` | src/mesh-viewer.cpp:70 | With the truncating quotient `CppQuot`, the remainder satisfies the C++ identity `(a/n)*n + a%n == a` for every dividend and non-zero divisor. |
| `ViewerInput.NextIndex` | src/mesh-viewer.cpp:70 | `(i+1) % n` on an in-range index stays in range: it is `i+1`, or 0 after `n-1`. |
| `ViewerInput.PrevIndex` | src/mesh-viewer.cpp:77 | `(i-1+n) % n` on an in-range index stays in range: it is `i-1`, or `n-1` from 0. |
| `ViewerInput.NextPrevInverse` | src/mesh-viewer.cpp:69-77 | A forward step then a backward step returns to the same index, and so does a backward step then a forward step. |
| `ViewerInput.AdvanceRotates` | src/mesh-viewer.cpp:70 | Up to `n` forward steps from index i reach `i+k`, wrapping once past the end. |
| `ViewerInput.AdvanceFullCycle` | src/mesh-viewer.cpp:70 | `n` forward steps return to the starting index. |
| `ViewerInput.SetupStep` | src/mesh-viewer.cpp:24-35 | `setup` with a non-empty catalog establishes the invariant. It registers the three shaders, selects model 0 and shader 0, and loads `../models/` + the first model. |
| `ViewerInput.ElevationBandInsideOpenInterval` | src/mesh-viewer.cpp:49-51 | The clamping band [-π/2+1e-5, π/2-1e-5] lies strictly inside (-π/2, π/2) and contains 0. |
| `ViewerInput.ClampElevation` | src/mesh-viewer.cpp:50-51 | The clamped elevation is always inside the band. It equals the input when the input is inside, and the nearer bound otherwise. |
| `ViewerInput.ClampElevationIdempotent` | src/mesh-viewer.cpp:50-51 | Clamping twice is the same as clamping once. |
| `ViewerInput.Zoom` | src/mesh-viewer.cpp:64 | The new radius is at least 10 and at least `radius - delta`, and it is one of the two: it is their maximum. |
| `ViewerInput.ZoomUndo` | src/mesh-viewer.cpp:62-65 | A zoom that the minimum did not cut short is undone by the opposite zoom. |
| `ViewerInput.SwitchModel` | src/mesh-viewer.cpp:70-75 | Selecting an in-range model and loading it keeps the invariant. The mesh on screen is then the selected model. |
| `ViewerInput.KeyUpStep` | src/mesh-viewer.cpp:68-87 | Every key release keeps the invariant: indices stay in range, the radius stays at least 10, the elevation stays in the band, and the loaded mesh is the selected model. |
| `ViewerInput.ScrollStep` | src/mesh-viewer.cpp:62-66 | Scrolling keeps the invariant. |
| `ViewerInput.MotionStep` | src/mesh-viewer.cpp:40-53 | Mouse motion keeps the invariant. |
| `ViewerInput.NextKeyWraps` | src/mesh-viewer.cpp:69-70 | N sets `curModel` to `(curModel+1) % numModels`, and it goes from the last model to 0. |
| `ViewerInput.PrevKeyWraps` | src/mesh-viewer.cpp:76-77 | P sets `curModel` to `(curModel-1+numModels) % numModels`, and it goes from 0 to `numModels-1`. |
| `ViewerInput.NextThenPrevRestoresModel` | src/mesh-viewer.cpp:69-77 | N followed by P selects the original model again. |
| `ViewerInput.ModelSwitchResetsCamera` | src/mesh-viewer.cpp:69-82 | N and P reset the elevation and azimuth to 0 and keep the radius, the shader and the catalog. They append the newly selected model's path to the loaded meshes. |
| `ViewerInput.ShaderKeyChangesOnlyShader` | src/mesh-viewer.cpp:83-85 | S sets `curShader` to `(curShader+1) % 3`, and every other field, including the loaded mesh, is unchanged. |
| `ViewerInput.OtherKeysChangeNothing` | src/mesh-viewer.cpp:68-87 | A key other than N, P and S leaves the whole state unchanged. |
| `ViewerInput.PressKey` | src/mesh-viewer.cpp:68-87 | Any number of releases of one key keeps the invariant. |
| `ViewerInput.PressShaderKey` | src/mesh-viewer.cpp:83-85 | k presses of S advance the shader index k steps and change nothing else. |
| `ViewerInput.ShaderKeyFullCycle` | src/mesh-viewer.cpp:83-85 | Pressing S `numShaders` (= 3) times gives back exactly the starting state. |
| `ViewerInput.PressNextKey` | src/mesh-viewer.cpp:69-75 | k presses of N select the model k steps ahead and keep the catalog. |
| `ViewerInput.ModelKeyFullCycle` | src/mesh-viewer.cpp:69-70 | Pressing N `numModels` times selects the starting model again. |
| `ViewerInput.ScrollOnlyZooms` | src/mesh-viewer.cpp:62-66 | Scrolling sets the radius to `max(10, radius - dy)` and changes no other field, including azimuth and elevation. |
| `ViewerInput.ShiftDragOnlyZooms` | src/mesh-viewer.cpp:41-44 | A shift+left drag sets the radius to `max(10, radius - dx)` and changes no other field. |
| `ViewerInput.DragOrbits` | src/mesh-viewer.cpp:45-52 | A plain left drag adds `0.01*dx` to the azimuth, without bound. It leaves the elevation in the band however large `dy` is, equal to `elevation + 0.01*dy` when that is inside. It changes nothing else, including the radius. |
| `ViewerInput.NoButtonNoMotion` | src/mesh-viewer.cpp:40-53 | With the left button up, mouse motion changes nothing. |
| `ViewerInput.Step` | src/mesh-viewer.cpp:40-87 | Each handled event keeps the invariant and the two catalogs. |
| `ViewerInput.RunKeepsInvariant` | src/mesh-viewer.cpp:40-87 | After any sequence of input events the invariant still holds and the catalogs are unchanged. |
| `MeshViewerApp.MeshViewer.constructor` | src/mesh-viewer.cpp:172-178 | The fields start as initialised in the class: shader 0, model 0, radius 10, elevation 0 and azimuth 0. |
| `MeshViewerApp.MeshViewer.Setup` | src/mesh-viewer.cpp:24-38 | The in-place `setup` leaves exactly the state `SetupStep` gives, and the invariant holds. |
| `MeshViewerApp.MeshViewer.MouseMotion` | src/mesh-viewer.cpp:40-53 | The in-place handler leaves exactly the state `MotionStep` gives, and the invariant holds. |
| `MeshViewerApp.MeshViewer.Scroll` | src/mesh-viewer.cpp:62-66 | The in-place handler leaves exactly the state `ScrollStep` gives, and the invariant holds. |
| `MeshViewerApp.MeshViewer.KeyUp` | src/mesh-viewer.cpp:68-87 | The in-place handler leaves exactly the state `KeyUpStep` gives, and the invariant holds. |
| `MeshViewerApp.MeshViewer.Draw` | src/mesh-viewer.cpp:89-160 | The step-by-step scale and midpoint computation equals `FitBox`. The shader begun is the selected one from the catalog. The parameter writes are `UniformWrites(curShader)`, and they are empty exactly for the "normals" shader. |

## Left out

- Float arithmetic is not modelled: values are exact reals. This covers rounding, the float value of `M_PI/2` (only `HALF_PI > 0.00001` is assumed), and `0.01f` and `0.000001f` not being exact.
- Renderer calls are left out because they are graphics-library side effects. These are `perspective`, `rotate`, `scale`, `translate`, `lookAt`, `beginShader`/`endShader` and `mesh`. `Draw` returns the arguments of `scale`, `translate` and `beginShader` (the fit and the shader name); the arguments of `perspective`, `rotate`, `lookAt` and `mesh` are not modelled.
- The eye position and camera basis are left out because they are trigonometric and floating-point vector math. These are `sin`/`cos` of azimuth and elevation, `cross`, and the stored `eyePos`/`camX`/`camY`/`camZ`.
- `Light.Pos` is recorded as the eye-space image of the world position (10, 2.5, 5, 1). The product with `viewMatrix()` is not computed.
- `setUniform` is modelled only as updating a per-program parameter table. What the GPU does with the values is not modelled.
- Shader loading and `GetFilenamesInDir` are file I/O. The model catalog is a parameter of `Setup`.
- `PLYMesh::load` is file I/O. Each load appears only as its path appended to `loads`. Load failures and the mesh contents are not modelled, and the mesh bounds are parameters of `Draw`.
- The `cout` logging is left out.
- `keyIsDown` and `mouseIsDown` poll the window system. They are the boolean parameters `shiftDown` and `leftDown`.
- The window's event loop (`main`, `run`) is modelled only as `Run` over a sequence of events.
- `mouseDown` and `mouseUp` have empty bodies. They are events that change nothing.
- `numModels` and `numShaders` are uninitialised in C++ until `setup` runs. The constructor sets them to 0.
- `Setup` requires a non-empty model catalog because the source reads `models[0]` before it knows the catalog size. It also requires a freshly constructed viewer, because the window calls `setup` once, before any event.
- The `mods` argument of `keyUp` is ignored, as in the source.
