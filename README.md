# ProceduralTerrain camera and curve core in Dafny

ProceduralTerrain renders a procedurally generated terrain with water and sky. A camera controller
moves over it in six modes: fly-through, FPS walking, recording a Bezier path, replaying the
recorded path, a custom direct mode, and replaying a path built into the program. This project
models the parts of it that are ordinary sequential logic and proves what they promise:

- `Curve` (with `BernsteinBasis`) models the `Bezier` class. It is an append-only list of control
  points. An append that closes a cubic piece moves the knot to the midpoint of its neighbours.
  The curve is evaluated either as one Bezier curve over all points, when no piece is complete, or
  as a chain of cubic pieces where the last piece is widened to the last point.
- `CameraRules` holds the arithmetic of one frame of the controller. It covers the dispatch from
  mode to update rule, the menu numbering, and the three update rules (damped fly-through/FPS,
  direct stepping, Bezier replay) as functions of the previous frame's values.
- `Scene` models `ProceduralScene` as a class with the controller's fields. Its methods are the
  per-frame handler, the three update rules, the key, mouse-button and cursor callbacks,
  recording, the prerecorded path, and the camera menu. Each is proved against the functions of
  `CameraRules` and `Curve`.
- `WaterMesh` and `TerrainMesh` model the grid and index loops of `Water::Init` and
  `Terrain::Init`, plus the setters of the two classes. The water strip is a serpentine triangle
  strip and the terrain list is a list of 4-vertex patches.
- `Vectors` and `Config` hold the glm vector operations used and the constants of
  `common/config.h`.

Floating point values are modelled as mathematical reals, and `int` as unbounded integers. No
index or count in the core comes near a 32-bit bound: the largest is the water's vertex list of
2 * 500 * 500 values.

The model follows the code, also where it does not do what a reader would expect, with one
exception: past the last knot the piece window as written opens a new window and the curve jumps
(see "## Findings"). `Curve.Bezier.GetBezier`, and through it the replay of the scene, use the
corrected window. The curve as written is `Curve.EvalAsWritten`, and the two agree for
t < 3 * splines + 3. Two places where the model follows code that a reader may not expect:

- A curve without a completed piece is evaluated at `t / count` (project/bezier.h:20), so at
  `t = count - 1` it does not reach its last point, although a curve through all the points
  would be expected to end there. `Curve.ShortCurveStopsShort` shows this for two points.
- A fresh replay start does not reset the frame clock (project/proceduralScene.h:477-480), so
  the first advance after a start counts all the time since the clock was last read.

## Model

| member | source | states |
|---|---|---|
| Vectors.Midpoint | project/bezier.h:42 | the rewritten knot is equidistant from its two neighbours |
| BernsteinBasis.FactorialAtLeastOne | project/bezier.h:79-86 | `factorial(n)` is at least 1, so the binomial quotient never divides by zero |
| BernsteinBasis.BinomialPositive | project/bezier.h:74-77 | every `binomial(n, k)` with k <= n is positive |
| BernsteinBasis.BinomialEnds | project/bezier.h:74-77 | `binomial(n, 0) == binomial(n, n) == 1` |
| BernsteinBasis.BinomialSymmetric | project/bezier.h:74-77 | `binomial(n, k) == binomial(n, n - k)` |
| BernsteinBasis.Pascal | project/bezier.h:74-86 | the factorial quotient satisfies Pascal's rule, so it is n choose k |
| BernsteinBasis.BernsteinRecurrence | project/bezier.h:69-72 | a weight of degree n + 1 is `(1 - t)` times its own degree-n weight plus `t` times its left neighbour's |
| BernsteinBasis.WeightSumRecurrence | project/bezier.h:69-72 | the prefix sums of the weights of consecutive degrees satisfy the same recurrence |
| BernsteinBasis.PartitionOfUnity | project/bezier.h:69-72 | the n + 1 weights `bernstein(t, n, i)` add up to 1 for every t |
| BernsteinBasis.BernsteinEndpoints | project/bezier.h:69-72 | at t = 0 only the first weight is nonzero (it is 1); at t = 1 only the last |
| BernsteinBasis.BernsteinNonNegative | project/bezier.h:69-72 | for t in [0, 1] no weight is negative |
| Curve.WeightsAtEnds | project/bezier.h:56-72 | at t = 0 all weight is on the first point of a piece, at t = 1 all of it on the last |
| Curve.WeightsPartitionUnity | project/bezier.h:56-72 | the weights of a piece add up to 1 and, for t in [0, 1], are not negative |
| Curve.SegmentAtZero | project/bezier.h:56-67 | `calculateBezier(0, s, e) == cp[s]` |
| Curve.SegmentAtOne | project/bezier.h:56-67 | `calculateBezier(1, s, e) == cp[e]` |
| Curve.SegmentOfEqualPoints | project/bezier.h:56-67 | a piece whose points coincide is that point for every t |
| Curve.SegmentWithinBounds | project/bezier.h:56-67 | convex hull: for t in [0, 1] every coordinate lies between that coordinate's extremes over the piece's points |
| Curve.SplinesClosedForm | project/bezier.h:38-48 | after n appends `splines == max(0, (n - 1) / 3 - 1)` |
| Curve.Appended | project/bezier.h:37-49 | an append puts the point last; at old count c > 3 with c % 3 == 0, where c >= 6 so both neighbours exist, it sets `cp[c - 3]` to the midpoint of `cp[c - 4]` and `cp[c - 2]`; every other index keeps its point |
| Curve.KnotsAfterAppend | project/bezier.h:37-49 | an append keeps the counter's closed form and every knot `cp[3k] == (cp[3k - 1] + cp[3k + 1]) / 2`, k = 1 .. splines, including the one it closes |
| Curve.WrittenWindowInBounds | project/bezier.h:24-31 | for 0 <= t <= count - 1 the window as written lies in [0, count - 1] and starts at or before t |
| Curve.KnotWindowInBounds | project/bezier.h:24-31 | the same for the corrected window, whose width is 0 only when t is its start |
| Curve.LocalParamInUnit | project/bezier.h:30-31 | a window containing t gives a local parameter in [0, 1] |
| Curve.ChainShape | project/bezier.h:38-48 | a chain has a completed piece iff it has at least 7 points; the last knot is 3 to 5 points before the end |
| Curve.EvalStartsAtFirstPoint | project/bezier.h:16-35 | `getBezier(0) == cp[0]` in both modes, as written and corrected |
| Curve.EvalEndsAtLastPoint | project/bezier.h:16-35 | in piece mode `getBezier(count - 1)` is the last control point, as written and corrected |
| Curve.EvalOnCubicPiece | project/bezier.h:24-33 | before the last knot, t in [3j, 3j + 3) is read on `cp[3j..3j + 3]` at `(t - 3j) / 3`, and both window rules agree there |
| Curve.EvalOnLastPiece | project/bezier.h:24-33 | corrected: from the last knot on, the curve stays on the one piece from that knot to the last point |
| Curve.WrittenWindowPastLastPiece | project/bezier.h:24-31 | as written: each multiple of 3 past the last knot opens a new window that runs to the last point |
| Curve.KnotContinuity | project/bezier.h:37-45 | at each knot the piece ending there meets the curve, and the two control legs through the knot are equal, so the tangent carries over |
| Curve.EvalWithinBounds | project/bezier.h:16-35 | for t in [0, count - 1] every coordinate of the curve lies between that coordinate's extremes over all points |
| Curve.SinglePointCurve | project/bezier.h:18-20 | a curve of one point is that point for every t |
| Curve.EmptyCurve | project/bezier.h:18-20 | a curve without points is the origin |
| Curve.ShortCurveStopsShort | project/bezier.h:18-20 | two points at t = count - 1 = 1 give their midpoint, not the last point |
| Curve.FourPointExample | project/bezier.h:18-20 | (0,0,0), (1,0,0), (2,1,0), (3,1,0) at t = 2 give (1.5, 0.5, 0) |
| Curve.EvalAgreesBeforeLastWindow | project/bezier.h:24-31 | both window rules give the same curve for t < 3 * splines + 3 |
| Curve.WrittenCurveJumps | project/bezier.h:24-31 | as written, the 8-point chain `JumpPoints` follows `cp[3..7]` on [3, 6), which tends to (27/64, 0, 0), but at t = 6 is at (1, 0, 0) |
| Curve.KnotCurveContinues | project/bezier.h:24-31 | corrected, the same chain follows `cp[3..7]` on all of [3, 7] and is at (27/64, 0, 0) at t = 6 |
| Curve.Bezier.constructor | project/bezier.h:10-13 | a new curve is empty and satisfies the invariant |
| Curve.Bezier.AddControlPoint | project/bezier.h:37-49 | the count grows by one; the points become `Appended(old points, p)`; `splines` grows by one exactly when the append closes a piece; the invariant (count, counter closed form, all knots) is kept |
| Curve.Bezier.GetCount | project/bezier.h:51-53 | the count is the number of control points |
| Curve.Bezier.CalculateBezier | project/bezier.h:56-67 | the loop's sum is the Bernstein blend of `cp[start..end]`; an empty range gives the origin |
| Curve.Bezier.GetBezier | project/bezier.h:16-35 | the result is the corrected curve at t, and it equals the curve as written for t < 3 * splines + 3 |
| CameraRules.UpdateRule | project/proceduralScene.h:285-309 | Custom and RecordBezier run the direct rule, Flythrough and FPS the damped rule, Bezier and PreRecorded the replay rule, each iff |
| CameraRules.RadioIndex | project/proceduralScene.h:828-833 | every mode has a button value in 0 .. 5 |
| CameraRules.ModeForRadio | project/proceduralScene.h:835-858 | each value 0 .. 5 selects the mode with that button value, any other selects fly-through |
| CameraRules.RadioRoundTrip | project/proceduralScene.h:828-858 | the button value of a mode selects that mode again |
| CameraRules.SliderRenders | project/proceduralScene.h:735-750 | the terrain menu renders at most four times, not at all iff no slider moved, and four times iff all four did |
| CameraRules.Clamp | project/proceduralScene.h:558-611 | `clamp` lands in [lo, hi], keeps values inside and sends values outside to the nearer bound |
| CameraRules.ForwardSpeed | project/proceduralScene.h:556-563 | after W the speed is in [MIN_CAM_SPEED, MAX_CAM_SPEED], and in FPS also in [-CAM_SPEED, CAM_SPEED] |
| CameraRules.BackwardSpeed | project/proceduralScene.h:578-581 | after S the speed is in [MIN_CAM_SPEED, MAX_CAM_SPEED] |
| CameraRules.TurnRate | project/proceduralScene.h:595-606 | a rate rises by CAM_ANGLE_ACC_FACTOR for its first key, falls by it for its second, and is unchanged when both or neither are held |
| CameraRules.Fly | project/proceduralScene.h:537-615 | after a damped step the pitch is in [-80, 80] and its rate is 0 at either bound; without W and S the speed is multiplied by 0.9 and eye and centre stay; after W or S the speed is in its clamp (after W alone in FPS within CAM_SPEED); a speed inside the clamp stays inside; FPS W sets the eye height to max(4, sample * 20 + 4) and FPS S to sample * 20 + 4; the eye's x and z never change; the new yaw rate is the old one, multiplied by 0.9 unless A or D is held, then raised by D and lowered by A; the yaw moves by that new rate |
| CameraRules.FlyPitchInside | project/proceduralScene.h:595-615 | when the new pitch stays inside the bounds, the pitch moves by the rate and the rate is kept |
| CameraRules.FlyRatesDecay | project/proceduralScene.h:545-552 | without A and D the yaw rate is multiplied by 0.9; without Q and E so is the pitch rate, when the pitch stays inside its bounds |
| CameraRules.Move | project/proceduralScene.h:625-669 | the direct rule renders iff W, S, A or D is held; when W and S are both held or both free, and so are A and D, eye and centre stay; the eye's x and z never change |
| CameraRules.MoveForward | project/proceduralScene.h:629-636 | W alone moves the centre by `CAM_SPEED * front` in the plane and the eye up by 250 times its height part |
| CameraRules.ReplaySpeed | project/proceduralScene.h:466-475 | W adds 0.01 and S subtracts 0.01 with a floor at 0, so after S, or from a speed that is not negative, the speed is not negative |
| CameraRules.Advance | project/proceduralScene.h:485-488 | the curve parameter grows by frame time times speed and never runs backwards on a clock that does not |
| Scene.ProceduralScene.constructor | project/proceduralScene.h:44-78 | the member initialisers: yaw 90, pitch 0, cursor baseline at the window centre, no key held, Custom mode, speeds CAM_SPEED and 0, replay speed 0.5 with a pending start at parameter 0, frame clock 0, INITIAL_EYE / FRONT / UP / CENTER (the up vector never changes afterwards), four empty curves, wireframe off, height sample 0; the invariant holds, so the first frame may run at any time not before 0 |
| Scene.ProceduralScene.Init | project/proceduralScene.h:105-133 | the prerecorded curves get 24 points and 6 pieces each; both meshes get their full lists: each vertex value is `GridCoordinate` of its position, each terrain index `PatchIndex` and each water index `StripIndex` of its position, with the index counts stored; the noise is rendered once |
| Scene.ProceduralScene.UpdateFront | project/proceduralScene.h:671-678 | the view direction is the normalised direction of the current yaw and pitch |
| Scene.ProceduralScene.RenderNoiseToBuffer | project/proceduralScene.h:313-324 | a render happens, and only in FPS is the height sample replaced by the readback |
| Scene.ProceduralScene.MousePressCallback | project/proceduralScene.h:210-217 | dragging holds iff the event is a left-button press |
| Scene.ProceduralScene.CursorPositionCallback | project/proceduralScene.h:219-246 | the baseline always moves to the cursor; a drag in Custom or RecordBezier turns yaw by the x offset and pitch by the reversed y offset times 0.05 and refreshes the view direction, the first drag only setting the baseline; otherwise the angles stay |
| Scene.ProceduralScene.KeyCallback | project/proceduralScene.h:248-265 | a press holds the key and a release frees it, other actions and codes outside [0, 1024) change no entry; releasing R in RecordBezier appends to path and cam, else neither changes; the curve pairing is kept |
| Scene.ProceduralScene.Record | project/proceduralScene.h:326-336 | `(center.x, eye.y, center.y)` is appended to path and `(pitch, yaw, 0)` to cam, so their counts stay equal |
| Scene.ProceduralScene.PrerecordedBezierInit | project/proceduralScene.h:338-462 | 24 point pairs are appended; from empty curves this gives 6 pieces; position and angle counts stay equal |
| Scene.ProceduralScene.Rerender | project/proceduralScene.h:527-530 | `Resample` with a render: the terrain centre follows the camera, the noise is rendered again and in FPS the readback becomes the sample; the water centre and the wireframe flags are unchanged |
| Scene.ProceduralScene.DoMovement | project/proceduralScene.h:625-669 | eye and centre become the direct rule `Move` of the held keys from the old view direction, and the angles, fly speed and rates, view direction and replay state stay (`DirectStep`); when it moves, terrain and water centres follow the camera and the noise is rendered, otherwise centres, render count and sample are unchanged (`DirectOutputs`) |
| Scene.ProceduralScene.WalkKeys | project/proceduralScene.h:627-662 | eye and centre become the direct rule `Move` of the held keys, and the result says whether a key moved them |
| Scene.ProceduralScene.DecayRates | project/proceduralScene.h:541-552 | the three rates become the decay block of `Fly` |
| Scene.ProceduralScene.FlyAhead | project/proceduralScene.h:556-577 | speed, centre and eye become the W block of `Fly` |
| Scene.ProceduralScene.FlyBack | project/proceduralScene.h:578-594 | speed, centre and eye become the S block of `Fly` |
| Scene.ProceduralScene.Turn | project/proceduralScene.h:595-615 | rates and angles become the turn block of `Fly` |
| Scene.ProceduralScene.Glide | project/proceduralScene.h:541-615 | the decay, view-direction, W, S and turn blocks together take the step `DampedStep` |
| Scene.ProceduralScene.DoMovementFlythrough | project/proceduralScene.h:537-623 | the view direction comes from the angles before the step; angles, rates, speed, eye and centre become `Fly` of the held keys and the previous height sample; parameter, restart flag and clock stay (`DampedStep`); a render happens iff W or S is held, otherwise terrain centre, render count and sample are unchanged |
| Scene.ProceduralScene.ReplaySpeedKeys | project/proceduralScene.h:466-475 | the replay speed becomes `ReplaySpeed` of the held W and S |
| Scene.ProceduralScene.FollowCurve | project/proceduralScene.h:496-522 | eye height and centre come from the position curve and pitch and yaw from the angle curve at the current parameter; the view direction is refreshed |
| Scene.ProceduralScene.FollowOrRestart | project/proceduralScene.h:490-523 | past `count - 1` the replay flags a restart and puts the centre at the origin without reading the curve, keeping eye, angles and view direction; otherwise it follows the curves and keeps the flag (`FollowStep`) |
| Scene.ProceduralScene.StartReplay | project/proceduralScene.h:477-480 | a pending start rewinds the parameter to 0 and clears the flag, leaving clock, eye, centre, angles and view direction |
| Scene.ProceduralScene.AdvanceReplay | project/proceduralScene.h:481-523 | the clock moves to now, the parameter grows by frame time times speed, and the replay restarts or follows the curves of the current mode |
| Scene.ProceduralScene.StepReplay | project/proceduralScene.h:477-523 | `ReplayStep`: a pending start only rewinds the parameter to 0, keeping clock, eye, centre, angles and view direction; otherwise the clock moves to now, the parameter advances and the replay restarts or follows the curves of the current mode; the invariant is kept |
| Scene.ProceduralScene.DoMovementBezier | project/proceduralScene.h:464-531 | the replay speed becomes `ReplaySpeed` of W and S, the camera takes the step `ReplayStep` at the new speed, and the terrain follows the camera and the noise is rendered every frame; the invariant (speeds in range, parameter not negative, curves paired) is kept |
| Scene.ProceduralScene.ReplayWithKeys | project/proceduralScene.h:466-523 | the speed block, then `StepReplay` at the new speed; the invariant is kept |
| Scene.ProceduralScene.CameraHandler | project/proceduralScene.h:285-311 | exactly the rule `UpdateRule` names runs, stated over every value the rules own (`HandledStep`): the direct rule is `DirectStep` and keeps the replay speed; the damped rule is `DampedStep` (view direction from the old angles, navigation values `Fly`, replay state kept) and keeps the replay speed; the replay rule sets `ReplaySpeed`, takes `ReplayStep` and keeps the fly speed and rates. The outputs become `HandlerOutputs`: a render iff `FrameRenders` (direct: W, S, A or D; damped: W or S; replay: always), the water following the camera only on a direct render, the wireframe kept |
| Scene.ProceduralScene.SteerFromKeys | project/proceduralScene.h:287-299 | Custom and RecordBezier take `MovedDirectly` (`DirectStep`, with both centres and a render iff it moves); Flythrough and FPS take `Flew` (`DampedStep`, with a render iff W or S) and keep the water; the invariant is kept |
| Scene.ProceduralScene.DrawCameraMenu | project/proceduralScene.h:827-859 | the mode becomes `ModeForRadio(radio)`; the FPS button renders, reads the height back and puts the eye at sample * 20 + 4 with no floor; any other button leaves eye and sample |
| Scene.ProceduralScene.DrawTerrainMenu | project/proceduralScene.h:718-751 | a click on the wireframe box flips the flag and hands it to the terrain; each moved noise slider renders once, and in FPS the sample becomes the readback when any slider moved |
| Scene.ProceduralScene.DrawGui | project/proceduralScene.h:702-716 | the camera menu then the terrain menu: the mode becomes `ModeForRadio(radio)`; the FPS button sets the eye height from its fresh sample, any other button leaves every value the update rules own; the sample ends as the terrain menu's readback in FPS after a slider moved, else the FPS button's, else unchanged; the render count grows by one for the button and one per moved slider; a click flips the wireframe and hands it to the terrain (`GuiOutputs`); the invariant is kept |
| Scene.ProceduralScene.DisplayFrame | project/proceduralScene.h:136-197 | a frame runs the handler, the camera menu and the terrain menu, and changes nothing else; for any button but FPS the frame ends with the handler's step `HandledStep` (pose, rates, replay state and replay speed) and the handler's sample; for the FPS button the eye ends at sample * 20 + 4 of the camera menu's fresh sample, without the floor of the W key, and the sample is the terrain menu's readback when a slider moved, else the camera menu's; the render count grows by the handler's render, the FPS button's and one per moved slider; the terrain centre follows the camera iff the handler rendered, the water only on a direct render; a click flips the wireframe; the invariant is kept |
| Scene.FrameOutputs | project/proceduralScene.h:136-197 | composing `HandlerOutputs` and `GuiOutputs`: every render of the frame is counted once, the centres are the handler's, the wireframe is the menu's, and the sample is the last readback taken |
| WaterMesh.GridVertices | project/water/water.h:99-105 | the vertex list holds 2 * 500 * 500 values, each the grid coordinate of its position |
| WaterMesh.GridVertexAt | project/water/water.h:99-105 | vertex (i, j) sits at positions `2 * (i * R + j)` and `2 * (i * R + j) + 1` with values i - 250 and j - 250 |
| WaterMesh.StripIndices | project/water/water.h:107-122 | the index list holds exactly 2 * R * (R - 1) entries, each `StripIndex` of its position |
| WaterMesh.StripIndexInGrid | project/water/water.h:107-122 | every index is in [0, R * R) |
| WaterMesh.StripPair | project/water/water.h:109-120 | each pair joins the same row of columns i - 1 and i; even columns push i - 1 first going up the rows, odd columns push i first going down |
| WaterMesh.StripTurns | project/water/water.h:107-121 | the strip is an S path: the last row of one column is the first row of the next |
| WaterMesh.Water.constructor | project/water/water.h:44-53 | the parameters start at their configured initial values and the mesh is empty |
| WaterMesh.Water.Init | project/water/water.h:97-124 | vertices and indices are the two lists above and `num_indices_` is the index count |
| WaterMesh.Water.SetTransparency | project/water/water.h:56-58 | only the transparency is replaced |
| WaterMesh.Water.SetReflection | project/water/water.h:59-61 | only the reflection is replaced |
| WaterMesh.Water.SetWaveDir | project/water/water.h:62-64 | only the wave direction is replaced |
| WaterMesh.Water.SetWaveSpeed | project/water/water.h:65-67 | only the wave speed is replaced |
| WaterMesh.Water.SetAlpha | project/water/water.h:68-70 | only alpha is replaced |
| WaterMesh.Water.SetRefraction | project/water/water.h:71-73 | only the refraction is replaced |
| WaterMesh.Water.SetCenter | project/water/water.h:169-171 | only the centre is replaced |
| TerrainMesh.GridVertices | project/terrain/terrain.h:76-81 | the vertex list holds 2 * 256 * 256 values in row-major (i, j) order |
| TerrainMesh.GridVertexAt | project/terrain/terrain.h:76-81 | vertex (i, j) sits at `2 * (i * 256 + j)` with values `size * i - 250` and `size * j - 250` |
| TerrainMesh.PatchIndices | project/terrain/terrain.h:83-90 | the index list holds exactly 4 * 254 * 255 entries, each `PatchIndex` of its position |
| TerrainMesh.PatchIndexInGrid | project/terrain/terrain.h:83-90 | every index is in [256, 65536), so row i = 0 of the grid (indices below 256) is never referenced |
| TerrainMesh.PatchCorners | project/terrain/terrain.h:85-88 | each group of four is the corners (i, j), (i + 1, j), (i + 1, j + 1), (i, j + 1) of one patch |
| TerrainMesh.Terrain.constructor | project/terrain/terrain.h:39-42 | no wireframe, centre at INITIAL_CENTER, empty mesh |
| TerrainMesh.Terrain.Init | project/terrain/terrain.h:72-92 | vertices and indices are the two lists above; the index count is a multiple of the 4 vertices per patch |
| TerrainMesh.Terrain.SetCenter | project/terrain/terrain.h:144-146 | only the centre is replaced |
| TerrainMesh.Terrain.SetWireframe | project/terrain/terrain.h:148-150 | only the wireframe flag is replaced |

## Left out

- OpenGL, GLEW and GLFW calls are not modelled: shaders, buffers, textures, framebuffers, uniforms, draw calls and `lookAt`/`view`. They are foreign calls with no logic to check. Their effect on the controller is kept: the terrain and water centres and the height sample.
- `glReadPixels` of the height under the screen centre is a `readback` parameter of the methods that render. Each render in FPS stores it as `heightSample`. `heightmap` is left uninitialised by `Init`; the model starts it at 0, and no rule reads it before an FPS render has set it.
- `glfwGetTime` is the `now` parameter of the replay. `DoMovementBezier` requires a clock that does not run backwards (`lastFrameTime <= now`), as `glfwGetTime` does not. The replay invariant "parameter not negative" needs this.
- The trigonometry of `updateFront` and `glm::normalize` are not computed. They are the function fields `direction` and `normalize`, so the strafe vector of `do_movement` is `normalize(Cross(front, up))`.
- Float rounding, NaN and infinities are not modelled; values are reals. The zero-width window of `getBezier` divides 0 by 0, but its single weight is `pow(_, 0) == 1` whatever the quotient, so `LocalParam` uses 0 there.
- The 24 literal prerecorded coordinates (project/proceduralScene.h:342-460) are parameters of `PrerecordedBezierInit`. The model keeps their count.
- The ImGui windows and widgets of the menus (project/proceduralScene.h:702-816) are left out, and so is the radio variable's static storage: the chosen button is the `radio` parameter of `DrawCameraMenu`. `DrawGui` keeps the menus' effect on the controller.
- `screenquad.setCenter` and the rest of project/screenquad/screenquad.h are left out. The centre they receive is the terrain's, which is modelled.
- Escape closing the window (project/proceduralScene.h:250-252) and the console output of `record` are window I/O and are left out.
- `resizeCallback`, `computePerspectiveProjection`, the day/night and snow cycle, lighting, `precomputed`, the water and light menus, the terrain menu's render box and slider values (which only reach the screen quad), sky.h and main.cpp have no role in navigation and are left out.
- The empty `do_movement_fps` (project/proceduralScene.h:533-535) is never called and is left out.
- Scene.ProceduralScene.FlyAhead: tests `cameraMode == FPS` for the eye height, with the branches swapped, where the source tests `camera_mode == FLYTHROUGH`. The damped rule only runs in these two modes, and there the tests agree.
- Scene.ProceduralScene.FlyBack: tests `cameraMode != FPS` where the source tests `camera_mode == FLYTHROUGH`, which agree for the same reason.
- Scene.ProceduralScene.DoMovement: like DoMovementFlythrough, requires only the key table's size, not the whole controller invariant; `CameraHandler` re-establishes the invariant.
- Curve.Bezier.GetBezier: uses the corrected window of the finding below rather than the window as written. The curve as written is `Curve.EvalAsWritten`, and `GetBezier` is proved equal to it for t < 3 * splines + 3.
- Scene.ProceduralScene.FollowCurve: reads both curves through the corrected `GetBezier`. So for t in [3 * splines + 3, count - 1), which is [21, 23) for the prerecorded curves, it follows the widened last piece, where the program as written follows the new window that opens at 3 * splines + 3.
- Scene.ProceduralScene.FollowOrRestart: follows the corrected curve, through `FollowCurve`.
- Scene.ProceduralScene.AdvanceReplay: the same, through `FollowOrRestart` and the predicate `FollowStep`.
- Scene.ProceduralScene.StepReplay: the same, through `AdvanceReplay` and `ReplayStep`.
- Scene.ProceduralScene.ReplayWithKeys: the same, through `StepReplay`.
- Scene.ProceduralScene.DoMovementBezier: the same, through `StepReplay`.
- Scene.ProceduralScene.CameraHandler: the same, in its replay branch.
- Scene.ProceduralScene.DisplayFrame: for the FPS button states the mode, the eye height and the sample after the frame, not the handler's step for the other values, which the camera menu leaves as the handler set them.
- Scene.ProceduralScene.DrawTerrainMenu: every render it triggers takes the one `readback`, the height after the last of them; the heights read by the earlier renders of the same frame are overwritten before anything reads them.

## Findings

| source | as written | input that shows it | evidently intended | confidence | as-written member | corrected member |
|---|---|---|---|---|---|---|
| project/bezier.h:24-31 | The window starts at `3 * floor(t / 3)` even past the last knot, and is then widened to the last point. When `count - 1 > 3 * splines + 3`, a new window `[3 * splines + 3, count - 1]` opens at `t = 3 * splines + 3` and the curve jumps. The 24 prerecorded points jump at t = 21. | 8 points, all at the origin except `cp[6] = (1, 0, 0)` (one piece): on [3, 6) the curve follows `cp[3..7]`, tending to (27/64, 0, 0); at t = 6 it is at (1, 0, 0) | the widened last piece runs from the last knot to the last point, so the curve is continuous up to `count - 1` | high, not executed | Curve.WrittenCurveJumps | Curve.KnotCurveContinues |
