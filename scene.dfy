// The camera and navigation controller of `ProceduralScene` in project/proceduralScene.h: its
// fields, the per-frame dispatch, the three update rules, the input callbacks, recording of a
// path, and the camera and terrain menus. Rendering is reduced to what it leaves behind for the
// controller: the terrain's and the water's centre, the sampled terrain height and a count of noise renders.
module Scene {
  import opened Vectors
  import opened Config
  import opened CameraRules
  import opened Curve
  import opened TerrainMesh
  import opened WaterMesh

  /** The values the update rules own, but for the replay speed: the navigation values, the view direction and the replay state. */
  datatype CameraPose = CameraPose(nav: Flight, front: Vec3, bezierTime: real, startPath: bool, lastFrameTime: real)

  /** What a frame leaves outside the camera: the two centres, the render count, the height sample and the wireframe flags. */
  datatype Outputs = Outputs(terrainCenter: Vec2, waterCenter: Vec2, renders: nat, sample: real,
                             wireframe: bool, terrainWireframe: bool)

  /**
   * One noise render when `moved`: the terrain follows the camera's centre, the count grows by one,
   * and in FPS the readback becomes the sample. Without a render nothing changes.
   */
  function Resample(o: Outputs, moved: bool, fps: bool, center: Vec2, readback: real): Outputs {
    if moved then o.(terrainCenter := center, renders := o.renders + 1, sample := if fps then readback else o.sample)
    else o
  }

  /** The direct rule's outputs: the render of `Resample`, and the water follows the camera too. */
  function DirectOutputs(o: Outputs, moved: bool, fps: bool, center: Vec2, readback: real): Outputs {
    var r := Resample(o, moved, fps, center, readback);
    if moved then r.(waterCenter := center) else r
  }

  /** The handler's outputs: a render when `FrameRenders` says so; the water follows only the direct rule. */
  function HandlerOutputs(o: Outputs, mode: CameraMode, k: Held, center: Vec2, readback: real): Outputs {
    if UpdateRule(mode) == Direct then DirectOutputs(o, FrameRenders(mode, k), mode == FPS, center, readback)
    else Resample(o, FrameRenders(mode, k), mode == FPS, center, readback)
  }

  /**
   * The menus' outputs: the FPS button renders and takes its readback, each moved slider renders and
   * in FPS the sample becomes the terrain menu's readback, and a click flips the wireframe.
   */
  function GuiOutputs(o: Outputs, radio: int, menuReadback: real, clicked: bool, moved: Sliders, terrainReadback: real): Outputs {
    var w := o.wireframe != clicked;
    o.(renders := o.renders + (if radio == 1 then 1 else 0) + SliderRenders(moved),
       sample := if ModeForRadio(radio) == FPS && SliderRenders(moved) > 0 then terrainReadback
                 else if radio == 1 then menuReadback else o.sample,
       wireframe := w, terrainWireframe := if clicked then w else o.terrainWireframe)
  }

  /**
   * One frame's outputs, the handler's and then the menus': each render of the frame is counted once,
   * the centres are the handler's, the wireframe is the menu's, and the sample is the last readback taken.
   */
  lemma FrameOutputs(o: Outputs, mode: CameraMode, k: Held, center: Vec2, readback: real,
                     radio: int, menuReadback: real, clicked: bool, moved: Sliders, terrainReadback: real)
    ensures var r := GuiOutputs(HandlerOutputs(o, mode, k, center, readback), radio, menuReadback, clicked, moved, terrainReadback);
      r.renders == o.renders + (if FrameRenders(mode, k) then 1 else 0) + (if radio == 1 then 1 else 0) + SliderRenders(moved) &&
      r.terrainCenter == (if FrameRenders(mode, k) then center else o.terrainCenter) &&
      r.waterCenter == (if UpdateRule(mode) == Direct && FrameRenders(mode, k) then center else o.waterCenter) &&
      r.wireframe == (o.wireframe != clicked) &&
      r.terrainWireframe == (if clicked then r.wireframe else o.terrainWireframe) &&
      r.sample == (if radio == 1 then (if SliderRenders(moved) > 0 then terrainReadback else menuReadback)
                   else if FrameRenders(mode, k) && mode == FPS then readback else o.sample)
  {
  }

  class ProceduralScene {
    var camYaw: real
    var camPitch: real
    var lastX: real
    var lastY: real
    const keys: array<bool>
    var drag: bool
    var firstMouse: bool
    var cameraMode: CameraMode
    var lastFrameTime: real
    var currCameraSpeed: real
    var pitchSpeed: real
    var yawSpeed: real
    /** `heightmap[0]`: the terrain height read back from the screen centre by the last FPS render. */
    var heightSample: real
    /** The terrain menu's wireframe box. */
    var wireframe: bool
    const path: Bezier
    const cam: Bezier
    const prerecordedPath: Bezier
    const prerecordedCam: Bezier
    var startPath: bool
    var bezierTime: real
    var currSpeed: real
    var eye: Vec3
    var front: Vec3
    const up: Vec3
    var center: Vec2
    const terrain: Terrain
    const water: Water
    /** The trigonometry of `updateFront`: the view direction for a yaw and a pitch in degrees. */
    const direction: (real, real) -> Vec3
    /** `glm::normalize`. */
    const normalize: Vec3 -> Vec3
    /** How often the noise texture has been rendered (`renderNoiseToBuffer`). */
    ghost var noiseRenders: nat

    /** The four curves are distinct, each keeps its own invariant, and positions and angles come in pairs. */
    ghost predicate CurvesValid()
      reads path, cam, prerecordedPath, prerecordedCam
    {
      path != cam && path != prerecordedPath && path != prerecordedCam &&
      cam != prerecordedPath && cam != prerecordedCam && prerecordedPath != prerecordedCam &&
      path.Valid() && cam.Valid() && prerecordedPath.Valid() && prerecordedCam.Valid() &&
      path.elementCount == cam.elementCount && prerecordedPath.elementCount == prerecordedCam.elementCount
    }

    /**
     * The controller's invariant: the key table has its 1024 entries, the fly speed stays within
     * its clamp, the replay never runs backwards, and the curves keep theirs.
     */
    ghost predicate Valid()
      reads this`currCameraSpeed, this`currSpeed, this`startPath, this`bezierTime
      reads path, cam, prerecordedPath, prerecordedCam
    {
      keys.Length == KEY_COUNT && CurvesValid() &&
      MIN_CAM_SPEED <= currCameraSpeed <= MAX_CAM_SPEED &&
      0.0 <= currSpeed && (!startPath ==> 0.0 <= bezierTime)
    }

    /** The keys the damped rule reads. */
    function HeldKeys(): Held
      reads keys
      requires keys.Length == KEY_COUNT
    {
      Held(keys[KEY_W], keys[KEY_S], keys[KEY_A], keys[KEY_D], keys[KEY_Q], keys[KEY_E])
    }

    function Navigation(): Flight
      reads this`camYaw, this`camPitch, this`currCameraSpeed, this`yawSpeed, this`pitchSpeed, this`eye, this`center
    {
      Flight(camYaw, camPitch, currCameraSpeed, yawSpeed, pitchSpeed, eye, center)
    }

    /** The member initialisers; the scene is a zero-initialised global, so no key starts held. */
    constructor (direction: (real, real) -> Vec3, normalize: Vec3 -> Vec3)
      ensures Valid() && fresh(keys) && fresh(terrain) && fresh(water)
      ensures forall k :: 0 <= k < KEY_COUNT ==> !keys[k]
      ensures cameraMode == Custom && camYaw == START_CAM_YAW && camPitch == START_CAM_PITCH
      ensures lastX == WINDOW_WIDTH / 2.0 && lastY == WINDOW_HEIGHT / 2.0 && !drag && firstMouse
      ensures currCameraSpeed == CAM_SPEED && pitchSpeed == 0.0 && yawSpeed == 0.0
      ensures startPath && currSpeed == 0.5
      ensures eye == INITIAL_EYE && front == INITIAL_FRONT && up == INITIAL_UP && center == INITIAL_CENTER
      ensures path.controlPoints == [] && cam.controlPoints == []
      ensures prerecordedPath.controlPoints == [] && prerecordedCam.controlPoints == []
      ensures this.direction == direction && this.normalize == normalize && noiseRenders == 0 && !wireframe
      ensures lastFrameTime == 0.0 && bezierTime == 0.0 && heightSample == 0.0
    {
      camYaw, camPitch := START_CAM_YAW, START_CAM_PITCH;
      lastX, lastY := WINDOW_WIDTH / 2.0, WINDOW_HEIGHT / 2.0;
      drag, firstMouse := false, true;
      cameraMode := Custom;
      lastFrameTime := 0.0;
      currCameraSpeed, pitchSpeed, yawSpeed := CAM_SPEED, 0.0, 0.0;
      heightSample := 0.0;
      wireframe := false;
      path := new Bezier();
      cam := new Bezier();
      prerecordedPath := new Bezier();
      prerecordedCam := new Bezier();
      startPath, bezierTime, currSpeed := true, 0.0, 0.5;
      eye, front, center := INITIAL_EYE, INITIAL_FRONT, INITIAL_CENTER;
      up := INITIAL_UP;
      terrain := new Terrain();
      water := new Water();
      this.direction := direction;
      this.normalize := normalize;
      noiseRenders := 0;
      keys := new bool[KEY_COUNT](_ => false);
    }

    /**
     * The model-relevant part of `Init`: the prerecorded curves are filled, both grids are built,
     * and the noise is rendered once (in the initial Custom mode, without a readback).
     */
    method Init(points: seq<Vec3>, angles: seq<Vec3>, readback: real)
      requires Valid() && |points| == 24 && |angles| == 24
      requires prerecordedPath.controlPoints == [] && prerecordedCam.controlPoints == []
      modifies prerecordedPath, prerecordedCam, terrain`vertices, terrain`indices, terrain`numIndices
      modifies water`vertices, water`indices, water`numIndices, this`heightSample, this`noiseRenders
      ensures Valid()
      ensures prerecordedPath.elementCount == 24 && prerecordedPath.splines == 6 && prerecordedCam.splines == 6
      ensures terrain.numIndices == |terrain.indices| == PATCH_VERTICES * PATCH_COUNT
      ensures forall k :: 0 <= k < |terrain.indices| ==> terrain.indices[k] == PatchIndex(k)
      ensures |terrain.vertices| == 2 * TerrainMesh.Q * TerrainMesh.Q
      ensures forall k :: 0 <= k < |terrain.vertices| ==> terrain.vertices[k] == TerrainMesh.GridCoordinate(k)
      ensures water.numIndices == |water.indices| == 2 * WaterMesh.R * (WaterMesh.R - 1)
      ensures forall k :: 0 <= k < |water.indices| ==> water.indices[k] == StripIndex(k)
      ensures |water.vertices| == 2 * WaterMesh.R * WaterMesh.R
      ensures forall k :: 0 <= k < |water.vertices| ==> water.vertices[k] == WaterMesh.GridCoordinate(k)
      ensures noiseRenders == old(noiseRenders) + 1
      ensures heightSample == if cameraMode == FPS then readback else old(heightSample)
    {
      PrerecordedBezierInit(points, angles);
      terrain.Init();
      water.Init();
      RenderNoiseToBuffer(readback);
    }

    /** `updateFront`: the unit view direction for the current yaw and pitch. */
    method UpdateFront()
      modifies this`front
      ensures front == normalize(direction(camYaw, camPitch))
    {
      front := normalize(direction(camYaw, camPitch));
    }

    /** `renderNoiseToBuffer`: only in FPS is the height under the screen centre read back. */
    method RenderNoiseToBuffer(readback: real)
      modifies this`heightSample, this`noiseRenders
      ensures heightSample == if cameraMode == FPS then readback else old(heightSample)
      ensures noiseRenders == old(noiseRenders) + 1
    {
      noiseRenders := noiseRenders + 1;
      if cameraMode == FPS {
        heightSample := readback;
      }
    }

    /** `mousePressCallback`: dragging while the left button is down. */
    method MousePressCallback(button: int, action: int)
      modifies this`drag
      ensures drag == (button == MOUSE_BUTTON_LEFT && action == PRESS)
    {
      if button == MOUSE_BUTTON_LEFT && action == PRESS {
        drag := true;
      } else {
        drag := false;
      }
    }

    /**
     * `cursorPositionCallback`: a drag in the Custom or RecordBezier mode turns the camera by the
     * cursor's offset from the last position; the first such move only sets the baseline.
     */
    method CursorPositionCallback(x: real, y: real)
      modifies this`lastX, this`lastY, this`firstMouse, this`camYaw, this`camPitch, this`front
      ensures lastX == x && lastY == y
      ensures if old(drag) && (cameraMode == Custom || cameraMode == RecordBezier) then
          var fromX := if old(firstMouse) then x else old(lastX);
          var fromY := if old(firstMouse) then y else old(lastY);
          !firstMouse &&
          camYaw == old(camYaw) + (x - fromX) * MOUSE_SENSITIVITY &&
          camPitch == old(camPitch) + (fromY - y) * MOUSE_SENSITIVITY &&
          front == normalize(direction(camYaw, camPitch))
        else
          firstMouse == old(firstMouse) && camYaw == old(camYaw) && camPitch == old(camPitch) && front == old(front)
    {
      if drag && (cameraMode == Custom || cameraMode == RecordBezier) {
        if firstMouse {
          lastX := x;
          lastY := y;
          firstMouse := false;
        }
        var xoffset := x - lastX;
        var yoffset := lastY - y;
        lastX := x;
        lastY := y;
        xoffset := xoffset * MOUSE_SENSITIVITY;
        yoffset := yoffset * MOUSE_SENSITIVITY;
        camYaw := camYaw + xoffset;
        camPitch := camPitch + yoffset;
        UpdateFront();
      } else {
        lastX := x;
        lastY := y;
      }
    }

    /** `record`: the camera's position joins `path` and its angles join `cam`, so the two stay in step. */
    method Record()
      requires CurvesValid()
      modifies path, cam
      ensures CurvesValid()
      ensures path.controlPoints == Appended(old(path.controlPoints), Vec3(center.x, eye.y, center.y))
      ensures cam.controlPoints == Appended(old(cam.controlPoints), Vec3(camPitch, camYaw, 0.0))
    {
      path.AddControlPoint(Vec3(center.x, eye.y, center.y));
      cam.AddControlPoint(Vec3(camPitch, camYaw, 0.0));
    }

    /**
     * `keyCallback`: a press holds a key of the table and a release frees it, other actions and
     * codes outside the table change nothing; releasing R in RecordBezier records a point.
     */
    method KeyCallback(key: int, action: int)
      requires keys.Length == KEY_COUNT && CurvesValid()
      modifies keys, path, cam
      ensures CurvesValid()
      ensures forall k :: 0 <= k < KEY_COUNT ==>
        keys[k] == if k == key && action == PRESS then true else if k == key && action == RELEASE then false else old(keys[k])
      ensures if cameraMode == RecordBezier && action == RELEASE && key == KEY_R then
          path.controlPoints == Appended(old(path.controlPoints), Vec3(center.x, eye.y, center.y)) &&
          cam.controlPoints == Appended(old(cam.controlPoints), Vec3(camPitch, camYaw, 0.0))
        else
          path.controlPoints == old(path.controlPoints) && cam.controlPoints == old(cam.controlPoints)
    {
      if 0 <= key < KEY_COUNT {
        if action == PRESS {
          keys[key] := true;
        } else if action == RELEASE {
          keys[key] := false;
        }
      }
      if cameraMode == RecordBezier && action == RELEASE && key == KEY_R {
        Record();
      }
    }

    /** `prerecordedBezierInit`: 24 positions and 24 angles appended pairwise to the prerecorded curves. */
    method PrerecordedBezierInit(points: seq<Vec3>, angles: seq<Vec3>)
      requires CurvesValid() && |points| == 24 && |angles| == 24
      modifies prerecordedPath, prerecordedCam
      ensures CurvesValid()
      ensures prerecordedPath.elementCount == old(prerecordedPath.elementCount) + 24
      ensures old(prerecordedPath.elementCount) == 0 ==> prerecordedPath.splines == 6 && prerecordedCam.splines == 6
    {
      var n := 0;
      while n < 24
        invariant 0 <= n <= 24
        invariant CurvesValid()
        invariant prerecordedPath.elementCount == old(prerecordedPath.elementCount) + n
      {
        prerecordedPath.AddControlPoint(points[n]);
        prerecordedCam.AddControlPoint(angles[n]);
        n := n + 1;
      }
      SplinesClosedForm(24);
    }

    /** The centre of the terrain (and of the noise) follows the camera and the noise is rendered again. */
    method Rerender(readback: real)
      modifies terrain`center, this`heightSample, this`noiseRenders
      ensures Resampled(readback, true)
    {
      terrain.SetCenter(center);
      RenderNoiseToBuffer(readback);
    }

    /** `Resample` from the state before to the state after, at the camera's centre and mode. */
    twostate predicate Resampled(readback: real, moved: bool)
      reads this`center, this`cameraMode, this`noiseRenders, this`heightSample, this`wireframe, terrain, water
    {
      Out() == Resample(old(Out()), moved, cameraMode == FPS, center, readback)
    }

    /**
     * The direct rule on values: eye and centre become `Move` of the held keys from the old view
     * direction, strafing along the normalised `cross(front, up)`; nothing else it owns changes.
     */
    predicate DirectStep(b: CameraPose, a: CameraPose, k: Held, up: Vec3) {
      var r := Move(b.nav.eye, b.nav.center, b.front, normalize(Cross(b.front, up)), k);
      a == b.(nav := b.nav.(eye := r.eye, center := r.center))
    }

    /**
     * The damped rule on values: the view direction is refreshed from the old angles, then `Fly`
     * runs on the terrain sample `height`; the replay state is kept.
     */
    predicate DampedStep(b: CameraPose, a: CameraPose, k: Held, fps: bool, height: real) {
      a.front == normalize(direction(b.nav.yaw, b.nav.pitch)) && a.nav == Fly(b.nav, k, fps, a.front, height) &&
      a.bezierTime == b.bezierTime && a.startPath == b.startPath && a.lastFrameTime == b.lastFrameTime
    }

    /**
     * One step of the direct rule: eye and centre become `Move` of the held keys from the old
     * view direction; when it moves, both centres follow the camera and the noise is rendered,
     * otherwise nothing else changes.
     */
    twostate predicate MovedDirectly(readback: real)
      requires keys.Length == KEY_COUNT
      reads this, keys, terrain, water
    {
      var k := HeldKeys();
      var moved := k.w || k.s || k.a || k.d;
      DirectStep(old(Pose()), Pose(), HeldKeys(), up) &&
      Out() == DirectOutputs(old(Out()), moved, cameraMode == FPS, center, readback)
    }

    /** `do_movement`: the direct rule; the water follows the camera only here. */
    method DoMovement(readback: real)
      requires keys.Length == KEY_COUNT
      modifies this`eye, this`center, terrain`center, water`center, this`heightSample, this`noiseRenders
      ensures MovedDirectly(readback)
    {
      var needRender := WalkKeys();
      if needRender {
        water.SetCenter(center);
        Rerender(readback);
      }
    }

    /** The four key blocks of `do_movement`: each held key moves the centre and the eye by one step. */
    method WalkKeys() returns (needRender: bool)
      requires keys.Length == KEY_COUNT
      modifies this`eye, this`center
      ensures var r := Move(old(eye), old(center), front, normalize(Cross(front, up)), HeldKeys());
        eye == r.eye && center == r.center && needRender == r.render
    {
      needRender := false;
      if keys[KEY_W] {
        var diff := Scale(front, CAM_SPEED);
        center := Add2(center, Planar(diff));
        eye := Vec3(eye.x, eye.y + VERTICAL_SPEED_MULT * diff.y, eye.z);
        needRender := true;
      }
      if keys[KEY_S] {
        var diff := Scale(front, CAM_SPEED);
        center := Sub2(center, Planar(diff));
        eye := Vec3(eye.x, eye.y - VERTICAL_SPEED_MULT * diff.y, eye.z);
        needRender := true;
      }
      if keys[KEY_A] {
        var diff := Scale(normalize(Cross(front, up)), CAM_SPEED);
        center := Sub2(center, Planar(diff));
        eye := Vec3(eye.x, eye.y - diff.y, eye.z);
        needRender := true;
      }
      if keys[KEY_D] {
        var diff := Scale(normalize(Cross(front, up)), CAM_SPEED);
        center := Add2(center, Planar(diff));
        eye := Vec3(eye.x, eye.y + diff.y, eye.z);
        needRender := true;
      }
    }

    /** The decay block of `do_movement_flythrough`. */
    method DecayRates()
      requires keys.Length == KEY_COUNT
      modifies this`currCameraSpeed, this`yawSpeed, this`pitchSpeed
      ensures Navigation() == Decay(old(Navigation()), HeldKeys())
    {
      if !keys[KEY_W] && !keys[KEY_S] {
        currCameraSpeed := currCameraSpeed * CAM_DECELERATION_FACTOR;
      }
      if !keys[KEY_A] && !keys[KEY_D] {
        yawSpeed := yawSpeed * CAM_DECELERATION_FACTOR;
      }
      if !keys[KEY_Q] && !keys[KEY_E] {
        pitchSpeed := pitchSpeed * CAM_DECELERATION_FACTOR;
      }
    }

    /** The W block of `do_movement_flythrough`. */
    method FlyAhead()
      requires keys.Length == KEY_COUNT
      modifies this`currCameraSpeed, this`center, this`eye
      ensures Navigation() == AheadStep(old(Navigation()), HeldKeys(), cameraMode == FPS, front, heightSample)
    {
      if keys[KEY_W] {
        var speed := Clamp(currCameraSpeed + CAM_STRAIGHT_ACC_FACTOR, MIN_CAM_SPEED, MAX_CAM_SPEED);
        if cameraMode == FPS {
          speed := Clamp(speed, -CAM_SPEED, CAM_SPEED);
        }
        var diff := Scale(front, speed);
        var y := eye.y + VERTICAL_SPEED_MULT * diff.y;
        if cameraMode == FPS {
          y := heightSample * TERRAIN_HEIGHT_MULTIPLIER + 4.0;
          y := if y < 4.0 then 4.0 else y;
        }
        currCameraSpeed, center, eye := speed, Add2(center, Planar(diff)), Vec3(eye.x, y, eye.z);
      }
    }

    /** The S block of `do_movement_flythrough`. */
    method FlyBack()
      requires keys.Length == KEY_COUNT
      modifies this`currCameraSpeed, this`center, this`eye
      ensures Navigation() == BackStep(old(Navigation()), HeldKeys(), cameraMode == FPS, front, heightSample)
    {
      if keys[KEY_S] {
        currCameraSpeed := Clamp(currCameraSpeed - CAM_STRAIGHT_ACC_FACTOR, MIN_CAM_SPEED, MAX_CAM_SPEED);
        var diff := Scale(front, currCameraSpeed);
        center := Add2(center, Planar(diff));
        if cameraMode != FPS {
          eye := Vec3(eye.x, eye.y - VERTICAL_SPEED_MULT * diff.y, eye.z);
        } else {
          eye := Vec3(eye.x, heightSample * TERRAIN_HEIGHT_MULTIPLIER + 4.0, eye.z);
        }
      }
    }

    /** The turn block of `do_movement_flythrough`. */
    method Turn()
      requires keys.Length == KEY_COUNT
      modifies this`yawSpeed, this`pitchSpeed, this`camYaw, this`camPitch
      ensures Navigation() == TurnStep(old(Navigation()), HeldKeys())
    {
      if keys[KEY_D] {
        yawSpeed := yawSpeed + CAM_ANGLE_ACC_FACTOR;
      }
      if keys[KEY_A] {
        yawSpeed := yawSpeed - CAM_ANGLE_ACC_FACTOR;
      }
      if keys[KEY_Q] {
        pitchSpeed := pitchSpeed + CAM_ANGLE_ACC_FACTOR;
      }
      if keys[KEY_E] {
        pitchSpeed := pitchSpeed - CAM_ANGLE_ACC_FACTOR;
      }
      camYaw := camYaw + yawSpeed;
      camPitch := Clamp(camPitch + pitchSpeed, MIN_CAM_PITCH, MAX_CAM_PITCH);
      if camPitch == MIN_CAM_PITCH || camPitch == MAX_CAM_PITCH {
        pitchSpeed := 0.0;
      }
    }

    /**
     * One step of the damped rule: the view direction comes from the old angles, the navigation
     * values become `Fly`, and W or S makes the terrain follow the camera and renders the noise.
     */
    twostate predicate Flew(readback: real)
      requires keys.Length == KEY_COUNT
      reads this, keys, terrain, water
    {
      DampedStep(old(Pose()), Pose(), HeldKeys(), old(cameraMode) == FPS, old(heightSample)) &&
      Resampled(readback, keys[KEY_W] || keys[KEY_S])
    }

    /**
     * `do_movement_flythrough`: the damped rule of Flythrough and FPS. The view direction is
     * refreshed from the angles before they change, and in FPS the eye height comes from the
     * sample of the previous render, which this step then refreshes.
     */
    method DoMovementFlythrough(readback: real)
      requires keys.Length == KEY_COUNT
      modifies this`camYaw, this`camPitch, this`currCameraSpeed, this`yawSpeed, this`pitchSpeed
      modifies this`eye, this`center, this`front, terrain`center, this`heightSample, this`noiseRenders
      ensures Flew(readback)
    {
      var needRender := keys[KEY_W] || keys[KEY_S];
      Glide();
      if needRender {
        Rerender(readback);
      }
    }

    /** The blocks of `do_movement_flythrough` before its render: decay, view direction, W, S and turn. */
    method Glide()
      requires keys.Length == KEY_COUNT
      modifies this`camYaw, this`camPitch, this`currCameraSpeed, this`yawSpeed, this`pitchSpeed
      modifies this`eye, this`center, this`front
      ensures DampedStep(old(Pose()), Pose(), HeldKeys(), cameraMode == FPS, heightSample)
    {
      DecayRates();
      UpdateFront();
      FlyAhead();
      FlyBack();
      Turn();
      FlewOnValues();
    }

    /** The damped rule's field-by-field result, restated on `Pose` values as `DampedStep`. */
    twostate lemma FlewOnValues()
      requires keys.Length == KEY_COUNT && cameraMode == old(cameraMode)
      requires front == normalize(direction(old(camYaw), old(camPitch)))
      requires Navigation() == Fly(old(Navigation()), HeldKeys(), cameraMode == FPS, front, old(heightSample))
      requires bezierTime == old(bezierTime) && startPath == old(startPath) && lastFrameTime == old(lastFrameTime)
      ensures DampedStep(old(Pose()), Pose(), HeldKeys(), old(cameraMode) == FPS, old(heightSample))
    {
    }

    /**
     * `do_movement_bezier`: the replay rule of Bezier and PreRecorded, which share the curve
     * parameter and the restart flag. A restart only rewinds the parameter (and leaves the frame
     * clock behind); otherwise the parameter advances by the frame time at the replay speed, and
     * past the end of the curve the replay restarts from the origin instead of reading the curve.
     */
    method DoMovementBezier(now: real, readback: real)
      requires Valid() && lastFrameTime <= now
      modifies this`currSpeed, this`startPath, this`bezierTime, this`lastFrameTime, this`eye, this`center
      modifies this`camPitch, this`camYaw, this`front, terrain`center, this`heightSample, this`noiseRenders
      ensures Valid()
      ensures currSpeed == ReplaySpeed(old(currSpeed), keys[KEY_W], keys[KEY_S])
      ensures Replayed(now)
      ensures Resampled(readback, true)
    {
      ReplayWithKeys(now);
      Rerender(readback);
    }

    /** The replay half of the handler: the speed keys, then one replay step at the new speed. */
    method ReplayWithKeys(now: real)
      requires Valid() && lastFrameTime <= now
      modifies this`currSpeed, this`startPath, this`bezierTime, this`lastFrameTime, this`eye, this`center
      modifies this`camPitch, this`camYaw, this`front
      ensures Valid()
      ensures currSpeed == ReplaySpeed(old(currSpeed), keys[KEY_W], keys[KEY_S])
      ensures Replayed(now)
    {
      ReplaySpeedKeys();
      StepReplay(now);
    }

    /** The curve the replay follows in `mode`, and the curve of its angles. */
    function ReplayPath(mode: CameraMode): Bezier {
      if mode == PreRecorded then prerecordedPath else path
    }

    function ReplayAngles(mode: CameraMode): Bezier {
      if mode == PreRecorded then prerecordedCam else cam
    }

    /** The values a frame changes outside the camera, as one value. */
    ghost function Out(): Outputs
      reads this`noiseRenders, this`heightSample, this`wireframe, terrain, water
    {
      Outputs(terrain.center, water.center, noiseRenders, heightSample, wireframe, terrain.wireframe)
    }

    /** The values the three update rules own, as one value. */
    function Pose(): CameraPose
      reads this`camYaw, this`camPitch, this`currCameraSpeed, this`yawSpeed, this`pitchSpeed, this`eye, this`center
      reads this`front, this`bezierTime, this`startPath, this`lastFrameTime
    {
      CameraPose(Navigation(), front, bezierTime, startPath, lastFrameTime)
    }

    /**
     * One replay step from `b` to `a` at replay speed `speed`: a restart only rewinds the parameter;
     * otherwise the parameter advances, and either restarts past the end of the curve of `mode` or
     * places the camera on it.
     */
    ghost predicate ReplayStep(b: CameraPose, a: CameraPose, mode: CameraMode, speed: real, now: real)
      reads path, cam, prerecordedPath, prerecordedCam
    {
      var t := Advance(b.bezierTime, b.lastFrameTime, now, speed);
      if b.startPath then
        !a.startPath && a.bezierTime == 0.0 && a.lastFrameTime == b.lastFrameTime &&
        a.nav.eye == b.nav.eye && a.nav.center == b.nav.center && a.nav.pitch == b.nav.pitch &&
        a.nav.yaw == b.nav.yaw && a.front == b.front
      else
        a.lastFrameTime == now && a.bezierTime == t && FollowStep(b, a, ReplayPath(mode), ReplayAngles(mode), t)
    }

    /**
     * The end-of-curve test at parameter `t`: past `count - 1` a restart is flagged and the centre
     * goes to the origin; otherwise the eye height, the centre and the angles come from the curves,
     * and the view direction from the new angles.
     */
    ghost predicate FollowStep(b: CameraPose, a: CameraPose, p: Bezier, c: Bezier, t: real)
      reads p, c
    {
      if t > (p.elementCount - 1) as real then
        a.startPath && a.nav.center == Origin2 && a.nav.eye == b.nav.eye && a.nav.pitch == b.nav.pitch &&
        a.nav.yaw == b.nav.yaw && a.front == b.front
      else
        a.startPath == b.startPath && p.Valid() && c.Valid() &&
        Evaluable(p.controlPoints, p.splines, t) && Evaluable(c.controlPoints, c.splines, t) &&
        var at := Eval(p.controlPoints, p.splines, t);
        var angles := Eval(c.controlPoints, c.splines, t);
        a.nav.eye == Vec3(b.nav.eye.x, at.y, b.nav.eye.z) && a.nav.center == Vec2(at.x, at.z) &&
        a.nav.pitch == angles.x && a.nav.yaw == angles.y && a.front == normalize(direction(a.nav.yaw, a.nav.pitch))
    }

    /** `ReplayStep` from the state before to the state after, on the curves of the mode. */
    twostate predicate Replayed(now: real)
      reads this`camYaw, this`camPitch, this`currCameraSpeed, this`yawSpeed, this`pitchSpeed, this`eye, this`center
      reads this`front, this`bezierTime, this`startPath, this`currSpeed, this`lastFrameTime
      reads path, cam, prerecordedPath, prerecordedCam
    {
      ReplayStep(old(Pose()), Pose(), old(cameraMode), currSpeed, now)
    }

    /** `FollowStep` from the state before to the state after. */
    twostate predicate Followed(p: Bezier, c: Bezier, t: real)
      reads this`camYaw, this`camPitch, this`currCameraSpeed, this`yawSpeed, this`pitchSpeed, this`eye, this`center
      reads this`front, this`bezierTime, this`startPath, this`lastFrameTime, p, c
    {
      FollowStep(old(Pose()), Pose(), p, c, t)
    }

    /** The parameter block of `do_movement_bezier`. */
    method StepReplay(now: real)
      requires Valid() && lastFrameTime <= now
      modifies this`startPath, this`bezierTime, this`lastFrameTime, this`eye, this`center
      modifies this`camPitch, this`camYaw, this`front
      ensures Valid()
      ensures Replayed(now)
    {
      if startPath {
        StartReplay(now);
      } else {
        AdvanceReplay(now);
      }
    }

    /** A pending start rewinds the parameter and clears the flag; the frame clock is left behind. */
    method StartReplay(now: real)
      requires Valid() && startPath
      modifies this`startPath, this`bezierTime
      ensures Valid()
      ensures Replayed(now)
    {
      bezierTime := 0.0;
      startPath := false;
    }

    /** A running replay reads the clock, advances the parameter and restarts or follows the curves. */
    method AdvanceReplay(now: real)
      requires Valid() && !startPath && lastFrameTime <= now
      modifies this`startPath, this`bezierTime, this`lastFrameTime, this`eye, this`center
      modifies this`camPitch, this`camYaw, this`front
      ensures Valid()
      ensures Replayed(now)
    {
      var t := Advance(bezierTime, lastFrameTime, now, currSpeed);
      lastFrameTime, bezierTime := now, t;
      FollowOrRestart(ReplayPath(cameraMode), ReplayAngles(cameraMode));
    }

    /** The end-of-curve test of `do_movement_bezier`: restart past `count - 1`, otherwise follow the curves. */
    method FollowOrRestart(p: Bezier, c: Bezier)
      requires p.Valid() && c.Valid() && p.elementCount == c.elementCount && 0.0 <= bezierTime
      modifies this`startPath, this`eye, this`center, this`camPitch, this`camYaw, this`front
      ensures Followed(p, c, bezierTime)
    {
      var count := p.GetCount();
      ChainShape(p.controlPoints, p.splines);
      ChainShape(c.controlPoints, c.splines);
      if bezierTime > (count - 1) as real {
        startPath := true;
        center := Vec2(0.0, 0.0);
      } else {
        FollowCurve(p, c);
      }
    }

    /** The speed block of `do_movement_bezier`. */
    method ReplaySpeedKeys()
      requires keys.Length == KEY_COUNT
      modifies this`currSpeed
      ensures currSpeed == ReplaySpeed(old(currSpeed), keys[KEY_W], keys[KEY_S])
    {
      if keys[KEY_W] {
        currSpeed := currSpeed + 0.01;
      }
      if keys[KEY_S] {
        currSpeed := currSpeed - 0.01;
        currSpeed := if currSpeed < 0.0 then 0.0 else currSpeed;
      }
    }

    /** The update block of `do_movement_bezier`: the eye height, the centre and the angles from the two curves. */
    method FollowCurve(p: Bezier, c: Bezier)
      requires p.Valid() && c.Valid()
      requires Evaluable(p.controlPoints, p.splines, bezierTime) && Evaluable(c.controlPoints, c.splines, bezierTime)
      modifies this`eye, this`center, this`camPitch, this`camYaw, this`front
      ensures var at := Eval(p.controlPoints, p.splines, bezierTime);
        var angles := Eval(c.controlPoints, c.splines, bezierTime);
        eye == Vec3(old(eye).x, at.y, old(eye).z) && center == Vec2(at.x, at.z) &&
        camPitch == angles.x && camYaw == angles.y && front == normalize(direction(camYaw, camPitch))
    {
      var currPoint := p.GetBezier(bezierTime);
      eye := Vec3(eye.x, currPoint.y, eye.z);
      center := Vec2(currPoint.x, currPoint.z);
      var currAngles := c.GetBezier(bezierTime);
      camPitch := currAngles.x;
      camYaw := currAngles.y;
      UpdateFront();
    }

    /**
     * What one frame of `cameraHandler` does to the camera, from `b` to `a` and from replay speed
     * `s0` to `s1`, by the rule of `mode`. Each rule keeps the values the other two own.
     */
    ghost predicate HandledStep(b: CameraPose, a: CameraPose, s0: real, s1: real, mode: CameraMode, k: Held,
                                up: Vec3, height: real, now: real)
      reads path, cam, prerecordedPath, prerecordedCam
    {
      match UpdateRule(mode)
      case Direct => DirectStep(b, a, k, up) && s1 == s0
      case Damped => DampedStep(b, a, k, mode == FPS, height) && s1 == s0
      case Replay =>
        s1 == ReplaySpeed(s0, k.w, k.s) && ReplayStep(b, a, mode, s1, now) &&
        a.nav.speed == b.nav.speed && a.nav.yawRate == b.nav.yawRate && a.nav.pitchRate == b.nav.pitchRate
    }

    /** `HandledStep` from the state before to the state after. */
    twostate predicate Handled(now: real, k: Held)
      reads this`camYaw, this`camPitch, this`currCameraSpeed, this`yawSpeed, this`pitchSpeed, this`eye, this`center
      reads this`front, this`bezierTime, this`startPath, this`currSpeed, this`lastFrameTime
      reads path, cam, prerecordedPath, prerecordedCam
    {
      HandledStep(old(Pose()), Pose(), old(currSpeed), currSpeed, old(cameraMode), k, up, old(heightSample), now)
    }

    /** `cameraHandler`: one update rule per frame, chosen by the camera mode. */
    method CameraHandler(now: real, readback: real)
      requires Valid() && lastFrameTime <= now
      modifies this`camYaw, this`camPitch, this`currCameraSpeed, this`yawSpeed, this`pitchSpeed, this`front
      modifies this`currSpeed, this`startPath, this`bezierTime, this`lastFrameTime, this`eye, this`center
      modifies terrain`center, water`center, this`heightSample, this`noiseRenders
      ensures Valid()
      ensures Handled(now, HeldKeys())
      ensures Out() == HandlerOutputs(old(Out()), old(cameraMode), HeldKeys(), center, readback)
    {
      if UpdateRule(cameraMode) == Replay {
        DoMovementBezier(now, readback);
      } else {
        SteerFromKeys(readback);
      }
    }

    /** The two keyboard-steered branches of `cameraHandler`: direct stepping or the damped fly rule. */
    method SteerFromKeys(readback: real)
      requires Valid() && UpdateRule(cameraMode) != Replay
      modifies this`camYaw, this`camPitch, this`currCameraSpeed, this`yawSpeed, this`pitchSpeed, this`front
      modifies this`eye, this`center, terrain`center, water`center, this`heightSample, this`noiseRenders
      ensures Valid()
      ensures UpdateRule(cameraMode) == Direct ==> MovedDirectly(readback)
      ensures UpdateRule(cameraMode) == Damped ==> Flew(readback) && water.center == old(water.center)
    {
      if UpdateRule(cameraMode) == Direct {
        DoMovement(readback);
      } else {
        DoMovementFlythrough(readback);
      }
    }

    /**
     * `drawCameraMenu`'s switch: the radio value picks the mode, and the FPS button first renders
     * (reading the height back) and then puts the eye four units above the sample, with no floor.
     */
    method DrawCameraMenu(radio: int, readback: real)
      modifies this`cameraMode, this`eye, this`heightSample, this`noiseRenders
      ensures cameraMode == ModeForRadio(radio)
      ensures radio == 1 ==>
        heightSample == readback && eye == Vec3(old(eye).x, Walk(readback), old(eye).z) &&
        noiseRenders == old(noiseRenders) + 1
      ensures radio != 1 ==> eye == old(eye) && heightSample == old(heightSample) && noiseRenders == old(noiseRenders)
    {
      if radio == 0 {
        cameraMode := Flythrough;
      } else if radio == 1 {
        cameraMode := FPS;
        RenderNoiseToBuffer(readback);
        eye := Vec3(eye.x, heightSample * 20.0 + 4.0, eye.z);
      } else if radio == 2 {
        cameraMode := RecordBezier;
      } else if radio == 3 {
        cameraMode := Bezier;
      } else if radio == 4 {
        cameraMode := Custom;
      } else if radio == 5 {
        cameraMode := PreRecorded;
      } else {
        cameraMode := Flythrough;
      }
    }

    /**
     * `drawTerrainMenu`: a click on the wireframe box flips the flag and hands it to the terrain,
     * and every noise slider the user moves renders the noise again. `readback` is the height read
     * back by the last of these renders; in FPS it is the sample the next frame walks on.
     */
    method DrawTerrainMenu(wireframeClicked: bool, moved: Sliders, readback: real)
      modifies this`wireframe, terrain`wireframe, this`heightSample, this`noiseRenders
      ensures wireframe == (old(wireframe) != wireframeClicked)
      ensures terrain.wireframe == if wireframeClicked then wireframe else old(terrain.wireframe)
      ensures noiseRenders == old(noiseRenders) + SliderRenders(moved)
      ensures heightSample == if cameraMode == FPS && SliderRenders(moved) > 0 then readback else old(heightSample)
    {
      if wireframeClicked {
        wireframe := !wireframe;
        terrain.SetWireframe(wireframe);
      }
      if moved.scale {
        RenderNoiseToBuffer(readback);
      }
      if moved.h {
        RenderNoiseToBuffer(readback);
      }
      if moved.lacunarity {
        RenderNoiseToBuffer(readback);
      }
      if moved.octaves {
        RenderNoiseToBuffer(readback);
      }
    }

    /**
     * `drawGui`'s menus that reach the controller: the camera menu, then the terrain menu. Only the
     * FPS button moves the eye, and only its height.
     */
    method DrawGui(radio: int, menuReadback: real, wireframeClicked: bool, moved: Sliders, terrainReadback: real)
      requires Valid()
      modifies this`cameraMode, this`eye, this`heightSample, this`noiseRenders, this`wireframe, terrain`wireframe
      ensures Valid()
      ensures cameraMode == ModeForRadio(radio)
      ensures radio == 1 ==> eye == Vec3(old(eye).x, Walk(menuReadback), old(eye).z)
      ensures radio != 1 ==> Pose() == old(Pose()) && heightSample == old(heightSample)
      ensures heightSample ==
        if ModeForRadio(radio) == FPS && SliderRenders(moved) > 0 then terrainReadback
        else if radio == 1 then menuReadback
        else old(heightSample)
      ensures noiseRenders == old(noiseRenders) + (if radio == 1 then 1 else 0) + SliderRenders(moved)
      ensures wireframe == (old(wireframe) != wireframeClicked)
      ensures terrain.wireframe == if wireframeClicked then wireframe else old(terrain.wireframe)
      ensures Out() == GuiOutputs(old(Out()), radio, menuReadback, wireframeClicked, moved, terrainReadback)
    {
      DrawCameraMenu(radio, menuReadback);
      DrawTerrainMenu(wireframeClicked, moved, terrainReadback);
    }

    /**
     * The camera part of `Display`: the update rule first, then the camera menu and the terrain
     * menu. In FPS the camera menu runs every frame, so whatever the update rule did to the eye
     * height, the frame ends with the eye four units above the camera menu's sample, without the
     * floor the W key applies; a noise slider moved after it replaces the sample the next frame
     * walks on, but not the eye.
     */
    method DisplayFrame(now: real, readback: real, radio: int, menuReadback: real,
                        wireframeClicked: bool, moved: Sliders, terrainReadback: real)
      requires Valid() && lastFrameTime <= now
      modifies this`camYaw, this`camPitch, this`currCameraSpeed, this`yawSpeed, this`pitchSpeed, this`front
      modifies this`currSpeed, this`startPath, this`bezierTime, this`lastFrameTime, this`eye, this`center
      modifies this`cameraMode, this`heightSample, this`noiseRenders, this`wireframe
      modifies terrain`center, terrain`wireframe, water`center
      ensures Valid()
      ensures cameraMode == ModeForRadio(radio)
      ensures radio == 1 ==> eye.y == Walk(menuReadback)
      ensures radio == 1 ==> heightSample == if SliderRenders(moved) > 0 then terrainReadback else menuReadback
      ensures radio != 1 ==> Handled(now, HeldKeys())
      ensures Out() == GuiOutputs(HandlerOutputs(old(Out()), old(cameraMode), HeldKeys(), center, readback),
                                  radio, menuReadback, wireframeClicked, moved, terrainReadback)
      ensures noiseRenders == old(noiseRenders) + (if FrameRenders(old(cameraMode), HeldKeys()) then 1 else 0) +
        (if radio == 1 then 1 else 0) + SliderRenders(moved)
      ensures radio != 1 ==>
        heightSample == if FrameRenders(old(cameraMode), HeldKeys()) && old(cameraMode) == FPS then readback
        else old(heightSample)
      ensures terrain.center == if FrameRenders(old(cameraMode), HeldKeys()) then center else old(terrain.center)
      ensures water.center ==
        if UpdateRule(old(cameraMode)) == Direct && FrameRenders(old(cameraMode), HeldKeys()) then center
        else old(water.center)
      ensures wireframe == (old(wireframe) != wireframeClicked)
      ensures terrain.wireframe == if wireframeClicked then wireframe else old(terrain.wireframe)
    {
      CameraHandler(now, readback);
      DrawGui(radio, menuReadback, wireframeClicked, moved, terrainReadback);
      FrameOutputs(old(Out()), old(cameraMode), HeldKeys(), center, readback,
                   radio, menuReadback, wireframeClicked, moved, terrainReadback);
    }
  }
}
