// The arithmetic of one frame of the camera controller in project/proceduralScene.h: which update
// rule a camera mode runs, the radio-button numbering of the modes, and the values the damped
// (fly-through and FPS), direct and replay rules compute from the previous frame's values.
module CameraRules {
  import opened Vectors
  import opened Config

  /** `Camera_mode`. */
  datatype CameraMode = Flythrough | FPS | RecordBezier | Bezier | Custom | PreRecorded

  /** The three update rules `cameraHandler` dispatches to. */
  datatype Update = Direct | Damped | Replay

  // GLFW's codes for the keys, actions and mouse button the callbacks compare against.
  const KEY_W: int := 87
  const KEY_S: int := 83
  const KEY_A: int := 65
  const KEY_D: int := 68
  const KEY_Q: int := 81
  const KEY_E: int := 69
  const KEY_R: int := 82
  const KEY_ESCAPE: int := 256
  const RELEASE: int := 0
  const PRESS: int := 1
  const MOUSE_BUTTON_LEFT: int := 0

  /** The size of the key table. */
  const KEY_COUNT: int := 1024

  /** `cameraHandler`'s switch: every mode runs exactly one rule. */
  function UpdateRule(mode: CameraMode): (u: Update)
    ensures u == Direct <==> mode == Custom || mode == RecordBezier
    ensures u == Damped <==> mode == Flythrough || mode == FPS
    ensures u == Replay <==> mode == Bezier || mode == PreRecorded
  {
    match mode
    case Custom | RecordBezier => Direct
    case Flythrough | FPS => Damped
    case Bezier | PreRecorded => Replay
  }

  /** The value of the radio button that selects a mode in the camera menu. */
  function RadioIndex(mode: CameraMode): (n: int)
    ensures 0 <= n <= 5
  {
    match mode
    case Flythrough => 0
    case FPS => 1
    case RecordBezier => 2
    case Bezier => 3
    case Custom => 4
    case PreRecorded => 5
  }

  /** The switch of `drawCameraMenu`: each button value names its mode, anything else falls back to fly-through. */
  function ModeForRadio(n: int): (mode: CameraMode)
    ensures 0 <= n <= 5 ==> RadioIndex(mode) == n
    ensures !(0 <= n <= 5) ==> mode == Flythrough
  {
    if n == 1 then FPS
    else if n == 2 then RecordBezier
    else if n == 3 then Bezier
    else if n == 4 then Custom
    else if n == 5 then PreRecorded
    else Flythrough
  }

  /**
   * Whether a frame's update rule renders the noise again: the direct rule when it moves, the
   * damped rule when W or S is held, the replay rule on every frame.
   */
  function FrameRenders(mode: CameraMode, k: Held): (r: bool)
    ensures UpdateRule(mode) == Direct ==> (r <==> k.w || k.s || k.a || k.d)
    ensures UpdateRule(mode) == Damped ==> (r <==> k.w || k.s)
    ensures UpdateRule(mode) == Replay ==> r
  {
    match UpdateRule(mode)
    case Direct => k.w || k.s || k.a || k.d
    case Damped => k.w || k.s
    case Replay => true
  }

  /** The menu numbering is a bijection between the modes and 0 .. 5. */
  lemma RadioRoundTrip(mode: CameraMode)
    ensures ModeForRadio(RadioIndex(mode)) == mode
  {
  }

  /** Which of the four noise sliders of `drawTerrainMenu` (scale, H, lacunarity, octaves) moved this frame. */
  datatype Sliders = Sliders(scale: bool, h: bool, lacunarity: bool, octaves: bool)

  /** The noise renders the terrain menu triggers: one per moved slider. */
  function SliderRenders(s: Sliders): (n: nat)
    ensures n <= 4
    ensures n == 0 <==> !s.scale && !s.h && !s.lacunarity && !s.octaves
    ensures n == 4 <==> s.scale && s.h && s.lacunarity && s.octaves
  {
    (if s.scale then 1 else 0) + (if s.h then 1 else 0) + (if s.lacunarity then 1 else 0) + (if s.octaves then 1 else 0)
  }

  /** `glm::clamp(x, lo, hi)`, that is `min(max(x, lo), hi)`. */
  function Clamp(x: real, lo: real, hi: real): (r: real)
    requires lo <= hi
    ensures lo <= r <= hi
    ensures lo <= x <= hi ==> r == x
    ensures x < lo ==> r == lo
    ensures hi < x ==> r == hi
  {
    var m := if x < lo then lo else x;
    if hi < m then hi else m
  }

  /** The keys the damped rule looks at, as held in the key table. */
  datatype Held = Held(w: bool, s: bool, a: bool, d: bool, q: bool, e: bool)

  /** What the damped rule changes: angles, the three rates, the eye and the centre of the terrain. */
  datatype Flight = Flight(yaw: real, pitch: real, speed: real, yawRate: real, pitchRate: real, eye: Vec3, center: Vec2)

  /** A rate after the decay step: kept while a key of its pair is held, otherwise multiplied by 0.9. */
  function Damp(rate: real, held: bool): real {
    if held then rate else rate * CAM_DECELERATION_FACTOR
  }

  /** The W block's speed: one acceleration step, the speed clamp, and in FPS the tighter walking clamp. */
  function ForwardSpeed(speed: real, fps: bool): (r: real)
    ensures MIN_CAM_SPEED <= r <= MAX_CAM_SPEED
    ensures fps ==> -CAM_SPEED <= r <= CAM_SPEED
  {
    var v := Clamp(speed + CAM_STRAIGHT_ACC_FACTOR, MIN_CAM_SPEED, MAX_CAM_SPEED);
    if fps then Clamp(v, -CAM_SPEED, CAM_SPEED) else v
  }

  /** The S block's speed: one deceleration step and the speed clamp. */
  function BackwardSpeed(speed: real): (r: real)
    ensures MIN_CAM_SPEED <= r <= MAX_CAM_SPEED
  {
    Clamp(speed - CAM_STRAIGHT_ACC_FACTOR, MIN_CAM_SPEED, MAX_CAM_SPEED)
  }

  /** `center += vec2(diff.x, -diff.z)` with `diff = speed * front`. */
  function Drift(center: Vec2, front: Vec3, speed: real): Vec2 {
    Add2(center, Planar(Scale(front, speed)))
  }

  /** The fly-through eye climbs (or, with a negative sign, sinks) by `VERTICAL_SPEED_MULT * diff.y`. */
  function Climb(eye: Vec3, front: Vec3, speed: real, sign: real): Vec3 {
    Vec3(eye.x, eye.y + sign * (VERTICAL_SPEED_MULT * (speed * front.y)), eye.z)
  }

  /** `heightmap[0] * TERRAIN_HEIGHT_MULTIPLIER + 4`: four units above the sampled terrain. */
  function Walk(height: real): real {
    height * TERRAIN_HEIGHT_MULTIPLIER + 4.0
  }

  function WithHeight(eye: Vec3, y: real): Vec3 {
    Vec3(eye.x, y, eye.z)
  }

  /** The decay block: each of the three rates decays unless a key of its pair is held. */
  function Decay(f: Flight, k: Held): Flight {
    f.(speed := Damp(f.speed, k.w || k.s), yawRate := Damp(f.yawRate, k.a || k.d), pitchRate := Damp(f.pitchRate, k.q || k.e))
  }

  /** The W block: accelerate, move the centre, and climb (fly-through) or stand on the terrain, at least at 4 (FPS). */
  function AheadStep(f: Flight, k: Held, fps: bool, front: Vec3, height: real): Flight {
    if !k.w then f
    else
      var v := ForwardSpeed(f.speed, fps);
      f.(speed := v, center := Drift(f.center, front, v),
         eye := if fps then WithHeight(f.eye, if Walk(height) < 4.0 then 4.0 else Walk(height)) else Climb(f.eye, front, v, 1.0))
  }

  /** The S block: decelerate, move the centre, and sink (fly-through) or stand on the terrain with no floor (FPS). */
  function BackStep(f: Flight, k: Held, fps: bool, front: Vec3, height: real): Flight {
    if !k.s then f
    else
      var v := BackwardSpeed(f.speed);
      f.(speed := v, center := Drift(f.center, front, v),
         eye := if fps then WithHeight(f.eye, Walk(height)) else Climb(f.eye, front, v, -1.0))
  }

  /** The turn block: D and A change the yaw rate, Q and E the pitch rate; the pitch is clamped and stops at its bounds. */
  function TurnStep(f: Flight, k: Held): Flight {
    var yawRate := TurnRate(f.yawRate, k.d, k.a);
    var pitchRate := TurnRate(f.pitchRate, k.q, k.e);
    var pitch := Clamp(f.pitch + pitchRate, MIN_CAM_PITCH, MAX_CAM_PITCH);
    f.(yaw := f.yaw + yawRate, yawRate := yawRate, pitch := pitch,
       pitchRate := if pitch == MIN_CAM_PITCH || pitch == MAX_CAM_PITCH then 0.0 else pitchRate)
  }

  /**
   * `do_movement_flythrough`. `front` is the view direction `updateFront` computed from the angles
   * before this step and `height` the terrain sample of the last render.
   */
  function Fly(f: Flight, k: Held, fps: bool, front: Vec3, height: real): (r: Flight)
    ensures MIN_CAM_PITCH <= r.pitch <= MAX_CAM_PITCH
    ensures r.pitch == MIN_CAM_PITCH || r.pitch == MAX_CAM_PITCH ==> r.pitchRate == 0.0
    ensures !k.w && !k.s ==> r.speed == f.speed * CAM_DECELERATION_FACTOR && r.center == f.center && r.eye == f.eye
    ensures k.w || k.s ==> MIN_CAM_SPEED <= r.speed <= MAX_CAM_SPEED
    ensures fps && k.w && !k.s ==> -CAM_SPEED <= r.speed <= CAM_SPEED
    ensures MIN_CAM_SPEED <= f.speed <= MAX_CAM_SPEED ==> MIN_CAM_SPEED <= r.speed <= MAX_CAM_SPEED
    ensures fps && k.w && !k.s ==> r.eye.y == (if Walk(height) < 4.0 then 4.0 else Walk(height))
    ensures fps && k.s ==> r.eye.y == Walk(height)
    ensures r.eye.x == f.eye.x && r.eye.z == f.eye.z
    ensures r.yaw == f.yaw + r.yawRate
    ensures r.yawRate == TurnRate(Damp(f.yawRate, k.a || k.d), k.d, k.a)
  {
    TurnStep(BackStep(AheadStep(Decay(f, k), k, fps, front, height), k, fps, front, height), k)
  }

  /** A turn rate after the key step: one acceleration step up for the first key, one down for the second. */
  function TurnRate(rate: real, up: bool, down: bool): (r: real)
    ensures up && !down ==> r == rate + CAM_ANGLE_ACC_FACTOR
    ensures down && !up ==> r == rate - CAM_ANGLE_ACC_FACTOR
    ensures up == down ==> r == rate
  {
    var raised := if up then rate + CAM_ANGLE_ACC_FACTOR else rate;
    if down then raised - CAM_ANGLE_ACC_FACTOR else raised
  }

  /** Inside the pitch range the pitch moves by its rate and the rate is kept. */
  lemma FlyPitchInside(f: Flight, k: Held, fps: bool, front: Vec3, height: real)
    requires var rate := TurnRate(Damp(f.pitchRate, k.q || k.e), k.q, k.e);
      MIN_CAM_PITCH < f.pitch + rate < MAX_CAM_PITCH
    ensures var r := Fly(f, k, fps, front, height);
      r.pitchRate == TurnRate(Damp(f.pitchRate, k.q || k.e), k.q, k.e) && r.pitch == f.pitch + r.pitchRate
  {
  }

  /** Without A or D the yaw rate decays by 0.9; without Q or E the pitch rate does, before it is clamped. */
  lemma FlyRatesDecay(f: Flight, k: Held, fps: bool, front: Vec3, height: real)
    ensures !k.a && !k.d ==> Fly(f, k, fps, front, height).yawRate == f.yawRate * CAM_DECELERATION_FACTOR
    ensures !k.q && !k.e && MIN_CAM_PITCH < f.pitch + f.pitchRate * CAM_DECELERATION_FACTOR < MAX_CAM_PITCH ==>
      Fly(f, k, fps, front, height).pitchRate == f.pitchRate * CAM_DECELERATION_FACTOR
  {
  }

  /** The three values `do_movement` changes. */
  datatype Walked = Walked(eye: Vec3, center: Vec2, render: bool)

  /**
   * `do_movement`: W and S move along `front`, D and A along `strafe` (the normalised
   * `cross(front, up)`), each by `CAM_SPEED`; W and S also move the eye vertically with the
   * vertical multiplier, D and A by the bare vertical part of the step.
   */
  function Move(eye: Vec3, center: Vec2, front: Vec3, strafe: Vec3, k: Held): (r: Walked)
    ensures r.render <==> k.w || k.s || k.a || k.d
    ensures k.w == k.s && k.a == k.d ==> r.eye == eye && r.center == center
    ensures r.eye.x == eye.x && r.eye.z == eye.z
  {
    var ahead := Scale(front, CAM_SPEED);
    var side := Scale(strafe, CAM_SPEED);
    var c1 := if k.w then Add2(center, Planar(ahead)) else center;
    var y1 := if k.w then eye.y + VERTICAL_SPEED_MULT * ahead.y else eye.y;
    var c2 := if k.s then Sub2(c1, Planar(ahead)) else c1;
    var y2 := if k.s then y1 - VERTICAL_SPEED_MULT * ahead.y else y1;
    var c3 := if k.a then Sub2(c2, Planar(side)) else c2;
    var y3 := if k.a then y2 - side.y else y2;
    var c4 := if k.d then Add2(c3, Planar(side)) else c3;
    var y4 := if k.d then y3 + side.y else y3;
    Walked(Vec3(eye.x, y4, eye.z), c4, k.w || k.s || k.a || k.d)
  }

  /** Holding only W moves the centre forward by one step and the eye up by the multiplied vertical part. */
  lemma MoveForward(eye: Vec3, center: Vec2, front: Vec3, strafe: Vec3)
    ensures var r := Move(eye, center, front, strafe, Held(true, false, false, false, false, false));
      r.center == Add2(center, Planar(Scale(front, CAM_SPEED))) &&
      r.eye.y == eye.y + VERTICAL_SPEED_MULT * (front.y * CAM_SPEED)
  {
  }

  /** The replay speed after the W and S keys: up by 0.01, down by 0.01 but never below 0. */
  function ReplaySpeed(speed: real, w: bool, s: bool): (r: real)
    ensures s ==> 0.0 <= r
    ensures 0.0 <= speed ==> 0.0 <= r
    ensures !s ==> r == (if w then speed + 0.01 else speed)
    ensures s && !w ==> r == (if speed - 0.01 < 0.0 then 0.0 else speed - 0.01)
  {
    var raised := if w then speed + 0.01 else speed;
    if s then (if raised - 0.01 < 0.0 then 0.0 else raised - 0.01) else raised
  }

  /** The curve parameter after a frame of `now - last` seconds at `speed`; it never runs backwards. */
  function Advance(time: real, last: real, now: real, speed: real): (r: real)
    ensures last <= now && 0.0 <= speed ==> time <= r
    ensures now == last || speed == 0.0 ==> r == time
  {
    time + (now - last) * speed
  }
}
