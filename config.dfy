// The camera, navigation and world constants of common/config.h, as reals.
module Config {
  import opened Vectors

  const WINDOW_WIDTH: real := 1600.0
  const WINDOW_HEIGHT: real := 1200.0

  const START_CAM_YAW: real := 90.0
  const START_CAM_PITCH: real := 0.0
  const MAX_CAM_PITCH: real := 80.0
  const MIN_CAM_PITCH: real := -80.0
  const MAX_CAM_SPEED: real := 0.005
  const MIN_CAM_SPEED: real := -0.005
  const CAM_SPEED: real := 0.001
  const CAM_STRAIGHT_ACC_FACTOR: real := 0.0001
  const CAM_ANGLE_ACC_FACTOR: real := 0.1
  const CAM_DECELERATION_FACTOR: real := 0.9
  const VERTICAL_SPEED_MULT: real := 250.0
  const MOUSE_SENSITIVITY: real := 0.05

  const INITIAL_EYE: Vec3 := Vec3(0.0, 20.0, 0.0)
  const INITIAL_FRONT: Vec3 := Vec3(0.0, 0.0, 1.0)
  const INITIAL_UP: Vec3 := Vec3(0.0, 1.0, 0.0)
  const INITIAL_CENTER: Vec2 := Vec2(0.0, 0.0)

  const WORLD_SIZE: real := 500.0
  /** `RESOLUTION`: a float macro that the water grid uses as its row length and loop bound. */
  const RESOLUTION: int := 500
  const TERRAIN_HEIGHT_MULTIPLIER: real := 20.0

  const INITIAL_TRANSPARENCY: real := 0.7
  const INITIAL_REFLECTION: real := 0.7
  const INITIAL_REFRACTION: real := 0.01
  const INITIAL_ALPHA: real := 25.0
  const INITIAL_WAVE_SPEED: real := 0.02
  const INITIAL_WAVE_DIR: Vec2 := Vec2(-1.0, -1.0)

  /** A row-major position `i * w + j` with `0 <= j < w` splits back into row `i` and column `j`. */
  lemma RowMajorSplit(i: int, j: int, w: int)
    requires 0 <= i && 0 <= j < w
    ensures (i * w + j) / w == i && (i * w + j) % w == j
  {
    var n := i * w + j;
    var d := n / w - i;
    assert d * w == j - n % w by {
      assert n == (n / w) * w + n % w;
      assert (n / w) * w == d * w + i * w;
    }
    if d > 0 {
      MulAtLeast(d, w);
    }
  }

  /** A positive multiple of a positive `w` is at least `w`. */
  lemma MulAtLeast(d: int, w: int)
    requires 1 <= d && 0 < w
    ensures d * w >= w
  {
    assert d * w == (d - 1) * w + w;
    assert (d - 1) * w >= 0;
  }
}
