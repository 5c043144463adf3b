/**
 * The camera state record shared by every input controller, its initial
 * value, and the per-frame update that damps the rendered camera toward the
 * targets (src/core/camera.ts).
 *
 * The library maths is abstract:
 *  - `decay(rate, dt)` stands for `1 - Math.exp(-rate * dt)`, the blend factor
 *    that `THREE.MathUtils.damp` and the yaw step use; only the facts in
 *    `IsDecay` are known about it;
 *  - `angleDelta(d)` stands for `Math.atan2(Math.sin(d), Math.cos(d))`, the
 *    shortest signed angle for a yaw difference `d`; only `angleDelta(0) == 0`
 *    is used, and only as a hypothesis.
 */
module Camera {
  import opened Wrappers

  /** A configured `{ MIN, MAX }` pair. */
  datatype Bounds = Bounds(min: real, max: real)

  /** The part of the configuration object that `updateCamera` reads. */
  datatype Config = Config(
    zoom: Bounds,
    height: Bounds,
    fov: Bounds,
    pitch: Bounds,
    yawDamp: real,
    zoomDamp: real,
    heightDamp: real,
    fovDamp: real,
    pitchDamp: Option<real>, // `PITCH.DAMP` may be absent
    cameraDamp: real)

  /** The pitch damping rate used when the configuration gives none. */
  const DEFAULT_PITCH_DAMP: real := 6.0

  function PitchDampRate(c: Config): (rate: real)
    ensures c.pitchDamp.None? ==> rate == DEFAULT_PITCH_DAMP
    ensures c.pitchDamp.Some? ==> rate == c.pitchDamp.value
  {
    c.pitchDamp.GetOr(DEFAULT_PITCH_DAMP)
  }

  /**
   * A configuration the update can run on: the zoom range is not empty (the
   * zoom fraction divides by its width) and every damping rate is a decay
   * rate, not a growth rate.
   */
  predicate ValidConfig(c: Config) {
    && c.zoom.min != c.zoom.max
    && 0.0 <= c.yawDamp && 0.0 <= c.zoomDamp && 0.0 <= c.heightDamp
    && 0.0 <= c.fovDamp && 0.0 <= PitchDampRate(c) && 0.0 <= c.cameraDamp
  }

  /** The facts about `1 - exp(-rate * dt)` that the model relies on. */
  ghost predicate IsDecay(decay: (real, real) -> real) {
    && (forall rate: real, dt: real ::
          0.0 <= rate && 0.0 <= dt ==> 0.0 <= decay(rate, dt) <= 1.0)
    && (forall rate: real :: decay(rate, 0.0) == 0.0)
  }

  /** `v` lies between `a` and `b`, inclusive, in whichever order they come. */
  predicate Between(a: real, b: real, v: real) {
    (a <= v <= b) || (b <= v <= a)
  }

  /** `THREE.MathUtils.lerp`: the point a fraction `t` of the way from `x` to `y`. */
  function Lerp(x: real, y: real, t: real): (r: real)
    ensures t == 0.0 ==> r == x
    ensures t == 1.0 ==> r == y
    ensures r - x == t * (y - x)
  {
    (1.0 - t) * x + t * y
  }

  /** A blend fraction in [0, 1] never leaves the segment between its ends. */
  lemma LerpBetween(x: real, y: real, t: real)
    requires 0.0 <= t <= 1.0
    ensures Between(x, y, Lerp(x, y, t))
  {
    // r - x == t * (y - x) and y - r == (1 - t) * (y - x), both of the sign of y - x
    if x <= y {
      ProductNonNegative(t, y - x);
      ProductNonNegative(1.0 - t, y - x);
    } else {
      ProductNonNegative(t, x - y);
      ProductNonNegative(1.0 - t, x - y);
    }
    assert y - Lerp(x, y, t) == (1.0 - t) * (y - x);
  }

  /** For `x <= y`, a larger blend fraction gives a value at least as large. */
  lemma LerpMonotone(x: real, y: real, t1: real, t2: real)
    requires x <= y && t1 <= t2
    ensures Lerp(x, y, t1) <= Lerp(x, y, t2)
  {
    ProductNonNegative(t2 - t1, y - x);
  }

  /** For `y <= x`, a larger blend fraction gives a value no larger. */
  lemma LerpAntitone(x: real, y: real, t1: real, t2: real)
    requires y <= x && t1 <= t2
    ensures Lerp(x, y, t2) <= Lerp(x, y, t1)
  {
    ProductNonNegative(t2 - t1, x - y);
  }

  /** Sign rule for products of reals. */
  lemma ProductNonNegative(a: real, b: real)
    requires 0.0 <= a && 0.0 <= b
    ensures 0.0 <= a * b
  {
  }

  /** A real whose product with a positive width is nonnegative is itself nonnegative. */
  lemma NonNegativeFactor(t: real, w: real)
    requires 0.0 < w && 0.0 <= t * w
    ensures 0.0 <= t
  {
    if t < 0.0 {
      ProductNonNegative(-t, w);
    }
  }

  /**
   * `THREE.MathUtils.damp(x, y, rate, dt)`: moves `x` toward `y` by the fraction
   * `1 - exp(-rate * dt)`. It never overshoots and is the identity at `dt == 0`.
   */
  function Damp(x: real, y: real, rate: real, dt: real, decay: (real, real) -> real): (r: real)
    requires IsDecay(decay) && 0.0 <= rate && 0.0 <= dt
    ensures Between(x, y, r)
    ensures dt == 0.0 ==> r == x
    ensures x == y ==> r == x
  {
    LerpBetween(x, y, decay(rate, dt));
    Lerp(x, y, decay(rate, dt))
  }

  /** `THREE.MathUtils.clamp(v, lo, hi)`, which is `Math.max(lo, Math.min(hi, v))`. */
  function Clamp(v: real, lo: real, hi: real): (r: real)
    ensures lo <= hi ==> lo <= r <= hi
    ensures lo <= v <= hi ==> r == v
    ensures v < lo ==> r == lo
    ensures lo <= hi && hi < v ==> r == hi
  {
    var m := if hi < v then hi else v;
    if lo < m then m else lo
  }

  /** The yaw step: the current yaw turns by the blend fraction `k` of the shortest delta. */
  function YawStep(current: real, target: real, k: real, angleDelta: real -> real): (r: real)
    ensures angleDelta(0.0) == 0.0 && target == current ==> r == current
    ensures k == 0.0 ==> r == current
  {
    current + angleDelta(target - current) * k
  }

  /**
   * The zoom fraction `t`: where `zoom` sits in the zoom range, with 0 at MIN and
   * 1 at MAX. It is the coordinate that maps back to `zoom` along the range.
   */
  function ZoomFraction(c: Config, zoom: real): (t: real)
    requires c.zoom.min != c.zoom.max
    ensures c.zoom.min + t * (c.zoom.max - c.zoom.min) == zoom
    ensures zoom == c.zoom.min ==> t == 0.0
    ensures zoom == c.zoom.max ==> t == 1.0
  {
    var w := c.zoom.max - c.zoom.min;
    var t := (zoom - c.zoom.min) / w;
    assert zoom == c.zoom.max ==> t == w / w == 1.0;
    t
  }

  /** Inside an increasing zoom range, the fraction lies in [0, 1] and grows with zoom. */
  lemma ZoomFractionInUnit(c: Config, zoom: real, zoom': real)
    requires c.zoom.min < c.zoom.max
    requires c.zoom.min <= zoom <= zoom' <= c.zoom.max
    ensures 0.0 <= ZoomFraction(c, zoom) <= ZoomFraction(c, zoom') <= 1.0
  {
    var w := c.zoom.max - c.zoom.min;
    var t, t' := ZoomFraction(c, zoom), ZoomFraction(c, zoom');
    assert t * w == zoom - c.zoom.min;
    assert t' * w == zoom' - c.zoom.min;
    assert (t' - t) * w == zoom' - zoom;
    assert (1.0 - t') * w == c.zoom.max - zoom';
    NonNegativeFactor(t, w);
    NonNegativeFactor(t' - t, w);
    NonNegativeFactor(1.0 - t', w);
  }

  /** The height the zoom asks for: HEIGHT.MIN at `t == 0`, HEIGHT.MAX at `t == 1`. */
  function TargetHeight(c: Config, t: real): (h: real)
    ensures t == 0.0 ==> h == c.height.min
    ensures t == 1.0 ==> h == c.height.max
  {
    Lerp(c.height.min, c.height.max, t)
  }

  /** The field of view the zoom asks for: FOV.MIN at `t == 0`, FOV.MAX at `t == 1`. */
  function TargetFov(c: Config, t: real): (f: real)
    ensures t == 0.0 ==> f == c.fov.min
    ensures t == 1.0 ==> f == c.fov.max
  {
    Lerp(c.fov.min, c.fov.max, t)
  }

  /** The zoom-driven pitch interpolates the other way: PITCH.MAX at `t == 0`, PITCH.MIN at `t == 1`. */
  function BasePitch(c: Config, t: real): (p: real)
    ensures t == 0.0 ==> p == c.pitch.max
    ensures t == 1.0 ==> p == c.pitch.min
  {
    Lerp(c.pitch.max, c.pitch.min, t)
  }

  /** The pitch the camera heads for: the base pitch plus the gesture offset, clamped to the pitch range. */
  function FinalTargetPitch(c: Config, t: real, offset: real): (p: real)
    ensures c.pitch.min <= c.pitch.max ==> c.pitch.min <= p <= c.pitch.max
    ensures c.pitch.min <= BasePitch(c, t) + offset <= c.pitch.max ==> p == BasePitch(c, t) + offset
  {
    Clamp(BasePitch(c, t) + offset, c.pitch.min, c.pitch.max)
  }

  /** At the two ends of the zoom range the derived targets are the configured pairs. */
  lemma ZoomEndpoints(c: Config)
    requires c.zoom.min != c.zoom.max
    ensures TargetHeight(c, ZoomFraction(c, c.zoom.min)) == c.height.min
    ensures TargetHeight(c, ZoomFraction(c, c.zoom.max)) == c.height.max
    ensures TargetFov(c, ZoomFraction(c, c.zoom.min)) == c.fov.min
    ensures TargetFov(c, ZoomFraction(c, c.zoom.max)) == c.fov.max
    ensures BasePitch(c, ZoomFraction(c, c.zoom.min)) == c.pitch.max
    ensures BasePitch(c, ZoomFraction(c, c.zoom.max)) == c.pitch.min
  {
  }

  /**
   * For a zoom inside an increasing zoom range, the target height stays inside
   * the height range and does not decrease as the zoom grows (for an
   * increasing height range).
   */
  lemma TargetHeightFollowsZoom(c: Config, zoom: real, zoom': real)
    requires c.zoom.min < c.zoom.max && c.height.min <= c.height.max
    requires c.zoom.min <= zoom <= zoom' <= c.zoom.max
    ensures c.height.min <= TargetHeight(c, ZoomFraction(c, zoom)) <= c.height.max
    ensures TargetHeight(c, ZoomFraction(c, zoom)) <= TargetHeight(c, ZoomFraction(c, zoom'))
  {
    var t, t' := ZoomFraction(c, zoom), ZoomFraction(c, zoom');
    ZoomFractionInUnit(c, zoom, zoom');
    LerpBetween(c.height.min, c.height.max, t);
    LerpMonotone(c.height.min, c.height.max, t, t');
  }

  /** Zooming in widens the field of view, from FOV.MIN towards FOV.MAX, and never leaves that range. */
  lemma FovFollowsZoom(c: Config, zoom: real, zoom': real)
    requires c.zoom.min < c.zoom.max && c.fov.min <= c.fov.max
    requires c.zoom.min <= zoom <= zoom' <= c.zoom.max
    ensures c.fov.min <= TargetFov(c, ZoomFraction(c, zoom)) <= c.fov.max
    ensures TargetFov(c, ZoomFraction(c, zoom)) <= TargetFov(c, ZoomFraction(c, zoom'))
  {
    var t, t' := ZoomFraction(c, zoom), ZoomFraction(c, zoom');
    ZoomFractionInUnit(c, zoom, zoom');
    LerpBetween(c.fov.min, c.fov.max, t);
    LerpMonotone(c.fov.min, c.fov.max, t, t');
  }

  /** Zooming in lowers the base pitch, from PITCH.MAX towards PITCH.MIN, and never leaves that range. */
  lemma PitchFollowsZoom(c: Config, zoom: real, zoom': real)
    requires c.zoom.min < c.zoom.max && c.pitch.min <= c.pitch.max
    requires c.zoom.min <= zoom <= zoom' <= c.zoom.max
    ensures c.pitch.min <= BasePitch(c, ZoomFraction(c, zoom)) <= c.pitch.max
    ensures BasePitch(c, ZoomFraction(c, zoom')) <= BasePitch(c, ZoomFraction(c, zoom))
  {
    var t, t' := ZoomFraction(c, zoom), ZoomFraction(c, zoom');
    ZoomFractionInUnit(c, zoom, zoom');
    LerpBetween(c.pitch.max, c.pitch.min, t);
    LerpAntitone(c.pitch.max, c.pitch.min, t, t');
  }

  /** The nine numbers of a `CameraState`, as one value. */
  datatype StateValues = StateValues(
    targetZoom: real,
    targetYaw: real, currentYaw: real,
    targetX: real, targetZ: real,
    targetPitch: real, currentPitch: real,
    targetHeight: real, currentHeight: real)

  /** The shared camera state record; controllers write the targets, the update loop the rest. */
  class CameraState {
    var targetZoom: real

    var targetYaw: real
    var currentYaw: real

    var targetX: real
    var targetZ: real

    var targetPitch: real
    var currentPitch: real

    var targetHeight: real
    var currentHeight: real

    /** The initial state `createCamera` builds. */
    constructor (config: Config)
      ensures targetZoom == 1.0
      ensures targetYaw == 0.0 && currentYaw == 0.0
      ensures targetX == 0.0 && targetZ == 0.0
      ensures targetPitch == config.pitch.min && currentPitch == config.pitch.min
      ensures targetHeight == config.height.min && currentHeight == config.height.min
    {
      targetZoom := 1.0;
      targetYaw, currentYaw := 0.0, 0.0;
      targetX, targetZ := 0.0, 0.0;
      targetPitch, currentPitch := config.pitch.min, config.pitch.min;
      targetHeight, currentHeight := config.height.min, config.height.min;
    }

    /** The record's fields as one value, to say which of them an operation changes. */
    function Values(): StateValues
      reads this
    {
      StateValues(targetZoom, targetYaw, currentYaw, targetX, targetZ,
                  targetPitch, currentPitch, targetHeight, currentHeight)
    }
  }

  /**
   * The parts of the `THREE.PerspectiveCamera` that are read or written here.
   * The rotation is an Euler triple in `"YXZ"` order: yaw first, then pitch.
   */
  class PerspectiveCamera {
    var fov: real
    var aspect: real
    const near: real
    const far: real
    var zoom: real
    var x: real
    var y: real
    var z: real
    var pitch: real
    var yaw: real
    var roll: real

    /** `new THREE.PerspectiveCamera(fov, aspect, near, far)`: zoom 1, at the origin, unrotated. */
    constructor (fov: real, aspect: real, near: real, far: real)
      ensures this.fov == fov && this.aspect == aspect
      ensures this.near == near && this.far == far
      ensures zoom == 1.0
      ensures x == 0.0 && y == 0.0 && z == 0.0
      ensures pitch == 0.0 && yaw == 0.0 && roll == 0.0
    {
      this.fov, this.aspect, this.near, this.far := fov, aspect, near, far;
      zoom := 1.0;
      x, y, z := 0.0, 0.0, 0.0;
      pitch, yaw, roll := 0.0, 0.0, 0.0;
    }
  }

  /**
   * `createCamera`: a camera with FOV.MIN, near plane 0.1 and far plane 5000,
   * placed at height HEIGHT.MIN, and the initial state record.
   */
  method CreateCamera(config: Config, aspect: real) returns (camera: PerspectiveCamera, state: CameraState)
    ensures fresh(camera) && fresh(state)
    ensures camera.fov == config.fov.min && camera.aspect == aspect
    ensures camera.near == 0.1 && camera.far == 5000.0
    ensures camera.zoom == 1.0
    ensures camera.x == 0.0 && camera.y == config.height.min && camera.z == 0.0
    ensures camera.pitch == 0.0 && camera.yaw == 0.0 && camera.roll == 0.0
    ensures state.targetZoom == 1.0
    ensures state.targetYaw == 0.0 && state.currentYaw == 0.0
    ensures state.targetX == 0.0 && state.targetZ == 0.0
    ensures state.targetPitch == config.pitch.min && state.currentPitch == config.pitch.min
    ensures state.targetHeight == config.height.min && state.currentHeight == config.height.min
  {
    camera := new PerspectiveCamera(config.fov.min, aspect, 0.1, 5000.0);
    var initialHeight := config.height.min;
    camera.x, camera.y, camera.z := 0.0, initialHeight, 0.0;
    state := new CameraState(config);
  }

  /**
   * `updateCamera`: one frame of `dt` seconds. The state's targets written by
   * controllers (zoom, yaw, pitch offset, X, Z) are read and left alone; the
   * current yaw, the target and current height and the current pitch move,
   * and so do the camera's zoom, FOV, position and rotation.
   */
  method UpdateCamera(camera: PerspectiveCamera, state: CameraState, config: Config, dt: real,
                      decay: (real, real) -> real, angleDelta: real -> real)
    requires ValidConfig(config) && IsDecay(decay) && 0.0 <= dt
    modifies camera, state
    // the controllers' targets are not touched
    ensures state.targetZoom == old(state.targetZoom) && state.targetYaw == old(state.targetYaw)
    ensures state.targetX == old(state.targetX) && state.targetZ == old(state.targetZ)
    ensures state.targetPitch == old(state.targetPitch)
    ensures camera.aspect == old(camera.aspect)
    // every other written value, in terms of the spec functions
    ensures state.currentYaw
         == YawStep(old(state.currentYaw), state.targetYaw, decay(config.yawDamp, dt), angleDelta)
    ensures camera.zoom == Damp(old(camera.zoom), state.targetZoom, config.zoomDamp, dt, decay)
    ensures state.targetHeight == TargetHeight(config, ZoomFraction(config, camera.zoom))
    ensures state.currentHeight
         == Damp(old(state.currentHeight), state.targetHeight, config.heightDamp, dt, decay)
    ensures camera.fov
         == Damp(old(camera.fov), TargetFov(config, ZoomFraction(config, camera.zoom)), config.fovDamp, dt, decay)
    ensures state.currentPitch
         == Damp(old(state.currentPitch),
                 FinalTargetPitch(config, ZoomFraction(config, camera.zoom), state.targetPitch),
                 PitchDampRate(config), dt, decay)
    ensures camera.x == Damp(old(camera.x), state.targetX, config.cameraDamp, dt, decay)
    ensures camera.z == Damp(old(camera.z), state.targetZ, config.cameraDamp, dt, decay)
    ensures camera.y == state.currentHeight
    ensures camera.pitch == state.currentPitch && camera.yaw == state.currentYaw && camera.roll == 0.0
    // what that means: no damped value overshoots its target ...
    ensures Between(old(camera.zoom), state.targetZoom, camera.zoom)
    ensures Between(old(state.currentHeight), state.targetHeight, state.currentHeight)
    ensures Between(old(camera.x), state.targetX, camera.x)
    ensures Between(old(camera.z), state.targetZ, camera.z)
    // ... the pitch the camera heads for is inside the pitch range ...
    ensures config.pitch.min <= config.pitch.max ==>
              Between(old(state.currentPitch), config.pitch.min, state.currentPitch)
              || Between(old(state.currentPitch), config.pitch.max, state.currentPitch)
    // ... a settled yaw stays put, and a zero-length frame moves nothing
    ensures angleDelta(0.0) == 0.0 && old(state.targetYaw) == old(state.currentYaw) ==>
              state.currentYaw == old(state.currentYaw)
    ensures dt == 0.0 ==>
              && state.currentYaw == old(state.currentYaw) && camera.zoom == old(camera.zoom)
              && state.currentHeight == old(state.currentHeight) && camera.fov == old(camera.fov)
              && state.currentPitch == old(state.currentPitch)
              && camera.x == old(camera.x) && camera.z == old(camera.z)
  {
    /* yaw */
    state.currentYaw := YawStep(state.currentYaw, state.targetYaw, decay(config.yawDamp, dt), angleDelta);

    /* zoom */
    camera.zoom := Damp(camera.zoom, state.targetZoom, config.zoomDamp, dt, decay);
    var t := ZoomFraction(config, camera.zoom);

    /* height from zoom */
    state.targetHeight := TargetHeight(config, t);
    state.currentHeight := Damp(state.currentHeight, state.targetHeight, config.heightDamp, dt, decay);
    camera.y := state.currentHeight;

    /* field of view */
    var targetFov := TargetFov(config, t);
    camera.fov := Damp(camera.fov, targetFov, config.fovDamp, dt, decay);

    /* base pitch from zoom, plus the gesture offset, clamped */
    var finalTargetPitch := FinalTargetPitch(config, t, state.targetPitch);
    ghost var before := state.currentPitch;
    state.currentPitch := Damp(state.currentPitch, finalTargetPitch, PitchDampRate(config), dt, decay);
    assert Between(before, finalTargetPitch, state.currentPitch);

    /* position */
    camera.x := Damp(camera.x, state.targetX, config.cameraDamp, dt, decay);
    camera.z := Damp(camera.z, state.targetZ, config.cameraDamp, dt, decay);

    /* rotation, "YXZ" order */
    camera.pitch, camera.yaw, camera.roll := state.currentPitch, state.currentYaw, 0.0;
  }

  /**
   * The zoom range is an invariant of the update: once the camera zoom and the
   * target zoom are in range, the damped zoom is in range, and so the target
   * height lies in the height range.
   */
  lemma DampedZoomStaysInRange(c: Config, zoom: real, targetZoom: real, dt: real, decay: (real, real) -> real)
    requires ValidConfig(c) && IsDecay(decay) && 0.0 <= dt
    requires c.zoom.min < c.zoom.max && c.height.min <= c.height.max
    requires c.zoom.min <= zoom <= c.zoom.max && c.zoom.min <= targetZoom <= c.zoom.max
    ensures c.zoom.min <= Damp(zoom, targetZoom, c.zoomDamp, dt, decay) <= c.zoom.max
    ensures c.height.min <= TargetHeight(c, ZoomFraction(c, Damp(zoom, targetZoom, c.zoomDamp, dt, decay))) <= c.height.max
  {
    var z := Damp(zoom, targetZoom, c.zoomDamp, dt, decay);
    TargetHeightFollowsZoom(c, z, z);
  }
}
