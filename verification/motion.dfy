/**
 * The arithmetic of one animation frame, shared by both implementations:
 * the calibrated or raw input scaled into motion (axes swapped in portrait
 * orientation), the optional clamp to a limit, the friction step that moves
 * the velocity towards the motion, and the per-layer offset by depth.
 */
module Motion {
  import opened JsValues
  import Helpers

  /** Divisor that turns device rotation degrees into input units. */
  const MagicNumber: real := 30.0

  function Abs(x: real): real {
    if x < 0.0 then -x else x
  }

  /**
   * Motion before limiting: on each axis the calibrated delta when that
   * axis calibrates, the raw input otherwise, times the axis scalar.  In
   * portrait orientation the x motion is taken from the y input and the y
   * motion from the x input.
   */
  function RawMotion(ix: real, iy: real, cx: real, cy: real, portrait: bool,
                     calibrateX: bool, calibrateY: bool, scalarX: real, scalarY: real): (real, real)
  {
    var dx := ix - cx;
    var dy := iy - cy;
    if portrait then
      ((if calibrateX then dy else iy) * scalarX, (if calibrateY then dx else ix) * scalarY)
    else
      ((if calibrateX then dx else ix) * scalarX, (if calibrateY then dy else iy) * scalarY)
  }

  /** Portrait orientation is landscape orientation with the two input axes exchanged. */
  lemma PortraitSwapsAxes(ix: real, iy: real, cx: real, cy: real,
                          calibrateX: bool, calibrateY: bool, scalarX: real, scalarY: real)
    ensures RawMotion(ix, iy, cx, cy, true, calibrateX, calibrateY, scalarX, scalarY)
         == RawMotion(iy, ix, cy, cx, false, calibrateX, calibrateY, scalarX, scalarY)
  {
  }

  /**
   * Right after calibration the input equals the reference point, so an
   * axis that calibrates has no motion, whatever the orientation.
   */
  lemma CalibratedRestIsStill(ix: real, iy: real, portrait: bool,
                              calibrateX: bool, calibrateY: bool, scalarX: real, scalarY: real)
    ensures var m := RawMotion(ix, iy, ix, iy, portrait, calibrateX, calibrateY, scalarX, scalarY);
      (calibrateX ==> m.0 == 0.0) && (calibrateY ==> m.1 == 0.0)
  {
  }

  /**
   * The limit read from a setting: present when `parseFloat` of the setting
   * is a number (the default `false` is no limit).
   */
  function LimitOf(v: Value): (r: Option<real>)
    ensures r.Some? <==> ParseFloat(v).Some?
    ensures r.Some? ==> r.value == ParseFloat(v).value
    ensures v.Bool? || v == Null ==> r == None
    ensures v.Num? ==> r == Some(v.n)
  {
    if ParseFloat(v).Some? then Some(ToNumber(v)) else None
  }

  /** `clamp(m, -limit, limit)` when a limit is set, `m` otherwise. */
  function Limited(m: real, limit: Option<real>): (r: real)
    ensures limit.None? ==> r == m
    ensures limit.Some? ==> Abs(r) <= Abs(limit.value)
    ensures limit.Some? && Abs(m) <= limit.value ==> r == m
    ensures limit.Some? && limit.value >= 0.0 && Abs(m) > limit.value ==> Abs(r) == limit.value
    ensures limit.Some? && limit.value >= 0.0 && m > limit.value ==> r == limit.value
    ensures limit.Some? && limit.value >= 0.0 && m < -limit.value ==> r == -limit.value
    ensures limit.Some? && limit.value < 0.0 ==> r == limit.value
  {
    match limit
    case None => m
    case Some(l) => Helpers.Clamp(m, -l, l)
  }

  /** One friction step of the velocity `v` towards the motion `target`. */
  function Smooth(v: real, target: real, friction: real): (r: real)
    ensures target - r == (1.0 - friction) * (target - v)
  {
    v + (target - v) * friction
  }

  /** With friction in [0, 1] one step ends between the velocity and the motion. */
  lemma SmoothBetween(v: real, target: real, friction: real)
    requires 0.0 <= friction <= 1.0
    ensures v <= target ==> v <= Smooth(v, target, friction) <= target
    ensures target <= v ==> target <= Smooth(v, target, friction) <= v
  {
    var d := target - v;
    if d >= 0.0 {
      ProductSign(d, friction);
      ProductSign(1.0 - friction, d);
    } else {
      ProductSign(-d, friction);
      ProductSign(1.0 - friction, -d);
    }
  }

  lemma ProductSign(a: real, b: real)
    requires a >= 0.0 && b >= 0.0
    ensures a * b >= 0.0
  {
  }

  /** `d` multiplied `n` times by `q`: `q^n * d`. */
  function Decay(q: real, n: nat, d: real): real {
    if n == 0 then d else q * Decay(q, n - 1, d)
  }

  /** `n` frames of friction towards a motion that stays put. */
  function SmoothFrames(v: real, target: real, friction: real, n: nat): real {
    if n == 0 then v else Smooth(SmoothFrames(v, target, friction, n - 1), target, friction)
  }

  /**
   * While the motion stays put, the gap between velocity and motion shrinks
   * by the factor (1 - friction) every frame.
   */
  lemma {:induction false} SmoothFramesGap(v: real, target: real, friction: real, n: nat)
    ensures target - SmoothFrames(v, target, friction, n) == Decay(1.0 - friction, n, target - v)
  {
    if n > 0 {
      SmoothFramesGap(v, target, friction, n - 1);
    }
  }

  /** With friction in [0, 1] the velocity never overshoots a motion that stays put. */
  lemma {:induction false} SmoothFramesBetween(v: real, target: real, friction: real, n: nat)
    requires 0.0 <= friction <= 1.0
    ensures v <= target ==> v <= SmoothFrames(v, target, friction, n) <= target
    ensures target <= v ==> target <= SmoothFrames(v, target, friction, n) <= v
  {
    if n > 0 {
      SmoothFramesBetween(v, target, friction, n - 1);
      SmoothBetween(SmoothFrames(v, target, friction, n - 1), target, friction);
    }
  }

  /** Offset of a layer: velocity times depth, negated when the axis is inverted. */
  function LayerOffset(v: real, depth: real, invert: bool): real {
    v * depth * (if invert then -1.0 else 1.0)
  }

  /**
   * The parallax property: on one axis, layers move in proportion to their
   * depths, a layer of depth 0 stays still, and inverting an axis mirrors
   * every offset.
   */
  lemma LayerOffsetsProportional(v: real, d1: real, d2: real, invert: bool)
    ensures LayerOffset(v, d1, invert) * d2 == LayerOffset(v, d2, invert) * d1
    ensures LayerOffset(v, 0.0, invert) == 0.0
    ensures LayerOffset(v, d1, true) == -LayerOffset(v, d1, false)
  {
    calc {
      LayerOffset(v, d1, invert) * d2;
      (v * (if invert then -1.0 else 1.0)) * (d1 * d2);
      LayerOffset(v, d2, invert) * d1;
    }
  }

  /** A frame queues a calibration when either delta exceeds the threshold. */
  predicate NeedsCalibration(dx: real, dy: real, threshold: real) {
    Abs(dx) > threshold || Abs(dy) > threshold
  }

  /**
   * Input from the mouse: the distance of the pointer from the window's
   * centre line, in half-window units.
   */
  function MouseInput(page: real, half: real): (r: real)
    requires half > 0.0
    ensures page == half ==> r == 0.0
    ensures page == 0.0 ==> r == -1.0
    ensures page == 2.0 * half ==> r == 1.0
    ensures 0.0 <= page <= 2.0 * half ==> -1.0 <= r <= 1.0
    ensures page < half <==> r < 0.0
  {
    (page - half) / half
  }

  /** Input from a device rotation angle in degrees. */
  function RotationInput(angle: real): (r: real)
    ensures -90.0 <= angle <= 90.0 ==> -3.0 <= r <= 3.0
    ensures -180.0 <= angle <= 180.0 ==> -6.0 <= r <= 6.0
    ensures r * MagicNumber == angle
  {
    angle / MagicNumber
  }
}
