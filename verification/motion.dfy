/**
 * Motion state of the chair: six degrees of freedom, each kept inside a
 * symmetric safety limit by clamping.  Axis values are modelled as reals;
 * single-precision rounding is not modelled.
 */
module Motion {

  /** The limit every axis of the controller is configured with. */
  const AxisLimit: real := 15.0

  /** A snapshot of the six axes, in the order they go on the wire. */
  datatype Pose = Pose(pitch: real, roll: real, yaw: real, sway: real, surge: real, heave: real)

  /** The neutral pose the controller starts in and resets to. */
  const Neutral := Pose(0.0, 0.0, 0.0, 0.0, 0.0, 0.0)

  /** Axis `k` of a pose, 0 = pitch ... 5 = heave (the wire order). */
  function AxisAt(p: Pose, k: nat): real
    requires k < 6
  {
    match k
    case 0 => p.pitch
    case 1 => p.roll
    case 2 => p.yaw
    case 3 => p.sway
    case 4 => p.surge
    case 5 => p.heave
  }

  /** Every axis of `p` lies within [-limit, limit]. */
  predicate WithinLimits(p: Pose, limit: real)
  {
    && -limit <= p.pitch <= limit
    && -limit <= p.roll <= limit
    && -limit <= p.yaw <= limit
    && -limit <= p.sway <= limit
    && -limit <= p.surge <= limit
    && -limit <= p.heave <= limit
  }

  /**
   * Unity's `Mathf.Clamp(value, min, max)`: a value below `min` becomes
   * `min`, otherwise a value above `max` becomes `max`.  (Behaviour on NaN
   * is not modelled: reals have no NaN.)
   */
  function Clamp(value: real, min: real, max: real): (r: real)
    ensures min <= max ==> min <= r <= max
    ensures min <= value <= max ==> r == value
    ensures r == value || r == min || r == max
    ensures value < min ==> r == min
    ensures min <= max && value > max ==> r == max
  {
    if value < min then min else if value > max then max else value
  }

  /** The slider mapping `(v * 2 - 1) * max` from a [0, 1] slider to an axis value. */
  function SliderValue(v: real, max: real): real
  {
    (v * 2.0 - 1.0) * max
  }

  /** The slider mapping is odd about the midpoint: positions v and 1 - v command opposite values. */
  lemma SliderSymmetric(v: real, max: real)
    ensures SliderValue(v, max) == -SliderValue(1.0 - v, max)
  {
  }

  /**
   * With the configured limit, slider position 0 commands -15, the midpoint
   * commands 0 and position 1 commands +15, and clamping leaves each of
   * them unchanged.
   */
  lemma SliderLandmarks()
    ensures Clamp(SliderValue(0.0, AxisLimit), -AxisLimit, AxisLimit) == -15.0
    ensures Clamp(SliderValue(0.5, AxisLimit), -AxisLimit, AxisLimit) == 0.0
    ensures Clamp(SliderValue(1.0, AxisLimit), -AxisLimit, AxisLimit) == 15.0
  {
  }

  /**
   * The slider mapping is monotonic, and for an in-range slider the clamp
   * after it is redundant; a slider value outside [0, 1] saturates at the
   * nearer limit.
   */
  lemma SliderClamp(v: real, w: real, max: real)
    requires 0.0 <= max && v <= w
    ensures SliderValue(v, max) <= SliderValue(w, max)
    ensures 0.0 <= v <= 1.0 ==> -max <= SliderValue(v, max) <= max
    ensures 0.0 <= v <= 1.0 ==> Clamp(SliderValue(v, max), -max, max) == SliderValue(v, max)
    ensures v < 0.0 ==> Clamp(SliderValue(v, max), -max, max) == -max
    ensures v > 1.0 ==> Clamp(SliderValue(v, max), -max, max) == max
  {
    assert SliderValue(w, max) - SliderValue(v, max) == (w - v) * 2.0 * max;
    if 0.0 <= v <= 1.0 {
      assert SliderValue(v, max) + max == v * 2.0 * max;
      assert max - SliderValue(v, max) == (1.0 - v) * 2.0 * max;
    }
    if v < 0.0 {
      assert SliderValue(v, max) - (-max) == v * 2.0 * max;
    }
    if v > 1.0 {
      assert SliderValue(v, max) - max == (v - 1.0) * 2.0 * max;
    }
  }
}
