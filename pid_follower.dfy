/** The plain five-sensor PID follower: the shared controller with its own
    gains, always at the full base speed. */
module PidFollower {
  import opened MotorDriver
  import opened LineSensorDriver
  import opened Steering

  /** One tick of this binary's `follow_line` on polarity-corrected readings. */
  function PidControl(s: PidState, on: seq<bool>): (PidState, Outcome)
    requires |on| == SENSOR_COUNT
  {
    Control(PID_GAINS, s, on, SPEED)
  }

  /** Between ticks the previous deviation stays in [-2, 2] and the integral
      in [-100, 100]; a completed tick stores its deviation. */
  lemma PidKeepsBounds(s: PidState, on: seq<bool>)
    requires |on| == SENSOR_COUNT
    requires -2.0 <= s.prevDeviation <= 2.0 && -100.0 <= s.integral <= 100.0
    ensures -2.0 <= PidControl(s, on).0.prevDeviation <= 2.0
    ensures -100.0 <= PidControl(s, on).0.integral <= 100.0
    ensures !AllActive(on) ==> PidControl(s, on).0.prevDeviation == Deviation(on, s.prevDeviation)
    ensures AllActive(on) ==> PidControl(s, on) == (s, Halt)
  {
    if !AllActive(on) {
      ControlState(PID_GAINS, s, on, SPEED);
    }
  }

  /** With this binary's `KA` of 0.004 the attenuation lies in [0.992, 1]. */
  lemma PidAttenuation(deviation: real)
    requires -2.0 <= deviation <= 2.0
    ensures 0.992 <= Attenuation(PID_GAINS, deviation) <= 1.0
  {
    AttenuationRange(PID_GAINS, deviation);
  }

  /** The loop body of this binary's `follow_line`. */
  method Tick(c: LineFollower, left: Motor, right: Motor,
              sensors: seq<LineSensor>, levels: seq<bool>, convert: real -> I16)
    returns (out: Outcome)
    requires c.Valid() && c.gains == PID_GAINS
    requires left != right && left.Valid() && right.Valid()
    requires sensors == FiveSensorBar() && |levels| == SENSOR_COUNT
    modifies c, left, right
    ensures c.Valid()
    ensures (c.State(), out) == PidControl(old(c.State()), Readings(sensors, levels))
    ensures left.Valid() && right.Valid()
    ensures out.Halt? ==> left.Stopped() && right.Stopped()
    ensures out.Halt? ==> left.direction == old(left.direction) && right.direction == old(right.direction)
    ensures out.Drive? ==> left.RanWith(convert(out.left)) && right.RanWith(convert(out.right))
  {
    out := c.Step(sensors, levels, SPEED);
    Actuate(out, left, right, convert);
  }
}
