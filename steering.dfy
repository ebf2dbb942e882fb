/** The PID line follower shared by the two five-sensor binaries. Each tick
    counts the active sensors and their index sum, turns them into a centroid
    deviation from the middle sensor, updates an anti-windup integral and
    produces two attenuated wheel speeds. The binaries differ only in their
    gains and in the base speed they pass in. Floats are modelled as reals. */
module Steering {
  import opened MotorDriver
  import opened LineSensorDriver

  /** `SPEED`: the base speed of both binaries. */
  const SPEED: real := 100.0
  /** `MIDDLE`: index of the middle sensor of the five. */
  const MIDDLE: real := 2.0
  const SENSOR_COUNT: nat := 5

  datatype Gains = Gains(kp: real, ki: real, kd: real, ka: real)

  /** The attenuation stays non-negative over deviations in [-2, 2]. */
  predicate ValidGains(g: Gains)
  {
    0.0 <= g.ka <= 0.5
  }

  /** `KP`, `KI`, `KD`, `KA` of the obstacle-gated follower. */
  const TRAM_GAINS: Gains := Gains(180.0, 0.264, 66.0, 0.082)
  /** `KP`, `KI`, `KD`, `KA` of the plain PID follower. */
  const PID_GAINS: Gains := Gains(160.0, 0.2, 160.0, 0.004)

  /** The five sensors as both binaries wire them: the outer two active-low,
      the inner three active-high. */
  function FiveSensorBar(): (bar: seq<LineSensor>)
    ensures |bar| == SENSOR_COUNT
    ensures forall i :: 0 <= i < |bar| ==> (bar[i].invert <==> i == 0 || i == 4)
  {
    [NewInvert(), New(), New(), New(), NewInvert()]
  }

  /** `f32::clamp`. */
  function Clamp(x: real, lo: real, hi: real): (r: real)
    requires lo <= hi
    ensures lo <= r <= hi
    ensures lo <= x <= hi ==> r == x
    ensures x < lo ==> r == lo
    ensures x > hi ==> r == hi
  {
    if x < lo then lo else if x > hi then hi else x
  }

  function Abs(x: real): (r: real)
    ensures r >= 0.0 && (r == x || r == -x)
  {
    if x < 0.0 then -x else x
  }

  /** Number of active sensors (`activated`). */
  function CountOn(on: seq<bool>): (n: nat)
    ensures n <= |on|
  {
    if on == [] then 0
    else CountOn(on[..|on| - 1]) + (if on[|on| - 1] then 1 else 0)
  }

  /** Sum of the indices of the active sensors (`sum`). */
  function IndexSum(on: seq<bool>): (sum: nat)
    ensures (forall i :: 0 <= i < |on| ==> !on[i]) ==> sum == 0
    ensures forall i :: 0 <= i < |on| && on[i] ==> i <= sum
  {
    if on == [] then 0
    else IndexSum(on[..|on| - 1]) + (if on[|on| - 1] then |on| - 1 else 0)
  }

  /** Every active index of a bar of at most five sensors is at most 4, so
      the centroid lies inside the bar. */
  lemma {:induction false} IndexSumBound(on: seq<bool>)
    requires |on| <= SENSOR_COUNT
    ensures IndexSum(on) <= 4 * CountOn(on)
  {
    if on != [] {
      IndexSumBound(on[..|on| - 1]);
    }
  }

  /** All sensors active: both motors stop and the controller state is kept. */
  predicate AllActive(on: seq<bool>): (all: bool)
    ensures all <==> forall i :: 0 <= i < |on| ==> on[i]
  {
    CountOnAll(on);
    CountOn(on) == |on|
  }

  /** The count reaches the length exactly when every reading is active. */
  lemma {:induction false} CountOnAll(on: seq<bool>)
    ensures CountOn(on) == |on| <==> forall i :: 0 <= i < |on| ==> on[i]
  {
    if on != [] {
      CountOnAll(on[..|on| - 1]);
    }
  }

  /** The deviation of one tick: the previous one when no sensor is active,
      otherwise `MIDDLE - sum / activated`. */
  function Deviation(on: seq<bool>, prev: real): real
    requires |on| == SENSOR_COUNT && !AllActive(on)
  {
    if CountOn(on) == 0 then prev
    else MIDDLE - IndexSum(on) as real / CountOn(on) as real
  }

  /** The deviation never leaves [-2, 2] when the previous one did not, and it
      is the centroid offset whenever some sensor is active. */
  lemma DeviationRange(on: seq<bool>, prev: real)
    requires |on| == SENSOR_COUNT && !AllActive(on)
    requires -2.0 <= prev <= 2.0
    ensures -2.0 <= Deviation(on, prev) <= 2.0
    ensures CountOn(on) == 0 ==> Deviation(on, prev) == prev
  {
    var k := CountOn(on);
    if k > 0 {
      IndexSumBound(on);
      var sum := IndexSum(on);
      assert 0 <= sum <= 4 * k;
      var mean := sum as real / k as real;
      assert mean * k as real == sum as real;
      assert 0.0 <= mean <= 4.0;
    }
  }

  /** The counts of the reading with only the middle sensor active. */
  lemma CentredCounts()
    ensures CountOn([false, false, true, false, false]) == 1
    ensures IndexSum([false, false, true, false, false]) == 2
  {
    assert [false][..0] == [];
    assert CountOn([false]) == 0 && IndexSum([false]) == 0;
    assert [false, false][..1] == [false];
    assert CountOn([false, false]) == 0 && IndexSum([false, false]) == 0;
    assert [false, false, true][..2] == [false, false];
    assert CountOn([false, false, true]) == 1 && IndexSum([false, false, true]) == 2;
    assert [false, false, true, false][..3] == [false, false, true];
    assert CountOn([false, false, true, false]) == 1 && IndexSum([false, false, true, false]) == 2;
    assert [false, false, true, false, false][..4] == [false, false, true, false];
  }

  /** Only the middle sensor active: the robot is centred. */
  lemma CentredDeviation(prev: real)
    ensures Deviation([false, false, true, false, false], prev) == 0.0
  {
    CentredCounts();
  }

  /** The controller state `follow_line` keeps across ticks. */
  datatype PidState = PidState(integral: real, prevDeviation: real)

  /** What one tick tells the two motors: stop both, or run them with the
      given (real-valued) speeds. */
  datatype Outcome = Halt | Drive(left: real, right: real)

  /** `1 - KA * |deviation|`. */
  function Attenuation(g: Gains, deviation: real): real
  {
    1.0 - g.ka * Abs(deviation)
  }

  /** `KP * deviation + KI * integral + KD * (deviation - prev_deviation)`. */
  function Correction(g: Gains, deviation: real, integral: real, prev: real): real
  {
    g.kp * deviation + g.ki * integral + g.kd * (deviation - prev)
  }

  /** Both wheel commands: base speed minus (left) or plus (right) the
      correction, clamped to the speed range, then attenuated. */
  function WheelSpeeds(speed: real, pidVal: real, attenuation: real): (out: Outcome)
    requires speed > 0.0
    ensures out.Drive?
  {
    Drive(Clamp(speed - pidVal, -speed, speed) * attenuation,
          Clamp(speed + pidVal, -speed, speed) * attenuation)
  }

  /** Both wheel commands of a driving outcome are within `bound` in
      magnitude. */
  predicate Within(out: Outcome, bound: real)
  {
    out.Drive? && Abs(out.left) <= bound && Abs(out.right) <= bound
  }

  /** Whatever the correction, a non-negative attenuation keeps each wheel
      within the base speed times that attenuation. */
  lemma WheelSpeedsBound(speed: real, pidVal: real, attenuation: real)
    requires speed > 0.0 && attenuation >= 0.0
    ensures Within(WheelSpeeds(speed, pidVal, attenuation), speed * attenuation)
  {
    var out := WheelSpeeds(speed, pidVal, attenuation);
    var cl, cr := Clamp(speed - pidVal, -speed, speed), Clamp(speed + pidVal, -speed, speed);
    assert out.left == cl * attenuation && out.right == cr * attenuation;
    ScaledWithin(cl, speed, attenuation);
    ScaledWithin(cr, speed, attenuation);
  }

  /** One tick of the PID follower on polarity-corrected readings at base speed
      `speed`: the new controller state and the motor outcome. */
  function Control(g: Gains, s: PidState, on: seq<bool>, speed: real): (PidState, Outcome)
    requires |on| == SENSOR_COUNT && speed > 0.0
  {
    if AllActive(on) then (s, Halt)
    else
      var deviation := Deviation(on, s.prevDeviation);
      var integral := Clamp(s.integral + deviation, -speed, speed);
      var pidVal := Correction(g, deviation, integral, s.prevDeviation);
      var attenuation := Attenuation(g, deviation);
      (PidState(integral, deviation), WheelSpeeds(speed, pidVal, attenuation))
  }

  /** The tick halts exactly when every sensor is active, and then the state
      is frozen, not reset. */
  lemma ControlHalts(g: Gains, s: PidState, on: seq<bool>, speed: real)
    requires |on| == SENSOR_COUNT && speed > 0.0
    ensures Control(g, s, on, speed).1 == Halt <==> AllActive(on)
    ensures AllActive(on) ==> Control(g, s, on, speed).0 == s
  {
  }

  /** A completed tick stores its deviation as the previous one, bounds the
      integral by that tick's speed, and keeps the deviation in [-2, 2]; with
      no sensor active the previous deviation is reused. */
  lemma ControlState(g: Gains, s: PidState, on: seq<bool>, speed: real)
    requires |on| == SENSOR_COUNT && speed > 0.0 && !AllActive(on)
    requires -2.0 <= s.prevDeviation <= 2.0
    ensures Control(g, s, on, speed).0.prevDeviation == Deviation(on, s.prevDeviation)
    ensures -speed <= Control(g, s, on, speed).0.integral <= speed
    ensures -2.0 <= Control(g, s, on, speed).0.prevDeviation <= 2.0
    ensures CountOn(on) == 0 ==> Control(g, s, on, speed).0.prevDeviation == s.prevDeviation
  {
    DeviationRange(on, s.prevDeviation);
  }

  /** `x * k <= y * k` for a non-negative factor. */
  lemma ScaleMonotone(k: real, x: real, y: real)
    requires k >= 0.0 && x <= y
    ensures x * k <= y * k
  {
    calc {
      y * k;
    ==
      x * k + (y - x) * k;
    >=
      x * k;
    }
  }

  /** The attenuation lies in [1 - 2 KA, 1] for deviations in [-2, 2]. */
  lemma AttenuationRange(g: Gains, deviation: real)
    requires ValidGains(g) && -2.0 <= deviation <= 2.0
    ensures 1.0 - 2.0 * g.ka <= Attenuation(g, deviation)
    ensures Attenuation(g, deviation) <= 1.0
    ensures Attenuation(g, deviation) >= 0.0
  {
    var ka, a := g.ka, Abs(deviation);
    ReductionBetween(ka, a);
    calc {
      Attenuation(g, deviation);
    ==
      1.0 - ka * a;
    >=
      1.0 - 2.0 * ka;
    }
  }

  /** `0 <= ka * a <= 2 ka` for `a` in [0, 2]. */
  lemma ReductionBetween(ka: real, a: real)
    requires 0.0 <= ka && 0.0 <= a <= 2.0
    ensures 0.0 <= ka * a <= 2.0 * ka
  {
    calc {
      2.0 * ka;
    ==
      ka * a + ka * (2.0 - a);
    >=  { ScaleMonotone(ka, 0.0, 2.0 - a); }
      ka * a;
    >=  { ScaleMonotone(ka, 0.0, a); }
      0.0;
    }
  }

  /** A command in [-speed, speed] scaled by a non-negative attenuation stays
      within speed times that attenuation. */
  lemma ScaledWithin(c: real, speed: real, att: real)
    requires -speed <= c <= speed && att >= 0.0
    ensures Abs(c * att) <= speed * att
  {
    ScaleMonotone(att, c, speed);
    ScaleMonotone(att, -c, speed);
    assert (-c) * att == -(c * att);
  }

  /** A tick that does not halt drives the wheels with the correction and the
      attenuation of its deviation. */
  lemma ControlDrive(g: Gains, s: PidState, on: seq<bool>, speed: real)
    requires |on| == SENSOR_COUNT && speed > 0.0 && !AllActive(on)
    ensures var deviation := Deviation(on, s.prevDeviation);
            var integral := Clamp(s.integral + deviation, -speed, speed);
            Control(g, s, on, speed).1 ==
              WheelSpeeds(speed, Correction(g, deviation, integral, s.prevDeviation), Attenuation(g, deviation))
  {
  }

  /** With only the middle sensor active and a settled controller, both wheels
      run at the base speed. */
  lemma CentredDrivesStraight(g: Gains, speed: real)
    requires speed > 0.0
    ensures Control(g, PidState(0.0, 0.0), [false, false, true, false, false], speed)
            == (PidState(0.0, 0.0), Drive(speed, speed))
  {
    CentredDeviation(0.0);
    CentredCounts();
  }

  /** Once at the speed, the integral stays there under a non-negative
      deviation. */
  lemma IntegralSaturates(g: Gains, s: PidState, on: seq<bool>, speed: real)
    requires |on| == SENSOR_COUNT && speed > 0.0 && !AllActive(on)
    requires s.integral == speed && Deviation(on, s.prevDeviation) >= 0.0
    ensures Control(g, s, on, speed).0.integral == speed
  {
  }

  /** The controller of one `follow_line` task: its gains and the state it
      carries from tick to tick. */
  class LineFollower {
    const gains: Gains
    var integral: real
    var prevDeviation: real

    ghost predicate Valid()
      reads this
    {
      ValidGains(gains) && -2.0 <= prevDeviation <= 2.0 && -SPEED <= integral <= SPEED
    }

    function State(): PidState
      reads this
    {
      PidState(integral, prevDeviation)
    }

    constructor (g: Gains)
      requires ValidGains(g)
      ensures Valid() && gains == g
      ensures State() == PidState(0.0, 0.0)
    {
      gains := g;
      integral := 0.0;
      prevDeviation := 0.0;
    }

    /** The sensor loop of one tick: count the active sensors and sum their
        indices. */
    static method Scan(sensors: seq<LineSensor>, levels: seq<bool>) returns (activated: nat, sum: nat)
      requires |sensors| == |levels|
      ensures activated == CountOn(Readings(sensors, levels))
      ensures sum == IndexSum(Readings(sensors, levels))
    {
      ghost var on := Readings(sensors, levels);
      activated, sum := 0, 0;
      for idx := 0 to |sensors|
        invariant activated == CountOn(on[..idx])
        invariant sum == IndexSum(on[..idx])
      {
        assert on[..idx + 1][..idx] == on[..idx];
        if IsOnLine(sensors[idx], levels[idx]) {
          activated := activated + 1;
          sum := sum + idx;
        }
      }
      assert on[..|sensors|] == on;
    }

    /** One tick at base speed `speed`; the caller drives the motors from the
        outcome. */
    method Step(sensors: seq<LineSensor>, levels: seq<bool>, speed: real) returns (out: Outcome)
      requires Valid()
      requires |sensors| == SENSOR_COUNT && |levels| == SENSOR_COUNT
      requires 0.0 < speed <= SPEED
      modifies this
      ensures Valid()
      ensures (State(), out) == Control(gains, old(State()), Readings(sensors, levels), speed)
    {
      ghost var on := Readings(sensors, levels);
      var activated, sum := Scan(sensors, levels);
      if activated == SENSOR_COUNT {
        out := Halt;
        return;
      }
      var deviation := if activated == 0 then prevDeviation else MIDDLE - sum as real / activated as real;
      assert deviation == Deviation(on, prevDeviation);
      DeviationRange(on, prevDeviation);
      integral := Clamp(integral + deviation, -speed, speed);
      var pidVal := Correction(gains, deviation, integral, prevDeviation);
      var attenuation := Attenuation(gains, deviation);
      out := WheelSpeeds(speed, pidVal, attenuation);
      prevDeviation := deviation;
    }
  }

  /** Issues one tick's outcome to the two motors. `convert` stands for the
      conversion of an `f32` wheel speed to the `i16` that `Motor::run` takes. */
  method Actuate(out: Outcome, left: Motor, right: Motor, convert: real -> I16)
    requires left != right && left.Valid() && right.Valid()
    modifies left, right
    ensures left.Valid() && right.Valid()
    ensures out.Halt? ==> left.Stopped() && right.Stopped()
    ensures out.Halt? ==> left.direction == old(left.direction) && right.direction == old(right.direction)
    ensures out.Drive? ==> left.RanWith(convert(out.left)) && right.RanWith(convert(out.right))
  {
    match out {
      case Halt =>
        left.Stop();
        right.Stop();
      case Drive(l, r) =>
        left.Run(convert(l));
        right.Run(convert(r));
    }
  }
}
