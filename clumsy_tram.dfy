/** The obstacle-gated line follower: before each PID tick it looks at the
    latest distance from the ultrasonic ranger, stops in front of an obstacle
    and slows down when one is near. A second task forwards the successful
    measurements to it. */
module ClumsyTram {
  import opened MotorDriver
  import opened LineSensorDriver
  import opened Steering

  /** `MINIMUM_DISTANCE`, in centimetres. */
  const MINIMUM_DISTANCE: real := 6.0
  /** The slow-down factor, and the factor of `MINIMUM_DISTANCE` below which
      it applies. */
  const SLOWDOWN: real := 1.2

  /** The base speed of a tick that is not stopped by the obstacle: divided by
      1.2 in the band just beyond the minimum distance. */
  function TickSpeed(d: real): (v: real)
    ensures 0.0 < v <= SPEED
    ensures v == SPEED || v * SLOWDOWN == SPEED
    ensures v < SPEED <==> MINIMUM_DISTANCE < d <= MINIMUM_DISTANCE * SLOWDOWN
  {
    if d > MINIMUM_DISTANCE && d <= MINIMUM_DISTANCE * SLOWDOWN then SPEED / SLOWDOWN else SPEED
  }

  /** One tick of the tram's `follow_line` on polarity-corrected readings and
      the received distance: the new controller state and the motor outcome. */
  function TramControl(s: PidState, on: seq<bool>, d: real): (PidState, Outcome)
    requires |on| == SENSOR_COUNT
  {
    if d <= MINIMUM_DISTANCE then (s, Halt) else Control(TRAM_GAINS, s, on, TickSpeed(d))
  }

  /** An obstacle at or inside the minimum distance stops the tram with the
      state frozen, whatever the sensors read. */
  lemma ObstacleHalts(s: PidState, on: seq<bool>, other: seq<bool>, d: real)
    requires |on| == SENSOR_COUNT && |other| == SENSOR_COUNT
    requires d <= MINIMUM_DISTANCE
    ensures TramControl(s, on, d) == (s, Halt)
    ensures TramControl(s, on, d) == TramControl(s, other, d)
  {
  }

  /** The tram halts exactly when the obstacle is too close or every sensor is
      active; otherwise it runs the follower at the tick speed. */
  lemma TramHalts(s: PidState, on: seq<bool>, d: real)
    requires |on| == SENSOR_COUNT
    ensures TramControl(s, on, d).1 == Halt <==> d <= MINIMUM_DISTANCE || AllActive(on)
    ensures TramControl(s, on, d).1 == Halt ==> TramControl(s, on, d).0 == s
  {
    if d > MINIMUM_DISTANCE {
      ControlHalts(TRAM_GAINS, s, on, TickSpeed(d));
    }
  }

  /** The controller state between ticks: the previous deviation in [-2, 2]
      and the integral within the full speed. */
  predicate Settled(s: PidState)
  {
    -2.0 <= s.prevDeviation <= 2.0 && -SPEED <= s.integral <= SPEED
  }

  /** Every tick keeps the state settled; a completed tick bounds the
      integral by its own, possibly reduced, speed. */
  lemma TramKeepsSettled(s: PidState, on: seq<bool>, d: real)
    requires |on| == SENSOR_COUNT && Settled(s)
    ensures Settled(TramControl(s, on, d).0)
    ensures d > MINIMUM_DISTANCE && !AllActive(on) ==>
              -TickSpeed(d) <= TramControl(s, on, d).0.integral <= TickSpeed(d)
  {
    if d > MINIMUM_DISTANCE && !AllActive(on) {
      ControlState(TRAM_GAINS, s, on, TickSpeed(d));
    }
  }

  /** With the tram's `KA` of 0.082 the attenuation lies in [0.836, 1]. */
  lemma TramAttenuation(deviation: real)
    requires -2.0 <= deviation <= 2.0
    ensures 0.836 <= Attenuation(TRAM_GAINS, deviation) <= 1.0
  {
    AttenuationRange(TRAM_GAINS, deviation);
  }

  /** The loop body of the tram's `follow_line` for one received distance. */
  method Tick(c: LineFollower, left: Motor, right: Motor, distance: real,
              sensors: seq<LineSensor>, levels: seq<bool>, convert: real -> I16)
    returns (out: Outcome)
    requires c.Valid() && c.gains == TRAM_GAINS
    requires left != right && left.Valid() && right.Valid()
    requires sensors == FiveSensorBar() && |levels| == SENSOR_COUNT
    modifies c, left, right
    ensures c.Valid()
    ensures (c.State(), out) == TramControl(old(c.State()), Readings(sensors, levels), distance)
    ensures left.Valid() && right.Valid()
    ensures out.Halt? ==> left.Stopped() && right.Stopped()
    ensures out.Halt? ==> left.direction == old(left.direction) && right.direction == old(right.direction)
    ensures out.Drive? ==> left.RanWith(convert(out.left)) && right.RanWith(convert(out.right))
  {
    var theSpeed := SPEED;
    if distance <= MINIMUM_DISTANCE {
      left.Stop();
      right.Stop();
      out := Halt;
      return;
    }
    if distance > MINIMUM_DISTANCE && distance <= MINIMUM_DISTANCE * SLOWDOWN {
      theSpeed := theSpeed / SLOWDOWN;
    }
    out := c.Step(sensors, levels, theSpeed);
    Actuate(out, left, right, convert);
  }

  /** What the ranger library returns for one measurement. */
  datatype Measurement = Ok(distance: real) | Err

  /** The distances `read_sonar` sends, in order: the successful measurements
      only. */
  function Sent(ms: seq<Measurement>): (sent: seq<real>)
    ensures |sent| <= |ms|
  {
    if ms == [] then []
    else Sent(ms[..|ms| - 1]) + (match ms[|ms| - 1] case Ok(d) => [d] case Err => [])
  }

  /** The number of failed measurements, which are only logged. */
  function Errors(ms: seq<Measurement>): nat
  {
    if ms == [] then 0
    else Errors(ms[..|ms| - 1]) + (if ms[|ms| - 1].Err? then 1 else 0)
  }

  /** Sending distributes over consecutive runs of measurements. */
  lemma {:induction false} SentAppend(a: seq<Measurement>, b: seq<Measurement>)
    ensures Sent(a + b) == Sent(a) + Sent(b)
  {
    if b != [] {
      assert (a + b)[..|a + b| - 1] == a + b[..|b| - 1];
      SentAppend(a, b[..|b| - 1]);
    } else {
      assert a + b == a;
    }
  }

  /** Every measurement is either sent or counted as an error. */
  lemma {:induction false} SentOrLogged(ms: seq<Measurement>)
    ensures |Sent(ms)| + Errors(ms) == |ms|
  {
    if ms != [] {
      SentOrLogged(ms[..|ms| - 1]);
    }
  }

  /** Every sent distance is the value of a successful measurement, and the
      sent distances keep the order of their measurements. */
  lemma {:induction false} SentAreOk(ms: seq<Measurement>, k: nat)
    requires k < |Sent(ms)|
    ensures exists i :: 0 <= i < |ms| && ms[i] == Ok(Sent(ms)[k]) && |Sent(ms[..i])| == k
  {
    var p := ms[..|ms| - 1];
    if k < |Sent(p)| {
      SentAreOk(p, k);
      var i :| 0 <= i < |p| && p[i] == Ok(Sent(p)[k]) && |Sent(p[..i])| == k;
      assert ms[..i] == p[..i];
      assert Sent(ms)[k] == Sent(p)[k];
    } else {
      var i := |ms| - 1;
      assert ms[..i] == p;
    }
  }

  /** Only failures: nothing is sent. Only successes: every distance is sent. */
  lemma {:induction false} SentExtremes(ms: seq<Measurement>)
    ensures (forall i :: 0 <= i < |ms| ==> ms[i].Err?) ==> Sent(ms) == []
    ensures (forall i :: 0 <= i < |ms| ==> ms[i].Ok?) ==>
              Sent(ms) == seq(|ms|, i requires 0 <= i < |ms| => ms[i].distance)
  {
    if ms != [] {
      var p := ms[..|ms| - 1];
      SentExtremes(p);
    }
  }

  /** `read_sonar` over a finite run of measurements: each `Ok` distance is
      sent, each `Err` is logged. */
  method ReadSonar(ms: seq<Measurement>) returns (sent: seq<real>, logged: nat)
    ensures sent == Sent(ms)
    ensures logged == Errors(ms)
    ensures |sent| + logged == |ms|
  {
    sent, logged := [], 0;
    for i := 0 to |ms|
      invariant sent == Sent(ms[..i])
      invariant logged == Errors(ms[..i])
    {
      assert ms[..i + 1][..i] == ms[..i];
      match ms[i] {
        case Ok(distance) =>
          sent := sent + [distance];
        case Err =>
          logged := logged + 1;
      }
    }
    assert ms[..|ms|] == ms;
    SentOrLogged(ms);
  }
}
