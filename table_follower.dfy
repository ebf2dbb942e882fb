/** The older table-driven follower: the three-sensor line position selects a
    turn angle, and the angle slows one of the two wheels. The conversion of
    a speed and an angle into a wheel speed (`angle_to_speed`, a cosine) is a
    parameter of the model. */
module TableFollower {
  import opened MotorDriver
  import opened LineSensorDriver

  /** The base wheel speed of this follower. */
  const BASE: I16 := 80

  /** `f32::consts::PI`, the single-precision value of pi, written exactly. */
  const PI: real := 3.1415927410125732421875

  /** The turn angle of each position as the table is written: `Lefter` and
      `Righter` both map to pi/4. */
  function TurnAngleAsWritten(p: LinePos): real
    requires !p.NoLine?
  {
    match p
    case Lefter => PI / 4.0
    case Left => PI / 12.0
    case Middle => 0.0
    case Right => -PI / 12.0
    case Righter => PI / 4.0
  }

  /** The turn angle of each position with `Righter` mirroring `Lefter`. */
  function TurnAngle(p: LinePos): real
    requires !p.NoLine?
  {
    match p
    case Lefter => PI / 4.0
    case Left => PI / 12.0
    case Middle => 0.0
    case Right => -PI / 12.0
    case Righter => -PI / 4.0
  }

  /** What one tick tells the motors. */
  datatype Command = Stop | Run(left: I16, right: I16)

  /** The wheel selection: a negative angle slows the left wheel, any other
      angle the right wheel; the other wheel keeps the base speed. */
  function Steer(angle: real, angleToSpeed: (real, real) -> I16): (c: Command)
  {
    if angle < 0.0 then Run(angleToSpeed(BASE as real, angle), BASE)
    else Run(BASE, angleToSpeed(BASE as real, angle))
  }

  /** One tick of `follow_line` as written. */
  function CommandAsWritten(p: LinePos, angleToSpeed: (real, real) -> I16): Command
  {
    if p.NoLine? then Stop else Steer(TurnAngleAsWritten(p), angleToSpeed)
  }

  /** One tick of `follow_line` with the corrected table. */
  function CommandFor(p: LinePos, angleToSpeed: (real, real) -> I16): Command
  {
    if p.NoLine? then Stop else Steer(TurnAngle(p), angleToSpeed)
  }

  /** No line stops both motors; any other position runs them, one wheel at
      exactly the base speed and the other at the converted speed of the
      turn angle, the left one exactly when the angle is negative. */
  lemma CommandShape(p: LinePos, angleToSpeed: (real, real) -> I16)
    ensures CommandFor(p, angleToSpeed).Stop? <==> p.NoLine?
    ensures !p.NoLine? ==>
              var c := CommandFor(p, angleToSpeed);
              var slowed := angleToSpeed(BASE as real, TurnAngle(p));
              (c.left == BASE || c.right == BASE) &&
              (TurnAngle(p) < 0.0 ==> c.left == slowed && c.right == BASE) &&
              (TurnAngle(p) >= 0.0 ==> c.left == BASE && c.right == slowed)
    ensures CommandAsWritten(p, angleToSpeed).Stop? <==> p.NoLine?
  {
  }

  /** As written only `Right` slows the left wheel; with the correction both
      right-hand positions do. */
  lemma NegativeAngles(p: LinePos)
    requires !p.NoLine?
    ensures TurnAngleAsWritten(p) < 0.0 <==> p == Right
    ensures TurnAngle(p) < 0.0 <==> p == Right || p == Righter
  {
  }

  /** The written table agrees with the corrected one everywhere but at
      `Righter`, where it produces the very command of `Lefter`. */
  lemma LefterRighterAlike(angleToSpeed: (real, real) -> I16)
    ensures CommandAsWritten(Righter, angleToSpeed) == CommandAsWritten(Lefter, angleToSpeed)
    ensures forall p: LinePos :: !p.NoLine? && p != Righter ==> TurnAngleAsWritten(p) == TurnAngle(p)
    ensures TurnAngleAsWritten(Righter) != TurnAngle(Righter)
  {
  }

  /** The two wheel speeds exchanged. */
  function Swap(c: Command): (d: Command)
    ensures d.Stop? <==> c.Stop?
  {
    match c
    case Stop => Stop
    case Run(l, r) => Run(r, l)
  }

  /** With a conversion that gives the same speed for opposite table angles
      and keeps the base speed at angle 0 (as a cosine does), the corrected
      table treats mirror-image positions symmetrically: the wheel speeds are
      exchanged. */
  lemma CommandMirror(p: LinePos, angleToSpeed: (real, real) -> I16)
    requires angleToSpeed(BASE as real, -(PI / 4.0)) == angleToSpeed(BASE as real, PI / 4.0)
    requires angleToSpeed(BASE as real, -(PI / 12.0)) == angleToSpeed(BASE as real, PI / 12.0)
    requires angleToSpeed(BASE as real, 0.0) == BASE
    ensures CommandFor(Mirror(p), angleToSpeed) == Swap(CommandFor(p, angleToSpeed))
  {
  }

  /** The loop body of `follow_line`: read the bar, then stop or run both
      motors. */
  method Tick(bar: TripleLineSensor, leftHigh: bool, middleHigh: bool, rightHigh: bool,
              left: Motor, right: Motor, angleToSpeed: (real, real) -> I16)
    returns (c: Command)
    requires left != right && left.Valid() && right.Valid()
    modifies left, right
    ensures c == CommandFor(Read(bar, leftHigh, middleHigh, rightHigh), angleToSpeed)
    ensures left.Valid() && right.Valid()
    ensures c.Stop? ==> left.Stopped() && right.Stopped()
    ensures c.Stop? ==> left.direction == old(left.direction) && right.direction == old(right.direction)
    ensures c.Run? ==> left.RanWith(c.left) && right.RanWith(c.right)
  {
    var pos := Read(bar, leftHigh, middleHigh, rightHigh);
    if pos.NoLine? {
      left.Stop();
      right.Stop();
      return Stop;
    }
    var angle := TurnAngle(pos);
    var leftSpeed, rightSpeed;
    if angle < 0.0 {
      leftSpeed, rightSpeed := angleToSpeed(BASE as real, angle), BASE;
    } else {
      leftSpeed, rightSpeed := BASE, angleToSpeed(BASE as real, angle);
    }
    left.Run(leftSpeed);
    right.Run(rightSpeed);
    c := Run(leftSpeed, rightSpeed);
  }
}
