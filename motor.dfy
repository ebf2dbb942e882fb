/** The H-bridge motor driver: one PWM channel for the duty cycle and two
    direction pins. A signed speed is split into a direction and a magnitude
    that is clamped to 100 percent. */
module MotorDriver {

  const I16_MIN: int := -0x8000
  const I16_MAX: int := 0x7FFF

  /** A Rust `i16`. */
  type I16 = x: int | I16_MIN <= x <= I16_MAX

  /** The largest duty-cycle percent `run` writes. */
  const MAX_SPEED: int := 100

  datatype Direction = Forward | Backward

  /** `Direction` derives `Default` with `Forward` marked as the default. */
  function DefaultDirection(): (d: Direction)
    ensures d != Backward
  {
    Forward
  }

  /** The direction `run` chooses for a signed speed. */
  function DirectionOf(s: int): (d: Direction)
    ensures d == Backward <==> s < 0
  {
    if s < 0 then Backward else Forward
  }

  /** The magnitude `run` stores: |s| capped at 100. */
  function ClampedSpeed(s: int): (r: int)
    ensures 0 <= r <= MAX_SPEED
    ensures r == MAX_SPEED <==> (s >= MAX_SPEED || s <= -MAX_SPEED)
    ensures r < MAX_SPEED ==> r == s || r == -s
    ensures r == 0 <==> s == 0
  {
    var magnitude := if s < 0 then -s else s;
    if magnitude > MAX_SPEED then MAX_SPEED else magnitude
  }

  /** Rust's `x as u8` on an integer: keeps the low byte (two's complement). */
  function AsU8(x: int): (r: int)
    ensures 0 <= r < 0x100
    ensures (r - x) % 0x100 == 0
  {
    x % 0x100
  }

  /** Rust's wrapping of an integer result into `i16`, as a build without
      overflow checks computes it. */
  function WrapI16(x: int): (r: I16)
    ensures (r - x) % 0x1_0000 == 0
    ensures I16_MIN <= x <= I16_MAX ==> r == x
  {
    (x - I16_MIN) % 0x1_0000 + I16_MIN
  }

  /** The speed field `run` stores, computed the way the source writes it:
      `speed * (-1)` in `i16` arithmetic, then the upper clamp only. */
  function RunSpeedAsWritten(s: I16): (r: I16)
  {
    var stored := if s < 0 then WrapI16(s * -1) else s;
    if stored > MAX_SPEED then MAX_SPEED else stored
  }

  /** Away from `i16::MIN` the source's arithmetic agrees with the clamp. */
  lemma AsWrittenAgreesAwayFromMin(s: I16)
    requires s != I16_MIN
    ensures RunSpeedAsWritten(s) == ClampedSpeed(s)
    ensures AsU8(RunSpeedAsWritten(s)) == ClampedSpeed(s)
  {
    if s < 0 {
      assert -s <= I16_MAX;
      assert WrapI16(s * -1) == -s;
    }
  }

  /** At `i16::MIN` the negation wraps back to `i16::MIN`: the stored speed is
      negative, it escapes the upper clamp, and `as u8` turns it into a duty of
      0 percent, so full reverse becomes a standstill with the backward pin
      high. */
  lemma AsWrittenAtMin()
    ensures WrapI16(I16_MIN * -1) == I16_MIN
    ensures RunSpeedAsWritten(I16_MIN) == I16_MIN
    ensures AsU8(RunSpeedAsWritten(I16_MIN)) == 0
    ensures ClampedSpeed(I16_MIN) == MAX_SPEED
  {
  }

  /** The two direction pins of the H-bridge and the PWM duty cycle are
      modelled by their last written values; the `pwm_pin`, `forward_pin` and
      `backward_pin` handles themselves are these fields. */
  class Motor {
    var speed: int
    var direction: Direction
    var forwardHigh: bool
    var backwardHigh: bool
    /** Duty cycle in percent; `set_duty_cycle_fully_off` writes 0. */
    var duty: int

    ghost predicate Valid()
      reads this
    {
      I16_MIN <= speed <= I16_MAX && 0 <= duty <= 100
    }

    /** The pin pattern `run` drives for a direction. */
    ghost predicate PinsFor(d: Direction)
      reads this
    {
      match d
      case Forward => forwardHigh && !backwardHigh
      case Backward => !forwardHigh && backwardHigh
    }

    /** The state `run(s)` leaves behind. */
    ghost predicate RanWith(s: int)
      reads this
    {
      direction == DirectionOf(s) && speed == ClampedSpeed(s) &&
      PinsFor(direction) && duty == speed
    }

    /** The state `stop` leaves behind (direction aside). */
    ghost predicate Stopped()
      reads this
    {
      speed == 0 && duty == 0 && !forwardHigh && backwardHigh
    }

    /** `Motor::new` only stores what it is given; the pin levels and the duty
        are those the caller configured on the handles. */
    constructor (forwardLevel: bool, backwardLevel: bool, initialDuty: int, s: I16, d: Direction)
      requires 0 <= initialDuty <= 100
      ensures Valid()
      ensures speed == s && direction == d
      ensures forwardHigh == forwardLevel && backwardHigh == backwardLevel && duty == initialDuty
    {
      speed := s;
      direction := d;
      forwardHigh, backwardHigh := forwardLevel, backwardLevel;
      duty := initialDuty;
    }

    method SetDir(d: Direction)
      modifies this`direction
      ensures direction == d
    {
      direction := d;
    }

    method GetDir() returns (d: Direction)
      ensures d == direction
    {
      d := direction;
    }

    method GetSpeed() returns (s: I16)
      requires Valid()
      ensures s == speed
    {
      s := speed;
    }

    method Stop()
      requires Valid()
      modifies this
      ensures Valid() && Stopped()
      ensures direction == old(direction)
    {
      speed := 0;
      duty := 0;
      forwardHigh, backwardHigh := false, true;
    }

    /** `run` with the magnitude taken in unbounded arithmetic, so that
        `i16::MIN` clamps to 100 like every other speed below -100. */
    method Run(s: I16)
      requires Valid()
      modifies this
      ensures Valid() && RanWith(s)
    {
      if s < 0 {
        speed := s * -1;
        SetDir(Backward);
      } else {
        SetDir(Forward);
        speed := s;
      }
      if speed > MAX_SPEED {
        speed := MAX_SPEED;
      }
      match direction {
        case Forward =>
          forwardHigh, backwardHigh := true, false;
        case Backward =>
          forwardHigh, backwardHigh := false, true;
      }
      duty := AsU8(speed);
    }
  }
}
