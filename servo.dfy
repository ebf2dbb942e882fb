/** The hobby-servo driver: a PWM channel whose duty cycle encodes the angle.
    The constructor derives the duty at 0 degrees and the duty per degree from
    the PWM period and its maximum duty; `set_angle` writes one duty value. */
module ServoDriver {

  const U8_MAX: int := 0xFF
  const U16_MAX: int := 0xFFFF

  /** `max_duty / (period * 2) as u16`: the duty of the 0-degree pulse. The
      product `period * 2` is taken in `u8`, so it is only meaningful (neither
      overflowing nor zero) for periods 1..127. */
  function DutyOnZero(period: nat, maxDuty: nat): (dz: nat)
    requires 1 <= period && period * 2 <= U8_MAX
    requires maxDuty <= U16_MAX
    ensures dz * (period * 2) <= maxDuty < dz * (period * 2) + period * 2
  {
    DivisionBounds(maxDuty, period * 2, maxDuty / (period * 2));
    maxDuty / (period * 2)
  }

  /** Truncating division leaves a remainder in [0, divisor). */
  lemma DivisionBounds(n: nat, divisor: nat, q: nat)
    requires divisor > 0 && q == n / divisor
    ensures q * divisor <= n < q * divisor + divisor
  {
  }

  /** `(duty_on_90 - duty_on_zero) as f32 / 90.0` with `duty_on_90 = duty_on_zero * 3`:
      the pulse widens by two 0-degree widths over 90 degrees. */
  function DutyPerDegree(dz: nat): (dpd: real)
    requires dz * 3 <= U16_MAX
    ensures dpd * 90.0 == (2 * dz) as real
    ensures dpd >= 0.0
  {
    var dutyOn90 := dz * 3;
    (dutyOn90 - dz) as real / 90.0
  }

  /** `set_angle`'s clamp: angles above the maximum are cut down to it;
      there is no lower clamp. */
  function EffectiveAngle(angle: real, maxAngle: real): (a: real)
    ensures a <= maxAngle && a <= angle
    ensures a == angle || a == maxAngle
  {
    if angle > maxAngle then maxAngle else angle
  }

  /** Rust's saturating `f32 as u16`: truncation toward zero, negatives give
      0 and values past the top give `u16::MAX`. */
  function SatU16(x: real): (r: int)
    ensures 0 <= r <= U16_MAX
    ensures r == 0 <==> x < 1.0
    ensures 1.0 <= x < (U16_MAX + 1) as real ==> r as real <= x < r as real + 1.0
    ensures x >= U16_MAX as real ==> r == U16_MAX
  {
    if x < 1.0 then 0 else if x >= U16_MAX as real then U16_MAX else x.Floor
  }

  lemma SatU16Monotone(x: real, y: real)
    requires x <= y
    ensures SatU16(x) <= SatU16(y)
  {
  }

  /** The duty `set_angle` writes for a requested angle: `(duty_per_degree *
      angle) as u16 + duty_on_zero` after the clamp; the `u16` sum is assumed
      not to overflow. */
  function DutyAt(dz: nat, dpd: real, maxAngle: real, angle: real): int
  {
    SatU16(dpd * EffectiveAngle(angle, maxAngle)) + dz
  }

  /** Zero or negative angles give the 0-degree duty, since the cast saturates. */
  lemma DutyAtNonPositive(dz: nat, dpd: real, maxAngle: real, angle: real)
    requires dpd >= 0.0 && angle <= 0.0
    ensures DutyAt(dz, dpd, maxAngle, angle) == dz
  {
    var a := EffectiveAngle(angle, maxAngle);
    assert a <= 0.0;
    assert dpd * a <= 0.0;
  }

  /** Nothing past the maximum angle changes the duty. */
  lemma DutyAtSaturates(dz: nat, dpd: real, maxAngle: real, angle: real)
    requires angle >= maxAngle
    ensures DutyAt(dz, dpd, maxAngle, angle) == DutyAt(dz, dpd, maxAngle, maxAngle)
  {
  }

  class Servo {
    const dutyOnZero: nat
    const dutyPerDegree: real
    const maxAngle: real
    /** The last duty value written to the PWM output. */
    var duty: int
    /** Every duty value written to the PWM output, oldest first. */
    ghost var dutyLog: seq<int>

    /** `Servo::new`. */
    constructor (period: nat, maxAngleDeg: real, maxDuty: nat, initialDuty: int)
      requires 1 <= period && period * 2 <= U8_MAX
      requires maxDuty <= U16_MAX
      requires DutyOnZero(period, maxDuty) * 3 <= U16_MAX
      ensures dutyOnZero == DutyOnZero(period, maxDuty)
      ensures dutyPerDegree == DutyPerDegree(dutyOnZero)
      ensures maxAngle == maxAngleDeg
      ensures duty == initialDuty && dutyLog == []
    {
      var dz := maxDuty / (period * 2);
      var dutyOn90 := dz * 3;
      dutyOnZero := dz;
      dutyPerDegree := (dutyOn90 - dz) as real / 90.0;
      maxAngle := maxAngleDeg;
      duty := initialDuty;
      dutyLog := [];
    }

    /** `set_angle`: exactly one duty write; the configuration is constant. */
    method SetAngle(angle: real)
      requires SatU16(dutyPerDegree * EffectiveAngle(angle, maxAngle)) + dutyOnZero <= U16_MAX
      modifies this`duty, this`dutyLog
      ensures duty == DutyAt(dutyOnZero, dutyPerDegree, maxAngle, angle)
      ensures dutyLog == old(dutyLog) + [duty]
    {
      var a := angle;
      if a > maxAngle {
        a := maxAngle;
      }
      var dutyOnTheDegree := SatU16(dutyPerDegree * a) + dutyOnZero;
      duty := dutyOnTheDegree;
      dutyLog := dutyLog + [dutyOnTheDegree];
    }
  }
}
