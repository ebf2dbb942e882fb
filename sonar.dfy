/** The ultrasonic ranger driver: a trigger pulse on one pin, then the time
    until the echo pin goes high is turned into centimetres. The clock and the
    waits are external; the instants read before and after are inputs. */
module SonarDriver {

  const U64_MAX: int := 0xFFFF_FFFF_FFFF_FFFF

  /** Speed of sound used by the driver, in units of 10^-4 cm per microsecond. */
  const SOUND_SPEED: nat := 343

  /** The distance formula of `Sonar::read`: `(micros * 343 / 10000) / 2`, both
      divisions truncating, computed in `u64`. */
  function DistanceCm(micros: nat): (d: nat)
    requires micros * SOUND_SPEED <= U64_MAX
    ensures d * 20000 <= micros * SOUND_SPEED < d * 20000 + 20000
  {
    var scaled := micros * SOUND_SPEED / 10000;
    assert scaled * 10000 <= micros * SOUND_SPEED < scaled * 10000 + 10000;
    scaled / 2
  }

  /** A longer echo never gives a shorter distance. */
  lemma DistanceMonotone(a: nat, b: nat)
    requires a <= b && b * SOUND_SPEED <= U64_MAX
    ensures DistanceCm(a) <= DistanceCm(b)
  {
    var da, db := DistanceCm(a), DistanceCm(b);
    assert a * SOUND_SPEED <= b * SOUND_SPEED;
    assert da * 20000 < db * 20000 + 20000;
  }

  /** No elapsed time gives no distance, and the largest elapsed time without
      overflow is exactly u64::MAX / 343 microseconds. */
  lemma DistanceEdges()
    ensures DistanceCm(0) == 0
    ensures (U64_MAX / SOUND_SPEED) * SOUND_SPEED <= U64_MAX
    ensures (U64_MAX / SOUND_SPEED + 1) * SOUND_SPEED > U64_MAX
  {
  }

  /** The trigger pin and the echo pin, by their last written levels; the
      ghost log records every level written to the trigger pin. */
  class Sonar {
    var trigHigh: bool
    var echoHigh: bool
    ghost var trigLog: seq<bool>

    constructor (trigLevel: bool, echoLevel: bool)
      ensures trigHigh == trigLevel && echoHigh == echoLevel && trigLog == []
    {
      trigHigh, echoHigh := trigLevel, echoLevel;
      trigLog := [];
    }

    /** `trig`: low, high, low, with 2 microsecond delays in between. */
    method Trig()
      modifies this`trigHigh, this`trigLog
      ensures trigLog == old(trigLog) + [false, true, false]
      ensures !trigHigh
    {
      trigHigh := false;
      trigLog := trigLog + [false];
      trigHigh := true;
      trigLog := trigLog + [true];
      trigHigh := false;
      trigLog := trigLog + [false];
    }

    /** `read`: `before` and `after` are the microsecond instants taken before
        the trigger pulse and after the echo pin was seen high. */
    method Read(before: nat, after: nat) returns (d: nat)
      requires before <= after <= U64_MAX
      requires (after - before) * SOUND_SPEED <= U64_MAX
      modifies this
      ensures trigLog == old(trigLog) + [false, true, false]
      ensures !trigHigh && echoHigh
      ensures d == DistanceCm(after - before)
      ensures d * 20000 <= (after - before) * SOUND_SPEED
    {
      Trig();
      echoHigh := true;
      var duration := after - before;
      d := (duration * SOUND_SPEED / 10000) / 2;
    }
  }
}
