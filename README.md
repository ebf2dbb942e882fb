# clumsy-stm-bot: a Dafny model of the robot's sensing, steering and actuation

The robot is a small two-wheeled line follower on an STM32 board, written in
Rust with the Embassy async runtime. This project models the arithmetic and the
decisions of its drivers and its steering loops:

- the H-bridge motor driver, with its direction pins and duty cycle (`motor.dfy`);
- the polarity-configurable line sensors and the three-sensor position table
  (`line_sensor.dfy`);
- the ultrasonic ranger's trigger pulse and its distance formula (`sonar.dfy`);
- the hobby-servo driver's duty arithmetic (`servo.dfy`);
- the five-sensor PID line follower that two binaries share (`steering.dfy`):
  - its obstacle-gated variant in `clumsy_tram.rs` (`clumsy_tram.dfy`);
  - its plain variant in `line_folower_pid_and_sensors.rs` (`pid_follower.dfy`);
- the older table-driven follower of `line_foloving_robot.rs` (`table_follower.dfy`).

Stateful parts are classes:
- `Motor` keeps its speed, direction, pin levels and duty as fields.
- `Servo` keeps its constant configuration and the last duty it wrote.
- `Sonar` keeps its pin levels and a ghost log of trigger levels.
- `LineFollower` keeps the PID integral and the previous deviation between ticks.

Each loop body is a `Tick` method. Each is proved against a pure specification
function (`Control`, `TramControl`, `PidControl`, `CommandFor`), and the
properties are lemmas about those functions.

Modelling conventions:
- `f32`/`f64` values are mathematical reals.
- Pin levels, measured instants and sonar results are inputs.
- Two conversions are function parameters:
  - the conversion of a real wheel speed into the `i16` that `Motor::run` takes;
  - `angle_to_speed`.
- The two PID binaries share one parameterised controller. They differ only in
  their gains (`TRAM_GAINS`, `PID_GAINS`) and in the base speed of a tick.

The wheel-speed bound `|left|, |right| <= speed * attenuation` is stated in
three parts:
- `Steering.ControlDrive` shows that a driving tick's outcome is
  `WheelSpeeds(speed, correction, attenuation)`.
- `Steering.WheelSpeedsBound` bounds `WheelSpeeds` for every correction.
- `Steering.AttenuationRange` and `Steering.DeviationRange` bound the
  attenuation.

## Model

| member | source | states |
|---|---|---|
| MotorDriver.DefaultDirection | src/drivers/motor.rs:5-10 | the default direction is `Forward` |
| MotorDriver.DirectionOf | src/drivers/motor.rs:65-71 | `run` chooses `Backward` exactly for a negative speed |
| MotorDriver.ClampedSpeed | src/drivers/motor.rs:64-75 | the stored magnitude is in 0..100, is 100 exactly when the input is at least 100 or at most -100, otherwise equals the input or its negation, and is 0 only for speed 0 |
| MotorDriver.AsU8 | src/drivers/motor.rs:82 | `as u8` keeps the value modulo 256 and lands in 0..255 |
| MotorDriver.WrapI16 | src/drivers/motor.rs:66 | the i16 wrap is congruent to its input modulo 2^16 and is the identity on i16 values |
| MotorDriver.RunSpeedAsWritten | src/drivers/motor.rs:64-75 | the stored speed computed as written: `speed * (-1)` wrapped to i16, then only the upper clamp |
| MotorDriver.AsWrittenAgreesAwayFromMin | src/drivers/motor.rs:64-83 | for every speed except `i16::MIN`, the written arithmetic and the `as u8` duty agree with the clamped magnitude |
| MotorDriver.AsWrittenAtMin | src/drivers/motor.rs:66 | at `i16::MIN` the negation wraps back to `i16::MIN`, the stored speed escapes the clamp and the duty becomes 0 instead of 100 |
| MotorDriver.Motor.constructor | src/drivers/motor.rs:27-41 | `new` stores the given speed and direction |
| MotorDriver.Motor.SetDir | src/drivers/motor.rs:43-46 | `set_dir` changes the direction and nothing else |
| MotorDriver.Motor.GetDir | src/drivers/motor.rs:48-50 | `get_dir` returns the direction and changes nothing |
| MotorDriver.Motor.GetSpeed | src/drivers/motor.rs:53-55 | `get_speed` returns the stored speed and changes nothing |
| MotorDriver.Motor.Stop | src/drivers/motor.rs:57-62 | `stop` leaves speed 0, duty 0, forward pin low and backward pin high, and keeps the direction |
| MotorDriver.Motor.Run | src/drivers/motor.rs:64-84 | `run(s)` leaves the direction of the sign of `s`, the clamped magnitude as speed, the matching pin pattern, and a duty equal to the speed |
| LineSensorDriver.New | src/drivers/line_sensor.rs:11-13 | `new` builds an active-high sensor |
| LineSensorDriver.NewInvert | src/drivers/line_sensor.rs:14-16 | `new_invert` builds an active-low sensor |
| LineSensorDriver.IsOnLine | src/drivers/line_sensor.rs:18-24 | `is_on_line`: the pin level, flipped for an inverted sensor |
| LineSensorDriver.IsOnLineIsXor | src/drivers/line_sensor.rs:18-24 | on-line is the pin level XOR the polarity flag: high for `new`, low for `new_invert` |
| LineSensorDriver.Readings | src/drivers/line_sensor.rs:18-24 | a bank of sensors reads, index by index, level XOR polarity |
| LineSensorDriver.DefaultLinePos | src/drivers/line_sensor.rs:27-36 | the default position is `NoLine` |
| LineSensorDriver.NewTriple | src/drivers/line_sensor.rs:51-57 | `TrippleLineSensor::new` builds three active-high sensors |
| LineSensorDriver.Classify | src/drivers/line_sensor.rs:60-89 | the decision table of `read` on the left, middle and right readings |
| LineSensorDriver.Read | src/drivers/line_sensor.rs:59-90 | `read` classifies the three polarity-corrected readings |
| LineSensorDriver.ClassifyPattern | src/drivers/line_sensor.rs:65-84 | each of `Lefter`, `Left`, `Middle`, `Right`, `Righter` comes from exactly its own pattern |
| LineSensorDriver.ClassifyNoLine | src/drivers/line_sensor.rs:85-88 | `NoLine` comes exactly from none on, all on, and both outer sensors without the middle one |
| LineSensorDriver.ClassifyMirror | src/drivers/line_sensor.rs:65-89 | swapping the left and right readings mirrors the position |
| SonarDriver.DistanceCm | src/drivers/sonar.rs:36 | the truncated distance `d` satisfies `d*20000 <= micros*343 < d*20000 + 20000`, so it never overestimates and is off by less than 1 cm |
| SonarDriver.DistanceMonotone | src/drivers/sonar.rs:36 | a longer echo never gives a shorter distance |
| SonarDriver.DistanceEdges | src/drivers/sonar.rs:36 | zero time gives 0 cm, and `u64::MAX / 343` microseconds is the exact limit before the product overflows |
| SonarDriver.Sonar.constructor | src/drivers/sonar.rs:15-20 | `new` stores the two pins as given |
| SonarDriver.Sonar.Trig | src/drivers/sonar.rs:22-28 | `trig` writes low, high, low to the trigger pin and leaves it low |
| SonarDriver.Sonar.Read | src/drivers/sonar.rs:29-38 | `read` pulses the trigger, drives the echo pin high and returns `DistanceCm` of the elapsed microseconds |
| ServoDriver.DutyOnZero | src/drivers/servo.rs:13 | the 0-degree duty is the truncated quotient of the maximum duty by twice the period |
| ServoDriver.DutyPerDegree | src/drivers/servo.rs:14-15 | the duty per degree times 90 is twice the 0-degree duty, and it is non-negative |
| ServoDriver.EffectiveAngle | src/drivers/servo.rs:27-29 | the angle is cut down to the maximum, with no lower clamp |
| ServoDriver.SatU16 | src/drivers/servo.rs:31 | the saturating `as u16` lands in 0..65535, is 0 exactly below 1, truncates in range and saturates above |
| ServoDriver.SatU16Monotone | src/drivers/servo.rs:31 | the saturating cast is monotone |
| ServoDriver.DutyAt | src/drivers/servo.rs:27-31 | the duty `set_angle` writes for an angle |
| ServoDriver.DutyAtNonPositive | src/drivers/servo.rs:27-31 | a zero or negative angle writes exactly the 0-degree duty |
| ServoDriver.DutyAtSaturates | src/drivers/servo.rs:27-31 | every angle beyond the maximum writes the duty of the maximum |
| ServoDriver.Servo.constructor | src/drivers/servo.rs:12-22 | `new` stores the 0-degree duty, the duty per degree and the maximum angle |
| ServoDriver.Servo.SetAngle | src/drivers/servo.rs:24-34 | `set_angle` writes exactly one duty, the clamped and cast angle duty plus the 0-degree duty, and keeps the configuration |
| Steering.FiveSensorBar | src/bin/clumsy_tram.rs:125-131 | the outer two sensors of the five are active-low, the inner three active-high |
| Steering.Clamp | src/bin/clumsy_tram.rs:224 | `clamp` lands in the range and is the identity inside it |
| Steering.CountOn | src/bin/clumsy_tram.rs:199-206 | the number of active sensors is at most the number of sensors |
| Steering.IndexSumBound | src/bin/clumsy_tram.rs:199-206 | the index sum of at most five sensors is at most 4 times the number active |
| Steering.IndexSum | src/bin/clumsy_tram.rs:199-206 | the sum of the indices of the active sensors: 0 when none is active, and at least every active index |
| Steering.CountOnAll | src/bin/clumsy_tram.rs:199-208 | the count of active sensors reaches the number of sensors exactly when every sensor is active |
| Steering.AllActive | src/bin/clumsy_tram.rs:208 | the halt condition `activated == 5` holds exactly when every sensor is active |
| Steering.DeviationRange | src/bin/clumsy_tram.rs:215-219 | the deviation stays in [-2, 2] and is the previous one when no sensor is active |
| Steering.CentredDeviation | src/bin/clumsy_tram.rs:218 | only the middle sensor active gives deviation 0 |
| Steering.Deviation | src/bin/clumsy_tram.rs:215-219 | the previous deviation with no sensor active, else 2 minus the mean active index |
| Steering.Attenuation | src/bin/clumsy_tram.rs:230 | one minus KA times the magnitude of the deviation |
| Steering.Correction | src/bin/clumsy_tram.rs:226-228 | the PID correction of a deviation, an integral and the previous deviation |
| Steering.WheelSpeeds | src/bin/clumsy_tram.rs:231-233 | the wheel commands of a tick always drive |
| Steering.WheelSpeedsBound | src/bin/clumsy_tram.rs:231-233 | for every correction both wheel commands are within base speed times a non-negative attenuation |
| Steering.Control | src/bin/clumsy_tram.rs:198-235 | one tick: halt with the state kept when all sensors are active, else the PID update and the attenuated wheel speeds |
| Steering.ControlHalts | src/bin/clumsy_tram.rs:208-213 | a tick halts exactly when all five sensors are active, and then the state is kept |
| Steering.ControlState | src/bin/clumsy_tram.rs:215-235 | a completed tick stores its deviation, bounds the integral by the tick speed and keeps the previous deviation in [-2, 2] |
| Steering.AttenuationRange | src/bin/clumsy_tram.rs:230 | for deviations in [-2, 2] the attenuation lies in [1 - 2 KA, 1] and is non-negative |
| Steering.ControlDrive | src/bin/clumsy_tram.rs:224-233 | a tick that does not halt drives the wheels with the PID correction and the attenuation of its deviation |
| Steering.CentredDrivesStraight | src/bin/clumsy_tram.rs:224-233 | a settled controller that sees only the middle sensor drives both wheels at the base speed |
| Steering.IntegralSaturates | src/bin/clumsy_tram.rs:224 | the integral stays at the speed limit under a non-negative deviation |
| Steering.LineFollower.constructor | src/bin/clumsy_tram.rs:175-177 | the controller starts with integral 0 and previous deviation 0 |
| Steering.LineFollower.Scan | src/bin/clumsy_tram.rs:199-206 | the sensor loop returns the count of active sensors and the sum of their indices |
| Steering.LineFollower.Step | src/bin/clumsy_tram.rs:198-235 | one PID tick updates the state and returns the outcome exactly as `Control` specifies, and keeps the state bounds |
| Steering.Actuate | src/bin/clumsy_tram.rs:237-239 | a halt stops both motors with their directions kept; a drive runs each motor with the converted wheel speed |
| ClumsyTram.TickSpeed | src/bin/clumsy_tram.rs:193-196 | the tick speed is 100, or 100/1.2 exactly when the distance is in (6, 7.2] |
| ClumsyTram.TramControl | src/bin/clumsy_tram.rs:179-240 | one tram tick: halt with the state kept on an obstacle, else the PID tick at the tick speed |
| ClumsyTram.ObstacleHalts | src/bin/clumsy_tram.rs:183-192 | a distance of at most 6 cm halts with the state unchanged, whatever the sensors read |
| ClumsyTram.TramHalts | src/bin/clumsy_tram.rs:183-213 | the tram halts exactly on an obstacle or with all sensors active, and a halt keeps the state |
| ClumsyTram.TramKeepsSettled | src/bin/clumsy_tram.rs:175-235 | every tick keeps the previous deviation in [-2, 2] and the integral in [-100, 100]; a completed tick bounds the integral by its own speed |
| ClumsyTram.TramAttenuation | src/bin/clumsy_tram.rs:230 | with KA = 0.082 the attenuation lies in [0.836, 1] |
| ClumsyTram.Tick | src/bin/clumsy_tram.rs:179-240 | one loop pass over the five sensors as wired updates the controller and the motors exactly as `TramControl` specifies |
| ClumsyTram.Sent | src/bin/clumsy_tram.rs:244-257 | `read_sonar` sends at most as many distances as it measures |
| ClumsyTram.Errors | src/bin/clumsy_tram.rs:253 | the number of failed measurements |
| ClumsyTram.SentAppend | src/bin/clumsy_tram.rs:244-257 | the sent distances of consecutive runs concatenate |
| ClumsyTram.SentOrLogged | src/bin/clumsy_tram.rs:248-254 | every measurement is either sent or logged |
| ClumsyTram.SentAreOk | src/bin/clumsy_tram.rs:248-254 | every sent distance is an `Ok` measurement, and sent distances keep the order of their measurements |
| ClumsyTram.SentExtremes | src/bin/clumsy_tram.rs:248-254 | only failures send nothing; only successes send every distance |
| ClumsyTram.ReadSonar | src/bin/clumsy_tram.rs:244-258 | the loop sends exactly `Sent` and logs exactly the failures |
| PidFollower.PidControl | src/bin/line_folower_pid_and_sensors.rs:118-175 | one tick of the shared controller with this binary's gains at speed 100 |
| PidFollower.PidKeepsBounds | src/bin/line_folower_pid_and_sensors.rs:115-170 | the previous deviation stays in [-2, 2] and the integral in [-100, 100]; a completed tick stores its deviation; all sensors active halts with the state kept |
| PidFollower.PidAttenuation | src/bin/line_folower_pid_and_sensors.rs:165 | with KA = 0.004 the attenuation lies in [0.992, 1] |
| PidFollower.Tick | src/bin/line_folower_pid_and_sensors.rs:118-175 | one loop pass over the five sensors as wired updates the controller and the motors exactly as `PidControl` specifies |
| TableFollower.TurnAngleAsWritten | src/bin/line_foloving_robot.rs:95-106 | the angle table as written |
| TableFollower.TurnAngle | src/bin/line_foloving_robot.rs:101-105 | the angle table with `Righter` at -pi/4 |
| TableFollower.Steer | src/bin/line_foloving_robot.rs:108-112 | the wheel selection for an angle |
| TableFollower.CommandAsWritten | src/bin/line_foloving_robot.rs:95-112 | one tick as written |
| TableFollower.CommandFor | src/bin/line_foloving_robot.rs:95-112 | one tick with the corrected table |
| TableFollower.CommandShape | src/bin/line_foloving_robot.rs:95-112 | no line stops; otherwise one wheel is at exactly 80, and the left wheel is slowed exactly when the angle is negative |
| TableFollower.NegativeAngles | src/bin/line_foloving_robot.rs:101-105 | as written only `Right` has a negative angle; corrected, `Right` and `Righter` do |
| TableFollower.LefterRighterAlike | src/bin/line_foloving_robot.rs:101-112 | as written `Righter` issues the same command as `Lefter`, and only its angle differs from the corrected table |
| TableFollower.CommandMirror | src/bin/line_foloving_robot.rs:101-112 | with the corrected table, mirror-image positions issue commands with the wheels exchanged |
| TableFollower.Tick | src/bin/line_foloving_robot.rs:91-115 | one loop pass stops both motors on no line, otherwise runs them with the command of the position |

## Left out

- The Embassy executors, the interrupt-driven executor, task spawning and the capacity-1 channel between `read_sonar` and `follow_line`. The tram's tick takes the received distance as an input.
- Timers and delays, including the 2 µs waits of `trig`, the 6 ms measurement cycle and the tick delays.
- Peripheral setup (`SimplePwm`, `PwmPin`, `ExtiInput`, pin construction). Pins and PWM outputs are modelled only by the values last written to them.
- The `hcsr04_async` measurement. `read_sonar` consumes a given sequence of `Ok(distance)`/`Err` results.
- The awaits of `Sonar::read` (`wait_for_high`, `Instant::now`). The two instants are inputs.
- `angle_to_speed` (`speed * cosf(angle)` cast to `i16`) is a function parameter.
- Floating-point rounding: reals stand in for `f32`/`f64`, and the `f32` constants are their decimal values.
- The PID binaries hand an `f32` to `Motor::run`, which takes an `i16`, and `0.0` to `Motor::new`. The conversion is a function parameter, and the motors' initial state is a constructor argument.
- The table follower imports a crate and a module that the library does not declare. Its logic is modelled as if they resolved to `TrippleLineSensor`, `Motor` and `angle_to_speed`.
- Errors from `set_duty_cycle` and the pin writes, which the source unwraps or discards. They are assumed not to occur.
- The LED blink tasks, `semafor.rs`, the demo binaries, `sonar_prepare.rs`, `src/lib.rs` and the placeholder tests.
- The scan-and-decide obstacle avoidance, which has no code in the repository.
- ServoDriver.DutyOnZero: `period * 2` is computed in `u8`, so periods outside 1..127 overflow or divide by zero. These are excluded by a precondition rather than modelled, and `duty_on_zero * 3` (`ServoDriver.DutyPerDegree`, the `Servo` constructor) is required to fit in `u16`; its overflow is not modelled either.
- ServoDriver.Servo.SetAngle: the `u16` sum of the cast angle duty and the 0-degree duty is required not to overflow. The overflow itself is not modelled.
- ServoDriver.DutyAt: monotonicity of the duty in the angle is not stated.
- SonarDriver.DistanceCm: `micros * 343` is required to fit in `u64`. The `u64` overflow itself is not modelled.
- Steering.WheelSpeedsBound: the bound on both wheels is stated for `WheelSpeeds`, and `Steering.ControlDrive` links it to a tick. There is no single lemma about `Control`.
- TableFollower.Tick: it uses the corrected angle table (see Findings).

## Findings

| source | as written | input that shows it | evidently intended | confidence | as-written member | corrected member |
|---|---|---|---|---|---|---|
| src/drivers/motor.rs:66 | `self.speed = speed * (-1)` in `i16` | `run(-32768)`: the product overflows. A build without overflow checks stores -32768, which passes the `> 100` clamp, and `as u8` gives duty 0 with the backward pin high. A debug build panics | full reverse at duty 100, like every other speed below -100 | high; not executed | MotorDriver.AsWrittenAtMin | MotorDriver.Motor.Run |
| src/bin/line_foloving_robot.rs:105 | `LinePos::Righter => PI / 4.0` | right sensor only, i.e. `Righter`: the command equals that of `Lefter` (left 80, right `angle_to_speed(80, pi/4)`), so the robot turns the same way for a line at either outer sensor | `-PI / 4.0`, mirroring `Lefter` as `Right` mirrors `Left` | medium; not executed | TableFollower.LefterRighterAlike | TableFollower.CommandMirror |
