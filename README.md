# Servo deck driver — Dafny model

A model of the servo driver of the Crazyflie firmware (`src/drivers/src/servo.c`).
The driver turns a signed commanded angle into the compare value of a PWM timer
channel that drives a hobby servo:

* `saturateAngle` clamps the signed relative angle to `[-SERVO_ANGLE_LIMIT, SERVO_ANGLE_LIMIT]`
  and shifts it by `SERVO_ANGLE_ZERO` into an unsigned absolute angle;
* `servoSetAngle` interpolates a pulse length between 0.5 ms (angle 0) and
  2.5 ms (angle 180), scales it by `SERVO_PWM_PERIOD * SERVO_PWM_FREQUENCY_HZ`,
  truncates it and writes it to the compare register;
* `servoInit` is guarded by the static flag `isInit`: the first call configures
  the peripheral, writes compare value 0, starts the timer, moves the servo to
  the zero angle and sets the flag; later calls do nothing;
* `servoTest` reports the flag;
* `servoAngleCallBack` runs after the parameter registry writes the byte
  parameter `servo.servoAngle`, which is stored in the `int8_t` variable
  `s_servo_angle`; bytes 128..255 therefore read back as negative angles.

Two modules:

* `ServoMath` (`servo_math.dfy`) — the pure part: `int8_t`/`uint8_t` as subset
  types, the header constants as a `Config` value with the relations they must
  satisfy, `SaturateAngle`, `PulseLengthMs`, `CompareValue` and their lemmas.
  The constants of `servo.h` are parameters (that header is not part of this
  model): `ValidAngles` asks `0 <= LIMIT <= ZERO` and `ZERO + LIMIT <= 255`, so
  the `uint8_t` result never wraps; `ValidPwm` asks a positive period and
  frequency and a non-negative prescaler. The `double` arithmetic is modelled
  over exact reals; the `(uint32_t)` cast, which truncates, is `.Floor`.
* `Servo` (`servo_driver.dfy`) — the driver state as a class `Driver` with the
  fields `isInit`, `servoAngle` (`s_servo_angle`), `compare` (the timer's
  compare register) and a ghost `trace` of peripheral events
  (`Configured`, `CompareWritten`, `TimerStarted`) in the order the driver
  issues them. `Writes`, `Configurations` and `LastWrite` read the trace; the
  class invariant `Valid` says that the hardware has been configured exactly
  once when `isInit` holds and never otherwise, and that the register holds the
  last value written.

Three facts about the code that a reader might expect otherwise:

* the compare value is quantised: each degree is worth `PERIOD * FREQ / 90000`
  timer ticks, so below one tick per degree neighbouring angles can share a
  compare value (`TruncationMergesAngles` gives angles 0 and 1 both at 25 with
  PERIOD 1000 and FREQ 50) — rounding instead of the truncating cast would merge
  neighbours as well (angles 1 and 2 give 25.56 and 26.11 ticks, both round to
  26); at one tick per degree or more the value is strictly increasing
  (`CompareValueStrictlyIncreasing`);
* the saturated angle is shifted by `SERVO_ANGLE_ZERO`, a constant of its own,
  not by the limit; the range is `[ZERO - LIMIT, ZERO + LIMIT]`;
* the commanded angle is an `int8_t`, so commands such as +150 or -150 cannot
  be stored; through the byte parameter, 150 reads back as -106.

## Model

| member | source | states |
|---|---|---|
| `ServoMath.AsInt8` | src/drivers/src/servo.c:57 | a stored byte reads back through the `int8_t` variable as the unique value in -128..127 congruent to it modulo 256, negative exactly for bytes 128..255 |
| `ServoMath.ByteReinterpretRoundTrip` | src/drivers/src/servo.c:169 | storing a byte and reading it through `int8_t` loses nothing, in both directions |
| `ServoMath.SaturateAngle` | src/drivers/src/servo.c:135-146 | result within `[ZERO - LIMIT, ZERO + LIMIT]` with no `uint8_t` wrap; `angle + ZERO` inside the window, `ZERO + LIMIT` above it, `ZERO - LIMIT` below it |
| `ServoMath.SaturateIsShiftedClamp` | src/drivers/src/servo.c:135-146 | saturateAngle equals an independent clamp to `[-LIMIT, LIMIT]` followed by the shift by ZERO |
| `ServoMath.SignTestNeverSeesZero` | src/drivers/src/servo.c:137-140 | the out-of-range branch is never entered with angle 0, and its sign test picks the bound on the angle's side |
| `ServoMath.SaturateZeroIsCentre` | src/drivers/src/servo.c:142-144 | a zero command saturates to `SERVO_ANGLE_ZERO` |
| `ServoMath.SaturateMonotone` | src/drivers/src/servo.c:135-146 | saturateAngle is monotone non-decreasing |
| `ServoMath.PulseLengthMs` | src/drivers/src/servo.c:127 | the pulse is at least 0.5 ms, exactly 0.5 ms at angle 0, exactly 2.5 ms at angle 180, at most 2.5 ms up to 180 |
| `ServoMath.PulseLengthStrictlyIncreasing` | src/drivers/src/servo.c:127 | the pulse length is strictly increasing in the angle |
| `ServoMath.CompareValue` | src/drivers/src/servo.c:128-129 | the pulse length in seconds times PERIOD times FREQ, truncated, is the non-negative integer `(angle + 45) * PERIOD * FREQ / 90000` |
| `ServoMath.TruncatedPulseProduct` | src/drivers/src/servo.c:127-129 | the floor of the exact real product of lines 127-129 equals that integer quotient and is never negative |
| `ServoMath.CompareValueMonotone` | src/drivers/src/servo.c:127-129 | the compare value is non-decreasing in the angle |
| `ServoMath.CompareValueStrictlyIncreasing` | src/drivers/src/servo.c:127-129 | with at least one tick per degree (`PERIOD * FREQ >= 90000`) the compare value is strictly increasing in the angle |
| `ServoMath.CompareValueEndpoints` | src/drivers/src/servo.c:127-129 | angle 0 gives `PERIOD * FREQ / 2000` (0.5 ms), angle 180 gives `PERIOD * FREQ / 400` (2.5 ms) |
| `ServoMath.CompareValueWithinPeriod` | src/drivers/src/servo.c:127-129 | for angles up to 180 and frequencies up to 400 Hz the compare value does not exceed the timer period |
| `ServoMath.TruncationMergesAngles` | src/drivers/src/servo.c:129 | with PERIOD 1000 and FREQ 50, angles 0 and 1 have different pulse lengths but the same compare value 25 |
| `Servo.BringUp` | src/drivers/src/servo.c:70-112 | the bring-up sequence configures the hardware exactly once, writes exactly the compare values 0 and then that of `SERVO_ANGLE_ZERO`, and leaves the register at the latter |
| `Servo.BringUpEffects` | src/drivers/src/servo.c:106-112 | under the header constraints the bring-up writes 0 then the centre value, and its last write equals what a zero command produces through saturateAngle |
| `Servo.Driver.constructor` | src/drivers/src/servo.c:52-57 | power-on state: not initialised, angle 0, register at 0, nothing done to the peripheral |
| `Servo.Driver.SetCompare` | src/drivers/src/servo.c:130 | one register write appended to the trace and to the write log, the register holds it, no configuration, flag and angle untouched, class invariant kept |
| `Servo.Driver.SetAngle` | src/drivers/src/servo.c:122-133 | exactly one compare write, of `CompareValue(angle)`, the register holds it, and no other state change; class invariant kept |
| `Servo.Driver.Init` | src/drivers/src/servo.c:59-115 | when initialised, nothing changes; otherwise the trace grows by configure, write 0, timer start, write of the centre value, then the flag is set; afterwards the hardware has been configured exactly once |
| `Servo.Driver.Test` | src/drivers/src/servo.c:117-120 | returns `isInit` and changes nothing |
| `Servo.Driver.AngleCallBack` | src/drivers/src/servo.c:148-151 | one compare write of `CompareValue(SaturateAngle(s_servo_angle))`, which the register then holds, whatever `isInit` is; flag and angle untouched; the value lies between the compare values of `ZERO - LIMIT` and `ZERO + LIMIT` |
| `Servo.Driver.WriteAngleParam` | src/drivers/src/servo.c:169 | the registry stores the byte, `s_servo_angle` holds it reinterpreted as signed, and the callback's one compare write of `CompareValue(SaturateAngle(AsInt8(b)))` follows |
| `Servo.ByteWrapSwingsServo` | src/drivers/src/servo.c:169 | bytes 128..255 saturate at or below the centre; byte 127 gives `ZERO + LIMIT` and byte 128 gives `ZERO - LIMIT` |

## Left out

- The vendor calls that enable clocks, set up the GPIO pin and its alternate function, the time base, the output-compare channel, preload and PWM outputs (servo.c:70-105) are one abstract `Configured` event carrying the period and prescaler; `TIM_Cmd` (servo.c:109) is `TimerStarted`. Their register-level effect is opaque vendor code.
- `CompareValue`: IEEE-754 `double` rounding is not modelled; the computation is exact over reals and then floored.
- `CompareValue`: a product of `2^32` or more makes the `(uint32_t)` cast undefined in C; the model floors without a width limit (`CompareValueWithinPeriod` bounds the value by the period for usual frequencies).
- `DEBUG_PRINT` traces (servo.c:111, 131): diagnostic output only.
- The `DECK_DRIVER` registration and the parameter macros (servo.c:153-171), including the read-only `servoInitialized` parameter; only the registry's write of `servoAngle` followed by the callback is modelled (`WriteAngleParam`).
- The check-then-set race on `isInit` between concurrent `servoInit` calls: the model is sequential.
- The concrete values of the `servo.h` constants: they are parameters constrained by `ValidAngles` and `ValidPwm`.
