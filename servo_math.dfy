/**
 * The arithmetic of the servo driver (src/drivers/src/servo.c): the C integer
 * types it uses, the constants of its header, the saturation of a relative
 * angle (saturateAngle) and the mapping from an absolute angle to a timer
 * compare value (the computation inside servoSetAngle).
 *
 * The source computes the pulse length in `double`. It is modelled here over
 * exact `real` arithmetic, an abstraction of IEEE-754 rounding; the cast
 * `(uint32_t)` of the final product truncates and is modelled by `.Floor`
 * (the product is never negative, so truncation and floor agree).
 */
module ServoMath {

  /** C's int8_t. */
  type Int8 = x: int | -128 <= x < 128

  /** C's uint8_t. */
  type Uint8 = x: int | 0 <= x < 256

  /** Conversion of an int to uint8_t: reduction modulo 2^8. */
  function ToUint8(x: int): (r: Uint8)
  {
    x % 256
  }

  /** A byte read back through an int8_t lvalue: two's-complement reinterpretation. */
  function AsInt8(b: Uint8): (r: Int8)
    ensures (r - b) % 256 == 0
    ensures r < 0 <==> b >= 128
  {
    if b < 128 then b else b - 256
  }

  /** Reinterpretation loses nothing: a stored byte reads back as itself, a signed value too. */
  lemma ByteReinterpretRoundTrip(b: Uint8, x: Int8)
    ensures ToUint8(AsInt8(b)) == b
    ensures AsInt8(ToUint8(x)) == x
  {
  }

  /**
   * The constants of servo.h, which is not part of this model; each field is
   * named after the macro it stands for.
   */
  datatype Config = Config(
    angleLimit: int,     // SERVO_ANGLE_LIMIT
    angleZero: int,      // SERVO_ANGLE_ZERO
    pwmPeriod: int,      // SERVO_PWM_PERIOD
    pwmPrescale: int,    // SERVO_PWM_PRESCALE
    pwmFrequencyHz: int) // SERVO_PWM_FREQUENCY_HZ

  /** The angle constants keep the saturated angle inside uint8_t: no wrap-around. */
  predicate ValidAngles(cfg: Config)
  {
    0 <= cfg.angleLimit <= cfg.angleZero && cfg.angleZero + cfg.angleLimit <= 255
  }

  /** The timer constants describe a running PWM output. */
  predicate ValidPwm(cfg: Config)
  {
    cfg.pwmPeriod > 0 && cfg.pwmPrescale >= 0 && cfg.pwmFrequencyHz > 0
  }

  predicate ValidConfig(cfg: Config)
  {
    ValidAngles(cfg) && ValidPwm(cfg)
  }

  // ---------------------------------------------------------------------------
  // saturateAngle
  // ---------------------------------------------------------------------------

  /** The branch condition of saturateAngle: the relative angle is outside [-LIMIT, LIMIT]. */
  predicate OutOfRange(cfg: Config, angle: int)
  {
    angle > cfg.angleLimit || angle < -cfg.angleLimit
  }

  /**
   * saturateAngle: clamp a signed relative angle to [-LIMIT, LIMIT] and shift
   * it by ZERO into an unsigned absolute angle. The C return type is uint8_t,
   * so the value of the return expression is converted with ToUint8; under
   * ValidAngles that conversion never wraps.
   */
  function SaturateAngle(cfg: Config, angle: Int8): (r: Uint8)
    requires ValidAngles(cfg)
    ensures cfg.angleZero - cfg.angleLimit <= r <= cfg.angleZero + cfg.angleLimit
    ensures -cfg.angleLimit <= angle <= cfg.angleLimit ==> r == angle + cfg.angleZero
    ensures angle > cfg.angleLimit ==> r == cfg.angleZero + cfg.angleLimit
    ensures angle < -cfg.angleLimit ==> r == cfg.angleZero - cfg.angleLimit
  {
    if OutOfRange(cfg, angle) then
      var sign := angle > 0;
      ToUint8(if sign then cfg.angleLimit + cfg.angleZero else -cfg.angleLimit + cfg.angleZero)
    else
      ToUint8(angle + cfg.angleZero)
  }

  /** Reference definition: x clamped into [lo, hi]. */
  function Clamp(x: int, lo: int, hi: int): (r: int)
    requires lo <= hi
    ensures lo <= r <= hi
    ensures lo <= x <= hi ==> r == x
    ensures r == x || r == lo || r == hi
  {
    if x < lo then lo else if x > hi then hi else x
  }

  /** saturateAngle is "clamp to the symmetric window, then shift to the zero angle". */
  lemma SaturateIsShiftedClamp(cfg: Config, angle: Int8)
    requires ValidAngles(cfg)
    ensures SaturateAngle(cfg, angle) == Clamp(angle, -cfg.angleLimit, cfg.angleLimit) + cfg.angleZero
  {
  }

  /** The sign test in the out-of-range branch is never reached with a zero angle, and it picks the nearer bound. */
  lemma SignTestNeverSeesZero(cfg: Config, angle: Int8)
    requires ValidAngles(cfg)
    requires OutOfRange(cfg, angle)
    ensures angle != 0
    ensures angle > 0 <==> angle > cfg.angleLimit
  {
  }

  /** A zero command is the centre position. */
  lemma SaturateZeroIsCentre(cfg: Config)
    requires ValidAngles(cfg)
    ensures SaturateAngle(cfg, 0) == cfg.angleZero
  {
  }

  /** saturateAngle is monotone non-decreasing in its argument. */
  lemma SaturateMonotone(cfg: Config, a1: Int8, a2: Int8)
    requires ValidAngles(cfg)
    requires a1 <= a2
    ensures SaturateAngle(cfg, a1) <= SaturateAngle(cfg, a2)
  {
  }

  // ---------------------------------------------------------------------------
  // servoSetAngle: angle -> pulse length -> compare value
  // ---------------------------------------------------------------------------

  /** SERVO_ZERO_PULSE_ms and SERVO_180_PULSE_ms. */
  const ServoZeroPulseMs: real := 0.5
  const Servo180PulseMs: real := 2.5

  /** Linear interpolation of the pulse length in milliseconds between angle 0 and angle 180. */
  function PulseLengthMs(angle: Uint8): (r: real)
    ensures ServoZeroPulseMs <= r
    ensures angle == 0 ==> r == ServoZeroPulseMs
    ensures angle == 180 ==> r == Servo180PulseMs
    ensures angle <= 180 ==> r <= Servo180PulseMs
  {
    angle as real / 180.0 * (Servo180PulseMs - ServoZeroPulseMs) + ServoZeroPulseMs
  }

  /** The pulse length is strictly increasing in the angle. */
  lemma PulseLengthStrictlyIncreasing(a1: Uint8, a2: Uint8)
    requires a1 < a2
    ensures PulseLengthMs(a1) < PulseLengthMs(a2)
  {
  }

  /**
   * The compare value servoSetAngle writes: the pulse length in seconds times
   * SERVO_PWM_PERIOD times SERVO_PWM_FREQUENCY_HZ, truncated. It equals the
   * exact integer (angle + 45) * PERIOD * FREQ / 90000, rounded down, since
   * pulse_ms = (angle + 45) / 90.
   */
  function CompareValue(cfg: Config, angle: Uint8): (r: nat)
    requires ValidPwm(cfg)
    ensures r == (angle + 45) * cfg.pwmPeriod * cfg.pwmFrequencyHz / 90000
  {
    var pulseLengthS := PulseLengthMs(angle) / 1000.0;
    TruncatedPulseProduct(cfg, angle);
    (pulseLengthS * cfg.pwmPeriod as real * cfg.pwmFrequencyHz as real).Floor
  }

  /** The floor of an exact quotient of integers is the integer quotient. */
  lemma FloorOfQuotient(n: int, d: int)
    requires n >= 0 && d > 0
    ensures (n as real / d as real).Floor == n / d
  {
    var q, m := n / d, n % d;
    assert n == q * d + m;
    assert n as real / d as real == q as real + m as real / d as real;
    assert 0.0 <= m as real / d as real < 1.0;
  }

  /** The truncated real product of servoSetAngle is an exact, non-negative integer quotient. */
  lemma TruncatedPulseProduct(cfg: Config, angle: Uint8)
    requires ValidPwm(cfg)
    ensures (PulseLengthMs(angle) / 1000.0 * cfg.pwmPeriod as real * cfg.pwmFrequencyHz as real).Floor
            == (angle + 45) * cfg.pwmPeriod * cfg.pwmFrequencyHz / 90000
    ensures (angle + 45) * cfg.pwmPeriod * cfg.pwmFrequencyHz / 90000 >= 0
  {
    var p, f := cfg.pwmPeriod, cfg.pwmFrequencyHz;
    var n := (angle + 45) * p * f;
    var s := PulseLengthMs(angle) / 1000.0;
    assert s == (angle + 45) as real / 90000.0;
    assert s * p as real * f as real == n as real / 90000.0 by {
      assert ((angle + 45) * p) as real == (angle + 45) as real * p as real;
      assert n as real == ((angle + 45) * p) as real * f as real;
    }
    assert n >= 0 by {
      assert (angle + 45) * p >= 0;
    }
    FloorOfQuotient(n, 90000);
  }

  /** The compare value is non-decreasing in the angle. */
  lemma CompareValueMonotone(cfg: Config, a1: Uint8, a2: Uint8)
    requires ValidPwm(cfg)
    requires a1 <= a2
    ensures CompareValue(cfg, a1) <= CompareValue(cfg, a2)
  {
    var p, f := cfg.pwmPeriod, cfg.pwmFrequencyHz;
    MultiplyMonotone(a1 + 45, a2 + 45, p);
    MultiplyMonotone((a1 + 45) * p, (a2 + 45) * p, f);
    DivideMonotone((a1 + 45) * p * f, (a2 + 45) * p * f, 90000);
  }

  lemma MultiplyMonotone(x: int, y: int, c: int)
    requires x <= y && c >= 0
    ensures x * c <= y * c
  {
    assert y * c - x * c == (y - x) * c;
  }

  lemma DivideMonotone(m: int, n: int, d: int)
    requires m <= n && d > 0
    ensures m / d <= n / d
  {
    if m / d > n / d {
      MultiplyMonotone(n / d + 1, m / d, d);
      assert false;
    }
  }

  /**
   * With at least one timer tick per degree (PERIOD * FREQ >= 90000) the
   * compare value is strictly increasing in the angle; below that, neighbouring
   * angles can share a value (TruncationMergesAngles).
   */
  lemma CompareValueStrictlyIncreasing(cfg: Config, a1: Uint8, a2: Uint8)
    requires ValidPwm(cfg)
    requires cfg.pwmPeriod * cfg.pwmFrequencyHz >= 90000
    requires a1 < a2
    ensures CompareValue(cfg, a1) < CompareValue(cfg, a2)
  {
    var p, f := cfg.pwmPeriod, cfg.pwmFrequencyHz;
    var pf := p * f;
    var n1, n2 := (a1 + 45) * p * f, (a2 + 45) * p * f;
    assert n1 == (a1 + 45) * pf && n2 == (a2 + 45) * pf;
    MultiplyMonotone(a1 + 46, a2 + 45, pf);
    assert n1 + 90000 <= n2;
    DivideMonotone(n1 + 90000, n2, 90000);
    assert (n1 + 90000) / 90000 == n1 / 90000 + 1;
  }

  /**
   * The end points: angle 0 gives a 0.5 ms pulse and angle 180 a 2.5 ms pulse,
   * each counted in PERIOD * FREQ ticks per second.
   */
  lemma CompareValueEndpoints(cfg: Config)
    requires ValidPwm(cfg)
    ensures CompareValue(cfg, 0) == cfg.pwmPeriod * cfg.pwmFrequencyHz / 2000
    ensures CompareValue(cfg, 180) == cfg.pwmPeriod * cfg.pwmFrequencyHz / 400
  {
    var p, f := cfg.pwmPeriod as real, cfg.pwmFrequencyHz as real;
    var pf := cfg.pwmPeriod * cfg.pwmFrequencyHz;
    assert pf as real == p * f;
    assert PulseLengthMs(0) / 1000.0 * p * f == pf as real / 2000.0;
    assert PulseLengthMs(180) / 1000.0 * p * f == pf as real / 400.0;
    MultiplyMonotone(0, cfg.pwmPeriod, cfg.pwmFrequencyHz);
    FloorOfQuotient(pf, 2000);
    FloorOfQuotient(pf, 400);
  }

  /**
   * For angles up to 180 and a PWM frequency of at most 400 Hz the compare value
   * never exceeds the timer period, so the pulse fits in one PWM cycle.
   */
  lemma CompareValueWithinPeriod(cfg: Config, angle: Uint8)
    requires ValidPwm(cfg)
    requires angle <= 180 && cfg.pwmFrequencyHz <= 400
    ensures CompareValue(cfg, angle) <= cfg.pwmPeriod
  {
    var p, f := cfg.pwmPeriod, cfg.pwmFrequencyHz;
    var n := (angle + 45) * p * f;
    MultiplyMonotone(angle + 45, 225, p);
    MultiplyMonotone((angle + 45) * p, 225 * p, f);
    MultiplyMonotone(225 * f, 90000, p);
    assert 225 * p * f == (225 * f) * p;
    assert n <= 90000 * p;
    DivideMonotone(n, 90000 * p, 90000);
    assert 90000 * p / 90000 == p;
  }

  /**
   * The truncation merges neighbouring angles: with PERIOD 1000 and FREQ 50
   * angles 0 and 1 have different pulse lengths and the same compare value.
   */
  lemma TruncationMergesAngles()
    ensures PulseLengthMs(0) < PulseLengthMs(1)
    ensures CompareValue(Config(90, 90, 1000, 0, 50), 0) == 25
    ensures CompareValue(Config(90, 90, 1000, 0, 50), 1) == 25
  {
  }
}
