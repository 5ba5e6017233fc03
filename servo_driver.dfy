/**
 * The state of the servo driver (src/drivers/src/servo.c): the static flag
 * isInit, the commanded angle s_servo_angle and the compare register of the
 * PWM timer, with the lifecycle (servoInit, servoTest) and the update path
 * (servoSetAngle, servoAngleCallBack, and the parameter registry's write that
 * triggers the callback).
 *
 * The vendor calls that configure clocks, GPIO and the timer are opaque; they
 * appear in a ghost trace of peripheral events together with every compare
 * write, in the order the driver issues them.
 */
module Servo {
  import opened ServoMath

  /** What the driver does to the PWM peripheral. */
  datatype Event =
      /** Clock enable, GPIO alternate function, time base, OC1 in PWM mode, preload, PWM outputs on. */
    | Configured(period: int, prescale: int)
      /** One write to the compare register through setCompare. */
    | CompareWritten(value: nat)
      /** The timer counter is enabled. */
    | TimerStarted

  /** The compare values written, in order. */
  function Writes(t: seq<Event>): (r: seq<nat>)
  {
    if t == [] then []
    else Writes(t[..|t| - 1]) + (if t[|t| - 1].CompareWritten? then [t[|t| - 1].value] else [])
  }

  /** The number of hardware configuration sequences performed. */
  function Configurations(t: seq<Event>): (r: nat)
  {
    if t == [] then 0
    else Configurations(t[..|t| - 1]) + (if t[|t| - 1].Configured? then 1 else 0)
  }

  /** The compare register's content: the last value written, or its reset value 0. */
  function LastWrite(t: seq<Event>): (r: nat)
  {
    var w := Writes(t);
    if w == [] then 0 else w[|w| - 1]
  }

  /** Appending one event extends the derived views by that event alone. */
  lemma AppendEvent(t: seq<Event>, e: Event)
    ensures Writes(t + [e]) == Writes(t) + (if e.CompareWritten? then [e.value] else [])
    ensures Configurations(t + [e]) == Configurations(t) + (if e.Configured? then 1 else 0)
    ensures e.CompareWritten? ==> LastWrite(t + [e]) == e.value
    ensures !e.CompareWritten? ==> LastWrite(t + [e]) == LastWrite(t)
  {
    assert (t + [e])[..|t|] == t;
  }

  /** Writes and Configurations distribute over concatenation of traces. */
  lemma {:induction false} AppendTrace(a: seq<Event>, b: seq<Event>)
    ensures Writes(a + b) == Writes(a) + Writes(b)
    ensures Configurations(a + b) == Configurations(a) + Configurations(b)
  {
    if b == [] {
      assert a + b == a;
    } else {
      var b', e := b[..|b| - 1], b[|b| - 1];
      assert b == b' + [e];
      assert a + b == (a + b') + [e];
      AppendTrace(a, b');
      AppendEvent(a + b', e);
      AppendEvent(b', e);
    }
  }

  /**
   * The one-shot bring-up of servoInit: configure, write 0, start the timer,
   * move to the zero angle. It configures the hardware once, writes exactly two
   * compare values, and leaves the register at the zero angle's value.
   */
  function BringUp(cfg: Config): (r: seq<Event>)
    requires ValidPwm(cfg)
    ensures Configurations(r) == 1
    ensures Writes(r) == [0, CompareValue(cfg, ToUint8(cfg.angleZero))]
    ensures LastWrite(r) == CompareValue(cfg, ToUint8(cfg.angleZero))
  {
    var centre := CompareValue(cfg, ToUint8(cfg.angleZero));
    var r := [Configured(cfg.pwmPeriod, cfg.pwmPrescale), CompareWritten(0), TimerStarted, CompareWritten(centre)];
    AppendEvent([], r[0]);
    assert r[..2] == [r[0]] + [r[1]];
    AppendEvent([r[0]], r[1]);
    assert r[..3] == r[..2] + [r[2]];
    AppendEvent(r[..2], r[2]);
    assert r == r[..3] + [r[3]];
    AppendEvent(r[..3], r[3]);
    r
  }

  /**
   * Under the header's constraints the bring-up's last write is the value of
   * a zero command through the update path.
   */
  lemma BringUpEffects(cfg: Config)
    requires ValidConfig(cfg)
    ensures Writes(BringUp(cfg)) == [0, CompareValue(cfg, cfg.angleZero)]
    ensures LastWrite(BringUp(cfg)) == CompareValue(cfg, SaturateAngle(cfg, 0))
  {
    SaturateZeroIsCentre(cfg);
  }

  /** The servo driver: one instance stands for the static state of servo.c. */
  class Driver {
    /** The constants of servo.h. */
    const cfg: Config
    /** isInit: the hardware has been brought up. */
    var isInit: bool
    /** s_servo_angle: the commanded angle, relative to the zero angle. */
    var servoAngle: Int8
    /** The timer's compare register. */
    var compare: nat
    /** Every peripheral event since power-on. */
    ghost var trace: seq<Event>

    /** The hardware is configured exactly once if initialised and never otherwise; the register holds the last write. */
    ghost predicate Valid()
      reads this
    {
      ValidConfig(cfg) &&
      Configurations(trace) == (if isInit then 1 else 0) &&
      compare == LastWrite(trace)
    }

    /** Power-on: static initialisers of isInit and s_servo_angle, register at its reset value. */
    constructor (cfg: Config)
      requires ValidConfig(cfg)
      ensures Valid() && this.cfg == cfg
      ensures !isInit && servoAngle == 0 && compare == 0 && trace == []
    {
      this.cfg := cfg;
      isInit := false;
      servoAngle := 0;
      compare := 0;
      trace := [];
    }

    /** The peripheral's setCompare primitive: one register write, no bounds check. */
    method SetCompare(value: nat)
      modifies this
      ensures trace == old(trace) + [CompareWritten(value)] && compare == value
      ensures isInit == old(isInit) && servoAngle == old(servoAngle)
      ensures Writes(trace) == Writes(old(trace)) + [value]
      ensures Configurations(trace) == Configurations(old(trace))
      ensures old(Valid()) ==> Valid()
    {
      compare := value;
      trace := trace + [CompareWritten(value)];
      AppendEvent(old(trace), CompareWritten(value));
    }

    /** servoSetAngle: write the compare value of an absolute angle, nothing else. */
    method SetAngle(angle: Uint8)
      requires ValidPwm(cfg)
      modifies this
      ensures trace == old(trace) + [CompareWritten(CompareValue(cfg, angle))]
      ensures compare == CompareValue(cfg, angle)
      ensures isInit == old(isInit) && servoAngle == old(servoAngle)
      ensures Writes(trace) == Writes(old(trace)) + [CompareValue(cfg, angle)]
      ensures Configurations(trace) == Configurations(old(trace))
      ensures old(Valid()) ==> Valid()
    {
      var ccrVal := CompareValue(cfg, angle);
      SetCompare(ccrVal);
    }

    /**
     * servoInit: a no-op once initialised; otherwise the bring-up sequence,
     * after which the flag is set.
     */
    method Init()
      requires Valid()
      modifies this
      ensures Valid() && isInit
      ensures servoAngle == old(servoAngle)
      ensures old(isInit) ==> trace == old(trace) && compare == old(compare)
      ensures !old(isInit) ==> trace == old(trace) + BringUp(cfg)
      ensures !old(isInit) ==> compare == CompareValue(cfg, cfg.angleZero)
      ensures Configurations(trace) == 1
      ensures Writes(trace) == Writes(old(trace)) + (if old(isInit) then [] else [0, CompareValue(cfg, cfg.angleZero)])
    {
      if isInit {
        return;
      }
      ghost var t0 := trace;
      trace := trace + [Configured(cfg.pwmPeriod, cfg.pwmPrescale)];
      SetCompare(0);
      trace := trace + [TimerStarted];
      ghost var t3 := trace;
      SetAngle(ToUint8(cfg.angleZero));
      isInit := true;
      assert trace == t0 + BringUp(cfg);
      BringUpEffects(cfg);
      AppendTrace(t0, BringUp(cfg));
      AppendEvent(t3, CompareWritten(compare));
    }

    /** servoTest: reports the flag and changes nothing. */
    method Test() returns (r: bool)
      ensures r == isInit
    {
      r := isInit;
    }

    /**
     * servoAngleCallBack: saturate the commanded angle and write its compare
     * value. It does not look at isInit. The written value lies between the
     * compare values of the two saturation bounds.
     */
    method AngleCallBack()
      requires Valid()
      modifies this
      ensures Valid()
      ensures trace == old(trace) + [CompareWritten(CompareValue(cfg, SaturateAngle(cfg, servoAngle)))]
      ensures isInit == old(isInit) && servoAngle == old(servoAngle)
      ensures compare == CompareValue(cfg, SaturateAngle(cfg, servoAngle))
      ensures CompareValue(cfg, cfg.angleZero - cfg.angleLimit) <= compare
      ensures compare <= CompareValue(cfg, cfg.angleZero + cfg.angleLimit)
    {
      var target := SaturateAngle(cfg, servoAngle);
      SetAngle(target);
      CompareValueMonotone(cfg, cfg.angleZero - cfg.angleLimit, target);
      CompareValueMonotone(cfg, target, cfg.angleZero + cfg.angleLimit);
    }

    /**
     * The parameter registry's write of servo.servoAngle, registered as an
     * unsigned byte over the int8_t s_servo_angle: the byte is stored, read
     * back as a signed value, and the callback runs.
     */
    method WriteAngleParam(b: Uint8)
      requires Valid()
      modifies this
      ensures Valid()
      ensures servoAngle == AsInt8(b) && isInit == old(isInit)
      ensures trace == old(trace) + [CompareWritten(CompareValue(cfg, SaturateAngle(cfg, AsInt8(b))))]
      ensures compare == CompareValue(cfg, SaturateAngle(cfg, AsInt8(b)))
    {
      servoAngle := AsInt8(b);
      AngleCallBack();
    }
  }

  /**
   * Through the registry, bytes 128..255 read as negative angles: raising the
   * byte from 127 to 128 moves the servo from the upper bound to the lower one.
   */
  lemma ByteWrapSwingsServo(cfg: Config, b: Uint8)
    requires ValidAngles(cfg)
    ensures b >= 128 ==> SaturateAngle(cfg, AsInt8(b)) <= cfg.angleZero
    ensures SaturateAngle(cfg, AsInt8(127)) == cfg.angleZero + cfg.angleLimit
    ensures SaturateAngle(cfg, AsInt8(128)) == cfg.angleZero - cfg.angleLimit
  {
  }

  /** Two servoInit calls after power-on: one bring-up, two compare writes, initialised. */
  method InitTwice(cfg: Config)
    requires ValidConfig(cfg)
  {
    var d := new Driver(cfg);
    d.Init();
    d.Init();
    var ready := d.Test();
    assert ready;
    assert Configurations(d.trace) == 1;
    assert Writes(d.trace) == [0, CompareValue(cfg, cfg.angleZero)];
    assert d.compare == CompareValue(cfg, SaturateAngle(cfg, 0));
  }
}
