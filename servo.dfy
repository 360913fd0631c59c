/** The hobby-servo driver (`PonyServo`).

    Servos S1..S8 sit on PWM channels 8..15. A servo's calibration is the pulse width, in
    microseconds, at angle 0 and at its full range of `degrees`; each is turned into a duty value
    once, assuming the chip runs at 50 Hz (a 20 ms period of 4096 ticks). An angle is clamped to
    0..degrees and mapped linearly between the two duties. */
module Servo {
  import opened Util
  import opened Bus
  import opened Pwm

  /** `_us_to_duty(us)`: `int(4095 * us / 20000)`, the share of a 20 ms period, truncated toward zero. */
  function UsToDuty(us: int): (d: int)
    ensures 0 <= us ==> 0 <= d && 20000 * d <= 4095 * us < 20000 * d + 20000
    ensures us <= 0 ==> d <= 0 && 4095 * us <= 20000 * d < 4095 * us + 20000
  {
    TruncDiv(4095 * us, 20000)
  }

  /** The default calibration: 600 us and 2400 us. */
  lemma DefaultDuties()
    ensures UsToDuty(600) == 122 && UsToDuty(2400) == 491
  {
  }

  /** A pulse no longer than the 20 ms period gives a duty `set_duty` accepts, and a longer pulse
      never gives a smaller duty. */
  lemma UsToDutyRange(us: int, longer: int)
    requires 0 <= us <= longer
    ensures 0 <= UsToDuty(us) <= UsToDuty(longer)
    ensures longer <= 20000 ==> UsToDuty(longer) <= 4095
  {
    MulLeft(us, longer, 4095);
    FloorMonotone(4095 * us, 4095 * longer, 20000, UsToDuty(us), UsToDuty(longer));
    if longer <= 20000 {
      FloorMonotone(4095 * longer, 4095 * 20000, 20000, UsToDuty(longer), 4095);
    }
  }

  /** The duty for `angle`: `int(min_duty + (max_duty - min_duty) * angle / degrees)` with the angle
      clamped to 0..degrees. For degrees > 0 and calibrated ends that are not negative, in either
      order, the exact value lies in [duty, duty + 1), so the result is the linear interpolation
      rounded down. */
  function AngleDuty(minDuty: int, maxDuty: int, degrees: int, angle: int): (d: int)
    requires degrees != 0
    ensures 0 < degrees && 0 <= minDuty && 0 <= maxDuty ==>
      var a := Clamp(angle, 0, degrees);
      degrees * d <= minDuty * degrees + (maxDuty - minDuty) * a < degrees * d + degrees
  {
    var a := Clamp(angle, 0, degrees);
    var n := minDuty * degrees + (maxDuty - minDuty) * a;
    if 0 < degrees then
      WeightedSum(minDuty, maxDuty, degrees, a);
      TruncDiv(n, degrees)
    else
      TruncDiv(n, degrees)
  }

  /** The interpolation's dividend is a weighted sum of the two ends, with weights degrees - a and
      a, so it is not negative when neither end is. */
  lemma WeightedSum(minDuty: int, maxDuty: int, degrees: int, a: int)
    requires 0 <= a <= degrees
    ensures minDuty * degrees + (maxDuty - minDuty) * a == minDuty * (degrees - a) + maxDuty * a
    ensures 0 <= minDuty && 0 <= maxDuty ==> 0 <= minDuty * degrees + (maxDuty - minDuty) * a
  {
    assert minDuty * degrees + (maxDuty - minDuty) * a == minDuty * (degrees - a) + maxDuty * a;
    if 0 <= minDuty && 0 <= maxDuty {
      MulLeft(0, minDuty, degrees - a);
      MulLeft(0, maxDuty, a);
    }
  }

  /** Angle 0 gives exactly the calibrated minimum and angle `degrees` the maximum; angles beyond
      either end are clamped to that end. */
  lemma AngleEnds(minDuty: int, maxDuty: int, degrees: int, angle: int)
    requires 0 < degrees
    ensures angle <= 0 ==> AngleDuty(minDuty, maxDuty, degrees, angle) == minDuty
    ensures degrees <= angle ==> AngleDuty(minDuty, maxDuty, degrees, angle) == maxDuty
  {
    if angle <= 0 {
      assert minDuty * degrees + (maxDuty - minDuty) * Clamp(angle, 0, degrees) == minDuty * degrees;
      TruncExact(minDuty, degrees);
    }
    if degrees <= angle {
      assert minDuty * degrees + (maxDuty - minDuty) * Clamp(angle, 0, degrees) == maxDuty * degrees;
      TruncExact(maxDuty, degrees);
    }
  }

  /** An exact multiple divides back to its factor. */
  lemma TruncExact(q: int, b: int)
    requires 0 < b
    ensures TruncDiv(q * b, b) == q
  {
    var t := TruncDiv(q * b, b);
    assert q * b == b * q;
    if q >= 0 {
      MulLeft(0, q, b);
      FloorUnique(q * b, b, t, q);
    } else {
      MulLeft(q, 0, b);
      assert b * q <= b * t < b * q + b;
      assert (q + 1) * b == b * q + b && t * b == b * t;
      assert (q - 1) * b == b * q - b;
      if q < t {
        MulLeft(q + 1, t, b);
      } else if t < q {
        MulLeft(t, q - 1, b);
      }
    }
  }

  /** With a calibration whose minimum is at most its maximum, turning a servo further never lowers
      its duty, and every duty lies between the two calibrated ends. */
  lemma AngleMonotone(minDuty: int, maxDuty: int, degrees: int, angle: int, further: int)
    requires 0 < degrees && 0 <= minDuty <= maxDuty && angle <= further
    ensures minDuty <= AngleDuty(minDuty, maxDuty, degrees, angle) <= AngleDuty(minDuty, maxDuty, degrees, further) <= maxDuty
  {
    var a, b := Clamp(angle, 0, degrees), Clamp(further, 0, degrees);
    var r := maxDuty - minDuty;
    ScaledOrder(minDuty, maxDuty, a, b, degrees);
    ExactFloor(minDuty, degrees);
    ExactFloor(maxDuty, degrees);
    FloorChain(minDuty * degrees, minDuty * degrees + r * a, minDuty * degrees + r * b, maxDuty * degrees, degrees,
      minDuty, AngleDuty(minDuty, maxDuty, degrees, angle), AngleDuty(minDuty, maxDuty, degrees, further), maxDuty);
  }

  /** Whichever calibrated end is the larger, every duty lies between the two ends: a reversed
      calibration (min_duty > max_duty) turns the servo the other way but stays in range. */
  lemma AngleBetween(minDuty: int, maxDuty: int, degrees: int, angle: int)
    requires 0 < degrees && 0 <= minDuty && 0 <= maxDuty
    ensures minDuty <= AngleDuty(minDuty, maxDuty, degrees, angle) <= maxDuty ||
            maxDuty <= AngleDuty(minDuty, maxDuty, degrees, angle) <= minDuty
  {
    if minDuty <= maxDuty {
      AngleMonotone(minDuty, maxDuty, degrees, angle, angle);
    } else {
      var a := Clamp(angle, 0, degrees);
      var d := AngleDuty(minDuty, maxDuty, degrees, angle);
      var n := minDuty * degrees + (maxDuty - minDuty) * a;
      var r := minDuty - maxDuty;
      MulLeft(0, a, r);
      MulLeft(a, degrees, r);
      assert n == minDuty * degrees - a * r;
      assert maxDuty * degrees == minDuty * degrees - degrees * r;
      ExactFloor(minDuty, degrees);
      ExactFloor(maxDuty, degrees);
      FloorMonotone(maxDuty * degrees, n, degrees, maxDuty, d);
      FloorMonotone(n, minDuty * degrees, degrees, d, minDuty);
    }
  }

  /** The interpolated dividends lie in order between the two ends' multiples. */
  lemma ScaledOrder(lo: int, hi: int, a: int, b: int, c: int)
    requires lo <= hi && 0 <= a <= b <= c
    ensures lo * c <= lo * c + (hi - lo) * a <= lo * c + (hi - lo) * b <= hi * c
  {
    MulLeft(0, a, hi - lo);
    MulLeft(a, b, hi - lo);
    MulLeft(b, c, hi - lo);
    assert hi * c == lo * c + (hi - lo) * c;
  }

  /** Rounding down keeps the order of four dividends. */
  lemma FloorChain(n0: int, n1: int, n2: int, n3: int, b: int, q0: int, q1: int, q2: int, q3: int)
    requires 0 < b && n0 <= n1 <= n2 <= n3
    requires b * q0 <= n0 < b * q0 + b && b * q1 <= n1 < b * q1 + b
    requires b * q2 <= n2 < b * q2 + b && b * q3 <= n3 < b * q3 + b
    ensures q0 <= q1 <= q2 <= q3
  {
    FloorMonotone(n0, n1, b, q0, q1);
    FloorMonotone(n1, n2, b, q1, q2);
    FloorMonotone(n2, n3, b, q2, q3);
  }

  lemma ExactFloor(q: int, b: int)
    requires 0 < b
    ensures b * q <= q * b < b * q + b
  {
  }

  /** `set_angle(servo_num, angle)`: the servo number is checked first; a zero range of degrees then
      divides by zero; otherwise `set_duty` on channel servo + 7. */
  function AngleSteps(servo: int, minDuty: int, maxDuty: int, degrees: int, angle: int): (s: seq<Step>)
    ensures |s| > 0 && s[0].Check? && forall i | 1 <= i < |s| :: s[i].Put?
    ensures s[0].holds <==>
      1 <= servo <= 8 && degrees != 0 && 0 <= AngleDuty(minDuty, maxDuty, degrees, angle) <= 4095
  {
    if !(1 <= servo <= 8) then [Check(false, ServoOutOfRange)]
    else if degrees == 0 then [Check(false, ZeroDivision)]
    else SetDutySteps(servo + 7, AngleDuty(minDuty, maxDuty, degrees, angle))
  }

  /** `release(servo_num)`: the servo's channel is switched fully off. */
  function ReleaseSteps(servo: int): (s: seq<Step>)
    ensures |s| > 0 && s[0].Check? && forall i | 1 <= i < |s| :: s[i].Put?
    ensures s[0].holds <==> 1 <= servo <= 8
  {
    if !(1 <= servo <= 8) then [Check(false, ServoOutOfRange)]
    else SetDutySteps(servo + 7, 0)
  }

  /** `set_angle` returns exactly when the servo number is 1..8, the range of degrees is not zero and
      the duty lands in 0..4095; a bad servo number or zero range raises before any frame is sent. */
  lemma AngleAccepted(servo: int, minDuty: int, maxDuty: int, degrees: int, angle: int)
    ensures Run(AngleSteps(servo, minDuty, maxDuty, degrees, angle)).out.Ok? <==>
      1 <= servo <= 8 && degrees != 0 && 0 <= AngleDuty(minDuty, maxDuty, degrees, angle) <= 4095
    ensures !(1 <= servo <= 8) ==>
      Run(AngleSteps(servo, minDuty, maxDuty, degrees, angle)) == Trace([], Fail(ServoOutOfRange))
    ensures 1 <= servo <= 8 && degrees == 0 ==>
      Run(AngleSteps(servo, minDuty, maxDuty, degrees, angle)) == Trace([], Fail(ZeroDivision))
  {
    RunOne(Check(false, ServoOutOfRange));
    RunOne(Check(false, ZeroDivision));
    if 1 <= servo <= 8 && degrees != 0 {
      SetDutyAccepted(servo + 7, AngleDuty(minDuty, maxDuty, degrees, angle));
    }
  }

  /** With both calibrated ends inside 0..4095, in either order, and a positive range, `set_angle`
      on S1..S8 returns and changes only channel servo + 7, which then holds the counters of the
      angle's duty. */
  lemma AngleRegisters(regs: seq<int>, servo: int, minDuty: int, maxDuty: int, degrees: int, angle: int)
    requires |regs| == 256 && 1 <= servo <= 8 && 0 < degrees && 0 <= minDuty <= 4095 && 0 <= maxDuty <= 4095
    ensures var t := Run(AngleSteps(servo, minDuty, maxDuty, degrees, angle));
      t.out == Ok &&
      Apply(regs, t.ops) == SetChannel(regs, servo + 7, DutyCounters(AngleDuty(minDuty, maxDuty, degrees, angle)))
  {
    AngleBetween(minDuty, maxDuty, degrees, angle);
    SetDutyDrives(regs, servo + 7, AngleDuty(minDuty, maxDuty, degrees, angle));
  }

  /** A servo with the default calibration accepts every angle, with a duty between 122 and 491. */
  lemma DefaultAngles(servo: int, angle: int)
    requires 1 <= servo <= 8
    ensures Run(AngleSteps(servo, UsToDuty(600), UsToDuty(2400), 180, angle)).out == Ok
    ensures 122 <= AngleDuty(UsToDuty(600), UsToDuty(2400), 180, angle) <= 491
  {
    DefaultDuties();
    AngleMonotone(122, 491, 180, angle, angle);
    AngleAccepted(servo, 122, 491, 180, angle);
  }

  /** `release` on S1..S8 leaves its channel high for no tick of the period and changes nothing
      else; any other servo number raises before any frame is sent. */
  lemma ReleaseRegisters(regs: seq<int>, servo: int)
    requires |regs| == 256
    ensures Run(ReleaseSteps(servo)).out.Ok? <==> 1 <= servo <= 8
    ensures 1 <= servo <= 8 ==>
      var r := Apply(regs, Run(ReleaseSteps(servo)).ops);
      r == SetChannel(regs, servo + 7, DutyCounters(0)) && HighTicks(ChannelCounters(r, servo + 7)) == 0
    ensures !(1 <= servo <= 8) ==> Run(ReleaseSteps(servo)) == Trace([], Fail(ServoOutOfRange))
  {
    RunOne(Check(false, ServoOutOfRange));
    if 1 <= servo <= 8 {
      SetDutyDrives(regs, servo + 7, 0);
    }
  }

  /** A `PonyServo` on a shared PWM chip, with its calibration turned into duties. */
  class Servo {
    const pwm: PwmController
    const degrees: int
    const minDuty: int
    const maxDuty: int

    /** `PonyServo(pwm, min_us, max_us, degrees)` */
    constructor (pwm: PwmController, minUs: int := 600, maxUs: int := 2400, degrees: int := 180)
      ensures this.pwm == pwm && this.degrees == degrees
      ensures minDuty == UsToDuty(minUs) && maxDuty == UsToDuty(maxUs)
    {
      this.pwm := pwm;
      this.degrees := degrees;
      this.minDuty := UsToDuty(minUs);
      this.maxDuty := UsToDuty(maxUs);
    }

    /** `set_angle(servo_num, angle)` */
    method SetAngle(servo: int, angle: int) returns (out: Outcome)
      modifies pwm.bus
      ensures Did(old(pwm.bus.log), pwm.bus.log, out, AngleSteps(servo, minDuty, maxDuty, degrees, angle))
    {
      if !(1 <= servo <= 8) {
        RunOne(Check(false, ServoOutOfRange));
        return Fail(ServoOutOfRange);
      }
      var a := Clamp(angle, 0, degrees);
      var dutyRange := maxDuty - minDuty;
      if degrees == 0 {
        RunOne(Check(false, ZeroDivision));
        return Fail(ZeroDivision);
      }
      var duty := TruncDiv(minDuty * degrees + dutyRange * a, degrees);
      var channel := servo + 7;
      out := pwm.SetDuty(channel, duty);
    }

    /** `release(servo_num)` */
    method Release(servo: int) returns (out: Outcome)
      modifies pwm.bus
      ensures Did(old(pwm.bus.log), pwm.bus.log, out, ReleaseSteps(servo))
    {
      if !(1 <= servo <= 8) {
        RunOne(Check(false, ServoOutOfRange));
        return Fail(ServoOutOfRange);
      }
      var channel := servo + 7;
      out := pwm.SetDuty(channel, 0);
    }
  }
}
