/** The DC motor driver (`PonyMotor`).

    Each motor has two PWM channels, one per direction of rotation: a signed speed drives one of
    them and holds the other at 0. `drive` (skid steering) and `mecanum` (a nine-key pad) are fixed
    tables of signed speeds for motors 1..4, applied one motor at a time through `move`. */
module Motor {
  import opened Util
  import opened Bus
  import opened Pwm

  /** Motor number to (channel driven for positive speed, channel driven for negative speed). */
  type ChannelMap = map<int, (int, int)>

  const DefaultChannels: ChannelMap := map[1 := (7, 6), 2 := (5, 4), 3 := (2, 3), 4 := (0, 1)]

  /* ---------- move ---------- */

  /** `int(abs(speed) * 40.95)` after `speed` is clamped to -100..100, in exact arithmetic:
      the magnitude scaled so that 100 % is 4095, rounded down. */
  function SpeedDuty(speed: int): (d: int)
    ensures 0 <= d <= 4095
    ensures 100 * d <= 4095 * Abs(Clamp(speed, -100, 100)) < 100 * d + 100
  {
    var m := Abs(Clamp(speed, -100, 100)) * 4095;
    DivBounds(m, 100);
    m / 100
  }

  /** A faster request never gives a smaller duty. */
  lemma SpeedDutyMonotone(s: int, t: int)
    requires 0 <= s <= t
    ensures SpeedDuty(s) <= SpeedDuty(t)
  {
    var a, b := Abs(Clamp(s, -100, 100)), Abs(Clamp(t, -100, 100));
    FloorMonotone(4095 * a, 4095 * b, 100, SpeedDuty(s), SpeedDuty(t));
  }

  /** The duties `move` gives a motor's (positive, negative) channels: the one for the sign of the
      speed gets SpeedDuty, the other 0; a zero speed gives 0 to both. */
  function MotorDuties(speed: int): (d: (int, int))
    ensures 0 <= d.0 <= 4095 && 0 <= d.1 <= 4095
    ensures d.0 == 0 || d.1 == 0
    ensures d.0 - d.1 == (if speed > 0 then SpeedDuty(speed) else if speed < 0 then -SpeedDuty(speed) else 0)
  {
    var s := Clamp(speed, -100, 100);
    var duty := SpeedDuty(speed);
    if s > 0 then (duty, 0) else if s < 0 then (0, duty) else (0, 0)
  }

  /** `move(motor_num, speed_percent)`. It raises exactly for a motor number outside the map: the
      duties it computes never exceed 4095, so `set_duty`'s range check never fires. */
  function MoveSteps(channels: ChannelMap, motor: int, speed: int): (s: seq<Step>)
    ensures Run(s).out.Ok? <==> motor in channels
  {
    if motor !in channels then
      RunOne(Check(false, UnknownMotor));
      [Check(false, UnknownMotor)]
    else
      var d := MotorDuties(speed);
      RunAppend(SetDutySteps(channels[motor].0, d.0), SetDutySteps(channels[motor].1, d.1));
      SetDutyAccepted(channels[motor].0, d.0);
      SetDutyAccepted(channels[motor].1, d.1);
      SetDutySteps(channels[motor].0, d.0) + SetDutySteps(channels[motor].1, d.1)
  }

  /** An unknown motor number raises before any frame is sent. */
  lemma MoveRejects(channels: ChannelMap, motor: int, speed: int)
    requires motor !in channels
    ensures Run(MoveSteps(channels, motor, speed)) == Trace([], Fail(UnknownMotor))
  {
    RunOne(Check(false, UnknownMotor));
  }

  /** The registers after `move` on a motor wired to two distinct channels among the 16. */
  function Moved(regs: seq<int>, pair: (int, int), speed: int): (r: seq<int>)
    requires |regs| == 256 && 0 <= pair.0 < 16 && 0 <= pair.1 < 16
    ensures |r| == 256
  {
    var d := MotorDuties(speed);
    SetChannel(SetChannel(regs, pair.0, DutyCounters(d.0)), pair.1, DutyCounters(d.1))
  }

  lemma MoveRegisters(regs: seq<int>, channels: ChannelMap, motor: int, speed: int)
    requires |regs| == 256 && motor in channels
    requires 0 <= channels[motor].0 < 16 && 0 <= channels[motor].1 < 16
    ensures Run(MoveSteps(channels, motor, speed)).out == Ok
    ensures Apply(regs, Run(MoveSteps(channels, motor, speed)).ops) == Moved(regs, channels[motor], speed)
  {
    var (c1, c2) := channels[motor];
    var d := MotorDuties(speed);
    RunAppend(SetDutySteps(c1, d.0), SetDutySteps(c2, d.1));
    SetDutyDrives(regs, c1, d.0);
    var mid := Apply(regs, Run(SetDutySteps(c1, d.0)).ops);
    SetDutyDrives(mid, c2, d.1);
    ApplyAppend(regs, Run(SetDutySteps(c1, d.0)).ops, Run(SetDutySteps(c2, d.1)).ops);
  }

  /* ---------- Sequences of moves: drive and mecanum ---------- */

  /** `move(1, v[0])`, `move(2, v[1])`, ... in that order. */
  function MovesSteps(channels: ChannelMap, v: seq<int>): seq<Step>
  {
    if v == [] then [] else MovesSteps(channels, v[..|v| - 1]) + MoveSteps(channels, |v|, v[|v| - 1])
  }

  /** The moves of v return exactly when motors 1..|v| are all in the map. */
  lemma {:induction false} MovesPass(channels: ChannelMap, v: seq<int>)
    ensures Run(MovesSteps(channels, v)).out.Ok? <==> forall m | 1 <= m <= |v| :: m in channels
  {
    if v != [] {
      var k := |v| - 1;
      var init, last := MovesSteps(channels, v[..k]), MoveSteps(channels, |v|, v[k]);
      assert MovesSteps(channels, v) == init + last;
      assert |v[..k]| == k;
      MovesPass(channels, v[..k]);
      RunAppend(init, last);
      if (forall m | 1 <= m <= k :: m in channels) && |v| in channels {
        forall m | 1 <= m <= |v|
          ensures m in channels
        {
          if m <= k {
          }
        }
      }
    }
  }

  /** Motors 1..k are mapped to channels among the 16, and no two of their 2k channels coincide. */
  ghost predicate Wired(channels: ChannelMap, k: nat)
  {
    (forall m | 1 <= m <= k :: m in channels && 0 <= channels[m].0 < 16 && 0 <= channels[m].1 < 16 &&
      channels[m].0 != channels[m].1) &&
    (forall m, n | 1 <= m < n <= k ::
      channels[m].0 != channels[n].0 && channels[m].0 != channels[n].1 &&
      channels[m].1 != channels[n].0 && channels[m].1 != channels[n].1)
  }

  lemma DefaultWired()
    ensures Wired(DefaultChannels, 4)
  {
    var c := DefaultChannels;
    assert c[1] == (7, 6) && c[2] == (5, 4) && c[3] == (2, 3) && c[4] == (0, 1);
    forall m | 1 <= m <= 4
      ensures m in c && 0 <= c[m].0 < 16 && 0 <= c[m].1 < 16 && c[m].0 != c[m].1
    {
      assert m == 1 || m == 2 || m == 3 || m == 4;
    }
    forall m, n | 1 <= m < n <= 4
      ensures c[m].0 != c[n].0 && c[m].0 != c[n].1 && c[m].1 != c[n].0 && c[m].1 != c[n].1
    {
      assert m == 1 || m == 2 || m == 3;
      assert n == 2 || n == 3 || n == 4;
    }
  }

  /** The registers after moving motors 1..|v| at speeds v, in order. */
  function MovedAll(regs: seq<int>, channels: ChannelMap, v: seq<int>): (r: seq<int>)
    requires |regs| == 256 && Wired(channels, |v|)
    ensures |r| == 256
  {
    if v == [] then regs
    else
      assert Wired(channels, |v| - 1);
      Moved(MovedAll(regs, channels, v[..|v| - 1]), channels[|v|], v[|v| - 1])
  }

  lemma {:induction false} MovesRegisters(regs: seq<int>, channels: ChannelMap, v: seq<int>)
    requires |regs| == 256 && Wired(channels, |v|)
    ensures Run(MovesSteps(channels, v)).out == Ok
    ensures Apply(regs, Run(MovesSteps(channels, v)).ops) == MovedAll(regs, channels, v)
  {
    if v != [] {
      var k := |v| - 1;
      assert Wired(channels, k);
      MovesRegisters(regs, channels, v[..k]);
      var before := Run(MovesSteps(channels, v[..k])).ops;
      RunAppend(MovesSteps(channels, v[..k]), MoveSteps(channels, k + 1, v[k]));
      MoveRegisters(Apply(regs, before), channels, k + 1, v[k]);
      ApplyAppend(regs, before, Run(MoveSteps(channels, k + 1, v[k])).ops);
    }
  }

  /** After one `move`, the motor's two channels hold its duties. */
  lemma MovedOwn(regs: seq<int>, pair: (int, int), speed: int)
    requires |regs| == 256 && 0 <= pair.0 < 16 && 0 <= pair.1 < 16 && pair.0 != pair.1
    ensures ChannelCounters(Moved(regs, pair, speed), pair.0) == DutyCounters(MotorDuties(speed).0)
    ensures ChannelCounters(Moved(regs, pair, speed), pair.1) == DutyCounters(MotorDuties(speed).1)
  {
    var d := MotorDuties(speed);
    DutyCountersMeaning(d.0);
    DutyCountersMeaning(d.1);
    var mid := SetChannel(regs, pair.0, DutyCounters(d.0));
    SetChannelReadback(regs, pair.0, DutyCounters(d.0));
    SetChannelReadback(mid, pair.1, DutyCounters(d.1));
    SetChannelOther(mid, pair.1, DutyCounters(d.1), pair.0);
  }

  /** One `move` leaves every channel outside the motor's pair as it was. */
  lemma MovedOther(regs: seq<int>, pair: (int, int), speed: int, c: int)
    requires |regs| == 256 && 0 <= pair.0 < 16 && 0 <= pair.1 < 16 && 0 <= c < 16 && c != pair.0 && c != pair.1
    ensures ChannelCounters(Moved(regs, pair, speed), c) == ChannelCounters(regs, c)
  {
    var d := MotorDuties(speed);
    var mid := SetChannel(regs, pair.0, DutyCounters(d.0));
    SetChannelOther(mid, pair.1, DutyCounters(d.1), c);
    SetChannelOther(regs, pair.0, DutyCounters(d.0), c);
  }

  /** After moving motors 1..|v| of a wired map, each motor's two channels hold the counters of
      the duties for its own speed: no later move disturbs an earlier motor's channels. */
  lemma {:induction false} MovedAllReadback(regs: seq<int>, channels: ChannelMap, v: seq<int>, m: int)
    requires |regs| == 256 && Wired(channels, |v|) && 1 <= m <= |v|
    ensures var r := MovedAll(regs, channels, v);
      ChannelCounters(r, channels[m].0) == DutyCounters(MotorDuties(v[m - 1]).0) &&
      ChannelCounters(r, channels[m].1) == DutyCounters(MotorDuties(v[m - 1]).1)
  {
    var k := |v| - 1;
    assert Wired(channels, k);
    var prev := MovedAll(regs, channels, v[..k]);
    var pair, own := channels[k + 1], channels[m];
    assert MovedAll(regs, channels, v) == Moved(prev, pair, v[k]);
    if m == k + 1 {
      MovedOwn(prev, pair, v[k]);
    } else {
      var d := MotorDuties(v[m - 1]);
      assert ChannelCounters(prev, own.0) == DutyCounters(d.0) && ChannelCounters(prev, own.1) == DutyCounters(d.1) by {
        MovedAllReadback(regs, channels, v[..k], m);
        assert v[..k][m - 1] == v[m - 1];
      }
      assert own.0 != pair.0 && own.0 != pair.1 && own.1 != pair.0 && own.1 != pair.1;
      MovedOther(prev, pair, v[k], own.0);
      MovedOther(prev, pair, v[k], own.1);
    }
  }

  function Negated(v: seq<int>): (r: seq<int>)
    ensures |r| == |v| && forall i | 0 <= i < |v| :: r[i] == -v[i]
  {
    seq(|v|, i requires 0 <= i < |v| => -v[i])
  }

  /** The signed speeds of motors 1..4 for each `drive` direction; None for any other direction. */
  function DriveSpeeds(direction: string, speed: int): (v: Option<seq<int>>)
    ensures v.Some? <==> direction in {"forward", "backward", "left", "right", "stop"}
    ensures v.Some? ==> |v.value| == 4
  {
    if direction == "forward" then Some([speed, speed, speed, speed])
    else if direction == "backward" then Some([-speed, -speed, -speed, -speed])
    else if direction == "left" then Some([speed, speed, -speed, -speed])
    else if direction == "right" then Some([-speed, -speed, speed, speed])
    else if direction == "stop" then Some([0, 0, 0, 0])
    else None
  }

  /** Backward reverses forward and right reverses left, motor by motor. */
  lemma DriveMirrors(speed: int)
    ensures DriveSpeeds("backward", speed).value == Negated(DriveSpeeds("forward", speed).value)
    ensures DriveSpeeds("right", speed).value == Negated(DriveSpeeds("left", speed).value)
  {
  }

  /** `drive(direction, speed)`: the speed clamped to 0..100, then one move per motor. It returns
      exactly when the direction is one of the five named ones and motors 1..4 are all in the map. */
  function DriveSteps(channels: ChannelMap, direction: string, speed: int): (s: seq<Step>)
    ensures Run(s).out.Ok? <==>
      direction in {"forward", "backward", "left", "right", "stop"} && forall m | 1 <= m <= 4 :: m in channels
  {
    match DriveSpeeds(direction, Clamp(speed, 0, 100))
    case None =>
      RunOne(Check(false, InvalidDirection));
      [Check(false, InvalidDirection)]
    case Some(v) =>
      MovesPass(channels, v);
      MovesSteps(channels, v)
  }

  /** The signed speeds of motors 1..4 for each key of the `mecanum` pad; None for any other code. */
  function MecanumSpeeds(code: int, speed: int): (v: Option<seq<int>>)
    ensures v.Some? <==> 1 <= code <= 9
    ensures v.Some? ==> |v.value| == 4 && v.value[0] == v.value[2] && v.value[1] == v.value[3]
  {
    if code == 7 then Some([speed, 0, speed, 0])
    else if code == 9 then Some([0, speed, 0, speed])
    else if code == 4 then Some([speed, -speed, speed, -speed])
    else if code == 6 then Some([-speed, speed, -speed, speed])
    else if code == 1 then Some([0, -speed, 0, -speed])
    else if code == 3 then Some([-speed, 0, -speed, 0])
    else if code == 8 then Some([speed, speed, speed, speed])
    else if code == 2 then Some([-speed, -speed, -speed, -speed])
    else if code == 5 then Some([0, 0, 0, 0])
    else None
  }

  /** The key opposite on the pad (10 - code) drives every wheel the other way. */
  lemma MecanumOpposite(code: int, speed: int)
    requires 1 <= code <= 9
    ensures MecanumSpeeds(10 - code, speed).value == Negated(MecanumSpeeds(code, speed).value)
  {
  }

  /** The diagonal keys superpose into the straight and sideways moves: 7 + 9 = 8, 7 - 9 = 4,
      1 + 3 = 2 and 3 - 1 = 6, wheel by wheel. */
  lemma MecanumDiagonals(speed: int)
    ensures forall i | 0 <= i < 4 ::
      MecanumSpeeds(7, speed).value[i] + MecanumSpeeds(9, speed).value[i] == MecanumSpeeds(8, speed).value[i] &&
      MecanumSpeeds(7, speed).value[i] - MecanumSpeeds(9, speed).value[i] == MecanumSpeeds(4, speed).value[i] &&
      MecanumSpeeds(1, speed).value[i] + MecanumSpeeds(3, speed).value[i] == MecanumSpeeds(2, speed).value[i] &&
      MecanumSpeeds(3, speed).value[i] - MecanumSpeeds(1, speed).value[i] == MecanumSpeeds(6, speed).value[i]
  {
  }

  /** Keys 8, 2 and 5 are drive's forward, backward and stop. */
  lemma MecanumMatchesDrive(speed: int)
    ensures MecanumSpeeds(8, speed) == DriveSpeeds("forward", speed)
    ensures MecanumSpeeds(2, speed) == DriveSpeeds("backward", speed)
    ensures MecanumSpeeds(5, speed) == DriveSpeeds("stop", speed)
  {
  }

  /** `mecanum(direction_code, speed)`: the speed clamped to 0..100, then one move per motor. It
      returns exactly when the code is in 1..9 and motors 1..4 are all in the map. */
  function MecanumSteps(channels: ChannelMap, code: int, speed: int): (s: seq<Step>)
    ensures Run(s).out.Ok? <==> 1 <= code <= 9 && forall m | 1 <= m <= 4 :: m in channels
  {
    match MecanumSpeeds(code, Clamp(speed, 0, 100))
    case None =>
      RunOne(Check(false, InvalidDirectionCode));
      [Check(false, InvalidDirectionCode)]
    case Some(v) =>
      MovesPass(channels, v);
      MovesSteps(channels, v)
  }

  /** A known direction runs the moves of its row of the table. */
  lemma DriveVia(channels: ChannelMap, direction: string, speed: int, v: seq<int>)
    requires DriveSpeeds(direction, Clamp(speed, 0, 100)) == Some(v)
    ensures DriveSteps(channels, direction, speed) == MovesSteps(channels, v)
  {
  }

  /** A known key runs the moves of its row of the table. */
  lemma MecanumVia(channels: ChannelMap, code: int, speed: int, v: seq<int>)
    requires MecanumSpeeds(code, Clamp(speed, 0, 100)) == Some(v)
    ensures MecanumSteps(channels, code, speed) == MovesSteps(channels, v)
  {
  }

  /** An unknown direction raises before any frame is sent. */
  lemma DriveRejects(channels: ChannelMap, direction: string, speed: int)
    requires direction !in {"forward", "backward", "left", "right", "stop"}
    ensures Run(DriveSteps(channels, direction, speed)) == Trace([], Fail(InvalidDirection))
  {
    RunOne(Check(false, InvalidDirection));
  }

  /** An unknown key raises before any frame is sent. */
  lemma MecanumRejects(channels: ChannelMap, code: int, speed: int)
    requires !(1 <= code <= 9)
    ensures Run(MecanumSteps(channels, code, speed)) == Trace([], Fail(InvalidDirectionCode))
  {
    RunOne(Check(false, InvalidDirectionCode));
  }

  /** On a wired map, `drive` with a known direction returns, and afterwards every motor's two
      channels hold the duties of its signed speed in the direction's table. */
  lemma DriveRegisters(regs: seq<int>, channels: ChannelMap, direction: string, speed: int, m: int)
    requires |regs| == 256 && Wired(channels, 4) && 1 <= m <= 4
    requires direction in {"forward", "backward", "left", "right", "stop"}
    ensures var v := DriveSpeeds(direction, Clamp(speed, 0, 100)).value;
      var t := Run(DriveSteps(channels, direction, speed));
      var r := Apply(regs, t.ops);
      t.out == Ok &&
      ChannelCounters(r, channels[m].0) == DutyCounters(MotorDuties(v[m - 1]).0) &&
      ChannelCounters(r, channels[m].1) == DutyCounters(MotorDuties(v[m - 1]).1)
  {
    var v := DriveSpeeds(direction, Clamp(speed, 0, 100)).value;
    MovesRegisters(regs, channels, v);
    MovedAllReadback(regs, channels, v, m);
  }

  /** The same for `mecanum` with a key 1..9. */
  lemma MecanumRegisters(regs: seq<int>, channels: ChannelMap, code: int, speed: int, m: int)
    requires |regs| == 256 && Wired(channels, 4) && 1 <= m <= 4 && 1 <= code <= 9
    ensures var v := MecanumSpeeds(code, Clamp(speed, 0, 100)).value;
      var t := Run(MecanumSteps(channels, code, speed));
      var r := Apply(regs, t.ops);
      t.out == Ok &&
      ChannelCounters(r, channels[m].0) == DutyCounters(MotorDuties(v[m - 1]).0) &&
      ChannelCounters(r, channels[m].1) == DutyCounters(MotorDuties(v[m - 1]).1)
  {
    var v := MecanumSpeeds(code, Clamp(speed, 0, 100)).value;
    MovesRegisters(regs, channels, v);
    MovedAllReadback(regs, channels, v, m);
  }

  /* ---------- The driver object ---------- */

  lemma MovesNone(channels: ChannelMap, l: seq<BusOp>)
    ensures Did(l, l, Ok, MovesSteps(channels, []))
  {
  }

  /** One more `move` after the moves of v returned. */
  lemma DidMove(l0: seq<BusOp>, l1: seq<BusOp>, l2: seq<BusOp>, o: Outcome, channels: ChannelMap, v: seq<int>, x: int)
    requires Did(l0, l1, Ok, MovesSteps(channels, v)) && Did(l1, l2, o, MoveSteps(channels, |v| + 1, x))
    ensures Did(l0, l2, o, MovesSteps(channels, v + [x]))
  {
    assert (v + [x])[..|v|] == v;
    DidThen(l0, l1, l2, Ok, o, MovesSteps(channels, v), MoveSteps(channels, |v| + 1, x));
  }

  /** Once a `move` raised, the moves that were to follow it change nothing. */
  lemma {:induction false} DidMovesStop(l0: seq<BusOp>, l1: seq<BusOp>, o: Outcome, channels: ChannelMap, v: seq<int>, k: nat)
    requires k <= |v| && Did(l0, l1, o, MovesSteps(channels, v[..k])) && o.Fail?
    ensures Did(l0, l1, o, MovesSteps(channels, v))
    decreases |v| - k
  {
    if k < |v| {
      assert v[..k + 1][..k] == v[..k];
      DidStop(l0, l1, o, MovesSteps(channels, v[..k]), MoveSteps(channels, k + 1, v[k]));
      DidMovesStop(l0, l1, o, channels, v, k + 1);
    } else {
      assert v[..k] == v;
    }
  }

  /** A `PonyMotor`: the PWM chip it drives and its motor-to-channels map. */
  class Motor {
    const pwm: PwmController
    const channels: ChannelMap

    constructor (pwm: PwmController, channels: ChannelMap)
      ensures this.pwm == pwm && this.channels == channels
    {
      this.pwm := pwm;
      this.channels := channels;
    }

    /** `PonyMotor(i2c, motor_channels, pwm_freq)`: sets the chip up, then its frequency. The chip
        answers `mode1AtInit` and `mode1AtFrequency` to the two MODE1 reads. When setting the
        frequency raises, no driver object comes into being, but the frames already sent stay sent. */
    static method Create(bus: I2c, mode1AtInit: byte, mode1AtFrequency: byte, motorChannels: Option<ChannelMap> := None,
                         pwmFreq: int := 1000)
      returns (m: Motor?, out: Outcome)
      modifies bus
      ensures Did(old(bus.log), bus.log, out, InitSteps(mode1AtInit) + FrequencySteps(pwmFreq, mode1AtFrequency))
      ensures out.Ok? <==> m != null
      ensures m != null ==>
        fresh(m) && m.pwm.bus == bus &&
        m.channels == (if motorChannels.None? then DefaultChannels else motorChannels.value)
    {
      ghost var l0 := bus.log;
      var pwm := new PwmController(bus, mode1AtInit);
      ghost var l1 := bus.log;
      out := pwm.SetPwmFrequency(pwmFreq, mode1AtFrequency);
      DidThen(l0, l1, bus.log, Ok, out, InitSteps(mode1AtInit), FrequencySteps(pwmFreq, mode1AtFrequency));
      if out.Fail? {
        return null, out;
      }
      var channels := if motorChannels.None? then DefaultChannels else motorChannels.value;
      m := new Motor(pwm, channels);
    }

    /** `move(motor_num, speed_percent)` */
    method Move(motor: int, speed: int) returns (out: Outcome)
      modifies pwm.bus
      ensures Did(old(pwm.bus.log), pwm.bus.log, out, MoveSteps(channels, motor, speed))
    {
      if motor !in channels {
        MoveRejects(channels, motor, speed);
        return Fail(UnknownMotor);
      }
      var s := Clamp(speed, -100, 100);
      var pwmValue := Abs(s) * 4095 / 100;
      var (ch1, ch2) := channels[motor];
      var first, second;
      if s > 0 {
        first, second := pwmValue, 0;
      } else if s < 0 {
        first, second := 0, pwmValue;
      } else {
        first, second := 0, 0;
      }
      assert (first, second) == MotorDuties(speed);
      ghost var l0 := pwm.bus.log;
      out := pwm.SetDuty(ch1, first);
      if out.Fail? {
        DidStop(l0, pwm.bus.log, out, SetDutySteps(ch1, first), SetDutySteps(ch2, second));
        return;
      }
      ghost var l1 := pwm.bus.log;
      out := pwm.SetDuty(ch2, second);
      DidThen(l0, l1, pwm.bus.log, Ok, out, SetDutySteps(ch1, first), SetDutySteps(ch2, second));
    }

    /** `move(k + 1, v[k])` after the moves of v[..k] returned; when it raises, the remaining moves
        of v are as good as done, for they change nothing. */
    method MoveNext(ghost l0: seq<BusOp>, v: seq<int>, k: nat) returns (out: Outcome)
      requires k < |v| && Did(l0, pwm.bus.log, Ok, MovesSteps(channels, v[..k]))
      modifies pwm.bus
      ensures Did(l0, pwm.bus.log, out, MovesSteps(channels, v[..k + 1]))
      ensures out.Fail? ==> Did(l0, pwm.bus.log, out, MovesSteps(channels, v))
    {
      ghost var l := pwm.bus.log;
      var motor := k + 1;
      out := Move(motor, v[k]);
      assert v[..k + 1] == v[..k] + [v[k]];
      DidMove(l0, l, pwm.bus.log, out, channels, v[..k], v[k]);
      if out.Fail? {
        DidMovesStop(l0, pwm.bus.log, out, channels, v, k + 1);
      }
    }

    /** `move(1, a)` to `move(4, d)` in order, as each `drive` and `mecanum` branch writes them. */
    method MoveFour(a: int, b: int, c: int, d: int) returns (out: Outcome)
      modifies pwm.bus
      ensures Did(old(pwm.bus.log), pwm.bus.log, out, MovesSteps(channels, [a, b, c, d]))
    {
      var v := [a, b, c, d];
      ghost var l0 := pwm.bus.log;
      MovesNone(channels, l0);
      assert v[..0] == [];
      out := Ok;
      // The four calls, one speed of v per motor, in the order the source writes them.
      for i := 0 to 4
        invariant out == Ok && Did(l0, pwm.bus.log, Ok, MovesSteps(channels, v[..i]))
      {
        out := MoveNext(l0, v, i);
        if out.Fail? {
          return;
        }
      }
      assert v[..4] == v;
    }

    /** The `stop` branch of `drive` and key 5 of `mecanum`: `move(i, 0)` for i in 1..4. */
    method StopAll() returns (out: Outcome)
      modifies pwm.bus
      ensures Did(old(pwm.bus.log), pwm.bus.log, out, MovesSteps(channels, [0, 0, 0, 0]))
    {
      out := MoveFour(0, 0, 0, 0);
    }

    /** `drive(direction, speed)` */
    method Drive(direction: string, speed: int := 0) returns (out: Outcome)
      modifies pwm.bus
      ensures Did(old(pwm.bus.log), pwm.bus.log, out, DriveSteps(channels, direction, speed))
    {
      var s := Clamp(speed, 0, 100);
      if direction == "forward" {
        out := MoveFour(s, s, s, s);
        DriveVia(channels, direction, speed, [s, s, s, s]);
      } else if direction == "backward" {
        out := MoveFour(-s, -s, -s, -s);
        DriveVia(channels, direction, speed, [-s, -s, -s, -s]);
      } else if direction == "left" {
        out := MoveFour(s, s, -s, -s);
        DriveVia(channels, direction, speed, [s, s, -s, -s]);
      } else if direction == "right" {
        out := MoveFour(-s, -s, s, s);
        DriveVia(channels, direction, speed, [-s, -s, s, s]);
      } else if direction == "stop" {
        out := StopAll();
        DriveVia(channels, direction, speed, [0, 0, 0, 0]);
      } else {
        DriveRejects(channels, direction, speed);
        out := Fail(InvalidDirection);
      }
    }

    /** `mecanum(direction_code, speed)` */
    method Mecanum(code: int, speed: int := 0) returns (out: Outcome)
      modifies pwm.bus
      ensures Did(old(pwm.bus.log), pwm.bus.log, out, MecanumSteps(channels, code, speed))
    {
      var s := Clamp(speed, 0, 100);
      if code == 7 {
        out := MoveFour(s, 0, s, 0);
        MecanumVia(channels, code, speed, [s, 0, s, 0]);
      } else if code == 9 {
        out := MoveFour(0, s, 0, s);
        MecanumVia(channels, code, speed, [0, s, 0, s]);
      } else if code == 4 {
        out := MoveFour(s, -s, s, -s);
        MecanumVia(channels, code, speed, [s, -s, s, -s]);
      } else if code == 6 {
        out := MoveFour(-s, s, -s, s);
        MecanumVia(channels, code, speed, [-s, s, -s, s]);
      } else if code == 1 {
        out := MoveFour(0, -s, 0, -s);
        MecanumVia(channels, code, speed, [0, -s, 0, -s]);
      } else if code == 3 {
        out := MoveFour(-s, 0, -s, 0);
        MecanumVia(channels, code, speed, [-s, 0, -s, 0]);
      } else if code == 8 {
        out := MoveFour(s, s, s, s);
        MecanumVia(channels, code, speed, [s, s, s, s]);
      } else if code == 2 {
        out := MoveFour(-s, -s, -s, -s);
        MecanumVia(channels, code, speed, [-s, -s, -s, -s]);
      } else if code == 5 {
        out := StopAll();
        MecanumVia(channels, code, speed, [0, 0, 0, 0]);
      } else {
        MecanumRejects(channels, code, speed);
        out := Fail(InvalidDirectionCode);
      }
    }
  }
}
