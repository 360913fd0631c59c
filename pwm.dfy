/** The PCA9685 PWM channel controller (`_PWMController`).

    The controller turns duty values and frequencies into register writes on the bus. The chip
    side is modelled as a file of 256 register bytes that each write overwrites, so that what the
    writes mean can be read back: the on/off counter pair of a channel, the prescaler, MODE1. */
module Pwm {
  import opened Util
  import opened Bus

  // Register addresses and bits, with the values the driver uses. The driver sets MODE2 to 0x00,
  // the address of MODE1; the PCA9685 datasheet places MODE2 at 0x01. The value is kept as written.
  const PCA9685_ADDRESS := 0x40
  const MODE1 := 0x00
  const MODE2 := 0x00
  const PRESCALE := 0xFE
  const LED0_ON_L := 0x06
  const LED0_ON_H := 0x07
  const LED0_OFF_L := 0x08
  const LED0_OFF_H := 0x09
  const ALL_LED_ON_L := 0xFA
  const ALL_LED_ON_H := 0xFB
  const ALL_LED_OFF_L := 0xFC
  const ALL_LED_OFF_H := 0xFD
  const RESTART := 0x80
  const SLEEP := 0x10
  const ALLCALL := 0x01
  const OUTDRV := 0x04
  const RESET := 0x00

  /* ---------- Duty values and the on/off counters ---------- */

  /** A channel's LEDn_ON and LEDn_OFF counters; bit 12 of each is its full-on / full-off flag. */
  datatype Counters = Counters(on: int, off: int)

  /** The counter pair `set_duty` programs for a duty value. For an accepted value both counters
      fit their 13-bit registers, and the full-on flag is set exactly for 4095 and the full-off
      flag exactly for 0. */
  function DutyCounters(value: int): (c: Counters)
    ensures 0 <= value <= 4095 ==>
      0 <= c.on <= 4096 && 0 <= c.off <= 4096 &&
      (c.on == 4096 <==> value == 4095) && (c.off == 4096 <==> value == 0)
  {
    if value == 0 then Counters(0, 4096)
    else if value == 4095 then Counters(4096, 0)
    else Counters(0, value)
  }

  /** The number of ticks, out of the 4096 of a PWM period, during which a channel with these
      counters drives its output high, as section 7.3.3 of the NXP PCA9685 datasheet describes it:
      the full-off flag wins over the full-on flag; otherwise the output rises when the 12-bit
      counter reaches `on` and falls when it reaches `off`. */
  function HighTicks(c: Counters): (t: nat)
    ensures t <= 4096
  {
    if (c.off / 4096) % 2 == 1 then 0
    else if (c.on / 4096) % 2 == 1 then 4096
    else (c.off % 4096 - c.on % 4096) % 4096
  }

  /** Every accepted duty value becomes counters that fit their 13-bit registers, and a channel
      with them is high for `value` ticks, except that 4095 becomes always-on (4096 ticks). */
  lemma DutyCountersMeaning(value: int)
    requires 0 <= value <= 4095
    ensures var c := DutyCounters(value);
      0 <= c.on <= 4096 && 0 <= c.off <= 4096 &&
      HighTicks(c) == if value == 4095 then 4096 else value
  {
  }

  /** A larger duty value always keeps the output high for longer. */
  lemma DutyCountersMonotone(v: int, w: int)
    requires 0 <= v < w <= 4095
    ensures HighTicks(DutyCounters(v)) < HighTicks(DutyCounters(w))
  {
    DutyCountersMeaning(v);
    DutyCountersMeaning(w);
  }

  /* ---------- The register file ---------- */

  /** The chip's registers after the frames `ops` reach it: each write overwrites one byte. */
  function Apply(regs: seq<int>, ops: seq<BusOp>): (r: seq<int>)
    ensures |r| == |regs|
    decreases |ops|
  {
    if ops == [] then regs else Apply(Store(regs, ops[0]), ops[1..])
  }

  /** The registers after one frame: a write overwrites its register, a selection changes nothing. */
  function Store(regs: seq<int>, op: BusOp): (r: seq<int>)
    ensures |r| == |regs|
  {
    match op
    case Select(_) => regs
    case Write(reg, val) => if reg < |regs| then regs[reg := val] else regs
  }

  lemma {:induction false} ApplyAppend(regs: seq<int>, a: seq<BusOp>, b: seq<BusOp>)
    ensures Apply(regs, a + b) == Apply(Apply(regs, a), b)
    decreases |a|
  {
    if a != [] {
      assert (a + b)[0] == a[0];
      assert (a + b)[1..] == a[1..] + b;
      ApplyAppend(Store(regs, a[0]), a[1..], b);
    } else {
      assert a + b == b;
    }
  }

  lemma ApplySnoc(regs: seq<int>, ops: seq<BusOp>, op: BusOp)
    ensures Apply(regs, ops + [op]) == Store(Apply(regs, ops), op)
  {
    ApplyAppend(regs, ops, [op]);
    assert [op][1..] == [];
  }

  lemma ApplyWrite(regs: seq<int>, reg: byte, val: byte)
    requires |regs| == 256
    ensures Apply(regs, [Write(reg, val)]) == regs[reg := val]
  {
    assert [Write(reg, val)][1..] == [];
  }

  lemma ApplyWrites(regs: seq<int>, ops: seq<BusOp>, r1: byte, v1: byte, r2: byte, v2: byte, r3: byte, v3: byte, r4: byte, v4: byte)
    requires |regs| == 256
    requires ops == [Write(r1, v1), Write(r2, v2), Write(r3, v3), Write(r4, v4)]
    ensures Apply(regs, ops) == regs[r1 := v1][r2 := v2][r3 := v3][r4 := v4]
  {
    assert ops == [Write(r1, v1)] + [Write(r2, v2)] + [Write(r3, v3)] + [Write(r4, v4)];
    ApplyAppend(regs, [Write(r1, v1)] + [Write(r2, v2)] + [Write(r3, v3)], [Write(r4, v4)]);
    ApplyAppend(regs, [Write(r1, v1)] + [Write(r2, v2)], [Write(r3, v3)]);
    ApplyAppend(regs, [Write(r1, v1)], [Write(r2, v2)]);
    ApplyWrite(regs, r1, v1);
    ApplyWrite(regs[r1 := v1], r2, v2);
    ApplyWrite(regs[r1 := v1][r2 := v2], r3, v3);
    ApplyWrite(regs[r1 := v1][r2 := v2][r3 := v3], r4, v4);
  }

  /** A register that no write in `ops` names keeps its value. */
  lemma {:induction false} ApplyUntouched(regs: seq<int>, ops: seq<BusOp>, k: int)
    requires 0 <= k < |regs|
    requires forall i | 0 <= i < |ops| :: ops[i].Write? ==> ops[i].reg != k
    ensures Apply(regs, ops)[k] == regs[k]
    decreases |ops|
  {
    if ops != [] {
      ApplyUntouched(Store(regs, ops[0]), ops[1..], k);
    }
  }

  /** The counter pair a channel's four registers hold. */
  function ChannelCounters(regs: seq<int>, channel: int): Counters
    requires |regs| == 256 && 0 <= channel < 16
  {
    var base := LED0_ON_L + 4 * channel;
    Counters(regs[base] + 256 * regs[base + 1], regs[base + 2] + 256 * regs[base + 3])
  }

  /* ---------- set_pwm_duty_cycle and set_all_pwm ---------- */

  /** `set_pwm_duty_cycle(channel, on, off)`: `x % 256` is Python's `x & 0xFF` and `x / 256` its
      `x >> 8`, for every integer `x`. It is four register writes and no check, so nothing in it
      can raise. */
  function DutyCycleSteps(channel: int, on: int, off: int): (s: seq<Step>)
    ensures |s| == 4 && forall i | 0 <= i < 4 :: s[i].Put?
  {
    [Put(LED0_ON_L + 4 * channel, on % 256), Put(LED0_ON_H + 4 * channel, on / 256),
     Put(LED0_OFF_L + 4 * channel, off % 256), Put(LED0_OFF_H + 4 * channel, off / 256)]
  }

  /** `set_all_pwm(on, off)`: the same framing at the ALL_LED registers, four writes and no check. */
  function AllSteps(on: int, off: int): (s: seq<Step>)
    ensures |s| == 4 && forall i | 0 <= i < 4 :: s[i].Put?
  {
    [Put(ALL_LED_ON_L, on % 256), Put(ALL_LED_ON_H, on / 256),
     Put(ALL_LED_OFF_L, off % 256), Put(ALL_LED_OFF_H, off / 256)]
  }

  /** `set_pwm_duty_cycle` returns for every channel and every pair of counters, after sending its
      four frames in order, each register number and byte cut to its low eight bits. */
  lemma DutyCycleFrames(channel: int, on: int, off: int)
    ensures Run(DutyCycleSteps(channel, on, off)) == Trace(
      [Write(Low(LED0_ON_L + 4 * channel), on % 256), Write(Low(LED0_ON_H + 4 * channel), Low(on / 256)),
       Write(Low(LED0_OFF_L + 4 * channel), off % 256), Write(Low(LED0_OFF_H + 4 * channel), Low(off / 256))], Ok)
  {
    var steps := DutyCycleSteps(channel, on, off);
    RunFour(steps[0], steps[1], steps[2], steps[3]);
  }

  /** A register number 256 further on is the same byte. */
  lemma LowWrap(x: int)
    ensures Low(x + 256) == Low(x)
  {
  }

  /** No channel number is refused. Channels 64 apart send the same frames, and channel 62, the
      first past the 16 real ones whose registers no longer exist, writes its four bytes to
      PRESCALE, 0xFF, MODE1 and 0x01. */
  lemma DutyCycleWraps(channel: int, on: int, off: int)
    ensures Run(DutyCycleSteps(channel + 64, on, off)) == Run(DutyCycleSteps(channel, on, off))
    ensures var ops := Run(DutyCycleSteps(62, on, off)).ops;
      |ops| == 4 && ops[0].reg == PRESCALE && ops[1].reg == 0xFF && ops[2].reg == MODE1 && ops[3].reg == 0x01
  {
    DutyCycleFrames(channel, on, off);
    DutyCycleFrames(channel + 64, on, off);
    DutyCycleFrames(62, on, off);
    var base := LED0_ON_L + 4 * channel;
    assert LED0_ON_L + 4 * (channel + 64) == base + 256;
    LowWrap(base);
    LowWrap(base + 1);
    LowWrap(base + 2);
    LowWrap(base + 3);
  }

  /** The registers with one channel's four bytes holding counters `c`, low byte first. */
  function SetChannel(regs: seq<int>, channel: int, c: Counters): (r: seq<int>)
    requires |regs| == 256 && 0 <= channel < 16
    ensures |r| == 256
  {
    Fill(regs, LED0_ON_L + 4 * channel, [c.on % 256, c.on / 256, c.off % 256, c.off / 256])
  }

  /** `bytes` written to the consecutive registers from `base` on. */
  function Fill(regs: seq<int>, base: int, bytes: seq<int>): (r: seq<int>)
    requires 0 <= base && base + |bytes| <= |regs|
    ensures |r| == |regs|
    decreases |bytes|
  {
    if bytes == [] then regs else Fill(regs[base := bytes[0]], base + 1, bytes[1..])
  }

  /** Filling four registers is four register updates in a row. */
  lemma FillFour(regs: seq<int>, base: int, a: int, b: int, c: int, d: int)
    requires 0 <= base && base + 4 <= |regs|
    ensures Fill(regs, base, [a, b, c, d]) == regs[base := a][base + 1 := b][base + 2 := c][base + 3 := d]
  {
    assert [a, b, c, d][1..] == [b, c, d] && [b, c, d][1..] == [c, d] && [c, d][1..] == [d] && [d][1..] == [];
    var r1 := regs[base := a];
    var r2 := r1[base + 1 := b];
    var r3 := r2[base + 2 := c];
    assert Fill(regs, base, [a, b, c, d]) == Fill(r1, base + 1, [b, c, d]);
    assert Fill(r1, base + 1, [b, c, d]) == Fill(r2, base + 2, [c, d]);
    assert Fill(r2, base + 2, [c, d]) == Fill(r3, base + 3, [d]);
    assert Fill(r3, base + 3, [d]) == Fill(r3[base + 3 := d], base + 4, []);
  }

  /** A channel programmed with 16-bit counters reads them back, and no register outside its four
      changes. */
  lemma SetChannelReadback(regs: seq<int>, channel: int, c: Counters)
    requires |regs| == 256 && 0 <= channel < 16
    ensures 0 <= c.on < 65536 && 0 <= c.off < 65536 ==> ChannelCounters(SetChannel(regs, channel, c), channel) == c
    ensures forall k | 0 <= k < 256 && !(LED0_ON_L + 4 * channel <= k < LED0_ON_L + 4 * channel + 4) ::
      SetChannel(regs, channel, c)[k] == regs[k]
  {
    FillFour(regs, LED0_ON_L + 4 * channel, c.on % 256, c.on / 256, c.off % 256, c.off / 256);
  }

  /** Programming one channel leaves every other channel's counters as they were. */
  lemma SetChannelOther(regs: seq<int>, channel: int, c: Counters, other: int)
    requires |regs| == 256 && 0 <= channel < 16 && 0 <= other < 16 && other != channel
    ensures ChannelCounters(SetChannel(regs, channel, c), other) == ChannelCounters(regs, other)
  {
    SetChannelReadback(regs, channel, c);
  }

  /** After `set_pwm_duty_cycle` on one of the 16 channels, the channel's four registers hold
      `on` and `off` (low byte + 256 * high byte) and no other register changes. */
  lemma DutyCycleRegisters(regs: seq<int>, channel: int, on: int, off: int)
    requires |regs| == 256 && 0 <= channel < 16 && 0 <= on < 65536 && 0 <= off < 65536
    ensures Apply(regs, Run(DutyCycleSteps(channel, on, off)).ops) == SetChannel(regs, channel, Counters(on, off))
  {
    DutyCycleFrames(channel, on, off);
    var base := LED0_ON_L + 4 * channel;
    ApplyWrites(regs, Run(DutyCycleSteps(channel, on, off)).ops,
      base, on % 256, base + 1, on / 256, base + 2, off % 256, base + 3, off / 256);
    FillFour(regs, base, on % 256, on / 256, off % 256, off / 256);
  }

  /** The frames of `set_all_pwm`, sent for every pair of counters. */
  lemma AllFrames(on: int, off: int)
    ensures Run(AllSteps(on, off)) == Trace(
      [Write(ALL_LED_ON_L, on % 256), Write(ALL_LED_ON_H, Low(on / 256)),
       Write(ALL_LED_OFF_L, off % 256), Write(ALL_LED_OFF_H, Low(off / 256))], Ok)
  {
    var steps := AllSteps(on, off);
    RunFour(steps[0], steps[1], steps[2], steps[3]);
  }

  /** A low byte and a wrapped high byte together hold the integer modulo 2^16. */
  lemma SplitWord(x: int)
    ensures x % 256 + 256 * Low(x / 256) == x % 65536
  {
    var q, r := x / 256, x % 256;
    var q2, r2 := q / 256, q % 256;
    assert x == 65536 * q2 + (256 * r2 + r);
    assert 0 <= 256 * r2 + r < 65536;
  }

  /** After `set_all_pwm`, the ALL_LED registers hold `on` and `off` modulo 2^16 (exactly, for
      counters that fit 16 bits), and no other register changes. */
  lemma AllRegisters(regs: seq<int>, on: int, off: int)
    requires |regs| == 256
    ensures var r := Apply(regs, Run(AllSteps(on, off)).ops);
      r[ALL_LED_ON_L] + 256 * r[ALL_LED_ON_H] == on % 65536 &&
      r[ALL_LED_OFF_L] + 256 * r[ALL_LED_OFF_H] == off % 65536 &&
      forall k | 0 <= k < 256 && !(ALL_LED_ON_L <= k <= ALL_LED_OFF_H) :: r[k] == regs[k]
  {
    AllFrames(on, off);
    ApplyWrites(regs, Run(AllSteps(on, off)).ops,
      ALL_LED_ON_L, on % 256, ALL_LED_ON_H, Low(on / 256), ALL_LED_OFF_L, off % 256, ALL_LED_OFF_H, Low(off / 256));
    SplitWord(on);
    SplitWord(off);
  }

  /* ---------- set_duty ---------- */

  /** `set_duty(channel, value)`: the range check, then the counters. The check comes before
      every write, and it is the only step that can raise. */
  function SetDutySteps(channel: int, value: int): (s: seq<Step>)
    ensures |s| == 5 && s[0] == Check(0 <= value <= 4095, DutyOutOfRange)
    ensures forall i | 1 <= i < 5 :: s[i].Put?
  {
    var c := DutyCounters(value);
    [Check(0 <= value <= 4095, DutyOutOfRange)] + DutyCycleSteps(channel, c.on, c.off)
  }

  /** A value outside 0..4095 raises before any frame is sent. */
  lemma SetDutyRejects(channel: int, value: int)
    requires !(0 <= value <= 4095)
    ensures Run(SetDutySteps(channel, value)) == Trace([], Fail(DutyOutOfRange))
  {
    var c := DutyCounters(value);
    RunRaisesFirst(Check(false, DutyOutOfRange), DutyCycleSteps(channel, c.on, c.off));
  }

  /** `set_duty` returns exactly when the value is in 0..4095, whatever the channel. */
  lemma SetDutyAccepted(channel: int, value: int)
    ensures Run(SetDutySteps(channel, value)).out.Ok? <==> 0 <= value <= 4095
  {
    var c := DutyCounters(value);
    RunAppend([Check(0 <= value <= 4095, DutyOutOfRange)], DutyCycleSteps(channel, c.on, c.off));
    RunOne(Check(0 <= value <= 4095, DutyOutOfRange));
    DutyCycleFrames(channel, c.on, c.off);
  }

  /** In range, `set_duty` sends exactly the frames of `set_pwm_duty_cycle` for its counters. */
  lemma SetDutyFrames(channel: int, value: int)
    requires 0 <= value <= 4095
    ensures var c := DutyCounters(value); Run(SetDutySteps(channel, value)) == Run(DutyCycleSteps(channel, c.on, c.off))
  {
    var c := DutyCounters(value);
    RunAppend([Check(0 <= value <= 4095, DutyOutOfRange)], DutyCycleSteps(channel, c.on, c.off));
    RunOne(Check(0 <= value <= 4095, DutyOutOfRange));
  }

  /** `set_duty` on one of the 16 channels programs that channel with the counters of `value`
      and nothing else; the channel is then high for `value` ticks of 4096, 4095 meaning always on. */
  lemma SetDutyDrives(regs: seq<int>, channel: int, value: int)
    requires |regs| == 256 && 0 <= channel < 16 && 0 <= value <= 4095
    ensures var r := Apply(regs, Run(SetDutySteps(channel, value)).ops);
      Run(SetDutySteps(channel, value)).out == Ok &&
      r == SetChannel(regs, channel, DutyCounters(value)) &&
      HighTicks(ChannelCounters(r, channel)) == (if value == 4095 then 4096 else value)
  {
    var c := DutyCounters(value);
    SetDutyFrames(channel, value);
    DutyCountersMeaning(value);
    DutyCycleFrames(channel, c.on, c.off);
    DutyCycleRegisters(regs, channel, c.on, c.off);
    SetChannelReadback(regs, channel, c);
  }

  /* ---------- set_pwm_frequency ---------- */

  /** The PRE_SCALE value `set_pwm_frequency` computes, `floor(25000000 / 4096 / freq - 1 + 0.5)`,
      taken in exact arithmetic: the floor of (25000000 - 2048 * freq) / (4096 * freq). For a
      positive frequency `p + 1` is 25 MHz / (4096 * freq) rounded to the nearest integer with
      halves rounded up, as in section 7.3.5 of the PCA9685 datasheet; a negative frequency gives
      a negative prescale. */
  function Prescale(freq: int): (p: int)
    requires freq != 0
    ensures freq > 0 ==> 4096 * freq * p <= 25000000 - 2048 * freq < 4096 * freq * p + 4096 * freq
    ensures freq < 0 ==> p < 0
  {
    if freq > 0 then
      DivBounds(25000000 - 2048 * freq, 4096 * freq);
      (25000000 - 2048 * freq) / (4096 * freq)
    else
      DivBounds(2048 * freq - 25000000, -4096 * freq);
      (2048 * freq - 25000000) / (-4096 * freq)
  }

  /** Prescale is the only integer with that rounding property. */
  lemma PrescaleUnique(freq: int, p: int)
    requires freq > 0
    requires 4096 * freq * p <= 25000000 - 2048 * freq < 4096 * freq * p + 4096 * freq
    ensures p == Prescale(freq)
  {
    FloorUnique(25000000 - 2048 * freq, 4096 * freq, p, Prescale(freq));
  }

  /** The prescale fits the PRESCALE byte exactly for 24..12207 Hz; for any other non-zero
      frequency `bytearray` sends only its low eight bits. */
  lemma PrescaleIsByte(freq: int)
    requires freq != 0
    ensures IsByte(Prescale(freq)) <==> 24 <= freq <= 12207
  {
    var p := Prescale(freq);
    if freq > 0 {
      var n, d := 25000000 - 2048 * freq, 4096 * freq;
      assert d * p <= n < d * p + d;
      assert d * p + d == (p + 1) * d && d * p == p * d;
      if p < 0 {
        MulLeft(p + 1, 0, d);
      } else {
        MulLeft(0, p, d);
      }
      if p <= 255 {
        MulLeft(p + 1, 256, d);
      } else {
        MulLeft(256, p, d);
      }
    }
  }

  /** The prescales of the drivers' default motor frequency (1000 Hz) and of 50 Hz servo use. */
  lemma DefaultPrescales()
    ensures Prescale(1000) == 5 && Prescale(50) == 121
  {
  }

  /** Bit `i` of a register byte. */
  predicate Bit(b: bv8, i: nat)
    requires i < 8
  {
    (b >> i) & 1 == 1
  }

  /** Bit `i` of a register value. */
  predicate ByteBit(b: byte, i: nat)
    requires i < 8
  {
    Bit(b as bv8, i)
  }

  /** A bit pattern stored as a register value keeps its bits. */
  lemma ToByteAndBack(x: bv8)
    ensures (x as int) as bv8 == x
  {
  }

  /** `(oldmode & 0x7F) | 0x10` on the byte's bits. */
  function Asleep(mode: bv8): bv8
  {
    (mode & 0x7F) | (SLEEP as bv8)
  }

  /** The MODE1 value written before the prescale. */
  function SleepMode(mode: byte): byte
  {
    Asleep(mode as bv8) as int
  }

  /** The sleep mode has SLEEP set and RESTART cleared, and keeps every other MODE1 bit. */
  lemma SleepModeBits(mode: byte)
    ensures ByteBit(SleepMode(mode), 4) && !ByteBit(SleepMode(mode), 7)
    ensures forall i: nat | i < 8 && i != 4 && i != 7 :: ByteBit(SleepMode(mode), i) == ByteBit(mode, i)
  {
    ToByteAndBack(Asleep(mode as bv8));
    AsleepBits(mode as bv8);
  }

  lemma AsleepBits(mode: bv8)
    ensures Bit(Asleep(mode), 4) && !Bit(Asleep(mode), 7)
    ensures forall i: nat | i < 8 && i != 4 && i != 7 :: Bit(Asleep(mode), i) == Bit(mode, i)
  {
  }

  /** `oldmode | RESTART` on the byte's bits. */
  function Restarted(mode: bv8): bv8
  {
    mode | (RESTART as bv8)
  }

  /** The MODE1 value written last by `set_pwm_frequency`. */
  function RestartMode(mode: byte): byte
  {
    Restarted(mode as bv8) as int
  }

  /** The restart mode has RESTART set and keeps every other MODE1 bit. */
  lemma RestartModeBits(mode: byte)
    ensures ByteBit(RestartMode(mode), 7)
    ensures forall i: nat | i < 7 :: ByteBit(RestartMode(mode), i) == ByteBit(mode, i)
  {
    ToByteAndBack(Restarted(mode as bv8));
    RestartedBits(mode as bv8);
  }

  lemma RestartedBits(mode: bv8)
    ensures Bit(Restarted(mode), 7)
    ensures forall i: nat | i < 7 :: Bit(Restarted(mode), i) == Bit(mode, i)
  {
  }

  /** `mode1 & ~SLEEP` on the byte's bits. */
  function Awake(mode: bv8): bv8
  {
    mode & !(SLEEP as bv8)
  }

  /** The MODE1 value written last by `__init__`. */
  function WakeMode(mode: byte): byte
  {
    Awake(mode as bv8) as int
  }

  /** The wake mode has SLEEP cleared and keeps every other MODE1 bit. */
  lemma WakeModeBits(mode: byte)
    ensures !ByteBit(WakeMode(mode), 4)
    ensures forall i: nat | i < 8 && i != 4 :: ByteBit(WakeMode(mode), i) == ByteBit(mode, i)
  {
    ToByteAndBack(Awake(mode as bv8));
    AwakeBits(mode as bv8);
  }

  lemma AwakeBits(mode: bv8)
    ensures !Bit(Awake(mode), 4)
    ensures forall i: nat | i < 8 && i != 4 :: Bit(Awake(mode), i) == Bit(mode, i)
  {
  }

  /** `set_pwm_frequency(freq)`, where `mode` is the MODE1 byte the chip answers to the read. Its
      only check is the division by zero at 0 Hz, before anything is sent. */
  function FrequencySteps(freq: int, mode: byte): (s: seq<Step>)
    ensures |s| > 0 && (freq == 0 <==> s[0].Check?)
    ensures forall i | 1 <= i < |s| :: !s[i].Check?
  {
    if freq == 0 then [Check(false, ZeroDivision)]
    else [Point(MODE1), Put(MODE1, SleepMode(mode)), Put(PRESCALE, Prescale(freq)),
          Put(MODE1, mode), Put(MODE1, RestartMode(mode))]
  }

  /** The frames `set_pwm_frequency` sends for a non-zero frequency: PRESCALE receives the low
      byte of the prescale. */
  function FrequencyOps(freq: int, mode: byte): seq<BusOp>
    requires freq != 0
  {
    [Select(MODE1), Write(MODE1, SleepMode(mode))] + [Write(PRESCALE, Low(Prescale(freq)))] +
    [Write(MODE1, mode), Write(MODE1, RestartMode(mode))]
  }

  /** For every non-zero frequency `set_pwm_frequency` sends all its frames and returns. */
  lemma FrequencyFrames(freq: int, mode: byte)
    requires freq != 0
    ensures Run(FrequencySteps(freq, mode)) == Trace(FrequencyOps(freq, mode), Ok)
  {
    var steps := FrequencySteps(freq, mode);
    assert steps == [steps[0]] + [steps[1], steps[2], steps[3], steps[4]];
    RunOne(steps[0]);
    RunFour(steps[1], steps[2], steps[3], steps[4]);
    RunAppend([steps[0]], [steps[1], steps[2], steps[3], steps[4]]);
  }

  /** A zero frequency raises (division by zero) before anything is sent. */
  lemma FrequencyZero(mode: byte)
    ensures Run(FrequencySteps(0, mode)) == Trace([], Fail(ZeroDivision))
  {
    RunOne(Check(false, ZeroDivision));
  }

  /** For a non-zero frequency `set_pwm_frequency` returns after five frames, and only MODE1 and
      PRESCALE are written. */
  lemma FrequencyTargets(freq: int, mode: byte)
    requires freq != 0
    ensures var t := Run(FrequencySteps(freq, mode));
      t.out == Ok && |t.ops| == 5 &&
      forall i | 0 <= i < |t.ops| :: t.ops[i].Write? ==> t.ops[i].reg == MODE1 || t.ops[i].reg == PRESCALE
  {
    FrequencyFrames(freq, mode);
    var ops := FrequencyOps(freq, mode);
    forall i | 0 <= i < |ops|
      ensures ops[i].Write? ==> ops[i].reg == MODE1 || ops[i].reg == PRESCALE
    {
      assert i == 0 || i == 1 || i == 2 || i == 3 || i == 4;
    }
  }

  /** PRESCALE is written while MODE1 has SLEEP set; afterwards MODE1 is the old mode with RESTART
      set, PRESCALE holds the low byte of the prescale, which is the prescale itself exactly for
      24..12207 Hz, and every other register is as before. */
  lemma FrequencyRegisters(regs: seq<int>, freq: int, mode: byte)
    requires |regs| == 256 && freq != 0
    ensures var t := Run(FrequencySteps(freq, mode));
      var r := Apply(regs, t.ops);
      |t.ops| == 5 && t.ops[2] == Write(PRESCALE, Low(Prescale(freq))) && Apply(regs, t.ops[..2])[MODE1] == SleepMode(mode) &&
      r[MODE1] == RestartMode(mode) && r[PRESCALE] == Low(Prescale(freq)) &&
      (r[PRESCALE] == Prescale(freq) <==> 24 <= freq <= 12207) &&
      forall k | 0 <= k < 256 && k != MODE1 && k != PRESCALE :: r[k] == regs[k]
  {
    FrequencyFrames(freq, mode);
    PrescaleIsByte(freq);
    var p := Low(Prescale(freq));
    var sleep := [Select(MODE1), Write(MODE1, SleepMode(mode))];
    var scale := [Write(PRESCALE, p)];
    var wake := [Write(MODE1, mode), Write(MODE1, RestartMode(mode))];
    var ops := FrequencyOps(freq, mode);
    assert ops == sleep + scale + wake && ops[..2] == sleep;
    var asleep := regs[MODE1 := SleepMode(mode)];
    assert Apply(regs, sleep) == asleep by {
      ApplyAppend(regs, [Select(MODE1)], [Write(MODE1, SleepMode(mode))]);
      assert [Select(MODE1)][1..] == [];
      ApplyWrite(regs, MODE1, SleepMode(mode));
    }
    var scaled := asleep[PRESCALE := p];
    ApplyWrite(asleep, PRESCALE, p);
    assert Apply(scaled, wake) == scaled[MODE1 := mode][MODE1 := RestartMode(mode)] by {
      ApplyAppend(scaled, [Write(MODE1, mode)], [Write(MODE1, RestartMode(mode))]);
      ApplyWrite(scaled, MODE1, mode);
      ApplyWrite(scaled[MODE1 := mode], MODE1, RestartMode(mode));
    }
    ApplyAppend(regs, sleep, scale);
    ApplyAppend(regs, sleep + scale, wake);
  }

  /** Outside 24..12207 Hz nothing is refused: the byte PRESCALE receives differs from the
      prescale, so the chip runs at another frequency than the one asked for. At 10 Hz the
      prescale is 609 and PRESCALE receives 97. */
  lemma FrequencyWraps(freq: int)
    requires freq != 0 && !(24 <= freq <= 12207)
    ensures Low(Prescale(freq)) != Prescale(freq)
    ensures freq == 10 ==> Prescale(freq) == 609 && Low(Prescale(freq)) == 97
  {
    PrescaleIsByte(freq);
  }

  /* ---------- __init__ ---------- */

  /** The write sequence of `__init__`, where `mode1` is the MODE1 byte the chip answers to the
      read. None of its nine steps is a check, so nothing in it can raise. */
  function InitSteps(mode1: byte): (s: seq<Step>)
    ensures |s| == 9 && forall i | 0 <= i < 9 :: !s[i].Check?
  {
    [Put(MODE1, RESET)] + AllSteps(0, 0) +
    [Put(MODE2, OUTDRV), Put(MODE1, ALLCALL), Point(MODE1), Put(MODE1, WakeMode(mode1))]
  }


  /** The frames `__init__` sends, in order. */
  function InitOps(mode1: byte): seq<BusOp>
  {
    [Write(MODE1, RESET)] +
    [Write(ALL_LED_ON_L, 0), Write(ALL_LED_ON_H, 0), Write(ALL_LED_OFF_L, 0), Write(ALL_LED_OFF_H, 0)] +
    [Write(MODE2, OUTDRV), Write(MODE1, ALLCALL), Select(MODE1), Write(MODE1, WakeMode(mode1))]
  }

  /** `__init__` never raises and sends its frames in the order the driver writes them. */
  lemma InitFrames(mode1: byte)
    ensures Run(InitSteps(mode1)) == Trace(InitOps(mode1), Ok)
  {
    var head := [Put(MODE1, RESET)] + AllSteps(0, 0);
    var tail := [Put(MODE2, OUTDRV), Put(MODE1, ALLCALL), Point(MODE1), Put(MODE1, WakeMode(mode1))];
    var ops := InitOps(mode1);
    assert Run(head) == Trace(ops[..5], Ok) by {
      RunOne(Put(MODE1, RESET));
      AllFrames(0, 0);
      RunAppend([Put(MODE1, RESET)], AllSteps(0, 0));
    }
    assert Run(tail) == Trace(ops[5..], Ok) by {
      RunFour(tail[0], tail[1], tail[2], tail[3]);
    }
    RunAppend(head, tail);
    assert ops[..5] + ops[5..] == ops;
  }

  /** `__init__` never raises and writes only MODE1 and the ALL_LED registers: because MODE2 is
      0x00 in the driver, register 0x01 (the datasheet's MODE2) is never written, and the OUTDRV
      byte goes to MODE1. */
  lemma InitTargets(mode1: byte)
    ensures var t := Run(InitSteps(mode1));
      t.out == Ok && |t.ops| == 9 && t.ops[5] == Write(MODE1, OUTDRV) &&
      forall i | 0 <= i < |t.ops| :: t.ops[i].Write? ==> t.ops[i].reg == MODE1 || ALL_LED_ON_L <= t.ops[i].reg <= ALL_LED_OFF_H
  {
    InitFrames(mode1);
  }

  /** After `__init__` the OUTDRV byte has been replaced by ALLCALL in MODE1 before the read-back;
      at the end every channel is addressed as on = off = 0 through the ALL_LED registers, MODE1
      is the read-back byte with SLEEP cleared, and every register from 0x01 to 0xF9 (all but
      MODE1, the ALL_LED registers and those above them) is as it was. */
  lemma InitRegisters(regs: seq<int>, mode1: byte)
    requires |regs| == 256
    ensures var t := Run(InitSteps(mode1));
      var r := Apply(regs, t.ops);
      |t.ops| == 9 && Apply(regs, t.ops[..7])[MODE1] == ALLCALL &&
      r[MODE1] == WakeMode(mode1) &&
      r[ALL_LED_ON_L] == 0 && r[ALL_LED_ON_H] == 0 && r[ALL_LED_OFF_L] == 0 && r[ALL_LED_OFF_H] == 0 &&
      forall k | 0 < k < ALL_LED_ON_L :: r[k] == regs[k]
  {
    InitFrames(mode1);
    var ops := InitOps(mode1);
    InitAllCall(regs, mode1);
    InitAllLeds(regs, mode1);
    assert Apply(regs, ops)[MODE1] == WakeMode(mode1) by {
      assert ops == ops[..8] + [ops[8]];
      ApplySnoc(regs, ops[..8], ops[8]);
    }
    forall k | 0 < k < ALL_LED_ON_L
      ensures Apply(regs, ops)[k] == regs[k]
    {
      assert forall i | 0 <= i < |ops| :: ops[i].Write? ==> ops[i].reg == MODE1 || ALL_LED_ON_L <= ops[i].reg;
      ApplyUntouched(regs, ops, k);
    }
  }

  lemma InitAllCall(regs: seq<int>, mode1: byte)
    requires |regs| == 256
    ensures Apply(regs, InitOps(mode1)[..7])[MODE1] == ALLCALL
  {
    var ops := InitOps(mode1);
    assert ops[..7] == ops[..6] + [ops[6]];
    ApplySnoc(regs, ops[..6], ops[6]);
  }

  lemma InitAllLeds(regs: seq<int>, mode1: byte)
    requires |regs| == 256
    ensures forall k | ALL_LED_ON_L <= k <= ALL_LED_OFF_H :: Apply(regs, InitOps(mode1))[k] == 0
  {
    var ops := InitOps(mode1);
    var first := regs[MODE1 := RESET];
    assert ops[..5] == [ops[0]] + ops[1..5];
    ApplyAppend(regs, [ops[0]], ops[1..5]);
    ApplyWrite(regs, MODE1, RESET);
    ApplyWrites(first, ops[1..5], ALL_LED_ON_L, 0, ALL_LED_ON_H, 0, ALL_LED_OFF_L, 0, ALL_LED_OFF_H, 0);
    var mid := Apply(regs, ops[..5]);
    assert ops == ops[..5] + ops[5..];
    ApplyAppend(regs, ops[..5], ops[5..]);
    forall k | ALL_LED_ON_L <= k <= ALL_LED_OFF_H
      ensures Apply(regs, ops)[k] == 0
    {
      ApplyUntouched(mid, ops[5..], k);
    }
  }

  /** The calls `__init__` makes, one after another, amount to running its steps. */
  lemma InitDid(l0: seq<BusOp>, l1: seq<BusOp>, l2: seq<BusOp>, l3: seq<BusOp>, l4: seq<BusOp>, l5: seq<BusOp>,
                l6: seq<BusOp>, mode1: byte)
    requires l1 == l0 + [Write(MODE1, RESET)] && Did(l1, l2, Ok, AllSteps(0, 0))
    requires l3 == l2 + [Write(MODE2, OUTDRV)] && l4 == l3 + [Write(MODE1, ALLCALL)]
    requires l5 == l4 + [Select(MODE1)] && l6 == l5 + [Write(MODE1, WakeMode(mode1))]
    ensures Did(l0, l6, Ok, InitSteps(mode1))
  {
    RunOne(Put(MODE1, RESET));
    RunOne(Put(MODE2, OUTDRV));
    RunOne(Put(MODE1, ALLCALL));
    RunOne(Point(MODE1));
    RunOne(Put(MODE1, WakeMode(mode1)));
    DidThen(l0, l1, l2, Ok, Ok, [Put(MODE1, RESET)], AllSteps(0, 0));
    DidThen(l2, l3, l4, Ok, Ok, [Put(MODE2, OUTDRV)], [Put(MODE1, ALLCALL)]);
    var tail := [Put(MODE2, OUTDRV)] + [Put(MODE1, ALLCALL)];
    DidThen(l2, l4, l5, Ok, Ok, tail, [Point(MODE1)]);
    tail := tail + [Point(MODE1)];
    DidThen(l2, l5, l6, Ok, Ok, tail, [Put(MODE1, WakeMode(mode1))]);
    tail := tail + [Put(MODE1, WakeMode(mode1))];
    DidThen(l0, l2, l6, Ok, Ok, [Put(MODE1, RESET)] + AllSteps(0, 0), tail);
    assert [Put(MODE1, RESET)] + AllSteps(0, 0) + tail == InitSteps(mode1);
  }

  /* ---------- The controller ---------- */

  /** `_PWMController`: the driver of one PCA9685 on `bus`. Each method leaves on the bus exactly
      the frames of its step list, and raises exactly when running that list raises. */
  class PwmController {
    const bus: I2c
    const address: int

    /** `__init__`, where `mode1Read` is the MODE1 byte the chip answers to the read-back. */
    constructor (bus: I2c, mode1Read: byte, address: int := PCA9685_ADDRESS)
      modifies bus
      ensures this.bus == bus && this.address == address
      ensures Did(old(bus.log), bus.log, Ok, InitSteps(mode1Read))
    {
      this.bus := bus;
      this.address := address;
      new;
      ghost var l0 := bus.log;
      bus.WriteRegister(MODE1, RESET);
      ghost var l1 := bus.log;
      SetAllPwm(0, 0);
      ghost var l2 := bus.log;
      bus.WriteRegister(MODE2, OUTDRV);
      ghost var l3 := bus.log;
      bus.WriteRegister(MODE1, ALLCALL);
      ghost var l4 := bus.log;
      bus.SelectRegister(MODE1);
      ghost var l5 := bus.log;
      bus.WriteRegister(MODE1, WakeMode(mode1Read));
      InitDid(l0, l1, l2, l3, l4, l5, bus.log, mode1Read);
    }

    /** `set_pwm_frequency(freq_hz)`, where `mode1Read` is the MODE1 byte the chip answers to the read. */
    method SetPwmFrequency(freqHz: int, mode1Read: byte) returns (out: Outcome)
      modifies bus
      ensures Did(old(bus.log), bus.log, out, FrequencySteps(freqHz, mode1Read))
    {
      if freqHz == 0 {
        FrequencyZero(mode1Read);
        return Fail(ZeroDivision);
      }
      var prescale := Prescale(freqHz);
      ghost var l0 := bus.log;
      bus.SelectRegister(MODE1);
      var oldmode := mode1Read;
      var newmode := SleepMode(oldmode);
      bus.WriteRegister(MODE1, newmode);
      bus.WriteRegister(PRESCALE, prescale);
      bus.WriteRegister(MODE1, oldmode);
      bus.WriteRegister(MODE1, RestartMode(oldmode));
      FrequencyFrames(freqHz, mode1Read);
      out := Ok;
    }

    /** `set_pwm_duty_cycle(channel, on, off)` */
    method SetPwmDutyCycle(channel: int, on: int, off: int)
      modifies bus
      ensures Did(old(bus.log), bus.log, Ok, DutyCycleSteps(channel, on, off))
    {
      bus.WriteRegister(LED0_ON_L + 4 * channel, on % 256);
      bus.WriteRegister(LED0_ON_H + 4 * channel, on / 256);
      bus.WriteRegister(LED0_OFF_L + 4 * channel, off % 256);
      bus.WriteRegister(LED0_OFF_H + 4 * channel, off / 256);
      DutyCycleFrames(channel, on, off);
    }

    /** `set_all_pwm(on, off)` */
    method SetAllPwm(on: int, off: int)
      modifies bus
      ensures Did(old(bus.log), bus.log, Ok, AllSteps(on, off))
    {
      bus.WriteRegister(ALL_LED_ON_L, on % 256);
      bus.WriteRegister(ALL_LED_ON_H, on / 256);
      bus.WriteRegister(ALL_LED_OFF_L, off % 256);
      bus.WriteRegister(ALL_LED_OFF_H, off / 256);
      AllFrames(on, off);
    }

    /** `set_duty(channel, value)` */
    method SetDuty(channel: int, value: int) returns (out: Outcome)
      modifies bus
      ensures Did(old(bus.log), bus.log, out, SetDutySteps(channel, value))
    {
      if !(0 <= value <= 4095) {
        SetDutyRejects(channel, value);
        return Fail(DutyOutOfRange);
      }
      SetDutyFrames(channel, value);
      if value == 0 {
        SetPwmDutyCycle(channel, 0, 4096);
      } else if value == 4095 {
        SetPwmDutyCycle(channel, 4096, 0);
      } else {
        SetPwmDutyCycle(channel, 0, value);
      }
      out := Ok;
    }
  }
}
