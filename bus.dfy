/** The two-wire bus as the PWM driver sees it.

    Every register write in the driver has the shape `i2c.write(address, bytearray([reg, val]))`.
    On the micro:bit, MicroPython's `bytearray` does not range-check what it is given: it keeps
    the low eight bits of each integer, so an out-of-range register number or value is sent
    wrapped modulo 256 rather than refused. The write itself is assumed to succeed. A driver
    routine is therefore a list of steps (register writes, register selections before a read, and
    argument checks that raise); running it sends the frames of the steps in order up to the
    first check that raises, and nothing after it. */
module Bus {

  type byte = x: int | 0 <= x < 256

  predicate IsByte(x: int)
  {
    0 <= x < 256
  }

  /** The byte `bytearray` stores for the integer `x`: its low eight bits, for negative `x` too. */
  function Low(x: int): (b: byte)
    ensures IsByte(x) ==> b == x
    ensures (x - b) % 256 == 0
  {
    x % 256
  }

  /** A frame on the bus: a one-byte register selection (before a read) or a two-byte write. */
  datatype BusOp = Select(reg: byte) | Write(reg: byte, val: byte)

  /** Why a driver call raised. In the drivers all of these are ValueError, except ZeroDivision. */
  datatype Error =
    | DutyOutOfRange        // set_duty given a value outside 0..4095
    | ZeroDivision          // a frequency of 0 Hz, or a servo range of 0 degrees
    | UnknownMotor          // move given a motor number that is not in the channel map
    | InvalidDirection      // drive given a direction other than the five named ones
    | InvalidDirectionCode  // mecanum given a code outside 1..9
    | ServoOutOfRange       // a servo number outside 1..8

  datatype Outcome = Ok | Fail(error: Error)

  /** One step of a driver routine, before it is run. */
  datatype Step =
    | Put(reg: int, val: int)           // i2c.write(address, bytearray([reg, val])), both wrapped
    | Point(at: byte)                   // i2c.write(address, bytearray([reg])) ahead of a read
    | Check(holds: bool, error: Error)  // a test of the arguments that raises `error` when false

  predicate Passes(s: Step)
  {
    match s
    case Put(_, _) => true
    case Point(_) => true
    case Check(holds, _) => holds
  }

  /** The frames a step sends when it passes. */
  function Sent(s: Step): seq<BusOp>
    requires Passes(s)
  {
    match s
    case Put(reg, val) => [Write(Low(reg), Low(val))]
    case Point(at) => [Select(at)]
    case Check(_, _) => []
  }

  /** The error a step raises when it does not pass. */
  function Raised(s: Step): Error
    requires !Passes(s)
  {
    s.error
  }

  /** What running some steps left on the bus, and whether it returned or raised. */
  datatype Trace = Trace(ops: seq<BusOp>, out: Outcome)

  predicate AllPass(steps: seq<Step>)
  {
    forall i | 0 <= i < |steps| :: Passes(steps[i])
  }

  /** Runs `steps` in order; the first step that does not pass raises and ends the run. */
  function Run(steps: seq<Step>): Trace
  {
    if steps == [] then Trace([], Ok)
    else if !Passes(steps[0]) then Trace([], Fail(Raised(steps[0])))
    else
      var rest := Run(steps[1..]);
      Trace(Sent(steps[0]) + rest.ops, rest.out)
  }

  /** A run returns exactly when every step passes; otherwise it raises the error of a step that
      does not pass, and it never sends more frames than it has steps. */
  lemma {:induction false} RunOutcome(steps: seq<Step>)
    ensures Run(steps).out.Ok? <==> AllPass(steps)
    ensures |Run(steps).ops| <= |steps|
    ensures Run(steps).out.Fail? ==>
      exists i | 0 <= i < |steps| :: !Passes(steps[i]) && Run(steps).out.error == Raised(steps[i])
  {
    if steps != [] && Passes(steps[0]) {
      var tail := steps[1..];
      RunOutcome(tail);
      assert forall i | 0 <= i < |tail| :: tail[i] == steps[i + 1];
      if Run(tail).out.Fail? {
        var i :| 0 <= i < |tail| && !Passes(tail[i]) && Run(tail).out.error == Raised(tail[i]);
        assert steps[i + 1] == tail[i];
      }
      if !AllPass(steps) {
        var i :| 0 <= i < |steps| && !Passes(steps[i]);
        assert tail[i - 1] == steps[i];
      }
    }
  }

  /** Running one routine after another: the second runs only if the first returned. */
  function Then(first: Trace, second: Trace): Trace
  {
    if first.out.Ok? then Trace(first.ops + second.ops, second.out) else first
  }

  lemma {:induction false} RunAppend(a: seq<Step>, b: seq<Step>)
    ensures Run(a + b) == Then(Run(a), Run(b))
  {
    if a == [] {
      assert a + b == b;
    } else {
      assert (a + b)[0] == a[0];
      assert (a + b)[1..] == a[1..] + b;
      if Passes(a[0]) {
        RunAppend(a[1..], b);
      }
    }
  }

  /** A step that raises first leaves the bus untouched, whatever follows it. */
  lemma RunRaisesFirst(s: Step, rest: seq<Step>)
    requires !Passes(s)
    ensures Run([s] + rest) == Trace([], Fail(Raised(s)))
  {
    assert ([s] + rest)[0] == s;
  }

  lemma RunOne(s: Step)
    ensures Run([s]) == if Passes(s) then Trace(Sent(s), Ok) else Trace([], Fail(Raised(s)))
  {
    assert [s][1..] == [];
  }

  /** Four steps that all pass send their frames in order. */
  lemma RunFour(a: Step, b: Step, c: Step, d: Step)
    requires Passes(a) && Passes(b) && Passes(c) && Passes(d)
    ensures Run([a, b, c, d]) == Trace(Sent(a) + Sent(b) + Sent(c) + Sent(d), Ok)
  {
    assert [a, b, c, d] == [a] + [b] + [c] + [d];
    RunOne(a); RunOne(b); RunOne(c); RunOne(d);
    RunAppend([a], [b]);
    RunAppend([a] + [b], [c]);
    RunAppend([a] + [b] + [c], [d]);
  }

  /** The log went from `before` to `after` and the call returned `out`, exactly as running `steps` does. */
  ghost predicate Did(before: seq<BusOp>, after: seq<BusOp>, out: Outcome, steps: seq<Step>)
  {
    after == before + Run(steps).ops && out == Run(steps).out
  }

  lemma DidThen(l0: seq<BusOp>, l1: seq<BusOp>, l2: seq<BusOp>, o1: Outcome, o2: Outcome, a: seq<Step>, b: seq<Step>)
    requires Did(l0, l1, o1, a) && o1.Ok? && Did(l1, l2, o2, b)
    ensures Did(l0, l2, o2, a + b)
  {
    RunAppend(a, b);
  }

  lemma DidStop(l0: seq<BusOp>, l1: seq<BusOp>, o1: Outcome, a: seq<Step>, b: seq<Step>)
    requires Did(l0, l1, o1, a) && o1.Fail?
    ensures Did(l0, l1, o1, a + b)
  {
    RunAppend(a, b);
  }

  /** The bus object shared by the drivers; `log` holds every frame sent to the PWM chip, oldest first. */
  class I2c {
    var log: seq<BusOp>

    constructor ()
      ensures log == []
    {
      log := [];
    }

    /** `i2c.write(address, bytearray([reg, val]))`: never raises, and sends both bytes wrapped. */
    method WriteRegister(reg: int, val: int)
      modifies this
      ensures log == old(log) + [Write(Low(reg), Low(val))]
    {
      log := log + [Write(Low(reg), Low(val))];
    }

    /** `i2c.write(address, bytearray([reg]))`, which points the chip at `reg` for the read that follows. */
    method SelectRegister(reg: byte)
      modifies this
      ensures log == old(log) + [Select(reg)]
    {
      log := log + [Select(reg)];
    }
  }
}
