/**
 What the JTAG engine of src/gen1/fpga.c is for: clocks drive the TAP controller of
 section 6.1 of IEEE Std 1149.1-2001, and reach it packed four to an octet.
 */
module Jtag {
  import opened Bytes

  // ---- Octets as bit fields ----

  /** Bit k of an octet, counting from the least significant one. */
  function BitAt(b: byte, k: nat): (bit: nat)
    requires k < 8
    ensures bit < 2
  {
    b / Pow2(k) % 2
  }

  /** The k-th pair of bits of an octet. */
  function Pair(b: byte, k: nat): nat
    requires k < 4
  {
    b / Pow2(2 * k) % 4
  }

  // ---- The TAP controller ----

  datatype TapState =
    | TestLogicReset | RunTestIdle
    | SelectDr | CaptureDr | ShiftDr | Exit1Dr | PauseDr | Exit2Dr | UpdateDr
    | SelectIr | CaptureIr | ShiftIr | Exit1Ir | PauseIr | Exit2Ir | UpdateIr

  function Next(s: TapState, tms: bool): TapState {
    match s
    case TestLogicReset => if tms then TestLogicReset else RunTestIdle
    case RunTestIdle => if tms then SelectDr else RunTestIdle
    case SelectDr => if tms then SelectIr else CaptureDr
    case CaptureDr => if tms then Exit1Dr else ShiftDr
    case ShiftDr => if tms then Exit1Dr else ShiftDr
    case Exit1Dr => if tms then UpdateDr else PauseDr
    case PauseDr => if tms then Exit2Dr else PauseDr
    case Exit2Dr => if tms then UpdateDr else ShiftDr
    case UpdateDr => if tms then SelectDr else RunTestIdle
    case SelectIr => if tms then TestLogicReset else CaptureIr
    case CaptureIr => if tms then Exit1Ir else ShiftIr
    case ShiftIr => if tms then Exit1Ir else ShiftIr
    case Exit1Ir => if tms then UpdateIr else PauseIr
    case PauseIr => if tms then Exit2Ir else PauseIr
    case Exit2Ir => if tms then UpdateIr else ShiftIr
    case UpdateIr => if tms then SelectDr else RunTestIdle
  }

  /** What the device is made to do: load a register with these bits, first one first, or run a clock. */
  datatype Op = LoadIr(bits: seq<nat>) | LoadDr(bits: seq<nat>) | RunClock

  datatype Tap = Tap(state: TapState, shifted: seq<nat>, ops: seq<Op>)

  /** One clock, as the engine stores it: TMS in bit 0, TDI in bit 1. */
  type Clock = x: nat | x < 4

  function Clk(tdi: nat, tms: bool): Clock
    requires tdi < 2
  {
    2 * tdi + (if tms then 1 else 0)
  }

  function Pulse(t: Tap, c: Clock): Tap {
    var next := Next(t.state, c % 2 == 1);
    var shifted := if t.state.ShiftDr? || t.state.ShiftIr? then t.shifted + [c / 2]
                   else if t.state.CaptureDr? || t.state.CaptureIr? then []
                   else t.shifted;
    var done := if next.UpdateDr? then [LoadDr(shifted)]
                else if next.UpdateIr? then [LoadIr(shifted)]
                else if t.state.RunTestIdle? && next.RunTestIdle? then [RunClock]
                else [];
    Tap(next, shifted, t.ops + done)
  }

  function Drive(t: Tap, clocks: seq<Clock>): Tap {
    if clocks == [] then t else Pulse(Drive(t, clocks[..|clocks| - 1]), clocks[|clocks| - 1])
  }

  lemma {:induction false} DriveConcat(t: Tap, a: seq<Clock>, b: seq<Clock>)
    ensures Drive(t, a + b) == Drive(Drive(t, a), b)
  {
    if b == [] {
      assert a + b == a;
    } else {
      var n := |b| - 1;
      assert (a + b)[..|a| + n] == a + b[..n];
      DriveConcat(t, a, b[..n]);
    }
  }

  lemma DriveOne(t: Tap, c: Clock)
    ensures Drive(t, [c]) == Pulse(t, c)
  {
    assert [c][..0] == [];
  }

  lemma DriveThree(t: Tap, a: Clock, b: Clock, c: Clock)
    ensures Drive(t, [a, b, c]) == Pulse(Pulse(Pulse(t, a), b), c)
  {
    hide Pulse;
    DriveOne(t, a);
    assert [a, b] == [a] + [b] && [a, b, c] == [a, b] + [c];
    DriveConcat(t, [a], [b]);
    DriveOne(Pulse(t, a), b);
    DriveConcat(t, [a, b], [c]);
    DriveOne(Pulse(Pulse(t, a), b), c);
  }

  lemma DriveTwo(t: Tap, a: Clock, b: Clock)
    ensures Drive(t, [a, b]) == Pulse(Pulse(t, a), b)
  {
    hide Pulse;
    DriveOne(t, a);
    assert [a, b] == [a] + [b];
    DriveConcat(t, [a], [b]);
    DriveOne(Pulse(t, a), b);
  }

  // ---- The sequences the engine issues ----

  type Bits = s: seq<nat> | forall i :: 0 <= i < |s| ==> s[i] < 2

  /** Shift the bits, leaving the shift state with the last one. */
  function ShiftClocks(bits: Bits): (cs: seq<Clock>)
    ensures |cs| == |bits|
  {
    seq(|bits|, i requires 0 <= i < |bits| => Clk(bits[i], i == |bits| - 1))
  }

  function ToShiftDr(): seq<Clock> { [Clk(0, true), Clk(0, false), Clk(0, false)] }

  function ToShiftIr(): seq<Clock> { [Clk(0, true)] + [Clk(0, true), Clk(0, false), Clk(0, false)] }

  function ToIdle(): seq<Clock> { [Clk(0, true), Clk(0, false)] }

  function IrClocks(bits: Bits): seq<Clock> { ToShiftIr() + ShiftClocks(bits) + ToIdle() }

  function DrClocks(bits: Bits): seq<Clock> { ToShiftDr() + ShiftClocks(bits) + ToIdle() }

  function RunClocks(n: nat): seq<Clock> { seq(n, i => Clk(0, false)) }

  function ResetClocks(): seq<Clock> { seq(16, i => Clk(0, true)) + [Clk(0, false)] }

  const NO_OPS: seq<Op> := []

  lemma ShiftPulse(t: Tap, bit: nat, last: bool)
    requires (t.state.ShiftDr? || t.state.ShiftIr?) && bit < 2
    ensures Pulse(t, Clk(bit, last))
      == Tap(if !last then t.state else if t.state.ShiftDr? then Exit1Dr else Exit1Ir, t.shifted + [bit], t.ops)
  {
    assert t.ops + NO_OPS == t.ops;
  }

  /** All but the last bit stay in the shift state. */
  lemma {:induction false} ShiftStays(t: Tap, bits: Bits, n: nat)
    requires (t.state.ShiftDr? || t.state.ShiftIr?) && n < |bits|
    ensures Drive(t, ShiftClocks(bits)[..n]) == t.(shifted := t.shifted + bits[..n])
  {
    hide Pulse;
    var cs := ShiftClocks(bits)[..n];
    if n == 0 {
      assert cs == [] && t.shifted + bits[..0] == t.shifted;
    } else {
      ShiftStays(t, bits, n - 1);
      var u := t.(shifted := t.shifted + bits[..n - 1]);
      assert cs[..n - 1] == ShiftClocks(bits)[..n - 1];
      ShiftPulse(u, bits[n - 1], false);
      assert bits[..n] == bits[..n - 1] + [bits[n - 1]];
      assert t.shifted + bits[..n] == u.shifted + [bits[n - 1]];
    }
  }

  lemma ShiftLeaves(t: Tap, bits: Bits)
    requires (t.state.ShiftDr? || t.state.ShiftIr?) && bits != []
    ensures Drive(t, ShiftClocks(bits))
      == Tap(if t.state.ShiftDr? then Exit1Dr else Exit1Ir, t.shifted + bits, t.ops)
  {
    hide Pulse;
    var n, cs := |bits| - 1, ShiftClocks(bits);
    ShiftStays(t, bits, n);
    var u := t.(shifted := t.shifted + bits[..n]);
    ShiftPulse(u, bits[n], true);
    assert bits == bits[..n] + [bits[n]];
    assert t.shifted + bits == u.shifted + [bits[n]];
  }

  lemma EnterDr(t: Tap)
    requires t.state.RunTestIdle?
    ensures Drive(t, ToShiftDr()) == Tap(ShiftDr, [], t.ops)
  {
    DriveThree(t, Clk(0, true), Clk(0, false), Clk(0, false));
    assert t.ops + NO_OPS + NO_OPS + NO_OPS == t.ops;
  }

  lemma EnterIr(t: Tap)
    requires t.state.RunTestIdle?
    ensures Drive(t, ToShiftIr()) == Tap(ShiftIr, [], t.ops)
  {
    DriveOne(t, Clk(0, true));
    DriveConcat(t, [Clk(0, true)], [Clk(0, true), Clk(0, false), Clk(0, false)]);
    DriveThree(Pulse(t, Clk(0, true)), Clk(0, true), Clk(0, false), Clk(0, false));
    hide Drive;
    IrEntry(t);
  }

  /** The clocks that cause no operation. */
  lemma IrEntry(t: Tap)
    requires t.state.RunTestIdle?
    ensures Pulse(Pulse(Pulse(Pulse(t, Clk(0, true)), Clk(0, true)), Clk(0, false)), Clk(0, false))
      == Tap(ShiftIr, [], t.ops)
  {
    var a := Pulse(t, Clk(0, true));
    assert a == Tap(SelectDr, t.shifted, t.ops) by { assert t.ops + NO_OPS == t.ops; }
    var b := Pulse(a, Clk(0, true));
    assert b == Tap(SelectIr, t.shifted, t.ops) by { assert t.ops + NO_OPS == t.ops; }
    var c := Pulse(b, Clk(0, false));
    assert c == Tap(CaptureIr, t.shifted, t.ops) by { assert t.ops + NO_OPS == t.ops; }
    assert t.ops + NO_OPS == t.ops;
  }

  /** From idle, an instruction sequence loads exactly its bits and ends in idle. */
  lemma WriteIrLoads(t: Tap, bits: Bits)
    requires t.state.RunTestIdle? && bits != []
    ensures Drive(t, IrClocks(bits)) == Tap(RunTestIdle, bits, t.ops + [LoadIr(bits)])
  {
    hide ToShiftIr, ShiftClocks, Drive;
    EnterIr(t);
    var u := Tap(ShiftIr, [], t.ops);
    ShiftLeaves(u, bits);
    assert [] + bits == bits;
    var v := Tap(Exit1Ir, bits, t.ops);
    DriveConcat(t, ToShiftIr(), ShiftClocks(bits));
    DriveConcat(t, ToShiftIr() + ShiftClocks(bits), ToIdle());
    DriveTwo(v, Clk(0, true), Clk(0, false));
    assert t.ops + [LoadIr(bits)] + NO_OPS == t.ops + [LoadIr(bits)];
  }

  /**
   From idle, a data sequence loads exactly its bits and ends in idle, if there is a bit
   to shift. Without one a stray zero is shifted, nothing is loaded, and the controller
   is left in Pause-DR.
   */
  lemma WriteDrLoads(t: Tap, bits: Bits)
    requires t.state.RunTestIdle?
    ensures Drive(t, DrClocks(bits))
      == if bits != [] then Tap(RunTestIdle, bits, t.ops + [LoadDr(bits)]) else Tap(PauseDr, [0], t.ops)
  {
    hide ToShiftDr, ShiftClocks, Drive;
    EnterDr(t);
    var u := Tap(ShiftDr, [], t.ops);
    DriveConcat(t, ToShiftDr(), ShiftClocks(bits));
    DriveConcat(t, ToShiftDr() + ShiftClocks(bits), ToIdle());
    if bits == [] {
      assert ToShiftDr() + ShiftClocks(bits) == ToShiftDr();
      DriveTwo(u, Clk(0, true), Clk(0, false));
      assert [] + [0] == [0];
      assert t.ops + NO_OPS + NO_OPS == t.ops;
    } else {
      ShiftLeaves(u, bits);
      assert [] + bits == bits;
      var v := Tap(Exit1Dr, bits, t.ops);
      DriveTwo(v, Clk(0, true), Clk(0, false));
      assert t.ops + [LoadDr(bits)] + NO_OPS == t.ops + [LoadDr(bits)];
    }
  }

  /** A data sequence ends in idle exactly if it has bits to shift. */
  lemma EndsInIdle(t: Tap, bits: Bits)
    requires t.state.RunTestIdle?
    ensures Drive(t, DrClocks(bits)).state.RunTestIdle? <==> bits != []
  {
    hide Drive, DrClocks;
    WriteDrLoads(t, bits);
  }

  lemma {:induction false} RunsInIdle(t: Tap, n: nat)
    requires t.state.RunTestIdle?
    ensures Drive(t, RunClocks(n)) == t.(ops := t.ops + seq(n, i => RunClock))
  {
    if n == 0 {
      assert t.ops + seq(0, i => RunClock) == t.ops;
    } else {
      RunsInIdle(t, n - 1);
      assert RunClocks(n)[..n - 1] == RunClocks(n - 1);
      assert t.ops + seq(n, i => RunClock) == t.ops + seq(n - 1, i => RunClock) + [RunClock];
    }
  }

  /** How far a state is from Test-Logic-Reset when TMS is held high. */
  function ToReset(s: TapState): nat {
    match s
    case TestLogicReset => 0
    case SelectIr => 1
    case SelectDr => 2
    case RunTestIdle => 3
    case UpdateDr => 3
    case UpdateIr => 3
    case Exit1Dr => 4
    case Exit2Dr => 4
    case Exit1Ir => 4
    case Exit2Ir => 4
    case _ => 5
  }

  lemma {:induction false} OnesReset(t: Tap, n: nat)
    ensures ToReset(Drive(t, seq(n, i => Clk(0, true))).state)
              <= if n >= ToReset(t.state) then 0 else ToReset(t.state) - n
  {
    if n > 0 {
      OnesReset(t, n - 1);
      assert seq(n, i => Clk(0, true))[..n - 1] == seq(n - 1, i => Clk(0, true));
    }
  }

  /** From any state whatever the reset sequence ends in idle. */
  lemma ResetReachesIdle(t: Tap)
    ensures Drive(t, ResetClocks()).state.RunTestIdle?
  {
    OnesReset(t, 16);
    DriveConcat(t, seq(16, i => Clk(0, true)), [Clk(0, false)]);
    DriveOne(Drive(t, seq(16, i => Clk(0, true))), Clk(0, false));
  }

  // ---- Bit order ----

  /** The low n bits of some octets, least significant first. */
  function LsbFirst(data: seq<byte>, n: nat): (bits: Bits)
    requires n <= 8 * |data|
    ensures |bits| == n
  {
    seq(n, i requires 0 <= i < n => BitAt(data[i / 8], i % 8))
  }

  /** Whole octets, most significant bit first, as a bitstream is shifted. */
  function MsbFirst(data: seq<byte>): (bits: Bits)
    ensures |bits| == 8 * |data|
  {
    seq(8 * |data|, i requires 0 <= i < 8 * |data| => BitAt(data[i / 8], 7 - i % 8))
  }

  // ---- USB requests ----

  datatype Request = Request(count: nat, buf: seq<byte>)

  predicate GoodRequest(r: Request) { 0 < r.count <= 255 && |r.buf| == (r.count + 3) / 4 }

  /** The clocks the probe takes out of a request. */
  function Decode(r: Request): (cs: seq<Clock>)
    requires |r.buf| == (r.count + 3) / 4
    ensures |cs| == r.count
  {
    seq(r.count, i requires 0 <= i < r.count => Pair(r.buf[i / 4], i % 4))
  }

  predicate AllGood(rs: seq<Request>) { forall i :: 0 <= i < |rs| ==> GoodRequest(rs[i]) }

  function DecodeAll(rs: seq<Request>): seq<Clock>
    requires AllGood(rs)
  {
    if rs == [] then [] else DecodeAll(rs[..|rs| - 1]) + Decode(rs[|rs| - 1])
  }

  // ---- Programming the SRAM ----

  /** One instruction, its data if any, and some idle clocks. */
  function Command(ir: byte, data: seq<byte>, idle: nat): seq<Clock> {
    IrClocks(LsbFirst([ir], 8)) + (if data == [] then [] else DrClocks(LsbFirst(data, 8 * |data|))) + RunClocks(idle)
  }

  function CommandOps(ir: byte, data: seq<byte>, idle: nat): seq<Op> {
    [LoadIr(LsbFirst([ir], 8))] + (if data == [] then [] else [LoadDr(LsbFirst(data, 8 * |data|))])
      + seq(idle, i => RunClock)
  }

  lemma CommandDoes(t: Tap, ir: byte, data: seq<byte>, idle: nat)
    requires t.state.RunTestIdle?
    ensures var u := Drive(t, Command(ir, data, idle));
      u.state.RunTestIdle? && u.ops == t.ops + CommandOps(ir, data, idle)
  {
    hide IrClocks, DrClocks, Drive, LsbFirst, RunClocks;
    var irBits, drBits := LsbFirst([ir], 8), LsbFirst(data, 8 * |data|);
    WriteIrLoads(t, irBits);
    var a := Tap(RunTestIdle, irBits, t.ops + [LoadIr(irBits)]);
    var dr := if data == [] then [] else DrClocks(drBits);
    DriveConcat(t, IrClocks(irBits), dr);
    DriveConcat(t, IrClocks(irBits) + dr, RunClocks(idle));
    if data == [] {
      assert IrClocks(irBits) + dr == IrClocks(irBits);
      RunsInIdle(a, idle);
      assert [LoadIr(irBits)] + NO_OPS == [LoadIr(irBits)];
    } else {
      WriteDrLoads(a, drBits);
      var b := Tap(RunTestIdle, drBits, t.ops + [LoadIr(irBits)] + [LoadDr(drBits)]);
      RunsInIdle(b, idle);
    }
  }

  const ISC_ENABLE: byte := 0xc6
  const ISC_ERASE: byte := 0x0e
  const BITSTREAM_BURST: byte := 0x7a
  const ISC_DISABLE: byte := 0x26
  const ISC_NOOP: byte := 0xff

  function SetupClocks(): seq<Clock> {
    Command(ISC_ENABLE, [0x00], 8) + (Command(ISC_ERASE, [0x01], 8) + Command(BITSTREAM_BURST, [], 8))
  }

  function FinishClocks(): seq<Clock> {
    RunClocks(100) + (Command(ISC_DISABLE, [], 8) + Command(ISC_NOOP, [], 100))
  }

  /** The sequence fpga_program_sram issues for a bitstream. */
  function SramClocks(data: seq<byte>): seq<Clock> {
    SetupClocks() + (DrClocks(MsbFirst(data)) + FinishClocks())
  }

  function SetupOps(): seq<Op> {
    CommandOps(ISC_ENABLE, [0x00], 8) + (CommandOps(ISC_ERASE, [0x01], 8) + CommandOps(BITSTREAM_BURST, [], 8))
  }

  function FinishOps(): seq<Op> {
    seq(100, i => RunClock) + (CommandOps(ISC_DISABLE, [], 8) + CommandOps(ISC_NOOP, [], 100))
  }

  function SramOps(data: seq<byte>): seq<Op> {
    SetupOps() + ([LoadDr(MsbFirst(data))] + FinishOps())
  }

  lemma SetupDone(t: Tap)
    requires t.state.RunTestIdle?
    ensures var u := Drive(t, SetupClocks()); u.state.RunTestIdle? && u.ops == t.ops + SetupOps()
  {
    hide Command, CommandOps, Drive;
    var c1, c2, c3 := Command(ISC_ENABLE, [0x00], 8), Command(ISC_ERASE, [0x01], 8), Command(BITSTREAM_BURST, [], 8);
    DriveConcat(t, c1, c2 + c3);
    CommandDoes(t, ISC_ENABLE, [0x00], 8);
    DriveConcat(Drive(t, c1), c2, c3);
    CommandDoes(Drive(t, c1), ISC_ERASE, [0x01], 8);
    CommandDoes(Drive(Drive(t, c1), c2), BITSTREAM_BURST, [], 8);
  }

  lemma FinishDone(t: Tap)
    requires t.state.RunTestIdle?
    ensures var u := Drive(t, FinishClocks()); u.state.RunTestIdle? && u.ops == t.ops + FinishOps()
  {
    hide Command, CommandOps, Drive, RunClocks;
    var c1, c2, c3 := RunClocks(100), Command(ISC_DISABLE, [], 8), Command(ISC_NOOP, [], 100);
    DriveConcat(t, c1, c2 + c3);
    RunsInIdle(t, 100);
    DriveConcat(Drive(t, c1), c2, c3);
    CommandDoes(Drive(t, c1), ISC_DISABLE, [], 8);
    CommandDoes(Drive(Drive(t, c1), c2), ISC_NOOP, [], 100);
  }

  /** Programming makes the device load these registers and run these clocks, in this order, and leaves it idle. */
  lemma SramProgrammed(t: Tap, data: seq<byte>)
    requires t.state.RunTestIdle? && data != []
    ensures var u := Drive(t, SramClocks(data)); u.state.RunTestIdle? && u.ops == t.ops + SramOps(data)
  {
    hide SetupClocks, FinishClocks, SetupOps, FinishOps, DrClocks, Drive, MsbFirst;
    var a, b, c := SetupClocks(), DrClocks(MsbFirst(data)), FinishClocks();
    DriveConcat(t, a, b + c);
    SetupDone(t);
    var t1 := Drive(t, a);
    DriveConcat(t1, b, c);
    WriteDrLoads(t1, MsbFirst(data));
    FinishDone(Drive(t1, b));
  }
}
