/**
 The numbers the JTAG sequences load. A register shifts towards its least significant bit, so
 the bit shifted first ends up there.
 */
module JtagValues {
  import opened Bytes
  import opened Jtag
  import E = JtagEngine

  /** The number in a register, its first bit being the least significant. */
  function Value(bits: Bits): nat {
    if bits == [] then 0 else bits[0] + 2 * Value(bits[1..])
  }

  /** Octets as a number, the first one least significant. */
  function LittleEndian(data: seq<byte>): nat {
    if data == [] then 0 else data[0] + 0x100 * LittleEndian(data[1..])
  }

  /** Octets as a number, the last one least significant. */
  function BigEndian(data: seq<byte>): nat {
    if data == [] then 0 else 0x100 * BigEndian(data[..|data| - 1]) + data[|data| - 1]
  }

  lemma {:induction false} ValueConcat(a: Bits, b: Bits)
    ensures Value(a + b) == Value(a) + Pow2(|a|) * Value(b)
  {
    if a == [] {
      assert a + b == b;
    } else {
      assert (a + b)[1..] == a[1..] + b;
      var p, v := Pow2(|a| - 1), Value(b);
      ValueConcat(a[1..], b);
      assert Value(a + b) == a[0] + 2 * (Value(a[1..]) + p * v);
      Twice(p, v);
      hide Value;
    }
  }

  lemma Twice(a: nat, b: nat)
    ensures (2 * a) * b == 2 * (a * b)
  {
  }

  /** The n low bits of one octet. */
  function LowBits(b: byte, n: nat): (bits: Bits)
    requires n <= 8
    ensures |bits| == n
  {
    seq(n, i requires 0 <= i < n => BitAt(b, i))
  }

  lemma Powers()
    ensures Pow2(0) == 1 && Pow2(1) == 2 && Pow2(2) == 4 && Pow2(3) == 8 && Pow2(4) == 16
    ensures Pow2(5) == 32 && Pow2(6) == 64 && Pow2(7) == 128 && Pow2(8) == 256
  {
    assert Pow2(4) == 16;
  }

  lemma {:induction false} LowValue(b: byte, n: nat)
    requires n <= 8
    ensures Value(LowBits(b, n)) == b % Pow2(n)
  {
    if n > 0 {
      var bits, front := LowBits(b, n), LowBits(b, n - 1);
      LowValue(b, n - 1);
      assert bits == front + [BitAt(b, n - 1)];
      ValueConcat(front, [BitAt(b, n - 1)]);
      assert Value([BitAt(b, n - 1)]) == BitAt(b, n - 1);
      OneMoreBit(b, n - 1);
    }
  }

  lemma OneMoreBit(b: byte, n: nat)
    requires n < 8
    ensures b % Pow2(n) + Pow2(n) * BitAt(b, n) == b % Pow2(n + 1)
  {
    var p := Pow2(n);
    var q, m := b / p, b % p;
    var h, c := q / 2, q % 2;
    assert b == p * q + m && q == 2 * h + c;
    assert p * (2 * h + c) == (2 * p) * h + p * c;
    assert p * c < p + 1 by { assert c == 0 || c == 1; }
    Remainder(2 * p, h, m + p * c);
  }

  lemma FirstOctet(data: seq<byte>, n: nat)
    requires 8 <= n <= 8 * |data|
    ensures LsbFirst(data, n) == LowBits(data[0], 8) + LsbFirst(data[1..], n - 8)
  {
    hide BitAt;
  }

  lemma ModByParts(d: nat, r: nat, p: nat)
    requires d < 0x100 && p > 0
    ensures (d + 0x100 * r) % (0x100 * p) == d + 0x100 * (r % p)
  {
    var q, m := r / p, r % p;
    assert r == p * q + m;
    assert d + 0x100 * r == (0x100 * p) * q + (d + 0x100 * m);
    Remainder(0x100 * p, q, d + 0x100 * m);
  }

  lemma EightMore(n: nat)
    ensures Pow2(n + 8) == 0x100 * Pow2(n)
  {
    assert Pow2(n + 1) == 2 * Pow2(n) && Pow2(n + 2) == 2 * Pow2(n + 1);
    assert Pow2(n + 3) == 2 * Pow2(n + 2) && Pow2(n + 4) == 2 * Pow2(n + 3);
    assert Pow2(n + 5) == 2 * Pow2(n + 4) && Pow2(n + 6) == 2 * Pow2(n + 5);
    assert Pow2(n + 7) == 2 * Pow2(n + 6) && Pow2(n + 8) == 2 * Pow2(n + 7);
  }

  lemma TwoParts(n: nat)
    requires n < 8
    ensures Pow2(n) * Pow2(8 - n) == 0x100
  {
    Powers();
  }

  lemma SmallMod(d: nat, r: nat, n: nat)
    requires n < 8
    ensures (d + 0x100 * r) % Pow2(n) == d % Pow2(n)
  {
    TwoParts(n);
    Multiple(d, r, Pow2(n), Pow2(8 - n));
  }

  lemma Multiple(d: nat, r: nat, p: nat, k: nat)
    requires p > 0
    ensures (d + p * k * r) % p == d % p
  {
    var q, m := d / p, d % p;
    assert d == p * q + m;
    assert p * k * r == p * (k * r);
    assert p * (k * r) + p * q == p * (k * r + q);
    Remainder(p, k * r + q, m);
  }

  /** The low n bits of some octets, least significant first, are their number modulo 2^n. */
  lemma {:induction false} LsbFirstValue(data: seq<byte>, n: nat)
    requires n <= 8 * |data|
    ensures Value(LsbFirst(data, n)) == LittleEndian(data) % Pow2(n)
    decreases |data|
  {
    hide BitAt;
    if n < 8 {
      if n > 0 {
        assert LsbFirst(data, n) == LowBits(data[0], n);
        LowValue(data[0], n);
        SmallMod(data[0], LittleEndian(data[1..]), n);
      }
    } else {
      FirstOctet(data, n);
      LsbFirstValue(data[1..], n - 8);
      LowValue(data[0], 8);
      Powers();
      ValueConcat(LowBits(data[0], 8), LsbFirst(data[1..], n - 8));
      EightMore(n - 8);
      ModByParts(data[0], LittleEndian(data[1..]), Pow2(n - 8));
    }
  }

  function Reversed(bits: Bits): (r: Bits)
    ensures |r| == |bits|
  {
    seq(|bits|, i requires 0 <= i < |bits| => bits[|bits| - 1 - i])
  }

  /** Each octet of a bitstream goes out the other way round: its most significant bit first. */
  lemma MsbOctet(data: seq<byte>, k: nat)
    requires k < |data|
    ensures Value(Reversed(MsbFirst(data)[8 * k..8 * k + 8])) == data[k]
  {
    hide BitAt;
    assert Reversed(MsbFirst(data)[8 * k..8 * k + 8]) == LowBits(data[k], 8);
    LowValue(data[k], 8);
    Powers();
  }

  /** A whole bitstream, last bit out least significant, is its octets as a big-endian number. */
  lemma {:induction false} MsbFirstValue(data: seq<byte>)
    ensures Value(Reversed(MsbFirst(data))) == BigEndian(data)
  {
    hide BitAt;
    if data == [] {
      assert Reversed(MsbFirst(data)) == [];
    } else {
      var n := |data| - 1;
      MsbFirstValue(data[..n]);
      assert Reversed(MsbFirst(data)) == LowBits(data[n], 8) + Reversed(MsbFirst(data[..n]));
      ValueConcat(LowBits(data[n], 8), Reversed(MsbFirst(data[..n])));
      LowValue(data[n], 8);
      Powers();
    }
  }

  // ---- What the device loads ----

  /** An instruction sequence loads its octet. */
  lemma IrLoadsNumber(t: Tap, ir: byte)
    requires t.state.RunTestIdle?
    ensures var u := Drive(t, IrClocks(LsbFirst([ir], 8)));
      u.state.RunTestIdle? && |u.shifted| == 8 && u.ops == t.ops + [LoadIr(u.shifted)] && IsBits(u.shifted)
      && Value(u.shifted) == ir
  {
    hide Drive, LsbFirst, BitAt;
    var bits := LsbFirst([ir], 8);
    WriteIrLoads(t, bits);
    LsbFirstValue([ir], 8);
    Powers();
    assert LittleEndian([ir]) == ir;
  }

  predicate IsBits(bits: seq<nat>) { forall i :: 0 <= i < |bits| ==> bits[i] < 2 }

  /** A data sequence loads the low bits of the little-endian number. */
  lemma DrLoadsNumber(t: Tap, data: seq<byte>, size: nat)
    requires t.state.RunTestIdle? && 0 < size <= 8 * |data|
    ensures var u := Drive(t, DrClocks(LsbFirst(data, size)));
      u.state.RunTestIdle? && |u.shifted| == size && u.ops == t.ops + [LoadDr(u.shifted)] && IsBits(u.shifted)
      && Value(u.shifted) == LittleEndian(data) % Pow2(size)
  {
    hide Drive, LsbFirst, BitAt;
    WriteDrLoads(t, LsbFirst(data, size));
    LsbFirstValue(data, size);
  }

  /** A load in numbers: the register, its width, and its value. */
  datatype Load = Ir(ir: nat) | Dr(width: nat, value: nat) | Idle

  function Told(op: Op): Load
    requires op.RunClock? || IsBits(op.bits)
  {
    match op
    case LoadIr(bits) => Ir(Value(bits))
    case LoadDr(bits) => Dr(|bits|, Value(bits))
    case RunClock => Idle
  }

  predicate Proper(ops: seq<Op>) { forall op :: op in ops ==> op.RunClock? || IsBits(op.bits) }

  function Loads(ops: seq<Op>): seq<Load>
    requires Proper(ops)
  {
    seq(|ops|, i requires 0 <= i < |ops| => assert ops[i] in ops; Told(ops[i]))
  }

  function Idles(n: nat): seq<Load> { seq(n, i => Idle) }

  lemma CommandLoads(ir: byte, data: seq<byte>, idle: nat)
    requires |data| <= 1
    ensures Proper(CommandOps(ir, data, idle))
    ensures Loads(CommandOps(ir, data, idle))
      == [Ir(ir)] + (if data == [] then [] else [Dr(8, data[0])]) + Idles(idle)
  {
    hide LsbFirst, Value;
    LsbFirstValue([ir], 8);
    LsbFirstValue(data, 8 * |data|);
    Powers();
    assert LittleEndian([ir]) == ir;
    if data != [] { assert LittleEndian(data) == data[0]; }
  }

  lemma LoadsConcat(a: seq<Op>, b: seq<Op>)
    requires Proper(a) && Proper(b)
    ensures Proper(a + b) && Loads(a + b) == Loads(a) + Loads(b)
  {
    hide Told;
  }

  /**
   Programming, in numbers: enable with 0xc6 and 0x00, erase with 0x0e and 0x01, 0x7a and the
   bitstream, disable with 0x26, and 0xff, with the idle clocks in between.
   */
  lemma SramInNumbers(data: seq<byte>)
    ensures Proper(SramOps(data))
    ensures var bits := MsbFirst(data);
      Loads(SramOps(data))
      == [Ir(0xc6), Dr(8, 0x00)] + Idles(8) + ([Ir(0x0e), Dr(8, 0x01)] + Idles(8) + ([Ir(0x7a)] + Idles(8)))
         + ([Dr(8 * |data|, Value(bits))] + (Idles(100) + ([Ir(0x26)] + Idles(8) + ([Ir(0xff)] + Idles(100)))))
      && Value(Reversed(bits)) == BigEndian(data)
  {
    hide Value, Told, CommandOps, MsbFirst, Reversed, Loads;
    MsbFirstValue(data);
    var c1, c2 := CommandOps(ISC_ENABLE, [0x00], 8), CommandOps(ISC_ERASE, [0x01], 8);
    var c3 := CommandOps(BITSTREAM_BURST, [], 8);
    var c4, c5, c6 := seq(100, i => RunClock), CommandOps(ISC_DISABLE, [], 8), CommandOps(ISC_NOOP, [], 100);
    CommandLoads(ISC_ENABLE, [0x00], 8);
    CommandLoads(ISC_ERASE, [0x01], 8);
    CommandLoads(BITSTREAM_BURST, [], 8);
    CommandLoads(ISC_DISABLE, [], 8);
    CommandLoads(ISC_NOOP, [], 100);
    IdleLoads(100);
    BitstreamLoads(data);
    LoadsConcat(c2, c3);
    LoadsConcat(c1, c2 + c3);
    LoadsConcat(c5, c6);
    LoadsConcat(c4, c5 + c6);
    LoadsConcat([LoadDr(MsbFirst(data))], c4 + (c5 + c6));
    LoadsConcat(SetupOps(), [LoadDr(MsbFirst(data))] + FinishOps());
    Plain();
  }

  lemma IdleLoads(n: nat)
    ensures Proper(seq(n, i => RunClock)) && Loads(seq(n, i => RunClock)) == Idles(n)
  {
  }

  lemma BitstreamLoads(data: seq<byte>)
    ensures var op := LoadDr(MsbFirst(data));
      Proper([op]) && Loads([op]) == [Dr(8 * |data|, Value(MsbFirst(data)))]
  {
    hide Value, MsbFirst;
  }

  lemma Plain()
    ensures [Ir(0x7a)] + [] + Idles(8) == [Ir(0x7a)] + Idles(8)
    ensures [Ir(0x26)] + [] + Idles(8) == [Ir(0x26)] + Idles(8)
    ensures [Ir(0xff)] + [] + Idles(100) == [Ir(0xff)] + Idles(100)
    ensures [Ir(0xc6)] + [Dr(8, 0x00)] == [Ir(0xc6), Dr(8, 0x00)]
    ensures [Ir(0x0e)] + [Dr(8, 0x01)] == [Ir(0x0e), Dr(8, 0x01)]
  {
  }

  /** How a request packs four clocks: TMS in bit 0 and TDI in bit 1 of each pair, the first clock lowest. */
  lemma OctetOfClocks(b: byte)
    ensures b == Pair(b, 0) + 4 * Pair(b, 1) + 16 * Pair(b, 2) + 64 * Pair(b, 3)
  {
    PairsAre(b);
    hide Pair;
    Quarters(b);
  }

  lemma PairsAre(b: byte)
    ensures Pair(b, 0) == b % 4 && Pair(b, 1) == b / 4 % 4 && Pair(b, 2) == b / 16 % 4 && Pair(b, 3) == b / 64 % 4
  {
    Powers();
    hide Pow2;
  }

  lemma Quarters(b: byte)
    ensures b == b % 4 + 4 * (b / 4 % 4) + 16 * (b / 16 % 4) + 64 * (b / 64 % 4)
  {
    var x, y, z := b / 4, b / 16, b / 64;
    assert x / 4 == y && y / 4 == z;
  }

  /** ASCII. */
  function Ascii(text: string): seq<byte> { seq(|text|, i requires 0 <= i < |text| => text[i] as int % 0x80) }

  /** What a bitstream has to name in its first 1024 octets: the device. */
  lemma BitstreamNamesDevice(data: seq<byte>)
    ensures E.BitstreamValid(data) <==> |data| >= 1024 && exists i: nat :: i <= 1011 && Names(data, i)
  {
    DeviceName();
    if E.BitstreamValid(data) {
      var i :| 0 <= i <= 1011 && E.SignatureAt(data, i);
      assert Names(data, i);
    }
    if |data| >= 1024 && exists i: nat :: i <= 1011 && Names(data, i) {
      var i: nat :| i <= 1011 && Names(data, i);
      assert E.SignatureAt(data, i);
    }
  }

  predicate Names(data: seq<byte>, i: nat) { i + 13 <= |data| && data[i..i + 13] == Ascii("LCMXO2-2000HC") }

  lemma DeviceName()
    ensures Ascii("LCMXO2-2000HC") == E.Signature()
  {
    Letters();
    var text := "LCMXO2-2000HC";
    assert text == ['L', 'C', 'M', 'X', 'O', '2', '-', '2', '0', '0', '0', 'H', 'C'];
  }

  lemma Letters()
    ensures 'L' as int == 0x4c && 'C' as int == 0x43 && 'M' as int == 0x4d && 'X' as int == 0x58
    ensures 'O' as int == 0x4f && '2' as int == 0x32 && '-' as int == 0x2d && '0' as int == 0x30 && 'H' as int == 0x48
  {
  }
}
