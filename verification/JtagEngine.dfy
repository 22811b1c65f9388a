/**
 The JTAG engine of src/gen1/fpga.c and the packing of src/gen1/usb.c, in place. The
 engine collects clocks and sends them when 255 are there or when told to.
 */
module JtagEngine {
  import opened Bytes
  import opened PacketModel
  import opened Timestamps
  import opened Jtag

  const MAX_COUNT_IN_REQUEST: nat := 255

  // ---- Packing ----

  lemma {:induction false} OrCommutes(a: nat, b: nat)
    ensures BitOr(a, b) == BitOr(b, a)
    decreases a + b
  {
    if a != 0 && b != 0 { OrCommutes(a / 2, b / 2); }
  }

  /** Setting bits above those in use. */
  lemma OrAbove(low: nat, x: nat, k: nat)
    requires k < 8 && low < Pow2(k)
    ensures BitOr(low, x * Pow2(k)) == low + x * Pow2(k)
  {
    OrCommutes(low, x * Pow2(k));
    OrIsPlus(x * Pow2(k), low, x, k);
  }

  lemma Powers()
    ensures Pow2(0) == 1 && Pow2(1) == 2 && Pow2(2) == 4 && Pow2(3) == 8
    ensures Pow2(4) == 16 && Pow2(5) == 32 && Pow2(6) == 64 && Pow2(7) == 128
  {
    assert Pow2(3) == 8;
  }

  /** Dividing a sum by a divisor of its second part. */
  lemma DivSum(a: nat, d: nat, y: nat)
    requires d > 0
    ensures (a + d * y) / d == a / d + y
  {
    assert a == a / d * d + a % d;
    assert a + d * y == (a / d + y) * d + a % d by {
      assert (a / d + y) * d == a / d * d + y * d;
    }
    DivUnique(a + d * y, d, a / d + y, a % d);
  }

  lemma DivUnique(n: nat, d: nat, q: nat, r: nat)
    requires d > 0 && r < d && n == q * d + r
    ensures n / d == q
  {
    MulOrder(n / d + 1, q, d);
    MulOrder(q + 1, n / d, d);
    assert n == n / d * d + n % d;
  }

  lemma MulOrder(a: nat, b: nat, d: nat)
    ensures a <= b ==> a * d <= b * d
  {
    if a <= b { assert b * d == a * d + (b - a) * d; }
  }

  /** Bits above position 2j + 1 do not change pair j. */
  lemma PairBelow(low: nat, z: nat, j: nat)
    requires j < 3
    ensures (low + 4 * Pow2(2 * j) * z) / Pow2(2 * j) % 4 == low / Pow2(2 * j) % 4
  {
    var d := Pow2(2 * j);
    DivSum(low, d, 4 * z);
    assert 4 * d * z == d * (4 * z);
    assert (low / d + 4 * z) % 4 == low / d % 4;
  }

  lemma TopPair(low: nat, x: Clock, k: nat)
    requires k < 4 && low < Pow2(2 * k)
    ensures var b := low + x * Pow2(2 * k);
      b < Pow2(2 * k + 2) <= 256 && b / Pow2(2 * k) == x
  {
    Powers();
    assert Pow2(8) == 256;
    if k == 0 {
    } else if k == 1 {
      DivSum(low, 4, x);
    } else if k == 2 {
      DivSum(low, 16, x);
    } else {
      DivSum(low, 64, x);
    }
  }

  function Gap(j: nat, k: nat): nat
    requires j < k < 4
  {
    if k == j + 1 then 1 else if k == j + 2 then 4 else 16
  }

  lemma GapScales(j: nat, k: nat)
    requires j < k < 4
    ensures 4 * Pow2(2 * j) * Gap(j, k) == Pow2(2 * k)
  {
    Powers();
  }

  lemma PairKept(low: nat, x: Clock, k: nat, j: nat)
    requires j < k < 4 && low < Pow2(2 * k) && low + x * Pow2(2 * k) < 256
    ensures Pair(low + x * Pow2(2 * k), j) == Pair(low, j)
  {
    hide Pow2, Gap;
    GapScales(j, k);
    PairBelow(low, Gap(j, k) * x, j);
    Regroup(Pow2(2 * j), Gap(j, k), x);
  }

  lemma Regroup(p: nat, g: nat, x: nat)
    ensures 4 * p * (g * x) == x * (4 * p * g)
  {
    assert 4 * p * (g * x) == 4 * p * g * x;
  }

  /** OR a clock into the k-th pair of an octet that is clear from there on. */
  function WithPair(low: byte, x: Clock, k: nat): (b: byte)
    requires k < 4 && low < Pow2(2 * k)
    ensures b < Pow2(2 * k + 2) && Pair(b, k) == x
    ensures forall j :: 0 <= j < k ==> Pair(b, j) == Pair(low, j)
  {
    PairAdded(low, x, k);
    BitOr(low, x * Pow2(2 * k))
  }

  lemma PairAdded(low: byte, x: Clock, k: nat)
    requires k < 4 && low < Pow2(2 * k)
    ensures var b := BitOr(low, x * Pow2(2 * k));
      b < 256 && b < Pow2(2 * k + 2) && Pair(b, k) == x && forall j :: 0 <= j < k ==> Pair(b, j) == Pair(low, j)
  {
    hide Pow2;
    TopPair(low, x, k);
    OrAbove(low, x, 2 * k);
    TopTwoBits(x);
    forall j | 0 <= j < k ensures Pair(low + x * Pow2(2 * k), j) == Pair(low, j) { PairKept(low, x, k, j); }
  }

  lemma TopTwoBits(x: Clock)
    ensures x as nat % 4 == x
  {
  }

  /** usb_jtag_request: what is sent decodes to what was given. */
  method UsbJtagRequest(data: array<Clock>, count: nat) returns (r: Request)
    requires 0 < count <= MAX_COUNT_IN_REQUEST && count <= data.Length
    ensures GoodRequest(r) && r.count == count && Decode(r) == data[..count]
  {
    hide Pair, Pow2;
    ghost var cs := data[..];
    var buf := new byte[64](i => 0);
    Powers();
    for i := 0 to count
      invariant forall j :: 0 <= j < i ==> Pair(buf[j / 4], j % 4) == data[j]
      invariant forall j :: i <= j < 256 && j % 4 == 0 ==> buf[j / 4] == 0
      invariant i % 4 != 0 ==> buf[i / 4] < Pow2(2 * (i % 4))
      invariant data[..] == cs
    {
      buf[i / 4] := WithPair(buf[i / 4], data[i], i % 4);
    }
    r := Request(count, buf[..(count + 3) / 4]);
  }

  /** Bit j of a response: the probe puts four of them in the low half of an octet. */
  function Answer(raw: seq<byte>, j: nat): nat
    requires j < 4 * |raw|
  {
    BitAt(raw[j / 4], j % 4)
  }

  lemma LowBits(low: nat, y: nat, j: nat)
    requires j < 4
    ensures (low + 16 * y) / Pow2(j) % 2 == low / Pow2(j) % 2
  {
    Powers();
    var d := Pow2(j);
    var z := 8 / d * y;
    DivSum(low, d, 2 * z);
    assert d * (2 * z) == 16 * y;
    assert (low / d + 2 * z) % 2 == low / d % 2;
  }

  lemma HighBits(low: nat, y: nat, j: nat)
    requires j < 4 && low < 16
    ensures (low + 16 * y) / Pow2(4 + j) % 2 == y / Pow2(j) % 2
  {
    Powers();
    DivSum(low, 16, y);
    var n := low + 16 * y;
    assert n / 16 == y;
    assert n / 32 == y / 2 && n / 64 == y / 4 && n / 128 == y / 8;
  }

  lemma NibbleBits(low: nat, b: byte, j: nat)
    requires low < 16 && j < 4
    ensures var x := low + b % 16 * 16; x < 256 && BitAt(x, 4 + j) == BitAt(b, j) && BitAt(x, j) == BitAt(low, j)
    ensures BitAt(b % 16, j) == BitAt(b, j)
  {
    LowBits(b % 16, b / 16, j);
    LowBits(low, b % 16, j);
    HighBits(low, b % 16, j);
  }

  /** OR the low half of b into the lower or the upper half of an octet. */
  function WithNibble(low: byte, b: byte, half: nat): (x: byte)
    requires half < 2 && low < (if half == 0 then 1 else 16)
    ensures half == 0 ==> x < 16
    ensures forall j :: 0 <= j < 4 ==> BitAt(x, 4 * half + j) == BitAt(b, j)
    ensures half == 1 ==> forall j :: 0 <= j < 4 ==> BitAt(x, j) == BitAt(low, j)
  {
    OrAbove(low, b % 16, half * 4);
    forall j | 0 <= j < 4
      ensures var y := low + b % 16 * Pow2(half * 4);
        y < 256 && BitAt(y, 4 * half + j) == BitAt(b, j) && (half == 1 ==> BitAt(y, j) == BitAt(low, j))
    {
      NibbleBits(low, b, j);
    }
    BitOr(low, b % 16 * Pow2(half * 4))
  }

  /** usb_jtag_response: eight bits to an octet, whatever the upper halves of the raw octets hold. */
  method UsbJtagResponse(raw: seq<byte>, count: nat) returns (data: array<byte>)
    requires count <= MAX_COUNT_IN_REQUEST && |raw| == (count + 3) / 4
    ensures fresh(data) && data.Length == (count + 7) / 8
    ensures forall j :: 0 <= j < count ==> BitAt(data[j / 8], j % 8) == Answer(raw, j)
  {
    hide BitAt;
    data := new byte[(count + 7) / 8](i => 0);
    for i := 0 to (count + 3) / 4
      invariant forall k, m :: 0 <= k < i && 0 <= m < 4 ==> BitAt(data[k / 2], 4 * (k % 2) + m) == BitAt(raw[k], m)
      invariant forall j :: i <= 2 * j && j < data.Length ==> data[j] == 0
      invariant i % 2 == 1 ==> data[i / 2] < 16
    {
      data[i / 2] := WithNibble(data[i / 2], raw[i], i % 2);
    }
    forall j | 0 <= j < count ensures BitAt(data[j / 8], j % 8) == Answer(raw, j) {
      var k, m := j / 4, j % 4;
      assert BitAt(data[k / 2], 4 * (k % 2) + m) == BitAt(raw[k], m);
      assert j / 8 == k / 2 && j % 8 == 4 * (k % 2) + m;
    }
  }

  // ---- The device's answers ----

  function NibbleOf(b0: nat, b1: nat, b2: nat, b3: nat, high: byte): (x: byte)
    requires b0 < 2 && b1 < 2 && b2 < 2 && b3 < 2
    ensures BitAt(x, 0) == b0 && BitAt(x, 1) == b1 && BitAt(x, 2) == b2 && BitAt(x, 3) == b3
  {
    Powers();
    NibbleHas(b0, b1, b2, b3, high / 16);
    b0 + 2 * b1 + 4 * b2 + 8 * b3 + high / 16 * 16
  }

  lemma NibbleHas(b0: nat, b1: nat, b2: nat, b3: nat, h: nat)
    requires b0 < 2 && b1 < 2 && b2 < 2 && b3 < 2
    ensures var n := b0 + 2 * b1 + 4 * b2 + 8 * b3 + h * 16;
      n % 2 == b0 && n / 2 % 2 == b1 && n / 4 % 2 == b2 && n / 8 % 2 == b3
  {
    var q3 := b3 + 2 * h;
    var q2 := b2 + 2 * q3;
    var q1 := b1 + 2 * q2;
    var n := b0 + 2 * q1;
    LowBit(b0, q1);
    LowBit(b1, q2);
    LowBit(b2, q3);
    LowBit(b3, h);
    assert n / 4 == n / 2 / 2 && n / 8 == n / 2 / 2 / 2;
  }

  lemma LowBit(b: nat, q: nat)
    requires b < 2
    ensures (b + 2 * q) % 2 == b && (b + 2 * q) / 2 == q
  {
  }

  /** What the device shifts out at clock j of a request, by all the clocks it has seen so far. */
  function OutBit(tdo: seq<Clock> -> nat, before: seq<Clock>, cs: seq<Clock>, j: nat): (b: nat)
    ensures b < 2
  {
    if j < |cs| then tdo(before + cs[..j + 1]) % 2 else 0
  }

  function ReplyOctet(tdo: seq<Clock> -> nat, noise: nat -> byte, before: seq<Clock>, cs: seq<Clock>, i: nat): byte {
    NibbleOf(OutBit(tdo, before, cs, 4 * i), OutBit(tdo, before, cs, 4 * i + 1),
             OutBit(tdo, before, cs, 4 * i + 2), OutBit(tdo, before, cs, 4 * i + 3), noise(i))
  }

  /** The raw response to the last request. */
  function Reply(tdo: seq<Clock> -> nat, noise: nat -> byte, before: seq<Clock>, cs: seq<Clock>): (raw: seq<byte>)
    ensures |raw| == (|cs| + 3) / 4
  {
    seq((|cs| + 3) / 4, i requires 0 <= i < (|cs| + 3) / 4 => ReplyOctet(tdo, noise, before, cs, i))
  }

  lemma ReplyAnswers(tdo: seq<Clock> -> nat, noise: nat -> byte, before: seq<Clock>, cs: seq<Clock>, j: nat)
    requires j < |cs|
    ensures Answer(Reply(tdo, noise, before, cs), j) == tdo(before + cs[..j + 1]) % 2
  {
    assert j == 4 * (j / 4) + j % 4;
  }

  lemma ShiftSnoc(bits: Bits, i: nat)
    requires i < |bits|
    ensures ShiftClocks(bits)[..i + 1] == ShiftClocks(bits)[..i] + [Clk(bits[i], i == |bits| - 1)]
  {
  }

  function NoBits(n: nat): Bits { seq(n, i => 0) }

  /** The signature a bitstream file must show in its first 1024 octets. */
  function Signature(): seq<byte> {
    [0x4c, 0x43, 0x4d, 0x58, 0x4f, 0x32, 0x2d, 0x32, 0x30, 0x30, 0x30, 0x48, 0x43]
  }

  predicate SignatureAt(data: seq<byte>, i: nat) { i + 13 <= |data| && data[i..i + 13] == Signature() }

  predicate BitstreamValid(data: seq<byte>) {
    |data| >= 1024 && exists i :: 0 <= i <= 1024 - 13 && SignatureAt(data, i)
  }

  // ---- The engine ----

  class Engine {
    const jtagBuf: array<Clock>
    var jtagCount: nat
    // The control transfers made so far.
    var requests: seq<Request>
    // What the device shifts out at a clock, given all clocks up to it; and what else a raw octet holds.
    const tdo: seq<Clock> -> nat
    const noise: nat -> byte
    // Every clock ever asked for.
    ghost var issued: seq<Clock>

    ghost predicate Valid()
      reads this, jtagBuf
    {
      && jtagBuf.Length == MAX_COUNT_IN_REQUEST && jtagCount < MAX_COUNT_IN_REQUEST
      && AllGood(requests)
      && DecodeAll(requests) + jtagBuf[..jtagCount] == issued
    }

    constructor (tdo: seq<Clock> -> nat, noise: nat -> byte)
      ensures Valid() && issued == [] && requests == [] && fresh(jtagBuf)
    {
      jtagBuf := new Clock[MAX_COUNT_IN_REQUEST](i => 0);
      jtagCount, requests, issued := 0, [], [];
      this.tdo, this.noise := tdo, noise;
    }

    /** After it nothing waits: all clocks issued are with the device. */
    method Sync()
      requires jtagBuf.Length == MAX_COUNT_IN_REQUEST && jtagCount <= MAX_COUNT_IN_REQUEST
      requires AllGood(requests) && DecodeAll(requests) + jtagBuf[..jtagCount] == issued
      modifies `jtagCount, `requests
      ensures Valid() && jtagCount == 0 && DecodeAll(requests) == issued
      ensures requests == old(requests) || (requests != [] && requests[..|requests| - 1] == old(requests)
                && old(jtagCount) > 0 && Decode(requests[|requests| - 1]) == old(jtagBuf[..jtagCount]))
      ensures requests == old(requests) <==> old(jtagCount) == 0
    {
      if jtagCount != 0 {
        var r := UsbJtagRequest(jtagBuf, jtagCount);
        requests := requests + [r];
        jtagCount := 0;
        assert requests[..|requests| - 1] == old(requests);
      }
      assert jtagBuf[..jtagCount] == [];
    }

    method Clock(tdi: nat, tms: bool)
      requires Valid() && tdi < 2
      modifies this, jtagBuf
      ensures Valid() && issued == old(issued) + [Clk(tdi, tms)]
      ensures if old(jtagCount) == MAX_COUNT_IN_REQUEST - 1
              then jtagCount == 0 && |requests| == |old(requests)| + 1 && requests[..|old(requests)|] == old(requests)
                   && Decode(requests[|old(requests)|]) == old(jtagBuf[..jtagCount]) + [Clk(tdi, tms)]
              else jtagCount == old(jtagCount) + 1 && requests == old(requests)
                   && jtagBuf[..jtagCount] == old(jtagBuf[..jtagCount]) + [Clk(tdi, tms)]
    {
      jtagBuf[jtagCount] := Clk(tdi, tms);
      jtagCount := jtagCount + 1;
      issued := issued + [Clk(tdi, tms)];
      assert jtagBuf[..jtagCount] == old(jtagBuf[..jtagCount]) + [Clk(tdi, tms)];
      if jtagCount == MAX_COUNT_IN_REQUEST {
        Sync();
      }
    }

    method Reset()
      requires Valid()
      modifies this, jtagBuf
      ensures Valid() && issued == old(issued) + ResetClocks()
    {
      ghost var was := issued;
      for i := 0 to 16
        invariant Valid() && issued == was + seq(i, j => Clk(0, true))
      {
        Clock(0, true);
        assert seq(i + 1, j => Clk(0, true)) == seq(i, j => Clk(0, true)) + [Clk(0, true)];
      }
      Clock(0, false);
    }

    method Run(count: nat)
      requires Valid()
      modifies this, jtagBuf
      ensures Valid() && issued == old(issued) + RunClocks(count)
    {
      ghost var was := issued;
      for i := 0 to count
        invariant Valid() && issued == was + RunClocks(i)
      {
        Clock(0, false);
        assert RunClocks(i + 1) == RunClocks(i) + [Clk(0, false)];
      }
    }

    method EnterShiftDr()
      requires Valid()
      modifies this, jtagBuf
      ensures Valid() && issued == old(issued) + ToShiftDr()
    {
      Clock(0, true);
      Clock(0, false);
      Clock(0, false);
    }

    method LeaveToIdle()
      requires Valid()
      modifies this, jtagBuf
      ensures Valid() && issued == old(issued) + ToIdle()
    {
      Clock(0, true);
      Clock(0, false);
    }

    method EnterShiftIr()
      requires Valid()
      modifies this, jtagBuf
      ensures Valid() && issued == old(issued) + ToShiftIr()
    {
      hide DecodeAll;
      ghost var was := issued;
      Clock(0, true);
      EnterShiftDr();
      assert issued == was + ToShiftIr();
    }

    method ShiftOctet(b: byte)
      requires Valid()
      modifies this, jtagBuf
      ensures Valid() && issued == old(issued) + ShiftClocks(LsbFirst([b], 8))
    {
      hide ShiftClocks, DecodeAll, BitAt;
      ghost var was, bits := issued, LsbFirst([b], 8);
      for i := 0 to 8
        invariant Valid() && issued == was + ShiftClocks(bits)[..i]
      {
        Clock(BitAt(b, i), i == 7);
        ShiftSnoc(bits, i);
      }
      assert ShiftClocks(bits)[..8] == ShiftClocks(bits);
    }

    method WriteIr(ir: byte)
      requires Valid()
      modifies this, jtagBuf
      ensures Valid() && issued == old(issued) + IrClocks(LsbFirst([ir], 8))
    {
      hide ShiftClocks, DecodeAll, LsbFirst, ToShiftIr, ToIdle;
      EnterShiftIr();
      ShiftOctet(ir);
      LeaveToIdle();
    }

    method WriteDr(data: seq<byte>, size: nat)
      requires Valid() && size <= 8 * |data|
      modifies this, jtagBuf
      ensures Valid() && issued == old(issued) + DrClocks(LsbFirst(data, size))
    {
      hide ShiftClocks, DecodeAll, BitAt;
      ghost var was, bits := issued, LsbFirst(data, size);
      EnterShiftDr();
      for i := 0 to size
        invariant Valid() && issued == was + ToShiftDr() + ShiftClocks(bits)[..i]
      {
        Clock(BitAt(data[i / 8], i % 8), i == size - 1);
        ShiftSnoc(bits, i);
      }
      assert ShiftClocks(bits)[..size] == ShiftClocks(bits);
      LeaveToIdle();
      assert issued == was + DrClocks(bits);
    }

    /** The raw response of the device to the last request made. */
    method Respond() returns (raw: seq<byte>)
      requires AllGood(requests)
      ensures raw == if requests == [] then []
                     else Reply(tdo, noise, DecodeAll(requests[..|requests| - 1]), Decode(requests[|requests| - 1]))
    {
      if requests == [] {
        return [];
      }
      raw := Reply(tdo, noise, DecodeAll(requests[..|requests| - 1]), Decode(requests[|requests| - 1]));
    }

    /** The size clocks of a read go out as one request of their own. */
    method ShiftIn(size: nat)
      requires Valid() && jtagCount == 0 && size <= MAX_COUNT_IN_REQUEST
      modifies this, jtagBuf
      ensures Valid() && jtagCount == 0 && issued == old(issued) + ShiftClocks(NoBits(size))
      ensures if size == 0 then requests == old(requests)
              else requests != [] && DecodeAll(requests[..|requests| - 1]) == old(issued)
                   && Decode(requests[|requests| - 1]) == ShiftClocks(NoBits(size))
    {
      hide ShiftClocks;
      ghost var was, sent, cs := issued, requests, ShiftClocks(NoBits(size));
      assert DecodeAll(sent) == was by { assert jtagBuf[..0] == []; }
      for i := 0 to size
        invariant Valid() && issued == was + cs[..i]
        invariant i < MAX_COUNT_IN_REQUEST ==> requests == sent && jtagCount == i && jtagBuf[..jtagCount] == cs[..i]
        invariant i == MAX_COUNT_IN_REQUEST ==>
                    jtagCount == 0 && |requests| == |sent| + 1
                    && requests[..|sent|] == sent && Decode(requests[|sent|]) == cs[..i]
      {
        Clock(0, i == size - 1);
        ShiftSnoc(NoBits(size), i);
      }
      assert cs[..size] == cs;
      Sync();
    }

    /** Shift, send, fetch the response. */
    method ShiftAndFetch(size: nat) returns (data: array<byte>)
      requires Valid() && jtagCount == 0 && size <= MAX_COUNT_IN_REQUEST
      modifies this, jtagBuf
      ensures Valid() && issued == old(issued) + ShiftClocks(NoBits(size))
      ensures fresh(data) && data.Length == (size + 7) / 8
      ensures forall j :: 0 <= j < size ==>
                BitAt(data[j / 8], j % 8) == tdo(old(issued) + ShiftClocks(NoBits(size))[..j + 1]) % 2
    {
      hide ShiftClocks, Reply;
      ghost var before, cs := issued, ShiftClocks(NoBits(size));
      ShiftIn(size);
      var raw := [];
      if size > 0 {
        raw := Respond();
      }
      data := UsbJtagResponse(raw, size);
      forall j | 0 <= j < size ensures Answer(raw, j) == tdo(before + cs[..j + 1]) % 2 {
        ReplyAnswers(tdo, noise, before, cs, j);
      }
    }

    /** The bits read are those the device shifted out at exactly the clocks of this read. */
    method ReadDr(size: nat) returns (data: array<byte>)
      requires Valid() && size <= MAX_COUNT_IN_REQUEST
      modifies this, jtagBuf
      ensures Valid() && issued == old(issued) + DrClocks(NoBits(size))
      ensures fresh(data) && data.Length == (size + 7) / 8
      ensures forall j :: 0 <= j < size ==> BitAt(data[j / 8], j % 8) == tdo(issued[..|old(issued)| + 3 + j + 1]) % 2
    {
      hide ShiftClocks, BitAt, DecodeAll;
      ghost var was, cs := issued, ShiftClocks(NoBits(size));
      EnterShiftDr();
      Sync();
      ghost var before := issued;
      data := ShiftAndFetch(size);
      LeaveToIdle();
      forall j | 0 <= j < size
        ensures BitAt(data[j / 8], j % 8) == tdo(issued[..|was| + 3 + j + 1]) % 2
      {
        PrefixWithin(before, cs, ToIdle(), j + 1);
      }
    }

    static lemma PrefixWithin(a: seq<Jtag.Clock>, b: seq<Jtag.Clock>, c: seq<Jtag.Clock>, k: nat)
      requires k <= |b|
      ensures (a + b + c)[..|a| + k] == a + b[..k]
    {
    }

    method Order(ir: byte, data: seq<byte>, idle: nat)
      requires Valid()
      modifies this, jtagBuf
      ensures Valid() && issued == old(issued) + Command(ir, data, idle)
    {
      hide IrClocks, DrClocks, RunClocks, LsbFirst;
      WriteIr(ir);
      if data != [] {
        WriteDr(data, 8 * |data|);
      }
      Run(idle);
    }

    method ShiftBitstream(data: seq<byte>)
      requires Valid()
      modifies this, jtagBuf
      ensures Valid() && issued == old(issued) + ShiftClocks(MsbFirst(data))
    {
      hide ShiftClocks, MsbFirst, BitAt, DecodeAll;
      ghost var was, bits := issued, MsbFirst(data);
      for i := 0 to |data|
        invariant Valid() && issued == was + ShiftClocks(bits)[..8 * i]
      {
        for j := 8 downto 0
          invariant Valid() && issued == was + ShiftClocks(bits)[..8 * i + 8 - j]
        {
          Clock(BitAt(data[i], j), i == |data| - 1 && j == 0);
          MsbAt(data, i, j);
          ShiftSnoc(bits, 8 * i + 7 - j);
        }
      }
      assert ShiftClocks(bits)[..8 * |data|] == ShiftClocks(bits);
    }

    static lemma MsbAt(data: seq<byte>, i: nat, j: nat)
      requires i < |data| && j < 8
      ensures MsbFirst(data)[8 * i + 7 - j] == BitAt(data[i], j)
    {
    }

    method Setup()
      requires Valid()
      modifies this, jtagBuf
      ensures Valid() && issued == old(issued) + SetupClocks()
    {
      hide Command;
      Order(ISC_ENABLE, [0x00], 8);
      Order(ISC_ERASE, [0x01], 8);
      Order(BITSTREAM_BURST, [], 8);
    }

    method BurstBitstream(data: seq<byte>)
      requires Valid()
      modifies this, jtagBuf
      ensures Valid() && issued == old(issued) + DrClocks(MsbFirst(data))
    {
      hide ToShiftDr, ToIdle, ShiftClocks, MsbFirst;
      EnterShiftDr();
      ShiftBitstream(data);
      LeaveToIdle();
    }

    method FinishProgramming()
      requires Valid()
      modifies this, jtagBuf
      ensures Valid() && issued == old(issued) + FinishClocks()
    {
      hide Command, RunClocks;
      Run(100);
      Order(ISC_DISABLE, [], 8);
      Order(ISC_NOOP, [], 100);
    }

    /** Refused without a signature; else the whole sequence is with the device when it returns. */
    method ProgramSram(data: seq<byte>) returns (ok: bool)
      requires Valid()
      modifies this, jtagBuf
      ensures Valid() && ok == BitstreamValid(data)
      ensures !ok ==> issued == old(issued) && requests == old(requests)
      ensures ok ==> issued == old(issued) + SramClocks(data) && DecodeAll(requests) == issued
    {
      hide SetupClocks, FinishClocks, DrClocks, MsbFirst, BitstreamValid, DecodeAll;
      if !BitstreamValid(data) {
        return false;
      }
      Setup();
      BurstBitstream(data);
      FinishProgramming();
      Sync();
      return true;
    }
  }
}
