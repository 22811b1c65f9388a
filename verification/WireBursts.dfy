/**
 Bursts on the wire. In checksum order every burst of at most sixteen bits is detected, but a
 header carries its checksum in octets 2 and 3, in front of the words it covers and low octet
 first. A burst across the boundary of octets 3 and 4 is none in checksum order, and eight
 of these patterns go undetected.
 */
module WireBursts {
  import opened Bytes
  import opened BitWords
  import opened HeaderCrc
  import opened UhsifBlock
  import opened BlockLaws

  // ---- What sixteen bits leave behind after ninety-six shifts ----

  lemma {:induction false} StepsLinear(r: Reg, s: Reg, n: nat)
    ensures Steps(Xor(r, s), n) == Xor(Steps(r, n), Steps(s, n))
    decreases n
  {
    if n > 0 {
      ShiftLinear(r, s);
      StepsLinear(Shift(r), Shift(s), n - 1);
    }
  }

  lemma {:induction false} StepsAdd(r: Reg, m: nat, n: nat)
    ensures Steps(Steps(r, m), n) == Steps(r, m + n)
    decreases m
  {
    if m > 0 { StepsAdd(Shift(r), m - 1, n); }
  }

  function Unit(k: nat): Reg
    requires k < 16
  {
    Zeros(k) + [true] + Zeros(15 - k)
  }

  lemma {:induction false} UnitClimbs(k: nat)
    requires k < 16
    ensures Steps(Unit(k), k) == TOP
    decreases k
  {
    if k > 0 {
      assert Shift(Unit(k)) == Unit(k - 1);
      UnitClimbs(k - 1);
    } else {
      assert Unit(0) == TOP;
    }
  }

  /** Bit j of what 96 shifts make of a. */
  function After96(a: Reg, j: int): bool
    requires 0 <= j < 16
  {
    if j == 0 then ((((((a[0] != a[1]) != a[8]) != a[10]) != a[12]) != a[14]) != a[15])
    else if j == 1 then (((((a[1] != a[2]) != a[9]) != a[11]) != a[13]) != a[15])
    else if j == 2 then (((((a[0] != a[2]) != a[3]) != a[10]) != a[12]) != a[14])
    else if j == 3 then (((((a[1] != a[3]) != a[4]) != a[11]) != a[13]) != a[15])
    else if j == 4 then (((((((a[0] != a[1]) != a[2]) != a[4]) != a[5]) != a[8]) != a[10]) != a[15])
    else if j == 5 then ((((((a[1] != a[2]) != a[3]) != a[5]) != a[6]) != a[9]) != a[11])
    else if j == 6 then (((((((a[0] != a[2]) != a[3]) != a[4]) != a[6]) != a[7]) != a[10]) != a[12])
    else if j == 7 then (((((((a[1] != a[3]) != a[4]) != a[5]) != a[7]) != a[8]) != a[11]) != a[13])
    else if j == 8 then ((((((((a[0] != a[2]) != a[4]) != a[5]) != a[6]) != a[8]) != a[9]) != a[12]) != a[14])
    else if j == 9 then ((((((((a[1] != a[3]) != a[5]) != a[6]) != a[7]) != a[9]) != a[10]) != a[13]) != a[15])
    else if j == 10 then ((((((((a[0] != a[2]) != a[4]) != a[6]) != a[7]) != a[8]) != a[10]) != a[11]) != a[14])
    else if j == 11 then ((((((a[3] != a[5]) != a[7]) != a[9]) != a[10]) != a[11]) != a[14])
    else if j == 12 then ((((((a[4] != a[6]) != a[8]) != a[10]) != a[11]) != a[12]) != a[15])
    else if j == 13 then (((((a[5] != a[7]) != a[9]) != a[11]) != a[12]) != a[13])
    else if j == 14 then (((((a[6] != a[8]) != a[10]) != a[12]) != a[13]) != a[14])
    else ((((((a[0] != a[7]) != a[9]) != a[11]) != a[13]) != a[14]) != a[15])
  }

  predicate Shows(r: Reg, a: Reg) { forall j :: 0 <= j < 16 ==> r[j] == After96(a, j) }

  lemma UnitAt(k: nat)
    requires k < 16
    ensures var u := Unit(k);
      && u[0] == (k == 0) && u[1] == (k == 1) && u[2] == (k == 2) && u[3] == (k == 3)
      && u[4] == (k == 4) && u[5] == (k == 5) && u[6] == (k == 6) && u[7] == (k == 7)
      && u[8] == (k == 8) && u[9] == (k == 9) && u[10] == (k == 10) && u[11] == (k == 11)
      && u[12] == (k == 12) && u[13] == (k == 13) && u[14] == (k == 14) && u[15] == (k == 15)
  {
  }

  /** One more shift of a unit is the next unit. */
  lemma UnitStep(k: nat, j: int)
    requires 0 < k < 16 && 0 <= j < 16
    ensures After96(Unit(k - 1), j)
      == ((j < 15 && After96(Unit(k), j + 1)) != (After96(Unit(k), 0) && (j == 3 || j == 10 || j == 15)))
  {
    UnitAt(k);
    UnitAt(k - 1);
    hide Unit;
  }

  lemma ShiftShows(k: nat, r: Reg)
    requires 0 < k < 16 && Shows(r, Unit(k))
    ensures Shows(Shift(r), Unit(k - 1))
  {
    hide After96, Unit;
    forall j | 0 <= j < 16 ensures Shift(r)[j] == After96(Unit(k - 1), j) {
      ShiftAt(r, j);
      UnitStep(k, j);
    }
  }

  lemma At81()
    ensures At(81) == Fields(13, 66, 9)
  {
    hide At;
    assert At(0) == Fields(8, 0, 0) by { AtStart(); }
    assert AvoidsTop(0);
    var n := Orbit0(0);
    n := Orbit1(n);
    n := Orbit2(n);
    n := Orbit3(n);
    n := Orbit4(n);
    n := Orbit5(n);
  }

  lemma AtStart()
    ensures At(0) == Fields(8, 0, 0)
  {
  }

  lemma {:induction false} UnitShows(k: nat)
    requires k < 16
    ensures Steps(Unit(k), 96) == Steps(TOP, 96 - k) && Shows(Steps(TOP, 96 - k), Unit(k))
    decreases 15 - k
  {
    hide Shows, At;
    UnitClimbs(k);
    StepsAdd(Unit(k), k, 96 - k);
    if k == 15 {
      At81();
      StepsAt(81);
      LastRow(Steps(TOP, 81));
    } else {
      UnitShows(k + 1);
      StepsLast(TOP, 95 - k);
      ShiftShows(k + 1, Steps(TOP, 95 - k));
    }
  }

  // ---- Bits of numbers ----

  lemma Snoc(b: Bits, x: bool)
    ensures FromBits(b + [x]) == 2 * FromBits(b) + Bit(x)
  {
    assert (b + [x])[..|b|] == b;
  }

  lemma Value4(b: Bits)
    requires |b| == 4
    ensures FromBits(b) == 8 * Bit(b[0]) + 4 * Bit(b[1]) + 2 * Bit(b[2]) + Bit(b[3])
  {
    hide FromBits;
    assert FromBits([]) == 0 by { EmptyIsZero(); }
    assert b[..0] == [] && b[..1] == b[..0] + [b[0]] && b[..2] == b[..1] + [b[1]] && b[..3] == b[..2] + [b[2]];
    assert b == b[..3] + [b[3]];
    Snoc(b[..0], b[0]);
    Snoc(b[..1], b[1]);
    Snoc(b[..2], b[2]);
    Snoc(b[..3], b[3]);
  }

  lemma EmptyIsZero()
    ensures FromBits([]) == 0
  {
  }

  lemma Value5(b: Bits)
    requires |b| == 5
    ensures FromBits(b) == 16 * Bit(b[0]) + 8 * Bit(b[1]) + 4 * Bit(b[2]) + 2 * Bit(b[3]) + Bit(b[4])
  {
    hide FromBits;
    assert b == b[..4] + [b[4]];
    Value4(b[..4]);
    Snoc(b[..4], b[4]);
  }

  lemma Value7(b: Bits)
    requires |b| == 7
    ensures FromBits(b) == 64 * Bit(b[0]) + 32 * Bit(b[1]) + 16 * Bit(b[2]) + 8 * Bit(b[3]) + 4 * Bit(b[4])
      + 2 * Bit(b[5]) + Bit(b[6])
  {
    hide FromBits;
    assert b == b[..6] + [b[6]] && b[..6] == b[..5] + [b[5]];
    Value5(b[..5]);
    Snoc(b[..5], b[5]);
    Snoc(b[..6], b[6]);
  }

  lemma Value8(b: Bits)
    requires |b| == 8
    ensures FromBits(b) == Octet(b, 0)
  {
    hide FromBits;
    assert b == b[..7] + [b[7]];
    Value7(b[..7]);
    Snoc(b[..7], b[7]);
  }

  /** Eight bits as a number. */
  function Octet(b: Bits, at: nat): nat
    requires at + 8 <= |b|
  {
    128 * Bit(b[at]) + 64 * Bit(b[at + 1]) + 32 * Bit(b[at + 2]) + 16 * Bit(b[at + 3])
    + 8 * Bit(b[at + 4]) + 4 * Bit(b[at + 5]) + 2 * Bit(b[at + 6]) + Bit(b[at + 7])
  }

  lemma LastRow(r: Reg)
    requires FieldsOf(r) == Fields(13, 66, 9)
    ensures Shows(r, Unit(15))
  {
    hide FromBits, Unit;
    Value4(r[..4]);
    Value7(r[4..11]);
    Value5(r[11..]);
    assert r[0] && r[1] && !r[2] && r[3];
    assert r[4] && !r[5] && !r[6] && !r[7] && !r[8] && r[9] && !r[10];
    assert !r[11] && r[12] && !r[13] && !r[14] && r[15];
    UnitAt(15);
  }

  // ---- The sixteen equations ----

  /** The first k bits of a, the others clear. */
  function Keep(a: Reg, k: nat): Reg
    requires k <= 16
  {
    a[..k] + Zeros(16 - k)
  }

  lemma KeepMore(a: Reg, k: nat)
    requires k < 16
    ensures Keep(a, k + 1) == if a[k] then Xor(Keep(a, k), Unit(k)) else Keep(a, k)
  {
  }

  lemma After96Linear(a: Reg, b: Reg, j: int)
    requires 0 <= j < 16
    ensures After96(Xor(a, b), j) == (After96(a, j) != After96(b, j))
  {
    hide After96;
    XorAt(a, b);
    if j < 4 { LinearLow(Xor(a, b), a, b, j); }
    else if j < 8 { LinearMid(Xor(a, b), a, b, j); }
    else if j < 12 { LinearHigh(Xor(a, b), a, b, j); }
    else { LinearTop(Xor(a, b), a, b, j); }
  }

  predicate Adds(x: Reg, a: Reg, b: Reg) { forall i :: 0 <= i < 16 ==> x[i] == (a[i] != b[i]) }

  lemma LinearLow(x: Reg, a: Reg, b: Reg, j: int)
    requires 0 <= j < 4 && Adds(x, a, b)
    ensures After96(x, j) == (After96(a, j) != After96(b, j))
  {
  }

  lemma LinearMid(x: Reg, a: Reg, b: Reg, j: int)
    requires 4 <= j < 8 && Adds(x, a, b)
    ensures After96(x, j) == (After96(a, j) != After96(b, j))
  {
  }

  lemma LinearHigh(x: Reg, a: Reg, b: Reg, j: int)
    requires 8 <= j < 12 && Adds(x, a, b)
    ensures After96(x, j) == (After96(a, j) != After96(b, j))
  {
  }

  lemma LinearTop(x: Reg, a: Reg, b: Reg, j: int)
    requires 12 <= j < 16 && Adds(x, a, b)
    ensures After96(x, j) == (After96(a, j) != After96(b, j))
  {
  }

  lemma XorAt(a: Reg, b: Reg)
    ensures Adds(Xor(a, b), a, b)
  {
  }

  lemma {:induction false} KeepShows(a: Reg, k: nat)
    requires k <= 16
    ensures Shows(Steps(Keep(a, k), 96), Keep(a, k))
  {
    hide After96, Unit, Keep, Steps;
    if k == 0 {
      KeepNone(a);
    } else {
      KeepShows(a, k - 1);
      KeepMore(a, k - 1);
      var r := Keep(a, k - 1);
      if a[k - 1] {
        StepsLinear(r, Unit(k - 1), 96);
        UnitShows(k - 1);
        forall j | 0 <= j < 16 ensures After96(Xor(r, Unit(k - 1)), j) == (After96(r, j) != After96(Unit(k - 1), j)) {
          After96Linear(r, Unit(k - 1), j);
        }
      }
    }
  }

  /** Sixteen bits and ninety-six shifts: the closed form. */
  lemma StepsShow(a: Reg)
    ensures Shows(Steps(a, 96), a)
  {
    KeepShows(a, 16);
    assert Keep(a, 16) == a;
  }

  lemma KeepNone(a: Reg)
    ensures Keep(a, 0) == Zeros(16) && Shows(Steps(Keep(a, 0), 96), Keep(a, 0))
  {
    hide Steps, After96;
    assert Keep(a, 0) == Zeros(16);
    StepsZero(Zeros(16), 96);
    forall j | 0 <= j < 16 ensures !After96(Zeros(16), j) { ZeroShows(j); }
  }

  lemma ZeroShows(j: int)
    requires 0 <= j < 16
    ensures !After96(Zeros(16), j)
  {
  }

  // ---- Sixteen bits in a row ----

  /** The flips of octets 2 to 5 that no checksum shows. */
  predicate Missed(o2: int, o3: int, o4: int, o5: int) {
    || (o2 == 0x00 && o3 == 0x01 && o4 == 0x15 && o5 == 0xd2)
    || (o2 == 0x00 && o3 == 0x02 && o4 == 0x2b && o5 == 0xa4)
    || (o2 == 0x00 && o3 == 0x04 && o4 == 0x57 && o5 == 0x48)
    || (o2 == 0x00 && o3 == 0x08 && o4 == 0xae && o5 == 0x90)
    || (o2 == 0x00 && o3 == 0x29 && o4 == 0x21 && o5 == 0x40)
    || (o2 == 0x00 && o3 == 0x52 && o4 == 0x42 && o5 == 0x80)
    || (o2 == 0x00 && o3 == 0xa4 && o4 == 0x85 && o5 == 0x00)
    || (o2 == 0x01 && o3 == 0xc4 && o4 == 0xa0 && o5 == 0x00)
  }

  /** Where bit j of the checksum lies on the wire, counted from octet 2. */
  function WirePos(j: int): int { if j < 8 then 8 + j else j - 8 }

  /** Flips of checksum c and of the sixteen message bits behind it are confined to the window from p. */
  predicate Window(c: Reg, a: Reg, p: int) {
    && (forall j :: 0 <= j < 16 && !(p <= WirePos(j) < p + 16) ==> !c[j])
    && (forall j :: 0 <= j < 16 && !(p <= 16 + j < p + 16) ==> !a[j])
  }

  lemma WindowCases(c: Reg, a: Reg, p: int)
    requires Window(c, a, p) && Shows(c, a)
    ensures (c == Zeros(16) && a == Zeros(16)) || Missed(Octet(c, 8), Octet(c, 0), Octet(a, 0), Octet(a, 8))
  {
  }

  lemma MissedShows(c: Reg, a: Reg)
    requires Missed(Octet(c, 8), Octet(c, 0), Octet(a, 0), Octet(a, 8))
    ensures Shows(c, a)
  {
  }

  lemma SameShown(c: Reg, d: Reg, a: Reg)
    requires Shows(c, a) && Shows(d, a)
    ensures c == d
  {
    hide After96;
    forall j | 0 <= j < 16 ensures c[j] == d[j] {}
  }

  /** Flips of the first sixteen message bits and of the checksum cancel exactly if the closed form says so. */
  lemma Cancels(a: Reg, c: Reg)
    ensures Syndrome(a + Zeros(80) + c) == Zeros(16) <==> Shows(c, a)
  {
    hide CrcBits, Steps, After96;
    CrcConcat(Zeros(16), a + Zeros(80), c);
    CrcConcat(Zeros(16), a, Zeros(80));
    assert a + [] == a;
    FeedAtOnce(Zeros(16), a, []);
    XorZero(a);
    FeedZeros(Steps(a, 16), 80);
    StepsAdd(a, 16, 80);
    FeedCheck(Steps(a, 96), c);
    StepsShow(a);
    if Shows(c, a) { SameShown(c, Steps(a, 96), a); }
  }

  // ---- Headers ----

  lemma {:induction false} ToBitsConcat(a: nat, b: nat, m: nat, n: nat)
    requires b < Pow2(n)
    ensures ToBits(a * Pow2(n) + b, m + n) == ToBits(a, m) + ToBits(b, n)
    decreases n
  {
    if n == 0 {
      assert ToBits(a, m) + [] == ToBits(a, m);
    } else {
      var v := a * Pow2(n) + b;
      assert v == 2 * (a * Pow2(n - 1)) + b;
      ToBitsConcat(a, b / 2, m, n - 1);
      assert v / 2 == a * Pow2(n - 1) + b / 2 && v % 2 == b % 2;
      assert ToBits(v, m + n) == ToBits(a, m) + ToBits(b / 2, n - 1) + [b % 2 == 1];
    }
  }

  lemma CheckBits(h: seq<byte>)
    requires |h| == ACK_SIZE
    ensures ToBits(Le32(h) / 0x1_0000, 16) == OctetBits(h[3]) + OctetBits(h[2])
  {
    hide ToBits;
    assert Le32(h) / 0x1_0000 == h[3] as int * 0x100 + h[2] as int;
    assert Pow2(8) == 0x100;
    ToBitsConcat(h[3], h[2], 8, 8);
  }

  lemma {:induction false} MsgBitsAt(m: seq<byte>, i: nat)
    requires i < |m|
    ensures MsgBits(m)[8 * i..8 * i + 8] == OctetBits(m[i])
  {
    hide OctetBits;
    if i > 0 {
      MsgBitsAt(m[1..], i - 1);
      assert MsgBits(m)[8..] == MsgBits(m[1..]);
      assert MsgBits(m)[8 * i..8 * i + 8] == MsgBits(m)[8..][8 * (i - 1)..8 * (i - 1) + 8];
    }
  }

  lemma {:induction false} MsgBitsFrom(m: seq<byte>, i: nat)
    requires i <= |m|
    ensures MsgBits(m)[8 * i..] == MsgBits(m[i..])
  {
    hide OctetBits;
    if i > 0 {
      MsgBitsFrom(m[1..], i - 1);
      assert MsgBits(m)[8..] == MsgBits(m[1..]) && m[1..][i - 1..] == m[i..];
      assert MsgBits(m)[8 * i..] == MsgBits(m)[8..][8 * (i - 1)..];
    } else {
      assert m[0..] == m;
    }
  }

  /** The flipped bits of a header, octet by octet, most significant bit first. */
  function Flips(h: seq<byte>, h': seq<byte>): (f: Bits)
    requires |h| == |h'| == ACK_SIZE
    ensures |f| == 128
  {
    Xor(MsgBits(h), MsgBits(h'))
  }

  /** Exclusive or of two octets. */
  function XorOctet(x: byte, y: byte): nat { FromBits(Xor(OctetBits(x), OctetBits(y))) }

  predicate Confined(f: Bits, p: int) { forall q :: 0 <= q < |f| && !(p <= q < p + 16) ==> !f[q] }

  /** The flips are one of the eight patterns. */
  predicate MissedFlips(h: seq<byte>, h': seq<byte>)
    requires |h| == |h'| == ACK_SIZE
  {
    && h'[0] == h[0] && h'[1] == h[1] && h'[6..] == h[6..]
    && Missed(XorOctet(h[2], h'[2]), XorOctet(h[3], h'[3]), XorOctet(h[4], h'[4]), XorOctet(h[5], h'[5]))
  }

  predicate ChecksumOk(h: seq<byte>)
    requires |h| == ACK_SIZE
  {
    BlkHdrOk(Le32(h), Le32(h[4..]), Le32(h[8..]), Le32(h[12..]))
  }

  lemma FlipsAt(h: seq<byte>, h': seq<byte>, i: nat)
    requires |h| == |h'| == ACK_SIZE && i < ACK_SIZE
    ensures Flips(h, h')[8 * i..8 * i + 8] == Xor(OctetBits(h[i]), OctetBits(h'[i]))
  {
    hide OctetBits, MsgBits;
    MsgBitsAt(h, i);
    MsgBitsAt(h', i);
  }

  lemma QuietOctet(x: byte, y: byte)
    ensures Xor(OctetBits(x), OctetBits(y)) == Zeros(8) <==> x == y
  {
    hide OctetBits, FromBits;
    var a, b := OctetBits(x), OctetBits(y);
    if Xor(a, b) == Zeros(8) {
      forall k | 0 <= k < 8 ensures a[k] == b[k] { assert !Xor(a, b)[k]; }
      assert a == b;
    }
    OctetBack(x);
    OctetBack(y);
  }

  lemma OctetFlips(h: seq<byte>, h': seq<byte>, i: nat)
    requires |h| == |h'| == ACK_SIZE && i < ACK_SIZE
    ensures XorOctet(h[i], h'[i]) == Octet(Flips(h, h'), 8 * i)
    ensures (forall q :: 8 * i <= q < 8 * i + 8 ==> !Flips(h, h')[q]) <==> h[i] == h'[i]
  {
    hide OctetBits, FromBits, Flips;
    FlipsAt(h, h', i);
    var f, g := Flips(h, h'), Xor(OctetBits(h[i]), OctetBits(h'[i]));
    Value8(g);
    SliceOctet(f, 8 * i);
    QuietOctet(h[i], h'[i]);
  }

  lemma SliceOctet(f: Bits, at: nat)
    requires at + 8 <= |f|
    ensures Octet(f[at..at + 8], 0) == Octet(f, at)
    ensures f[at..at + 8] == Zeros(8) <==> forall q :: at <= q < at + 8 ==> !f[q]
  {
    if f[at..at + 8] == Zeros(8) {
      forall q | at <= q < at + 8 ensures !f[q] { assert f[at..at + 8][q - at] == f[q]; }
    }
  }

  lemma OctetBack(b: byte)
    ensures FromBits(OctetBits(b)) == b
  {
    assert Pow2(8) == 256;
    FromTo(b, 8);
  }

  /** The flips as the checksum meets them: message first, then octet 3, then octet 2. */
  lemma CodeFlips(h: seq<byte>, h': seq<byte>)
    requires |h| == |h'| == ACK_SIZE
    ensures var f := Flips(h, h');
      Xor(CodeBits(h), CodeBits(h')) == f[32..] + (f[24..32] + f[16..24])
  {
    hide OctetBits, MsgBits, Le32, ToBits;
    var f := Flips(h, h');
    MsgBitsFrom(h, 4);
    MsgBitsFrom(h', 4);
    CheckBits(h);
    CheckBits(h');
    MsgBitsAt(h, 2);
    MsgBitsAt(h, 3);
    MsgBitsAt(h', 2);
    MsgBitsAt(h', 3);
    assert f[32..] == Xor(MsgBits(h[4..]), MsgBits(h'[4..]));
    assert f[24..32] == Xor(OctetBits(h[3]), OctetBits(h'[3]));
    assert f[16..24] == Xor(OctetBits(h[2]), OctetBits(h'[2]));
  }

  /** Flips behind octet 3 only are a burst in checksum order as well. */
  lemma LateBurst(f: Bits, p: int)
    requires |f| == 128 && Confined(f, p) && p >= 32 && f != Zeros(128)
    ensures Syndrome(f[32..] + (f[24..32] + f[16..24])) != Zeros(16)
  {
    hide CrcBits, Syndrome;
    var q := if p <= 112 then p else 112;
    var w := f[q..q + 16];
    AroundWindow(f, q);
    assert w != Zeros(16);
    BurstDetected(q - 32, w, 112 - q + 16);
    CodeWindow(f, q);
  }

  lemma AroundWindow(f: Bits, q: nat)
    requires |f| == 128 && Confined(f, q) && q <= 112
    ensures f == Zeros(q) + f[q..q + 16] + Zeros(112 - q)
    ensures f[q..q + 16] == Zeros(16) ==> f == Zeros(128)
  {
    if f[q..q + 16] == Zeros(16) {
      forall i | 0 <= i < 128 ensures !f[i] {
        if q <= i < q + 16 { assert f[q..q + 16][i - q] == f[i]; }
      }
    }
  }

  lemma CodeWindow(f: Bits, q: nat)
    requires |f| == 128 && Confined(f, q) && 32 <= q <= 112
    ensures f[32..] + (f[24..32] + f[16..24]) == Zeros(q - 32) + f[q..q + 16] + Zeros(112 - q + 16)
  {
  }

  lemma QuietPart(f: Bits)
    requires |f| == 128
    ensures f[24..32] + f[16..24] == Zeros(16) && f[32..48] == Zeros(16) ==> f[16..48] == Zeros(32)
  {
    var a, c := f[32..48], f[24..32] + f[16..24];
    if c == Zeros(16) && a == Zeros(16) {
      forall q | 16 <= q < 48 ensures !f[q] {
        if q < 24 {
          assert c[q - 8] == f[q];
        } else if q < 32 {
          assert c[q - 24] == f[q];
        } else {
          assert a[q - 32] == f[q];
        }
      }
    }
  }

  /** Flips up to octet 5 only. */
  lemma EarlyBurst(f: Bits, p: int)
    requires |f| == 128 && Confined(f, p) && p <= 32 && f[16..48] != Zeros(32)
    ensures Syndrome(f[32..] + (f[24..32] + f[16..24])) == Zeros(16)
      <==> Missed(Octet(f, 16), Octet(f, 24), Octet(f, 32), Octet(f, 40))
    ensures forall q :: 48 <= q < 128 ==> !f[q]
  {
    hide Syndrome, Shows, Missed;
    var a, c: Reg := f[32..48], f[24..32] + f[16..24];
    assert f[32..] == a + Zeros(80);
    Cancels(a, c);
    assert Window(c, a, p - 16);
    if Shows(c, a) { WindowCases(c, a, p - 16); }
    QuietPart(f);
    if Missed(Octet(c, 8), Octet(c, 0), Octet(a, 0), Octet(a, 8)) { MissedShows(c, a); }
  }

  lemma SameMagic(h: seq<byte>, h': seq<byte>)
    requires |h| == |h'| == ACK_SIZE && Magic(h)
    ensures Magic(h') <==> h'[0] == h[0] && h'[1] == h[1]
  {
    MagicOctets(h);
    MagicOctets(h');
  }

  lemma NotMissed(h: seq<byte>, h': seq<byte>)
    requires |h| == |h'| == ACK_SIZE && (h[3] == h'[3] || h[4] == h'[4])
    ensures !MissedFlips(h, h')
  {
    hide XorOctet;
    SelfXor(h[3]);
    SelfXor(h[4]);
  }

  lemma SelfXor(b: byte)
    ensures XorOctet(b, b) == 0
  {
    hide OctetBits, FromBits;
    QuietOctet(b, b);
    Value8(Zeros(8));
  }

  lemma NoFlips(h: seq<byte>, h': seq<byte>)
    requires |h| == |h'| == ACK_SIZE && (forall q :: 0 <= q < 128 ==> !Flips(h, h')[q])
    ensures h == h'
  {
    hide Flips, XorOctet;
    forall i | 0 <= i < ACK_SIZE ensures h[i] == h'[i] { OctetFlips(h, h', i); }
  }

  lemma TailSame(h: seq<byte>, h': seq<byte>)
    requires |h| == |h'| == ACK_SIZE && (forall q :: 48 <= q < 128 ==> !Flips(h, h')[q])
    ensures h[6..] == h'[6..]
  {
    hide Flips, XorOctet;
    forall i | 6 <= i < ACK_SIZE ensures h[i] == h'[i] { OctetFlips(h, h', i); }
  }

  lemma LateMisses(h: seq<byte>, h': seq<byte>, p: int)
    requires |h| == |h'| == ACK_SIZE && h' != h && Confined(Flips(h, h'), p) && p > 32
    ensures Syndrome(Xor(CodeBits(h), CodeBits(h'))) != Zeros(16) && !MissedFlips(h, h')
  {
    hide Flips, Missed, XorOctet, CodeBits, Syndrome;
    var f := Flips(h, h');
    CodeFlips(h, h');
    OctetFlips(h, h', 3);
    if f == Zeros(128) { NoFlips(h, h'); }
    LateBurst(f, p);
    NotMissed(h, h');
  }

  lemma EarlyMisses(h: seq<byte>, h': seq<byte>, p: int)
    requires |h| == |h'| == ACK_SIZE && h' != h && Confined(Flips(h, h'), p) && p <= 32
    requires h'[0] == h[0] && h'[1] == h[1]
    ensures Syndrome(Xor(CodeBits(h), CodeBits(h'))) == Zeros(16) <==> MissedFlips(h, h')
  {
    hide Flips, Missed, XorOctet, CodeBits, Syndrome;
    var f := Flips(h, h');
    CodeFlips(h, h');
    OctetFlips(h, h', 2);
    OctetFlips(h, h', 3);
    OctetFlips(h, h', 4);
    OctetFlips(h, h', 5);
    SomeFlip(h, h', p);
    EarlyBurst(f, p);
    TailSame(h, h');
  }

  lemma SomeFlip(h: seq<byte>, h': seq<byte>, p: int)
    requires |h| == |h'| == ACK_SIZE && h' != h && Confined(Flips(h, h'), p) && p <= 32
    requires h'[0] == h[0] && h'[1] == h[1]
    ensures Flips(h, h')[16..48] != Zeros(32)
  {
    hide Flips, XorOctet;
    var f := Flips(h, h');
    OctetFlips(h, h', 0);
    OctetFlips(h, h', 1);
    if f[16..48] == Zeros(32) {
      forall q | 0 <= q < 128 ensures !f[q] {
        if 16 <= q < 48 { assert f[16..48][q - 16] == f[q]; }
      }
      NoFlips(h, h');
    }
  }

  /** Among all bursts of at most sixteen bits on the wire the checksum misses exactly eight patterns. */
  lemma ChecksumMisses(h: seq<byte>, h': seq<byte>, p: int)
    requires |h| == |h'| == ACK_SIZE && HeaderValid(h) && h' != h && Confined(Flips(h, h'), p)
    ensures ChecksumOk(h') <==> MissedFlips(h, h')
  {
    hide Flips, HeaderValid, Confined, Missed, XorOctet, CodeBits, Syndrome, BlkHdrOk, Magic;
    ValidHeaderFacts(h);
    SameMagic(h, h');
    ChecksumNeedsMagic(h');
    if Magic(h') {
      CorruptionIsSyndrome(h, h');
      if p > 32 { LateMisses(h, h', p); } else { EarlyMisses(h, h', p); }
    }
  }

  lemma ChecksumNeedsMagic(h: seq<byte>)
    requires |h| == ACK_SIZE
    ensures ChecksumOk(h) ==> Magic(h)
  {
  }

  // ---- What the parser accepts ----

  /** The fields the parser looks at, in octets. */
  lemma HeaderOctets(h: seq<byte>)
    requires |h| == ACK_SIZE
    ensures HeaderValid(h)
      <==> ChecksumOk(h) && h[5] < 16 && h[6] == 0 && h[7] == 0 && PayloadWords(h) <= MAX_PAYLOAD_WORDS
    ensures PayloadWords(h) == h[12..][1] as int / 16 + 16 * (h[12..][2] as int)
  {
    hide BlkHdrOk;
    var w := h[4] as int + 0x100 * h[5] as int + 0x1_0000 * h[6] as int + 0x100_0000 * h[7] as int;
    assert Le32(h[4..]) == w;
    var v := h[12..];
    var hi := v[1] as int + 0x100 * v[2] as int + 0x1_0000 * v[3] as int;
    assert Le32(v) == v[0] as int + 0x100 * hi;
    assert Le32(v) / 0x1000 == hi / 16;
    assert hi / 16 == v[1] as int / 16 + 16 * v[2] as int + 0x1000 * v[3] as int;
  }

  /** The upper half of an octet. */
  lemma UpperHalf(x: byte, y: byte)
    requires x < 16
    ensures XorOctet(x, y) >= 16 ==> y >= 16
    ensures XorOctet(x, y) == 0 ==> x == y
  {
    hide OctetBits, FromBits;
    var a, b := OctetBits(x), OctetBits(y);
    Value8(a);
    Value8(b);
    Value8(Xor(a, b));
    OctetBack(x);
    OctetBack(y);
  }

  /**
   A burst of at most sixteen bits anywhere in a header is accepted exactly if it is one of
   the two missed patterns that leave octet 5, with its reserved bits, alone.
   */
  lemma ParserMisses(h: seq<byte>, h': seq<byte>, p: int)
    requires |h| == |h'| == ACK_SIZE && HeaderValid(h) && h' != h && Confined(Flips(h, h'), p)
    ensures HeaderValid(h') <==> MissedFlips(h, h') && h'[5] == h[5]
  {
    hide Flips, Confined, ChecksumOk, HeaderValid, XorOctet, PayloadWords;
    ChecksumMisses(h, h', p);
    HeaderOctets(h);
    HeaderOctets(h');
    UpperHalf(h[5], h'[5]);
    if MissedFlips(h, h') {
      assert h[6] == h[6..][0] && h'[6] == h'[6..][0] && h[7] == h[6..][1] && h'[7] == h'[6..][1];
      assert h[12..] == h[6..][6..] && h'[12..] == h'[6..][6..];
    }
  }

  /** A burst confined to the checksum, or to what is not the checksum, is always rejected. */
  lemma ConfinedBurstRejected(h: seq<byte>, h': seq<byte>, p: int)
    requires |h| == |h'| == ACK_SIZE && HeaderValid(h) && h' != h && Confined(Flips(h, h'), p)
    requires h'[4..] == h[4..] || h'[..4] == h[..4]
    ensures !HeaderValid(h')
  {
    hide Flips, Confined, HeaderValid, MissedFlips;
    ParserMisses(h, h', p);
    if h'[4..] == h[4..] {
      assert h[4..][0] == h[4] && h'[4..][0] == h'[4];
    } else {
      assert h[..4][3] == h[3] && h'[..4][3] == h'[3];
    }
    NotMissed(h, h');
  }

  lemma XorBack(x: byte, m: byte)
    ensures XorOctet(x, m) < 256 && XorOctet(x, XorOctet(x, m)) == m
  {
    hide OctetBits, FromBits;
    var a, b := OctetBits(x), OctetBits(m);
    var c := Xor(a, b);
    Value8(c);
    ToFrom(c);
    assert OctetBits(FromBits(c)) == c by { SameOctet(c); }
    assert Xor(a, c) == b;
    OctetBack(m);
  }

  lemma SameOctet(c: Bits)
    requires |c| == 8 && FromBits(c) < 256
    ensures OctetBits(FromBits(c)) == c
  {
    ToFrom(c);
  }

  /** Flip the bits of 0xa4 in octet 3 and of 0x85 in octet 4: six flips within sixteen bits. */
  function BadBurst(h: seq<byte>): (h': seq<byte>)
    requires |h| == ACK_SIZE
    ensures |h'| == ACK_SIZE
  {
    XorBack(h[3], 0xa4);
    XorBack(h[4], 0x85);
    h[3 := XorOctet(h[3], 0xa4)][4 := XorOctet(h[4], 0x85)]
  }

  /** The claim of the header comment is false: every valid header becomes another valid one under this burst. */
  lemma BurstNotDetected(h: seq<byte>)
    requires |h| == ACK_SIZE && HeaderValid(h)
    ensures BadBurst(h) != h && Confined(Flips(h, BadBurst(h)), 24) && HeaderValid(BadBurst(h))
  {
    hide HeaderValid, Flips, XorOctet, Confined;
    var h' := BadBurst(h);
    XorBack(h[3], 0xa4);
    XorBack(h[4], 0x85);
    SelfXor(h[2]);
    SelfXor(h[5]);
    SelfXor(h[3]);
    BadBurstConfined(h, h');
    assert h'[6..] == h[6..];
    ParserMisses(h, h', 24);
  }

  lemma BadBurstConfined(h: seq<byte>, h': seq<byte>)
    requires |h| == |h'| == ACK_SIZE
    requires forall i :: 0 <= i < ACK_SIZE && i != 3 && i != 4 ==> h'[i] == h[i]
    ensures Confined(Flips(h, h'), 24)
  {
    hide Flips, XorOctet;
    forall q | 0 <= q < 128 && !(24 <= q < 40) ensures !Flips(h, h')[q] {
      var i := q / 8;
      OctetFlips(h, h', i);
      assert 8 * i <= q < 8 * i + 8;
    }
  }

  /** There are such headers: any the printer makes. */
  lemma SomeBurstPasses(words: nat, seqNo: nat)
    requires words <= MAX_PAYLOAD_WORDS
    ensures var h := BlockHeader(1, true, words, seqNo);
      HeaderValid(h) && BadBurst(h) != h && Confined(Flips(h, BadBurst(h)), 24) && HeaderValid(BadBurst(h))
  {
    hide BlockHeader, HeaderValid, Flips, BadBurst;
    HeaderRoundTrip(1, true, words, seqNo);
    BurstNotDetected(BlockHeader(1, true, words, seqNo));
  }
}
