/**
 Fixed-width binary words, most significant bit first, and their numeric value.
 They stand for the u8/u16 registers on which the source uses shift and xor.
 */
module BitWords {
  import opened Bytes

  type Bits = seq<bool>

  function Xor(a: Bits, b: Bits): (c: Bits)
    requires |a| == |b|
    ensures |c| == |a|
  {
    seq(|a|, i requires 0 <= i < |a| => a[i] != b[i])
  }

  function Zeros(n: nat): (z: Bits)
    ensures |z| == n
  {
    seq(n, i => false)
  }

  function Ones(n: nat): (z: Bits)
    ensures |z| == n
  {
    seq(n, i => true)
  }

  /** The n low bits of v. */
  function ToBits(v: nat, n: nat): (b: Bits)
    ensures |b| == n
    decreases n
  {
    if n == 0 then [] else ToBits(v / 2, n - 1) + [v % 2 == 1]
  }

  function FromBits(b: Bits): (v: nat)
    ensures v < Pow2(|b|)
  {
    if b == [] then 0 else 2 * FromBits(b[..|b| - 1]) + Bit(b[|b| - 1])
  }

  lemma {:induction false} ToFrom(b: Bits)
    ensures ToBits(FromBits(b), |b|) == b
  {
    if b != [] {
      var front := b[..|b| - 1];
      ToFrom(front);
      assert FromBits(b) / 2 == FromBits(front);
      assert b == front + [b[|b| - 1]];
    }
  }

  lemma {:induction false} FromTo(v: nat, n: nat)
    requires v < Pow2(n)
    ensures FromBits(ToBits(v, n)) == v
    decreases n
  {
    if n > 0 {
      FromTo(v / 2, n - 1);
      assert ToBits(v, n)[..n - 1] == ToBits(v / 2, n - 1);
    }
  }

  /** A word reads as its leading bit, weighted, plus the rest. */
  lemma {:induction false} Leading(b: bool, rest: Bits)
    ensures FromBits([b] + rest) == Bit(b) * Pow2(|rest|) + FromBits(rest)
  {
    var w := [b] + rest;
    if rest == [] {
      assert w[..0] == [];
      assert FromBits(w) == 2 * FromBits(w[..0]) + Bit(b);
    } else {
      Leading(b, rest[..|rest| - 1]);
      assert w[..|w| - 1] == [b] + rest[..|rest| - 1];
    }
  }

  /** Number of set bits. */
  function Weight(b: Bits): nat {
    if b == [] then 0 else Bit(b[0]) + Weight(b[1..])
  }

  predicate Odd(b: Bits) {
    b != [] && b[0] != Odd(b[1..])
  }

  lemma {:induction false} OddWeight(b: Bits)
    ensures Odd(b) <==> Weight(b) % 2 == 1
  {
    if b != [] {
      OddWeight(b[1..]);
    }
  }

  lemma {:induction false} OddConcat(a: Bits, b: Bits)
    ensures Odd(a + b) == (Odd(a) != Odd(b))
  {
    if a == [] {
      assert a + b == b;
    } else {
      assert (a + b)[1..] == a[1..] + b;
      OddConcat(a[1..], b);
    }
  }

  lemma {:induction false} OddXor(a: Bits, b: Bits)
    requires |a| == |b|
    ensures Odd(Xor(a, b)) == (Odd(a) != Odd(b))
  {
    if a != [] {
      assert Xor(a, b)[1..] == Xor(a[1..], b[1..]);
      OddXor(a[1..], b[1..]);
    }
  }

  lemma {:induction false} OddZeros(n: nat)
    ensures !Odd(Zeros(n))
  {
    if n > 0 {
      assert Zeros(n)[1..] == Zeros(n - 1);
      OddZeros(n - 1);
    }
  }
}

/**
 The header checksum of src/uhsif.h: CRC-16/CCITT-FALSE over twelve octets.
 Crc16 is the textbook definition, one message bit at a time. HdrCrc16 is the
 octet-wise loop of the source, proved to compute it; the rest is the strength
 that the source claims for it.
 */
module HeaderCrc {
  import opened Bytes
  import opened BitWords

  /** A 16-bit register. */
  type Reg = r: Bits | |r| == 16 ghost witness Zeros(16)

  // 0x1021, 0xFFFF and 0x8000
  const POLY: Reg := [false, false, false, true, false, false, false, false,
                      false, false, true, false, false, false, false, true]
  const INIT: Reg := Ones(16)
  const TOP: Reg := [true] + Zeros(15)

  /** One left shift of the register, reduced by the polynomial. */
  function Shift(r: Reg): Reg {
    var s := r[1..] + [false];
    if r[0] then Xor(s, POLY) else s
  }

  function Steps(r: Reg, n: nat): Reg
    decreases n
  {
    if n == 0 then r else Steps(Shift(r), n - 1)
  }

  /** A message bit enters at the top of the register. */
  function Inject(r: Reg, b: bool): Reg {
    [r[0] != b] + r[1..]
  }

  /** The register after a message has been fed, most significant bit first. */
  function CrcBits(r: Reg, bits: Bits): Reg
    decreases |bits|
  {
    if bits == [] then r else CrcBits(Shift(Inject(r, bits[0])), bits[1..])
  }

  function OctetBits(b: byte): (bits: Bits)
    ensures |bits| == 8
  {
    ToBits(b, 8)
  }

  function MsgBits(msg: seq<byte>): (bits: Bits)
    ensures |bits| == 8 * |msg|
  {
    if msg == [] then [] else OctetBits(msg[0]) + MsgBits(msg[1..])
  }

  function Crc16(msg: seq<byte>): Reg {
    CrcBits(INIT, MsgBits(msg))
  }

  lemma {:induction false} CrcConcat(r: Reg, a: Bits, b: Bits)
    ensures CrcBits(r, a + b) == CrcBits(CrcBits(r, a), b)
    decreases |a|
  {
    if a == [] {
      assert a + b == b;
    } else {
      assert (a + b)[1..] == a[1..] + b;
      CrcConcat(Shift(Inject(r, a[0])), a[1..], b);
    }
  }

  // ---- The octet-wise loop computes the bit-wise definition ----

  lemma ShiftLinear(r: Reg, s: Reg)
    ensures Shift(Xor(r, s)) == Xor(Shift(r), Shift(s))
  {
    var x, y := Shift(Xor(r, s)), Xor(Shift(r), Shift(s));
    forall i | 0 <= i < 16 ensures x[i] == y[i] {
    }
  }

  lemma XorZero(r: Reg)
    ensures Xor(r, Zeros(16)) == r && Xor(Zeros(16), r) == r && Xor(r, r) == Zeros(16)
  {
  }

  /** Xoring up to sixteen message bits in at the top and shifting feeds them one by one. */
  lemma {:induction false} FeedAtOnce(r: Reg, w: Bits, z: Bits)
    requires |w| + |z| == 16 && z == Zeros(|z|)
    ensures Steps(Xor(r, w + z), |w|) == CrcBits(r, w)
    decreases |w|
  {
    if w == [] {
      assert w + z == Zeros(16);
      XorZero(r);
    } else {
      var a := Inject(r, w[0]);
      var b: Reg := [false] + w[1..] + z;
      var z' := z + [false];
      assert Xor(r, w + z) == Xor(a, b);
      ShiftLinear(a, b);
      assert Shift(b) == w[1..] + z';
      FeedAtOnce(Shift(a), w[1..], z');
    }
  }

  /** The value of octet k of the header words in wire order. */
  function WireBytes(w1: u32, w2: u32, w3: u32): (m: seq<byte>)
    ensures |m| == 12
  {
    PutLe32(w1) + PutLe32(w2) + PutLe32(w3)
  }

  lemma WireByteAt(w1: u32, w2: u32, w3: u32, i: nat)
    requires i < 12
    ensures WireBytes(w1, w2, w3)[i] == WordByte(if i < 4 then w1 else if i < 8 then w2 else w3, i % 4)
  {
    if i < 4 {
      assert WireBytes(w1, w2, w3)[i] == PutLe32(w1)[i];
    } else if i < 8 {
      assert WireBytes(w1, w2, w3)[i] == PutLe32(w2)[i - 4];
    } else {
      assert WireBytes(w1, w2, w3)[i] == PutLe32(w3)[i - 8];
    }
  }

  method FeedOctet(crc: Reg, octet: byte) returns (r: Reg)
    ensures r == CrcBits(crc, OctetBits(octet))
  {
    r := Xor(crc, OctetBits(octet) + Zeros(8));
    ghost var start := r;
    for b := 0 to 8
      invariant Steps(r, 8 - b) == Steps(start, 8)
    {
      if r[0] {
        r := Xor(r[1..] + [false], POLY);
      } else {
        r := r[1..] + [false];
      }
    }
    FeedAtOnce(crc, OctetBits(octet), Zeros(8));
  }

  method HdrCrc16(w1: u32, w2: u32, w3: u32) returns (crc: Reg)
    ensures crc == Crc16(WireBytes(w1, w2, w3))
  {
    hide WordByte, WireBytes, CrcBits, MsgBits, Crc16;
    ghost var msg := WireBytes(w1, w2, w3);
    crc := INIT;
    NothingFed();
    assert msg[..0] == [];
    for i := 0 to 12
      invariant crc == Crc16(msg[..i])
    {
      var w := if i < 4 then w1 else if i < 8 then w2 else w3;
      var octet := WordByte(w, i % 4);
      crc := FeedOctet(crc, octet);
      WireByteAt(w1, w2, w3, i);
      FedOne(msg[..i], octet);
      assert msg[..i + 1] == msg[..i] + [octet];
    }
    assert msg[..12] == msg;
  }

  lemma NothingFed()
    ensures Crc16([]) == INIT
  {
  }

  lemma FedOne(msg: seq<byte>, octet: byte)
    ensures Crc16(msg + [octet]) == CrcBits(Crc16(msg), OctetBits(octet))
  {
    MsgSnoc(msg, octet);
  }

  lemma {:induction false} MsgSnoc(m: seq<byte>, b: byte)
    ensures MsgBits(m + [b]) == MsgBits(m) + OctetBits(b)
    ensures Crc16(m + [b]) == CrcBits(Crc16(m), OctetBits(b))
  {
    MsgSnocBits(m, b);
    CrcConcat(INIT, MsgBits(m), OctetBits(b));
  }

  lemma {:induction false} MsgSnocBits(m: seq<byte>, b: byte)
    ensures MsgBits(m + [b]) == MsgBits(m) + OctetBits(b)
  {
    if m == [] {
      assert m + [b] == [b] && [b][1..] == [];
      assert MsgBits([b]) == OctetBits(b) + MsgBits([]);
    } else {
      assert (m + [b])[1..] == m[1..] + [b];
      MsgSnocBits(m[1..], b);
    }
  }

  // ---- Error detection ----

  /** Superposition: the checksum of a sum is the sum of the checksums. */
  lemma {:induction false} CrcLinear(r: Reg, s: Reg, a: Bits, b: Bits)
    requires |a| == |b|
    ensures CrcBits(Xor(r, s), Xor(a, b)) == Xor(CrcBits(r, a), CrcBits(s, b))
    decreases |a|
  {
    if a != [] {
      var p, q := Inject(r, a[0]), Inject(s, b[0]);
      assert Inject(Xor(r, s), Xor(a, b)[0]) == Xor(p, q);
      ShiftLinear(p, q);
      assert Xor(a, b)[1..] == Xor(a[1..], b[1..]);
      CrcLinear(Shift(p), Shift(q), a[1..], b[1..]);
    }
  }

  /** The syndrome of a flip pattern over message bits followed by the 16 checksum bits. */
  function Syndrome(flips: Bits): Reg {
    CrcBits(Zeros(16), flips)
  }

  predicate Accepts(msg: Bits, check: Reg) {
    CrcBits(INIT, msg) == check
  }

  /** Feeding the register's own value clears it, feeding any other value does not. */
  lemma {:induction false} StepsZero(r: Reg, n: nat)
    ensures Steps(r, n) == Zeros(16) <==> r == Zeros(16)
    decreases n
  {
    if n > 0 {
      StepsZero(Shift(r), n - 1);
      assert Shift(Zeros(16)) == Zeros(16);
      if Shift(r) == Zeros(16) {
        assert Shift(r)[15] == false;
        forall i | 0 <= i < 16 ensures r[i] == false {
          if i > 0 { assert Shift(r)[i - 1] == false; }
        }
        assert r == Zeros(16);
      }
    }
  }

  lemma FeedCheck(r: Reg, check: Reg)
    ensures CrcBits(r, check) == Zeros(16) <==> r == check
  {
    assert check + [] == check;
    FeedAtOnce(r, check, []);
    StepsZero(Xor(r, check), 16);
    XorZero(r);
    if Xor(r, check) == Zeros(16) {
      forall i | 0 <= i < 16 ensures r[i] == check[i] {
        assert Xor(r, check)[i] == false;
      }
      assert r == check;
    }
  }

  /** After any corruption, the checksum still matches exactly when the syndrome is zero. */
  lemma UndetectedIffZeroSyndrome(msg: Bits, check: Reg, msg': Bits, check': Reg)
    requires |msg| == |msg'| && Accepts(msg, check)
    ensures Accepts(msg', check') <==> Syndrome(Xor(msg + check, msg' + check')) == Zeros(16)
  {
    var e, f := Xor(msg, msg'), Xor(check, check');
    assert Xor(msg + check, msg' + check') == e + f;
    CrcConcat(Zeros(16), e, f);
    FeedCheck(Syndrome(e), f);
    CrcLinear(INIT, INIT, msg, msg');
    XorZero(INIT);
    var c' := CrcBits(INIT, msg');
    assert Syndrome(e) == Xor(check, c');
    if Syndrome(e) == f {
      forall i | 0 <= i < 16 ensures c'[i] == check'[i] {
        assert Xor(check, c')[i] == Xor(check, check')[i];
      }
      assert c' == check';
    }
  }

  /** The polynomial has an even number of terms, so every shift keeps the parity. */
  lemma ShiftParity(r: Reg)
    ensures Odd(Shift(r)) == Odd(r)
  {
    var s := r[1..] + [false];
    OddConcat(r[1..], [false]);
    if r[0] {
      OddXor(s, POLY);
      PolyParity();
    }
  }

  lemma PolyParity()
    ensures Odd(POLY)
  {
    hide Odd;
    var a := Zeros(3) + [true];
    var b := a + Zeros(6);
    var c := b + [true];
    var d := c + Zeros(4);
    assert POLY == d + [true];
    OneIsOdd();
    OddConcat(Zeros(3), [true]);
    OddConcat(a, Zeros(6));
    OddConcat(b, [true]);
    OddConcat(c, Zeros(4));
    OddConcat(d, [true]);
    OddZeros(3); OddZeros(6); OddZeros(4);
  }

  lemma OneIsOdd()
    ensures Odd([true])
  {
    assert [true][1..] == [];
  }

  /** The parity of the checksum is the parity of the message. */
  lemma {:induction false} CrcParity(r: Reg, bits: Bits)
    ensures Odd(CrcBits(r, bits)) == (Odd(r) != Odd(bits))
    decreases |bits|
  {
    if bits != [] {
      ShiftParity(Inject(r, bits[0]));
      CrcParity(Shift(Inject(r, bits[0])), bits[1..]);
    }
  }

  /** Every odd number of flipped bits leaves a non-zero syndrome. */
  lemma OddFlipsDetected(flips: Bits)
    requires Weight(flips) % 2 == 1
    ensures Syndrome(flips) != Zeros(16)
  {
    OddWeight(flips);
    CrcParity(Zeros(16), flips);
    OddZeros(16);
  }

  lemma {:induction false} FeedZeros(r: Reg, n: nat)
    ensures CrcBits(r, Zeros(n)) == Steps(r, n)
    decreases n
  {
    if n > 0 {
      assert Zeros(n)[1..] == Zeros(n - 1);
      assert Inject(r, false) == r;
      FeedZeros(Shift(r), n - 1);
    }
  }

  /** Every pattern confined to 16 consecutive bits in checksum order is detected. */
  lemma BurstDetected(before: nat, burst: Reg, after: nat)
    requires burst != Zeros(16)
    ensures Syndrome(Zeros(before) + burst + Zeros(after)) != Zeros(16)
  {
    CrcConcat(Zeros(16), Zeros(before) + burst, Zeros(after));
    CrcConcat(Zeros(16), Zeros(before), burst);
    FeedZeros(Zeros(16), before);
    StepsZero(Zeros(16), before);
    FeedCheck(Zeros(16), burst);
    var r := CrcBits(Zeros(16), burst);
    FeedZeros(r, after);
    StepsZero(r, after);
  }

  // Two flips cancel only if the register returns to TOP. Its values along the way are
  // tracked numerically, cut at the taps into fields of 4, 7 and 5 bits.

  datatype Fields = Fields(hi: int, mid: int, lo: int)

  function Next(f: Fields): Fields {
    var t := f.hi >= 8;
    Fields(
      (if t then 2 * f.hi - 16 else 2 * f.hi) + Bit((f.mid >= 64) != t),
      (if f.mid >= 64 then 2 * f.mid - 128 else 2 * f.mid) + Bit((f.lo >= 16) != t),
      (if f.lo >= 16 then 2 * f.lo - 32 else 2 * f.lo) + Bit(t))
  }

  function FieldsOf(r: Reg): Fields {
    Fields(FromBits(r[..4]), FromBits(r[4..11]), FromBits(r[11..]))
  }

  lemma ShiftIn(b: Bits, x: bool)
    requires b != []
    ensures b[0] <==> FromBits(b) >= Pow2(|b| - 1)
    ensures FromBits(b[1..] + [x]) == 2 * FromBits(b) - (if b[0] then 2 * Pow2(|b| - 1) else 0) + Bit(x)
  {
    assert b == [b[0]] + b[1..];
    Leading(b[0], b[1..]);
    var s := b[1..] + [x];
    assert s[..|s| - 1] == b[1..];
  }

  lemma ShiftAt(r: Reg, i: nat)
    requires i < 16
    ensures Shift(r)[i] == ((i < 15 && r[i + 1]) != (r[0] && i in {3, 10, 15}))
  {
  }

  lemma ShiftFields(r: Reg)
    ensures Shift(r)[..4] == r[1..4] + [r[4] != r[0]]
    ensures Shift(r)[4..11] == r[5..11] + [r[11] != r[0]]
    ensures Shift(r)[11..] == r[12..] + [r[0]]
  {
    forall i | 0 <= i < 16 ensures Shift(r)[i] == ((i < 15 && r[i + 1]) != (r[0] && i in {3, 10, 15})) {
      ShiftAt(r, i);
    }
  }

  lemma NextIsShift(r: Reg)
    ensures FieldsOf(Shift(r)) == Next(FieldsOf(r))
  {
    var t := r[0];
    ShiftFields(r);
    var hi, mid, lo := r[..4], r[4..11], r[11..];
    ShiftIn(hi, r[4] != t);
    ShiftIn(mid, r[11] != t);
    ShiftIn(lo, t);
    assert hi[1..] == r[1..4] && mid[1..] == r[5..11] && lo[1..] == r[12..];
    assert Pow2(3) == 8 && Pow2(6) == 64 && Pow2(4) == 16;
  }

  function At(n: nat): Fields {
    if n == 0 then Fields(8, 0, 0) else Next(At(n - 1))
  }

  /** None of the values after 1 .. n-1 shifts is TOP. */
  predicate AvoidsTop(n: nat) {
    n <= 1 || (At(n - 1) != Fields(8, 0, 0) && AvoidsTop(n - 1))
  }

  /** One row of the orbit table: the value after n shifts, checked, leads to the next. */
  lemma Visit(n: nat, hi: int, mid: int, lo: int) returns (m: nat)
    requires At(n) == Fields(hi, mid, lo) && AvoidsTop(n)
    requires n > 0 ==> hi != 8 || mid != 0
    ensures m == n + 1 && AvoidsTop(m)
    ensures At(m) == Next(Fields(hi, mid, lo))
  {
    m := n + 1;
  }

  lemma Orbit0(n: nat) returns (m: nat)
    requires At(n) == Fields(8, 0, 0) && AvoidsTop(n) && n == 0
    ensures At(m) == Fields(0, 55, 6) && AvoidsTop(m) && m == n + 14
  {
    hide At, AvoidsTop;
    m := Visit(n, 8, 0, 0); m := Visit(m, 1, 1, 1); m := Visit(m, 2, 2, 2); m := Visit(m, 4, 4, 4);
    m := Visit(m, 8, 8, 8); m := Visit(m, 1, 17, 17); m := Visit(m, 2, 35, 2); m := Visit(m, 4, 70, 4);
    m := Visit(m, 9, 12, 8); m := Visit(m, 3, 25, 17); m := Visit(m, 6, 51, 2); m := Visit(m, 12, 102, 4);
    m := Visit(m, 8, 77, 9); m := Visit(m, 0, 27, 19);
  }

  lemma Orbit1(n: nat) returns (m: nat)
    requires At(n) == Fields(0, 55, 6) && AvoidsTop(n) && n > 0
    ensures At(m) == Fields(8, 46, 3) && AvoidsTop(m) && m == n + 14
  {
    hide At, AvoidsTop;
    m := Visit(n, 0, 55, 6); m := Visit(m, 0, 110, 12); m := Visit(m, 1, 92, 24); m := Visit(m, 3, 57, 16);
    m := Visit(m, 6, 115, 0); m := Visit(m, 13, 102, 0); m := Visit(m, 10, 77, 1); m := Visit(m, 4, 27, 3);
    m := Visit(m, 8, 54, 6); m := Visit(m, 1, 109, 13); m := Visit(m, 3, 90, 26); m := Visit(m, 7, 53, 20);
    m := Visit(m, 14, 107, 8); m := Visit(m, 12, 87, 17);
  }

  lemma Orbit2(n: nat) returns (m: nat)
    requires At(n) == Fields(8, 46, 3) && AvoidsTop(n) && n > 0
    ensures At(m) == Fields(8, 90, 0) && AvoidsTop(m) && m == n + 14
  {
    hide At, AvoidsTop;
    m := Visit(n, 8, 46, 3); m := Visit(m, 1, 93, 7); m := Visit(m, 3, 58, 14); m := Visit(m, 6, 116, 28);
    m := Visit(m, 13, 105, 24); m := Visit(m, 10, 82, 17); m := Visit(m, 4, 36, 3); m := Visit(m, 8, 72, 6);
    m := Visit(m, 0, 17, 13); m := Visit(m, 0, 34, 26); m := Visit(m, 0, 69, 20); m := Visit(m, 1, 11, 8);
    m := Visit(m, 2, 22, 16); m := Visit(m, 4, 45, 0);
  }

  lemma Orbit3(n: nat) returns (m: nat)
    requires At(n) == Fields(8, 90, 0) && AvoidsTop(n) && n > 0
    ensures At(m) == Fields(10, 95, 25) && AvoidsTop(m) && m == n + 14
  {
    hide At, AvoidsTop;
    m := Visit(n, 8, 90, 0); m := Visit(m, 0, 53, 1); m := Visit(m, 0, 106, 2); m := Visit(m, 1, 84, 4);
    m := Visit(m, 3, 40, 8); m := Visit(m, 6, 80, 16); m := Visit(m, 13, 33, 0); m := Visit(m, 11, 67, 1);
    m := Visit(m, 6, 7, 3); m := Visit(m, 12, 14, 6); m := Visit(m, 9, 29, 13); m := Visit(m, 3, 59, 27);
    m := Visit(m, 6, 119, 22); m := Visit(m, 13, 111, 12);
  }

  lemma Orbit4(n: nat) returns (m: nat)
    requires At(n) == Fields(10, 95, 25) && AvoidsTop(n) && n > 0
    ensures At(m) == Fields(10, 63, 28) && AvoidsTop(m) && m == n + 14
  {
    hide At, AvoidsTop;
    m := Visit(n, 10, 95, 25); m := Visit(m, 4, 62, 19); m := Visit(m, 8, 125, 6); m := Visit(m, 0, 123, 13);
    m := Visit(m, 1, 118, 26); m := Visit(m, 3, 109, 20); m := Visit(m, 7, 91, 8); m := Visit(m, 15, 54, 16);
    m := Visit(m, 15, 108, 1); m := Visit(m, 14, 89, 3); m := Visit(m, 12, 51, 7); m := Visit(m, 9, 103, 15);
    m := Visit(m, 2, 79, 31); m := Visit(m, 5, 31, 30);
  }

  lemma Orbit5(n: nat) returns (m: nat)
    requires At(n) == Fields(10, 63, 28) && AvoidsTop(n) && n > 0
    ensures At(m) == Fields(10, 20, 14) && AvoidsTop(m) && m == n + 14 && At(n + 11) == Fields(13, 66, 9)
  {
    hide At, AvoidsTop;
    m := Visit(n, 10, 63, 28); m := Visit(m, 5, 126, 25); m := Visit(m, 11, 125, 18); m := Visit(m, 6, 122, 5);
    m := Visit(m, 13, 116, 10); m := Visit(m, 10, 105, 21); m := Visit(m, 4, 82, 11); m := Visit(m, 9, 36, 22);
    m := Visit(m, 3, 72, 13); m := Visit(m, 7, 16, 26); m := Visit(m, 14, 33, 20); m := Visit(m, 13, 66, 9);
    m := Visit(m, 10, 5, 19); m := Visit(m, 5, 10, 7);
  }

  lemma Orbit6(n: nat) returns (m: nat)
    requires At(n) == Fields(10, 20, 14) && AvoidsTop(n) && n > 0
    ensures At(m) == Fields(8, 86, 6) && AvoidsTop(m) && m == n + 14
  {
    hide At, AvoidsTop;
    m := Visit(n, 10, 20, 14); m := Visit(m, 5, 41, 29); m := Visit(m, 10, 83, 26); m := Visit(m, 4, 38, 21);
    m := Visit(m, 8, 77, 10); m := Visit(m, 0, 27, 21); m := Visit(m, 0, 55, 10); m := Visit(m, 0, 110, 20);
    m := Visit(m, 1, 93, 8); m := Visit(m, 3, 58, 16); m := Visit(m, 6, 117, 0); m := Visit(m, 13, 106, 0);
    m := Visit(m, 10, 85, 1); m := Visit(m, 4, 43, 3);
  }

  lemma Orbit7(n: nat) returns (m: nat)
    requires At(n) == Fields(8, 86, 6) && AvoidsTop(n) && n > 0
    ensures At(m) == Fields(5, 59, 30) && AvoidsTop(m) && m == n + 14
  {
    hide At, AvoidsTop;
    m := Visit(n, 8, 86, 6); m := Visit(m, 0, 45, 13); m := Visit(m, 0, 90, 26); m := Visit(m, 1, 53, 20);
    m := Visit(m, 2, 107, 8); m := Visit(m, 5, 86, 16); m := Visit(m, 11, 45, 0); m := Visit(m, 7, 91, 1);
    m := Visit(m, 15, 54, 2); m := Visit(m, 15, 109, 5); m := Visit(m, 14, 91, 11); m := Visit(m, 12, 55, 23);
    m := Visit(m, 9, 110, 15); m := Visit(m, 2, 93, 31);
  }

  lemma OrbitTable()
    ensures AvoidsTop(112)
  {
    var n := Orbit0(0);
    n := Orbit1(n); n := Orbit2(n); n := Orbit3(n);
    n := Orbit4(n); n := Orbit5(n); n := Orbit6(n); n := Orbit7(n);
  }

  lemma {:induction false} StepsAt(n: nat)
    ensures FieldsOf(Steps(TOP, n)) == At(n)
  {
    if n == 0 {
      ValueOfTop();
    } else {
      StepsAt(n - 1);
      StepsLast(TOP, n - 1);
      NextIsShift(Steps(TOP, n - 1));
    }
  }

  lemma {:induction false} StepsLast(r: Reg, n: nat)
    ensures Steps(r, n + 1) == Shift(Steps(r, n))
    decreases n
  {
    if n > 0 {
      StepsLast(Shift(r), n - 1);
    }
  }

  lemma {:induction false} ValueOfZeros(n: nat)
    ensures FromBits(Zeros(n)) == 0
  {
    if n > 0 {
      assert Zeros(n)[..n - 1] == Zeros(n - 1);
      ValueOfZeros(n - 1);
    }
  }

  lemma ValueOfTop()
    ensures FieldsOf(TOP) == Fields(8, 0, 0)
  {
    assert TOP[..4] == [true] + Zeros(3) && TOP[4..11] == Zeros(7) && TOP[11..] == Zeros(5);
    Leading(true, Zeros(3));
    ValueOfZeros(3); ValueOfZeros(7); ValueOfZeros(5);
    assert Pow2(3) == 8;
  }

  lemma {:induction false} AvoidsTopAt(n: nat, k: nat)
    requires AvoidsTop(n) && 0 < k < n
    ensures At(k) != Fields(8, 0, 0)
  {
    if k < n - 1 {
      AvoidsTopAt(n - 1, k);
    }
  }

  lemma OnlyTopCancels(r: Reg)
    requires r != TOP
    ensures Inject(r, true) != Zeros(16)
  {
    var i :| 0 <= i < 16 && r[i] != TOP[i];
    assert Inject(r, true)[i] != false;
  }

  /** The register when the first of two flips has been fed. */
  lemma FirstFlip(before: nat, between: nat)
    ensures CrcBits(Zeros(16), Zeros(before) + [true] + Zeros(between)) == Steps(TOP, between + 1)
  {
    hide Shift;
    var first := Zeros(before) + [true];
    CrcConcat(Zeros(16), first, Zeros(between));
    CrcConcat(Zeros(16), Zeros(before), [true]);
    FeedZeros(Zeros(16), before);
    StepsZero(Zeros(16), before);
    assert [true][1..] == [];
    assert Inject(Zeros(16), true) == TOP;
    FeedZeros(Shift(TOP), between);
  }

  lemma NotTop(n: nat)
    requires 0 < n < 112
    ensures Steps(TOP, n) != TOP
  {
    hide At, Steps, FieldsOf, AvoidsTop;
    OrbitTable();
    AvoidsTopAt(112, n);
    StepsAt(n);
    ValueOfTop();
  }

  /** Any two flips among the 96 header bits and the 16 checksum bits are detected. */
  lemma TwoFlipsDetected(before: nat, between: nat, after: nat)
    requires before + between + after == 110
    ensures Syndrome(Zeros(before) + [true] + Zeros(between) + [true] + Zeros(after)) != Zeros(16)
  {
    hide Shift, Steps, Inject;
    var second := Zeros(before) + [true] + Zeros(between);
    CrcConcat(Zeros(16), second + [true], Zeros(after));
    CrcConcat(Zeros(16), second, [true]);
    FirstFlip(before, between);
    var r := Steps(TOP, between + 1);
    NotTop(between + 1);
    assert [true][1..] == [];
    var s := Inject(r, true);
    OnlyTopCancels(r);
    OneStep(s);
    StepsZero(s, 1);
    FeedZeros(Shift(s), after);
    StepsZero(Shift(s), after);
  }

  lemma OneStep(s: Reg)
    ensures Steps(s, 1) == Shift(s)
  {
  }
}
