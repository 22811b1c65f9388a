/**
 Which checksum it is: CRC-16/CCITT-FALSE, stated as a remainder of polynomials over one bit
 and without the registers that compute it.
 */
module Checksum {
  import opened Bytes
  import opened BitWords
  import opened HeaderCrc
  import opened UhsifBlock
  import opened BlockLaws
  import opened WireBursts

  /** x^16 + x^12 + x^5 + 1, highest power first. */
  const GENERATOR: Bits := [true, false, false, false, true, false, false, false, false,
                            false, false, true, false, false, false, false, true]

  /** The product of a polynomial and the generator. */
  function Times(q: Bits): (p: Bits)
    ensures |p| == |q| + 16
  {
    if q == [] then Zeros(16)
    else
      var n := |q| - 1;
      Xor(Times(q[..n]) + [false], Zeros(n) + if q[n] then GENERATOR else Zeros(17))
  }

  lemma CrcSnoc(r: Reg, bits: Bits, b: bool)
    ensures CrcBits(r, bits + [b]) == Shift(Inject(CrcBits(r, bits), b))
  {
    CrcConcat(r, bits, [b]);
    assert [b][1..] == [];
  }

  /** One division step: the next bit comes down, and the generator is taken off if the register overflows. */
  lemma DivisionStep(r: Reg, b: bool)
    ensures [b] + Shift(Inject(r, b)) == Xor(r + [false], if r[0] != b then GENERATOR else Zeros(17))
  {
    var t := Shift(Inject(r, b));
    assert Inject(r, b)[1..] == r[1..];
    forall i | 0 <= i < 17
      ensures ([b] + t)[i] == Xor(r + [false], if r[0] != b then GENERATOR else Zeros(17))[i]
    {
      if i > 0 { assert ([b] + t)[i] == t[i - 1]; }
    }
  }

  lemma XorParts(a: Bits, b: Bits, c: Bits, d: Bits)
    requires |a| == |c| && |b| == |d|
    ensures Xor(a + b, c + d) == Xor(a, c) + Xor(b, d)
  {
  }

  lemma XorNothing(a: Bits)
    ensures Xor(a, Zeros(|a|)) == a
  {
  }

  /** The zero-start register is the remainder: with it appended, the message is a multiple of the generator. */
  lemma {:induction false} IsRemainder(bits: Bits) returns (q: Bits)
    ensures |q| == |bits| && bits + CrcBits(Zeros(16), bits) == Times(q)
  {
    hide Shift, Inject, Xor;
    if bits == [] {
      q := [];
    } else {
      var n := |bits| - 1;
      var front, b := bits[..n], bits[n];
      var p := IsRemainder(front);
      var r := CrcBits(Zeros(16), front);
      q := p + [r[0] != b];
      assert bits == front + [b];
      CrcSnoc(Zeros(16), front, b);
      DivisionStep(r, b);
      var g := if r[0] != b then GENERATOR else Zeros(17);
      assert q[..n] == p;
      assert front + r + [false] == front + (r + [false]);
      XorParts(front, r + [false], Zeros(n), g);
      XorNothing(front);
      assert front + [b] + Shift(Inject(r, b)) == front + ([b] + Shift(Inject(r, b)));
    }
  }

  /** Starting from all ones is flipping the first sixteen message bits. */
  lemma FlipsFirst(w: Bits, rest: Bits)
    requires |w| == 16
    ensures CrcBits(Ones(16), w + rest) == CrcBits(Zeros(16), Xor(w, Ones(16)) + rest)
  {
    var f := Xor(w, Ones(16));
    CrcConcat(Ones(16), w, rest);
    CrcConcat(Zeros(16), f, rest);
    assert w + [] == w && f + [] == f;
    FeedAtOnce(Ones(16), w, []);
    FeedAtOnce(Zeros(16), f, []);
    assert Xor(Ones(16), w) == f == Xor(Zeros(16), f);
  }

  /**
   The checksum of any message of at least two octets: with its first sixteen bits flipped and
   the checksum appended, it is a multiple of the generator.
   */
  lemma CrcIsRemainder(m: seq<byte>) returns (q: Bits)
    requires |m| >= 2
    ensures var bits := MsgBits(m);
      && Crc16(m) == CrcBits(Zeros(16), Xor(bits[..16], Ones(16)) + bits[16..])
      && |q| == |bits| && Xor(bits[..16], Ones(16)) + bits[16..] + Crc16(m) == Times(q)
  {
    hide CrcBits, Times;
    var bits := MsgBits(m);
    FlipsFirst(bits[..16], bits[16..]);
    assert bits == bits[..16] + bits[16..];
    q := IsRemainder(Xor(bits[..16], Ones(16)) + bits[16..]);
  }

  /** A multiple of the generator is known by its leading bits, so there is no other such checksum. */
  lemma {:induction false} RemainderIsUnique(p: Bits, q: Bits)
    requires |p| == |q| && Times(p)[..|p|] == Times(q)[..|p|]
    ensures p == q
  {
    if p != [] {
      var n := |p| - 1;
      var a, b := Times(p[..n]), Times(q[..n]);
      forall i | 0 <= i < n ensures a[i] == b[i] {
        assert Times(p)[..|p|][i] == a[i] && Times(q)[..|p|][i] == b[i];
      }
      assert a[..n] == b[..n];
      RemainderIsUnique(p[..n], q[..n]);
      assert Times(p)[..|p|][n] == (a[n] != p[n]) && Times(q)[..|p|][n] == (b[n] != q[n]);
    }
  }

  // ---- One value ----

  lemma {:induction false} ZerosShift(r: Reg, n: nat)
    ensures CrcBits(r, Zeros(n)) == Steps(r, n)
    decreases n
  {
    if n > 0 {
      assert Inject(r, false) == r && Zeros(n)[1..] == Zeros(n - 1);
      ZerosShift(Shift(r), n - 1);
    }
  }

  lemma ZeroOctet()
    ensures OctetBits(0) == Zeros(8)
  {
    ZeroBits(8);
  }

  lemma {:induction false} ZeroBits(n: nat)
    ensures ToBits(0, n) == Zeros(n)
  {
    if n > 0 { ZeroBits(n - 1); }
  }

  lemma {:induction false} ZeroMessage(n: nat)
    ensures MsgBits(seq(n, i => 0)) == Zeros(8 * n)
  {
    if n > 0 {
      ZeroMessage(n - 1);
      ZeroOctet();
      assert seq(n, i => 0 as byte)[1..] == seq(n - 1, i => 0 as byte);
    }
  }

  /** The checksum of twelve zero octets is 0x84F9. */
  lemma TwelveZeros()
    ensures FromBits(Crc16(seq(12, i => 0))) == 0x84F9
  {
    hide Steps, CrcBits, MsgBits;
    ZeroMessage(12);
    ZerosShift(Ones(16), 96);
    StepsShow(Ones(16));
    var r := Steps(Ones(16), 96);
    assert r == [true, false, false, false, false, true, false, false]
             + [true, true, true, true, true, false, false, true];
    Sixteen(r);
  }

  lemma {:induction false} JoinValue(a: Bits, b: Bits)
    ensures FromBits(a + b) == FromBits(a) * Pow2(|b|) + FromBits(b)
  {
    hide FromBits;
    if b == [] {
      assert a + b == a;
      EmptyIsZero();
    } else {
      var n := |b| - 1;
      JoinValue(a, b[..n]);
      assert a + b == a + b[..n] + [b[n]] && b == b[..n] + [b[n]];
      Snoc(a + b[..n], b[n]);
      Snoc(b[..n], b[n]);
      var m := FromBits(a) * Pow2(n);
      assert FromBits(a) * Pow2(|b|) == 2 * m by { TwiceAsMuch(FromBits(a), Pow2(n)); }
      assert FromBits(a + b) == 2 * (m + FromBits(b[..n])) + Bit(b[n]);
    }
  }

  lemma TwiceAsMuch(a: nat, b: nat)
    ensures a * (2 * b) == 2 * (a * b)
  {
  }

  lemma Sixteen(r: Reg)
    requires r == [true, false, false, false, false, true, false, false]
                + [true, true, true, true, true, false, false, true]
    ensures FromBits(r) == 0x84F9
  {
    hide FromBits;
    var high, low := r[..8], r[8..];
    assert r == high + low;
    JoinValue(high, low);
    Value8(high);
    Value8(low);
    assert Pow2(8) == 256 by { assert Pow2(4) == 16; }
  }

  // ---- The header on the wire ----

  /** What a valid header is, octet by octet. */
  lemma HeaderOnWire(h: seq<byte>)
    requires |h| == ACK_SIZE
    ensures HeaderValid(h)
      <==> && h[0] == 0xC6 && h[1] == 0x6C && h[2] as int + 0x100 * h[3] as int == FromBits(Crc16(h[4..]))
           && h[5] < 16 && h[6] == 0 && h[7] == 0 && h[13] as int / 16 + 16 * h[14] as int <= 4092
    ensures PayloadWords(h) == h[13] as int / 16 + 16 * h[14] as int && BlkSeq(h) == h[15]
  {
    hide HeaderValid, ChecksumOk, Crc16;
    HeaderOctets(h);
    ChecksumOctets(h);
    assert h[12..][1] == h[13] && h[12..][2] == h[14];
  }

  lemma ChecksumOctets(h: seq<byte>)
    requires |h| == ACK_SIZE
    ensures ChecksumOk(h)
      <==> h[0] == 0xC6 && h[1] == 0x6C && h[2] as int + 0x100 * h[3] as int == FromBits(Crc16(h[4..]))
  {
    hide Crc16, WireBytes;
    MagicOctets(h);
    HeaderWire(h);
    assert Le32(h) / 0x1_0000 == h[2] as int + 0x100 * h[3] as int;
  }
}
