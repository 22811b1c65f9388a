/** What the block layer guarantees: exact resynchronisation, and blocks that survive the trip. */
module BlockLaws {
  import opened Bytes
  import opened BitWords
  import opened HeaderCrc
  import opened UhsifBlock
  import opened BlockParse

  // ---- Resynchronisation ----

  predicate HeaderAt(s: seq<byte>, i: nat) {
    i + ACK_SIZE <= |s| && HeaderValid(s[i..])
  }

  /** Scanning passes over every offset at which no complete valid header stands. */
  lemma {:induction false} ScanTo(s: seq<byte>, k: nat)
    requires k <= |s| && forall i :: 0 <= i < k ==> !HeaderAt(s, i)
    ensures Parse(START, s) == Parse(START, s[k..])
  {
    hide HeaderValid;
    if k == 0 {
      assert s[0..] == s;
    } else {
      ScanTo(s, k - 1);
      var t := s[k - 1..];
      assert t[1..] == s[k..];
      assert !HeaderAt(s, k - 1);
      SkipOne(START, t);
    }
  }

  /**
   After an invalid aligned header there is one report, and the next block taken is
   the one at the smallest offset with a valid header, without a sequence report.
   */
  lemma ResyncExact(y: Sync, s: seq<byte>, k: nat)
    requires y.aligned && |s| >= ACK_SIZE && !HeaderValid(s)
    requires HeaderAt(s, k) && k + BlockSize(s[k..]) <= |s|
    requires forall i :: 0 <= i < k ==> !HeaderAt(s, i)
    ensures Parse(y, s) ==
      [Rsync, if PayloadWords(s[k..]) == 0 then Ack else Data(s[k..][ACK_SIZE..BlockSize(s[k..])])]
      + Parse(Sync(true, Seq(BlkSeq(s[k..]))), s[k..][BlockSize(s[k..])..])
  {
    hide HeaderValid, PayloadWords, BlkSeq;
    ScanTo(s, k);
  }

  /** If no block can be completed after the loss, the report is all there is. */
  lemma ResyncSilent(y: Sync, s: seq<byte>, k: nat)
    requires y.aligned && |s| >= ACK_SIZE && !HeaderValid(s)
    requires k == |s| || (HeaderAt(s, k) && k + BlockSize(s[k..]) > |s|)
    requires forall i :: 0 <= i < k ==> !HeaderAt(s, i)
    ensures Parse(y, s) == [Rsync]
  {
    hide HeaderValid, PayloadWords;
    ScanTo(s, k);
  }

  // ---- Payload does not depend on how alignment was reached ----

  /** The blocks delivered, without the loss reports. */
  function Deliveries(es: seq<Event>): seq<Event> {
    if es == [] then []
    else (if es[0].Rsync? then [] else [es[0]]) + Deliveries(es[1..])
  }

  lemma {:induction false} DeliveriesConcat(a: seq<Event>, b: seq<Event>)
    ensures Deliveries(a + b) == Deliveries(a) + Deliveries(b)
  {
    if a == [] {
      assert a + b == b;
    } else {
      assert (a + b)[1..] == a[1..] + b;
      DeliveriesConcat(a[1..], b);
    }
  }

  /** The block at the front of s, as delivered. */
  function Delivered(s: seq<byte>): Event
    requires |s| >= ACK_SIZE && |s| >= BlockSize(s)
  {
    if PayloadWords(s) == 0 then Ack else Data(s[ACK_SIZE..BlockSize(s)])
  }

  lemma DeliveriesAccept(y: Sync, s: seq<byte>)
    requires |s| >= ACK_SIZE && |s| >= BlockSize(s)
    ensures Deliveries(AcceptEvents(y, s)) == [Delivered(s)]
  {
    hide PayloadWords, BlkSeq;
    var d := Delivered(s);
    assert [d][1..] == [] && Deliveries([d]) == [d];
    assert [Rsync, d][1..] == [d] && Deliveries([Rsync, d]) == Deliveries([d]);
  }

  /** Alignment and sequence history decide the reports only, never which blocks are delivered. */
  lemma {:induction false} DeliveriesOfStream(y: Sync, s: seq<byte>)
    ensures Deliveries(Parse(y, s)) == Deliveries(Parse(START, s))
    decreases |s|, y.aligned
  {
    hide HeaderValid, PayloadWords, BlkSeq;
    if |s| < ACK_SIZE {
    } else if !HeaderValid(s) {
      if y.aligned {
        DeliveriesConcat([Rsync], Parse(START, s));
        assert [Rsync][1..] == [];
      } else {
        DeliveriesOfStream(y, s[1..]);
      }
    } else if |s| < BlockSize(s) {
    } else {
      var rest := Parse(Sync(true, Seq(BlkSeq(s))), s[BlockSize(s)..]);
      DeliveriesConcat(AcceptEvents(y, s), rest);
      DeliveriesConcat(AcceptEvents(START, s), rest);
      DeliveriesAccept(y, s);
      DeliveriesAccept(START, s);
    }
  }

  // ---- Printing blocks ----

  function BlockHeader(chmask: nat, capturing: bool, words: nat, seqNo: nat): (h: seq<byte>)
    ensures |h| == ACK_SIZE
  {
    var w1: u32 := chmask % 0x1000;
    var w2: u32 := (if capturing then 0x4_0000 else 0) + 2;
    var w3: u32 := seqNo % 0x100 * 0x100_0000 + words % 0x1000 * 0x1000;
    var w0: u32 := HeaderWord0(w1, w2, w3);
    PutLe32(w0) + PutLe32(w1) + PutLe32(w2) + PutLe32(w3)
  }

  function HeaderWord0(w1: u32, w2: u32, w3: u32): u32 {
    var crc := FromBits(Crc16(WireBytes(w1, w2, w3)));
    assert Pow2(16) == 0x1_0000 by { Pow2At16(); }
    crc * 0x1_0000 + BLK_MAGIC16
  }

  lemma Pow2At16()
    ensures Pow2(16) == 0x1_0000
  {
    assert Pow2(8) == 256;
  }

  lemma Le32At(h: seq<byte>, a: seq<byte>, w: u32, b: seq<byte>)
    requires h == a + PutLe32(w) + b
    ensures Le32(h[|a|..]) == w
  {
    Le32RoundTrip(w);
    var t := h[|a|..];
    assert t[..4] == PutLe32(w);
    assert t[0] == t[..4][0] && t[1] == t[..4][1] && t[2] == t[..4][2] && t[3] == t[..4][3];
  }

  lemma WordsOf(p0: seq<byte>, p1: seq<byte>, p2: seq<byte>, p3: seq<byte>, w0: u32, w1: u32, w2: u32, w3: u32)
    requires p0 == PutLe32(w0) && p1 == PutLe32(w1) && p2 == PutLe32(w2) && p3 == PutLe32(w3)
    ensures var h := p0 + p1 + p2 + p3;
      Le32(h) == w0 && Le32(h[4..]) == w1 && Le32(h[8..]) == w2 && Le32(h[12..]) == w3
  {
    hide Le32, PutLe32;
    var h := p0 + p1 + p2 + p3;
    assert h == [] + p0 + (p1 + p2 + p3);
    assert h == p0 + p1 + (p2 + p3);
    assert h == p0 + p1 + p2 + p3 + [];
    Le32At(h, [], w0, p1 + p2 + p3);
    Le32At(h, p0, w1, p2 + p3);
    Le32At(h, p0 + p1, w2, p3);
    Le32At(h, p0 + p1 + p2, w3, []);
    assert h[0..] == h;
  }

  lemma WordThree(words: nat, seqNo: nat)
    requires words < 0x1000
    ensures var w3 := seqNo % 0x100 * 0x100_0000 + words % 0x1000 * 0x1000;
      w3 < 0x1_0000_0000 && w3 / 0x1000 % 0x1000 == words && w3 / 0x100_0000 == seqNo % 256
  {
    var q := seqNo % 0x100;
    assert (q * 0x100_0000 + words * 0x1000) / 0x1000 == q * 0x1000 + words;
  }

  lemma HeaderRoundTrip(chmask: nat, capturing: bool, words: nat, seqNo: nat)
    requires words <= MAX_PAYLOAD_WORDS
    ensures var h := BlockHeader(chmask, capturing, words, seqNo);
      HeaderValid(h) && PayloadWords(h) == words && BlkSeq(h) == seqNo % 256
  {
    hide Le32, PutLe32, Crc16, FromBits, WireBytes;
    var w1: u32 := chmask % 0x1000;
    var w2: u32 := (if capturing then 0x4_0000 else 0) + 2;
    WordThree(words, seqNo);
    var w3: u32 := seqNo % 0x100 * 0x100_0000 + words % 0x1000 * 0x1000;
    var w0 := HeaderWord0(w1, w2, w3);
    WordsOf(PutLe32(w0), PutLe32(w1), PutLe32(w2), PutLe32(w3), w0, w1, w2, w3);
  }

  predicate LegalPayload(p: seq<byte>) {
    |p| % 4 == 0 && |p| / 4 <= MAX_PAYLOAD_WORDS
  }

  /** Consecutively numbered blocks; an empty payload makes an ACK. */
  function PrintBlocks(chmask: nat, capturing: bool, payloads: seq<seq<byte>>, seqNo: nat): seq<byte>
    decreases |payloads|
  {
    if payloads == [] then [] else
      var h := BlockHeader(chmask, capturing, |payloads[0]| / 4, seqNo);
      h + payloads[0] + PrintBlocks(chmask, capturing, payloads[1..], seqNo + 1)
  }

  function EventsOf(payloads: seq<seq<byte>>): (es: seq<Event>)
    ensures |es| == |payloads|
  {
    seq(|payloads|, i requires 0 <= i < |payloads| => if payloads[i] == [] then Ack else Data(payloads[i]))
  }

  predicate InStep(y: Sync, seqNo: nat) {
    y.last.Seq? ==> (y.last.value + 1) % 256 == seqNo % 256
  }

  /** One printed block in front of anything is delivered as printed, with no report. */
  lemma FrontBlock(y: Sync, chmask: nat, capturing: bool, p: seq<byte>, seqNo: nat, tail: seq<byte>)
    requires LegalPayload(p) && InStep(y, seqNo)
    ensures Parse(y, BlockHeader(chmask, capturing, |p| / 4, seqNo) + p + tail)
      == [if p == [] then Ack else Data(p)] + Parse(Sync(true, Seq(seqNo % 256)), tail)
  {
    hide HeaderValid, PayloadWords, BlkSeq, BlockHeader;
    var h := BlockHeader(chmask, capturing, |p| / 4, seqNo);
    var s := h + p + tail;
    HeaderRoundTrip(chmask, capturing, |p| / 4, seqNo);
    assert h <= s;
    HeaderPrefix(h, s);
    assert s[ACK_SIZE..BlockSize(s)] == p;
    assert s[BlockSize(s)..] == tail;
  }

  /** Printed blocks are delivered exactly, in order, with no report, whatever follows them. */
  lemma {:induction false} BlocksRoundTrip(y: Sync, chmask: nat, capturing: bool, payloads: seq<seq<byte>>, seqNo: nat,
                                           tail: seq<byte>)
    requires InStep(y, seqNo) && forall p :: p in payloads ==> LegalPayload(p)
    ensures Parse(y, PrintBlocks(chmask, capturing, payloads, seqNo) + tail)
      == EventsOf(payloads)
      + Parse(if payloads == [] then y else Sync(true, Seq((seqNo + |payloads| - 1) % 256)), tail)
    decreases |payloads|
  {
    hide Parse, BlockHeader, LegalPayload, PrintBlocks, EventsOf;
    PrintStep(chmask, capturing, payloads, seqNo, tail);
    if payloads != [] {
      var p, more := payloads[0], PrintBlocks(chmask, capturing, payloads[1..], seqNo + 1);
      FrontBlock(y, chmask, capturing, p, seqNo, more + tail);
      BlocksRoundTrip(Sync(true, Seq(seqNo % 256)), chmask, capturing, payloads[1..], seqNo + 1, tail);
      EventsStep(payloads, Parse(Sync(true, Seq((seqNo + |payloads| - 1) % 256)), tail));
    } else {
      NoEvents(Parse(y, tail));
    }
  }

  lemma PrintStep(chmask: nat, capturing: bool, payloads: seq<seq<byte>>, seqNo: nat, tail: seq<byte>)
    ensures PrintBlocks(chmask, capturing, payloads, seqNo) + tail
      == if payloads == [] then tail
         else BlockHeader(chmask, capturing, |payloads[0]| / 4, seqNo) + payloads[0]
              + (PrintBlocks(chmask, capturing, payloads[1..], seqNo + 1) + tail)
  {
    hide BlockHeader;
  }

  lemma EventsStep(payloads: seq<seq<byte>>, rest: seq<Event>)
    requires payloads != []
    ensures EventsOf(payloads) + rest
      == [if payloads[0] == [] then Ack else Data(payloads[0])] + (EventsOf(payloads[1..]) + rest)
  {
    assert EventsOf(payloads) == [if payloads[0] == [] then Ack else Data(payloads[0])] + EventsOf(payloads[1..]);
  }

  lemma NoEvents(rest: seq<Event>)
    ensures EventsOf([]) + rest == rest
  {
  }

  // ---- Corrupted headers ----

  lemma PutLe(p: seq<byte>)
    requires |p| >= 4
    ensures PutLe32(Le32(p)) == p[..4]
  {
    var h1 := p[3] as int;
    var h2 := p[2] as int + 0x100 * h1;
    var h3 := p[1] as int + 0x100 * h2;
    var w := Le32(p);
    assert w == p[0] as int + 0x100 * h3;
    LowOctet(p[0], h3);
    LowOctet(p[1], h2);
    LowOctet(p[2], h1);
    assert w / 0x1_0000 == w / 0x100 / 0x100 && w / 0x100_0000 == w / 0x100 / 0x100 / 0x100;
  }

  lemma LowOctet(b: byte, q: nat)
    ensures (b as int + 0x100 * q) / 0x100 == q && (b as int + 0x100 * q) % 0x100 == b
  {
  }

  lemma HeaderWire(h: seq<byte>)
    requires |h| == ACK_SIZE
    ensures WireBytes(Le32(h[4..]), Le32(h[8..]), Le32(h[12..])) == h[4..]
  {
    hide Le32, PutLe32;
    PutLe(h[4..]); PutLe(h[8..]); PutLe(h[12..]);
    assert h[4..] == h[4..][..4] + h[8..][..4] + h[12..][..4];
  }

  /** The 96 covered bits in the order the checksum takes them, then the checksum. */
  function CodeBits(h: seq<byte>): (b: Bits)
    requires |h| == ACK_SIZE
    ensures |b| == 112
  {
    MsgBits(h[4..]) + ToBits(Le32(h) / 0x1_0000, 16)
  }

  lemma CheckAccepts(h: seq<byte>)
    requires |h| == ACK_SIZE && Magic(h)
    ensures BlkHdrOk(Le32(h), Le32(h[4..]), Le32(h[8..]), Le32(h[12..]))
      <==> Accepts(MsgBits(h[4..]), ToBits(Le32(h) / 0x1_0000, 16))
  {
    hide Le32, MsgBits, CrcBits, ToBits, FromBits;
    var field := Le32(h) / 0x1_0000;
    HeaderWire(h);
    Pow2At16();
    FromTo(field, 16);
    ToFrom(Crc16(h[4..]));
  }

  lemma HeaderChecked(h: seq<byte>)
    requires |h| == ACK_SIZE && HeaderValid(h)
    ensures BlkHdrOk(Le32(h), Le32(h[4..]), Le32(h[8..]), Le32(h[12..]))
  {
  }

  /** A header with its magic intact passes after corruption exactly if the flips have syndrome zero. */
  lemma CorruptionIsSyndrome(h: seq<byte>, h': seq<byte>)
    requires |h| == |h'| == ACK_SIZE && HeaderValid(h) && Magic(h')
    ensures BlkHdrOk(Le32(h'), Le32(h'[4..]), Le32(h'[8..]), Le32(h'[12..]))
      <==> Syndrome(Xor(CodeBits(h), CodeBits(h'))) == Zeros(16)
  {
    hide Le32, BlkHdrOk, Syndrome, Accepts, Xor;
    ValidHeaderFacts(h);
    HeaderChecked(h);
    CheckAccepts(h);
    CheckAccepts(h');
    UndetectedIffZeroSyndrome(MsgBits(h[4..]), ToBits(Le32(h) / 0x1_0000, 16),
                              MsgBits(h'[4..]), ToBits(Le32(h') / 0x1_0000, 16));
  }

  /**
   Odd numbers of flipped bits, any two flipped bits, and any sixteen consecutive bits in
   checksum order, words first, make a valid header invalid. Bursts on the wire, where the
   checksum stands in front of the words, are the matter of WireBursts.
   */
  lemma CorruptHeaderRejected(h: seq<byte>, h': seq<byte>, i: nat, j: nat, burst: Reg)
    requires |h| == |h'| == ACK_SIZE && HeaderValid(h) && Magic(h')
    requires var flips := Xor(CodeBits(h), CodeBits(h'));
      || Weight(flips) % 2 == 1
      || (i + j <= 110 && flips == Zeros(i) + [true] + Zeros(j) + [true] + Zeros(110 - i - j))
      || (i <= 96 && burst != Zeros(16) && flips == Zeros(i) + burst + Zeros(96 - i))
    ensures !HeaderValid(h')
  {
    hide Le32, BlkHdrOk, Syndrome, CodeBits;
    CorruptionIsSyndrome(h, h');
    var flips := Xor(CodeBits(h), CodeBits(h'));
    if Weight(flips) % 2 == 1 {
      OddFlipsDetected(flips);
    } else if i + j <= 110 && flips == Zeros(i) + [true] + Zeros(j) + [true] + Zeros(110 - i - j) {
      TwoFlipsDetected(i, j, 110 - i - j);
    } else {
      BurstDetected(i, burst, 96 - i);
    }
  }
}
