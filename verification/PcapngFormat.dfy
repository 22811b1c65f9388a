/**
 The blocks src/pcapng.c writes (draft-ietf-opsawg-pcapng, sections 3.1, 4.1, 4.2 and 4.3),
 and the reader of tools/check_pcapng.py.
 */
module PcapngFormat {
  import opened Bytes

  const SHB: u32 := 0x0a0d0d0a
  const IDB: u32 := 1
  const EPB: u32 := 6
  const BYTE_ORDER_MAGIC: u32 := 0x1a2b3c4d
  const UPPER_PDU: int := 252
  const MAX_BLOCK: int := 4096

  type u16 = x: int | 0 <= x < 0x1_0000

  // ---- The printer ----

  function Half(v: u16): (p: seq<byte>)
    ensures |p| == 2
  {
    [v % 0x100, v / 0x100]
  }

  function PadOctets(n: nat): seq<byte> { seq(n, i => 0) }

  function PadSize(n: nat): nat { (4 - n % 4) % 4 }

  /** Zeros up to the next multiple of four. */
  function Padded(p: seq<byte>): (q: seq<byte>)
    ensures |q| == |p| + PadSize(|p|) && |q| % 4 == 0
  {
    p + PadOctets(PadSize(|p|))
  }

  /** Padding counts from the start of the block, which is aligned. */
  lemma PaddedShift(start: seq<byte>, p: seq<byte>)
    requires |start| % 4 == 0
    ensures PadSize(|start| + |p|) == PadSize(|p|) && Padded(start + p) == start + Padded(p)
  {
    assert (|start| + |p|) % 4 == |p| % 4;
  }

  function Octets(s: string): (p: seq<byte>)
    ensures |p| == |s|
  {
    seq(|s|, i requires 0 <= i < |s| => s[i] as int % 0x100)
  }

  function Opt(code: u16, value: seq<byte>): (p: seq<byte>)
    requires |value| < 0x1_0000
    ensures |p| == 4 + |value| + PadSize(|value|) && |p| % 4 == 0
  {
    Padded(Half(code) + Half(|value|) + value)
  }

  function Block(kind: u32, body: seq<byte>): (b: seq<byte>)
    requires |body| + 12 < 0x1_0000_0000
    ensures |b| == |body| + 12
  {
    PutLe32(kind) + PutLe32(|body| + 12) + body + PutLe32(|body| + 12)
  }

  function EndOfOptions(): (p: seq<byte>)
    ensures |p| == 4
  {
    Opt(0, [])
  }

  function SectionStartFields(): (p: seq<byte>)
    ensures |p| == 16
  {
    PutLe32(BYTE_ORDER_MAGIC) + Half(1) + Half(0) + PutLe32(0xffff_ffff) + PutLe32(0xffff_ffff)
  }

  function SectionBody(): (p: seq<byte>)
    ensures |p| % 4 == 0 && |p| < 100
  {
    SectionStartFields() + Opt(2, Octets("USB Sniffer 2")) + EndOfOptions()
  }

  function Names(name: seq<byte>, description: seq<byte>): (p: seq<byte>)
    requires |name| < 100 && |description| < 100
    ensures |p| % 4 == 0 && |p| == |Opt(2, name)| + |Opt(3, description)| <= 214
  {
    var a, b := Opt(2, name), Opt(3, description);
    AlignedSum(|a|, |b|);
    a + b
  }

  lemma AlignedSum(a: nat, b: nat)
    requires a % 4 == 0 && b % 4 == 0
    ensures (a + b) % 4 == 0
  {
  }

  function InterfaceBody(linkType: u16, name: seq<byte>, description: seq<byte>): (p: seq<byte>)
    requires |name| < 100 && |description| < 100
    ensures |p| % 4 == 0 && |p| < 300 && |p| >= 20
  {
    AlignedSum(20, |Names(name, description)|);
    InterfaceStart(linkType) + Names(name, description) + Resolution() + EndOfOptions()
  }

  function InterfaceStart(linkType: u16): (p: seq<byte>)
    ensures |p| == 8
  {
    Half(linkType) + Half(0) + PutLe32(0xffff)
  }

  /** if_tsresol: nanoseconds. */
  function Resolution(): (p: seq<byte>)
    ensures |p| == 8
  {
    Half(9) + Half(1) + PutLe32(9)
  }

  /** The two interfaces a file has. */
  function UsbInterface(linkType: u16): seq<byte> {
    Block(IDB, InterfaceBody(linkType, Octets("usb"), Octets("Hardware USB interface")))
  }

  function InfoInterface(): seq<byte> {
    Block(IDB, InterfaceBody(UPPER_PDU, Octets("info"), Octets("Out of band information")))
  }

  function Section(): seq<byte> { Block(SHB, SectionBody()) }

  /** The tag that makes Wireshark dissect the text as a syslog message. */
  function SyslogTag(): (p: seq<byte>)
    ensures |p| == 14
  {
    [0, 12, 0, 6] + Octets("syslog") + [0, 0, 0, 0]
  }

  /** What the two write calls put into a file. */
  datatype Entry =
    | UsbFrame(ts: u64, data: seq<byte>)
    | InfoText(ts: u64, text: seq<byte>)

  function PacketHead(iface: u32, ts: u64, n: nat): (p: seq<byte>)
    requires n < 0x1_0000_0000
    ensures |p| == 20
  {
    PutLe32(iface) + PutLe32(ts / 0x1_0000_0000) + PutLe32(ts % 0x1_0000_0000) + PutLe32(n) + PutLe32(n)
  }

  function BodyOf(e: Entry): (p: seq<byte>)
    requires Fits(e)
    ensures |p| % 4 == 0 && |p| + 12 <= MAX_BLOCK && |p| >= 20
  {
    match e
    case UsbFrame(ts, data) =>
      AlignedSum(24, |Padded(data)|);
      PacketHead(0, ts, |data|) + Padded(data) + EndOfOptions()
    case InfoText(ts, text) =>
      AlignedSum(20, |Padded(SyslogTag() + text)|);
      PacketHead(1, ts, 14 + |text|) + Padded(SyslogTag() + text)
  }

  /** The block assembly buffer is large enough. */
  predicate Fits(e: Entry) {
    match e
    case UsbFrame(_, data) => 36 + |data| + PadSize(|data|) <= MAX_BLOCK
    case InfoText(_, text) => 32 + 14 + |text| + PadSize(14 + |text|) <= MAX_BLOCK
  }

  function Print(e: Entry): seq<byte>
    requires Fits(e)
  {
    Block(EPB, BodyOf(e))
  }

  predicate AllFit(es: seq<Entry>) { forall e :: e in es ==> Fits(e) }

  function PrintAll(es: seq<Entry>): seq<byte>
    requires AllFit(es)
  {
    if es == [] then [] else Print(es[0]) + PrintAll(es[1..])
  }

  function Head(linkType: u16): seq<byte> { Section() + (UsbInterface(linkType) + InfoInterface()) }

  /** The whole file. */
  function File(linkType: u16, es: seq<Entry>): seq<byte>
    requires AllFit(es)
  {
    Head(linkType) + PrintAll(es)
  }

  // ---- The reader ----

  /** walk_blocks: cut the octets at the block lengths, up to the first one that does not fit. */
  function Walk(data: seq<byte>): seq<seq<byte>>
    decreases |data|
  {
    if |data| < 12 then []
    else
      var n := Le32(data[4..]);
      if n < 12 || n > |data| then [] else [data[..n]] + Walk(data[n..])
  }

  method WalkBlocks(data: seq<byte>) returns (blocks: seq<seq<byte>>)
    ensures blocks == Walk(data)
  {
    blocks := [];
    var off := 0;
    assert data[0..] == data;
    while off + 12 <= |data|
      invariant off <= |data| && blocks + Walk(data[off..]) == Walk(data)
    {
      assert data[off..][4..] == data[off + 4..];
      var n := Le32(data[off + 4..]);
      if n < 12 || off + n > |data| {
        break;
      }
      assert data[off..][..n] == data[off..off + n] && data[off..][n..] == data[off + n..];
      blocks := blocks + [data[off..off + n]];
      off := off + n;
    }
  }

  /** What a reader makes of one block. */
  datatype Meaning =
    | SectionStart
    | Interface(linkType: int)
    | Packet(iface: u32, ts: u64, payload: seq<byte>)
    | Other
    | Malformed

  /** A slice that stops at the end of the data. */
  function Clamped(b: seq<byte>, from: nat, n: nat): seq<byte> {
    if from >= |b| then [] else if from + n > |b| then b[from..] else b[from..from + n]
  }

  function Read(b: seq<byte>): Meaning
    requires |b| >= 12
  {
    var kind := Le32(b);
    if kind == SHB then SectionStart
    else if kind == IDB then Interface(b[8] as int + 0x100 * b[9] as int)
    else if kind != EPB then Other
    else if |b| < 24 then Malformed
    else Packet(Le32(b[8..]), 0x1_0000_0000 * Le32(b[12..]) + Le32(b[16..]), Clamped(b, 28, Le32(b[20..])))
  }

  lemma {:induction false} WalkedAreLong(data: seq<byte>)
    ensures forall b :: b in Walk(data) ==> |b| >= 12
    decreases |data|
  {
    if |data| >= 12 {
      var n := Le32(data[4..]);
      if 12 <= n <= |data| { WalkedAreLong(data[n..]); }
    }
  }

  function ReadAll(blocks: seq<seq<byte>>): seq<Meaning>
    requires forall b :: b in blocks ==> |b| >= 12
  {
    seq(|blocks|, i requires 0 <= i < |blocks| => Read(blocks[i]))
  }

  function MeaningOf(e: Entry): Meaning {
    match e
    case UsbFrame(ts, data) => Packet(0, ts, data)
    case InfoText(ts, text) => Packet(1, ts, SyslogTag() + text)
  }

  function Meanings(es: seq<Entry>): seq<Meaning> {
    seq(|es|, i requires 0 <= i < |es| => MeaningOf(es[i]))
  }

  // ---- Reading back what was printed ----

  /** Aligned, and with its length in front and behind. */
  predicate Framed(b: seq<byte>) {
    && |b| >= 12 && |b| % 4 == 0 && |b| <= MAX_BLOCK
    && Le32(b[4..]) == |b| && Le32(b[|b| - 4..]) == |b|
  }

  lemma BlockIsFramed(kind: u32, body: seq<byte>)
    requires |body| % 4 == 0 && |body| + 12 <= MAX_BLOCK
    ensures Framed(Block(kind, body)) && Le32(Block(kind, body)) == kind
    ensures Block(kind, body)[8..|body| + 8] == body
  {
    var b, n := Block(kind, body), |body| + 12;
    Le32RoundTrip(kind);
    Le32RoundTrip(n);
    assert b[..4] == PutLe32(kind) && b[4..8] == PutLe32(n) && b[n - 4..] == PutLe32(n);
    assert forall k :: 0 <= k < 4 ==> b[k] == PutLe32(kind)[k] && b[4..][k] == b[4..8][k];
  }

  lemma WalkStep(b: seq<byte>, rest: seq<byte>)
    requires Framed(b)
    ensures Walk(b + rest) == [b] + Walk(rest)
  {
    var d := b + rest;
    assert forall k :: 0 <= k < 4 ==> d[4..][k] == b[4..][k];
    assert d[..|b|] == b && d[|b|..] == rest;
  }

  lemma {:induction false} WalkFramed(blocks: seq<seq<byte>>)
    requires forall b :: b in blocks ==> Framed(b)
    ensures Walk(Flatten(blocks)) == blocks
  {
    if blocks != [] {
      assert forall b :: b in blocks[1..] ==> b in blocks;
      WalkFramed(blocks[1..]);
      WalkStep(blocks[0], Flatten(blocks[1..]));
    }
  }

  /** A file cut anywhere, as one still being written is, shows its first blocks and nothing else. */
  lemma {:induction false} WalkCut(blocks: seq<seq<byte>>, n: nat) returns (k: nat)
    requires (forall b :: b in blocks ==> Framed(b)) && n <= |Flatten(blocks)|
    ensures k <= |blocks| && Walk(Flatten(blocks)[..n]) == blocks[..k]
  {
    hide Walk, Framed;
    if blocks == [] {
      ShortWalk(Flatten(blocks)[..n]);
      return 0;
    }
    var b, rest := blocks[0], Flatten(blocks[1..]);
    assert Flatten(blocks) == b + rest;
    if n < |b| {
      PartWalk(b, rest, n);
      return 0;
    }
    assert forall c :: c in blocks[1..] ==> c in blocks;
    var j := WalkCut(blocks[1..], n - |b|);
    assert (b + rest)[..n] == b + rest[..n - |b|];
    WalkStep(b, rest[..n - |b|]);
    assert blocks[..j + 1] == [b] + blocks[1..][..j];
    return j + 1;
  }

  lemma ShortWalk(d: seq<byte>)
    requires |d| < 12
    ensures Walk(d) == []
  {
  }

  /** A block cut short is not shown. */
  lemma PartWalk(b: seq<byte>, rest: seq<byte>, n: nat)
    requires Framed(b) && n < |b|
    ensures Walk((b + rest)[..n]) == []
  {
    var d := (b + rest)[..n];
    assert n >= 12 ==> forall i :: 0 <= i < 4 ==> d[4..][i] == b[4..][i];
  }

  lemma PrintIsFramed(e: Entry)
    requires Fits(e)
    ensures Framed(Print(e))
  {
    BlockIsFramed(EPB, BodyOf(e));
  }

  lemma Shifted(b: seq<byte>, body: seq<byte>, k: nat)
    requires |b| >= |body| + 8 && b[8..|body| + 8] == body && k + 4 <= |body|
    ensures Le32(b[k + 8..]) == Le32(body[k..])
  {
    assert forall i :: 0 <= i < 4 ==> b[8..|body| + 8][k + i] == b[k + 8..][i] && body[k + i] == body[k..][i];
  }

  lemma PacketFields(iface: u32, ts: u64, payload: seq<byte>, rest: seq<byte>)
    requires |payload| < 0x1_0000 && (20 + |payload| + |rest|) % 4 == 0 && 32 + |payload| + |rest| <= MAX_BLOCK
    ensures var b := Block(EPB, PacketHead(iface, ts, |payload|) + payload + rest);
            && |b| >= 32 + |payload| && Le32(b) == EPB && Le32(b[8..]) == iface
            && Le32(b[12..]) == ts / 0x1_0000_0000 && Le32(b[16..]) == ts % 0x1_0000_0000
            && Le32(b[20..]) == |payload| && b[28..28 + |payload|] == payload
  {
    hide Block, PacketHead, Le32;
    var head := PacketHead(iface, ts, |payload|);
    var body := head + payload + rest;
    var b := Block(EPB, body);
    BlockIsFramed(EPB, body);
    HeadWords(iface, ts, |payload|);
    Shifted(b, body, 0);
    Shifted(b, body, 4);
    Shifted(b, body, 8);
    Shifted(b, body, 12);
    assert head + payload + rest == head + (payload + rest);
    HeadShows(head, payload + rest, body);
    PayloadShows(head, payload, rest);
    assert b[28..28 + |payload|] == b[8..|body| + 8][20..20 + |payload|];
    assert head[0..] == head;
  }

  lemma PayloadShows(head: seq<byte>, payload: seq<byte>, rest: seq<byte>)
    requires |head| == 20
    ensures (head + payload + rest)[20..20 + |payload|] == payload
  {
  }

  lemma PacketReads(iface: u32, ts: u64, payload: seq<byte>, rest: seq<byte>)
    requires |payload| < 0x1_0000 && (20 + |payload| + |rest|) % 4 == 0 && 32 + |payload| + |rest| <= MAX_BLOCK
    ensures Read(Block(EPB, PacketHead(iface, ts, |payload|) + payload + rest)) == Packet(iface, ts, payload)
  {
    hide Block, PacketHead, Le32;
    PacketFields(iface, ts, payload, rest);
  }

  lemma HeadShows(head: seq<byte>, rest: seq<byte>, body: seq<byte>)
    requires |head| == 20 && body == head + rest
    ensures forall k :: 0 <= k <= 16 ==> Le32(body[k..]) == Le32(head[k..])
  {
  }

  lemma FrameReads(ts: u64, data: seq<byte>)
    requires Fits(UsbFrame(ts, data))
    ensures Read(Print(UsbFrame(ts, data))) == Packet(0, ts, data)
  {
    hide Block, PacketHead, Read, EndOfOptions, PadSize;
    var head, pad, end := PacketHead(0, ts, |data|), PadOctets(PadSize(|data|)), EndOfOptions();
    FourParts(head, data, pad, end);
    var body := BodyOf(UsbFrame(ts, data));
    assert body == head + data + (pad + end);
    assert |body| == 20 + |data| + |pad + end|;
    PacketReads(0, ts, data, pad + end);
  }

  lemma TextReads(ts: u64, text: seq<byte>)
    requires Fits(InfoText(ts, text))
    ensures Read(Print(InfoText(ts, text))) == Packet(1, ts, SyslogTag() + text)
  {
    hide Block, PacketHead, Read, SyslogTag, PadSize;
    var payload := SyslogTag() + text;
    var head, pad := PacketHead(1, ts, |payload|), PadOctets(PadSize(|payload|));
    FourParts(head, payload, pad, []);
    var body := BodyOf(InfoText(ts, text));
    assert body == head + payload + pad;
    assert |body| == 20 + |payload| + |pad|;
    PacketReads(1, ts, payload, pad);
  }

  lemma FourParts(a: seq<byte>, b: seq<byte>, c: seq<byte>, d: seq<byte>)
    ensures a + (b + c) + d == a + b + (c + d) && a + (b + c) == a + b + c
  {
  }

  /** An entry read back has its interface, its 64-bit timestamp and its payload. */
  lemma ReadPrinted(e: Entry)
    requires Fits(e)
    ensures Read(Print(e)) == MeaningOf(e)
  {
    hide Read, Print;
    match e {
      case UsbFrame(ts, data) => FrameReads(ts, data);
      case InfoText(ts, text) => TextReads(ts, text);
    }
  }

  lemma HeadWords(iface: u32, ts: u64, n: nat)
    requires n < 0x1_0000_0000
    ensures var p := PacketHead(iface, ts, n);
            && Le32(p) == iface && Le32(p[4..]) == ts / 0x1_0000_0000 && Le32(p[8..]) == ts % 0x1_0000_0000
            && Le32(p[12..]) == n
  {
    Le32RoundTrip(iface);
    Le32RoundTrip(ts / 0x1_0000_0000);
    Le32RoundTrip(ts % 0x1_0000_0000);
    Le32RoundTrip(n);
  }

  lemma HeadBlocks(linkType: u16)
    ensures Framed(Section()) && Framed(UsbInterface(linkType)) && Framed(InfoInterface())
    ensures Read(Section()) == SectionStart
    ensures Read(UsbInterface(linkType)) == Interface(linkType)
    ensures Read(InfoInterface()) == Interface(UPPER_PDU)
  {
    hide Opt, SectionBody, InterfaceBody;
    BlockIsFramed(SHB, SectionBody());
    InterfaceReads(linkType, Octets("usb"), Octets("Hardware USB interface"));
    InterfaceReads(UPPER_PDU, Octets("info"), Octets("Out of band information"));
  }

  lemma InterfaceReads(linkType: u16, name: seq<byte>, description: seq<byte>)
    requires |name| < 100 && |description| < 100
    ensures Framed(Block(IDB, InterfaceBody(linkType, name, description)))
    ensures Read(Block(IDB, InterfaceBody(linkType, name, description))) == Interface(linkType)
  {
    hide Names;
    var body := InterfaceBody(linkType, name, description);
    var b := Block(IDB, body);
    BlockIsFramed(IDB, body);
    assert body[..2] == Half(linkType);
    assert b[8] == b[8..|body| + 8][0] == body[..2][0] && b[9] == b[8..|body| + 8][1] == body[..2][1];
  }

  function Blocks(es: seq<Entry>): seq<seq<byte>>
    requires AllFit(es)
  {
    seq(|es|, i requires 0 <= i < |es| => Print(es[i]))
  }

  lemma {:induction false} PrintAllFlattens(es: seq<Entry>)
    requires AllFit(es)
    ensures PrintAll(es) == Flatten(Blocks(es))
  {
    hide Print, Fits;
    if es != [] {
      PrintAllFlattens(es[1..]);
      assert Blocks(es)[1..] == Blocks(es[1..]);
    }
  }

  function FileBlocks(linkType: u16, es: seq<Entry>): seq<seq<byte>>
    requires AllFit(es)
  {
    [Section(), UsbInterface(linkType), InfoInterface()] + Blocks(es)
  }

  lemma FlattenThree(a: seq<byte>, b: seq<byte>, c: seq<byte>)
    ensures Flatten([a, b, c]) == a + (b + c)
  {
    assert [a, b, c] == [a] + [b, c] && [a, b, c][1..] == [b, c] && [b, c][1..] == [c] && [c][1..] == [];
    assert Flatten([c]) == c;
  }

  lemma FileIsFramed(linkType: u16, es: seq<Entry>)
    requires AllFit(es)
    ensures forall b :: b in FileBlocks(linkType, es) ==> Framed(b)
    ensures Flatten(FileBlocks(linkType, es)) == File(linkType, es)
  {
    hide Section, UsbInterface, InfoInterface, Print, Framed;
    HeadBlocks(linkType);
    forall i | 0 <= i < |es| ensures Framed(Blocks(es)[i]) { PrintIsFramed(es[i]); }
    PrintAllFlattens(es);
    var three := [Section(), UsbInterface(linkType), InfoInterface()];
    FlattenAppend(three, Blocks(es));
    FlattenThree(Section(), UsbInterface(linkType), InfoInterface());
  }

  /**
   The round trip: reading a file shows the section, the two interfaces, and then every
   entry in the order of the calls with its interface, timestamp and octets.
   */
  lemma FileRoundTrip(linkType: u16, es: seq<Entry>)
    requires AllFit(es)
    ensures var blocks := Walk(File(linkType, es));
            && (forall b :: b in blocks ==> Framed(b))
            && ReadAll(blocks) == [SectionStart, Interface(linkType), Interface(UPPER_PDU)] + Meanings(es)
  {
    hide Section, UsbInterface, InfoInterface, Read, File, Walk, Framed, Blocks, Meanings;
    FileIsFramed(linkType, es);
    WalkFramed(FileBlocks(linkType, es));
    HeadBlocks(linkType);
    BlocksRead(es);
    FramedIsLong();
    var head := [Section(), UsbInterface(linkType), InfoInterface()];
    assert ReadAll(head) == [SectionStart, Interface(linkType), Interface(UPPER_PDU)];
    assert ReadAll(head + Blocks(es)) == ReadAll(head) + ReadAll(Blocks(es));
  }

  lemma FramedIsLong()
    ensures forall b: seq<byte> :: Framed(b) ==> |b| >= 12
  {
  }

  lemma BlocksRead(es: seq<Entry>)
    requires AllFit(es)
    ensures (forall b :: b in Blocks(es) ==> |b| >= 12) && ReadAll(Blocks(es)) == Meanings(es)
  {
    hide Print, Read, MeaningOf;
    forall i | 0 <= i < |es| ensures |Blocks(es)[i]| >= 12 && Read(Blocks(es)[i]) == Meanings(es)[i] {
      assert es[i] in es;
      PrintIsFramed(es[i]);
      ReadPrinted(es[i]);
    }
  }

  /** What was read of a file still growing stays what will be read of it. */
  lemma CutFileReads(linkType: u16, es: seq<Entry>, n: nat) returns (k: nat)
    requires AllFit(es) && n <= |File(linkType, es)|
    ensures k <= |es| + 3
    ensures Walk(File(linkType, es)[..n]) == FileBlocks(linkType, es)[..k]
    ensures Walk(File(linkType, es)) == FileBlocks(linkType, es)
  {
    hide Section, UsbInterface, InfoInterface, Print, Walk;
    FileIsFramed(linkType, es);
    WalkFramed(FileBlocks(linkType, es));
    k := WalkCut(FileBlocks(linkType, es), n);
  }

  // ---- Before and after pcapng_begin ----

  /** What was given to the sink, and what waits for the section header. */
  datatype Output = Output(begun: bool, sunk: seq<byte>, staged: seq<byte>)

  function Deliver(o: Output, block: seq<byte>): Output {
    if o.begun then o.(sunk := o.sunk + block) else o.(staged := o.staged + block)
  }

  function Open(o: Output, linkType: u16): Output {
    o.(begun := true, sunk := o.sunk + Head(linkType) + o.staged)
  }

  function DeliverAll(o: Output, es: seq<Entry>): Output
    requires AllFit(es)
    decreases |es|
  {
    if es == [] then o else DeliverAll(Deliver(o, Print(es[0])), es[1..])
  }

  lemma {:induction false} DeliverAllAppends(o: Output, es: seq<Entry>)
    requires AllFit(es)
    ensures DeliverAll(o, es)
      == if o.begun then o.(sunk := o.sunk + PrintAll(es)) else o.(staged := o.staged + PrintAll(es))
    decreases |es|
  {
    hide Print;
    if es != [] {
      DeliverAllAppends(Deliver(o, Print(es[0])), es[1..]);
    }
  }

  lemma {:induction false} PrintAllAppend(a: seq<Entry>, b: seq<Entry>)
    requires AllFit(a) && AllFit(b)
    ensures PrintAll(a + b) == PrintAll(a) + PrintAll(b)
  {
    hide Print;
    if a == [] {
      assert a + b == b;
    } else {
      assert (a + b)[1..] == a[1..] + b;
      PrintAllAppend(a[1..], b);
    }
  }

  /**
   Writes before pcapng_begin end up behind the head and before the later ones: one file in the
   order of the calls.
   */
  lemma SessionMakesFile(before: seq<Entry>, linkType: u16, after: seq<Entry>)
    requires AllFit(before) && AllFit(after)
    ensures DeliverAll(Open(DeliverAll(Output(false, [], []), before), linkType), after).sunk
            == File(linkType, before + after)
  {
    hide Head, Print, PrintAll;
    var o := DeliverAll(Output(false, [], []), before);
    DeliverAllAppends(Output(false, [], []), before);
    DeliverAllAppends(Open(o, linkType), after);
    PrintAllAppend(before, after);
  }

  // ---- collect ----

  function Ids(blocks: seq<seq<byte>>): seq<int>
    requires forall b :: b in blocks ==> |b| >= 12
  {
    if blocks == [] then []
    else
      var m := Read(blocks[|blocks| - 1]);
      Ids(blocks[..|blocks| - 1]) + (if m.Interface? then [m.linkType] else [])
  }

  function PacketsOf(blocks: seq<seq<byte>>, iface: u32): seq<(u64, seq<byte>)>
    requires forall b :: b in blocks ==> |b| >= 12
  {
    if blocks == [] then []
    else
      var m := Read(blocks[|blocks| - 1]);
      PacketsOf(blocks[..|blocks| - 1], iface) + (if m.Packet? && m.iface == iface then [(m.ts, m.payload)] else [])
  }

  function Listed(epbs: map<u32, seq<(u64, seq<byte>)>>, i: u32): seq<(u64, seq<byte>)> {
    if i in epbs then epbs[i] else []
  }

  lemma EmptyLists()
    ensures Ids([]) == [] && forall i: u32 :: PacketsOf([], i) == []
  {
  }

  lemma Snoc(bs: seq<seq<byte>>, b: seq<byte>)
    requires (forall c :: c in bs ==> |c| >= 12) && |b| >= 12
    ensures forall c :: c in bs + [b] ==> |c| >= 12
    ensures Ids(bs + [b]) == Ids(bs) + (if Read(b).Interface? then [Read(b).linkType] else [])
    ensures forall i: u32 :: PacketsOf(bs + [b], i)
              == PacketsOf(bs, i)
                + (if Read(b).Packet? && Read(b).iface == i then [(Read(b).ts, Read(b).payload)] else [])
  {
    hide Read;
    assert (bs + [b])[..|bs + [b]| - 1] == bs;
  }

  /** The link types and, interface by interface, the packets; not ok where the reader gives up on a short packet. */
  method Collect(data: seq<byte>) returns (ok: bool, ids: seq<int>, epbs: map<u32, seq<(u64, seq<byte>)>>)
    ensures forall b :: b in Walk(data) ==> |b| >= 12
    ensures ok <==> forall b :: b in Walk(data) ==> Read(b) != Malformed
    ensures ok ==> ids == Ids(Walk(data))
    ensures ok ==> forall i: u32 :: PacketsOf(Walk(data), i) == Listed(epbs, i)
  {
    hide Read, Walk, Ids, PacketsOf;
    WalkedAreLong(data);
    EmptyLists();
    var blocks := WalkBlocks(data);
    ok, ids, epbs := true, [], map[];
    for n := 0 to |blocks|
      invariant ok && blocks[..0] == [] && ids == Ids(blocks[..n])
      invariant forall b :: b in blocks[..n] ==> Read(b) != Malformed
      invariant forall i: u32 :: PacketsOf(blocks[..n], i) == Listed(epbs, i)
    {
      assert blocks[n] in blocks;
      assert blocks[..n + 1] == blocks[..n] + [blocks[n]];
      Snoc(blocks[..n], blocks[n]);
      var m := Read(blocks[n]);
      if m.Malformed? {
        ok := false;
        return;
      }
      if m.Interface? {
        ids := ids + [m.linkType];
      } else if m.Packet? {
        epbs := epbs[m.iface := Listed(epbs, m.iface) + [(m.ts, m.payload)]];
      }
    }
    assert blocks[..|blocks|] == blocks;
  }
}
