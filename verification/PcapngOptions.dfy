/**
 What a reader of draft-ietf-opsawg-pcapng finds in the fixed fields and options of the blocks:
 names, versions, and the unit of every time in the file.
 */
module PcapngOptions {
  import opened Bytes
  import opened PcapngFormat

  /** An option: its code and its value. */
  type Field = (nat, seq<byte>)

  function Le16(p: seq<byte>): nat
    requires |p| >= 2
  {
    p[0] as nat + 0x100 * p[1] as nat
  }

  /** Options follow each other at multiples of four, up to code 0 (section 3.5). */
  function ReadOptions(p: seq<byte>): seq<Field>
    decreases |p|
  {
    if |p| < 4 || Le16(p) == 0 then []
    else
      var n := Le16(p[2..]);
      var next := 4 + (n + 3) / 4 * 4;
      if next > |p| then [] else [(Le16(p), p[4..4 + n])] + ReadOptions(p[next..])
  }

  lemma OptionRead(code: u16, value: seq<byte>, rest: seq<byte>)
    requires code != 0 && |value| < 0x1_0000
    ensures ReadOptions(Opt(code, value) + rest) == [(code, value)] + ReadOptions(rest)
  {
    hide Opt, Half, ReadOptions, Le16;
    var n := |value|;
    HalfBack(code);
    HalfBack(n);
    OptParts(code, value, rest);
    assert 4 + (n + 3) / 4 * 4 == 4 + n + PadSize(n);
    ReadOne(Opt(code, value) + rest, code, n, 4 + n + PadSize(n));
  }

  lemma ReadOne(p: seq<byte>, code: nat, n: nat, next: nat)
    requires 4 + n <= next <= |p| && next == 4 + (n + 3) / 4 * 4 && code != 0 && Le16(p) == code && Le16(p[2..]) == n
    ensures ReadOptions(p) == [(code, p[4..4 + n])] + ReadOptions(p[next..])
  {
    hide Le16;
  }

  lemma HalfBack(v: u16)
    ensures Le16(Half(v)) == v
  {
  }

  lemma OptParts(code: u16, value: seq<byte>, rest: seq<byte>)
    requires |value| < 0x1_0000
    ensures var p := Opt(code, value) + rest;
      && p[..2] == Half(code) && p[2..4] == Half(|value|) && p[4..4 + |value|] == value
      && p[4 + |value| + PadSize(|value|)..] == rest
      && Le16(p) == Le16(p[..2]) && Le16(p[2..]) == Le16(p[2..4])
  {
  }

  /** The resolution option: one octet, 9, with whatever fills the word. */
  lemma ResolutionRead(rest: seq<byte>)
    ensures ReadOptions(Resolution() + rest) == [(9, [9])] + ReadOptions(rest)
  {
    var p := Resolution() + rest;
    assert p[8..] == rest;
    assert p[4..5] == [9];
  }

  lemma EndRead(rest: seq<byte>)
    ensures ReadOptions(EndOfOptions() + rest) == []
  {
    var p := EndOfOptions() + rest;
    assert p[..2] == Half(0) && Le16(p) == Le16(p[..2]);
  }

  // ---- Interfaces ----

  /** The options of an interface block stand behind link type, reserved half-word and snap length. */
  function InterfaceOptions(b: seq<byte>): seq<Field>
    requires |b| >= 20
  {
    ReadOptions(b[16..|b| - 4])
  }

  /** What a reader learns from an interface block. */
  datatype About = About(linkType: nat, snapLength: nat, options: seq<Field>)

  function AboutOf(b: seq<byte>): About
    requires |b| >= 20
  {
    About(Le16(b[8..]), Le32(b[12..]), InterfaceOptions(b))
  }

  lemma InterfaceSays(linkType: u16, name: seq<byte>, description: seq<byte>)
    requires |name| < 100 && |description| < 100
    ensures var b := Block(IDB, InterfaceBody(linkType, name, description));
      |b| >= 20 && AboutOf(b) == About(linkType, 0xffff, [(2, name), (3, description), (9, [9])])
  {
    hide Opt, Resolution, EndOfOptions, ReadOptions, Block, Le32;
    var body := InterfaceBody(linkType, name, description);
    var b := Block(IDB, body);
    var opts := Names(name, description) + Resolution() + EndOfOptions();
    BlockIsFramed(IDB, body);
    StartFields(linkType);
    assert body == InterfaceStart(linkType) + opts;
    assert b[8..|b| - 4] == body;
    BodyParts(b, InterfaceStart(linkType), opts);
    OptionsInOrder(name, description);
  }

  lemma BodyParts(b: seq<byte>, start: seq<byte>, opts: seq<byte>)
    requires |start| == 8 && |b| == |start| + |opts| + 12 && b[8..|b| - 4] == start + opts
    ensures b[16..|b| - 4] == opts && Le16(b[8..]) == Le16(start) && Le32(b[12..]) == Le32(start[4..])
  {
    assert forall i :: 0 <= i < 8 ==> b[8 + i] == b[8..|b| - 4][i] == start[i];
    assert b[16..|b| - 4] == b[8..|b| - 4][8..];
  }

  lemma StartFields(linkType: u16)
    ensures var p := InterfaceStart(linkType); Le16(p) == linkType && Le32(p[4..]) == 0xffff
  {
    hide Le32;
    HalfBack(linkType);
    Le32RoundTrip(0xffff);
    var p := InterfaceStart(linkType);
    assert p[..2] == Half(linkType) && Le16(p) == Le16(p[..2]) && p[4..] == PutLe32(0xffff);
  }

  lemma OptionsInOrder(name: seq<byte>, description: seq<byte>)
    requires |name| < 100 && |description| < 100
    ensures ReadOptions(Names(name, description) + Resolution() + EndOfOptions())
      == [(2, name), (3, description), (9, [9])]
  {
    hide Opt, Resolution, EndOfOptions, ReadOptions;
    var a, b, c, d := Opt(2, name), Opt(3, description), Resolution(), EndOfOptions();
    assert Names(name, description) + c + d == a + (b + (c + d));
    OptionRead(2, name, b + (c + d));
    OptionRead(3, description, c + d);
    ResolutionRead(d);
    assert d + [] == d;
    EndRead([]);
  }

  // ---- The section ----

  /** The section: byte order, version 1.0, length not given, and the hardware that captured. */
  lemma SectionSays()
    ensures var b := Section();
      && |b| >= 28 && Le32(b[8..]) == 0x1a2b3c4d && Le16(b[12..]) == 1 && Le16(b[14..]) == 0
      && Le32(b[16..]) == 0xffff_ffff && Le32(b[20..]) == 0xffff_ffff
      && ReadOptions(b[24..|b| - 4]) == [(2, Octets("USB Sniffer 2"))]
  {
    hide Opt, EndOfOptions, ReadOptions, Block, Le32, PutLe32;
    var fields, opts := SectionStartFields(), Opt(2, Octets("USB Sniffer 2")) + EndOfOptions();
    var body, b := SectionBody(), Section();
    BlockIsFramed(SHB, body);
    assert body == fields + opts;
    assert b[8..|b| - 4] == body;
    SectionFields();
    SectionParts(b, fields, opts);
    OptionRead(2, Octets("USB Sniffer 2"), EndOfOptions());
    assert EndOfOptions() + [] == EndOfOptions();
    EndRead([]);
  }

  lemma SectionFields()
    ensures var p := SectionStartFields();
      Le32(p) == 0x1a2b3c4d && Le16(p[4..]) == 1 && Le16(p[6..]) == 0 && Le32(p[8..]) == Le32(p[12..]) == 0xffff_ffff
  {
    hide Le32, PutLe32;
    Le32RoundTrip(0x1a2b3c4d);
    Le32RoundTrip(0xffff_ffff);
    HalfBack(1);
    HalfBack(0);
    var p := SectionStartFields();
    assert p[..4] == PutLe32(0x1a2b3c4d) && p[8..12] == PutLe32(0xffff_ffff) && p[12..] == PutLe32(0xffff_ffff);
    assert p[4..6] == Half(1) && p[6..8] == Half(0);
    Le32Prefix(p);
    Le32Prefix(p[8..]);
    assert p[8..][..4] == p[8..12];
    assert Le16(p[4..]) == Le16(p[4..6]) && Le16(p[6..]) == Le16(p[6..8]);
  }

  lemma Le32Prefix(p: seq<byte>)
    requires |p| >= 4
    ensures Le32(p) == Le32(p[..4])
  {
  }

  lemma SectionParts(b: seq<byte>, fields: seq<byte>, opts: seq<byte>)
    requires |fields| == 16 && |b| == |fields| + |opts| + 12 && b[8..|b| - 4] == fields + opts
    ensures b[24..|b| - 4] == opts && Le32(b[8..]) == Le32(fields) && Le16(b[12..]) == Le16(fields[4..])
    ensures Le16(b[14..]) == Le16(fields[6..])
    ensures Le32(b[16..]) == Le32(fields[8..]) && Le32(b[20..]) == Le32(fields[12..])
  {
    assert forall i :: 0 <= i < 16 ==> b[8 + i] == b[8..|b| - 4][i] == fields[i];
    assert b[24..|b| - 4] == b[8..|b| - 4][16..];
  }

  // ---- Time ----

  function Pow10(n: nat): nat { if n == 0 then 1 else 10 * Pow10(n - 1) }

  /** if_tsresol, section 4.2: a negative power of ten, and microseconds where it is not given. */
  function UnitsPerSecond(options: seq<Field>): nat {
    if options == [] then 1000000
    else if options[0].0 == 9 && |options[0].1| == 1 && options[0].1[0] < 0x80 then Pow10(options[0].1[0])
    else UnitsPerSecond(options[1..])
  }

  lemma Nanoseconds(name: seq<byte>, description: seq<byte>)
    ensures UnitsPerSecond([(2, name), (3, description), (9, [9])]) == 1_000_000_000
  {
    var o: seq<Field> := [(2, name), (3, description), (9, [9])];
    var v: seq<byte> := [9];
    assert o[1..][0] == (3, description) && o[2..][0] == (9, v) && o[1..][1..] == o[2..];
    assert UnitsPerSecond(o[2..]) == Pow10(9);
    assert UnitsPerSecond(o) == UnitsPerSecond(o[1..]) == UnitsPerSecond(o[2..]);
    assert Pow10(4) == 10000 && Pow10(5) == 10 * Pow10(4) && Pow10(6) == 10 * Pow10(5);
    assert Pow10(7) == 10 * Pow10(6) && Pow10(8) == 10 * Pow10(7) && Pow10(9) == 10 * Pow10(8);
  }

  /** The time of a packet in seconds: its timestamp in the units of its interface. */
  function Seconds(interfaces: seq<seq<byte>>, m: Meaning): real
    requires m.Packet? && m.iface < |interfaces| && |interfaces[m.iface]| >= 20
    requires UnitsPerSecond(InterfaceOptions(interfaces[m.iface])) > 0
  {
    m.ts as real / UnitsPerSecond(InterfaceOptions(interfaces[m.iface])) as real
  }

  /** A packet that a reader places so many nanoseconds after the epoch. */
  predicate At(interfaces: seq<seq<byte>>, m: Meaning, ns: nat) {
    && m.Packet? && m.iface < |interfaces| && |interfaces[m.iface]| >= 20
    && UnitsPerSecond(InterfaceOptions(interfaces[m.iface])) > 0
    && Seconds(interfaces, m) == ns as real / 1_000_000_000.0
  }

  /** Both interfaces of a file: link type, name, description, and nanoseconds. */
  lemma InterfacesSay(linkType: u16)
    ensures var usb, info := UsbInterface(linkType), InfoInterface();
      && |usb| >= 20 && |info| >= 20
      && AboutOf(usb) == About(linkType, 0xffff, [(2, Octets("usb")), (3, Octets("Hardware USB interface")), (9, [9])])
      && AboutOf(info) == About(252, 0xffff, [(2, Octets("info")), (3, Octets("Out of band information")), (9, [9])])
      && UnitsPerSecond(InterfaceOptions(usb)) == 1_000_000_000 == UnitsPerSecond(InterfaceOptions(info))
  {
    hide InterfaceBody, Block, InterfaceOptions, UnitsPerSecond;
    InterfaceSays(linkType, Octets("usb"), Octets("Hardware USB interface"));
    InterfaceSays(UPPER_PDU, Octets("info"), Octets("Out of band information"));
    Nanoseconds(Octets("usb"), Octets("Hardware USB interface"));
    Nanoseconds(Octets("info"), Octets("Out of band information"));
  }

  /** The interface blocks of a file, in order. */
  function InterfacesOf(blocks: seq<seq<byte>>): seq<seq<byte>>
    requires forall b :: b in blocks ==> |b| >= 12
  {
    if blocks == [] then []
    else (if Read(blocks[0]).Interface? then [blocks[0]] else []) + InterfacesOf(blocks[1..])
  }

  lemma {:induction false} NoInterfaces(blocks: seq<seq<byte>>)
    requires forall b :: b in blocks ==> |b| >= 12 && !Read(b).Interface?
    ensures InterfacesOf(blocks) == []
  {
    hide Read;
    if blocks != [] {
      assert blocks[0] in blocks;
      NoInterfaces(blocks[1..]);
    }
  }

  lemma HeadInterfaces(linkType: u16, rest: seq<seq<byte>>)
    requires forall b :: b in rest ==> |b| >= 12 && !Read(b).Interface?
    ensures var blocks := [Section(), UsbInterface(linkType), InfoInterface()] + rest;
      (forall b :: b in blocks ==> |b| >= 12) && InterfacesOf(blocks) == [UsbInterface(linkType), InfoInterface()]
  {
    hide Read, Section, UsbInterface, InfoInterface, InterfacesOf;
    HeadBlocks(linkType);
    FramedIsLong();
    NoInterfaces(rest);
    var a, b, c := Section(), UsbInterface(linkType), InfoInterface();
    assert [a, b, c] + rest == [a] + ([b] + ([c] + rest));
    Unfold(c, rest);
    Unfold(b, [c] + rest);
    Unfold(a, [b] + ([c] + rest));
  }

  lemma Unfold(b: seq<byte>, rest: seq<seq<byte>>)
    requires |b| >= 12 && forall c :: c in rest ==> |c| >= 12
    ensures forall c :: c in [b] + rest ==> |c| >= 12
    ensures InterfacesOf([b] + rest) == (if Read(b).Interface? then [b] else []) + InterfacesOf(rest)
  {
    hide Read;
    assert ([b] + rest)[1..] == rest;
  }

  lemma EntriesAreNoInterfaces(es: seq<Entry>)
    requires AllFit(es)
    ensures forall b :: b in Blocks(es) ==> |b| >= 12 && !Read(b).Interface?
  {
    hide Read, Print, MeaningOf, ReadAll;
    BlocksRead(es);
    forall i | 0 <= i < |es| ensures !Read(Blocks(es)[i]).Interface? {
      assert es[i] in es;
      ReadPrinted(es[i]);
      PacketsOnly(es[i]);
    }
  }

  lemma PacketsOnly(e: Entry)
    ensures MeaningOf(e).Packet? && MeaningOf(e).iface < 2 && MeaningOf(e).ts == e.ts
  {
  }

  lemma TimedByInterface(linkType: u16, e: Entry)
    ensures At([UsbInterface(linkType), InfoInterface()], MeaningOf(e), e.ts)
  {
    hide UsbInterface, InfoInterface, MeaningOf, InterfaceOptions, UnitsPerSecond, AboutOf;
    InterfacesSay(linkType);
    PacketsOnly(e);
  }

  /** In any file the time a reader finds for an entry is its timestamp in nanoseconds. */
  lemma TimesAreNanoseconds(linkType: u16, es: seq<Entry>, i: nat)
    requires AllFit(es) && i < |es|
    ensures Walk(File(linkType, es)) == FileBlocks(linkType, es) && |FileBlocks(linkType, es)| == |es| + 3
    ensures forall b :: b in FileBlocks(linkType, es) ==> |b| >= 12
    ensures InterfacesOf(FileBlocks(linkType, es)) == [UsbInterface(linkType), InfoInterface()]
    ensures var m := Read(FileBlocks(linkType, es)[i + 3]);
      m == MeaningOf(es[i]) && At(InterfacesOf(FileBlocks(linkType, es)), m, es[i].ts)
  {
    hide Walk, File, Read, Section, UsbInterface, InfoInterface, Print, MeaningOf, InterfacesOf, Framed, At;
    FileIsFramed(linkType, es);
    WalkFramed(FileBlocks(linkType, es));
    FramedIsLong();
    EntriesAreNoInterfaces(es);
    HeadInterfaces(linkType, Blocks(es));
    TimedByInterface(linkType, es[i]);
    assert es[i] in es;
    ReadPrinted(es[i]);
    assert FileBlocks(linkType, es)[i + 3] == Print(es[i]);
  }

  // ---- Info packets ----

  function Be16(p: seq<byte>): nat
    requires |p| >= 2
  {
    0x100 * p[0] as nat + p[1] as nat
  }

  /** The tags in front of an exported packet, big-endian and ended by tag 0, and what follows them. */
  function ReadTags(p: seq<byte>): (seq<Field>, seq<byte>)
    decreases |p|
  {
    if |p| < 4 || |p| < 4 + Be16(p[2..]) then ([], p)
    else
      var n := Be16(p[2..]);
      if Be16(p) == 0 then ([], p[4 + n..])
      else
        var (tags, rest) := ReadTags(p[4 + n..]);
        ([(Be16(p), p[4..4 + n])] + tags, rest)
  }

  /** An info packet names its dissector, "syslog", in tag 12, and the text follows. */
  lemma SyslogSays(text: seq<byte>)
    ensures ReadTags(SyslogTag() + text) == ([(12, Octets("syslog"))], text)
  {
    var p := SyslogTag() + text;
    var q := [0, 0, 0, 0] + text;
    assert p[10..] == q && p[4..10] == Octets("syslog");
    assert q[4..] == text && Be16(q) == 0 && Be16(q[2..]) == 0;
    assert ReadTags(q) == ([], text);
    assert Be16(p) == 12 && Be16(p[2..]) == 6;
    var one: seq<Field> := [(12, Octets("syslog"))];
    assert one + [] == one;
  }

  // ---- Block types and lengths ----

  /** The block types of sections 4.1, 4.2 and 4.3, and equal captured and original lengths. */
  lemma TypesAndLengths(e: Entry, linkType: u16)
    requires Fits(e)
    ensures Le32(Section()) == 0x0a0d0d0a && Le32(UsbInterface(linkType)) == 1 && Le32(InfoInterface()) == 1
    ensures var b := Print(e);
      |b| >= 32 && Le32(b) == 6 && Le32(b[20..]) == Le32(b[24..]) == |MeaningOf(e).payload|
  {
    hide Le32, SectionBody, InterfaceBody, BodyOf, MeaningOf;
    BlockIsFramed(SHB, SectionBody());
    BlockIsFramed(IDB, InterfaceBody(linkType, Octets("usb"), Octets("Hardware USB interface")));
    BlockIsFramed(IDB, InterfaceBody(UPPER_PDU, Octets("info"), Octets("Out of band information")));
    BlockIsFramed(EPB, BodyOf(e));
    EntryLengths(e, Print(e));
  }

  lemma EntryLengths(e: Entry, b: seq<byte>)
    requires Fits(e) && |b| == |BodyOf(e)| + 12 && b[8..|BodyOf(e)| + 8] == BodyOf(e)
    ensures Le32(b[20..]) == Le32(b[24..]) == |MeaningOf(e).payload|
  {
    hide Le32, PutLe32, SyslogTag, PadSize;
    var n, body := |MeaningOf(e).payload|, BodyOf(e);
    var head := PacketHead(if e.UsbFrame? then 0 else 1, e.ts, n);
    Le32RoundTrip(n);
    assert head[12..16] == PutLe32(n) && head[16..20] == PutLe32(n);
    assert body[..20] == head;
    assert forall i :: 0 <= i < 20 ==> b[8 + i] == b[8..|body| + 8][i] == body[..20][i];
    assert b[20..][..4] == head[12..16] && b[24..][..4] == head[16..20];
    Le32Prefix(b[20..]);
    Le32Prefix(b[24..]);
  }
}
