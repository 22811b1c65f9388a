/**
 src/pcapng.c in place: blocks are put together in a fixed buffer and either handed to
 the asynchronous sink or, before pcapng_begin, kept in a staging area that doubles.
 */
module PcapngPrinter {
  import opened Bytes
  import opened PcapngFormat

  const FIRST_STAGE: nat := 65536

  class Pcapng {
    var begun: bool
    // What was given to sink_write so far.
    var sunk: seq<byte>
    const block: array<byte>
    var ptr: nat
    var pend: array<byte>
    var pendLen: nat

    ghost predicate Valid()
      reads this
    {
      && block.Length == MAX_BLOCK && ptr <= MAX_BLOCK && block != pend
      && pendLen <= pend.Length && (pend.Length == 0 || pend.Length >= FIRST_STAGE)
    }

    ghost predicate Ready()
      reads this
    {
      Valid() && ptr == 0
    }

    ghost function Assembled(): seq<byte>
      requires Valid()
      reads this, block
    {
      block[..ptr]
    }

    ghost function Staged(): seq<byte>
      requires Valid()
      reads this, pend
    {
      pend[..pendLen]
    }

    ghost function View(): Output
      requires Valid()
      reads this, pend
    {
      Output(begun, sunk, Staged())
    }

    constructor ()
      ensures Ready() && View() == Output(false, [], []) && fresh(block) && fresh(pend)
    {
      begun, sunk, ptr, pendLen := false, [], 0, 0;
      block := new byte[MAX_BLOCK](i => 0);
      pend := new byte[0];
    }

    // ---- Putting a block together ----

    method PutByte(b: byte)
      requires Valid() && ptr < MAX_BLOCK
      modifies block, `ptr
      ensures Valid() && ptr == old(ptr) + 1 && Assembled() == old(Assembled()) + [b]
    {
      block[ptr] := b;
      ptr := ptr + 1;
    }

    method PutPad()
      requires Valid() && ptr + PadSize(ptr) <= MAX_BLOCK
      modifies block, `ptr
      ensures Valid() && ptr == old(ptr) + PadSize(old(ptr)) && Assembled() == Padded(old(Assembled()))
    {
      ghost var start, n := Assembled(), ptr;
      while ptr % 4 != 0
        invariant Valid() && n <= ptr <= n + PadSize(n)
        invariant Assembled() == start + PadOctets(ptr - n)
        decreases n + 4 - ptr
      {
        PutByte(0);
        assert PadOctets(ptr - n) == PadOctets(ptr - 1 - n) + [0];
      }
    }

    method PutHalf(v: u16)
      requires Valid() && ptr + 2 <= MAX_BLOCK
      modifies block, `ptr
      ensures Valid() && ptr == old(ptr) + 2 && Assembled() == old(Assembled()) + Half(v)
    {
      block[ptr] := v % 0x100;
      block[ptr + 1] := v / 0x100;
      ptr := ptr + 2;
    }

    method PutWord(v: u32)
      requires Valid() && ptr + 4 <= MAX_BLOCK
      modifies block, `ptr
      ensures Valid() && ptr == old(ptr) + 4 && Assembled() == old(Assembled()) + PutLe32(v)
    {
      block[ptr] := WordByte(v, 0);
      block[ptr + 1] := WordByte(v, 1);
      block[ptr + 2] := WordByte(v, 2);
      block[ptr + 3] := WordByte(v, 3);
      ptr := ptr + 4;
    }

    method PutData(data: seq<byte>)
      requires Valid() && ptr + |data| <= MAX_BLOCK
      modifies block, `ptr
      ensures Valid() && ptr == old(ptr) + |data| && Assembled() == old(Assembled()) + data
    {
      forall i | 0 <= i < |data| {
        block[ptr + i] := data[i];
      }
      ptr := ptr + |data|;
    }

    method PutOption(code: u16, value: seq<byte>)
      requires Valid() && |value| < 0x1_0000 && ptr % 4 == 0 && ptr + |Opt(code, value)| <= MAX_BLOCK
      modifies block, `ptr
      ensures Valid() && ptr == old(ptr) + |Opt(code, value)| && Assembled() == old(Assembled()) + Opt(code, value)
    {
      hide PadSize, Padded, Half;
      ghost var start, field := Assembled(), Half(code) + Half(|value|) + value;
      PutHalf(code);
      PutHalf(|value|);
      PutData(value);
      assert Assembled() == start + field;
      PaddedShift(start, field);
      PadShort(|value|);
      PutPad();
    }

    method PutEndOfOptions()
      requires Valid() && ptr % 4 == 0 && ptr + 4 <= MAX_BLOCK
      modifies block, `ptr
      ensures Valid() && ptr == old(ptr) + 4 && Assembled() == old(Assembled()) + EndOfOptions()
    {
      PutOption(0, []);
    }

    static lemma PadShort(n: nat)
      ensures PadSize(4 + n) == PadSize(n)
    {
    }

    // ---- Sending it ----

    /** sink_write: AsyncWriter says what becomes of the octets. */
    method Sink(data: seq<byte>)
      modifies `sunk
      ensures sunk == old(sunk) + data
    {
      sunk := sunk + data;
    }

    /** os_realloc to twice the capacity. */
    method Grow()
      requires Valid()
      modifies `pend
      ensures Valid() && fresh(pend) && Staged() == old(Staged())
      ensures pend.Length == if old(pend.Length) != 0 then 2 * old(pend.Length) else FIRST_STAGE
    {
      var cap := if pend.Length != 0 then pend.Length * 2 else FIRST_STAGE;
      var old_pend := pend;
      var bigger := new byte[cap](
        i requires 0 <= i < cap reads old_pend => if i < old_pend.Length then old_pend[i] else 0);
      pend := bigger;
    }

    /** One doubling always makes room for one more block. */
    method Stage()
      requires Valid()
      modifies pend, `pend, `pendLen
      ensures Valid() && (pend == old(pend) || fresh(pend))
      ensures Staged() == old(Staged()) + old(Assembled())
    {
      ghost var staged, assembled := Staged(), Assembled();
      if pendLen + ptr > pend.Length {
        Grow();
      }
      assert pendLen + ptr <= pend.Length && Assembled() == assembled && Staged() == staged;
      forall i | 0 <= i < ptr {
        pend[pendLen + i] := block[i];
      }
      pendLen := pendLen + ptr;
      assert pend[..pendLen] == staged + assembled;
    }

    /** Close the block: its length goes behind it and over the placeholder in front. */
    method PatchLength()
      requires Valid() && 8 <= ptr && ptr + 4 <= MAX_BLOCK
      modifies block, `ptr
      ensures Valid()
      ensures Assembled()
        == old(Assembled())[..4] + PutLe32(old(ptr) + 4) + old(Assembled())[8..] + PutLe32(old(ptr) + 4)
    {
      ghost var start := Assembled();
      var size := ptr + 4;
      PutWord(size);
      assert Assembled() == start + PutLe32(size);
      block[4] := WordByte(size, 0);
      block[5] := WordByte(size, 1);
      block[6] := WordByte(size, 2);
      block[7] := WordByte(size, 3);
      assert Assembled() == start[..4] + PutLe32(size) + start[8..] + PutLe32(size);
    }

    /** The whole of what sending octets does: appended to the file, or to the stage. */
    twostate predicate Sent(data: seq<byte>)
      reads this, block, pend
    {
      && Ready() && old(Valid()) && (pend == old(pend) || fresh(pend))
      && View() == Deliver(old(View()), data)
    }

    method SendBuffer(ghost kind: u32, ghost body: seq<byte>)
      requires Valid() && |body| + 12 <= MAX_BLOCK
      requires Assembled() == PutLe32(kind) + PutLe32(0) + body
      modifies block, `ptr, pend, `pend, `pendLen, `sunk
      ensures Sent(Block(kind, body))
    {
      PatchLength();
      assert Assembled() == Block(kind, body);
      if begun {
        Sink(block[..ptr]);
      } else {
        Stage();
      }
      ptr := 0;
    }

    method PutBlockType(kind: u32)
      requires Ready()
      modifies block, `ptr
      ensures Valid() && ptr == 8 && Assembled() == PutLe32(kind) + PutLe32(0)
    {
      PutWord(kind);
      PutWord(0);
    }

    // ---- The blocks ----

    method PutSectionStart()
      requires Valid() && ptr + 16 <= MAX_BLOCK
      modifies block, `ptr
      ensures Valid() && ptr == old(ptr) + 16 && Assembled() == old(Assembled()) + SectionStartFields()
    {
      hide PutLe32, Half;
      PutWord(BYTE_ORDER_MAGIC);
      PutHalf(1);
      PutHalf(0);
      PutWord(0xffff_ffff);
      PutWord(0xffff_ffff);
    }

    method WriteFileHeader()
      requires Ready()
      modifies block, `ptr, pend, `pend, `pendLen, `sunk
      ensures Sent(Section())
    {
      hide Block, SectionStartFields, Opt, Octets;
      PutBlockType(SHB);
      ghost var start := Assembled();
      PutSectionStart();
      PutOption(2, Octets("USB Sniffer 2"));
      PutEndOfOptions();
      assert Assembled() == start + SectionBody();
      SendBuffer(SHB, SectionBody());
    }

    method PutInterfaceStart(linkType: u16)
      requires Valid() && ptr + 8 <= MAX_BLOCK
      modifies block, `ptr
      ensures Valid() && ptr == old(ptr) + 8 && Assembled() == old(Assembled()) + InterfaceStart(linkType)
    {
      hide PutLe32, Half;
      PutHalf(linkType);
      PutHalf(0);
      PutWord(0xffff);
    }

    method PutResolution()
      requires Valid() && ptr + 8 <= MAX_BLOCK
      modifies block, `ptr
      ensures Valid() && ptr == old(ptr) + 8 && Assembled() == old(Assembled()) + Resolution()
    {
      hide PutLe32, Half;
      PutHalf(9);
      PutHalf(1);
      PutWord(9);
    }

    method PutNames(name: seq<byte>, description: seq<byte>)
      requires Valid() && |name| < 100 && |description| < 100 && ptr % 4 == 0 && ptr + 214 <= MAX_BLOCK
      modifies block, `ptr
      ensures Valid() && ptr == old(ptr) + |Names(name, description)|
      ensures Assembled() == old(Assembled()) + Names(name, description)
    {
      hide Opt;
      PutOption(2, name);
      PutOption(3, description);
    }

    method PutInterfaceBody(linkType: u16, name: seq<byte>, description: seq<byte>)
      requires Valid() && |name| < 100 && |description| < 100 && ptr % 4 == 0 && ptr + 240 <= MAX_BLOCK
      modifies block, `ptr
      ensures Valid() && Assembled() == old(Assembled()) + InterfaceBody(linkType, name, description)
    {
      hide InterfaceStart, Resolution, Names, EndOfOptions, Padded, Opt;
      ghost var start := Assembled();
      PutInterfaceStart(linkType);
      AlignedSum(ptr, |Names(name, description)|);
      PutNames(name, description);
      PutResolution();
      PutEndOfOptions();
      Regroup(start, InterfaceStart(linkType), Names(name, description), Resolution(), EndOfOptions());
    }

    static lemma Regroup(s: seq<byte>, a: seq<byte>, b: seq<byte>, c: seq<byte>, d: seq<byte>)
      ensures s + a + b + c + d == s + (a + b + c + d)
    {
    }

    /** write_usb_header and write_info_header differ in the three values. */
    method WriteInterface(linkType: u16, name: seq<byte>, description: seq<byte>)
      requires Ready() && |name| < 100 && |description| < 100
      modifies block, `ptr, pend, `pend, `pendLen, `sunk
      ensures Sent(Block(IDB, InterfaceBody(linkType, name, description)))
    {
      hide Block, InterfaceBody;
      PutBlockType(IDB);
      PutInterfaceBody(linkType, name, description);
      SendBuffer(IDB, InterfaceBody(linkType, name, description));
    }

    method PutPacketHead(iface: u32, ts: u64, n: nat)
      requires Valid() && n < 0x1_0000_0000 && ptr + 20 <= MAX_BLOCK
      modifies block, `ptr
      ensures Valid() && ptr == old(ptr) + 20 && Assembled() == old(Assembled()) + PacketHead(iface, ts, n)
    {
      hide PutLe32;
      ghost var start := Assembled();
      PutWord(iface);
      PutWord(ts / 0x1_0000_0000);
      PutWord(ts % 0x1_0000_0000);
      PutWord(n);
      PutWord(n);
      assert Assembled() == start + PacketHead(iface, ts, n);
    }

    method PutFrameBody(ts: u64, data: seq<byte>)
      requires Valid() && ptr == 8 && Fits(UsbFrame(ts, data))
      modifies block, `ptr
      ensures Valid() && Assembled() == old(Assembled()) + BodyOf(UsbFrame(ts, data))
    {
      hide PutLe32, PacketHead, Padded, EndOfOptions;
      ghost var start, head := Assembled(), PacketHead(0, ts, |data|);
      PutPacketHead(0, ts, |data|);
      PutData(data);
      PaddedShift(start + head, data);
      PutPad();
      PutEndOfOptions();
      Regroup3(start, head, Padded(data), EndOfOptions());
      Regroup2(head, Padded(data), EndOfOptions());
    }

    method WriteEpb(ts: u64, data: seq<byte>)
      requires Ready() && Fits(UsbFrame(ts, data))
      modifies block, `ptr, pend, `pend, `pendLen, `sunk
      ensures Sent(Print(UsbFrame(ts, data)))
    {
      hide BodyOf, Block, PutLe32;
      PutBlockType(EPB);
      PutFrameBody(ts, data);
      SendBuffer(EPB, BodyOf(UsbFrame(ts, data)));
    }

    method PutInfoBody(ts: u64, text: seq<byte>)
      requires Valid() && ptr == 8 && Fits(InfoText(ts, text))
      modifies block, `ptr
      ensures Valid() && Assembled() == old(Assembled()) + BodyOf(InfoText(ts, text))
    {
      hide PutLe32, PacketHead, SyslogTag, Padded, PadSize;
      ghost var start, head := Assembled(), PacketHead(1, ts, 14 + |text|);
      PutPacketHead(1, ts, 14 + |text|);
      PutData(SyslogTag());
      PutData(text);
      Regroup2(start + head, SyslogTag(), text);
      PaddedShift(start + head, SyslogTag() + text);
      PutPad();
      Regroup2(start, head, Padded(SyslogTag() + text));
    }

    method WriteInfo(ts: u64, text: seq<byte>)
      requires Ready() && Fits(InfoText(ts, text))
      modifies block, `ptr, pend, `pend, `pendLen, `sunk
      ensures Sent(Print(InfoText(ts, text)))
    {
      hide BodyOf, Block, PutLe32;
      PutBlockType(EPB);
      PutInfoBody(ts, text);
      SendBuffer(EPB, BodyOf(InfoText(ts, text)));
    }

    static lemma Regroup2(a: seq<byte>, b: seq<byte>, c: seq<byte>)
      ensures a + b + c == a + (b + c)
    {
    }

    /** SHB, then the two IDBs. */
    method WriteHead(linkType: u16)
      requires Ready() && begun
      modifies block, `ptr, pend, `pend, `pendLen, `sunk
      ensures Sent(Head(linkType))
    {
      hide Section, InterfaceBody, Block, Staged;
      WriteFileHeader();
      WriteInterface(linkType, Octets("usb"), Octets("Hardware USB interface"));
      WriteInterface(UPPER_PDU, Octets("info"), Octets("Out of band information"));
      Regroup3(old(sunk), Section(), UsbInterface(linkType), InfoInterface());
    }

    static lemma Regroup3(s: seq<byte>, a: seq<byte>, b: seq<byte>, c: seq<byte>)
      ensures s + a + b + c == s + (a + (b + c))
    {
    }

    /** The head of the file goes out before what was staged. */
    method Begin(linkType: u16)
      requires Ready() && !begun
      modifies this, block, pend
      ensures Ready() && begun && (pend == old(pend) || fresh(pend))
      ensures View() == Open(old(View()), linkType)
    {
      hide Head;
      ghost var staged := Staged();
      begun := true;
      WriteHead(linkType);
      assert Staged() == staged;
      if pendLen != 0 {
        Sink(pend[..pendLen]);
      }
    }
  }
}
