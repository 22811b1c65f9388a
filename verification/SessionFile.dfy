/**
 All layers in one: what was on the bus comes out of the file. The packet layer's records
 become pcapng entries, with any wording of the info records that fits the source's 512
 characters, and a reader finds on interface 0 exactly the frames that were sent and on
 interface 1 the texts of the info records.
 */
module SessionFile {
  import opened Bytes
  import opened BlockParse
  import opened PacketModel
  import opened Walker
  import opened FoldLaws
  import opened TimeLaws
  import opened PacketCalls
  import opened FrameBounds
  import opened Frames
  import opened EndToEnd
  import P = PcapngFormat
  import B = BufferRing
  import W = AsyncWriter
  import Recording

  const MAX_TEXT: nat := 511

  ghost predicate Wording(text: Note -> seq<byte>) { forall n :: |text(n)| <= MAX_TEXT }

  function EntryOf(text: Note -> seq<byte>, r: Record): P.Entry {
    match r
    case Frame(ts, data, _) => P.UsbFrame(ts, data)
    case Info(ts, note) => P.InfoText(ts, text(note))
  }

  function Entries(text: Note -> seq<byte>, rs: seq<Record>): seq<P.Entry> {
    seq(|rs|, i requires 0 <= i < |rs| => EntryOf(text, rs[i]))
  }

  /** The times and octets of the frames among some records. */
  function Pairs(rs: seq<Record>): seq<(u64, seq<byte>)> {
    if rs == [] then []
    else Pairs(rs[..|rs| - 1]) + (if rs[|rs| - 1].Frame? then [(rs[|rs| - 1].ts, rs[|rs| - 1].data)] else [])
  }

  /** The times and wording of the info records among some records, as interface 1 carries them. */
  function Texts(text: Note -> seq<byte>, rs: seq<Record>): seq<(u64, seq<byte>)> {
    if rs == [] then []
    else Texts(text, rs[..|rs| - 1]) + TextOf(text, rs[|rs| - 1])
  }

  function TextOf(text: Note -> seq<byte>, r: Record): seq<(u64, seq<byte>)> {
    if r.Info? then [(r.ts, P.SyslogTag() + text(r.note))] else []
  }

  lemma PairsSnoc(rs: seq<Record>, r: Record)
    ensures Pairs(rs + [r]) == Pairs(rs) + (if r.Frame? then [(r.ts, r.data)] else [])
  {
    assert (rs + [r])[..|rs|] == rs;
  }

  lemma {:induction false} PairsOfFrames(rs: seq<Record>)
    ensures Pairs(Select(AllFrames, rs)) == Pairs(rs)
  {
    if rs != [] {
      var n := |rs| - 1;
      PairsOfFrames(rs[..n]);
      if rs[n].Frame? {
        PairsSnoc(Select(AllFrames, rs[..n]), rs[n]);
      } else {
        assert Select(AllFrames, rs) == Select(AllFrames, rs[..n]) && Pairs(rs) == Pairs(rs[..n]);
      }
    }
  }

  /** Every record of any session fits the block buffer, the info records too. */
  lemma RecordsFit(text: Note -> seq<byte>, s: State)
    requires Wording(text) && AllBounded(Shown(s))
    ensures P.AllFit(Entries(text, s.out))
  {
    hide Shown;
    forall e | e in Entries(text, s.out) ensures P.Fits(e) {
      var i :| 0 <= i < |s.out| && e == EntryOf(text, s.out[i]);
      if s.out[i].Frame? { ShownFits(s, s.out[i]); } else { TextFits(s.out[i].ts, text(s.out[i].note)); }
    }
  }

  lemma TextFits(ts: u64, t: seq<byte>)
    requires |t| <= MAX_TEXT
    ensures P.Fits(P.InfoText(ts, t))
  {
  }

  lemma OneMore(linkType: P.u16, text: Note -> seq<byte>, rs: seq<Record>, r: Record)
    requires P.AllFit(Entries(text, rs + [r]))
    ensures P.AllFit(Entries(text, rs)) && P.Fits(EntryOf(text, r))
    ensures P.FileBlocks(linkType, Entries(text, rs + [r]))
      == P.FileBlocks(linkType, Entries(text, rs)) + [P.Print(EntryOf(text, r))]
  {
    hide P.Print, P.Section, P.UsbInterface, P.InfoInterface, P.Fits;
    var es, fs := Entries(text, rs + [r]), Entries(text, rs);
    assert es == fs + [EntryOf(text, r)];
    assert forall e :: e in fs ==> e in es;
    assert es[|rs|] in es;
  }

  lemma PrintedPacket(text: Note -> seq<byte>, r: Record)
    requires P.Fits(EntryOf(text, r))
    ensures var b := P.Print(EntryOf(text, r));
      && |b| >= 12
      && (if P.Read(b).Packet? && P.Read(b).iface == 0 then [(P.Read(b).ts, P.Read(b).payload)] else [])
         == (if r.Frame? then [(r.ts, r.data)] else [])
      && (if P.Read(b).Packet? && P.Read(b).iface == 1 then [(P.Read(b).ts, P.Read(b).payload)] else [])
        == TextOf(text, r)
  {
    hide P.Print, P.Read, P.Fits, P.SyslogTag;
    PrintLong(EntryOf(text, r));
    P.ReadPrinted(EntryOf(text, r));
  }

  /** What a reader collects from a printed file: the frames on interface 0, the texts on interface 1. */
  lemma {:induction false} FilePackets(linkType: P.u16, text: Note -> seq<byte>, rs: seq<Record>)
    requires P.AllFit(Entries(text, rs))
    ensures var blocks := P.FileBlocks(linkType, Entries(text, rs));
      && (forall b :: b in blocks ==> |b| >= 12)
      && P.PacketsOf(blocks, 0) == Pairs(rs) && P.PacketsOf(blocks, 1) == Texts(text, rs)
  {
    hide P.Print, P.Read, P.FileBlocks, P.PacketsOf, P.Fits, Entries, EntryOf, P.AllFit, TextOf;
    LongBlocks(linkType, Entries(text, rs));
    if rs == [] {
      NoEntries(linkType, text);
    } else {
      var n := |rs| - 1;
      var fs := Entries(text, rs[..n]);
      assert rs == rs[..n] + [rs[n]];
      OneMore(linkType, text, rs[..n], rs[n]);
      FilePackets(linkType, text, rs[..n]);
      PrintedPacket(text, rs[n]);
      P.Snoc(P.FileBlocks(linkType, fs), P.Print(EntryOf(text, rs[n])));
    }
  }

  lemma NoEntries(linkType: P.u16, text: Note -> seq<byte>)
    ensures P.AllFit(Entries(text, []))
    ensures var blocks := P.FileBlocks(linkType, Entries(text, []));
      (forall b :: b in blocks ==> |b| >= 12) && P.PacketsOf(blocks, 0) == [] && P.PacketsOf(blocks, 1) == []
  {
    hide P.Section, P.UsbInterface, P.InfoInterface, P.PacketsOf;
    HeadHasNoPackets(linkType);
    assert P.FileBlocks(linkType, Entries(text, [])) == [P.Section(), P.UsbInterface(linkType), P.InfoInterface()];
  }

  lemma PrintLong(e: P.Entry)
    requires P.Fits(e)
    ensures |P.Print(e)| >= 12
  {
  }

  lemma LongBlocks(linkType: P.u16, es: seq<P.Entry>)
    requires P.AllFit(es)
    ensures forall b :: b in P.FileBlocks(linkType, es) ==> |b| >= 12
  {
    hide P.Print, P.FileBlocks;
    P.FileIsFramed(linkType, es);
  }

  lemma HeadHasNoPackets(linkType: P.u16)
    ensures var head := [P.Section(), P.UsbInterface(linkType), P.InfoInterface()];
      (forall b :: b in head ==> |b| >= 12) && P.PacketsOf(head, 0) == [] && P.PacketsOf(head, 1) == []
  {
    hide P.Section, P.UsbInterface, P.InfoInterface, P.Read;
    P.HeadBlocks(linkType);
    ThreeQuietBlocks(P.Section(), P.UsbInterface(linkType), P.InfoInterface());
  }

  lemma ThreeQuietBlocks(a: seq<byte>, b: seq<byte>, c: seq<byte>)
    requires |a| >= 12 && |b| >= 12 && |c| >= 12 && !P.Read(a).Packet? && !P.Read(b).Packet? && !P.Read(c).Packet?
    ensures (forall x :: x in [a, b, c] ==> |x| >= 12)
    ensures P.PacketsOf([a, b, c], 0) == [] && P.PacketsOf([a, b, c], 1) == []
  {
    hide P.Read, P.PacketsOf;
    P.EmptyLists();
    P.Snoc([], a);
    assert [] + [a] == [a];
    P.Snoc([a], b);
    assert [a] + [b] == [a, b];
    P.Snoc([a, b], c);
    assert [a, b] + [c] == [a, b, c];
  }

  // ---- The closed file ----

  /** What was written is what the printer makes of the entries before and after the beginning of the file. */
  predicate Printed(before: seq<P.Entry>, linkType: P.u16, after: seq<P.Entry>, written: seq<byte>) {
    && P.AllFit(before) && P.AllFit(after)
    && written == P.DeliverAll(P.Open(P.DeliverAll(P.Output(false, [], []), before), linkType), after).sunk
  }

  /** A reader lists these packets for the two interfaces. */
  predicate Shows(file: seq<byte>, usb: seq<(u64, seq<byte>)>, info: seq<(u64, seq<byte>)>) {
    var blocks := P.Walk(file);
    (forall b :: b in blocks ==> |b| >= 12) && P.PacketsOf(blocks, 0) == usb && P.PacketsOf(blocks, 1) == info
  }

  /** These records were printed, in whatever interleaving written, and the file closed without a failed write. */
  ghost predicate Recorded(text: Note -> seq<byte>, rs: seq<Record>, mem: seq<seq<byte>>, steps: seq<W.Step>,
                           linkType: P.u16, begin: nat) {
    && B.IsMemory(mem) && W.IsRun(W.Init(mem), steps)
    && begin <= |rs|
    && Printed(Entries(text, rs)[..begin], linkType, Entries(text, rs)[begin..], W.Written(steps, false))
    && W.After(W.Init(mem), steps).producer.Closed? && !W.After(W.Init(mem), steps).wrErr
  }

  lemma FileShows(linkType: P.u16, es: seq<P.Entry>)
    requires P.AllFit(es)
    ensures P.Walk(P.File(linkType, es)) == P.FileBlocks(linkType, es)
  {
    hide P.Print, P.FileBlocks;
    P.FileIsFramed(linkType, es);
    P.WalkFramed(P.FileBlocks(linkType, es));
  }

  lemma RecordedShows(text: Note -> seq<byte>, rs: seq<Record>, mem: seq<seq<byte>>, steps: seq<W.Step>,
                      linkType: P.u16, begin: nat)
    requires Recorded(text, rs, mem, steps, linkType, begin)
    ensures Shows(W.After(W.Init(mem), steps).file, Pairs(rs), Texts(text, rs))
  {
    hide W.IsRun, W.After, W.Written, B.IsMemory, P.Walk, P.File, P.FileBlocks, P.PacketsOf, P.DeliverAll, P.Open,
         Pairs, Texts, EntryOf;
    var es := Entries(text, rs);
    assert es[..begin] + es[begin..] == es;
    Recording.ClosedSessionReads(mem, steps, es[..begin], linkType, es[begin..]);
    FileShows(linkType, es);
    FilePackets(linkType, text, rs);
  }

  /** Whatever bytes, losses and messages a session sees, every record of it fits. */
  lemma SessionFits(o: Opts, limit: int, cs: seq<Call>, text: Note -> seq<byte>)
    requires Wording(text)
    ensures var s := Announce(o, Fresh(limit)); WalkOk(s.w) && P.AllFit(Entries(text, OnCalls(o, s, cs).out))
  {
    hide OnCalls, Shown, FoldShape, Wording, P.AllFit, Entries, Announce, WalkOk;
    var s := Announce(o, Fresh(limit));
    AnnouncedShowsNothing(o, limit);
    CallsStayBounded(o, s, cs);
    RecordsFit(text, OnCalls(o, s, cs));
  }

  lemma AnnouncedShowsNothing(o: Opts, limit: int)
    ensures var s := Announce(o, Fresh(limit)); WalkOk(s.w) && FoldOk(o, s) && AllBounded(Shown(s))
  {
    NothingShown(Announce(o, Fresh(limit)));
  }

  /**
   Any session, with losses and messages in it, under any option and record limit: the
   closed file shows every record, the frames on interface 0 and the texts on interface 1,
   in the order in which the packet layer wrote them.
   */
  lemma SessionIsRead(o: Opts, limit: int, cs: seq<Call>, text: Note -> seq<byte>,
                      mem: seq<seq<byte>>, steps: seq<W.Step>, linkType: P.u16, begin: nat)
    requires var s := Announce(o, Fresh(limit));
      WalkOk(s.w) && Recorded(text, OnCalls(o, s, cs).out, mem, steps, linkType, begin)
    ensures var t := OnCalls(o, Announce(o, Fresh(limit)), cs);
      Shows(W.After(W.Init(mem), steps).file, Pairs(t.out), Texts(text, t.out))
  {
    hide OnCalls, Recorded, Shows, Pairs, Texts;
    RecordedShows(text, OnCalls(o, Announce(o, Fresh(limit)), cs).out, mem, steps, linkType, begin);
  }

  // ---- From the bus to the reader ----

  /**
   From the bus to the reader: frames sent, cut into blocks and transfers in any way,
   parsed, interpreted without folding, printed partly before and partly after the file
   was begun, and written by the second thread in any interleaving. Once the file is
   closed without a failed write, interface 0 holds exactly the frames that the trigger
   lets through, with their times, in order.
   */
  lemma SentIsRead(o: Opts, fs: seq<Sent>, payloads: seq<seq<byte>>, chmask: nat, capturing: bool, seqNo: nat,
                   transfers: seq<seq<byte>>, text: Note -> seq<byte>, mem: seq<seq<byte>>, steps: seq<W.Step>,
                   linkType: P.u16, begin: nat)
    requires Session(fs, payloads, chmask, capturing, seqNo, transfers) && !o.foldEmpty
    requires Recorded(text, OnEvents(o, Begun(o), Parse(START, Flatten(transfers))).out, mem, steps, linkType, begin)
    ensures var t := OnEvents(o, Begun(o), Parse(START, Flatten(transfers)));
      Shows(W.After(W.Init(mem), steps).file, Pairs(Interpret(o.trigger, FirstGate(o), fs)), Texts(text, t.out))
  {
    hide Session, WalkOk, Begun, OnEvents, Parse, Select, Interpret, Recorded, Shows, Pairs, Texts;
    var t := OnEvents(o, Begun(o), Parse(START, Flatten(transfers)));
    FramesComeBack(o, fs, payloads, chmask, capturing, seqNo, transfers);
    PairsOfFrames(t.out);
    RecordedShows(text, t.out, mem, steps, linkType, begin);
  }

  /** The packets that folding never touches. */
  function Solid(ps: seq<(u64, seq<byte>)>): seq<(u64, seq<byte>)> {
    if ps == [] then []
    else Solid(ps[..|ps| - 1]) + (if Foldable(ps[|ps| - 1].1) then [] else [ps[|ps| - 1]])
  }

  function OctetsOf(ps: seq<(u64, seq<byte>)>): seq<seq<byte>> { seq(|ps|, i requires 0 <= i < |ps| => ps[i].1) }

  lemma SolidSnoc(ps: seq<(u64, seq<byte>)>, p: (u64, seq<byte>))
    ensures Solid(ps + [p]) == Solid(ps) + (if Foldable(p.1) then [] else [p])
  {
    assert (ps + [p])[..|ps|] == ps;
  }

  lemma SelectSnoc(v: View, rs: seq<Record>)
    requires rs != []
    ensures var a, r := Select(v, rs[..|rs| - 1]), rs[|rs| - 1];
      Pairs(Select(v, rs)) == Pairs(a) + (if InView(v, r) && r.Frame? then [(r.ts, r.data)] else [])
  {
    var a, r := Select(v, rs[..|rs| - 1]), rs[|rs| - 1];
    PairsSnoc(a, r);
    assert Select(v, rs) == a + (if InView(v, r) then [r] else []);
    assert a + [] == a;
  }

  lemma {:induction false} SolidOfSelected(rs: seq<Record>)
    ensures Solid(Pairs(Select(SolidFrames, rs))) == Solid(Pairs(rs))
  {
    hide Foldable, Select;
    if rs != [] {
      var n := |rs| - 1;
      var a := Pairs(Select(SolidFrames, rs[..n]));
      SolidOfSelected(rs[..n]);
      SelectSnoc(SolidFrames, rs);
      if rs[n].Frame? {
        SolidSnoc(a, (rs[n].ts, rs[n].data));
        SolidSnoc(Pairs(rs[..n]), (rs[n].ts, rs[n].data));
      }
      assert a + [] == a && Pairs(rs[..n]) + [] == Pairs(rs[..n]);
    } else {
      NothingSelected(SolidFrames);
    }
  }

  lemma NothingSelected(v: View)
    ensures Select(v, []) == []
  {
  }

  lemma {:induction false} PairsAreLoads(rs: seq<Record>)
    ensures OctetsOf(Pairs(rs)) == Loads(rs)
  {
    if rs != [] {
      PairsAreLoads(rs[..|rs| - 1]);
    }
  }

  lemma {:induction false} SelectedPairs(v: View, rs: seq<Record>)
    ensures Sub(Pairs(Select(v, rs)), Pairs(rs))
  {
    hide Select, Sub, InView;
    if rs != [] {
      var n := |rs| - 1;
      var a := Pairs(Select(v, rs[..n]));
      SelectedPairs(v, rs[..n]);
      SelectSnoc(v, rs);
      if rs[n].Frame? {
        SubPush(a, Pairs(rs[..n]), (rs[n].ts, rs[n].data));
        SubSkip(a, Pairs(rs[..n]), (rs[n].ts, rs[n].data));
      }
      assert a + [] == a && Pairs(rs[..n]) + [] == Pairs(rs[..n]);
    } else {
      NothingSelected(v);
      SubRefl(Pairs([]));
    }
  }

  /**
   The same with folding: the frames received with an error or of another kind than
   start-of-frame, IN and NAK are all there with their times, the packets of those other
   kinds are exactly those sent, and nothing is there that was not sent.
   */
  lemma SentIsReadFolded(o: Opts, fs: seq<Sent>, payloads: seq<seq<byte>>, chmask: nat, capturing: bool, seqNo: nat,
                         transfers: seq<seq<byte>>, text: Note -> seq<byte>, mem: seq<seq<byte>>, steps: seq<W.Step>,
                         linkType: P.u16, begin: nat)
    requires Session(fs, payloads, chmask, capturing, seqNo, transfers) && o.foldEmpty
    requires Recorded(text, OnEvents(o, Begun(o), Parse(START, Flatten(transfers))).out, mem, steps, linkType, begin)
    ensures var t := OnEvents(o, Begun(o), Parse(START, Flatten(transfers)));
      var rs, usb := Interpret(o.trigger, FirstGate(o), fs), Pairs(t.out);
      && Shows(W.After(W.Init(mem), steps).file, usb, Texts(text, t.out))
      && Sub(Pairs(Select(SolidFrames, rs)), usb) && Solid(usb) == Solid(Pairs(rs)) && Sub(OctetsOf(usb), Loads(rs))
  {
    hide Session, WalkOk, Begun, OnEvents, Parse, Select, Interpret, Recorded, Shows, Pairs, Texts, Solid, OctetsOf,
         Loads, BufLoads, Sub;
    var t, rs := OnEvents(o, Begun(o), Parse(START, Flatten(transfers))), Interpret(o.trigger, FirstGate(o), fs);
    FoldedFramesComeBack(o, fs, payloads, chmask, capturing, seqNo, transfers);
    SolidOfSelected(t.out);
    SolidOfSelected(rs);
    SelectedPairs(SolidFrames, t.out);
    PairsAreLoads(t.out);
    SubPrefix(Loads(t.out), BufLoads(t.foldBuf), Loads(rs));
    RecordedShows(text, t.out, mem, steps, linkType, begin);
  }
}
