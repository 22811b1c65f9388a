/**
 The gen2 pipeline end to end: frames are printed, cut into blocks, the blocks cut into
 transfers; the stream parser and the packet layer give the frames back.
 */
module EndToEnd {
  import opened Bytes
  import opened UhsifBlock
  import opened BlockParse
  import opened BlockLaws
  import opened PacketModel
  import opened Walker
  import opened FoldLaws
  import opened TimeLaws
  import opened PacketCalls
  import opened Frames
  import opened Timestamps

  /** The callbacks of src/main.c. */
  function OnEvent(o: Opts, s: State, e: Event): (t: State)
    requires WalkOk(s.w)
    ensures WalkOk(t.w)
  {
    match e
    case Ack => s
    case Data(d) => Feed(o, s, d)
    case Rsync => Now(o, s, LinkLoss)
  }

  function OnEvents(o: Opts, s: State, es: seq<Event>): (t: State)
    requires WalkOk(s.w)
    ensures WalkOk(t.w)
    decreases |es|
  {
    if es == [] then s else OnEvents(o, OnEvent(o, s, es[0]), es[1..])
  }

  function CallsOf(es: seq<Event>): seq<Call> {
    if es == [] then []
    else
      (match es[0]
       case Ack => []
       case Data(d) => [FeedBytes(d)]
       case Rsync => [LinkLost])
      + CallsOf(es[1..])
  }

  /** So what PacketCalls proves holds for any stream the parser makes sense of, losses included. */
  lemma {:induction false} EventsAreCalls(o: Opts, s: State, es: seq<Event>)
    requires WalkOk(s.w)
    ensures OnEvents(o, s, es) == OnCalls(o, s, CallsOf(es))
    decreases |es|
  {
    hide WalkOk, Feed, Now;
    if es != [] {
      EventsAreCalls(o, OnEvent(o, s, es[0]), es[1..]);
      if es[0].Ack? { assert CallsOf(es) == CallsOf(es[1..]); } else { assert CallsOf(es)[1..] == CallsOf(es[1..]); }
    }
  }

  lemma {:induction false} FeedConcat(o: Opts, s: State, a: seq<byte>, b: seq<byte>)
    requires WalkOk(s.w)
    ensures Feed(o, Feed(o, s, a), b) == Feed(o, s, a + b)
    decreases |a|
  {
    hide CaptureSm, WalkOk;
    if a == [] {
      assert a + b == b;
    } else if !s.done {
      SameWalk(o, s, a[0]);
      FeedConcat(o, CaptureSm(o, s, a[0]), a[1..], b);
      assert (a + b)[0] == a[0] && (a + b)[1..] == a[1..] + b;
    }
  }

  /** Delivering the blocks one by one is feeding all their octets. */
  lemma {:induction false} PayloadsFeed(o: Opts, s: State, payloads: seq<seq<byte>>)
    requires WalkOk(s.w)
    ensures OnEvents(o, s, EventsOf(payloads)) == Feed(o, s, Flatten(payloads))
    decreases |payloads|
  {
    hide WalkOk;
    if payloads != [] {
      var p := payloads[0];
      var es := EventsOf(payloads);
      assert es[1..] == EventsOf(payloads[1..]);
      assert OnEvent(o, s, es[0]) == Feed(o, s, p);
      PayloadsFeed(o, Feed(o, s, p), payloads[1..]);
      FeedConcat(o, s, p, Flatten(payloads[1..]));
    }
  }

  /** A capture that has just begun. */
  function Begun(o: Opts): (s: State)
    ensures WalkOk(s.w)
  {
    Announce(o, Fresh(0))
  }

  function FirstGate(o: Opts): Gate { Gate(o.trigger.Disabled?, -1) }

  lemma BegunIsBetween(o: Opts)
    ensures var s := Begun(o);
      && Between(s.w, 0, 0, FirstGate(o)) && s.limit == 0 && !s.done && s.foldBuf == [] && s.foldCount == 0
      && |s.out| == 1 && s.out[0].Info? && !InView(Diagnostics, s.out[0])
  {
    assert Epoch(0) == 0;
  }

  /** The frames, the blocks and the transfers of one capture. */
  predicate Session(fs: seq<Sent>, payloads: seq<seq<byte>>, chmask: nat, capturing: bool, seqNo: nat,
                    transfers: seq<seq<byte>>) {
    && AllLegal(fs) && ClockOk(fs, 0)
    && (forall p :: p in payloads ==> LegalPayload(p))
    && (exists n :: 0 <= n < 4 && Flatten(payloads) == PrintFrames(fs, 0, 0) + Filler(n))
    && Flatten(transfers) == PrintBlocks(chmask, capturing, payloads, seqNo)
  }

  lemma FramesWalked(o: Opts, fs: seq<Sent>, n: nat)
    requires AllLegal(fs) && ClockOk(fs, 0) && n < 4
    ensures WalkAll(o.trigger, Begun(o).w, PrintFrames(fs, 0, 0) + Filler(n)).1
      == Interpret(o.trigger, FirstGate(o), fs)
  {
    hide WalkOk, Begun, Filler, Interpret;
    var w, p := Begun(o).w, PrintFrames(fs, 0, 0);
    BegunIsBetween(o);
    BetweenIsOk(w, 0, 0, FirstGate(o));
    FramesRoundTrip(o.trigger, w, fs, 0, 0, FirstGate(o));
    FillerIsSilent(o.trigger, WalkAll(o.trigger, w, p).0, n);
    WalkConcat(o.trigger, w, p, Filler(n));
    var rs := Interpret(o.trigger, FirstGate(o), fs);
    assert rs + NOTHING == rs;
  }

  lemma BlocksDelivered(fs: seq<Sent>, payloads: seq<seq<byte>>, chmask: nat, capturing: bool, seqNo: nat,
                        transfers: seq<seq<byte>>)
    requires Session(fs, payloads, chmask, capturing, seqNo, transfers)
    ensures Parse(START, Flatten(transfers)) == EventsOf(payloads)
  {
    hide LegalPayload, PrintBlocks, AllLegal, ClockOk, PrintFrames;
    var s := PrintBlocks(chmask, capturing, payloads, seqNo);
    BlocksRoundTrip(START, chmask, capturing, payloads, seqNo, []);
    assert s + [] == s;
    var y := if payloads == [] then START else Sync(true, Seq((seqNo + |payloads| - 1) % 256));
    assert Parse(y, []) == [];
  }

  /** One session as the packet layer sees it. */
  lemma SessionRuns(o: Opts, fs: seq<Sent>, payloads: seq<seq<byte>>, chmask: nat, capturing: bool, seqNo: nat,
                    transfers: seq<seq<byte>>)
    requires Session(fs, payloads, chmask, capturing, seqNo, transfers)
    ensures var es := Parse(START, Flatten(transfers));
      Rsync !in es && Effect(o, Begun(o), OnEvents(o, Begun(o), es), Interpret(o.trigger, FirstGate(o), fs))
  {
    hide LegalPayload, PrintBlocks, AllLegal, ClockOk, PrintFrames, WalkOk, Begun, Filler, WalkAll, FoldShape, Carries,
         Adds;
    var n :| 0 <= n < 4 && Flatten(payloads) == PrintFrames(fs, 0, 0) + Filler(n);
    var bytes, s := Flatten(payloads), Begun(o);
    BlocksDelivered(fs, payloads, chmask, capturing, seqNo, transfers);
    FramesWalked(o, fs, n);
    BegunIsBetween(o);
    PayloadsFeed(o, s, payloads);
    FreshFolds(o, s);
    UnlimitedConsumesAll(o, s, bytes);
    assert bytes[..|bytes|] == bytes;
    FeedFollowsWalker(o, s, bytes);
  }

  /**
   The round trip. However the frames are cut into legal blocks and the blocks into
   transfers, there is no loss report, the packet layer reports no error, and its
   interface-0 records are exactly the frames the trigger lets through, with their
   octets and their times, when folding is off.
   */
  lemma FramesComeBack(o: Opts, fs: seq<Sent>, payloads: seq<seq<byte>>, chmask: nat, capturing: bool, seqNo: nat,
                       transfers: seq<seq<byte>>)
    requires Session(fs, payloads, chmask, capturing, seqNo, transfers) && !o.foldEmpty
    ensures var es := Parse(START, Flatten(transfers));
      var t := OnEvents(o, Begun(o), es);
      && Rsync !in es
      && Select(AllFrames, t.out) == Interpret(o.trigger, FirstGate(o), fs)
      && Select(Diagnostics, t.out) == []
  {
    hide Session, WalkOk, Begun, Effect, Interpret, OnEvents, Parse, Select;
    SessionRuns(o, fs, payloads, chmask, capturing, seqNo, transfers);
    BegunIsBetween(o);
    OnlyFrames(o.trigger, FirstGate(o), fs);
    var t := OnEvents(o, Begun(o), Parse(START, Flatten(transfers)));
    PlainView(o, Begun(o), t, Interpret(o.trigger, FirstGate(o), fs));
  }

  lemma PlainView(o: Opts, s: State, t: State, rs: seq<Record>)
    requires Effect(o, s, t, rs) && Select(AllFrames, rs) == rs && Select(Diagnostics, rs) == [] && !o.foldEmpty
    requires |s.out| == 1 && s.out[0].Info? && !InView(Diagnostics, s.out[0])
    ensures Select(AllFrames, t.out) == rs && Select(Diagnostics, t.out) == []
  {
    hide FoldShape, Carries, Select;
    OneQuiet(s.out, AllFrames);
    OneQuiet(s.out, Diagnostics);
    FromNothing(rs);
    FromNothing(NOTHING);
  }

  /** The announcement alone is in no view. */
  lemma OneQuiet(rs: seq<Record>, v: View)
    requires |rs| == 1 && rs[0].Info? && !InView(v, rs[0])
    ensures Select(v, rs) == []
  {
    assert rs == [rs[0]];
    SelectOne(v, rs[0]);
  }

  lemma FromNothing(rs: seq<Record>)
    ensures NOTHING + rs == rs
  {
  }

  lemma FreshFolds(o: Opts, s: State)
    requires s.foldBuf == [] && s.foldCount == 0
    ensures FoldOk(o, s)
  {
  }

  lemma SelectCons(r: Record, rest: seq<Record>)
    requires r.Frame? && Select(AllFrames, rest) == rest && Select(Diagnostics, rest) == []
    ensures Select(AllFrames, [r] + rest) == [r] + rest && Select(Diagnostics, [r] + rest) == []
  {
    hide Select;
    SelectConcat(AllFrames, [r], rest);
    SelectConcat(Diagnostics, [r], rest);
    SelectOne(AllFrames, r);
    SelectOne(Diagnostics, r);
    assert NOTHING + NOTHING == NOTHING;
  }

  lemma SelectNothing()
    ensures Select(AllFrames, []) == [] && Select(Diagnostics, []) == []
  {
  }

  lemma {:induction false} OnlyFrames(trigger: Trigger, g: Gate, fs: seq<Sent>)
    ensures var rs := Interpret(trigger, g, fs); Select(AllFrames, rs) == rs && Select(Diagnostics, rs) == []
    decreases |fs|
  {
    hide Select, Switch, Ns;
    SelectNothing();
    if fs != [] {
      match fs[0] {
        case DataFrame(tick, payload, _, crcError, dataError, _) =>
          var rest := Interpret(trigger, g, fs[1..]);
          OnlyFrames(trigger, g, fs[1..]);
          if g.enabled && payload != [] && Ns(tick) < TWO64 {
            SelectCons(Frame(Ns(tick), payload, crcError || dataError), rest);
          } else {
            assert NOTHING + rest == rest;
          }
        case StatusFrame(_, _, _, level, _) => OnlyFrames(trigger, Switch(trigger, g, Bit(level)), fs[1..]);
      }
    }
  }

  /** With folding on: still no error, every solid frame in full, and nothing shown that was not sent. */
  lemma FoldedFramesComeBack(o: Opts, fs: seq<Sent>, payloads: seq<seq<byte>>, chmask: nat, capturing: bool,
                             seqNo: nat, transfers: seq<seq<byte>>)
    requires Session(fs, payloads, chmask, capturing, seqNo, transfers) && o.foldEmpty
    ensures var es := Parse(START, Flatten(transfers));
      var t, rs := OnEvents(o, Begun(o), es), Interpret(o.trigger, FirstGate(o), fs);
      && Rsync !in es
      && Select(SolidFrames, t.out) == Select(SolidFrames, rs)
      && Select(Diagnostics, t.out) == []
      && Sub(Shown(t), Loads(rs))
  {
    hide Session, WalkOk, Begun, Effect, Interpret, Sub, OnEvents, Parse, Select;
    SessionRuns(o, fs, payloads, chmask, capturing, seqNo, transfers);
    BegunIsBetween(o);
    OnlyFrames(o.trigger, FirstGate(o), fs);
    var t := OnEvents(o, Begun(o), Parse(START, Flatten(transfers)));
    FoldedView(o, Begun(o), t, Interpret(o.trigger, FirstGate(o), fs));
  }

  lemma FoldedView(o: Opts, s: State, t: State, rs: seq<Record>)
    requires Effect(o, s, t, rs) && Select(Diagnostics, rs) == []
    requires |s.out| == 1 && s.out[0].Info? && !InView(Diagnostics, s.out[0]) && s.foldBuf == []
    ensures Select(SolidFrames, t.out) == Select(SolidFrames, rs) && Select(Diagnostics, t.out) == []
    ensures Sub(Shown(t), Loads(rs))
  {
    hide FoldShape, Sub, Select, Shown, Loads;
    OneQuiet(s.out, SolidFrames);
    OneQuiet(s.out, Diagnostics);
    FromNothing(Select(SolidFrames, rs));
    FromNothing(NOTHING);
    NothingShown(s);
    SubRefl(Shown(s));
    NoLoadsBefore(rs);
    assert Sub(Shown(t), Shown(s) + Loads(rs));
  }

  lemma NoLoadsBefore(rs: seq<Record>)
    ensures [] + Loads(rs) == Loads(rs)
  {
  }

  lemma NothingShown(s: State)
    requires |s.out| == 1 && s.out[0].Info? && s.foldBuf == []
    ensures Shown(s) == []
  {
    assert s.out == [s.out[0]];
    SelectOne(AllFrames, s.out[0]);
    assert Loads(s.out) == [] && BufLoads(s.foldBuf) == [];
  }
}
