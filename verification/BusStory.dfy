/**
 From the bus to interface 1: what a capture reports of the status and data frames that were sent.
 */
module BusStory {
  import opened Bytes
  import opened PacketModel
  import opened Walker
  import opened BusNotes
  import opened Frames
  import opened Timestamps
  import opened TimeLaws
  import FoldLaws
  import FoldRunaway

  /** The bus as last reported; -1 before the first report. */
  datatype Bus = Bus(gate: Gate, vbus: int, speed: int)

  function AfterFrame(trigger: Trigger, b: Bus, f: Sent): Bus {
    if f.DataFrame? then b else Bus(Switch(trigger, b.gate, Bit(f.trigger)), Bit(f.vbus), f.speed)
  }

  /** What one frame makes the capture say, each part exactly if something changed. */
  function Says(trigger: Trigger, b: Bus, f: Sent): seq<Record> {
    if Ns(f.tick) >= TWO64 then NOTHING
    else
      match f
      case StatusFrame(tick, _, vbus, level, speed) =>
        var g := Switch(trigger, b.gate, Bit(level));
        (if Bit(level) == b.gate.level then NOTHING
         else [Info(Ns(tick), TriggerInput(Bit(level)))]
              + if g.enabled && !b.gate.enabled then [Info(Ns(tick), StartingCapture)]
                else if b.gate.enabled && !g.enabled then [Info(Ns(tick), WaitingForTrigger)]
                else NOTHING)
        + (if Bit(vbus) == b.vbus then NOTHING else [Info(Ns(tick), Vbus(vbus))])
        + (if speed == b.speed || !g.enabled then NOTHING
           else if speed == 3 then [Info(Ns(tick), BusReset)]
           else [Info(Ns(tick), DetectedSpeed(speed))])
      case DataFrame(tick, payload, overflow, _, dataError, _) =>
        if payload == [] || !b.gate.enabled then NOTHING
        else (if overflow then [Info(Ns(tick), HardwareOverflow)] else NOTHING)
             + (if dataError then [Info(Ns(tick), PhyError)] else NOTHING)
  }

  function Story(trigger: Trigger, b: Bus, fs: seq<Sent>): seq<Record>
    decreases |fs|
  {
    if fs == [] then NOTHING else Says(trigger, b, fs[0]) + Story(trigger, AfterFrame(trigger, b, fs[0]), fs[1..])
  }

  // ---- Octets ----

  lemma {:induction false} BytesSayConcat(trigger: Trigger, w: Walk, a: seq<byte>, b: seq<byte>)
    requires WalkOk(w)
    ensures BytesSay(trigger, w, a + b) == BytesSay(trigger, w, a) + BytesSay(trigger, WalkAll(trigger, w, a).0, b)
    decreases |a|
  {
    hide WalkSm, WalkOk, ByteSays;
    if a == [] {
      assert a + b == b;
      NothingMore(BytesSay(trigger, w, b));
    } else {
      WalkStaysOk(trigger, w, a[0]);
      var v := WalkSm(trigger, w, a[0]).0;
      assert (a + b)[0] == a[0] && (a + b)[1..] == a[1..] + b;
      BytesSayConcat(trigger, v, a[1..], b);
      var x, y := ByteSays(trigger, w, a[0]), BytesSay(trigger, v, a[1..]);
      var z := BytesSay(trigger, WalkAll(trigger, v, a[1..]).0, b);
      assert x + (y + z) == x + y + z;
    }
  }

  /** Nothing is said before a header or a payload is complete. */
  lemma {:induction false} CompleteSays(trigger: Trigger, w: Walk, bytes: seq<byte>)
    requires WalkOk(w) && (w.ptr > 0 || !w.header) && bytes != [] && w.ptr + |bytes| == w.size
    requires w.size <= |w.data| == DATA_BUF_SIZE
    ensures var v := Filled(w, bytes);
      |v.data| == DATA_BUF_SIZE && v.size <= DATA_BUF_SIZE
      && BytesSay(trigger, w, bytes)
         == if w.header then HeaderSays(trigger, v) else if w.enabled then FrameSays(v) else NOTHING
    decreases |bytes|
  {
    hide HeaderSays, FrameSays, Filled, Store, WalkSm;
    FilledSize(w, bytes);
    WalkStaysOk(trigger, w, bytes[0]);
    FilledSteps(w, bytes);
    FoldRunaway.StoreMoves(w, bytes[0]);
    StoreEnabled(w, bytes[0]);
    if |bytes| == 1 {
      assert bytes[1..] == [];
      FilledSteps(Store(w, bytes[0]), []);
      NothingMore(ByteSays(trigger, w, bytes[0]));
    } else {
      Collects(trigger, w, bytes[0]);
      CompleteSays(trigger, Store(w, bytes[0]), bytes[1..]);
      NothingMore(BytesSay(trigger, Store(w, bytes[0]), bytes[1..]));
    }
  }

  lemma FilledSize(w: Walk, bytes: seq<byte>)
    requires w.ptr + |bytes| <= |w.data|
    ensures |Filled(w, bytes).data| == |w.data| && Filled(w, bytes).size == w.size
  {
  }

  lemma StoreEnabled(w: Walk, b: byte)
    requires w.ptr < |w.data| && (w.ptr > 0 || !w.header)
    ensures Store(w, b).enabled == w.enabled
  {
  }

  lemma HeaderBytesSay(trigger: Trigger, w: Walk, h: seq<byte>)
    requires WalkOk(w) && w.header && w.ptr == 0 && HeaderSized(h)
    ensures |w.data| == DATA_BUF_SIZE && BytesSay(trigger, w, h) == HeaderSays(trigger, HeaderIn(w, h))
  {
    hide HeaderSays, WalkSm, ByteSays, Filled, Store, WalkOk;
    FoldRunaway.OkIsSized(w);
    var v := Store(w, h[0]);
    WalkStaysOk(trigger, w, h[0]);
    FirstCollects(trigger, w, h[0]);
    FirstSays(trigger, w, h[0]);
    FoldRunaway.OkIsSized(v);
    AllFilled(w, h);
    CompleteSays(trigger, v, h[1..]);
    NothingMore(BytesSay(trigger, v, h[1..]));
  }

  lemma FirstSays(trigger: Trigger, w: Walk, b: byte)
    requires WalkOk(w) && w.header && w.ptr == 0
    ensures ByteSays(trigger, w, b) == NOTHING
  {
  }

  // ---- One frame ----

  predicate Shows(w: Walk, b: Bus) { w.vbus == b.vbus && w.speedIn == b.speed }

  /** The octets of a printed header as the walker decodes them. */
  lemma HeaderDecoded(w: Walk, f: Sent, toggle: nat, prev: nat, g: Gate)
    requires Legal(f) && toggle < 2 && Between(w, toggle, prev, g)
    requires Epoch(prev) <= Epoch(f.tick) <= Epoch(prev) + PERIOD && (f.tick + 2 * PERIOD) * 100 < TWO64
      && prev <= f.tick
    ensures var u := HeaderIn(w, Header(f, toggle, prev));
      && |u.data| == DATA_BUF_SIZE && u.size <= DATA_BUF_SIZE && !BadHeader(u) && u.status == f.StatusFrame?
      && Ns(f.tick) < TWO64 && Tick(u).ts == Ns(f.tick)
      && (f.DataFrame? ==>
            && FrameSize(u) == DATA_HEADER_SIZE + |f.payload| && Flag(u.data[3], 0x08) == Bit(f.overflow)
            && Flag(u.data[3], 0x20) == Bit(f.dataError))
      && (f.StatusFrame? ==>
            && Flag(u.data[3], 0x10) == Bit(f.vbus) && Flag(u.data[3], 0x20) == Bit(f.trigger)
            && u.data[3] / 0x40 == f.speed)
  {
    hide Front, DataTail, StatusTail, Flag, Epoch, Ns, ClockNs;
    var front, u := Front(Bit(f.DataFrame?), toggle, prev, f.tick), HeaderIn(w, Header(f, toggle, prev));
    FrontFields(Bit(f.DataFrame?), toggle, prev, f.tick);
    assert u.data[0] == front[0] && u.data[1] == front[1] && u.data[2] == front[2];
    TickIsRight(u, prev, f.tick);
    EpochSteps(prev, f.tick);
    if f.DataFrame? {
      DataFields(f);
      var tail := DataTail(f);
      assert u.data[3] == tail[0] && u.data[4] == tail[1];
    } else {
      StatusFields(f);
      assert u.data[3] == StatusTail(f)[0];
    }
  }

  /** The fields of a printed header, and what it says. */
  lemma HeaderStory(trigger: Trigger, w: Walk, f: Sent, toggle: nat, prev: nat, b: Bus)
    requires Legal(f) && toggle < 2 && Between(w, toggle, prev, b.gate) && Shows(w, b)
    requires Epoch(prev) <= Epoch(f.tick) <= Epoch(prev) + PERIOD && (f.tick + 2 * PERIOD) * 100 < TWO64
      && prev <= f.tick
    ensures var u := HeaderIn(w, Header(f, toggle, prev));
      && |u.data| == DATA_BUF_SIZE && u.size <= DATA_BUF_SIZE && Ns(f.tick) < TWO64
      && HeaderSays(trigger, u) == (if f.StatusFrame? then Says(trigger, b, f) else NOTHING)
      && var v := WalkHeader(trigger, u).0;
         && Shows(v, AfterFrame(trigger, b, f))
         && (f.DataFrame? ==> v.overflow == f.overflow && v.dataError == f.dataError)
  {
    hide Header, Flag, Epoch, Ns, ClockNs, Switch, Says, StatusSays;
    HeaderDecoded(w, f, toggle, prev, b.gate);
    var u := HeaderIn(w, Header(f, toggle, prev));
    TickKeeps(u);
    NothingMore(if f.StatusFrame? then Says(trigger, b, f) else NOTHING);
    if f.StatusFrame? { StatusStory(trigger, Tick(u), f, b); }
  }

  lemma StatusStory(trigger: Trigger, w: Walk, f: Sent, b: Bus)
    requires |w.data| == DATA_BUF_SIZE && f.StatusFrame? && Legal(f) && w.ts == Ns(f.tick) < TWO64
    requires w.enabled == b.gate.enabled && w.trig == b.gate.level && Shows(w, b)
    requires var d3 := w.data[3];
      Flag(d3, 0x10) == Bit(f.vbus) && Flag(d3, 0x20) == Bit(f.trigger) && d3 / 0x40 == f.speed
    ensures StatusSays(trigger, w) == Says(trigger, b, f)
  {
    hide Flag, Ns;
    var x := Info(w.ts, TriggerInput(Bit(f.trigger)));
    assert [x] + NOTHING == [x] && [x] + [Info(w.ts, StartingCapture)] == [x, Info(w.ts, StartingCapture)];
    assert [x] + [Info(w.ts, WaitingForTrigger)] == [x, Info(w.ts, WaitingForTrigger)];
  }

  lemma FrameStory(trigger: Trigger, w: Walk, f: Sent, toggle: nat, prev: nat, b: Bus)
    requires Legal(f) && toggle < 2 && Between(w, toggle, prev, b.gate) && Shows(w, b)
    requires Epoch(prev) <= Epoch(f.tick) <= Epoch(prev) + PERIOD && (f.tick + 2 * PERIOD) * 100 < TWO64
      && prev <= f.tick
    ensures BytesSay(trigger, w, PrintFrame(f, toggle, prev)) == Says(trigger, b, f)
    ensures Shows(WalkAll(trigger, w, PrintFrame(f, toggle, prev)).0, AfterFrame(trigger, b, f))
  {
    hide Header, WalkHeader, HeaderSays, Epoch, Switch, Ns, BytesSay, WalkAll;
    var h := Header(f, toggle, prev);
    FoldRunaway.OkIsSized(w);
    FoldRunaway.HeaderSizes(f, toggle, prev);
    HeaderStory(trigger, w, f, toggle, prev, b);
    HeaderBytesSay(trigger, w, h);
    HeaderCollected(trigger, w, h);
    HeaderWalked(trigger, w, f, toggle, prev, b.gate);
    var v := WalkAll(trigger, w, h).0;
    if f.DataFrame? && f.payload != [] {
      var p := f.payload;
      BytesSayConcat(trigger, w, h, p);
      WalkConcat(trigger, w, h, p);
      PayloadCollected(trigger, v, p);
      FoldRunaway.OkIsSized(v);
      CompleteSays(trigger, v, p);
      NothingMore(BytesSay(trigger, v, p));
    } else {
      assert PrintFrame(f, toggle, prev) == h;
    }
  }

  // ---- All frames ----

  lemma {:induction false} FramesStory(trigger: Trigger, w: Walk, fs: seq<Sent>, toggle: nat, prev: nat, b: Bus)
    requires AllLegal(fs) && toggle < 2 && Between(w, toggle, prev, b.gate) && Shows(w, b) && ClockOk(fs, prev)
    ensures WalkOk(w) && BytesSay(trigger, w, PrintFrames(fs, toggle, prev)) == Story(trigger, b, fs)
    decreases |fs|
  {
    hide PrintFrame, BytesSay, WalkAll, Epoch, Says, Switch, WalkOk, Ns;
    BetweenIsOk(w, toggle, prev, b.gate);
    if fs == [] {
      SaysNothing(trigger, w);
    } else {
      var p, rest := PrintFrame(fs[0], toggle, prev), PrintFrames(fs[1..], 1 - toggle, fs[0].tick);
      EpochOrder(prev, fs[0].tick);
      FrameWalked(trigger, w, fs[0], toggle, prev, b.gate);
      FrameStory(trigger, w, fs[0], toggle, prev, b);
      BytesSayConcat(trigger, w, p, rest);
      FramesStory(trigger, WalkAll(trigger, w, p).0, fs[1..], 1 - toggle, fs[0].tick, AfterFrame(trigger, b, fs[0]));
    }
  }

  lemma SaysNothing(trigger: Trigger, w: Walk)
    requires WalkOk(w)
    ensures BytesSay(trigger, w, []) == NOTHING
  {
  }

  /**
   Any capture of legal frames, under any options and without a record limit: beside line
   states, keep-alives, summaries and periodic updates, interface 1 carries the announcement
   and then exactly the story of the frames sent.
   */
  lemma BusIsReported(o: Opts, fs: seq<Sent>)
    requires AllLegal(fs) && ClockOk(fs, 0)
    ensures var s := Announce(o, Fresh(0));
      WalkOk(s.w)
      && Said(Feed(o, s, PrintFrames(fs, 0, 0)).out)
         == [Info(0, if o.trigger.Disabled? then StartingCapture else WaitingForTrigger)]
            + Story(o.trigger, Bus(Gate(o.trigger.Disabled?, -1), -1, -1), fs)
  {
    hide Feed, WalkOk, BytesSay, Story, PrintFrames, Announce;
    var s, p := Announce(o, Fresh(0)), PrintFrames(fs, 0, 0);
    AnnouncedSays(o);
    FoldLaws.UnlimitedConsumesAll(o, s, p);
    assert p[..|p|] == p;
    NotesAreExact(o, s, p);
    FramesStory(o.trigger, s.w, fs, 0, 0, Bus(Gate(o.trigger.Disabled?, -1), -1, -1));
  }

  lemma AnnouncedSays(o: Opts)
    ensures var s := Announce(o, Fresh(0));
      && WalkOk(s.w) && Between(s.w, 0, 0, Gate(o.trigger.Disabled?, -1)) && s.w.vbus == -1 && s.w.speedIn == -1
      && s.limit == 0 && !s.done
      && Said(s.out) == [Info(0, if o.trigger.Disabled? then StartingCapture else WaitingForTrigger)]
  {
    var s := Announce(o, Fresh(0));
    assert s.out[..0] == [] && Epoch(0) == 0;
  }
}
