/** Printed frames never turn the decoded clock back, so what a session writes is in time order. */
module SessionClock {
  import opened Bytes
  import opened BlockParse
  import opened BlockLaws
  import opened PacketModel
  import opened Walker
  import opened TimeLaws
  import opened Timestamps
  import opened Frames
  import opened EndToEnd

  lemma {:induction false} ClockConcat(trigger: Trigger, w: Walk, a: seq<byte>, b: seq<byte>)
    requires WalkOk(w) && ClockRuns(trigger, w, a) && ClockRuns(trigger, WalkAll(trigger, w, a).0, b)
    ensures ClockRuns(trigger, w, a + b)
    decreases |a|
  {
    hide WalkSm, WalkOk;
    if a == [] {
      assert a + b == b;
    } else {
      WalkStaysOk(trigger, w, a[0]);
      ClockConcat(trigger, WalkSm(trigger, w, a[0]).0, a[1..], b);
      assert (a + b)[0] == a[0] && (a + b)[1..] == a[1..] + b;
    }
  }

  lemma ClockOne(trigger: Trigger, w: Walk, b: byte)
    requires WalkOk(w) && WalkSm(trigger, w, b).0.ts >= w.ts
    ensures ClockRuns(trigger, w, [b])
  {
    hide WalkSm, WalkOk;
    WalkStaysOk(trigger, w, b);
    assert [b][1..] == [];
  }

  lemma {:induction false} ClockFill(trigger: Trigger, w: Walk, bytes: seq<byte>)
    requires WalkOk(w) && (w.ptr > 0 || !w.header) && w.ptr + |bytes| < w.size
    ensures ClockRuns(trigger, w, bytes)
    decreases |bytes|
  {
    hide WalkHeader, WalkSm, Store;
    if bytes != [] {
      WalkStaysOk(trigger, w, bytes[0]);
      Collects(trigger, w, bytes[0]);
      StoreClock(w, bytes[0]);
      ClockFill(trigger, Store(w, bytes[0]), bytes[1..]);
    }
  }

  lemma StoreClock(w: Walk, b: byte)
    requires w.ptr < |w.data|
    ensures Store(w, b).ts == w.ts && Store(w, b).header == w.header
  {
  }

  lemma ClockMiddle(trigger: Trigger, w: Walk, h: seq<byte>)
    requires WalkOk(w) && w.header && w.ptr == 0 && HeaderSized(h)
    ensures ClockRuns(trigger, w, h[..|h| - 1])
  {
    hide WalkHeader, WalkSm, Store;
    var n, v1 := |h|, Store(w, h[0]);
    FirstCollects(trigger, w, h[0]);
    ClockOne(trigger, w, h[0]);
    WalkOne(trigger, w, h[0]);
    ClockFill(trigger, v1, h[1..n - 1]);
    ClockConcat(trigger, w, [h[0]], h[1..n - 1]);
    assert h[..n - 1] == [h[0]] + h[1..n - 1];
  }

  /** A header moves the clock once, with its last octet. */
  lemma ClockHeader(trigger: Trigger, w: Walk, h: seq<byte>)
    requires WalkOk(w) && w.header && w.ptr == 0 && HeaderSized(h)
    requires WalkAll(trigger, w, h).0.ts >= w.ts
    ensures ClockRuns(trigger, w, h)
  {
    hide WalkHeader, WalkSm, WalkAll, ClockRuns, WalkOk;
    var n := |h|;
    ClockMiddle(trigger, w, h);
    MiddleCollected(trigger, w, h);
    var v := WalkAll(trigger, w, h[..n - 1]).0;
    WalkOne(trigger, v, h[n - 1]);
    WalkConcat(trigger, w, h[..n - 1], [h[n - 1]]);
    assert h == h[..n - 1] + [h[n - 1]];
    ClockOne(trigger, v, h[n - 1]);
    ClockConcat(trigger, w, h[..n - 1], [h[n - 1]]);
  }

  lemma ClockPayload(trigger: Trigger, w: Walk, p: seq<byte>)
    requires WalkOk(w) && !w.header && w.ptr == 0 && |p| == w.size
    ensures ClockRuns(trigger, w, p)
  {
    hide WalkSm;
    var n := |p|;
    ClockFill(trigger, w, p[..n - 1]);
    Fill(trigger, w, p[..n - 1]);
    var v := WalkAll(trigger, w, p[..n - 1]).0;
    PayloadCollected(trigger, w, p);
    WalkOne(trigger, v, p[n - 1]);
    WalkConcat(trigger, w, p[..n - 1], [p[n - 1]]);
    assert p == p[..n - 1] + [p[n - 1]];
    ClockOne(trigger, v, p[n - 1]);
    ClockConcat(trigger, w, p[..n - 1], [p[n - 1]]);
  }

  lemma ClockFrame(trigger: Trigger, w: Walk, f: Sent, toggle: nat, prev: nat, g: Gate)
    requires Legal(f) && toggle < 2 && Between(w, toggle, prev, g) && w.ts <= Ns(prev)
    requires Epoch(prev) <= Epoch(f.tick) <= Epoch(prev) + PERIOD && (f.tick + 2 * PERIOD) * 100 < TWO64
      && prev <= f.tick
    ensures ClockRuns(trigger, w, PrintFrame(f, toggle, prev))
  {
    hide Front, DataTail, StatusTail, Epoch, Switch, WalkAll, ClockRuns, Flagged, Ns;
    var h := Header(f, toggle, prev);
    HeaderWalked(trigger, w, f, toggle, prev, g);
    FrontFields(Bit(f.DataFrame?), toggle, prev, f.tick);
    assert h[0] == Front(Bit(f.DataFrame?), toggle, prev, f.tick)[0];
    NsGrows(prev, f.tick);
    ClockHeader(trigger, w, h);
    var v := WalkAll(trigger, w, h).0;
    if f.DataFrame? && f.payload != [] {
      ClockPayload(trigger, v, f.payload);
      ClockConcat(trigger, w, h, f.payload);
    } else {
      assert PrintFrame(f, toggle, prev) == h;
    }
  }

  lemma NsGrows(a: nat, b: nat)
    requires a <= b
    ensures Ns(a) <= Ns(b)
  {
  }

  lemma {:induction false} ClockFrames(trigger: Trigger, w: Walk, fs: seq<Sent>, toggle: nat, prev: nat, g: Gate)
    requires AllLegal(fs) && toggle < 2 && Between(w, toggle, prev, g) && ClockOk(fs, prev) && w.ts <= Ns(prev)
    ensures WalkOk(w) && ClockRuns(trigger, w, PrintFrames(fs, toggle, prev))
    decreases |fs|
  {
    hide PrintFrame, Between, Legal, Switch, Epoch, Ns, WalkAll;
    BetweenIsOk(w, toggle, prev, g);
    if fs != [] {
      var f := fs[0];
      EpochOrder(prev, f.tick);
      FrameWalked(trigger, w, f, toggle, prev, g);
      ClockFrame(trigger, w, f, toggle, prev, g);
      var g' := if f.DataFrame? then g else Switch(trigger, g, Bit(f.trigger));
      var v := WalkAll(trigger, w, PrintFrame(f, toggle, prev)).0;
      ClockFrames(trigger, v, fs[1..], 1 - toggle, f.tick, g');
      ClockConcat(trigger, w, PrintFrame(f, toggle, prev), PrintFrames(fs[1..], 1 - toggle, f.tick));
    }
  }

  lemma FillerClock(trigger: Trigger, w: Walk, n: nat)
    requires n < 4 && WalkOk(w) && w.header && w.ptr == 0
    ensures ClockRuns(trigger, w, Filler(n))
  {
    hide WalkSm;
    if n > 0 {
      var p := Filler(n);
      FirstCollects(trigger, w, p[0]);
      ClockOne(trigger, w, p[0]);
      WalkOne(trigger, w, p[0]);
      ClockFill(trigger, Store(w, p[0]), p[1..]);
      ClockConcat(trigger, w, [p[0]], p[1..]);
      assert p == [p[0]] + p[1..];
    }
  }

  /** Whatever the options, the records of a session leave in time order, on both interfaces together. */
  lemma SessionIsOrdered(o: Opts, fs: seq<Sent>, payloads: seq<seq<byte>>, chmask: nat, capturing: bool, seqNo: nat,
                         transfers: seq<seq<byte>>)
    requires Session(fs, payloads, chmask, capturing, seqNo, transfers)
    ensures Ordered(OnEvents(o, Begun(o), Parse(START, Flatten(transfers))).out)
  {
    hide LegalPayload, PrintBlocks, AllLegal, ClockOk, PrintFrames, WalkOk, Filler, WalkAll, ClockRuns, Announce,
         Ordered, Parse;
    var n :| 0 <= n < 4 && Flatten(payloads) == PrintFrames(fs, 0, 0) + Filler(n);
    var s, p := Begun(o), PrintFrames(fs, 0, 0);
    BegunIsBetween(o);
    BetweenIsOk(s.w, 0, 0, FirstGate(o));
    BegunAtZero(o);
    ClockFrames(o.trigger, s.w, fs, 0, 0, FirstGate(o));
    FramesRoundTrip(o.trigger, s.w, fs, 0, 0, FirstGate(o));
    FillerClock(o.trigger, WalkAll(o.trigger, s.w, p).0, n);
    ClockConcat(o.trigger, s.w, p, Filler(n));
    BlocksDelivered(fs, payloads, chmask, capturing, seqNo, transfers);
    PayloadsFeed(o, s, payloads);
    OutputIsMonotone(o, 0, Flatten(payloads));
  }

  lemma BegunAtZero(o: Opts)
    ensures Begun(o).w.ts == 0
  {
  }

  // ---- An announcement that comes late ----

  /** Four octets complete a status header. */
  lemma FeedStatus(o: Opts, s: State, h: seq<byte>)
    requires WalkOk(s.w) && s.w.header && s.w.ptr == 0 && !s.done && |h| == STATUS_HEADER_SIZE && h[0] < 0x80
    ensures Feed(o, s, h) == HeaderDone(o, s.(w := HeaderIn(s.w, h)))
  {
    hide HeaderDone, PayloadDone;
    var a := CaptureSm(o, s, h[0]);
    var b := CaptureSm(o, a, h[1]);
    var c := CaptureSm(o, b, h[2]);
    SameWalk(o, s, h[0]);
    SameWalk(o, a, h[1]);
    SameWalk(o, b, h[2]);
    SameWalk(o, c, h[3]);
    assert Store(c.w, h[3]).data == HeaderIn(s.w, h).data;
    var d := CaptureSm(o, c, h[3]);
    FeedFour(o, s, h, a, b, c, d);
  }

  lemma FeedFour(o: Opts, s: State, h: seq<byte>, a: State, b: State, c: State, d: State)
    requires WalkOk(s.w) && WalkOk(a.w) && WalkOk(b.w) && WalkOk(c.w) && WalkOk(d.w) && |h| == 4
    requires a == CaptureSm(o, s, h[0]) && b == CaptureSm(o, a, h[1]) && c == CaptureSm(o, b, h[2])
      && d == CaptureSm(o, c, h[3])
    requires !s.done && !a.done && !b.done && !c.done
    ensures Feed(o, s, h) == d
  {
    hide CaptureSm, WalkOk;
    assert h[1..][0] == h[1] && h[1..][1..] == h[2..];
    assert h[2..][0] == h[2] && h[2..][1..] == h[3..];
    assert h[3..][0] == h[3] && h[3..][1..] == [];
    assert Feed(o, d, []) == d;
    assert Feed(o, c, h[3..]) == d;
    assert Feed(o, b, h[2..]) == d;
    assert Feed(o, a, h[1..]) == d;
  }

  /** The first status frame of a capture is reported at its own time. */
  lemma FirstStatusSpeaks(o: Opts, s: State)
    requires o.trigger.Disabled? && |s.w.data| == DATA_BUF_SIZE && 0 <= s.w.size <= DATA_BUF_SIZE
    requires !BadHeader(s.w) && s.w.status && !s.w.enabled && s.w.trig == -1 && s.savedLs == LS_INVALID
    ensures HeaderDone(o, s).lastTs == Tick(s.w).ts
  {
    hide Tick, Flag, ToS64, Wrap64, ToS32, EffectiveSpeed, FrameSize;
    TickKeeps(s.w);
    TickKeepsStatus(s.w);
    var c := HeaderFront(o, s);
    assert c == s.(w := Tick(s.w));
    var d3 := c.w.data[3];
    assert Flag(d3, 0x20) != -1 by { FlagNotNegative(d3); }
    StatusSpeaks(o, c, d3 % 16, Flag(d3, 0x10), Flag(d3, 0x20), d3 / 0x40);
  }

  lemma TickKeepsStatus(w: Walk)
    requires |w.data| == DATA_BUF_SIZE
    ensures var v := Tick(w); v.enabled == w.enabled && v.trig == w.trig
  {
  }

  lemma FlagNotNegative(b: byte)
    ensures Flag(b, 0x20) >= 0
  {
  }

  lemma NowSpeaks(o: Opts, s: State, note: Note)
    ensures Now(o, s, note).lastTs == s.w.ts && Now(o, s, note).savedLs == LS_INVALID
  {
    hide ToS32, Wrap64, EffectiveSpeed;
  }

  lemma TriggerSpeaks(o: Opts, s: State, level: int)
    requires s.w.trig != level
    ensures var t := TriggerChange(o, s, level); t.lastTs == s.w.ts == t.w.ts && t.savedLs == LS_INVALID
  {
    hide Now, TriggerEnabled;
    var u := s.(w := s.w.(enabled := TriggerEnabled(o.trigger, s.w, level), trig := level));
    NowSpeaks(o, u, TriggerInput(level));
    NowSpeaks(o, Now(o, u, TriggerInput(level)), StartingCapture);
    NowSpeaks(o, Now(o, u, TriggerInput(level)), WaitingForTrigger);
  }

  lemma StatusSpeaks(o: Opts, s: State, ls: int, vbus: int, level: int, speed: int)
    requires s.w.trig != level
    ensures StatusEvent(o, s, ls, vbus, level, speed).lastTs == s.w.ts
  {
    hide Now, TriggerChange, LineChange;
    TriggerSpeaks(o, s, level);
    var a := TriggerChange(o, s, level);
    NowSpeaks(o, a.(w := a.w.(vbus := vbus)), Vbus(vbus != 0));
    var b := VbusChange(o, a, vbus);
    NowSpeaks(o, b.(w := b.w.(speedIn := speed)), BusReset);
    NowSpeaks(o, b.(w := b.w.(speedIn := speed)), DetectedSpeed(speed));
    LineIsQuiet(o, SpeedChange(o, b, speed), ls);
  }

  lemma LineIsQuiet(o: Opts, s: State, ls: int)
    requires s.savedLs == LS_INVALID
    ensures LineChange(o, s, ls).lastTs == s.lastTs
  {
    hide ToS32, Wrap64, EffectiveSpeed, KeepaliveEvent;
  }

  /** A status frame before the announcement, as left over from the start-up, and the output is out of order. */
  lemma LateAnnouncementBreaksOrder(o: Opts, limit: int, f: Sent)
    requires o.trigger.Disabled? && f.StatusFrame? && Legal(f) && 0 < f.tick < PERIOD
    ensures WalkOk(Fresh(limit).w) && !Ordered(Announce(o, Feed(o, Fresh(limit), PrintFrame(f, 0, 0))).out)
  {
    hide Ordered, Announce, Feed, WalkHeader, HeaderDone, Front, StatusTail, Epoch, Ns, ClockRuns;
    var s0, g, h := Fresh(limit), Gate(false, -1), Header(f, 0, 0);
    assert PrintFrame(f, 0, 0) == h;
    FreshIsBetween(limit);
    FirstEpoch(f.tick);
    FrontFields(0, 0, 0, f.tick);
    assert h[0] == Front(0, 0, 0, f.tick)[0];
    FeedStatus(o, s0, h);
    HeaderFacts(s0.w, f, g);
    FirstStatusSpeaks(o, s0.(w := HeaderIn(s0.w, h)));
    ClockFrame(o.trigger, s0.w, f, 0, 0, g);
    FreshOnTime(limit);
    FeedOnTime(o, s0, h);
    NsPositive(f.tick);
    AnnounceKeepsOrder(o, Feed(o, s0, h));
  }

  lemma FreshIsBetween(limit: int)
    ensures Between(Fresh(limit).w, 0, 0, Gate(false, -1)) && Fresh(limit).w.ts == 0 && Ns(0) == 0
  {
    assert Epoch(0) == 0;
  }

  lemma FreshOnTime(limit: int)
    ensures OnTime(Fresh(limit))
  {
  }

  lemma FirstEpoch(tick: nat)
    requires tick < PERIOD
    ensures Epoch(tick) == Epoch(0) == 0 && (tick + 2 * PERIOD) * 100 < TWO64
  {
  }

  lemma NsPositive(tick: nat)
    requires tick > 0
    ensures Ns(tick) > 0
  {
  }

  /** The header of a status frame in the assembly buffer is in step, and its clock is right. */
  lemma HeaderFacts(w: Walk, f: Sent, g: Gate)
    requires Legal(f) && f.StatusFrame? && Between(w, 0, 0, g) && f.tick < PERIOD
    ensures var u := HeaderIn(w, Header(f, 0, 0));
      && |u.data| == DATA_BUF_SIZE && u.size == STATUS_HEADER_SIZE && u.status && !BadHeader(u)
      && Tick(u).ts == Ns(f.tick)
      && u.enabled == w.enabled && u.trig == w.trig
  {
    hide Front, StatusTail, Flag, Epoch, Ns, ClockNs;
    var front := Front(0, 0, 0, f.tick);
    var u := HeaderIn(w, Header(f, 0, 0));
    FrontFields(0, 0, 0, f.tick);
    FirstEpoch(f.tick);
    assert u.data[0] == front[0] && u.data[1] == front[1] && u.data[2] == front[2];
    TickIsRight(u, 0, f.tick);
  }
}
