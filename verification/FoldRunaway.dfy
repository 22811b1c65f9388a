/**
 A capture whose "Folded" record exceeds its limit: at high speed the count passes the limit
 of full speed, the bus drops to full speed, and the count is never equal to its limit again.
 */
module FoldRunaway {
  import opened Bytes
  import opened PacketModel
  import opened Walker
  import opened FoldLaws
  import opened FoldBound
  import opened FoldExact
  import opened Timestamps
  import opened Frames
  import opened TimeLaws
  import EndToEnd
  import PacketCalls

  const SPEED_FS: nat := 1
  const PID_DATA0: byte := 0xC3
  /** A micro-frame and a frame, in ticks. */
  const MICROFRAME: nat := 7500
  const FRAME: nat := 60000

  function Sof(tick: nat): Sent { DataFrame(tick, [PID_SOF, 0, 16], false, false, false, 0) }

  function Data(tick: nat): Sent { DataFrame(tick, [PID_DATA0, 0, 0], false, false, false, 0) }

  function Bus(tick: nat, speed: nat): Sent { StatusFrame(tick, 0, true, false, speed) }

  /** At full speed from tick on: k frames with nothing in them, and one that carries data. */
  function Slow(tick: nat, k: nat): seq<Sent>
    decreases k
  {
    if k == 0 then [Data(tick)] else [Sof(tick)] + Slow(tick + FRAME, k - 1)
  }

  /** At high speed from tick on: n micro-frames with nothing in them, and the change to full speed. */
  function Fast(tick: nat, n: nat, k: nat): seq<Sent>
    decreases n
  {
    if n == 0 then [Bus(tick, SPEED_FS)] + Slow(tick, k) else [Sof(tick)] + Fast(tick + MICROFRAME, n - 1, k)
  }

  function Session(k: nat): seq<Sent> { [Bus(0, SPEED_HS)] + Fast(0, FOLD_LIMIT_LS_FS + 1, k) }

  /** The clock stays in range. */
  predicate Room(tick: nat, n: nat, k: nat) { (tick + n * MICROFRAME + k * FRAME + 2 * PERIOD) * 100 < TWO64 }

  predicate Close(prev: nat, tick: nat) {
    prev <= tick && Epoch(tick) <= Epoch(prev) + PERIOD && (tick + 2 * PERIOD) * 100 < TWO64
  }

  lemma NextClose(prev: nat, step: nat)
    requires step <= FRAME && (prev + step + 2 * PERIOD) * 100 < TWO64
    ensures Close(prev, prev + step)
  {
  }

  lemma {:induction false} SlowIsLegal(prev: nat, tick: nat, k: nat)
    requires Close(prev, tick) && Room(tick, 0, k)
    ensures AllLegal(Slow(tick, k)) && ClockOk(Slow(tick, k), prev)
    decreases k
  {
    hide Epoch;
    if k > 0 {
      NextClose(tick, FRAME);
      SlowIsLegal(tick, tick + FRAME, k - 1);
    }
  }

  lemma {:induction false} FastIsLegal(prev: nat, tick: nat, n: nat, k: nat)
    requires Close(prev, tick) && Room(tick, n, k)
    ensures AllLegal(Fast(tick, n, k)) && ClockOk(Fast(tick, n, k), prev)
    decreases n
  {
    hide Epoch;
    if n > 0 {
      NextClose(tick, MICROFRAME);
      FastIsLegal(tick, tick + MICROFRAME, n - 1, k);
    } else {
      NextClose(tick, 0);
      SlowIsLegal(tick, tick, k);
    }
  }

  // ---- Octets of one frame ----

  /** Octets that complete a header or a payload. */
  lemma {:induction false} Completes(o: Opts, s: State, bytes: seq<byte>)
    requires WalkOk(s.w) && !s.done && (s.w.ptr > 0 || !s.w.header) && bytes != [] && s.w.ptr + |bytes| == s.w.size
    ensures var t := s.(w := Filled(s.w, bytes));
      Feed(o, s, bytes) == if s.w.header then HeaderDone(o, t) else PayloadDone(o, t)
    decreases |bytes|
  {
    hide HeaderDone, PayloadDone, Filled, Store, WalkSm;
    var t := CaptureSm(o, s, bytes[0]);
    SameWalk(o, s, bytes[0]);
    FilledSteps(s.w, bytes);
    StoreMoves(s.w, bytes[0]);
    if |bytes| == 1 {
      assert bytes[1..] == [];
      FilledSteps(Store(s.w, bytes[0]), []);
    } else {
      Collects(o.trigger, s.w, bytes[0]);
      Completes(o, t, bytes[1..]);
    }
  }

  lemma StoreMoves(w: Walk, b: byte)
    requires w.ptr < |w.data| && (w.ptr > 0 || !w.header)
    ensures var v := Store(w, b); v.ptr == w.ptr + 1 && v.size == w.size && v.header == w.header && |v.data| == |w.data|
  {
  }

  lemma HeaderFed(o: Opts, s: State, h: seq<byte>)
    requires WalkOk(s.w) && s.w.header && s.w.ptr == 0 && !s.done && HeaderSized(h)
    ensures Feed(o, s, h) == HeaderDone(o, s.(w := HeaderIn(s.w, h)))
  {
    hide HeaderDone, PayloadDone, CaptureSm;
    var w := Store(s.w, h[0]);
    SameWalk(o, s, h[0]);
    FirstCollects(o.trigger, s.w, h[0]);
    FirstStored(o, s, h[0]);
    Completes(o, s.(w := w), h[1..]);
    AllFilled(s.w, h);
  }

  lemma FirstStored(o: Opts, s: State, b: byte)
    requires WalkOk(s.w) && s.w.header && s.w.ptr == 0
    ensures CaptureSm(o, s, b) == s.(w := Store(s.w, b))
  {
  }

  // ---- What a frame does to the fold ----

  /** The pending batch and its count stay. */
  predicate FoldStays(s: State, t: State) {
    && t.foldCount == s.foldCount && t.foldBuf == s.foldBuf && t.w.speedIn == s.w.speedIn && t.w.ls == s.w.ls
    && (s.savedLs == LS_INVALID ==> t.savedLs == LS_INVALID)
  }

  lemma NowStays(o: Opts, s: State, note: Note)
    ensures FoldStays(s, Now(o, s, note))
  {
    hide ToS32, Wrap64, EffectiveSpeed;
  }

  lemma FrontStays(o: Opts, s: State)
    requires |s.w.data| == DATA_BUF_SIZE && s.w.size <= DATA_BUF_SIZE && !BadHeader(s.w)
    ensures var c := HeaderFront(o, s); FoldStays(s, c) && c.w == Tick(s.w)
  {
    hide Now, Flag, ToS64, Wrap64, ClockNs;
    NowStays(o, s.(w := Tick(s.w)), PeriodicUpdate);
  }

  lemma DataHeaderStays(o: Opts, s: State)
    requires |s.w.data| == DATA_BUF_SIZE && s.w.size <= DATA_BUF_SIZE && !BadHeader(s.w) && !s.w.status
    requires var n := FrameSize(s.w); DATA_HEADER_SIZE <= n <= MAX_DATA_SIZE
    ensures FoldStays(s, HeaderDone(o, s))
  {
    hide HeaderFront, Tick, Flag;
    FrontStays(o, s);
    TickKeeps(s.w);
  }

  lemma TriggerStays(o: Opts, s: State, level: int)
    ensures FoldStays(s, TriggerChange(o, s, level))
  {
    hide Now, TriggerEnabled;
    if s.w.trig != level {
      var a := s.(w := s.w.(enabled := TriggerEnabled(o.trigger, s.w, level), trig := level));
      var t := Now(o, a, TriggerInput(level));
      NowStays(o, a, TriggerInput(level));
      NowStays(o, t, StartingCapture);
      NowStays(o, t, WaitingForTrigger);
    }
  }

  lemma SpeedStays(o: Opts, s: State, speed: int)
    ensures FoldStays(s.(w := s.w.(speedIn := speed)), SpeedChange(o, s, speed))
  {
    hide Now;
    var t := s.(w := s.w.(speedIn := speed));
    NowStays(o, t, BusReset);
    NowStays(o, t, DetectedSpeed(speed));
  }

  /** A change of speed neither counts nor flushes. */
  lemma StatusStays(o: Opts, s: State, ls: int, vbus: int, level: int, speed: int)
    requires s.w.ls == ls || s.savedLs == LS_INVALID
    ensures var t := StatusEvent(o, s, ls, vbus, level, speed);
      t.foldCount == s.foldCount && t.foldBuf == s.foldBuf && t.w.speedIn == speed && t.w.ls == ls
  {
    hide Now, TriggerChange, SpeedChange, LineChange;
    var a := TriggerChange(o, s, level);
    TriggerStays(o, s, level);
    NowStays(o, a.(w := a.w.(vbus := vbus)), Vbus(vbus != 0));
    var b := VbusChange(o, a, vbus);
    SpeedStays(o, b, speed);
    NoLine(o, SpeedChange(o, b, speed), ls);
  }

  lemma NoLine(o: Opts, s: State, ls: int)
    requires s.w.ls == ls || s.savedLs == LS_INVALID
    ensures var t := LineChange(o, s, ls);
      t.foldCount == s.foldCount && t.foldBuf == s.foldBuf && t.w.speedIn == s.w.speedIn && t.w.ls == ls
  {
    hide ToS32, Wrap64, EffectiveSpeed;
  }

  lemma StatusHeaderStays(o: Opts, s: State)
    requires |s.w.data| == DATA_BUF_SIZE && s.w.size <= DATA_BUF_SIZE && !BadHeader(s.w) && s.w.status
    requires s.w.ls == s.w.data[3] % 16 || s.savedLs == LS_INVALID
    ensures var t := HeaderDone(o, s);
      t.foldCount == s.foldCount && t.foldBuf == s.foldBuf && t.w.speedIn == s.w.data[3] / 0x40
        && t.w.ls == s.w.data[3] % 16
  {
    hide HeaderFront, Tick, Flag, StatusEvent;
    FrontStays(o, s);
    TickKeeps(s.w);
    var c := HeaderFront(o, s);
    var d3 := c.w.data[3];
    StatusStays(o, c, d3 % 16, Flag(d3, 0x10), Flag(d3, 0x20), d3 / 0x40);
  }

  lemma PreludeStays(o: Opts, s: State)
    requires !Flagged(s.w) && !s.w.overflow && |s.foldBuf| < FOLD_BUF_SIZE
    ensures FoldStays(s, DataPrelude(o, s))
  {
    hide ToS32, Wrap64, EffectiveSpeed, StopFolding;
  }

  /** A payload received without error while the capture runs without a record limit. */
  predicate SoundFrame(o: Opts, s: State) {
    && o.foldEmpty && s.w.enabled && !Flagged(s.w) && !s.w.overflow
    && 0 < s.w.size <= |s.w.data| && s.limit <= 0 && |s.foldBuf| <= 1
  }

  lemma SofCounts(o: Opts, s: State)
    requires SoundFrame(o, s) && s.w.data[0] == PID_SOF && SofsFold(o, s.w.speedIn)
    requires s.foldBuf == [] || s.foldCount + 1 != Cap(o, s)
    ensures var t := DataEvent(o, s); t.foldCount == s.foldCount + |s.foldBuf| && |t.foldBuf| == 1
  {
    hide DataPrelude, StopFolding, Payload, Emit, Flagged;
    PreludeStays(o, s);
    var u := FoldOrWrite(o, DataPrelude(o, s));
    assert CheckCaptureLimit(o, u) == u.(limit := u.limit - 1);
  }

  lemma DataFlushes(o: Opts, s: State)
    requires SoundFrame(o, s) && s.w.data[0] == PID_DATA0 && |s.foldBuf| == 1 && s.foldCount >= 1
    ensures Info(s.w.ts, Folded(s.foldCount)) in DataEvent(o, s).out
  {
    hide DataPrelude, StopFolding, Payload, Flagged;
    PreludeStays(o, s);
    var a := DataPrelude(o, s);
    FlushSays(o, a);
    var u := FoldOrWrite(o, a);
    assert CheckCaptureLimit(o, u) == u.(limit := u.limit - 1);
  }

  lemma FlushSays(o: Opts, s: State)
    requires s.foldCount >= 1
    ensures Info(s.w.ts, Folded(s.foldCount)) in StopFolding(o, s).out
  {
    hide WriteAllFolded, LineStateEvent;
  }

  // ---- Frames ----

  lemma HeaderIsRight(o: Opts, s: State, f: Sent, toggle: nat, prev: nat)
    requires Legal(f) && toggle < 2 && WalkOk(s.w) && s.w.header && s.w.ptr == 0 && s.w.toggle == toggle
    ensures var v := HeaderIn(s.w, Header(f, toggle, prev));
      && |v.data| == DATA_BUF_SIZE && 0 <= v.size <= DATA_BUF_SIZE && !BadHeader(v) && v.status == f.StatusFrame?
      && (f.DataFrame? ==> FrameSize(v) == DATA_HEADER_SIZE + |f.payload| && Flag(v.data[3], 0x08) == Bit(f.overflow))
      && (f.StatusFrame? ==> v.data[3] % 16 == f.ls && v.data[3] / 0x40 == f.speed)
  {
    hide Front, DataTail, StatusTail, Flag, Epoch;
    var front, v := Front(Bit(f.DataFrame?), toggle, prev, f.tick), HeaderIn(s.w, Header(f, toggle, prev));
    FrontFields(Bit(f.DataFrame?), toggle, prev, f.tick);
    assert v.data[0] == front[0];
    if f.DataFrame? {
      DataFields(f);
      assert v.data[3] == DataTail(f)[0] && v.data[4] == DataTail(f)[1];
    } else {
      StatusFields(f);
      assert v.data[3] == StatusTail(f)[0];
    }
  }

  /** Between frames at some speed, with c frames counted or in the batch. */
  predicate Counting(o: Opts, s: State, toggle: nat, prev: nat, speed: nat, c: nat) {
    && o.foldEmpty && Between(s.w, toggle, prev, Gate(true, 0)) && !s.done && s.limit <= 0
    && s.w.speedIn == speed && s.w.ls == 0 && |s.foldBuf| == (if c == 0 then 0 else 1) && s.foldCount == c - |s.foldBuf|
  }

  lemma HeaderPart(o: Opts, s: State, f: Sent, toggle: nat, prev: nat, speed: nat, c: nat)
    requires Counting(o, s, toggle, prev, speed, c) && toggle < 2 && Legal(f) && Close(prev, f.tick)
    requires f.DataFrame? && f.payload != [] && !f.overflow && !f.crcError && !f.dataError
    ensures var a := Feed(o, s, Header(f, toggle, prev));
      && FoldStays(s, a) && WalkOk(a.w) && a.w.ptr == 0 && !a.w.header && a.w.size == |f.payload| && a.w.enabled
      && !Flagged(a.w) && !a.w.overflow && a.w.ts == Ns(f.tick) && !a.done && a.limit <= 0
  {
    hide Front, DataTail, HeaderDone, WalkHeader, Epoch, Ns, Flag, FrameSize, Feed, WalkOk, EffectiveSpeed;
    var h := Header(f, toggle, prev);
    OkIsSized(s.w);
    var u := s.(w := HeaderIn(s.w, h));
    HeaderIsRight(o, s, f, toggle, prev);
    HeaderSizes(f, toggle, prev);
    HeaderFed(o, s, h);
    DataHeaderStays(o, u);
    DataHeaderFlags(o, u);
    EpochOrder(prev, f.tick);
    HeaderWalked(o.trigger, s.w, f, toggle, prev, Gate(true, 0));
    HeaderCollected(o.trigger, s.w, h);
    SameHeader(o, u);
    UnlimitedConsumesAll(o, s, h);
    PacketCalls.UnlimitedFeed(o, s, h);
  }

  lemma HeaderSizes(f: Sent, toggle: nat, prev: nat)
    requires Legal(f) && toggle < 2
    ensures HeaderSized(Header(f, toggle, prev))
  {
    hide DataTail, StatusTail, Epoch;
    FrontFields(Bit(f.DataFrame?), toggle, prev, f.tick);
    assert Header(f, toggle, prev)[0] == Front(Bit(f.DataFrame?), toggle, prev, f.tick)[0];
  }

  lemma DataHeaderFlags(o: Opts, s: State)
    requires |s.w.data| == DATA_BUF_SIZE && s.w.size <= DATA_BUF_SIZE && !BadHeader(s.w) && !s.w.status
    requires var n := FrameSize(s.w); DATA_HEADER_SIZE <= n <= MAX_DATA_SIZE
    ensures HeaderDone(o, s).w.overflow == (Flag(s.w.data[3], 0x08) == 1)
  {
    hide HeaderFront, Tick, Flag;
    FrontStays(o, s);
    TickKeeps(s.w);
  }

  lemma OkIsSized(w: Walk)
    requires WalkOk(w)
    ensures |w.data| == DATA_BUF_SIZE
  {
  }

  /** The payload in the assembly buffer, with the header behind it. */
  lemma PayloadPart(o: Opts, a: State, p: seq<byte>)
    requires WalkOk(a.w) && a.w.ptr == 0 && !a.w.header && a.w.size == |p| && p != [] && !a.done
    ensures a.w.ptr + |p| <= |a.w.data|
    ensures var v := a.(w := Filled(a.w, p).(header := true));
      && |v.w.data| == DATA_BUF_SIZE && v.w.data[0] == p[0]
      && Feed(o, a, p) == (var d := DataEvent(o, v); d.(w := d.w.(ptr := 0)))
  {
    hide DataEvent;
    Completes(o, a, p);
  }

  lemma FrameSplits(o: Opts, s: State, f: Sent, toggle: nat, prev: nat)
    requires WalkOk(s.w) && Legal(f) && f.DataFrame? && toggle < 2
    ensures Feed(o, s, PrintFrame(f, toggle, prev)) == Feed(o, Feed(o, s, Header(f, toggle, prev)), f.payload)
  {
    hide Feed, Header, WalkOk;
    EndToEnd.FeedConcat(o, s, Header(f, toggle, prev), f.payload);
  }

  /** Where the walker stands behind a frame. */
  lemma FramePassed(o: Opts, s: State, f: Sent, toggle: nat, prev: nat, g: Gate)
    requires Legal(f) && toggle < 2 && Between(s.w, toggle, prev, g) && Close(prev, f.tick) && s.limit <= 0 && !s.done
    ensures var t := Feed(o, s, PrintFrame(f, toggle, prev));
      && Between(t.w, 1 - toggle, f.tick, if f.DataFrame? then g else Switch(o.trigger, g, Bit(f.trigger)))
      && t.limit <= 0 && !t.done
  {
    hide Header, WalkOk, Epoch, Ns, Switch, Feed;
    var p := PrintFrame(f, toggle, prev);
    EpochOrder(prev, f.tick);
    FrameWalked(o.trigger, s.w, f, toggle, prev, g);
    FeedWalks(o, s, p);
    UnlimitedConsumesAll(o, s, p);
    PacketCalls.UnlimitedFeed(o, s, p);
  }

  lemma {:induction false} FeedWalks(o: Opts, s: State, bytes: seq<byte>)
    requires WalkOk(s.w) && s.limit <= 0 && !s.done
    ensures Feed(o, s, bytes).w == WalkAll(o.trigger, s.w, bytes).0
    decreases |bytes|
  {
    hide CaptureSm, WalkSm, WalkOk;
    if bytes != [] {
      SameWalk(o, s, bytes[0]);
      UnlimitedByte(o, s, bytes[0]);
      FeedWalks(o, CaptureSm(o, s, bytes[0]), bytes[1..]);
    }
  }

  /** One more frame with nothing in it: the count grows by one unless it meets its limit. */
  lemma SofStep(o: Opts, s: State, toggle: nat, prev: nat, tick: nat, speed: nat, c: nat)
    requires Counting(o, s, toggle, prev, speed, c) && toggle < 2 && Close(prev, tick)
    requires SofsFold(o, speed) && c != Cap(o, s)
    ensures Counting(o, Feed(o, s, PrintFrame(Sof(tick), toggle, prev)), 1 - toggle, tick, speed, c + 1)
  {
    hide Feed, Header, PrintFrame, Epoch, Ns, WalkOk, DataEvent, EffectiveSpeed;
    var f := Sof(tick);
    HeaderPart(o, s, f, toggle, prev, speed, c);
    FrameSplits(o, s, f, toggle, prev);
    FramePassed(o, s, f, toggle, prev, Gate(true, 0));
    var a := Feed(o, s, Header(f, toggle, prev));
    PayloadPart(o, a, f.payload);
    var v := a.(w := Filled(a.w, f.payload).(header := true));
    SameCap(o, s, v);
    SofCounts(o, v);
  }

  lemma DataStep(o: Opts, s: State, toggle: nat, prev: nat, tick: nat, speed: nat, c: nat)
    requires Counting(o, s, toggle, prev, speed, c) && toggle < 2 && Close(prev, tick) && c >= 2
    ensures Ns(tick) < TWO64
    ensures Info(Ns(tick), Folded(c - 1)) in Feed(o, s, PrintFrame(Data(tick), toggle, prev)).out
  {
    hide Feed, Header, PrintFrame, Epoch, Ns, WalkOk, DataEvent, EffectiveSpeed;
    var f := Data(tick);
    HeaderPart(o, s, f, toggle, prev, speed, c);
    FrameSplits(o, s, f, toggle, prev);
    var a := Feed(o, s, Header(f, toggle, prev));
    PayloadPart(o, a, f.payload);
    DataFlushes(o, a.(w := Filled(a.w, f.payload).(header := true)));
  }

  /** The bus status of a capture without a trigger. */
  lemma BusStep(o: Opts, s: State, toggle: nat, prev: nat, f: Sent, g: Gate)
    requires Legal(f) && f.StatusFrame? && toggle < 2 && Between(s.w, toggle, prev, g) && Close(prev, f.tick)
    requires s.limit <= 0 && !s.done && (s.w.ls == f.ls || s.savedLs == LS_INVALID)
    ensures var t := Feed(o, s, PrintFrame(f, toggle, prev));
      t.foldCount == s.foldCount && t.foldBuf == s.foldBuf && t.w.speedIn == f.speed && t.w.ls == f.ls
  {
    hide Feed, Header, Epoch, WalkOk, HeaderDone;
    var h := Header(f, toggle, prev);
    assert PrintFrame(f, toggle, prev) == h;
    OkIsSized(s.w);
    HeaderIsRight(o, s, f, toggle, prev);
    HeaderSizes(f, toggle, prev);
    HeaderFed(o, s, h);
    StatusHeaderStays(o, s.(w := HeaderIn(s.w, h)));
  }

  // ---- The run ----

  lemma {:induction false} SlowRun(o: Opts, s: State, toggle: nat, prev: nat, tick: nat, c: nat, k: nat)
    requires Counting(o, s, toggle, prev, SPEED_FS, c) && toggle < 2 && c > FOLD_LIMIT_LS_FS
    requires Close(prev, tick) && Room(tick, 0, k)
    ensures AllLegal(Slow(tick, k)) && Ns(tick + k * FRAME) < TWO64
    ensures Info(Ns(tick + k * FRAME), Folded(c - 1 + k)) in Feed(o, s, PrintFrames(Slow(tick, k), toggle, prev)).out
    decreases k
  {
    hide Feed, PrintFrame, Epoch, Ns, WalkOk, Room;
    SlowIsLegal(prev, tick, k);
    if k == 0 {
      DataStep(o, s, toggle, prev, tick, SPEED_FS, c);
      OneFrame(Data(tick), toggle, prev);
    } else {
      var p, rest := PrintFrame(Sof(tick), toggle, prev), PrintFrames(Slow(tick + FRAME, k - 1), 1 - toggle, tick);
      RoomLater(tick, k);
      SofStep(o, s, toggle, prev, tick, SPEED_FS, c);
      SlowRun(o, Feed(o, s, p), 1 - toggle, tick, tick + FRAME, c + 1, k - 1);
      EndToEnd.FeedConcat(o, s, p, rest);
    }
  }

  lemma RoomLater(tick: nat, k: nat)
    requires Room(tick, 0, k) && k > 0
    ensures Close(tick, tick + FRAME) && Room(tick + FRAME, 0, k - 1)
      && tick + FRAME + (k - 1) * FRAME == tick + k * FRAME
  {
    hide Epoch;
    NextClose(tick, FRAME);
  }

  /** The change to full speed: the count stays as it is, above the limit that is now in force. */
  lemma SpeedStep(o: Opts, s: State, toggle: nat, prev: nat, tick: nat, c: nat)
    requires Counting(o, s, toggle, prev, SPEED_HS, c) && toggle < 2 && Close(prev, tick)
    ensures Counting(o, Feed(o, s, PrintFrame(Bus(tick, SPEED_FS), toggle, prev)), 1 - toggle, tick, SPEED_FS, c)
  {
    hide Feed, PrintFrame, Epoch, Ns, WalkOk;
    BusStep(o, s, toggle, prev, Bus(tick, SPEED_FS), Gate(true, 0));
    FramePassed(o, s, Bus(tick, SPEED_FS), toggle, prev, Gate(true, 0));
  }

  lemma {:induction false} FastRun(o: Opts, s: State, toggle: nat, prev: nat, tick: nat, n: nat, k: nat)
    requires n <= FOLD_LIMIT_LS_FS + 1 && Counting(o, s, toggle, prev, SPEED_HS, FOLD_LIMIT_LS_FS + 1 - n) && toggle < 2
    requires Close(prev, tick) && Room(tick, n, k)
    ensures AllLegal(Fast(tick, n, k)) && Ns(LastTick(tick, n, k)) < TWO64
    ensures Info(Ns(LastTick(tick, n, k)), Folded(FOLD_LIMIT_LS_FS + k))
      in Feed(o, s, PrintFrames(Fast(tick, n, k), toggle, prev)).out
    decreases n
  {
    hide Feed, PrintFrame, Epoch, Ns, WalkOk, Room, LastTick;
    FastIsLegal(prev, tick, n, k);
    RoomNext(tick, n, k);
    if n == 0 {
      var p, rest := PrintFrame(Bus(tick, SPEED_FS), toggle, prev), PrintFrames(Slow(tick, k), 1 - toggle, tick);
      SpeedStep(o, s, toggle, prev, tick, FOLD_LIMIT_LS_FS + 1);
      SlowRun(o, Feed(o, s, p), 1 - toggle, tick, tick, FOLD_LIMIT_LS_FS + 1, k);
      EndToEnd.FeedConcat(o, s, p, rest);
    } else {
      var p := PrintFrame(Sof(tick), toggle, prev);
      var rest := PrintFrames(Fast(tick + MICROFRAME, n - 1, k), 1 - toggle, tick);
      SofStep(o, s, toggle, prev, tick, SPEED_HS, FOLD_LIMIT_LS_FS + 1 - n);
      FastRun(o, Feed(o, s, p), 1 - toggle, tick, tick + MICROFRAME, n - 1, k);
      EndToEnd.FeedConcat(o, s, p, rest);
    }
  }

  function LastTick(tick: nat, n: nat, k: nat): nat { tick + n * MICROFRAME + k * FRAME }

  lemma RoomNext(tick: nat, n: nat, k: nat)
    requires Room(tick, n, k)
    ensures n == 0 ==> Close(tick, tick) && LastTick(tick, n, k) == tick + k * FRAME
    ensures n > 0 ==> Close(tick, tick + MICROFRAME) && Room(tick + MICROFRAME, n - 1, k)
    ensures n > 0 ==> LastTick(tick, n, k) == LastTick(tick + MICROFRAME, n - 1, k)
  {
    hide Epoch;
    NextClose(tick, if n == 0 then 0 else MICROFRAME);
  }

  lemma AnnouncedCounts(o: Opts, limit: int)
    requires o.trigger.Disabled? && limit <= 0
    ensures var s := Announce(o, Fresh(limit));
      && Between(s.w, 0, 0, Gate(true, -1)) && s.limit <= 0 && !s.done && s.savedLs == LS_INVALID && s.foldBuf == []
      && s.foldCount == 0
  {
    assert Epoch(0) == 0;
  }

  /**
   For every k a legal session from the announcement on, 1001 micro-frames and k frames
   with nothing in them, that ends with a "Folded" record of N = 1000 + k at full speed.
   */
  lemma FoldedIsUnbounded(o: Opts, limit: int, k: nat)
    requires o.foldEmpty && o.trigger.Disabled? && limit <= 0
    requires Room(0, FOLD_LIMIT_LS_FS + 1, k)
    ensures var s, fs, end := Announce(o, Fresh(limit)), Session(k), LastTick(0, FOLD_LIMIT_LS_FS + 1, k);
      && AllLegal(fs) && ClockOk(fs, 0) && WalkOk(s.w) && Ns(end) < TWO64
      && Info(Ns(end), Folded(FOLD_LIMIT_LS_FS + k)) in Feed(o, s, PrintFrames(fs, 0, 0)).out
  {
    hide Feed, PrintFrame, Epoch, Ns, WalkOk, Room, LastTick, Announce, Fast;
    var s, f := Announce(o, Fresh(limit)), Bus(0, SPEED_HS);
    var n := FOLD_LIMIT_LS_FS + 1;
    FirstClose(n, k);
    FastIsLegal(0, 0, n, k);
    AnnouncedCounts(o, limit);
    BusStep(o, s, 0, 0, f, Gate(true, -1));
    FramePassed(o, s, f, 0, 0, Gate(true, -1));
    var p, rest := PrintFrame(f, 0, 0), PrintFrames(Fast(0, n, k), 1, 0);
    FastRun(o, Feed(o, s, p), 1, 0, 0, n, k);
    EndToEnd.FeedConcat(o, s, p, rest);
    assert Session(k)[1..] == Fast(0, n, k);
  }

  lemma FirstClose(n: nat, k: nat)
    requires Room(0, n, k)
    ensures Close(0, 0)
  {
  }
}
