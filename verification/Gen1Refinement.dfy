/**
 The second generation does what the first did: on streams that neither loses track of,
 with folding off and the speed detected, both write the same records.
 */
module Gen1Refinement {
  import opened Bytes
  import opened PacketModel
  import opened Walker
  import opened TimeLaws
  import G = Gen1
  import L = LineStates

  predicate Plain(o: Opts, s: State) {
    !o.foldEmpty && o.speed == SPEED_RESET && s.foldBuf == [] && s.foldCount == 0
  }

  // ---- Emitters ----

  lemma LineStateSame(o: Opts, s: State)
    requires Plain(o, s)
    ensures G.LineStateEvent(o, s) == LineStateEvent(o, s) && Plain(o, LineStateEvent(o, s))
    ensures LineStateEvent(o, s).savedTs == s.savedTs && LineStateEvent(o, s).savedLs == LS_INVALID
  {
    hide ToS32, Wrap64;
  }

  lemma InfoSame(o: Opts, s: State, ts: u64, note: Note)
    requires Plain(o, s)
    ensures G.CaptureInfo(o, s, ts, note) == CaptureInfo(o, s, ts, note) && Plain(o, CaptureInfo(o, s, ts, note))
    ensures CaptureInfo(o, s, ts, note).savedTs == s.savedTs && CaptureInfo(o, s, ts, note).savedLs == LS_INVALID
  {
    hide LineStateEvent, G.LineStateEvent;
    LineStateSame(o, s);
  }

  lemma NowSame(o: Opts, s: State, note: Note)
    requires Plain(o, s)
    ensures G.Now(o, s, note) == Now(o, s, note) && Plain(o, Now(o, s, note))
    ensures Now(o, s, note).savedTs == s.savedTs && Now(o, s, note).savedLs == LS_INVALID
  {
    hide CaptureInfo, G.CaptureInfo;
    InfoSame(o, s, s.w.ts, note);
  }

  lemma LimitSame(o: Opts, s: State)
    requires Plain(o, s)
    ensures G.CheckCaptureLimit(o, s) == CheckCaptureLimit(o, s) && Plain(o, CheckCaptureLimit(o, s))
  {
    hide Now, G.Now;
    NowSame(o, s.(limit := s.limit - 1), LimitReached);
  }

  lemma KeepaliveSame(o: Opts, s: State, ts: u64, delta: int)
    requires Plain(o, s)
    ensures G.KeepaliveEvent(o, s, ts, delta) == KeepaliveEvent(o, s, ts, delta)
    ensures Plain(o, KeepaliveEvent(o, s, ts, delta))
  {
    hide CaptureInfo, G.CaptureInfo, CheckCaptureLimit, G.CheckCaptureLimit, Refold, G.Refold;
    if s.w.enabled {
      var k := s.(keepalives := s.keepalives + 1);
      InfoSame(o, k, ts, KeepAlive);
      LimitSame(o, CaptureInfo(o, k, ts, KeepAlive));
    }
  }

  // ---- Frames ----

  lemma PreludeSame(o: Opts, s: State)
    requires Plain(o, s)
    ensures G.DataPrelude(o, s) == DataPrelude(o, s) && Plain(o, DataPrelude(o, s))
  {
    hide LineStateEvent, G.LineStateEvent, Now, G.Now;
    LineStateSame(o, s);
    var b := LineStateEvent(o, s);
    NowSame(o, b, HardwareOverflow);
    NowSame(o, if b.w.overflow then Now(o, b, HardwareOverflow) else b, PhyError);
  }

  lemma DataSame(o: Opts, s: State)
    requires Plain(o, s) && 0 < s.w.size <= |s.w.data|
    ensures G.DataEvent(o, s) == DataEvent(o, s) && Plain(o, DataEvent(o, s))
  {
    hide DataPrelude, G.DataPrelude, CheckCaptureLimit, G.CheckCaptureLimit, Refold, G.Refold, EffectiveSpeed;
    if s.w.enabled {
      PreludeSame(o, s);
      LimitSame(o, FoldOrWrite(o, DataPrelude(o, s)));
    }
  }

  // ---- Bus status ----

  lemma TriggerSame(o: Opts, s: State, level: int)
    requires Plain(o, s)
    ensures var t := TriggerChange(o, s, level);
      && G.TriggerChange(o, s, level) == t && Plain(o, t)
      && t.savedTs == s.savedTs && t.savedLs == if s.w.trig == level then s.savedLs else LS_INVALID
  {
    hide Now, G.Now, TriggerEnabled;
    if s.w.trig != level {
      var u := s.(w := s.w.(enabled := TriggerEnabled(o.trigger, s.w, level), trig := level));
      NowSame(o, u, TriggerInput(level));
      NowSame(o, Now(o, u, TriggerInput(level)), StartingCapture);
      NowSame(o, Now(o, u, TriggerInput(level)), WaitingForTrigger);
    }
  }

  lemma VbusSame(o: Opts, s: State, vbus: int)
    requires Plain(o, s)
    ensures var t := VbusChange(o, s, vbus);
      && G.VbusChange(o, s, vbus) == t && Plain(o, t)
      && t.savedTs == s.savedTs && t.savedLs == if s.w.vbus == vbus then s.savedLs else LS_INVALID
  {
    hide Now, G.Now;
    if s.w.vbus != vbus { NowSame(o, s.(w := s.w.(vbus := vbus)), Vbus(vbus != 0)); }
  }

  lemma SpeedSame(o: Opts, s: State, speed: int)
    requires Plain(o, s)
    ensures var t := SpeedChange(o, s, speed);
      && G.SpeedChange(o, s, speed) == t && Plain(o, t)
      && t.savedTs == s.savedTs && t.savedLs == if s.w.speedIn == speed || !s.w.enabled then s.savedLs else LS_INVALID
  {
    hide Now, G.Now;
    if s.w.speedIn != speed {
      var u := s.(w := s.w.(speedIn := speed));
      NowSame(o, u, BusReset);
      NowSame(o, u, DetectedSpeed(speed));
    }
  }

  /** An interval that is a keep-alive in its low 32 bits only. */
  predicate WrapsIntoWindow(interval: u64) {
    interval >= 0x1_0000_0000 && MIN_KEEPALIVE_DURATION < interval % 0x1_0000_0000 < MAX_KEEPALIVE_DURATION
  }

  /** The 64-bit test and the test on the narrowed interval differ on exactly these. */
  lemma VerdictsDiffer(interval: u64)
    ensures WrapsIntoWindow(interval)
      <==> (MIN_KEEPALIVE_DURATION < interval < MAX_KEEPALIVE_DURATION)
           != (MIN_KEEPALIVE_DURATION < ToS32(interval) < MAX_KEEPALIVE_DURATION)
  {
  }

  /** Both generations look at the interval only here: low speed, SE0 pending, and the line goes to J. */
  predicate TestsInterval(s: State, ls: int) {
    s.w.ls != ls && s.w.speedIn == SPEED_LS && s.savedLs == LS_SE0 && ls == LS_J3
  }

  /** A line-state change is handled alike exactly if no interval test is made or the interval does not wrap. */
  lemma LineChangesAgree(o: Opts, s: State, ls: int)
    requires Plain(o, s)
    ensures G.LineChange(o, s, ls) == LineChange(o, s, ls)
      <==> !(TestsInterval(s, ls) && WrapsIntoWindow(Wrap64(s.w.ts - s.savedTs)))
    ensures G.LineChange(o, s, ls) != LineChange(o, s, ls)
      ==> G.LineChange(o, s, ls).savedLs != LineChange(o, s, ls).savedLs
    ensures Plain(o, LineChange(o, s, ls))
  {
    hide KeepaliveEvent, G.KeepaliveEvent, LineStateEvent, G.LineStateEvent, ToS32, Wrap64, WrapsIntoWindow;
    VerdictsDiffer(Wrap64(s.w.ts - s.savedTs));
    if s.w.ls != ls {
      var t := s.(w := s.w.(ls := ls));
      var k, delta := t.(savedLs := LS_INVALID), ToS32(Wrap64(s.w.ts - s.savedTs));
      KeepaliveSame(o, k, s.savedTs, delta);
      KeepaliveClears(o, k, s.savedTs, delta);
      LineStateSame(o, t);
    }
  }

  lemma KeepaliveClears(o: Opts, s: State, ts: u64, delta: int)
    requires s.savedLs == LS_INVALID && !o.foldEmpty
    ensures KeepaliveEvent(o, s, ts, delta).savedLs == LS_INVALID
  {
  }

  lemma StatusesAgree(o: Opts, s: State, ls: int, vbus: int, level: int, speed: int)
    requires Plain(o, s)
    ensures G.StatusEvent(o, s, ls, vbus, level, speed) == StatusEvent(o, s, ls, vbus, level, speed)
      <==> !(!L.Speaks(s.w, vbus, level, speed) && s.w.ls != ls && speed == SPEED_LS
             && s.savedLs == LS_SE0 && ls == LS_J3 && WrapsIntoWindow(Wrap64(s.w.ts - s.savedTs)))
    ensures var d, e := G.StatusEvent(o, s, ls, vbus, level, speed), StatusEvent(o, s, ls, vbus, level, speed);
      (d != e ==> d.savedLs != e.savedLs) && Plain(o, e)
  {
    hide TriggerChange, G.TriggerChange, VbusChange, G.VbusChange, SpeedChange, G.SpeedChange, LineChange, G.LineChange,
         WrapsIntoWindow, Wrap64;
    TriggerSame(o, s, level);
    TriggerWalk(o, s, level);
    var a := TriggerChange(o, s, level);
    VbusSame(o, a, vbus);
    VbusWalk(o, a, vbus);
    var b := VbusChange(o, a, vbus);
    SpeedSame(o, b, speed);
    SpeedWalk(o, b, speed);
    LineChangesAgree(o, SpeedChange(o, b, speed), ls);
  }

  // ---- One byte ----

  /** Header v is in step and of a legal size. */
  predicate InStep(v: Walk)
    requires |v.data| == DATA_BUF_SIZE
  {
    !BadHeader(v) && (v.status || DATA_HEADER_SIZE <= FrameSize(v) <= MAX_DATA_SIZE)
  }

  /**
   The one case in which the generations part: a status frame that finds the capture waiting
   for its trigger, changes neither trigger nor VBUS, and ends a low-speed SE0 in J after an
   interval that wraps into the window.
   */
  predicate Parts(savedLs: int, savedTs: u64, v: Walk)
    requires |v.data| == DATA_BUF_SIZE
  {
    var d3 := v.data[3];
    && v.status && !v.enabled && Flag(d3, 0x20) == v.trig && Flag(d3, 0x10) == v.vbus
    && d3 / 0x40 == SPEED_LS && d3 % 16 == LS_J3 && v.ls != LS_J3
    && savedLs == LS_SE0 && WrapsIntoWindow(Wrap64(Tick(v).ts - savedTs))
  }

  /** The signed and the unsigned reading of the silence so far agree while time does not run back. */
  lemma SilenceSame(ts: u64, last: u64)
    requires last <= ts && ts * 6 < TWO64
    ensures ToS64(Wrap64(ts - last)) == Wrap64(ts - last) == ts - last
  {
  }

  lemma ClockSmall(tsInt: u64, low: nat)
    ensures ClockNs(tsInt, low) * 6 < TWO64
  {
    hide BitOr;
  }

  /** A capture that runs says something every two seconds, so a pending line state is never older. */
  lemma PendingIsYoung(o: Opts, s: State)
    requires OnTime(s) && |s.w.data| == DATA_BUF_SIZE && s.w.size <= DATA_BUF_SIZE && s.w.ts <= Tick(s.w).ts
    requires !BadHeader(s.w) && HeaderFront(o, s).savedLs != LS_INVALID && s.w.enabled
    ensures s.savedLs != LS_INVALID && !WrapsIntoWindow(Wrap64(Tick(s.w).ts - s.savedTs))
  {
    hide Tick, Flag, ToS64, Ordered, EffectiveSpeed, ToS32;
    TickKeeps(s.w);
    TickKeepsBus(s.w);
    TickIsSmall(s.w);
    SilenceSame(Tick(s.w).ts, s.lastTs);
    L.NowClears(o, s.(w := Tick(s.w)), PeriodicUpdate);
  }

  lemma TickKeepsBus(w: Walk)
    requires |w.data| == DATA_BUF_SIZE
    ensures var v := Tick(w);
      && v.enabled == w.enabled && v.trig == w.trig && v.vbus == w.vbus && v.speedIn == w.speedIn && v.ls == w.ls
  {
  }

  lemma FrontSame(o: Opts, s: State)
    requires Plain(o, s) && OnTime(s) && |s.w.data| == DATA_BUF_SIZE && s.w.size <= DATA_BUF_SIZE
    requires !BadHeader(s.w) && s.w.ts <= Tick(s.w).ts
    ensures var c := HeaderFront(o, s);
      && c == (if Wrap64(Tick(s.w).ts - s.lastTs) > UPDATE_INTERVAL then G.TimeoutEvent(o, s.(w := Tick(s.w)))
               else s.(w := Tick(s.w)))
      && c.w == Tick(s.w) && c.savedTs == s.savedTs && c.savedLs in {s.savedLs, LS_INVALID} && Plain(o, c)
      && (!s.w.enabled ==> c.savedLs == s.savedLs)
  {
    hide Tick, Flag, ToS64, Now, G.Now, Ordered, Wrap64;
    TickKeeps(s.w);
    TickKeepsBus(s.w);
    TickIsSmall(s.w);
    SilenceSame(Tick(s.w).ts, s.lastTs);
    NowSame(o, s.(w := Tick(s.w)), PeriodicUpdate);
  }

  /** The exact condition, at every state on time and every header in step that does not turn the clock back. */
  lemma HeadersAgree(o: Opts, s: State)
    requires Plain(o, s) && OnTime(s) && |s.w.data| == DATA_BUF_SIZE && 0 <= s.w.size <= DATA_BUF_SIZE
    requires InStep(s.w) && s.w.ts <= Tick(s.w).ts
    ensures G.HeaderDone(o, s) == HeaderDone(o, s) <==> !Parts(s.savedLs, s.savedTs, s.w)
    ensures Plain(o, HeaderDone(o, s))
  {
    hide Tick, FrameSize, Flag, StatusEvent, G.StatusEvent, StartPayload, Now, G.Now, ToS64, Wrap64, WrapsIntoWindow,
         Ordered, HeaderFront, G.TimeoutEvent, OnTime;
    FrontSame(o, s);
    TickKeeps(s.w);
    TickKeepsBus(s.w);
    FrameSizeKept(s.w);
    var c := HeaderFront(o, s);
    if s.w.status {
      var d3 := c.w.data[3];
      var ls, vbus, level, speed := d3 % 16, Flag(d3, 0x10), Flag(d3, 0x20), d3 / 0x40;
      StatusesAgree(o, c, ls, vbus, level, speed);
      if s.w.enabled && c.savedLs != LS_INVALID { PendingIsYoung(o, s); }
    }
  }

  lemma FrameSizeKept(w: Walk)
    requires |w.data| == DATA_BUF_SIZE
    ensures FrameSize(Tick(w)) == FrameSize(w)
  {
  }

  lemma TickIsSmall(w: Walk)
    requires |w.data| == DATA_BUF_SIZE
    ensures Tick(w).ts * 6 < TWO64
  {
    hide ClockNs, Flag;
    var ts20 := w.data[0] as int % 16 * 0x1_0000 + w.data[1] as int * 0x100 + w.data[2] as int;
    ClockSmall(if Flag(w.data[0], 0x10) == 1 then Wrap64(w.tsInt + 0x10_0000) else w.tsInt, ts20);
  }

  predicate ByteInStep(w: Walk, b: byte)
    requires WalkOk(w)
  {
    var v := Store(w, b);
    v.ptr >= v.size && v.header ==> InStep(v)
  }

  predicate ByteParts(s: State, b: byte)
    requires WalkOk(s.w)
  {
    var v := Store(s.w, b);
    v.ptr >= v.size && v.header && Parts(s.savedLs, s.savedTs, v)
  }

  lemma HeaderByteAgrees(o: Opts, s: State, b: byte)
    requires Plain(o, s) && WalkOk(s.w) && OnTime(s) && ByteInStep(s.w, b)
    requires var v := Store(s.w, b); v.ptr >= v.size && v.header
    requires s.w.ts <= WalkSm(o.trigger, s.w, b).0.ts
    ensures G.CaptureSm(o, s, b) == CaptureSm(o, s, b) <==> !ByteParts(s, b)
    ensures Plain(o, CaptureSm(o, s, b))
  {
    hide HeaderDone, G.HeaderDone, PayloadDone, G.PayloadDone, InStep, Parts, WalkHeader, Tick, Ordered;
    var t := s.(w := Store(s.w, b));
    StepClock(o.trigger, t.w);
    HeadersAgree(o, t);
  }

  lemma PayloadByteSame(o: Opts, s: State, b: byte)
    requires Plain(o, s) && WalkOk(s.w)
    requires var v := Store(s.w, b); v.ptr >= v.size && !v.header
    ensures G.CaptureSm(o, s, b) == CaptureSm(o, s, b) && Plain(o, CaptureSm(o, s, b))
  {
    hide HeaderDone, G.HeaderDone, DataEvent, G.DataEvent;
    DataSame(o, s.(w := Store(s.w, b).(header := true)));
  }

  /** Byte by byte, the two generations agree exactly if they do not part. */
  lemma BytesAgree(o: Opts, s: State, b: byte)
    requires Plain(o, s) && WalkOk(s.w) && OnTime(s) && ByteInStep(s.w, b)
    requires s.w.ts <= WalkSm(o.trigger, s.w, b).0.ts
    ensures G.CaptureSm(o, s, b) == CaptureSm(o, s, b) <==> !ByteParts(s, b)
    ensures Plain(o, CaptureSm(o, s, b))
  {
    hide HeaderDone, G.HeaderDone, PayloadDone, G.PayloadDone, InStep, Parts, WalkSm, OnTime;
    var v := Store(s.w, b);
    if v.ptr >= v.size {
      if v.header { HeaderByteAgrees(o, s, b); } else { PayloadByteSame(o, s, b); }
    }
  }

  lemma StepClock(trigger: Trigger, v: Walk)
    requires |v.data| == DATA_BUF_SIZE && v.size <= DATA_BUF_SIZE && InStep(v)
    ensures WalkHeader(trigger, v).0.ts == Tick(v).ts
  {
    hide Tick, Flag, FrameSize;
    FrameSizeKept(v);
  }

  // ---- Whole runs ----

  function Gen1Feed(o: Opts, s: State, bytes: seq<byte>): State
    requires WalkOk(s.w)
    decreases |bytes|
  {
    if bytes == [] || s.done then s
    else
      var t := G.CaptureSm(o, s, bytes[0]);
      if WalkOk(t.w) then Gen1Feed(o, t, bytes[1..]) else t
  }

  /** Every header of the run is in step. */
  predicate RunsInStep(o: Opts, s: State, bytes: seq<byte>)
    requires WalkOk(s.w)
    decreases |bytes|
  {
    bytes == [] || s.done ||
    (SameWalk(o, s, bytes[0]);
     ByteInStep(s.w, bytes[0]) && RunsInStep(o, CaptureSm(o, s, bytes[0]), bytes[1..]))
  }

  /** No header of the run is one at which the generations part. */
  predicate NeverParts(o: Opts, s: State, bytes: seq<byte>)
    requires WalkOk(s.w)
    decreases |bytes|
  {
    bytes == [] || s.done ||
    (SameWalk(o, s, bytes[0]);
     !ByteParts(s, bytes[0]) && NeverParts(o, CaptureSm(o, s, bytes[0]), bytes[1..]))
  }

  /** Both generations go through the same states, and so write the same records. */
  lemma {:induction false} GenerationsAgree(o: Opts, s: State, bytes: seq<byte>)
    requires WalkOk(s.w) && Plain(o, s) && OnTime(s) && ClockRuns(o.trigger, s.w, bytes)
    requires RunsInStep(o, s, bytes) && NeverParts(o, s, bytes)
    ensures Gen1Feed(o, s, bytes) == Feed(o, s, bytes)
    decreases |bytes|
  {
    hide OnTime, Ordered, CaptureSm, G.CaptureSm, WalkSm, WalkOk, ByteInStep, ByteParts, Plain;
    if bytes != [] && !s.done {
      SameWalk(o, s, bytes[0]);
      BytesAgree(o, s, bytes[0]);
      ByteOnTime(o, s, bytes[0]);
      GenerationsAgree(o, CaptureSm(o, s, bytes[0]), bytes[1..]);
    }
  }

  /** Without a trigger a capture that runs goes on running. */
  lemma StaysEnabled(o: Opts, s: State, b: byte)
    requires WalkOk(s.w) && o.trigger.Disabled? && s.w.enabled
    ensures CaptureSm(o, s, b).w.enabled && !ByteParts(s, b)
  {
    hide Tick, Flag, FrameSize, WrapsIntoWindow;
    SameWalk(o, s, b);
    var v := Store(s.w, b);
    if v.ptr >= v.size && v.header {
      HeaderKeepsEnabled(v);
    }
  }

  lemma HeaderKeepsEnabled(v: Walk)
    requires |v.data| == DATA_BUF_SIZE && v.size <= DATA_BUF_SIZE && v.enabled
    ensures WalkHeader(Disabled, v).0.enabled
  {
    hide Flag, FrameSize, ClockNs;
    TickKeeps(if BadHeader(v) then Resync(v) else v);
    TickKeepsBus(if BadHeader(v) then Resync(v) else v);
  }

  lemma {:induction false} EnabledNeverParts(o: Opts, s: State, bytes: seq<byte>)
    requires WalkOk(s.w) && o.trigger.Disabled? && s.w.enabled
    ensures NeverParts(o, s, bytes)
    decreases |bytes|
  {
    hide CaptureSm, WalkOk, ByteParts;
    if bytes != [] && !s.done {
      SameWalk(o, s, bytes[0]);
      StaysEnabled(o, s, bytes[0]);
      EnabledNeverParts(o, CaptureSm(o, s, bytes[0]), bytes[1..]);
    }
  }

  /**
   From the announcement of a fresh capture, for any trigger: the same states and records while the
   generations do not part.
   */
  lemma SameRecords(o: Opts, limit: int, bytes: seq<byte>)
    requires !o.foldEmpty && o.speed == SPEED_RESET
    requires var s := Announce(o, Fresh(limit));
      ClockRuns(o.trigger, s.w, bytes) && RunsInStep(o, s, bytes) && NeverParts(o, s, bytes)
    ensures var s := Announce(o, Fresh(limit)); Gen1Feed(o, s, bytes) == Feed(o, s, bytes)
  {
    GenerationsAgree(o, Announce(o, Fresh(limit)), bytes);
  }

  /** Without a trigger they never part: identical files for every stream in step whose clock does not run back. */
  lemma SameRecordsWithoutTrigger(o: Opts, limit: int, bytes: seq<byte>)
    requires !o.foldEmpty && o.speed == SPEED_RESET && o.trigger.Disabled?
    requires var s := Announce(o, Fresh(limit)); ClockRuns(o.trigger, s.w, bytes) && RunsInStep(o, s, bytes)
    ensures var s := Announce(o, Fresh(limit)); Gen1Feed(o, s, bytes) == Feed(o, s, bytes)
  {
    EnabledNeverParts(o, Announce(o, Fresh(limit)), bytes);
    SameRecords(o, limit, bytes);
  }

  /** The announcement itself is the same. */
  lemma AnnounceSame(o: Opts, limit: int)
    requires !o.foldEmpty && o.speed == SPEED_RESET
    ensures Announce(o, Fresh(limit))
      == if o.trigger.Disabled?
         then var u := G.CaptureInfo(o, Fresh(limit), 0, StartingCapture); u.(w := u.w.(enabled := true))
         else G.Now(o, Fresh(limit), WaitingForTrigger)
  {
  }
}
