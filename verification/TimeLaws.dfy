/**
 Output time. As long as the decoded clock does not run backwards, the records of both
 interfaces leave in non-decreasing time order, folding or not, although line states
 are written late, folded frames later still, and keep-alives at a past instant.
 */
module TimeLaws {
  import opened Bytes
  import opened PacketModel
  import opened Walker

  ghost predicate Ordered(rs: seq<Record>) {
    forall i, j :: 0 <= i <= j < |rs| ==> rs[i].ts <= rs[j].ts
  }

  predicate LastWritten(s: State) {
    s.lastTs == if s.out == [] then 0 else s.out[|s.out| - 1].ts
  }

  /** Nothing is in the future, and a pending line state lies between the last record and now. */
  ghost predicate OnTime(s: State) {
    && Ordered(s.out) && LastWritten(s)
    && s.lastTs <= s.w.ts
    && (s.savedLs != LS_INVALID ==> s.lastTs <= s.savedTs <= s.w.ts)
    && (forall i :: 0 <= i < |s.foldBuf| ==> s.foldBuf[i].ts <= s.w.ts)
  }

  /** On time with no line state pending. */
  ghost predicate Clear(s: State) {
    OnTime(s) && s.savedLs == LS_INVALID
  }

  lemma EmitOnTime(s: State, r: Record)
    requires Clear(s) && s.lastTs <= r.ts <= s.w.ts
    ensures Clear(Emit(s, r))
  {
    var t := Emit(s, r);
    forall i, j | 0 <= i <= j < |t.out| ensures t.out[i].ts <= t.out[j].ts {
      if j == |s.out| && i < j {
        assert s.out[i].ts <= s.out[|s.out| - 1].ts;
      }
    }
  }

  lemma LineStateOnTime(o: Opts, s: State)
    requires OnTime(s)
    ensures var t := LineStateEvent(o, s);
      Clear(t) && t.lastTs <= (if s.savedLs == LS_INVALID then s.lastTs else s.savedTs)
  {
    hide ToS32, Wrap64, EffectiveSpeed, Ordered;
    if s.savedLs != LS_INVALID {
      var t := s.(savedLs := LS_INVALID);
      var note := LineState(s.savedLs, ToS32(Wrap64(s.w.ts - s.savedTs)), EffectiveSpeed(o, s.w) == SPEED_LS);
      EmitOnTime(t, Info(s.savedTs, note));
    }
  }

  lemma InfoOnTime(o: Opts, s: State, ts: u64, note: Note)
    requires Clear(s) && s.lastTs <= ts <= s.w.ts
    ensures Clear(CaptureInfo(o, s, ts, note))
  {
    EmitOnTime(s, Info(ts, note));
  }

  lemma NowOnTime(o: Opts, s: State, note: Note)
    requires OnTime(s)
    ensures Clear(Now(o, s, note))
  {
    hide Ordered, LineStateEvent;
    var t := LineStateEvent(o, s);
    LineStateOnTime(o, s);
    EmitOnTime(t, Info(s.w.ts, note));
  }

  lemma LimitOnTime(o: Opts, s: State)
    requires Clear(s)
    ensures Clear(CheckCaptureLimit(o, s))
  {
    hide Ordered, Now;
    NowOnTime(o, s.(limit := s.limit - 1), LimitReached);
  }

  /** A late entry is written at its own time or at the last written one, whichever is later. */
  lemma {:induction false} FlushOnTime(o: Opts, s: State, fs: seq<CaptureFrame>)
    requires Clear(s) && forall i :: 0 <= i < |fs| ==> fs[i].ts <= s.w.ts
    ensures Clear(WriteAllFolded(o, s, fs))
    decreases |fs|
  {
    hide Ordered, CaptureInfo;
    if fs != [] {
      var n := |fs| - 1;
      var a := WriteAllFolded(o, s, fs[..n]);
      FlushOnTime(o, s, fs[..n]);
      var ts := Max(fs[n].ts, a.lastTs);
      InfoOnTime(o, a, ts, KeepAlive);
      EmitOnTime(a, Frame(ts, fs[n].data, false));
    }
  }

  lemma StopFoldingOnTime(o: Opts, s: State)
    requires Clear(s)
    ensures Clear(StopFolding(o, s))
  {
    hide Ordered, Now, WriteAllFolded;
    if s.foldCount != 0 || s.foldBuf != [] {
      var a := s.(foldCount := 0, foldBuf := []);
      FlushOnTime(o, a, s.foldBuf);
      NowOnTime(o, WriteAllFolded(o, a, s.foldBuf), Folded(s.foldCount));
    }
  }

  lemma RefoldOnTime(o: Opts, s: State, foldLimit: int, f: CaptureFrame)
    requires Clear(s) && f.ts <= s.w.ts
    ensures Clear(Refold(o, s, foldLimit, f))
  {
    hide Ordered, StopFolding;
    StopFoldingOnTime(o, s.(foldCount := s.foldCount + 1, foldBuf := []));
  }

  lemma KeepaliveOnTime(o: Opts, s: State, ts: u64, delta: int)
    requires Clear(s) && s.lastTs <= ts <= s.w.ts
    ensures Clear(KeepaliveEvent(o, s, ts, delta))
  {
    hide Ordered, CaptureInfo, Refold, CheckCaptureLimit;
    if s.w.enabled {
      var k := s.(keepalives := s.keepalives + 1);
      var f := CaptureFrame(ts, -delta, []);
      InfoOnTime(o, k, ts, KeepAlive);
      RefoldOnTime(o, k, FOLD_LIMIT_LS_FS, f);
      LimitOnTime(o, if !o.foldEmpty then CaptureInfo(o, k, ts, KeepAlive) else Refold(o, k, FOLD_LIMIT_LS_FS, f));
    }
  }

  lemma DataOnTime(o: Opts, s: State)
    requires OnTime(s) && 0 < s.w.size <= |s.w.data|
    ensures OnTime(DataEvent(o, s))
  {
    hide Ordered, LineStateEvent, StopFolding, Now, FoldOrWrite, CheckCaptureLimit;
    if s.w.enabled {
      var a := LineStateEvent(o, s);
      LineStateOnTime(o, s);
      StopFoldingOnTime(o, a);
      var b := if a.w.overflow || Flagged(a.w) || |a.foldBuf| == FOLD_BUF_SIZE then StopFolding(o, a) else a;
      NowOnTime(o, b, HardwareOverflow);
      var c := if b.w.overflow then Now(o, b, HardwareOverflow) else b;
      NowOnTime(o, c, PhyError);
      var d := DataPrelude(o, s);
      FoldOrWriteOnTime(o, d);
      LimitOnTime(o, FoldOrWrite(o, d));
    }
  }

  lemma FoldOrWriteOnTime(o: Opts, s: State)
    requires Clear(s) && 0 < s.w.size <= |s.w.data|
    ensures Clear(FoldOrWrite(o, s))
  {
    hide Ordered, StopFolding, Refold, EffectiveSpeed, FoldLimit;
    var w := s.w;
    var p := Payload(w);
    EmitOnTime(s, Frame(w.ts, p, Flagged(w)));
    RefoldOnTime(o, s, FoldLimit(o, w), CaptureFrame(w.ts, w.size, p));
    StopFoldingOnTime(o, s);
    EmitOnTime(StopFolding(o, s), Frame(w.ts, p, false));
  }

  lemma StatusOnTime(o: Opts, s: State, ls: int, vbus: int, level: int, speed: int)
    requires OnTime(s)
    ensures OnTime(StatusEvent(o, s, ls, vbus, level, speed))
  {
    hide Ordered, TriggerChange, VbusChange, SpeedChange, LineChange;
    var a := TriggerChange(o, s, level);
    TriggerOnTime(o, s, level);
    var b := VbusChange(o, a, vbus);
    VbusOnTime(o, a, vbus);
    SpeedOnTime(o, b, speed);
    LineOnTime(o, SpeedChange(o, b, speed), ls);
  }

  lemma TriggerOnTime(o: Opts, s: State, level: int)
    requires OnTime(s)
    ensures OnTime(TriggerChange(o, s, level))
  {
    hide Ordered, Now, TriggerEnabled;
    if s.w.trig != level {
      var a := s.(w := s.w.(enabled := TriggerEnabled(o.trigger, s.w, level), trig := level));
      var t := Now(o, a, TriggerInput(level));
      NowOnTime(o, a, TriggerInput(level));
      NowOnTime(o, t, StartingCapture);
      NowOnTime(o, t, WaitingForTrigger);
    }
  }

  lemma VbusOnTime(o: Opts, s: State, vbus: int)
    requires OnTime(s)
    ensures OnTime(VbusChange(o, s, vbus))
  {
    hide Ordered, Now;
    NowOnTime(o, s.(w := s.w.(vbus := vbus)), Vbus(vbus != 0));
  }

  lemma SpeedOnTime(o: Opts, s: State, speed: int)
    requires OnTime(s)
    ensures OnTime(SpeedChange(o, s, speed))
  {
    hide Ordered, Now;
    var t := s.(w := s.w.(speedIn := speed));
    NowOnTime(o, t, BusReset);
    NowOnTime(o, t, DetectedSpeed(speed));
  }

  lemma LineOnTime(o: Opts, s: State, ls: int)
    requires OnTime(s)
    ensures OnTime(LineChange(o, s, ls))
  {
    hide Ordered, LineStateEvent, KeepaliveEvent, EffectiveSpeed, ToS32, Wrap64;
    if s.w.ls != ls {
      var t := s.(w := s.w.(ls := ls));
      LineStateOnTime(o, t);
      if s.savedLs == LS_SE0 {
        KeepaliveOnTime(o, t.(savedLs := LS_INVALID), s.savedTs, ToS32(Wrap64(s.w.ts - s.savedTs)));
      }
    }
  }

  lemma DesyncOnTime(o: Opts, s: State)
    requires OnTime(s) && s.w.size <= |s.w.data|
    ensures OnTime(DesyncError(o, s))
  {
    hide Ordered, Now;
    NowOnTime(o, s, Desynchronized);
    NowOnTime(o, Now(o, s, Desynchronized), PacketHeader(s.w.data[..HeaderDump(s.w.size)]));
  }

  lemma CheckHeaderOnTime(o: Opts, s: State, toggle: int, zero: int)
    requires OnTime(s) && s.w.size <= |s.w.data|
    ensures OnTime(CheckHeader(o, s, toggle, zero))
  {
    hide Ordered, Now, DesyncError;
    var bt := BadToggle(toggle, s.w.toggle);
    var t := if toggle != s.w.toggle then Now(o, s, bt) else s;
    NowOnTime(o, s, bt);
    NowOnTime(o, t, ZeroBitSet);
    DesyncOnTime(o, if zero != 0 then Now(o, t, ZeroBitSet) else t);
  }

  lemma HeaderClock(o: Opts, s: State)
    requires |s.w.data| == DATA_BUF_SIZE && s.w.size <= DATA_BUF_SIZE
    ensures HeaderDone(o, s).w.ts == Tick(if BadHeader(s.w) then Resync(s.w) else s.w).ts
  {
    hide HeaderDone, Tick, FrameSize, Flag, BadHeader, TriggerEnabled;
    SameHeader(o, s);
  }

  lemma HeaderOnTime(o: Opts, s: State)
    requires OnTime(s) && |s.w.data| == DATA_BUF_SIZE && s.w.size <= DATA_BUF_SIZE
    requires HeaderDone(o, s).w.ts >= s.w.ts
    ensures OnTime(HeaderDone(o, s))
  {
    hide Ordered, Now, Flag, DesyncError, CheckHeader, ToS64, Wrap64, Tick, FrameSize, StatusEvent,
         TimeoutEvent, StartPayload;
    HeaderClock(o, s);
    var toggle, zero := Flag(s.w.data[0], 0x40), Flag(s.w.data[0], 0x20);
    var a := CheckHeader(o, s, toggle, zero);
    CheckHeaderOnTime(o, s, toggle, zero);
    SameCheck(o, s, toggle, zero);
    TickKeeps(a.w);
    var b := a.(w := Tick(a.w));
    var c := if ToS64(Wrap64(b.w.ts - b.lastTs)) > UPDATE_INTERVAL then TimeoutEvent(o, b) else b;
    TimeoutOnTime(o, b);
    HeaderTailOnTime(o, c);
  }

  lemma HeaderTailOnTime(o: Opts, c: State)
    requires OnTime(c) && |c.w.data| == DATA_BUF_SIZE && c.w.size <= DATA_BUF_SIZE
    ensures var d3 := c.w.data[3];
      var d := StatusEvent(o, c, d3 % 16, Flag(d3, 0x10), Flag(d3, 0x20), d3 / 0x40);
      OnTime(d.(w := d.w.(ptr := 0)))
    ensures OnTime(DesyncError(o, Now(o, c, BadSize(FrameSize(c.w)))))
    ensures OnTime(c.(w := StartPayload(c.w, FrameSize(c.w))))
  {
    hide Ordered, Now, Flag, DesyncError, FrameSize, StatusEvent;
    var d3 := c.w.data[3];
    StatusOnTime(o, c, d3 % 16, Flag(d3, 0x10), Flag(d3, 0x20), d3 / 0x40);
    NowOnTime(o, c, BadSize(FrameSize(c.w)));
    DesyncOnTime(o, Now(o, c, BadSize(FrameSize(c.w))));
  }

  lemma TimeoutOnTime(o: Opts, s: State)
    requires OnTime(s)
    ensures OnTime(TimeoutEvent(o, s))
  {
    hide Ordered, Now;
    NowOnTime(o, s, PeriodicUpdate);
  }

  lemma ByteOnTime(o: Opts, s: State, b: byte)
    requires WalkOk(s.w) && OnTime(s) && CaptureSm(o, s, b).w.ts >= s.w.ts
    ensures OnTime(CaptureSm(o, s, b))
  {
    hide Ordered, HeaderDone, DataEvent;
    var t := s.(w := Store(s.w, b));
    if t.w.ptr >= t.w.size {
      if t.w.header {
        HeaderOnTime(o, t);
      } else {
        DataOnTime(o, t.(w := t.w.(header := true)));
      }
    }
  }

  /** Along these bytes the decoded clock never runs backwards. */
  predicate ClockRuns(trigger: Trigger, w: Walk, bytes: seq<byte>)
    requires WalkOk(w)
    decreases |bytes|
  {
    bytes == [] ||
    (WalkStaysOk(trigger, w, bytes[0]);
     var v := WalkSm(trigger, w, bytes[0]).0;
     v.ts >= w.ts && ClockRuns(trigger, v, bytes[1..]))
  }

  lemma {:induction false} FeedOnTime(o: Opts, s: State, bytes: seq<byte>)
    requires WalkOk(s.w) && OnTime(s) && ClockRuns(o.trigger, s.w, bytes)
    ensures OnTime(Feed(o, s, bytes))
    decreases |bytes|
  {
    hide Ordered, CaptureSm, WalkSm, WalkOk;
    if bytes != [] && !s.done {
      SameWalk(o, s, bytes[0]);
      ByteOnTime(o, s, bytes[0]);
      FeedOnTime(o, CaptureSm(o, s, bytes[0]), bytes[1..]);
    }
  }

  // ---- The announcement ----

  /** packet_announce: re-arm the capture and say so. */
  function Announce(o: Opts, s: State): State {
    var t := s.(done := false);
    if o.trigger.Disabled? then
      var u := CaptureInfo(o, t, 0, StartingCapture);
      u.(w := u.w.(enabled := true))
    else Now(o, t, WaitingForTrigger)
  }

  /** From an announced fresh capture on, everything written is in time order. */
  lemma OutputIsMonotone(o: Opts, limit: int, bytes: seq<byte>)
    requires ClockRuns(o.trigger, Announce(o, Fresh(limit)).w, bytes)
    ensures Ordered(Feed(o, Announce(o, Fresh(limit)), bytes).out)
  {
    FeedOnTime(o, Announce(o, Fresh(limit)), bytes);
  }

  /**
   "Starting capture" is stamped 0. On a packet that has already written something it
   keeps the order exactly if what was written so far, the pending line state included,
   is stamped 0 as well.
   */
  lemma AnnounceKeepsOrder(o: Opts, s: State)
    requires OnTime(s)
    ensures Ordered(Announce(o, s).out)
      <==> !o.trigger.Disabled?
           || (s.lastTs == 0 && (s.savedLs != LS_INVALID && !o.excludeLineState ==> s.savedTs == 0))
  {
    hide Ordered, LineStateEvent, Now;
    if o.trigger.Disabled? {
      AnnounceAtZero(o, s);
    } else {
      NowOnTime(o, s.(done := false), WaitingForTrigger);
    }
  }

  lemma AnnounceAtZero(o: Opts, s: State)
    requires OnTime(s) && o.trigger.Disabled?
    ensures Ordered(Announce(o, s).out)
      <==> s.lastTs == 0 && (s.savedLs != LS_INVALID && !o.excludeLineState ==> s.savedTs == 0)
  {
    hide LineStateEvent, ToS32, Wrap64, EffectiveSpeed;
    var a := LineStateEvent(o, s.(done := false));
    LineStateOnTime(o, s.(done := false));
    LineStateLast(o, s.(done := false));
    var t := Announce(o, s);
    assert t.out == a.out + [Info(0, StartingCapture)];
    if a.lastTs == 0 {
      EmitOnTime(a, Info(0, StartingCapture));
    } else {
      var n := |a.out| - 1;
      assert t.out[n].ts == a.lastTs && t.out[n + 1].ts == 0;
    }
  }

  lemma LineStateLast(o: Opts, s: State)
    ensures LineStateEvent(o, s).lastTs
      == if s.savedLs != LS_INVALID && !o.excludeLineState then s.savedTs else s.lastTs
  {
  }
}
