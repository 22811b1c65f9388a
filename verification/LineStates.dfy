/**
 Line states, keep-alives and periodic updates in numbers: the polarity a line state is named by,
 the window of a keep-alive, and the silence after which the capture reports that it is alive.
 */
module LineStates {
  import opened Bytes
  import opened PacketModel
  import opened Walker
  import opened PacketCalls
  import opened TimeLaws
  import FoldLaws

  /** J and K are swapped: the bus reports low speed, and nobody selected full or high speed. */
  predicate LowBus(o: Opts, w: Walk) { w.speedIn == 0 && (o.speed == 0 || o.speed == 3) }

  /** Every line state among these is named with this polarity. */
  predicate Named(rs: seq<Record>, low: bool) {
    forall r :: r in rs && r.Info? && r.note.LineState? ==> r.note.lowSpeed == low
  }

  predicate Keeps(s: State, t: State, low: bool) { Named(s.out, low) ==> Named(t.out, low) }

  lemma LowBusIs(o: Opts, w: Walk)
    ensures LowBus(o, w) <==> EffectiveSpeed(o, w) == SPEED_LS
  {
  }

  lemma LineStateKeeps(o: Opts, s: State)
    ensures Keeps(s, LineStateEvent(o, s), LowBus(o, s.w))
  {
    hide ToS32, Wrap64, LowBus, EffectiveSpeed;
    LowBusIs(o, s.w);
  }

  lemma EmitKeeps(s: State, r: Record, low: bool)
    requires r.Info? ==> !r.note.LineState?
    ensures Keeps(s, Emit(s, r), low)
  {
  }

  lemma InfoKeeps(o: Opts, s: State, ts: u64, note: Note)
    requires !note.LineState?
    ensures Keeps(s, CaptureInfo(o, s, ts, note), LowBus(o, s.w))
  {
    hide LineStateEvent, LowBus, Emit;
    LineStateKeeps(o, s);
    EmitKeeps(LineStateEvent(o, s), Info(ts, note), LowBus(o, s.w));
  }

  lemma NowKeeps(o: Opts, s: State, note: Note)
    requires !note.LineState?
    ensures Keeps(s, Now(o, s, note), LowBus(o, s.w))
  {
    hide CaptureInfo, LowBus, Named;
    InfoKeeps(o, s, s.w.ts, note);
  }

  lemma {:induction false} FlushKeeps(o: Opts, s: State, fs: seq<CaptureFrame>)
    ensures Keeps(s, WriteAllFolded(o, s, fs), LowBus(o, s.w))
    decreases |fs|
  {
    hide CaptureInfo, LowBus, Named, Emit;
    if fs != [] {
      var a, f := WriteAllFolded(o, s, fs[..|fs| - 1]), fs[|fs| - 1];
      FlushKeeps(o, s, fs[..|fs| - 1]);
      InfoKeeps(o, a, Max(f.ts, a.lastTs), KeepAlive);
      EmitKeeps(a, Frame(Max(f.ts, a.lastTs), f.data, false), LowBus(o, s.w));
    }
  }

  lemma StopKeeps(o: Opts, s: State)
    ensures Keeps(s, StopFolding(o, s), LowBus(o, s.w))
  {
    hide WriteAllFolded, CaptureInfo, LowBus, Named;
    var a := s.(foldCount := 0, foldBuf := []);
    FlushKeeps(o, a, s.foldBuf);
    NowKeeps(o, WriteAllFolded(o, a, s.foldBuf), Folded(s.foldCount));
  }

  lemma RefoldKeeps(o: Opts, s: State, limit: int, f: CaptureFrame)
    ensures Keeps(s, Refold(o, s, limit, f), LowBus(o, s.w))
  {
    hide StopFolding, LowBus, Named;
    StopKeeps(o, s.(foldCount := s.foldCount + 1, foldBuf := []));
  }

  lemma LimitKeeps(o: Opts, s: State)
    ensures Keeps(s, CheckCaptureLimit(o, s), LowBus(o, s.w))
  {
    hide Now, LowBus, Named;
    NowKeeps(o, s.(limit := s.limit - 1), LimitReached);
  }

  lemma KeepaliveKeeps(o: Opts, s: State, ts: u64, delta: int)
    ensures Keeps(s, KeepaliveEvent(o, s, ts, delta), LowBus(o, s.w))
  {
    hide CaptureInfo, Refold, CheckCaptureLimit, LowBus, Named;
    var k, f := s.(keepalives := s.keepalives + 1), CaptureFrame(ts, -delta, []);
    InfoKeeps(o, k, ts, KeepAlive);
    RefoldKeeps(o, k, FOLD_LIMIT_LS_FS, f);
    LimitKeeps(o, if !o.foldEmpty then CaptureInfo(o, k, ts, KeepAlive) else Refold(o, k, FOLD_LIMIT_LS_FS, f));
  }

  lemma PreludeKeeps(o: Opts, s: State)
    ensures Keeps(s, DataPrelude(o, s), LowBus(o, s.w))
  {
    hide LineStateEvent, StopFolding, Now, LowBus, Named;
    var a := LineStateEvent(o, s);
    var b := if a.w.overflow || Flagged(a.w) || |a.foldBuf| == FOLD_BUF_SIZE then StopFolding(o, a) else a;
    LineStateKeeps(o, s);
    StopKeeps(o, a);
    NowKeeps(o, b, HardwareOverflow);
    NowKeeps(o, if b.w.overflow then Now(o, b, HardwareOverflow) else b, PhyError);
  }

  lemma DataKeeps(o: Opts, s: State)
    requires 0 < s.w.size <= |s.w.data|
    ensures Keeps(s, DataEvent(o, s), LowBus(o, s.w))
  {
    hide DataPrelude, Refold, StopFolding, CheckCaptureLimit, LowBus, Named, EffectiveSpeed, FoldLimit, Emit, Payload,
         Flagged;
    var p, w := DataPrelude(o, s), s.w;
    PreludeKeeps(o, s);
    StopKeeps(o, p);
    RefoldKeeps(o, p, FoldLimit(o, w), CaptureFrame(w.ts, w.size, Payload(w)));
    EmitKeeps(p, Frame(w.ts, Payload(w), Flagged(w)), LowBus(o, w));
    EmitKeeps(if p.foldBuf != [] then StopFolding(o, p) else p, Frame(w.ts, Payload(w), false), LowBus(o, w));
    LimitKeeps(o, FoldOrWrite(o, p));
  }

  lemma TriggerKeeps(o: Opts, s: State, level: int)
    ensures var t := TriggerChange(o, s, level); Keeps(s, t, LowBus(o, s.w)) && t.w.speedIn == s.w.speedIn
  {
    hide Now, TriggerEnabled, Named;
    if s.w.trig != level {
      var a := s.(w := s.w.(enabled := TriggerEnabled(o.trigger, s.w, level), trig := level));
      var t := Now(o, a, TriggerInput(level));
      NowKeeps(o, a, TriggerInput(level));
      NowKeeps(o, t, StartingCapture);
      NowKeeps(o, t, WaitingForTrigger);
    }
  }

  lemma VbusKeeps(o: Opts, s: State, vbus: int)
    ensures var t := VbusChange(o, s, vbus); Keeps(s, t, LowBus(o, s.w)) && t.w.speedIn == s.w.speedIn
  {
    hide Now, Named;
    NowKeeps(o, s.(w := s.w.(vbus := vbus)), Vbus(vbus != 0));
  }

  lemma SpeedKeeps(o: Opts, s: State, speed: int)
    ensures var t := SpeedChange(o, s, speed); Keeps(s, t, LowBus(o, t.w)) && t.w.speedIn == speed
  {
    hide Now, Named;
    var t := s.(w := s.w.(speedIn := speed));
    NowKeeps(o, t, BusReset);
    NowKeeps(o, t, DetectedSpeed(speed));
  }

  lemma LineKeeps(o: Opts, s: State, ls: int)
    ensures var t := LineChange(o, s, ls); Keeps(s, t, LowBus(o, s.w)) && t.w.speedIn == s.w.speedIn
  {
    hide LineStateEvent, KeepaliveEvent, ToS32, Wrap64, EffectiveSpeed, Named;
    var t := s.(w := s.w.(ls := ls));
    LineStateKeeps(o, t);
    KeepaliveKeeps(o, t.(savedLs := LS_INVALID), s.savedTs, ToS32(Wrap64(s.w.ts - s.savedTs)));
  }

  /** A step that ends with this polarity on the bus, and began with it. */
  lemma StatusKeeps(o: Opts, s: State, ls: int, vbus: int, level: int, speed: int)
    ensures var t := StatusEvent(o, s, ls, vbus, level, speed);
      t.w.speedIn == speed && (LowBus(o, t.w) == LowBus(o, s.w) ==> Keeps(s, t, LowBus(o, s.w)))
  {
    hide TriggerChange, VbusChange, SpeedChange, LineChange, Named;
    var a := TriggerChange(o, s, level);
    var b := VbusChange(o, a, vbus);
    TriggerKeeps(o, s, level);
    VbusKeeps(o, a, vbus);
    SpeedKeeps(o, b, speed);
    LineKeeps(o, SpeedChange(o, b, speed), ls);
  }

  lemma DesyncKeeps(o: Opts, s: State)
    requires s.w.size <= |s.w.data|
    ensures var t := DesyncError(o, s); Keeps(s, t, LowBus(o, s.w)) && t.w.speedIn == s.w.speedIn
  {
    hide Now, Named;
    NowKeeps(o, s, Desynchronized);
    NowKeeps(o, Now(o, s, Desynchronized), PacketHeader(s.w.data[..HeaderDump(s.w.size)]));
  }

  lemma CheckKeeps(o: Opts, s: State, toggle: int, zero: int)
    requires s.w.size <= |s.w.data|
    ensures var t := CheckHeader(o, s, toggle, zero); Keeps(s, t, LowBus(o, s.w)) && t.w.speedIn == s.w.speedIn
  {
    hide Now, DesyncError, Named;
    var t := if toggle != s.w.toggle then Now(o, s, BadToggle(toggle, s.w.toggle)) else s;
    NowKeeps(o, s, BadToggle(toggle, s.w.toggle));
    NowKeeps(o, t, ZeroBitSet);
    DesyncKeeps(o, if zero != 0 then Now(o, t, ZeroBitSet) else t);
  }

  lemma FrontKeeps(o: Opts, s: State)
    requires |s.w.data| == DATA_BUF_SIZE && s.w.size <= DATA_BUF_SIZE
    ensures var c := HeaderFront(o, s); Keeps(s, c, LowBus(o, s.w)) && c.w.speedIn == s.w.speedIn
  {
    hide Now, CheckHeader, Flag, ToS64, Wrap64, ClockNs, Named;
    var toggle, zero := Flag(s.w.data[0], 0x40), Flag(s.w.data[0], 0x20);
    SameCheck(o, s, toggle, zero);
    CheckKeeps(o, s, toggle, zero);
    var a := CheckHeader(o, s, toggle, zero);
    NowKeeps(o, a.(w := Tick(a.w)), PeriodicUpdate);
  }

  lemma HeaderKeeps(o: Opts, s: State)
    requires |s.w.data| == DATA_BUF_SIZE && s.w.size <= DATA_BUF_SIZE
    ensures var t := HeaderDone(o, s); LowBus(o, t.w) == LowBus(o, s.w) ==> Keeps(s, t, LowBus(o, s.w))
  {
    hide HeaderFront, FrameSize, Flag, Now, StatusEvent, DesyncError, Named;
    FoldLaws.UnlimitedFront(o, s);
    FrontKeeps(o, s);
    var c := HeaderFront(o, s);
    var bad := BadSize(FrameSize(c.w));
    NowKeeps(o, c, bad);
    DesyncKeeps(o, Now(o, c, bad));
    if c.w.status {
      var d3 := c.w.data[3];
      StatusKeeps(o, c, d3 % 16, Flag(d3, 0x10), Flag(d3, 0x20), d3 / 0x40);
    }
  }

  lemma ByteKeeps(o: Opts, s: State, b: byte)
    requires WalkOk(s.w)
    ensures var t := CaptureSm(o, s, b); LowBus(o, t.w) == LowBus(o, s.w) ==> Keeps(s, t, LowBus(o, s.w))
  {
    hide HeaderDone, DataEvent, Named;
    var t := s.(w := Store(s.w, b));
    if t.w.ptr >= t.w.size {
      if t.w.header { HeaderKeeps(o, t); } else { DataKeeps(o, t.(w := t.w.(header := true))); }
    }
  }

  /** The polarity of the bus does not change. */
  predicate Steady(o: Opts, s: State, bytes: seq<byte>, low: bool)
    requires WalkOk(s.w)
    decreases |bytes|
  {
    LowBus(o, s.w) == low
    && (bytes == [] || s.done ||
        (SameWalk(o, s, bytes[0]);
         Steady(o, CaptureSm(o, s, bytes[0]), bytes[1..], low)))
  }

  lemma {:induction false} FeedNames(o: Opts, s: State, bytes: seq<byte>, low: bool)
    requires WalkOk(s.w) && Steady(o, s, bytes, low) && Named(s.out, low)
    ensures Named(Feed(o, s, bytes).out, low)
    decreases |bytes|
  {
    hide CaptureSm, WalkOk, LowBus, Named;
    if bytes != [] && !s.done {
      var t := CaptureSm(o, s, bytes[0]);
      SameWalk(o, s, bytes[0]);
      ByteKeeps(o, s, bytes[0]);
      StillSteady(o, t, bytes[1..], low);
      FeedNames(o, t, bytes[1..], low);
    }
  }

  lemma StillSteady(o: Opts, s: State, bytes: seq<byte>, low: bool)
    requires WalkOk(s.w) && Steady(o, s, bytes, low)
    ensures LowBus(o, s.w) == low
  {
  }

  predicate CallsSteady(o: Opts, s: State, cs: seq<Call>, low: bool)
    requires WalkOk(s.w)
    decreases |cs|
  {
    LowBus(o, s.w) == low
    && (cs == [] ||
        ((cs[0].FeedBytes? ==> Steady(o, s, cs[0].data, low)) && CallsSteady(o, OnCall(o, s, cs[0]), cs[1..], low)))
  }

  /** Over any session in which the polarity of the bus does not change, every line state is named by it. */
  lemma {:induction false} LineStatesAreNamed(o: Opts, s: State, cs: seq<Call>, low: bool)
    requires WalkOk(s.w) && CallsSteady(o, s, cs, low) && Named(s.out, low)
    ensures Named(OnCalls(o, s, cs).out, low)
    decreases |cs|
  {
    hide Feed, Now, WalkOk, LowBus, Named, Steady;
    if cs != [] {
      match cs[0] {
        case FeedBytes(d) => FeedNames(o, s, d, low);
        case LinkLost => NowKeeps(o, s, LinkLoss);
        case Say(text) => NowKeeps(o, s, Message(text));
      }
      LineStatesAreNamed(o, OnCall(o, s, cs[0]), cs[1..], low);
    }
  }

  lemma {:induction false} SelectedIsSteady(o: Opts, s: State, bytes: seq<byte>)
    requires WalkOk(s.w) && (o.speed == 1 || o.speed == 2)
    ensures Steady(o, s, bytes, false)
    decreases |bytes|
  {
    hide CaptureSm, WalkOk;
    if bytes != [] && !s.done {
      SameWalk(o, s, bytes[0]);
      SelectedIsSteady(o, CaptureSm(o, s, bytes[0]), bytes[1..]);
    }
  }

  lemma {:induction false} SelectedCallsSteady(o: Opts, s: State, cs: seq<Call>)
    requires WalkOk(s.w) && (o.speed == 1 || o.speed == 2)
    ensures CallsSteady(o, s, cs, false)
    decreases |cs|
  {
    hide Feed, Now, WalkOk, Steady;
    if cs != [] {
      if cs[0].FeedBytes? { SelectedIsSteady(o, s, cs[0].data); }
      SelectedCallsSteady(o, OnCall(o, s, cs[0]), cs[1..]);
    }
  }

  /** With full or high speed selected no line state is ever named as on a low-speed bus, whatever the bus reports. */
  lemma SelectedSpeedNames(o: Opts, limit: int, cs: seq<Call>)
    requires o.speed == 1 || o.speed == 2
    ensures var s := Announce(o, Fresh(limit)); WalkOk(s.w) && Named(OnCalls(o, s, cs).out, false)
  {
    hide OnCalls, CallsSteady;
    SelectedCallsSteady(o, Announce(o, Fresh(limit)), cs);
    LineStatesAreNamed(o, Announce(o, Fresh(limit)), cs, false);
  }

  // ---- Intervals ----

  /** d is what is left of an interval in 32 bits with a sign. */
  predicate Narrows(x: u64, d: int) { -0x8000_0000 <= d < 0x8000_0000 && (x - d) % 0x1_0000_0000 == 0 }

  lemma NarrowIs(x: u64, d: int)
    ensures Narrows(x, d) <==> d == ToS32(x)
  {
  }

  /** What is written of a pending line state: its time, its state, how long it lasted, and its polarity. */
  lemma LineStateSays(o: Opts, s: State, d: int)
    requires s.savedLs != -1 && Narrows(Wrap64(s.w.ts - s.savedTs), d)
    ensures LineStateEvent(o, s).savedLs == -1
    ensures LineStateEvent(o, s).out
      == s.out + if o.excludeLineState then NOTHING else [Info(s.savedTs, LineState(s.savedLs, d, LowBus(o, s.w)))]
  {
    hide ToS32, Wrap64, EffectiveSpeed, LowBus;
    NarrowIs(Wrap64(s.w.ts - s.savedTs), d);
    LowBusIs(o, s.w);
    assert s.out + NOTHING == s.out;
  }

  /** Whether a status frame with these fields writes a record before it comes to the line state. */
  predicate Speaks(w: Walk, vbus: int, level: int, speed: int) {
    w.trig != level || w.vbus != vbus || (w.enabled && w.speedIn != speed)
  }

  lemma NowClears(o: Opts, s: State, note: Note)
    ensures var t := Now(o, s, note); t.savedLs == LS_INVALID && t.keepalives == s.keepalives && t.w == s.w
  {
    hide ToS32, Wrap64, EffectiveSpeed;
  }

  /** What a change of the bus leaves of the pending line state. */
  predicate Clears(s: State, t: State, changed: bool) {
    && t.keepalives == s.keepalives && t.w.ls == s.w.ls && t.w.ts == s.w.ts
    && (if changed then t.savedLs == LS_INVALID else t.savedLs == s.savedLs && t.savedTs == s.savedTs)
  }

  lemma TriggerClears(o: Opts, s: State, level: int)
    ensures var t := TriggerChange(o, s, level);
      Clears(s, t, s.w.trig != level) && t.w.vbus == s.w.vbus && t.w.speedIn == s.w.speedIn
      && (s.w.trig == level ==> t.w.enabled == s.w.enabled)
  {
    hide Now, TriggerEnabled;
    var x := s.(w := s.w.(enabled := TriggerEnabled(o.trigger, s.w, level), trig := level));
    NowClears(o, x, TriggerInput(level));
    NowClears(o, Now(o, x, TriggerInput(level)), StartingCapture);
    NowClears(o, Now(o, x, TriggerInput(level)), WaitingForTrigger);
  }

  lemma VbusClears(o: Opts, s: State, vbus: int)
    ensures var t := VbusChange(o, s, vbus);
      Clears(s, t, s.w.vbus != vbus) && t.w.speedIn == s.w.speedIn && t.w.enabled == s.w.enabled
  {
    hide Now;
    NowClears(o, s.(w := s.w.(vbus := vbus)), Vbus(vbus != 0));
  }

  lemma SpeedClears(o: Opts, s: State, speed: int)
    ensures var t := SpeedChange(o, s, speed);
      Clears(s, t, s.w.enabled && s.w.speedIn != speed) && t.w.speedIn == speed && t.w.enabled == s.w.enabled
  {
    hide Now;
    var t := s.(w := s.w.(speedIn := speed));
    NowClears(o, t, BusReset);
    NowClears(o, t, DetectedSpeed(speed));
  }

  /** None of the changes, or no line state pending any more. */
  lemma SpeakingClears(o: Opts, s: State, vbus: int, level: int, speed: int)
    ensures var c := SpeedChange(o, VbusChange(o, TriggerChange(o, s, level), vbus), speed);
      && c.keepalives == s.keepalives && c.w.ls == s.w.ls && c.w.ts == s.w.ts && c.w.speedIn == speed
      && if Speaks(s.w, vbus, level, speed) then c.savedLs == LS_INVALID
         else c.savedLs == s.savedLs && c.savedTs == s.savedTs && c.w.enabled == s.w.enabled
  {
    hide TriggerChange, VbusChange, SpeedChange;
    var a := TriggerChange(o, s, level);
    TriggerClears(o, s, level);
    VbusClears(o, a, vbus);
    SpeedClears(o, VbusChange(o, a, vbus), speed);
  }

  /**
   A keep-alive is seen exactly if the capture runs, the frame changes nothing but the line,
   and on a low-speed bus SE0 lasted between 1000 and 2000 ns and ends in J.
   */
  lemma KeepaliveSeen(o: Opts, s: State, ls: int, vbus: int, level: int, speed: int, d: int)
    requires Narrows(Wrap64(s.w.ts - s.savedTs), d)
    ensures StatusEvent(o, s, ls, vbus, level, speed).keepalives
      == s.keepalives
         + if && s.w.enabled && s.w.trig == level && s.w.vbus == vbus && s.w.speedIn == speed
              && LowBus(o, s.w) && s.savedLs == 0 && ls == 12 && s.w.ls != 12 && 1000 < d < 2000
           then 1 else 0
  {
    hide TriggerChange, VbusChange, SpeedChange, ToS32, Wrap64, EffectiveSpeed, KeepaliveEvent, LowBus;
    SpeakingClears(o, s, vbus, level, speed);
    NarrowIs(Wrap64(s.w.ts - s.savedTs), d);
    var c := SpeedChange(o, VbusChange(o, TriggerChange(o, s, level), vbus), speed);
    LowBusIs(o, c.w);
    if speed == s.w.speedIn { SameBus(o, c.w, s.w); }
    KeepaliveCounts(o, c.(w := c.w.(ls := ls), savedLs := LS_INVALID), c.savedTs, ToS32(Wrap64(c.w.ts - c.savedTs)));
  }

  lemma SameBus(o: Opts, v: Walk, w: Walk)
    requires v.speedIn == w.speedIn
    ensures LowBus(o, v) == LowBus(o, w)
  {
  }

  lemma KeepaliveCounts(o: Opts, s: State, ts: u64, delta: int)
    ensures KeepaliveEvent(o, s, ts, delta).keepalives == s.keepalives + if s.w.enabled then 1 else 0
  {
    hide CaptureInfo, Refold, Now;
  }

  /**
   Between the check of a header and what it brings: an update is written exactly if the capture
   runs and has written nothing for more than two seconds of the decoded clock.
   */
  lemma UpdatesAreDue(o: Opts, s: State)
    requires |s.w.data| == DATA_BUF_SIZE && s.w.size <= DATA_BUF_SIZE && !BadHeader(s.w)
    requires s.lastTs <= Tick(s.w).ts < 0x8000_0000_0000_0000
    ensures var t, now := s.(w := Tick(s.w)), Tick(s.w).ts;
      HeaderFront(o, s) == if s.w.enabled && now - s.lastTs > 2_000_000_000 then Now(o, t, PeriodicUpdate) else t
    ensures s.w.enabled ==> HeaderFront(o, s).w.ts - HeaderFront(o, s).lastTs <= 2_000_000_000
  {
    hide Now, Flag, ClockNs;
    LastIsNow(o, s.(w := Tick(s.w)), PeriodicUpdate);
  }

  lemma LastIsNow(o: Opts, s: State, note: Note)
    ensures Now(o, s, note).lastTs == s.w.ts
  {
  }
}
