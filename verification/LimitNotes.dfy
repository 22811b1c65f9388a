/** The end of a limited capture is announced: "limit reached" is written exactly when the capture is done. */
module LimitNotes {
  import opened Bytes
  import opened PacketModel
  import opened Walker
  import opened FoldLaws
  import opened PacketCalls
  import opened LimitLaws
  import TimeLaws

  predicate SaysLimit(r: Record) { r.Info? && r.note.LimitReached? }

  predicate Announced(rs: seq<Record>) { exists r :: r in rs && SaysLimit(r) }

  predicate Same(s: State, t: State) { Announced(t.out) == Announced(s.out) }

  lemma EmitSays(s: State, r: Record)
    ensures Announced(Emit(s, r).out) == (Announced(s.out) || SaysLimit(r))
  {
    var t := Emit(s, r);
    assert forall x :: x in t.out <==> x in s.out || x == r;
    if SaysLimit(r) { assert r in t.out; }
    if Announced(s.out) {
      var x :| x in s.out && SaysLimit(x);
      assert x in t.out;
    }
  }

  lemma LineStateSame(o: Opts, s: State)
    ensures Same(s, LineStateEvent(o, s))
  {
    hide ToS32, Wrap64, EffectiveSpeed, Announced, Emit;
    var t := s.(savedLs := LS_INVALID);
    var note := LineState(s.savedLs, ToS32(Wrap64(s.w.ts - s.savedTs)), EffectiveSpeed(o, s.w) == SPEED_LS);
    EmitSays(t, Info(s.savedTs, note));
  }

  lemma InfoSays(o: Opts, s: State, ts: u64, note: Note)
    ensures Announced(CaptureInfo(o, s, ts, note).out) == (Announced(s.out) || note.LimitReached?)
  {
    hide LineStateEvent, Announced, Emit;
    LineStateSame(o, s);
    EmitSays(LineStateEvent(o, s), Info(ts, note));
  }

  lemma NowSame(o: Opts, s: State, note: Note)
    requires !note.LimitReached?
    ensures Same(s, Now(o, s, note))
  {
    hide CaptureInfo, Announced;
    InfoSays(o, s, s.w.ts, note);
  }

  lemma {:induction false} FlushSame(o: Opts, s: State, fs: seq<CaptureFrame>)
    ensures Same(s, WriteAllFolded(o, s, fs))
    decreases |fs|
  {
    hide CaptureInfo, Announced, Emit;
    if fs != [] {
      var a, f := WriteAllFolded(o, s, fs[..|fs| - 1]), fs[|fs| - 1];
      FlushSame(o, s, fs[..|fs| - 1]);
      InfoSays(o, a, Max(f.ts, a.lastTs), KeepAlive);
      EmitSays(a, Frame(Max(f.ts, a.lastTs), f.data, false));
    }
  }

  lemma StopSame(o: Opts, s: State)
    ensures Same(s, StopFolding(o, s))
  {
    hide WriteAllFolded, CaptureInfo, Announced;
    var a := s.(foldCount := 0, foldBuf := []);
    FlushSame(o, a, s.foldBuf);
    NowSame(o, WriteAllFolded(o, a, s.foldBuf), Folded(s.foldCount));
  }

  lemma RefoldSame(o: Opts, s: State, limit: int, f: CaptureFrame)
    ensures Same(s, Refold(o, s, limit, f))
  {
    hide StopFolding, Announced;
    StopSame(o, s.(foldCount := s.foldCount + 1, foldBuf := []));
  }

  /** A limit is set, and the capture is done exactly if this was announced. */
  predicate Told(s: State) { Metered(s) && (s.done <==> Announced(s.out)) }

  lemma LimitTells(o: Opts, s: State)
    requires Told(s) && !s.done
    ensures Told(CheckCaptureLimit(o, s))
  {
    hide CaptureInfo, Announced;
    InfoSays(o, s.(limit := s.limit - 1), s.w.ts, LimitReached);
  }

  lemma KeepaliveTells(o: Opts, s: State, ts: u64, delta: int)
    requires Told(s) && !s.done
    ensures Told(KeepaliveEvent(o, s, ts, delta))
  {
    hide CaptureInfo, Refold, CheckCaptureLimit, Announced;
    var k, f := s.(keepalives := s.keepalives + 1), CaptureFrame(ts, -delta, []);
    InfoSays(o, k, ts, KeepAlive);
    RefoldSame(o, k, FOLD_LIMIT_LS_FS, f);
    if s.w.enabled {
      LimitTells(o, if !o.foldEmpty then CaptureInfo(o, k, ts, KeepAlive) else Refold(o, k, FOLD_LIMIT_LS_FS, f));
    }
  }

  lemma PreludeSame(o: Opts, s: State)
    ensures Same(s, DataPrelude(o, s))
  {
    hide LineStateEvent, StopFolding, Now, Announced;
    var a := LineStateEvent(o, s);
    var b := if a.w.overflow || Flagged(a.w) || |a.foldBuf| == FOLD_BUF_SIZE then StopFolding(o, a) else a;
    LineStateSame(o, s);
    StopSame(o, a);
    NowSame(o, b, HardwareOverflow);
    NowSame(o, if b.w.overflow then Now(o, b, HardwareOverflow) else b, PhyError);
  }

  lemma DataTells(o: Opts, s: State)
    requires Told(s) && !s.done && 0 < s.w.size <= |s.w.data|
    ensures Told(DataEvent(o, s))
  {
    hide DataPrelude, Refold, StopFolding, CheckCaptureLimit, Announced, EffectiveSpeed, FoldLimit, Emit, Payload,
         Flagged;
    var p, w := DataPrelude(o, s), s.w;
    PreludeSame(o, s);
    StopSame(o, p);
    RefoldSame(o, p, FoldLimit(o, w), CaptureFrame(w.ts, w.size, Payload(w)));
    EmitSays(p, Frame(w.ts, Payload(w), Flagged(w)));
    EmitSays(if p.foldBuf != [] then StopFolding(o, p) else p, Frame(w.ts, Payload(w), false));
    if s.w.enabled { LimitTells(o, FoldOrWrite(o, p)); }
  }

  lemma TriggerSame(o: Opts, s: State, level: int)
    ensures Same(s, TriggerChange(o, s, level))
  {
    hide Now, TriggerEnabled, Announced;
    if s.w.trig != level {
      var a := s.(w := s.w.(enabled := TriggerEnabled(o.trigger, s.w, level), trig := level));
      var t := Now(o, a, TriggerInput(level));
      NowSame(o, a, TriggerInput(level));
      NowSame(o, t, StartingCapture);
      NowSame(o, t, WaitingForTrigger);
    }
  }

  lemma VbusSame(o: Opts, s: State, vbus: int)
    ensures Same(s, VbusChange(o, s, vbus))
  {
    hide Now, Announced;
    NowSame(o, s.(w := s.w.(vbus := vbus)), Vbus(vbus != 0));
  }

  lemma SpeedSame(o: Opts, s: State, speed: int)
    ensures Same(s, SpeedChange(o, s, speed))
  {
    hide Now, Announced;
    var t := s.(w := s.w.(speedIn := speed));
    NowSame(o, t, BusReset);
    NowSame(o, t, DetectedSpeed(speed));
  }

  lemma LineTells(o: Opts, s: State, ls: int)
    requires Told(s) && !s.done
    ensures Told(LineChange(o, s, ls))
  {
    hide LineStateEvent, KeepaliveEvent, ToS32, Wrap64, EffectiveSpeed, Announced;
    var t := s.(w := s.w.(ls := ls));
    LineStateSame(o, t);
    KeepaliveTells(o, t.(savedLs := LS_INVALID), s.savedTs, ToS32(Wrap64(s.w.ts - s.savedTs)));
  }

  lemma StatusTells(o: Opts, s: State, ls: int, vbus: int, level: int, speed: int)
    requires Told(s) && !s.done
    ensures Told(StatusEvent(o, s, ls, vbus, level, speed))
  {
    hide Now, LineChange, TriggerEnabled, Announced;
    var a := TriggerChange(o, s, level);
    var b := VbusChange(o, a, vbus);
    TriggerSame(o, s, level);
    VbusSame(o, a, vbus);
    SpeedSame(o, b, speed);
    LineTells(o, SpeedChange(o, b, speed), ls);
  }

  lemma DesyncSame(o: Opts, s: State)
    requires s.w.size <= |s.w.data|
    ensures Same(s, DesyncError(o, s))
  {
    hide Now, Announced;
    NowSame(o, s, Desynchronized);
    NowSame(o, Now(o, s, Desynchronized), PacketHeader(s.w.data[..HeaderDump(s.w.size)]));
  }

  lemma FrontSame(o: Opts, s: State)
    requires |s.w.data| == DATA_BUF_SIZE && s.w.size <= DATA_BUF_SIZE
    ensures Same(s, HeaderFront(o, s))
  {
    hide Now, DesyncError, Flag, ToS64, Wrap64, Tick, Announced;
    var toggle, zero := Flag(s.w.data[0], 0x40), Flag(s.w.data[0], 0x20);
    SameCheck(o, s, toggle, zero);
    var t := if toggle != s.w.toggle then Now(o, s, BadToggle(toggle, s.w.toggle)) else s;
    NowSame(o, s, BadToggle(toggle, s.w.toggle));
    NowSame(o, t, ZeroBitSet);
    DesyncSame(o, if zero != 0 then Now(o, t, ZeroBitSet) else t);
    var a := CheckHeader(o, s, toggle, zero);
    NowSame(o, a.(w := Tick(a.w)), PeriodicUpdate);
  }

  lemma HeaderTells(o: Opts, s: State)
    requires Told(s) && !s.done && |s.w.data| == DATA_BUF_SIZE && s.w.size <= DATA_BUF_SIZE
    ensures Told(HeaderDone(o, s))
  {
    hide HeaderFront, FrameSize, Flag, Now, StatusEvent, DesyncError, StartPayload, Announced;
    UnlimitedFront(o, s);
    FrontSame(o, s);
    FrontSpends(o, s);
    var c := HeaderFront(o, s);
    var bad := Now(o, c, BadSize(FrameSize(c.w)));
    NowSame(o, c, BadSize(FrameSize(c.w)));
    DesyncSame(o, bad);
    UnlimitedDesync(o, bad);
    var d3 := c.w.data[3];
    StatusTells(o, c, d3 % 16, Flag(d3, 0x10), Flag(d3, 0x20), d3 / 0x40);
  }

  lemma {:induction false} FeedTells(o: Opts, s: State, bytes: seq<byte>)
    requires Told(s) && WalkOk(s.w)
    ensures Told(Feed(o, s, bytes))
    decreases |bytes|
  {
    hide HeaderDone, DataEvent, WalkOk, Announced, Store;
    if bytes != [] && !s.done {
      SameWalk(o, s, bytes[0]);
      ByteTells(o, s, bytes[0]);
      FeedTells(o, CaptureSm(o, s, bytes[0]), bytes[1..]);
    }
  }

  lemma ByteTells(o: Opts, s: State, b: byte)
    requires Told(s) && !s.done && WalkOk(s.w)
    ensures Told(CaptureSm(o, s, b))
  {
    hide HeaderDone, DataEvent, Announced;
    var t := s.(w := Store(s.w, b));
    if t.w.ptr >= t.w.size {
      if t.w.header { HeaderTells(o, t); } else { DataTells(o, t.(w := t.w.(header := true))); }
    }
  }

  lemma {:induction false} CallsTell(o: Opts, s: State, cs: seq<Call>)
    requires Told(s) && WalkOk(s.w)
    ensures Told(OnCalls(o, s, cs))
    decreases |cs|
  {
    hide Feed, Now, WalkOk, Announced;
    if cs != [] {
      match cs[0] {
        case FeedBytes(d) => FeedTells(o, s, d);
        case LinkLost => NowSame(o, s, LinkLoss);
        case Say(text) => NowSame(o, s, Message(text));
      }
      CallsTell(o, OnCall(o, s, cs[0]), cs[1..]);
    }
  }

  /** With a limit, over any session: "limit reached" is among the records exactly if the capture is done. */
  lemma LimitIsAnnounced(o: Opts, n: int, cs: seq<Call>)
    requires n > 0
    ensures var s := TimeLaws.Announce(o, Fresh(n));
      WalkOk(s.w) && var t := OnCalls(o, s, cs); t.done <==> Announced(t.out)
  {
    hide OnCalls, CaptureInfo, WalkOk, Announced;
    AnnouncedOk(o, n);
    FreshSays(o, n);
    CallsTell(o, TimeLaws.Announce(o, Fresh(n)), cs);
  }

  lemma FreshSays(o: Opts, n: int)
    ensures !Announced(TimeLaws.Announce(o, Fresh(n)).out)
  {
  }
}
