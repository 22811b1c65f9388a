/**
 How large the N of a "Folded" record can be. The count is compared with the limit for
 equality, so the limit holds as long as it never falls onto or below the count.
 */
module FoldBound {
  import opened Bytes
  import opened PacketModel
  import opened Walker
  import opened FoldLaws
  import opened PacketCalls
  import opened TimeLaws

  /** The fold limit in force: 8000 at high speed, detected or selected in place of low speed, else 1000. */
  function Cap(o: Opts, s: State): (n: int)
    ensures n == if s.w.speedIn == 2 || (s.w.speedIn == 0 && o.speed == 2) then 8000 else 1000
  {
    FoldLimit(o, s.w)
  }

  /** Every "Folded" record counts at least one and at most top frames. */
  predicate Counts(rs: seq<Record>, top: int) {
    forall r :: r in rs && r.Info? && r.note.Folded? ==> 1 <= r.note.n <= top
  }

  /** Below the limit in force, as every record is below top. */
  predicate Below(o: Opts, s: State, top: int) { 0 <= s.foldCount < Cap(o, s) && Counts(s.out, top) }

  /** The step leaves the count alone, and what it adds is in range. */
  predicate Keeps(s: State, t: State, top: int) {
    t.foldCount == s.foldCount && (Counts(s.out, top) ==> Counts(t.out, top))
  }

  lemma EmitKeeps(s: State, r: Record, top: int)
    requires Counts([r], top)
    ensures Keeps(s, Emit(s, r), top)
  {
    assert r in [r];
  }

  lemma LineStateKeeps(o: Opts, s: State, top: int)
    ensures Keeps(s, LineStateEvent(o, s), top)
  {
    hide ToS32, Wrap64, EffectiveSpeed;
  }

  lemma InfoKeeps(o: Opts, s: State, ts: u64, note: Note, top: int)
    requires note.Folded? ==> 1 <= note.n <= top
    ensures Keeps(s, CaptureInfo(o, s, ts, note), top)
  {
    hide LineStateEvent;
    LineStateKeeps(o, s, top);
    EmitKeeps(LineStateEvent(o, s), Info(ts, note), top);
  }

  lemma {:induction false} FlushKeeps(o: Opts, s: State, fs: seq<CaptureFrame>, top: int)
    ensures Keeps(s, WriteAllFolded(o, s, fs), top)
    decreases |fs|
  {
    hide CaptureInfo, Counts;
    if fs != [] {
      var n := |fs| - 1;
      var f, a := fs[n], WriteAllFolded(o, s, fs[..n]);
      var ts := Max(f.ts, a.lastTs);
      FlushKeeps(o, s, fs[..n], top);
      InfoKeeps(o, a, ts, KeepAlive, top);
      FrameInRange(ts, f.data, false, top);
      EmitKeeps(a, Frame(ts, f.data, false), top);
    }
  }

  lemma FrameInRange(ts: u64, data: seq<byte>, flagged: bool, top: int)
    ensures Counts([Frame(ts, data, flagged)], top)
  {
  }

  lemma StopFoldingCounts(o: Opts, s: State, top: int)
    requires 0 <= s.foldCount <= top && Counts(s.out, top)
    ensures StopFolding(o, s).foldCount == 0 && Counts(StopFolding(o, s).out, top)
  {
    hide WriteAllFolded, CaptureInfo, Counts;
    var a := s.(foldCount := 0, foldBuf := []);
    FlushKeeps(o, a, s.foldBuf, top);
    if s.foldCount >= 1 {
      var t := WriteAllFolded(o, a, s.foldBuf);
      InfoKeeps(o, t, t.w.ts, Folded(s.foldCount), top);
    }
  }

  /** From a count below the limit a batch stays below it; from one at or above it, nothing stops the count. */
  lemma RefoldCounts(o: Opts, s: State, limit: int, f: CaptureFrame, top: int)
    requires 0 < limit <= top && s.foldCount >= 0 && Counts(s.out, top)
    ensures var t := Refold(o, s, limit, f);
      t.foldCount >= 0 && Counts(t.out, top) && (t.foldCount < limit <==> s.foldCount < limit)
  {
    hide StopFolding, Counts;
    if s.foldBuf != [] && s.foldCount + 1 == limit {
      StopFoldingCounts(o, s.(foldCount := s.foldCount + 1, foldBuf := []), top);
    }
  }

  lemma LimitKeeps(o: Opts, s: State, top: int)
    ensures Keeps(s, CheckCaptureLimit(o, s), top)
  {
    hide CaptureInfo, Counts;
    InfoKeeps(o, s.(limit := s.limit - 1), s.w.ts, LimitReached, top);
  }

  lemma KeepaliveCounts(o: Opts, s: State, ts: u64, delta: int, top: int)
    requires s.foldCount >= 0 && Counts(s.out, top) && top >= FOLD_LIMIT_LS_FS
    ensures var t := KeepaliveEvent(o, s, ts, delta);
      t.foldCount >= 0 && Counts(t.out, top) && (t.foldCount < FOLD_LIMIT_LS_FS <==> s.foldCount < FOLD_LIMIT_LS_FS)
  {
    hide CaptureInfo, Refold, CheckCaptureLimit, Counts;
    if s.w.enabled {
      var k := s.(keepalives := s.keepalives + 1);
      var f := CaptureFrame(ts, -delta, []);
      InfoKeeps(o, k, ts, KeepAlive, top);
      RefoldCounts(o, k, FOLD_LIMIT_LS_FS, f, top);
      LimitKeeps(o, if !o.foldEmpty then CaptureInfo(o, k, ts, KeepAlive) else Refold(o, k, FOLD_LIMIT_LS_FS, f), top);
    }
  }

  lemma NowKeeps(o: Opts, s: State, note: Note, top: int)
    requires !note.Folded?
    ensures Keeps(s, Now(o, s, note), top)
  {
    hide CaptureInfo, Counts;
    InfoKeeps(o, s, s.w.ts, note, top);
  }

  // ---- Received frames ----

  lemma PreludeCounts(o: Opts, s: State, top: int)
    requires Below(o, s, top) && Cap(o, s) <= top
    ensures Below(o, DataPrelude(o, s), top)
  {
    hide LineStateEvent, StopFolding, Now, Counts, FoldLimit;
    var a := LineStateEvent(o, s);
    LineStateKeeps(o, s, top);
    StopFoldingCounts(o, a, top);
    var b := if a.w.overflow || Flagged(a.w) || |a.foldBuf| == FOLD_BUF_SIZE then StopFolding(o, a) else a;
    NowKeeps(o, b, HardwareOverflow, top);
    NowKeeps(o, if b.w.overflow then Now(o, b, HardwareOverflow) else b, PhyError, top);
  }

  lemma FoldOrWriteCounts(o: Opts, s: State, top: int)
    requires Below(o, s, top) && Cap(o, s) <= top && 0 < s.w.size <= |s.w.data|
    ensures Below(o, FoldOrWrite(o, s), top)
  {
    hide Refold, StopFolding, EffectiveSpeed, Counts, Emit, Payload;
    var w, p := s.w, Payload(s.w);
    StopFoldingCounts(o, s, top);
    RefoldCounts(o, s, FoldLimit(o, w), CaptureFrame(w.ts, w.size, p), top);
    FrameInRange(w.ts, p, Flagged(w), top);
    FrameInRange(w.ts, p, false, top);
    EmitKeeps(s, Frame(w.ts, p, Flagged(w)), top);
    EmitKeeps(if s.foldBuf != [] then StopFolding(o, s) else s, Frame(w.ts, p, false), top);
  }

  lemma DataCounts(o: Opts, s: State, top: int)
    requires Below(o, s, top) && Cap(o, s) <= top && 0 < s.w.size <= |s.w.data|
    ensures Below(o, DataEvent(o, s), top)
  {
    hide FoldOrWrite, DataPrelude, CheckCaptureLimit, Counts, FoldLimit;
    if s.w.enabled {
      PreludeCounts(o, s, top);
      FoldOrWriteCounts(o, DataPrelude(o, s), top);
      LimitKeeps(o, FoldOrWrite(o, DataPrelude(o, s)), top);
    }
  }

  // ---- Headers ----

  lemma LineCounts(o: Opts, s: State, ls: int, top: int)
    requires s.foldCount >= 0 && Counts(s.out, top) && Cap(o, s) <= top
    ensures var t := LineChange(o, s, ls);
      && Cap(o, t) == Cap(o, s) && t.foldCount >= 0 && Counts(t.out, top)
      && (t.foldCount < Cap(o, s) <==> s.foldCount < Cap(o, s))
  {
    hide LineStateEvent, KeepaliveEvent, ToS32, Wrap64, Counts;
    var t := s.(w := s.w.(ls := ls));
    LineStateKeeps(o, t, top);
    KeepaliveCounts(o, t.(savedLs := LS_INVALID), s.savedTs, ToS32(Wrap64(s.w.ts - s.savedTs)), top);
  }

  lemma TriggerKeeps(o: Opts, s: State, level: int, top: int)
    ensures var t := TriggerChange(o, s, level); Keeps(s, t, top) && t.w.speedIn == s.w.speedIn
  {
    hide Now, TriggerEnabled, Counts;
    if s.w.trig != level {
      var a := s.(w := s.w.(enabled := TriggerEnabled(o.trigger, s.w, level), trig := level));
      var t := Now(o, a, TriggerInput(level));
      NowKeeps(o, a, TriggerInput(level), top);
      NowKeeps(o, t, StartingCapture, top);
      NowKeeps(o, t, WaitingForTrigger, top);
    }
  }

  lemma VbusKeeps(o: Opts, s: State, vbus: int, top: int)
    ensures var t := VbusChange(o, s, vbus); Keeps(s, t, top) && t.w.speedIn == s.w.speedIn
  {
    hide Now, Counts;
    NowKeeps(o, s.(w := s.w.(vbus := vbus)), Vbus(vbus != 0), top);
  }

  lemma SpeedKeeps(o: Opts, s: State, speed: int, top: int)
    ensures Keeps(s, SpeedChange(o, s, speed), top)
  {
    hide Now, Counts;
    var t := s.(w := s.w.(speedIn := speed));
    NowKeeps(o, t, BusReset, top);
    NowKeeps(o, t, DetectedSpeed(speed), top);
  }

  /** What a header does to the count: the limit may move, and the count is below the new limit as it was before. */
  predicate Moved(o: Opts, s: State, t: State, top: int) {
    t.foldCount >= 0 && Counts(t.out, top) && (t.foldCount < Cap(o, t) <==> s.foldCount < Cap(o, t))
  }

  lemma StatusCounts(o: Opts, s: State, ls: int, vbus: int, level: int, speed: int, top: int)
    requires s.foldCount >= 0 && Counts(s.out, top) && Cap(o, StatusEvent(o, s, ls, vbus, level, speed)) <= top
    ensures Moved(o, s, StatusEvent(o, s, ls, vbus, level, speed), top)
  {
    hide TriggerChange, VbusChange, SpeedChange, LineChange, Counts, FoldLimit;
    var a := TriggerChange(o, s, level);
    var b := VbusChange(o, a, vbus);
    var c := SpeedChange(o, b, speed);
    TriggerKeeps(o, s, level, top);
    VbusKeeps(o, a, vbus, top);
    SpeedKeeps(o, b, speed, top);
    LineKeepsCap(o, c, ls);
    LineCounts(o, c, ls, top);
  }

  lemma LineKeepsCap(o: Opts, s: State, ls: int)
    ensures Cap(o, LineChange(o, s, ls)) == Cap(o, s)
  {
    hide LineChange, EffectiveSpeed;
    LineKeepsSpeed(o, s, ls);
    SameCap(o, s, LineChange(o, s, ls));
  }

  lemma LineKeepsSpeed(o: Opts, s: State, ls: int)
    ensures LineChange(o, s, ls).w.speedIn == s.w.speedIn
  {
    hide LineStateEvent, KeepaliveEvent, ToS32, Wrap64, EffectiveSpeed;
  }

  lemma DesyncKeeps(o: Opts, s: State, top: int)
    requires s.w.size <= |s.w.data|
    ensures var t := DesyncError(o, s); Keeps(s, t, top) && t.w.speedIn == s.w.speedIn
  {
    hide Now, Counts;
    NowKeeps(o, s, Desynchronized, top);
    NowKeeps(o, Now(o, s, Desynchronized), PacketHeader(s.w.data[..HeaderDump(s.w.size)]), top);
  }

  lemma CheckHeaderKeeps(o: Opts, s: State, toggle: int, zero: int, top: int)
    requires s.w.size <= |s.w.data|
    ensures var t := CheckHeader(o, s, toggle, zero);
      Keeps(s, t, top) && t.w.speedIn == s.w.speedIn && t.w.data == s.w.data && t.w.size <= |t.w.data|
  {
    hide Now, Counts, DesyncError;
    SameCheck(o, s, toggle, zero);
    var t := if toggle != s.w.toggle then Now(o, s, BadToggle(toggle, s.w.toggle)) else s;
    var u := if zero != 0 then Now(o, t, ZeroBitSet) else t;
    NowKeeps(o, s, BadToggle(toggle, s.w.toggle), top);
    NowKeeps(o, t, ZeroBitSet, top);
    DesyncKeeps(o, u, top);
  }

  lemma FrontKeeps(o: Opts, s: State, top: int)
    requires |s.w.data| == DATA_BUF_SIZE && s.w.size <= DATA_BUF_SIZE
    ensures var c := HeaderFront(o, s); Keeps(s, c, top) && c.w.speedIn == s.w.speedIn
  {
    hide Now, Counts, CheckHeader, Flag, ToS64, Wrap64, ClockNs;
    var toggle, zero := Flag(s.w.data[0], 0x40), Flag(s.w.data[0], 0x20);
    CheckHeaderKeeps(o, s, toggle, zero, top);
    var a := CheckHeader(o, s, toggle, zero);
    NowKeeps(o, a.(w := Tick(a.w)), PeriodicUpdate, top);
  }

  lemma HeaderCounts(o: Opts, s: State, top: int)
    requires |s.w.data| == DATA_BUF_SIZE && s.w.size <= DATA_BUF_SIZE
    requires s.foldCount >= 0 && Counts(s.out, top) && Cap(o, HeaderDone(o, s)) <= top
    ensures Moved(o, s, HeaderDone(o, s), top)
  {
    hide HeaderFront, FrameSize, Flag, Now, StatusEvent, DesyncError, Counts;
    UnlimitedFront(o, s);
    FrontKeeps(o, s, top);
    var c := HeaderFront(o, s);
    var bad := BadSize(FrameSize(c.w));
    NowKeeps(o, c, bad, top);
    DesyncKeeps(o, Now(o, c, bad), top);
    if c.w.status {
      var d3 := c.w.data[3];
      StatusCounts(o, c, d3 % 16, Flag(d3, 0x10), Flag(d3, 0x20), d3 / 0x40, top);
    }
  }

  // ---- Runs ----

  /**
   One octet, exactly: the count stays below the limit in force if and only if it was
   below what the limit becomes. Only a slower speed behind a count that is already too
   high takes it out of range.
   */
  lemma ByteCounts(o: Opts, s: State, b: byte, top: int)
    requires WalkOk(s.w) && Below(o, s, top) && Cap(o, s) <= top && Cap(o, CaptureSm(o, s, b)) <= top
    ensures var t := CaptureSm(o, s, b);
      t.foldCount >= 0 && Counts(t.out, top) && (t.foldCount < Cap(o, t) <==> s.foldCount < Cap(o, t))
  {
    hide HeaderDone, DataEvent, Counts, FoldLimit;
    var t := s.(w := Store(s.w, b));
    SameCap(o, s, t);
    if t.w.ptr >= t.w.size {
      if t.w.header {
        HeaderCounts(o, t, top);
      } else {
        var u := t.(w := t.w.(header := true));
        SameCap(o, s, u);
        DataCounts(o, u, top);
        SameCap(o, u, PayloadDone(o, t));
      }
    }
  }

  lemma SameCap(o: Opts, s: State, t: State)
    requires t.w.speedIn == s.w.speedIn
    ensures Cap(o, t) == Cap(o, s)
  {
  }

  /** At no octet does the limit become at most the count that stands before it, or more than top. */
  predicate Guarded(o: Opts, s: State, bytes: seq<byte>, top: int)
    requires WalkOk(s.w)
    decreases |bytes|
  {
    bytes == [] || s.done ||
    (SameWalk(o, s, bytes[0]);
     var t := CaptureSm(o, s, bytes[0]);
     s.foldCount < Cap(o, t) <= top && Guarded(o, t, bytes[1..], top))
  }

  lemma {:induction false} FeedCounts(o: Opts, s: State, bytes: seq<byte>, top: int)
    requires WalkOk(s.w) && Below(o, s, top) && Cap(o, s) <= top && Guarded(o, s, bytes, top)
    ensures var t := Feed(o, s, bytes); Below(o, t, top) && Cap(o, t) <= top
    decreases |bytes|
  {
    hide CaptureSm, WalkOk, Cap, Counts;
    if bytes != [] && !s.done {
      SameWalk(o, s, bytes[0]);
      ByteCounts(o, s, bytes[0], top);
      FeedCounts(o, CaptureSm(o, s, bytes[0]), bytes[1..], top);
    }
  }

  predicate CallsGuarded(o: Opts, s: State, cs: seq<Call>, top: int)
    requires WalkOk(s.w)
    decreases |cs|
  {
    cs == [] ||
    ((cs[0].FeedBytes? ==> Guarded(o, s, cs[0].data, top)) && CallsGuarded(o, OnCall(o, s, cs[0]), cs[1..], top))
  }

  /** Over a whole session: the count stays below the limit in force, and N is between one and the largest limit. */
  lemma {:induction false} FoldedIsBounded(o: Opts, s: State, cs: seq<Call>, top: int)
    requires WalkOk(s.w) && Below(o, s, top) && Cap(o, s) <= top && CallsGuarded(o, s, cs, top)
    ensures Below(o, OnCalls(o, s, cs), top)
    decreases |cs|
  {
    hide Feed, Now, WalkOk, Cap, Counts, Guarded;
    if cs != [] {
      match cs[0] {
        case FeedBytes(d) => FeedCounts(o, s, d, top);
        case LinkLost => SpeakBelow(o, s, LinkLoss, top);
        case Say(text) => SpeakBelow(o, s, Message(text), top);
      }
      FoldedIsBounded(o, OnCall(o, s, cs[0]), cs[1..], top);
    }
  }

  lemma SpeakBelow(o: Opts, s: State, note: Note, top: int)
    requires Below(o, s, top) && !note.Folded?
    ensures var t := Now(o, s, note); Below(o, t, top) && Cap(o, t) == Cap(o, s)
  {
    hide Now, Counts;
    NowKeeps(o, s, note, top);
  }

  // ---- A bus that does not become slower ----

  /** At no octet does the limit fall: the effective speed stays, or goes from another one to high speed. */
  predicate NeverSlower(o: Opts, s: State, bytes: seq<byte>)
    requires WalkOk(s.w)
    decreases |bytes|
  {
    bytes == [] || s.done ||
    (SameWalk(o, s, bytes[0]);
     var t := CaptureSm(o, s, bytes[0]);
     Cap(o, s) <= Cap(o, t) && NeverSlower(o, t, bytes[1..]))
  }

  predicate CallsNeverSlower(o: Opts, s: State, cs: seq<Call>)
    requires WalkOk(s.w)
    decreases |cs|
  {
    cs == [] ||
    ((cs[0].FeedBytes? ==> NeverSlower(o, s, cs[0].data)) && CallsNeverSlower(o, OnCall(o, s, cs[0]), cs[1..]))
  }

  lemma {:induction false} FeedInRange(o: Opts, s: State, bytes: seq<byte>)
    requires WalkOk(s.w) && Below(o, s, Cap(o, s)) && NeverSlower(o, s, bytes)
    ensures var t := Feed(o, s, bytes); Below(o, t, Cap(o, t))
    decreases |bytes|
  {
    hide CaptureSm, WalkOk, Cap, Counts;
    if bytes != [] && !s.done {
      var t := CaptureSm(o, s, bytes[0]);
      SameWalk(o, s, bytes[0]);
      Wider(s.out, Cap(o, s), Cap(o, t));
      ByteCounts(o, s, bytes[0], Cap(o, t));
      FeedInRange(o, t, bytes[1..]);
    }
  }

  lemma Wider(rs: seq<Record>, top: int, more: int)
    requires Counts(rs, top) && top <= more
    ensures Counts(rs, more)
  {
  }

  lemma {:induction false} CallsInRange(o: Opts, s: State, cs: seq<Call>)
    requires WalkOk(s.w) && Below(o, s, Cap(o, s)) && CallsNeverSlower(o, s, cs)
    ensures var t := OnCalls(o, s, cs); Below(o, t, Cap(o, t))
    decreases |cs|
  {
    hide Feed, Now, WalkOk, Cap, Counts, NeverSlower;
    if cs != [] {
      match cs[0] {
        case FeedBytes(d) => FeedInRange(o, s, d);
        case LinkLost => SpeakBelow(o, s, LinkLoss, Cap(o, s));
        case Say(text) => SpeakBelow(o, s, Message(text), Cap(o, s));
      }
      CallsInRange(o, OnCall(o, s, cs[0]), cs[1..]);
    }
  }

  /**
   From the announcement on, and as long as the bus does not become slower, the count is
   below the limit for its speed and every N is between one and that limit.
   */
  lemma LimitHolds(o: Opts, limit: int, cs: seq<Call>)
    requires var s := Announce(o, Fresh(limit)); WalkOk(s.w) && CallsNeverSlower(o, s, cs)
    ensures var t := OnCalls(o, Announce(o, Fresh(limit)), cs); 0 <= t.foldCount < Cap(o, t) && Counts(t.out, Cap(o, t))
  {
    hide OnCalls, Counts, CallsNeverSlower, Cap;
    AnnouncedBelow(o, limit);
    CallsInRange(o, Announce(o, Fresh(limit)), cs);
  }

  lemma AnnouncedBelow(o: Opts, limit: int)
    ensures var s := Announce(o, Fresh(limit)); WalkOk(s.w) && Below(o, s, Cap(o, s))
  {
  }
}
