/**
 No start-of-frame packet and no keep-alive is lost count of: each one received is
 written, buffered, counted as folded, or covered by a "Folded" record.
 */
module FoldCount {
  import opened Bytes
  import opened PacketModel
  import opened Walker
  import opened FoldLaws

  predicate IsSof(data: seq<byte>) { data != [] && data[0] == PID_SOF }

  /** How many received SOFs and keep-alives a record accounts for. */
  function Share(r: Record): int {
    match r
    case Frame(_, data, _) => if IsSof(data) then 1 else 0
    case Info(_, KeepAlive) => 1
    case Info(_, Folded(n)) => n
    case _ => 0
  }

  function Accounted(rs: seq<Record>): int {
    if rs == [] then 0 else Accounted(rs[..|rs| - 1]) + Share(rs[|rs| - 1])
  }

  function Sofs(rs: seq<Record>): nat {
    if rs == [] then 0
    else Sofs(rs[..|rs| - 1]) + (if rs[|rs| - 1].Frame? && IsSof(rs[|rs| - 1].data) then 1 else 0)
  }

  /** Accounted for, minus the keep-alives received: what remains is due to received SOFs. */
  function Due(s: State): int {
    Accounted(s.out) + s.foldCount + (if s.foldBuf != [] then 1 else 0) - s.keepalives
  }

  lemma EmitDue(s: State, r: Record)
    ensures Due(Emit(s, r)) == Due(s) + Share(r)
  {
    assert Emit(s, r).out[..|s.out|] == s.out;
  }

  lemma LineStateDue(o: Opts, s: State)
    ensures var t := LineStateEvent(o, s);
      Due(t) == Due(s) && t.foldBuf == s.foldBuf && t.foldCount == s.foldCount
  {
    hide ToS32, Wrap64, EffectiveSpeed, Accounted;
    if s.savedLs != LS_INVALID && !o.excludeLineState {
      var r := Info(s.savedTs,
        LineState(s.savedLs, ToS32(Wrap64(s.w.ts - s.savedTs)), EffectiveSpeed(o, s.w) == SPEED_LS));
      EmitDue(s.(savedLs := LS_INVALID), r);
    }
  }

  lemma InfoDue(o: Opts, s: State, ts: u64, note: Note)
    ensures var t := CaptureInfo(o, s, ts, note);
      Due(t) == Due(s) + Share(Info(ts, note)) && t.foldBuf == s.foldBuf && t.foldCount == s.foldCount
  {
    hide LineStateEvent, Accounted;
    LineStateDue(o, s);
    EmitDue(LineStateEvent(o, s), Info(ts, note));
  }

  function Openers(fs: seq<CaptureFrame>): nat {
    if fs == [] then 0 else Openers(fs[..|fs| - 1]) + (if Opens(fs[|fs| - 1]) then 1 else 0)
  }

  lemma {:induction false} OneOpener(fs: seq<CaptureFrame>)
    requires fs != [] && Opens(fs[0]) && forall i :: 0 < i < |fs| ==> Follows(fs[i])
    ensures Openers(fs) == 1
  {
    if |fs| > 1 {
      OneOpener(fs[..|fs| - 1]);
    } else {
      assert fs[..0] == [];
    }
  }

  lemma {:induction false} FlushDue(o: Opts, s: State, fs: seq<CaptureFrame>)
    ensures Due(WriteAllFolded(o, s, fs)) == Due(s) + Openers(fs)
    ensures WriteAllFolded(o, s, fs).foldBuf == s.foldBuf && WriteAllFolded(o, s, fs).foldCount == s.foldCount
    decreases |fs|
  {
    hide Due, CaptureInfo;
    if fs != [] {
      var n := |fs| - 1;
      var f, a := fs[n], WriteAllFolded(o, s, fs[..n]);
      FlushDue(o, s, fs[..n]);
      InfoDue(o, a, Max(f.ts, a.lastTs), KeepAlive);
      EmitDue(a, Frame(Max(f.ts, a.lastTs), f.data, false));
    }
  }

  lemma StopFoldingDue(o: Opts, s: State)
    requires FoldOk(o, s) && s.foldCount >= 0
    ensures Due(StopFolding(o, s)) == Due(s)
    ensures StopFolding(o, s).foldBuf == [] && StopFolding(o, s).foldCount == 0
  {
    hide WriteAllFolded, CaptureInfo, Accounted;
    if s.foldCount != 0 || s.foldBuf != [] {
      var a := s.(foldCount := 0, foldBuf := []);
      FlushDue(o, a, s.foldBuf);
      var t := WriteAllFolded(o, a, s.foldBuf);
      InfoDue(o, t, t.w.ts, Folded(s.foldCount));
      if s.foldBuf != [] {
        OneOpener(s.foldBuf);
      }
    }
  }

  lemma RefoldDue(o: Opts, s: State, foldLimit: int, f: CaptureFrame)
    requires FoldOk(o, s) && o.foldEmpty && s.foldCount >= 0
    ensures Due(Refold(o, s, foldLimit, f)) == Due(s) + 1 && Refold(o, s, foldLimit, f).foldCount >= 0
  {
    hide StopFolding, Accounted;
    if s.foldBuf != [] {
      StopFoldingDue(o, s.(foldCount := s.foldCount + 1, foldBuf := []));
    }
  }

  /** Between s and t, k received SOFs were taken in and are accounted for. */
  predicate Moves(s: State, t: State, k: int) {
    Due(t) == Due(s) + k && (s.foldCount >= 0 ==> t.foldCount >= 0)
  }

  lemma NoteMoves(o: Opts, s: State, note: Note)
    requires Share(Info(0, note)) == 0
    ensures Moves(s, Now(o, s, note), 0)
  {
    hide CaptureInfo, Due;
    InfoDue(o, s, s.w.ts, note);
  }

  lemma LimitMoves(o: Opts, s: State)
    ensures Moves(s, CheckCaptureLimit(o, s), 0)
  {
    hide Now, Accounted;
    NoteMoves(o, s.(limit := s.limit - 1), LimitReached);
  }

  lemma KeepaliveMoves(o: Opts, s: State, ts: u64, delta: int)
    requires FoldOk(o, s) && s.foldCount >= 0
    ensures Moves(s, KeepaliveEvent(o, s, ts, delta), 0)
  {
    hide CaptureInfo, Refold, CheckCaptureLimit, Accounted, FoldShape;
    if s.w.enabled {
      var k := s.(keepalives := s.keepalives + 1);
      InfoDue(o, k, ts, KeepAlive);
      if o.foldEmpty {
        RefoldDue(o, k, FOLD_LIMIT_LS_FS, CaptureFrame(ts, -delta, []));
      }
      var t := if !o.foldEmpty then CaptureInfo(o, k, ts, KeepAlive)
               else Refold(o, k, FOLD_LIMIT_LS_FS, CaptureFrame(ts, -delta, []));
      LimitMoves(o, t);
    }
  }

  lemma PreludeMoves(o: Opts, s: State)
    requires FoldOk(o, s) && s.foldCount >= 0
    ensures Moves(s, DataPrelude(o, s), 0)
  {
    hide LineStateEvent, StopFolding, Now, Due;
    var a := LineStateEvent(o, s);
    LineStateDue(o, s);
    StopFoldingDue(o, a);
    var b := if a.w.overflow || Flagged(a.w) || |a.foldBuf| == FOLD_BUF_SIZE then StopFolding(o, a) else a;
    NoteMoves(o, b, HardwareOverflow);
    var c := if b.w.overflow then Now(o, b, HardwareOverflow) else b;
    NoteMoves(o, c, PhyError);
  }

  lemma FoldOrWriteMoves(o: Opts, s: State)
    requires FoldOk(o, s) && s.foldCount >= 0 && 0 < s.w.size <= |s.w.data|
    ensures Moves(s, FoldOrWrite(o, s), if s.w.data[0] == PID_SOF then 1 else 0)
  {
    hide Refold, StopFolding, EffectiveSpeed, FoldLimit, Accounted;
    var w := s.w;
    var p := Payload(w);
    assert p[0] == w.data[0];
    EmitDue(s, Frame(w.ts, p, Flagged(w)));
    if !Flagged(w) && o.foldEmpty {
      RefoldDue(o, s, FoldLimit(o, w), CaptureFrame(w.ts, w.size, p));
      StopFoldingDue(o, s);
      EmitDue(StopFolding(o, s), Frame(w.ts, p, false));
    }
  }

  lemma DataMoves(o: Opts, s: State)
    requires FoldOk(o, s) && s.foldCount >= 0 && 0 < s.w.size <= |s.w.data|
    ensures Moves(s, DataEvent(o, s), if s.w.enabled && s.w.data[0] == PID_SOF then 1 else 0)
  {
    hide FoldOrWrite, DataPrelude, CheckCaptureLimit, Due, Effect;
    if s.w.enabled {
      PreludeMoves(o, s);
      PreludeFoldOk(o, s);
      var a := DataPrelude(o, s);
      FoldOrWriteMoves(o, a);
      LimitMoves(o, FoldOrWrite(o, a));
    }
  }

  lemma PreludeFoldOk(o: Opts, s: State)
    requires FoldOk(o, s)
    ensures FoldOk(o, DataPrelude(o, s))
  {
    PreludeEffect(o, s);
  }

  lemma StatusMoves(o: Opts, s: State, ls: int, vbus: int, level: int, speed: int)
    requires FoldOk(o, s) && s.foldCount >= 0
    ensures Moves(s, StatusEvent(o, s, ls, vbus, level, speed), 0)
  {
    hide TriggerChange, VbusChange, SpeedChange, LineChange, Accounted, Adds, Carries, FoldShape;
    var a := TriggerChange(o, s, level);
    var b := VbusChange(o, a, vbus);
    var c := SpeedChange(o, b, speed);
    TriggerMoves(o, s, level);
    TriggerEffect(o, s, level);
    VbusMoves(o, a, vbus);
    VbusEffect(o, a, vbus);
    SpeedMoves(o, b, speed);
    SpeedEffect(o, b, speed);
    LineMoves(o, c, ls);
  }

  lemma TriggerMoves(o: Opts, s: State, level: int)
    ensures Moves(s, TriggerChange(o, s, level), 0)
  {
    hide Now, Accounted, TriggerEnabled;
    if s.w.trig != level {
      var a := s.(w := s.w.(enabled := TriggerEnabled(o.trigger, s.w, level), trig := level));
      NoteMoves(o, a, TriggerInput(level));
      var t := Now(o, a, TriggerInput(level));
      NoteMoves(o, t, StartingCapture);
      NoteMoves(o, t, WaitingForTrigger);
    }
  }

  lemma VbusMoves(o: Opts, s: State, vbus: int)
    ensures Moves(s, VbusChange(o, s, vbus), 0)
  {
    hide Now, Accounted;
    NoteMoves(o, s.(w := s.w.(vbus := vbus)), Vbus(vbus != 0));
  }

  lemma SpeedMoves(o: Opts, s: State, speed: int)
    ensures Moves(s, SpeedChange(o, s, speed), 0)
  {
    hide Now, Accounted;
    var t := s.(w := s.w.(speedIn := speed));
    NoteMoves(o, t, BusReset);
    NoteMoves(o, t, DetectedSpeed(speed));
  }

  lemma LineMoves(o: Opts, s: State, ls: int)
    requires FoldOk(o, s) && s.foldCount >= 0
    ensures Moves(s, LineChange(o, s, ls), 0)
  {
    hide LineStateEvent, KeepaliveEvent, EffectiveSpeed, ToS32, Wrap64, Accounted, FoldShape;
    var t := s.(w := s.w.(ls := ls));
    LineStateDue(o, t);
    KeepaliveMoves(o, t.(savedLs := LS_INVALID), s.savedTs, ToS32(Wrap64(s.w.ts - s.savedTs)));
  }

  lemma HeaderMoves(o: Opts, s: State)
    requires FoldOk(o, s) && s.foldCount >= 0
    requires |s.w.data| == DATA_BUF_SIZE && s.w.size <= DATA_BUF_SIZE
    ensures Moves(s, HeaderDone(o, s), 0)
  {
    hide Now, Flag, DesyncError, CheckHeader, ToS64, Wrap64, Tick, FrameSize, StatusEvent, TimeoutEvent,
         Accounted, Adds, Carries, FoldShape;
    var toggle, zero := Flag(s.w.data[0], 0x40), Flag(s.w.data[0], 0x20);
    var a := CheckHeader(o, s, toggle, zero);
    CheckHeaderMoves(o, s, toggle, zero);
    SameCheck(o, s, toggle, zero);
    CheckHeaderEffect(o, s);
    TickKeeps(a.w);
    var b := a.(w := Tick(a.w));
    var c := if ToS64(Wrap64(b.w.ts - b.lastTs)) > UPDATE_INTERVAL then TimeoutEvent(o, b) else b;
    TimeoutMoves(o, b);
    TimeoutEffect(o, b);
    var d3 := c.w.data[3];
    StatusMoves(o, c, d3 % 16, Flag(d3, 0x10), Flag(d3, 0x20), d3 / 0x40);
    var bad := BadSize(FrameSize(c.w));
    NoteMoves(o, c, bad);
    DesyncMoves(o, Now(o, c, bad));
  }

  lemma TimeoutMoves(o: Opts, s: State)
    ensures Moves(s, TimeoutEvent(o, s), 0)
  {
    hide Now, Due;
    NoteMoves(o, s, PeriodicUpdate);
  }

  lemma DesyncMoves(o: Opts, s: State)
    requires s.w.size <= |s.w.data|
    ensures Moves(s, DesyncError(o, s), 0)
  {
    hide Now, Accounted;
    NoteMoves(o, s, Desynchronized);
    NoteMoves(o, Now(o, s, Desynchronized), PacketHeader(s.w.data[..HeaderDump(s.w.size)]));
  }

  lemma CheckHeaderMoves(o: Opts, s: State, toggle: int, zero: int)
    requires s.w.size <= |s.w.data|
    ensures Moves(s, CheckHeader(o, s, toggle, zero), 0)
  {
    hide Now, Due, DesyncError;
    var t := if toggle != s.w.toggle then Now(o, s, BadToggle(toggle, s.w.toggle)) else s;
    NoteMoves(o, s, BadToggle(toggle, s.w.toggle));
    NoteMoves(o, t, ZeroBitSet);
    DesyncMoves(o, if zero != 0 then Now(o, t, ZeroBitSet) else t);
  }

  lemma {:induction false} SofsConcat(a: seq<Record>, b: seq<Record>)
    ensures Sofs(a + b) == Sofs(a) + Sofs(b)
  {
    if b == [] {
      assert a + b == a;
    } else {
      var n := |b| - 1;
      assert (a + b)[..|a| + n] == a + b[..n];
      SofsConcat(a, b[..n]);
    }
  }

  lemma NotesHaveNoSofs(trigger: Trigger, w: Walk)
    requires |w.data| == DATA_BUF_SIZE && w.size <= DATA_BUF_SIZE
    ensures Sofs(WalkHeader(trigger, w).1) == 0
  {
    hide Tick, FrameSize, Flag, BusStatus;
    var rs := WalkHeader(trigger, w).1;
    forall r | r in rs ensures r.Info? {
    }
    NoFramesNoSofs(rs);
  }

  lemma {:induction false} NoFramesNoSofs(rs: seq<Record>)
    requires forall r :: r in rs ==> r.Info?
    ensures Sofs(rs) == 0
  {
    if rs != [] {
      assert rs[|rs| - 1] in rs;
      NoFramesNoSofs(rs[..|rs| - 1]);
    }
  }

  lemma HeaderByteMoves(o: Opts, s: State, b: byte)
    requires WalkOk(s.w) && FoldOk(o, s) && s.foldCount >= 0
    requires var v := Store(s.w, b); v.ptr >= v.size && v.header
    ensures Moves(s, CaptureSm(o, s, b), Sofs(WalkSm(o.trigger, s.w, b).1))
  {
    hide HeaderDone, WalkHeader, PayloadDone, Accounted, FoldShape, Sofs;
    var t := s.(w := Store(s.w, b));
    HeaderMoves(o, t);
    NotesHaveNoSofs(o.trigger, t.w);
  }

  lemma PayloadByteMoves(o: Opts, s: State, b: byte)
    requires WalkOk(s.w) && FoldOk(o, s) && s.foldCount >= 0
    requires var v := Store(s.w, b); v.ptr >= v.size && !v.header
    ensures Moves(s, CaptureSm(o, s, b), Sofs(WalkSm(o.trigger, s.w, b).1))
  {
    hide HeaderDone, WalkHeader, DataEvent, Accounted, FoldShape;
    var t := s.(w := Store(s.w, b));
    DataMoves(o, t.(w := t.w.(header := true)));
    var r := Frame(t.w.ts, Payload(t.w), Flagged(t.w));
    assert [r][..0] == [];
    assert Payload(t.w)[0] == t.w.data[0];
  }

  lemma ByteMoves(o: Opts, s: State, b: byte)
    requires WalkOk(s.w) && FoldOk(o, s) && s.foldCount >= 0
    ensures Moves(s, CaptureSm(o, s, b), Sofs(WalkSm(o.trigger, s.w, b).1))
  {
    hide HeaderDone, WalkHeader, PayloadDone, Accounted, FoldShape;
    var v := Store(s.w, b);
    if v.ptr >= v.size {
      if v.header { HeaderByteMoves(o, s, b); } else { PayloadByteMoves(o, s, b); }
    }
  }

  /**
   Conservation: at every point of every run, the SOF frames and keep-alives received
   while enabled are those written, plus one if a batch entry is buffered, plus the
   pending fold count, plus the totals of all "Folded" records.
   */
  lemma {:induction false} FoldConservation(o: Opts, s: State, bytes: seq<byte>)
    requires WalkOk(s.w) && FoldOk(o, s) && s.foldCount >= 0
    ensures var t, rs := Feed(o, s, bytes), WalkAll(o.trigger, s.w, bytes[..Consumed(o, s, bytes)]).1;
      && t.foldCount >= 0
      && Sofs(rs) + (t.keepalives - s.keepalives)
         == (Accounted(t.out) + t.foldCount + (if t.foldBuf != [] then 1 else 0))
            - (Accounted(s.out) + s.foldCount + (if s.foldBuf != [] then 1 else 0))
    decreases |bytes|
  {
    hide CaptureSm, WalkSm, WalkOk, Accounted, Adds, Carries, FoldShape;
    if bytes == [] || s.done {
      assert bytes[..0] == [];
    } else {
      var n := Consumed(o, s, bytes);
      var t := CaptureSm(o, s, bytes[0]);
      var (v, r1) := WalkSm(o.trigger, s.w, bytes[0]);
      SameWalk(o, s, bytes[0]);
      ByteEffect(o, s, bytes[0]);
      ByteMoves(o, s, bytes[0]);
      FoldConservation(o, t, bytes[1..]);
      assert bytes[..n][1..] == bytes[1..][..n - 1] && bytes[..n][0] == bytes[0];
      SofsConcat(r1, WalkAll(o.trigger, v, bytes[1..][..n - 1]).1);
    }
  }
}
