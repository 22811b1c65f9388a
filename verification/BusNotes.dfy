/**
 What interface 1 says about the bus: trigger, VBUS, speed, lost data and framing errors, all of
 it and in order, whatever the options are.
 */
module BusNotes {
  import opened Bytes
  import opened PacketModel
  import opened Walker
  import opened PacketCalls
  import FoldLaws

  /** All info records but those that depend on options or on how long the bus was silent. */
  predicate Spoken(r: Record) {
    r.Info? && !r.note.LineState? && !r.note.KeepAlive? && !r.note.Folded? && !r.note.PeriodicUpdate?
    && !r.note.LimitReached?
  }

  function Said(rs: seq<Record>): seq<Record> {
    if rs == [] then [] else Said(rs[..|rs| - 1]) + (if Spoken(rs[|rs| - 1]) then [rs[|rs| - 1]] else [])
  }

  // ---- The reference ----

  /** A status frame: the changes it brings, each at its time, trigger first. */
  function StatusSays(trigger: Trigger, w: Walk): seq<Record>
    requires |w.data| == DATA_BUF_SIZE
  {
    var d3 := w.data[3];
    var level, vbus, speed := Flag(d3, 0x20), Flag(d3, 0x10), d3 as int / 0x40;
    var on := if level == w.trig then w.enabled else TriggerEnabled(trigger, w, level);
    (if level == w.trig then NOTHING
     else if on == w.enabled then [Info(w.ts, TriggerInput(level))]
     else [Info(w.ts, TriggerInput(level)), Info(w.ts, if on then StartingCapture else WaitingForTrigger)])
    + (if vbus == w.vbus then NOTHING else [Info(w.ts, Vbus(vbus == 1))])
    + (if speed == w.speedIn || !on then NOTHING
       else [Info(w.ts, if speed == 3 then BusReset else DetectedSpeed(speed))])
  }

  /** The walker behind the check of a header, its clock at the time of the header. */
  function Checked(w: Walk): (v: Walk)
    requires |w.data| == DATA_BUF_SIZE && w.size <= DATA_BUF_SIZE
    ensures |v.data| == DATA_BUF_SIZE && v.size <= DATA_BUF_SIZE
  {
    TickKeeps(if BadHeader(w) then Resync(w) else w);
    Tick(if BadHeader(w) then Resync(w) else w)
  }

  function HeaderSays(trigger: Trigger, w: Walk): seq<Record>
    requires |w.data| == DATA_BUF_SIZE && w.size <= DATA_BUF_SIZE
  {
    var v := Checked(w);
    var size := FrameSize(v);
    HeaderNotes(w)
    + (if v.status then StatusSays(trigger, v)
       else if size < 7 || size > 1280 then [Info(v.ts, BadSize(size))] + DesyncNotes(v)
       else NOTHING)
  }

  /** A frame that was received with a gap before it, or with an error of the transceiver. */
  function FrameSays(w: Walk): seq<Record> {
    (if w.overflow then [Info(w.ts, HardwareOverflow)] else NOTHING)
    + (if w.dataError then [Info(w.ts, PhyError)] else NOTHING)
  }

  function ByteSays(trigger: Trigger, w: Walk, b: byte): seq<Record>
    requires WalkOk(w)
  {
    var v := Store(w, b);
    if v.ptr < v.size then NOTHING
    else if v.header then HeaderSays(trigger, v)
    else if v.enabled then FrameSays(v)
    else NOTHING
  }

  function BytesSay(trigger: Trigger, w: Walk, bytes: seq<byte>): seq<Record>
    requires WalkOk(w)
    decreases |bytes|
  {
    if bytes == [] then NOTHING
    else
      WalkStaysOk(trigger, w, bytes[0]);
      ByteSays(trigger, w, bytes[0]) + BytesSay(trigger, WalkSm(trigger, w, bytes[0]).0, bytes[1..])
  }

  // ---- The packet layer says the same ----

  predicate Adds(s: State, t: State, rs: seq<Record>) { Said(t.out) == Said(s.out) + rs }

  lemma AddsTwo(s: State, t: State, u: State, a: seq<Record>, b: seq<Record>)
    requires Adds(s, t, a) && Adds(t, u, b)
    ensures Adds(s, u, a + b)
  {
    assert Said(s.out) + (a + b) == Said(s.out) + a + b;
  }

  lemma AddsNothing(s: State, t: State)
    requires t.out == s.out
    ensures Adds(s, t, NOTHING)
  {
    assert Said(s.out) + NOTHING == Said(s.out);
  }

  lemma EmitAdds(s: State, r: Record)
    ensures Adds(s, Emit(s, r), if Spoken(r) then [r] else NOTHING)
  {
    assert Emit(s, r).out[..|s.out|] == s.out;
  }

  lemma NothingMore(a: seq<Record>)
    ensures a + NOTHING == a && NOTHING + a == a
  {
  }

  lemma LineStateAdds(o: Opts, s: State)
    ensures Adds(s, LineStateEvent(o, s), NOTHING)
  {
    hide ToS32, Wrap64, EffectiveSpeed, Said, Emit;
    var t := s.(savedLs := LS_INVALID);
    AddsNothing(s, s);
    AddsNothing(s, t);
    var note := LineState(s.savedLs, ToS32(Wrap64(s.w.ts - s.savedTs)), EffectiveSpeed(o, s.w) == SPEED_LS);
    EmitAdds(t, Info(s.savedTs, note));
  }

  lemma InfoAdds(o: Opts, s: State, ts: u64, note: Note)
    ensures Adds(s, CaptureInfo(o, s, ts, note), if Spoken(Info(ts, note)) then [Info(ts, note)] else NOTHING)
  {
    hide LineStateEvent, Said, Emit, Spoken;
    LineStateAdds(o, s);
    EmitAdds(LineStateEvent(o, s), Info(ts, note));
    NothingMore(if Spoken(Info(ts, note)) then [Info(ts, note)] else NOTHING);
    AddsTwo(s, LineStateEvent(o, s), CaptureInfo(o, s, ts, note),
            NOTHING, if Spoken(Info(ts, note)) then [Info(ts, note)] else NOTHING);
  }

  lemma NowAdds(o: Opts, s: State, note: Note)
    ensures Adds(s, Now(o, s, note), if Spoken(Info(s.w.ts, note)) then [Info(s.w.ts, note)] else NOTHING)
  {
    hide CaptureInfo, Said, Spoken;
    InfoAdds(o, s, s.w.ts, note);
  }

  lemma {:induction false} FlushAdds(o: Opts, s: State, fs: seq<CaptureFrame>)
    ensures Adds(s, WriteAllFolded(o, s, fs), NOTHING)
    decreases |fs|
  {
    hide CaptureInfo, Said, Emit;
    if fs == [] {
      AddsNothing(s, s);
    } else {
      var a, f := WriteAllFolded(o, s, fs[..|fs| - 1]), fs[|fs| - 1];
      FlushAdds(o, s, fs[..|fs| - 1]);
      InfoAdds(o, a, Max(f.ts, a.lastTs), KeepAlive);
      EmitAdds(a, Frame(Max(f.ts, a.lastTs), f.data, false));
      NothingMore(NOTHING);
      AddsTwo(s, a, WriteAllFolded(o, s, fs), NOTHING, NOTHING);
    }
  }

  lemma StopAdds(o: Opts, s: State)
    ensures Adds(s, StopFolding(o, s), NOTHING)
  {
    hide WriteAllFolded, CaptureInfo, Said;
    AddsNothing(s, s);
    if s.foldCount != 0 || s.foldBuf != [] {
      var a := s.(foldCount := 0, foldBuf := []);
      var t := WriteAllFolded(o, a, s.foldBuf);
      AddsNothing(s, a);
      FlushAdds(o, a, s.foldBuf);
      NothingMore(NOTHING);
      AddsTwo(s, a, t, NOTHING, NOTHING);
      NowAdds(o, t, Folded(s.foldCount));
      AddsTwo(s, t, Now(o, t, Folded(s.foldCount)), NOTHING, NOTHING);
    }
  }

  lemma RefoldAdds(o: Opts, s: State, limit: int, f: CaptureFrame)
    ensures Adds(s, Refold(o, s, limit, f), NOTHING)
  {
    hide StopFolding, Said;
    if s.foldBuf == [] {
      AddsNothing(s, s.(foldBuf := [f]));
    } else {
      StopAdds(o, s.(foldCount := s.foldCount + 1, foldBuf := []));
    }
  }

  lemma LimitAdds(o: Opts, s: State)
    ensures Adds(s, CheckCaptureLimit(o, s), NOTHING)
  {
    hide Now, Said;
    AddsNothing(s, s.(limit := s.limit - 1));
    NowAdds(o, s.(limit := s.limit - 1), LimitReached);
  }

  lemma KeepaliveAdds(o: Opts, s: State, ts: u64, delta: int)
    ensures Adds(s, KeepaliveEvent(o, s, ts, delta), NOTHING)
  {
    hide CaptureInfo, Refold, CheckCaptureLimit, Said;
    AddsNothing(s, s);
    if s.w.enabled {
      var k, f := s.(keepalives := s.keepalives + 1), CaptureFrame(ts, -delta, []);
      InfoAdds(o, k, ts, KeepAlive);
      RefoldAdds(o, k, FOLD_LIMIT_LS_FS, f);
      LimitAdds(o, if !o.foldEmpty then CaptureInfo(o, k, ts, KeepAlive) else Refold(o, k, FOLD_LIMIT_LS_FS, f));
      NothingMore(Said(s.out));
    }
  }

  lemma PreludeAdds(o: Opts, s: State)
    ensures Adds(s, DataPrelude(o, s), FrameSays(s.w))
  {
    hide LineStateEvent, StopFolding, Now, Said;
    var a := LineStateEvent(o, s);
    var b := if a.w.overflow || Flagged(a.w) || |a.foldBuf| == FOLD_BUF_SIZE then StopFolding(o, a) else a;
    var c := if b.w.overflow then Now(o, b, HardwareOverflow) else b;
    LineStateAdds(o, s);
    StopAdds(o, a);
    NowAdds(o, b, HardwareOverflow);
    NowAdds(o, c, PhyError);
    NothingMore(Said(s.out));
    NothingMore(Said(c.out));
    assert Said(c.out) == Said(s.out) + if s.w.overflow then [Info(s.w.ts, HardwareOverflow)] else NOTHING;
    var h := if s.w.overflow then [Info(s.w.ts, HardwareOverflow)] else NOTHING;
    var p := if s.w.dataError then [Info(s.w.ts, PhyError)] else NOTHING;
    AddsTwo(s, c, DataPrelude(o, s), h, p);
  }

  lemma FoldOrWriteAdds(o: Opts, s: State)
    requires 0 < s.w.size <= |s.w.data|
    ensures Adds(s, FoldOrWrite(o, s), NOTHING)
  {
    hide Refold, StopFolding, EffectiveSpeed, FoldLimit, Said, Emit, Payload, Flagged;
    var w, p := s.w, Payload(s.w);
    var f := CaptureFrame(w.ts, w.size, p);
    var t := if s.foldBuf != [] then StopFolding(o, s) else s;
    AddsNothing(s, s);
    AddsNothing(s, s.(foldBuf := s.foldBuf + [f]));
    StopAdds(o, s);
    RefoldAdds(o, s, FoldLimit(o, w), f);
    EmitAdds(s, Frame(w.ts, p, Flagged(w)));
    EmitAdds(t, Frame(w.ts, p, false));
    NothingMore(Said(s.out));
  }

  lemma DataAdds(o: Opts, s: State)
    requires 0 < s.w.size <= |s.w.data|
    ensures Adds(s, DataEvent(o, s), if s.w.enabled then FrameSays(s.w) else NOTHING)
  {
    hide FoldOrWrite, DataPrelude, CheckCaptureLimit, Said, FrameSays;
    AddsNothing(s, s);
    if s.w.enabled {
      PreludeAdds(o, s);
      FoldOrWriteAdds(o, DataPrelude(o, s));
      LimitAdds(o, FoldOrWrite(o, DataPrelude(o, s)));
      NothingMore(Said(s.out) + FrameSays(s.w));
    }
  }

  // ---- Headers ----

  function TriggerSays(trigger: Trigger, w: Walk, level: int): seq<Record> {
    var on := TriggerEnabled(trigger, w, level);
    if level == w.trig then NOTHING
    else if on == w.enabled then [Info(w.ts, TriggerInput(level))]
    else [Info(w.ts, TriggerInput(level)), Info(w.ts, if on then StartingCapture else WaitingForTrigger)]
  }

  lemma TriggerAdds(o: Opts, s: State, level: int)
    ensures var t := TriggerChange(o, s, level);
      && Adds(s, t, TriggerSays(o.trigger, s.w, level)) && t.w.ts == s.w.ts && t.w.vbus == s.w.vbus
      && t.w.speedIn == s.w.speedIn
      && t.w.enabled == if level == s.w.trig then s.w.enabled else TriggerEnabled(o.trigger, s.w, level)
  {
    hide Now, TriggerEnabled, Said;
    AddsNothing(s, s);
    if s.w.trig != level {
      var on := TriggerEnabled(o.trigger, s.w, level);
      var a := s.(w := s.w.(enabled := on, trig := level));
      var t := Now(o, a, TriggerInput(level));
      NowAdds(o, a, TriggerInput(level));
      NowAdds(o, t, StartingCapture);
      NowAdds(o, t, WaitingForTrigger);
      var x := Info(s.w.ts, TriggerInput(level));
      assert [x] + [Info(s.w.ts, StartingCapture)] == [x, Info(s.w.ts, StartingCapture)];
      assert [x] + [Info(s.w.ts, WaitingForTrigger)] == [x, Info(s.w.ts, WaitingForTrigger)];
      var u := TriggerChange(o, s, level);
      if on != s.w.enabled {
        AddsTwo(s, t, u, [x], [Info(s.w.ts, if on then StartingCapture else WaitingForTrigger)]);
      }
    }
  }

  lemma VbusAdds(o: Opts, s: State, vbus: int)
    ensures var t := VbusChange(o, s, vbus);
      && Adds(s, t, if vbus == s.w.vbus then NOTHING else [Info(s.w.ts, Vbus(vbus != 0))])
      && t.w == s.w.(vbus := vbus)
  {
    hide Now, Said;
    AddsNothing(s, s);
    NowAdds(o, s.(w := s.w.(vbus := vbus)), Vbus(vbus != 0));
  }

  lemma SpeedAdds(o: Opts, s: State, speed: int)
    ensures Adds(s, SpeedChange(o, s, speed),
                 if speed == s.w.speedIn || !s.w.enabled then NOTHING
                 else [Info(s.w.ts, if speed == 3 then BusReset else DetectedSpeed(speed))])
  {
    hide Now, Said;
    var t := s.(w := s.w.(speedIn := speed));
    AddsNothing(s, s);
    AddsNothing(s, t);
    NowAdds(o, t, BusReset);
    NowAdds(o, t, DetectedSpeed(speed));
  }

  lemma LineAdds(o: Opts, s: State, ls: int)
    ensures Adds(s, LineChange(o, s, ls), NOTHING)
  {
    hide LineStateEvent, KeepaliveEvent, ToS32, Wrap64, EffectiveSpeed, Said;
    var t := s.(w := s.w.(ls := ls));
    AddsNothing(s, s);
    LineStateAdds(o, t);
    KeepaliveAdds(o, t.(savedLs := LS_INVALID), s.savedTs, ToS32(Wrap64(s.w.ts - s.savedTs)));
  }

  lemma StatusAdds(o: Opts, s: State)
    requires |s.w.data| == DATA_BUF_SIZE
    ensures var d3 := s.w.data[3];
      var t := StatusEvent(o, s, d3 as int % 16, Flag(d3, 0x10), Flag(d3, 0x20), d3 as int / 0x40);
      Adds(s, t, StatusSays(o.trigger, s.w))
  {
    hide TriggerChange, VbusChange, SpeedChange, LineChange, Said, Flag, TriggerEnabled, Adds;
    var d3 := s.w.data[3];
    var vbus, level, speed := Flag(d3, 0x10), Flag(d3, 0x20), d3 as int / 0x40;
    var a := TriggerChange(o, s, level);
    var b := VbusChange(o, a, vbus);
    var c := SpeedChange(o, b, speed);
    TriggerAdds(o, s, level);
    VbusAdds(o, a, vbus);
    SpeedAdds(o, b, speed);
    LineAdds(o, c, d3 as int % 16);
    FlagIsBit(d3, 0x10);
    var x := TriggerSays(o.trigger, s.w, level);
    var y := if vbus == s.w.vbus then NOTHING else [Info(s.w.ts, Vbus(vbus != 0))];
    var z := if speed == s.w.speedIn || !a.w.enabled then NOTHING
             else [Info(s.w.ts, if speed == 3 then BusReset else DetectedSpeed(speed))];
    AddsTwo(s, a, b, x, y);
    AddsTwo(s, b, c, x + y, z);
    AddsTwo(s, c, LineChange(o, c, d3 as int % 16), x + y + z, NOTHING);
    NothingMore(x + y + z);
  }

  lemma FlagIsBit(b: byte, mask: nat)
    requires mask > 0
    ensures Flag(b, mask) == 0 || Flag(b, mask) == 1
  {
  }

  lemma DesyncAdds(o: Opts, s: State)
    requires s.w.size <= |s.w.data|
    ensures Adds(s, DesyncError(o, s), DesyncNotes(s.w))
  {
    hide Now, Said;
    var dump := PacketHeader(s.w.data[..HeaderDump(s.w.size)]);
    var t := Now(o, s, Desynchronized);
    NowAdds(o, s, Desynchronized);
    NowAdds(o, t, dump);
    AddsTwo(s, t, Now(o, t, dump), [Info(s.w.ts, Desynchronized)], [Info(s.w.ts, dump)]);
    assert [Info(s.w.ts, Desynchronized)] + [Info(s.w.ts, dump)] == DesyncNotes(s.w);
  }

  lemma CheckAdds(o: Opts, s: State)
    requires |s.w.data| == DATA_BUF_SIZE && s.w.size <= DATA_BUF_SIZE
    ensures Adds(s, CheckHeader(o, s, Flag(s.w.data[0], 0x40), Flag(s.w.data[0], 0x20)), HeaderNotes(s.w))
  {
    hide Now, Said, DesyncError, Flag, DesyncNotes, Adds;
    var toggle, zero := Flag(s.w.data[0], 0x40), Flag(s.w.data[0], 0x20);
    var x := if toggle != s.w.toggle then [Info(s.w.ts, BadToggle(toggle, s.w.toggle))] else NOTHING;
    var y := if zero != 0 then [Info(s.w.ts, ZeroBitSet)] else NOTHING;
    var t := if toggle != s.w.toggle then Now(o, s, BadToggle(toggle, s.w.toggle)) else s;
    var u := if zero != 0 then Now(o, t, ZeroBitSet) else t;
    AddsNothing(s, s);
    AddsNothing(t, t);
    NowAdds(o, s, BadToggle(toggle, s.w.toggle));
    NowAdds(o, t, ZeroBitSet);
    DesyncAdds(o, u);
    AddsTwo(s, t, u, x, y);
    AddsTwo(s, u, DesyncError(o, u), x + y, DesyncNotes(s.w));
  }

  lemma FrontAdds(o: Opts, s: State)
    requires |s.w.data| == DATA_BUF_SIZE && s.w.size <= DATA_BUF_SIZE
    ensures var c := HeaderFront(o, s); Adds(s, c, HeaderNotes(s.w)) && c.w == Checked(s.w)
  {
    hide CheckHeader, HeaderNotes, Flag, Said, Now, Adds, ToS64, Wrap64, Tick;
    var toggle, zero := Flag(s.w.data[0], 0x40), Flag(s.w.data[0], 0x20);
    var a := CheckHeader(o, s, toggle, zero);
    SameCheck(o, s, toggle, zero);
    var b := a.(w := Checked(s.w));
    CheckAdds(o, s);
    AddsNothing(a, b);
    AddsNothing(b, b);
    NowAdds(o, b, PeriodicUpdate);
    var x := HeaderNotes(s.w);
    NothingMore(x);
    AddsTwo(s, a, b, x, NOTHING);
    AddsTwo(s, b, HeaderFront(o, s), x, NOTHING);
  }

  lemma StatusTailAdds(o: Opts, c: State)
    requires |c.w.data| == DATA_BUF_SIZE
    ensures var d3 := c.w.data[3];
      var d := StatusEvent(o, c, d3 as int % 16, Flag(d3, 0x10), Flag(d3, 0x20), d3 as int / 0x40);
      Adds(c, d.(w := d.w.(ptr := 0)), StatusSays(o.trigger, c.w))
  {
    hide StatusEvent, StatusSays, Flag, Said, Adds;
    var d3 := c.w.data[3];
    var d := StatusEvent(o, c, d3 as int % 16, Flag(d3, 0x10), Flag(d3, 0x20), d3 as int / 0x40);
    StatusAdds(o, c);
    AddsNothing(d, d.(w := d.w.(ptr := 0)));
    AddsTwo(c, d, d.(w := d.w.(ptr := 0)), StatusSays(o.trigger, c.w), NOTHING);
    NothingMore(StatusSays(o.trigger, c.w));
  }

  lemma BadSizeAdds(o: Opts, c: State, size: int)
    requires |c.w.data| == DATA_BUF_SIZE && c.w.size <= DATA_BUF_SIZE
    ensures Adds(c, DesyncError(o, Now(o, c, BadSize(size))), [Info(c.w.ts, BadSize(size))] + DesyncNotes(c.w))
  {
    hide DesyncError, DesyncNotes, Said, Adds, Now;
    var bad := Now(o, c, BadSize(size));
    NowAdds(o, c, BadSize(size));
    DesyncAdds(o, bad);
    AddsTwo(c, bad, DesyncError(o, bad), [Info(c.w.ts, BadSize(size))], DesyncNotes(c.w));
  }

  lemma HeaderAdds(o: Opts, s: State)
    requires |s.w.data| == DATA_BUF_SIZE && s.w.size <= DATA_BUF_SIZE
    ensures Adds(s, HeaderDone(o, s), HeaderSays(o.trigger, s.w))
  {
    hide HeaderFront, HeaderNotes, Flag, StatusEvent, StatusSays, Said, Now, DesyncError, Adds, FrameSize, StartPayload,
         DesyncNotes, Tick;
    var c, v, x := HeaderFront(o, s), Checked(s.w), HeaderNotes(s.w);
    FrontAdds(o, s);
    var size := FrameSize(v);
    var y := if v.status then StatusSays(o.trigger, v)
             else if size < DATA_HEADER_SIZE || size > MAX_DATA_SIZE then [Info(v.ts, BadSize(size))] + DesyncNotes(v)
             else NOTHING;
    StatusTailAdds(o, c);
    BadSizeAdds(o, c, size);
    AddsNothing(c, c.(w := StartPayload(c.w, size)));
    AddsTwo(s, c, HeaderDone(o, s), x, y);
  }

  lemma ByteAdds(o: Opts, s: State, b: byte)
    requires WalkOk(s.w)
    ensures Adds(s, CaptureSm(o, s, b), ByteSays(o.trigger, s.w, b))
  {
    hide HeaderDone, HeaderSays, DataEvent, FrameSays, Said;
    var t := s.(w := Store(s.w, b));
    AddsNothing(s, t);
    if t.w.ptr >= t.w.size {
      if t.w.header {
        HeaderAdds(o, t);
      } else {
        var u := t.(w := t.w.(header := true));
        DataAdds(o, u);
        SameFrame(t.w);
      }
    }
  }

  lemma SameFrame(w: Walk)
    ensures FrameSays(w.(header := true)) == FrameSays(w)
  {
  }

  /** Any bytes: the notes added are those of the reference for the bytes taken in, in order and at their times. */
  lemma {:induction false} NotesAreExact(o: Opts, s: State, bytes: seq<byte>)
    requires WalkOk(s.w)
    ensures Adds(s, Feed(o, s, bytes), BytesSay(o.trigger, s.w, bytes[..FoldLaws.Consumed(o, s, bytes)]))
    decreases |bytes|
  {
    hide CaptureSm, WalkSm, WalkOk, ByteSays, Said, Adds;
    if bytes == [] || s.done {
      assert bytes[..0] == [];
      AddsNothing(s, s);
    } else {
      var n, t := FoldLaws.Consumed(o, s, bytes), CaptureSm(o, s, bytes[0]);
      SameWalk(o, s, bytes[0]);
      ByteAdds(o, s, bytes[0]);
      NotesAreExact(o, t, bytes[1..]);
      assert bytes[..n][1..] == bytes[1..][..n - 1] && bytes[..n][0] == bytes[0];
      AddsTwo(s, t, Feed(o, s, bytes), ByteSays(o.trigger, s.w, bytes[0]),
              BytesSay(o.trigger, t.w, bytes[1..][..n - 1]));
    }
  }

  function CallsSay(o: Opts, s: State, cs: seq<Call>): seq<Record>
    requires WalkOk(s.w)
    decreases |cs|
  {
    if cs == [] then NOTHING
    else
      (match cs[0]
       case FeedBytes(d) => BytesSay(o.trigger, s.w, d[..FoldLaws.Consumed(o, s, d)])
       case LinkLost => [Info(s.w.ts, LinkLoss)]
       case Say(text) => [Info(s.w.ts, Message(text))])
      + CallsSay(o, OnCall(o, s, cs[0]), cs[1..])
  }

  lemma {:induction false} SessionNotesAreExact(o: Opts, s: State, cs: seq<Call>)
    requires WalkOk(s.w)
    ensures Adds(s, OnCalls(o, s, cs), CallsSay(o, s, cs))
    decreases |cs|
  {
    hide Feed, Now, BytesSay, WalkOk, Said, Adds;
    if cs == [] {
      AddsNothing(s, s);
    } else {
      var t := OnCall(o, s, cs[0]);
      var x := match cs[0]
        case FeedBytes(d) => BytesSay(o.trigger, s.w, d[..FoldLaws.Consumed(o, s, d)])
        case LinkLost => [Info(s.w.ts, LinkLoss)]
        case Say(text) => [Info(s.w.ts, Message(text))];
      match cs[0] {
        case FeedBytes(d) => NotesAreExact(o, s, d);
        case LinkLost => NowAdds(o, s, LinkLoss);
        case Say(text) => NowAdds(o, s, Message(text));
      }
      SessionNotesAreExact(o, t, cs[1..]);
      AddsTwo(s, t, OnCalls(o, s, cs), x, CallsSay(o, t, cs[1..]));
    }
  }
}
