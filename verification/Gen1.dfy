/**
 src/gen1/capture.c, the interpreter src/packet.c descends from, over the same state: a
 capture that ends where the other resynchronises, flushes folded frames before every
 info record, and takes the detected bus speed as it comes.
 */
module Gen1 {
  import opened Bytes
  import opened PacketModel

  // ---- Emitters ----

  /** line_state_event when nothing is folded. */
  function PlainLineState(o: Opts, s: State): (r: State)
    ensures r.w == s.w
  {
    if s.savedLs == LS_INVALID then s
    else
      var t := s.(savedLs := LS_INVALID);
      if o.excludeLineState then t else Emit(t, Info(s.savedTs, SavedNote(s)))
  }

  function SavedNote(s: State): Note {
    LineState(s.savedLs, ToS32(Wrap64(s.w.ts - s.savedTs)), s.w.speedIn == SPEED_LS)
  }

  /** capture_info when nothing is folded. */
  function PlainInfo(o: Opts, s: State, ts: u64, note: Note): (r: State)
    ensures r.w == s.w
  {
    Emit(PlainLineState(o, s), Info(ts, note))
  }

  function WriteEntry(o: Opts, s: State, f: CaptureFrame): (r: State)
    ensures r.w == s.w
  {
    if f.size < 0 then PlainInfo(o, s, f.ts, KeepAlive) else Emit(s, Frame(f.ts, f.data, false))
  }

  function WriteEntries(o: Opts, s: State, fs: seq<CaptureFrame>): (r: State)
    decreases |fs|
    ensures r.w == s.w
  {
    if fs == [] then s else WriteEntries(o, WriteEntry(o, s, fs[0]), fs[1..])
  }

  /** The summary goes before the frames, with the times they were received at. */
  function StopFolding(o: Opts, s: State): (r: State)
    ensures r.w == s.w
  {
    if s.foldCount == 0 && s.foldBuf == [] then s
    else
      var t := s.(foldCount := 0, foldBuf := []);
      var u := if s.foldCount >= 1 then PlainInfo(o, t, t.w.ts, Folded(s.foldCount)) else t;
      WriteEntries(o, u, s.foldBuf)
  }

  function LineStateEvent(o: Opts, s: State): (r: State)
    ensures r.w == s.w
  {
    if s.savedLs == LS_INVALID then s
    else
      var t := s.(savedLs := LS_INVALID);
      if o.excludeLineState then t else Emit(StopFolding(o, t), Info(s.savedTs, SavedNote(s)))
  }

  function CaptureInfo(o: Opts, s: State, ts: u64, note: Note): (r: State)
    ensures r.w == s.w
  {
    Emit(StopFolding(o, LineStateEvent(o, s)), Info(ts, note))
  }

  function Now(o: Opts, s: State, note: Note): (r: State)
    ensures r.w == s.w
  {
    CaptureInfo(o, s, s.w.ts, note)
  }

  function TimeoutEvent(o: Opts, s: State): (r: State)
    ensures r.w == s.w
  {
    if s.w.enabled then Now(o, s, PeriodicUpdate) else s
  }

  /** done stands for exit(0). */
  function CheckCaptureLimit(o: Opts, s: State): (r: State)
    ensures r.w == s.w
  {
    var t := s.(limit := s.limit - 1);
    if t.limit == 0 then Now(o, t, LimitReached).(done := true) else t
  }

  function Refold(o: Opts, s: State, foldLimit: int, f: CaptureFrame): (r: State)
    ensures r.w == s.w
  {
    if s.foldBuf == [] then s.(foldBuf := [f])
    else
      var t := s.(foldCount := s.foldCount + 1, foldBuf := []);
      var u := if t.foldCount == foldLimit then StopFolding(o, t) else t;
      u.(foldBuf := u.foldBuf + [f])
  }

  function KeepaliveEvent(o: Opts, s: State, ts: u64, delta: int): (r: State)
    ensures r.w == s.w
  {
    if !s.w.enabled then s
    else
      var k := s.(keepalives := s.keepalives + 1);
      var t := if !o.foldEmpty then CaptureInfo(o, k, ts, KeepAlive)
               else Refold(o, k, FOLD_LIMIT_LS_FS, CaptureFrame(ts, -delta, []));
      CheckCaptureLimit(o, t)
  }

  // ---- Frames ----

  function DataPrelude(o: Opts, s: State): (r: State)
    ensures r.w == s.w
  {
    var a := LineStateEvent(o, s);
    var b := if a.w.overflow || Flagged(a.w) || |a.foldBuf| == FOLD_BUF_SIZE then StopFolding(o, a) else a;
    var c := if b.w.overflow then Now(o, b, HardwareOverflow) else b;
    if c.w.dataError then Now(o, c, PhyError) else c
  }

  function FoldOrWrite(o: Opts, s: State): (r: State)
    requires 0 < s.w.size <= |s.w.data|
    ensures r.w == s.w
  {
    var w := s.w;
    var pid, allowSof := w.data[0], w.speedIn != SPEED_LS;
    var frame := CaptureFrame(w.ts, w.size, Payload(w));
    if Flagged(w) || !o.foldEmpty then Emit(s, Frame(w.ts, Payload(w), Flagged(w)))
    else if s.foldBuf != [] && (pid == PID_IN || pid == PID_NAK) then s.(foldBuf := s.foldBuf + [frame])
    else if pid == PID_SOF && allowSof then
      Refold(o, s, if w.speedIn == SPEED_HS then FOLD_LIMIT_HS else FOLD_LIMIT_LS_FS, frame)
    else
      var t := if s.foldBuf != [] then StopFolding(o, s) else s;
      Emit(t, Frame(w.ts, Payload(w), false))
  }

  function DataEvent(o: Opts, s: State): (r: State)
    requires 0 < s.w.size <= |s.w.data|
    ensures r.w == s.w
  {
    if !s.w.enabled then s else CheckCaptureLimit(o, FoldOrWrite(o, DataPrelude(o, s)))
  }

  // ---- Bus status ----

  function TriggerChange(o: Opts, s: State, level: int): State {
    if s.w.trig == level then s
    else
      var on := TriggerEnabled(o.trigger, s.w, level);
      var t := Now(o, s.(w := s.w.(enabled := on, trig := level)), TriggerInput(level));
      if on && !s.w.enabled then Now(o, t, StartingCapture)
      else if s.w.enabled && !on then Now(o, t, WaitingForTrigger)
      else t
  }

  function VbusChange(o: Opts, s: State, vbus: int): State {
    if s.w.vbus == vbus then s else Now(o, s.(w := s.w.(vbus := vbus)), Vbus(vbus != 0))
  }

  function SpeedChange(o: Opts, s: State, speed: int): State {
    if s.w.speedIn == speed then s
    else
      var t := s.(w := s.w.(speedIn := speed));
      if !t.w.enabled then t
      else if speed == SPEED_RESET then Now(o, t, BusReset)
      else Now(o, t, DetectedSpeed(speed))
  }

  /** The keep-alive test of this generation compares the unsigned 64-bit interval. */
  function LineChange(o: Opts, s: State, ls: int): State {
    if s.w.ls == ls then s
    else
      var t := s.(w := s.w.(ls := ls));
      var delta := Wrap64(s.w.ts - s.savedTs);
      if s.w.speedIn == SPEED_LS && s.savedLs == LS_SE0 && ls == LS_J3
         && MIN_KEEPALIVE_DURATION < delta < MAX_KEEPALIVE_DURATION
      then KeepaliveEvent(o, t.(savedLs := LS_INVALID), s.savedTs, ToS32(delta))
      else LineStateEvent(o, t).(savedLs := ls, savedTs := s.w.ts)
  }

  function StatusEvent(o: Opts, s: State, ls: int, vbus: int, trigger: int, speed: int): State {
    LineChange(o, SpeedChange(o, VbusChange(o, TriggerChange(o, s, trigger), vbus), speed), ls)
  }

  // ---- The byte-driven walk ----

  /** Report and exit; the whole header is shown. */
  function DesyncError(o: Opts, s: State): State
    requires 0 <= s.w.size <= |s.w.data|
  {
    Now(o, Now(o, s, Desynchronized), PacketHeader(s.w.data[..s.w.size])).(done := true)
  }

  /** The header is right, or the program exits. */
  function HeaderDone(o: Opts, s: State): State
    requires |s.w.data| == DATA_BUF_SIZE && 0 <= s.w.size <= DATA_BUF_SIZE
  {
    var toggle, zero := Flag(s.w.data[0], 0x40), Flag(s.w.data[0], 0x20);
    if toggle != s.w.toggle || zero != 0 then
      var t := if toggle != s.w.toggle then Now(o, s, BadToggle(toggle, s.w.toggle)) else s;
      var u := if zero != 0 then Now(o, t, ZeroBitSet) else t;
      DesyncError(o, u)
    else
      var b := s.(w := Tick(s.w));
      var c := if Wrap64(b.w.ts - b.lastTs) > UPDATE_INTERVAL then TimeoutEvent(o, b) else b;
      if c.w.status then
        var d3 := c.w.data[3];
        var d := StatusEvent(o, c, d3 % 16, Flag(d3, 0x10), Flag(d3, 0x20), d3 / 0x40);
        d.(w := d.w.(ptr := 0))
      else
        var size := FrameSize(c.w);
        if size < DATA_HEADER_SIZE || size > MAX_DATA_SIZE
        then DesyncError(o, Now(o, c, BadSize(size)))
        else c.(w := StartPayload(c.w, size))
  }

  function PayloadDone(o: Opts, s: State): State
    requires 0 < s.w.size <= |s.w.data|
  {
    var d := DataEvent(o, s.(w := s.w.(header := true)));
    d.(w := d.w.(ptr := 0))
  }

  function CaptureSm(o: Opts, s: State, b: byte): State
    requires WalkOk(s.w)
  {
    var t := s.(w := Store(s.w, b));
    if t.w.ptr < t.w.size then t
    else if t.w.header then HeaderDone(o, t)
    else PayloadDone(o, t)
  }
}
