/**
 The frame and interpret layer of src/packet.c on values: every function below is
 one function of the source, mapping the packet state before the call to the state
 after it. PacketEngine holds the object that works in place.
 */
module PacketModel {
  import opened Bytes

  const TIME_US: int := 1000
  const TIME_MS: int := 1000 * TIME_US
  const UPDATE_INTERVAL: int := 2000 * TIME_MS
  const DATA_HEADER_SIZE: int := 7
  const STATUS_HEADER_SIZE: int := 4
  const DATA_BUF_SIZE: int := 2048
  const FOLD_BUF_SIZE: int := 256
  const MAX_DATA_SIZE: int := 1280
  const PID_SOF: byte := 0xA5
  const PID_IN: byte := 0x69
  const PID_NAK: byte := 0x5A
  const FOLD_LIMIT_LS_FS: int := 1000
  const FOLD_LIMIT_HS: int := 8000
  const MIN_KEEPALIVE_DURATION: int := 1000
  const MAX_KEEPALIVE_DURATION: int := 2000
  const LS_INVALID: int := -1
  const LS_SE0: int := 0
  const LS_J3: int := 12

  const SPEED_LS: int := 0
  const SPEED_HS: int := 2
  const SPEED_RESET: int := 3

  // ---- Machine arithmetic ----

  function Wrap64(x: int): u64 { x % TWO64 }

  /** The int that a u64 becomes when it is narrowed. */
  function ToS32(x: u64): int {
    var y := x % 0x1_0000_0000;
    if y < 0x8000_0000 then y else y - 0x1_0000_0000
  }

  function ToS64(x: u64): int {
    if x < 0x8000_0000_0000_0000 then x else x - TWO64
  }

  function BitOr(a: nat, b: nat): nat
    decreases a + b
  {
    if a == 0 then b else if b == 0 then a
    else 2 * BitOr(a / 2, b / 2) + (if a % 2 == 1 || b % 2 == 1 then 1 else 0)
  }

  /** The header clock in ns: 60 MHz ticks, extended by the overflow count. */
  function ClockNs(tsInt: u64, ts20: nat): u64 {
    Wrap64(BitOr(tsInt, ts20) * 100) / 6
  }

  // ---- Records, options, state ----

  /** What an interface-1 record says. The wording is not modelled. */
  datatype Note =
    | StartingCapture | WaitingForTrigger | TriggerInput(level: int) | Vbus(on: bool)
    | BusReset | DetectedSpeed(speed: int) | LineState(ls: int, delta: int, lowSpeed: bool)
    | KeepAlive | Folded(n: int) | HardwareOverflow | PhyError | LimitReached | PeriodicUpdate
    | BadToggle(got: int, expected: int) | ZeroBitSet | BadSize(size: int)
    | Desynchronized | PacketHeader(octets: seq<byte>) | LinkLoss | Message(text: string)

  /** A record written out; flagged marks frames received with a CRC or PHY error. */
  datatype Record =
    | Frame(ts: u64, data: seq<byte>, flagged: bool)
    | Info(ts: u64, note: Note)

  const NOTHING: seq<Record> := []

  datatype Trigger = Disabled | Low | High | Falling | Rising

  datatype Opts = Opts(foldEmpty: bool, excludeLineState: bool, speed: int, trigger: Trigger)

  /** The frame walker: header and payload assembly, the clock, and the last bus status. */
  datatype Walk = Walk(
    data: seq<byte>, ptr: nat, size: int, header: bool, status: bool, toggle: int,
    ls: int, vbus: int, trig: int, speedIn: int, enabled: bool, tsInt: u64, ts: u64,
    overflow: bool, crcError: bool, dataError: bool, duration: int)

  datatype CaptureFrame = CaptureFrame(ts: u64, size: int, data: seq<byte>)

  /** keepalives counts the keep-alive events accepted while the capture was enabled. */
  datatype State = State(
    w: Walk, lastTs: u64, foldBuf: seq<CaptureFrame>, foldCount: int, savedLs: int, savedTs: u64,
    limit: int, done: bool, keepalives: nat, out: seq<Record>)

  function FreshWalk(): Walk {
    Walk(seq(DATA_BUF_SIZE, i => 0), 0, 0, true, false, 0, -1, -1, -1, -1, false, 0, 0, false, false, false, 0)
  }

  function Fresh(limit: int): State {
    State(FreshWalk(), 0, [], 0, LS_INVALID, 0, limit, false, 0, [])
  }

  function EffectiveSpeed(o: Opts, w: Walk): int {
    if w.speedIn == SPEED_LS && o.speed != SPEED_RESET && o.speed != SPEED_LS then o.speed else w.speedIn
  }

  // ---- Emitters ----

  function Emit(s: State, rec: Record): (r: State)
    ensures r.w == s.w && r.limit == s.limit && r.done == s.done && r.keepalives == s.keepalives
  {
    s.(out := s.out + [rec], lastTs := rec.ts)
  }

  function LineStateEvent(o: Opts, s: State): (r: State)
    ensures r.w == s.w && r.limit == s.limit && r.done == s.done && r.keepalives == s.keepalives
  {
    if s.savedLs == LS_INVALID then s
    else
      var t := s.(savedLs := LS_INVALID);
      if o.excludeLineState then t
      else Emit(t, Info(s.savedTs, LineState(s.savedLs, ToS32(Wrap64(s.w.ts - s.savedTs)),
                                             EffectiveSpeed(o, s.w) == SPEED_LS)))
  }

  function CaptureInfo(o: Opts, s: State, ts: u64, note: Note): (r: State)
    ensures r.w == s.w && r.limit == s.limit && r.done == s.done && r.keepalives == s.keepalives
  {
    Emit(LineStateEvent(o, s), Info(ts, note))
  }

  function Now(o: Opts, s: State, note: Note): (r: State)
    ensures r.w == s.w && r.limit == s.limit && r.done == s.done && r.keepalives == s.keepalives
  {
    CaptureInfo(o, s, s.w.ts, note)
  }

  function TimeoutEvent(o: Opts, s: State): (r: State)
    ensures r.w == s.w && r.limit == s.limit && r.done == s.done && r.keepalives == s.keepalives
  {
    if s.w.enabled then Now(o, s, PeriodicUpdate) else s
  }

  function CheckCaptureLimit(o: Opts, s: State): (r: State)
    ensures r.w == s.w
  {
    var t := s.(limit := s.limit - 1);
    if t.limit == 0 then Now(o, t, LimitReached).(done := true) else t
  }

  function Max(a: u64, b: u64): u64 { if a < b then b else a }

  function WriteFolded(o: Opts, s: State, f: CaptureFrame): (r: State)
    ensures r.w == s.w && r.limit == s.limit && r.done == s.done && r.keepalives == s.keepalives
  {
    var ts := Max(f.ts, s.lastTs);
    if f.size < 0 then CaptureInfo(o, s, ts, KeepAlive) else Emit(s, Frame(ts, f.data, false))
  }

  function WriteAllFolded(o: Opts, s: State, fs: seq<CaptureFrame>): (r: State)
    decreases |fs|
    ensures r.w == s.w && r.limit == s.limit && r.done == s.done && r.keepalives == s.keepalives
  {
    if fs == [] then s else WriteFolded(o, WriteAllFolded(o, s, fs[..|fs| - 1]), fs[|fs| - 1])
  }

  function StopFolding(o: Opts, s: State): (r: State)
    ensures r.w == s.w && r.limit == s.limit && r.done == s.done && r.keepalives == s.keepalives
  {
    if s.foldCount == 0 && s.foldBuf == [] then s
    else
      var t := WriteAllFolded(o, s.(foldCount := 0, foldBuf := []), s.foldBuf);
      if s.foldCount >= 1 then Now(o, t, Folded(s.foldCount)) else t
  }

  /** A foldable frame or keep-alive that starts a new batch entry. */
  function Refold(o: Opts, s: State, foldLimit: int, f: CaptureFrame): (r: State)
    ensures r.w == s.w && r.limit == s.limit && r.done == s.done && r.keepalives == s.keepalives
  {
    if s.foldBuf == [] then s.(foldBuf := [f])
    else
      var t := s.(foldCount := s.foldCount + 1, foldBuf := []);
      var u := if t.foldCount == foldLimit then StopFolding(o, t) else t;
      u.(foldBuf := u.foldBuf + [f])
  }

  function KeepaliveEvent(o: Opts, s: State, ts: u64, delta: int): (r: State)
    ensures r.w == s.w
  {
    if !s.w.enabled then s
    else
      var k := s.(keepalives := s.keepalives + 1);
      var t := if !o.foldEmpty then CaptureInfo(o, k, ts, KeepAlive)
               else Refold(o, k, FOLD_LIMIT_LS_FS, CaptureFrame(ts, -delta, []));
      CheckCaptureLimit(o, t)
  }

  // ---- Frames ----

  predicate Flagged(w: Walk) { w.crcError || w.dataError }

  function Payload(w: Walk): seq<byte>
    requires 0 <= w.size <= |w.data|
  {
    w.data[..w.size]
  }

  function DataPrelude(o: Opts, s: State): (r: State)
    ensures r.w == s.w && r.limit == s.limit && r.done == s.done && r.keepalives == s.keepalives
  {
    var a := LineStateEvent(o, s);
    var b := if a.w.overflow || Flagged(a.w) || |a.foldBuf| == FOLD_BUF_SIZE then StopFolding(o, a) else a;
    var c := if b.w.overflow then Now(o, b, HardwareOverflow) else b;
    if c.w.dataError then Now(o, c, PhyError) else c
  }

  function FoldLimit(o: Opts, w: Walk): int {
    if EffectiveSpeed(o, w) == SPEED_HS then FOLD_LIMIT_HS else FOLD_LIMIT_LS_FS
  }

  function FoldOrWrite(o: Opts, s: State): (r: State)
    requires 0 < s.w.size <= |s.w.data|
    ensures r.w == s.w && r.limit == s.limit && r.done == s.done && r.keepalives == s.keepalives
  {
    var w := s.w;
    var pid, allowSof := w.data[0], EffectiveSpeed(o, w) != SPEED_LS;
    var frame := CaptureFrame(w.ts, w.size, Payload(w));
    if Flagged(w) || !o.foldEmpty then Emit(s, Frame(w.ts, Payload(w), Flagged(w)))
    else if s.foldBuf != [] && (pid == PID_IN || pid == PID_NAK) then s.(foldBuf := s.foldBuf + [frame])
    else if pid == PID_SOF && allowSof then Refold(o, s, FoldLimit(o, w), frame)
    else
      var t := if s.foldBuf != [] then StopFolding(o, s) else s;
      Emit(t, Frame(w.ts, Payload(w), false))
  }

  function DataEvent(o: Opts, s: State): (r: State)
    requires 0 < s.w.size <= |s.w.data|
    ensures r.w == s.w
  {
    if !s.w.enabled then s else CheckCaptureLimit(o, FoldOrWrite(o, DataPrelude(o, s)))
  }

  // ---- Bus status ----

  function TriggerEnabled(trigger: Trigger, w: Walk, level: int): bool {
    match trigger
    case Disabled => true
    case Low => level == 0
    case High => level == 1
    case Falling => w.enabled || (level == 0 && w.trig == 1)
    case Rising => w.enabled || (level == 1 && w.trig == 0)
  }

  function TriggerChange(o: Opts, s: State, level: int): State {
    if s.w.trig == level then s
    else
      var on := TriggerEnabled(o.trigger, s.w, level);
      var t := Now(o, s.(w := s.w.(enabled := on, trig := level)), TriggerInput(level));
      if on && !s.w.enabled then Now(o, t, StartingCapture)
      else if s.w.enabled && !on then Now(o, t, WaitingForTrigger)
      else t
  }

  function VbusChange(o: Opts, s: State, vbus: int): State {
    if s.w.vbus == vbus then s else Now(o, s.(w := s.w.(vbus := vbus)), Vbus(vbus != 0))
  }

  function SpeedChange(o: Opts, s: State, speed: int): State {
    if s.w.speedIn == speed then s
    else
      var t := s.(w := s.w.(speedIn := speed));
      if !t.w.enabled then t
      else if speed == SPEED_RESET then Now(o, t, BusReset)
      else Now(o, t, DetectedSpeed(speed))
  }

  function LineChange(o: Opts, s: State, ls: int): State {
    if s.w.ls == ls then s
    else
      var t := s.(w := s.w.(ls := ls));
      var delta := ToS32(Wrap64(s.w.ts - s.savedTs));
      if EffectiveSpeed(o, s.w) == SPEED_LS && s.savedLs == LS_SE0 && ls == LS_J3
         && MIN_KEEPALIVE_DURATION < delta < MAX_KEEPALIVE_DURATION
      then KeepaliveEvent(o, t.(savedLs := LS_INVALID), s.savedTs, delta)
      else LineStateEvent(o, t).(savedLs := ls, savedTs := s.w.ts)
  }

  function StatusEvent(o: Opts, s: State, ls: int, vbus: int, trigger: int, speed: int): State {
    LineChange(o, SpeedChange(o, VbusChange(o, TriggerChange(o, s, trigger), vbus), speed), ls)
  }

  // ---- The byte-driven walk ----

  function Flag(b: byte, mask: nat): int
    requires mask > 0
  {
    b / mask % 2
  }

  function Resync(w: Walk): Walk {
    w.(size := 0, ptr := 0, header := true, status := false)
  }

  /** How many octets the "Packet header" record shows. */
  function HeaderDump(size: int): nat {
    if size < 0 then 0 else if size < 84 then size else 84
  }

  function DesyncError(o: Opts, s: State): State
    requires s.w.size <= |s.w.data|
  {
    var t := Now(o, Now(o, s, Desynchronized), PacketHeader(s.w.data[..HeaderDump(s.w.size)]));
    t.(w := Resync(t.w))
  }

  function CheckHeader(o: Opts, s: State, toggle: int, zero: int): State
    requires s.w.size <= |s.w.data|
  {
    if toggle == s.w.toggle && zero == 0 then s
    else
      var t := if toggle != s.w.toggle then Now(o, s, BadToggle(toggle, s.w.toggle)) else s;
      var u := if zero != 0 then Now(o, t, ZeroBitSet) else t;
      DesyncError(o, u)
  }

  function Tick(w: Walk): Walk
    requires |w.data| == DATA_BUF_SIZE
  {
    var ts20 := w.data[0] as int % 16 * 0x1_0000 + w.data[1] as int * 0x100 + w.data[2] as int;
    var tsInt := if Flag(w.data[0], 0x10) == 1 then Wrap64(w.tsInt + 0x10_0000) else w.tsInt;
    w.(tsInt := tsInt, ts := ClockNs(tsInt, ts20), toggle := 1 - Flag(w.data[0], 0x40))
  }

  function FrameSize(w: Walk): int
    requires |w.data| == DATA_BUF_SIZE
  {
    w.data[3] as int % 8 * 0x100 + w.data[4] as int
  }

  function StartPayload(w: Walk, size: int): Walk
    requires |w.data| == DATA_BUF_SIZE
  {
    w.(size := size - DATA_HEADER_SIZE,
       overflow := Flag(w.data[3], 0x08) == 1,
       crcError := Flag(w.data[3], 0x10) == 1,
       dataError := Flag(w.data[3], 0x20) == 1,
       duration := w.data[5] as int * 0x100 + w.data[6] as int,
       header := size == DATA_HEADER_SIZE,
       ptr := 0)
  }

  function HeaderFront(o: Opts, s: State): State
    requires |s.w.data| == DATA_BUF_SIZE && s.w.size <= DATA_BUF_SIZE
  {
    var toggle, zero := Flag(s.w.data[0], 0x40), Flag(s.w.data[0], 0x20);
    var a := CheckHeader(o, s, toggle, zero);
    var b := a.(w := Tick(a.w));
    if ToS64(Wrap64(b.w.ts - b.lastTs)) > UPDATE_INTERVAL then TimeoutEvent(o, b) else b
  }

  function HeaderDone(o: Opts, s: State): State
    requires |s.w.data| == DATA_BUF_SIZE && s.w.size <= DATA_BUF_SIZE
  {
    var c := HeaderFront(o, s);
    if c.w.status then
      var d3 := c.w.data[3];
      var d := StatusEvent(o, c, d3 % 16, Flag(d3, 0x10), Flag(d3, 0x20), d3 / 0x40);
      d.(w := d.w.(ptr := 0))
    else
      var size := FrameSize(c.w);
      if size < DATA_HEADER_SIZE || size > MAX_DATA_SIZE
      then DesyncError(o, Now(o, c, BadSize(size)))
      else c.(w := StartPayload(c.w, size))
  }

  function PayloadDone(o: Opts, s: State): State
    requires 0 < s.w.size <= |s.w.data|
  {
    var d := DataEvent(o, s.(w := s.w.(header := true)));
    d.(w := d.w.(ptr := 0))
  }

  /** A byte enters the assembly buffer; the first byte of a header decides its kind. */
  function Store(w: Walk, b: byte): Walk
    requires w.ptr < |w.data|
  {
    var v := if w.header && w.ptr == 0
             then w.(status := b < 0x80, size := if b < 0x80 then STATUS_HEADER_SIZE else DATA_HEADER_SIZE)
             else w;
    v.(data := v.data[v.ptr := b], ptr := v.ptr + 1)
  }

  /** What holds between any two bytes, however hostile the stream. */
  predicate WalkOk(w: Walk) {
    && |w.data| == DATA_BUF_SIZE
    && (if w.header then w.ptr > 0 ==> w.ptr < w.size == (if w.status then STATUS_HEADER_SIZE else DATA_HEADER_SIZE)
        else w.ptr < w.size <= MAX_DATA_SIZE - DATA_HEADER_SIZE)
  }

  function CaptureSm(o: Opts, s: State, b: byte): State
    requires WalkOk(s.w)
  {
    var t := s.(w := Store(s.w, b));
    if t.w.ptr < t.w.size then t
    else if t.w.header then HeaderDone(o, t)
    else PayloadDone(o, t)
  }
}
