/**
 The reference walker: what a capture byte stream says, with no folding, no deferred
 line state, no periodic updates and no record limit. It yields the diagnostics and
 the frames received while the capture is enabled.
 */
module Walker {
  import opened Bytes
  import opened PacketModel

  function DesyncNotes(w: Walk): seq<Record>
    requires w.size <= |w.data|
  {
    [Info(w.ts, Desynchronized), Info(w.ts, PacketHeader(w.data[..HeaderDump(w.size)]))]
  }

  function BadHeader(w: Walk): bool
    requires |w.data| == DATA_BUF_SIZE
  {
    Flag(w.data[0], 0x40) != w.toggle || Flag(w.data[0], 0x20) != 0
  }

  function HeaderNotes(w: Walk): seq<Record>
    requires |w.data| == DATA_BUF_SIZE && w.size <= DATA_BUF_SIZE
  {
    if !BadHeader(w) then []
    else
      (if Flag(w.data[0], 0x40) != w.toggle then [Info(w.ts, BadToggle(Flag(w.data[0], 0x40), w.toggle))] else [])
      + (if Flag(w.data[0], 0x20) != 0 then [Info(w.ts, ZeroBitSet)] else [])
      + DesyncNotes(w)
  }

  function BusStatus(trigger: Trigger, w: Walk): Walk
    requires |w.data| == DATA_BUF_SIZE
  {
    var d3 := w.data[3];
    var level := Flag(d3, 0x20);
    w.(enabled := if level == w.trig then w.enabled else TriggerEnabled(trigger, w, level),
       trig := level, vbus := Flag(d3, 0x10), speedIn := d3 / 0x40, ls := d3 % 16, ptr := 0)
  }

  function WalkHeader(trigger: Trigger, w: Walk): (Walk, seq<Record>)
    requires |w.data| == DATA_BUF_SIZE && w.size <= DATA_BUF_SIZE
  {
    var v := Tick(if BadHeader(w) then Resync(w) else w);
    var size := FrameSize(v);
    if v.status then (BusStatus(trigger, v), HeaderNotes(w))
    else if size < DATA_HEADER_SIZE || size > MAX_DATA_SIZE then
      (Resync(v), HeaderNotes(w) + ([Info(v.ts, BadSize(size))] + DesyncNotes(v)))
    else (StartPayload(v, size), HeaderNotes(w))
  }

  function WalkSm(trigger: Trigger, w: Walk, b: byte): (Walk, seq<Record>)
    requires WalkOk(w)
  {
    var v := Store(w, b);
    if v.ptr < v.size then (v, [])
    else if v.header then WalkHeader(trigger, v)
    else (v.(header := true, ptr := 0),
          if v.enabled then [Frame(v.ts, Payload(v), Flagged(v))] else [])
  }

  /** Desynchronised or not, a byte never takes the assembly buffer out of bounds. */
  lemma WalkStaysOk(trigger: Trigger, w: Walk, b: byte)
    requires WalkOk(w)
    ensures WalkOk(WalkSm(trigger, w, b).0)
  {
    var v := Store(w, b);
    if v.ptr >= v.size && v.header {
      HeaderStaysOk(trigger, v);
    }
  }

  lemma TickKeeps(w: Walk)
    requires |w.data| == DATA_BUF_SIZE
    ensures var v := Tick(w);
      v.data == w.data && v.ptr == w.ptr && v.size == w.size && v.header == w.header && v.status == w.status
  {
  }

  lemma HeaderStaysOk(trigger: Trigger, w: Walk)
    requires |w.data| == DATA_BUF_SIZE && w.size <= DATA_BUF_SIZE && w.header
    ensures WalkOk(WalkHeader(trigger, w).0)
  {
    hide Tick, FrameSize, Flag, TriggerEnabled;
    TickKeeps(if BadHeader(w) then Resync(w) else w);
  }

  function WalkAll(trigger: Trigger, w: Walk, bytes: seq<byte>): (r: (Walk, seq<Record>))
    requires WalkOk(w)
    ensures WalkOk(r.0)
    decreases |bytes|
  {
    if bytes == [] then (w, [])
    else
      var (v, rs) := WalkSm(trigger, w, bytes[0]);
      WalkStaysOk(trigger, w, bytes[0]);
      var (u, more) := WalkAll(trigger, v, bytes[1..]);
      (u, rs + more)
  }

  /** The packet layer walks exactly as the reference does, under every option and in every state. */
  lemma SameWalk(o: Opts, s: State, b: byte)
    requires WalkOk(s.w)
    ensures CaptureSm(o, s, b).w == WalkSm(o.trigger, s.w, b).0
    ensures WalkOk(CaptureSm(o, s, b).w)
  {
    hide HeaderDone, WalkHeader, DataEvent;
    var t := s.(w := Store(s.w, b));
    if t.w.ptr >= t.w.size && t.w.header {
      SameHeader(o, t);
    }
    WalkStaysOk(o.trigger, s.w, b);
  }

  lemma SameHeader(o: Opts, s: State)
    requires |s.w.data| == DATA_BUF_SIZE && s.w.size <= DATA_BUF_SIZE
    ensures HeaderDone(o, s).w == WalkHeader(o.trigger, s.w).0
  {
    hide Tick, FrameSize, Flag, StatusEvent, ToS64, Wrap64, CheckHeader;
    var toggle, zero := Flag(s.w.data[0], 0x40), Flag(s.w.data[0], 0x20);
    var v := if BadHeader(s.w) then Resync(s.w) else s.w;
    SameCheck(o, s, toggle, zero);
    TickKeeps(v);
    var b := CheckHeader(o, s, toggle, zero).(w := Tick(v));
    var c := if ToS64(Wrap64(b.w.ts - b.lastTs)) > UPDATE_INTERVAL then TimeoutEvent(o, b) else b;
    if c.w.status {
      var d3 := c.w.data[3];
      SameStatus(o, c, d3 % 16, Flag(d3, 0x10), Flag(d3, 0x20), d3 / 0x40);
    }
  }

  lemma SameCheck(o: Opts, s: State, toggle: int, zero: int)
    requires s.w.size <= |s.w.data|
    ensures CheckHeader(o, s, toggle, zero).w == if toggle == s.w.toggle && zero == 0 then s.w else Resync(s.w)
  {
    hide LineStateEvent;
  }

  lemma TriggerWalk(o: Opts, s: State, level: int)
    ensures TriggerChange(o, s, level).w
      == s.w.(enabled := if level == s.w.trig then s.w.enabled else TriggerEnabled(o.trigger, s.w, level),
              trig := level)
  {
    hide LineStateEvent, TriggerEnabled;
  }

  lemma VbusWalk(o: Opts, s: State, vbus: int)
    ensures VbusChange(o, s, vbus).w == s.w.(vbus := vbus)
  {
  }

  lemma SpeedWalk(o: Opts, s: State, speed: int)
    ensures SpeedChange(o, s, speed).w == s.w.(speedIn := speed)
  {
  }

  lemma LineWalk(o: Opts, s: State, ls: int)
    ensures LineChange(o, s, ls).w == s.w.(ls := ls)
  {
    hide LineStateEvent, KeepaliveEvent, EffectiveSpeed, ToS32, Wrap64;
  }

  lemma SameStatus(o: Opts, s: State, ls: int, vbus: int, level: int, speed: int)
    ensures StatusEvent(o, s, ls, vbus, level, speed).w
      == s.w.(enabled := if level == s.w.trig then s.w.enabled else TriggerEnabled(o.trigger, s.w, level),
              trig := level, vbus := vbus, speedIn := speed, ls := ls)
  {
    hide TriggerChange, VbusChange, SpeedChange, LineChange, TriggerEnabled;
    TriggerWalk(o, s, level);
    var a := TriggerChange(o, s, level);
    VbusWalk(o, a, vbus);
    var b := VbusChange(o, a, vbus);
    SpeedWalk(o, b, speed);
    LineWalk(o, SpeedChange(o, b, speed), ls);
  }

  function Feed(o: Opts, s: State, bytes: seq<byte>): (r: State)
    requires WalkOk(s.w)
    ensures WalkOk(r.w)
    decreases |bytes|
  {
    if bytes == [] || s.done then s
    else
      SameWalk(o, s, bytes[0]);
      Feed(o, CaptureSm(o, s, bytes[0]), bytes[1..])
  }
}
