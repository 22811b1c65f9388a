/**
 A capture on which the two generations write different files: waiting for its trigger, it
 sees a low-speed bus in SE0 for 4.3 s and then in J. One takes this for a keep-alive, which
 it does not report while waiting; the other reports a line state.
 */
module Gen1Disagreement {
  import opened Bytes
  import opened PacketModel
  import opened Walker
  import opened TimeLaws
  import opened Timestamps
  import opened Frames
  import opened SessionClock
  import opened Gen1Refinement
  import EndToEnd
  import G = Gen1

  /** J comes 2^32 + 1504 ns after SE0. */
  const LAST_TICK: nat := 257698128
  const MARKERS: nat := 245

  /** A level that does not set the trigger off. */
  function IdleLevel(trigger: Trigger): nat { if trigger.Low? then 1 else 0 }

  function Bus(tick: nat, ls: nat, level: nat): Sent { StatusFrame(tick, ls, false, level == 1, 0) }

  /** Overflow markers k, k + 1, ..., and the change to J. */
  function Held(k: nat, level: nat): seq<Sent>
    decreases MARKERS + 1 - k
  {
    if k > MARKERS then [Bus(LAST_TICK, 12, level)] else [Bus(k * PERIOD, 0, level)] + Held(k + 1, level)
  }

  function Session(level: nat): seq<Sent> { [Bus(0, 0, level)] + Held(1, level) }

  /** The tick of marker k, and of the last frame behind the last marker. */
  function TickOf(k: nat): nat { if k > MARKERS then LAST_TICK else k * PERIOD }

  lemma TickSteps(k: nat)
    requires 0 < k <= MARKERS + 1
    ensures (k - 1) * PERIOD <= TickOf(k)
    ensures Epoch((k - 1) * PERIOD) <= Epoch(TickOf(k)) <= Epoch((k - 1) * PERIOD) + PERIOD
    ensures (TickOf(k) + 2 * PERIOD) * 100 < TWO64
  {
  }

  lemma {:induction false} HeldIsLegal(k: nat, level: nat)
    requires 0 < k <= MARKERS + 1 && level < 2
    ensures AllLegal(Held(k, level)) && ClockOk(Held(k, level), (k - 1) * PERIOD)
    decreases MARKERS + 1 - k
  {
    hide Epoch;
    TickSteps(k);
    if k <= MARKERS {
      HeldIsLegal(k + 1, level);
    }
  }

  // ---- Four octets in both generations ----

  lemma {:induction false} Gen1Concat(o: Opts, s: State, a: seq<byte>, b: seq<byte>)
    requires WalkOk(s.w) && WalkOk(Gen1Feed(o, s, a).w)
    ensures Gen1Feed(o, s, a + b) == Gen1Feed(o, Gen1Feed(o, s, a), b)
    decreases |a|
  {
    hide G.CaptureSm, WalkOk;
    if a == [] {
      assert a + b == b;
    } else if !s.done {
      assert (a + b)[0] == a[0] && (a + b)[1..] == a[1..] + b;
      var t := G.CaptureSm(o, s, a[0]);
      if WalkOk(t.w) { Gen1Concat(o, t, a[1..], b); }
    }
  }

  lemma Gen1Status(o: Opts, s: State, h: seq<byte>)
    requires WalkOk(s.w) && s.w.header && s.w.ptr == 0 && !s.done && |h| == STATUS_HEADER_SIZE && h[0] < 0x80
    ensures Gen1Feed(o, s, h) == G.HeaderDone(o, s.(w := HeaderIn(s.w, h)))
  {
    hide G.HeaderDone, G.PayloadDone;
    var a := G.CaptureSm(o, s, h[0]);
    var b := G.CaptureSm(o, a, h[1]);
    var c := G.CaptureSm(o, b, h[2]);
    assert Store(c.w, h[3]).data == HeaderIn(s.w, h).data;
    Gen1Four(o, s, h, a, b, c, G.CaptureSm(o, c, h[3]));
  }

  lemma Gen1Four(o: Opts, s: State, h: seq<byte>, a: State, b: State, c: State, d: State)
    requires |h| == 4 && WalkOk(s.w) && WalkOk(a.w) && WalkOk(b.w) && WalkOk(c.w)
    requires a == G.CaptureSm(o, s, h[0]) && b == G.CaptureSm(o, a, h[1])
    requires c == G.CaptureSm(o, b, h[2]) && d == G.CaptureSm(o, c, h[3])
    requires !s.done && !a.done && !b.done && !c.done
    ensures Gen1Feed(o, s, h) == d
  {
    hide G.CaptureSm, WalkOk;
    assert h[1..][0] == h[1] && h[1..][1..] == h[2..];
    assert h[2..][0] == h[2] && h[2..][1..] == h[3..];
    assert h[3..][0] == h[3] && h[3..][1..] == [];
    assert WalkOk(d.w) ==> Gen1Feed(o, d, []) == d;
    assert Gen1Feed(o, c, h[3..]) == d;
    assert Gen1Feed(o, b, h[2..]) == d;
    assert Gen1Feed(o, a, h[1..]) == d;
  }

  // ---- Waiting with SE0 pending ----

  /** Between two frames while the capture waits; SE0 is pending since time 0. */
  ghost predicate Waiting(o: Opts, s: State, toggle: nat, prev: nat, level: nat) {
    && Plain(o, s) && OnTime(s) && !s.done && Between(s.w, toggle, prev, Gate(false, level)) && s.w.ts == Ns(prev)
    && s.w.vbus == 0 && s.w.speedIn == SPEED_LS && s.w.ls == LS_SE0 && s.savedLs == LS_SE0 && s.savedTs == 0
  }

  /** A status frame in the assembly buffer. */
  function Arrived(s: State, f: Sent, toggle: nat, prev: nat): State
    requires Legal(f) && f.StatusFrame? && toggle < 2 && |s.w.data| == DATA_BUF_SIZE
  {
    s.(w := HeaderIn(s.w, Header(f, toggle, prev)))
  }

  lemma FrameArrives(o: Opts, s: State, f: Sent, toggle: nat, prev: nat, g: Gate)
    requires Legal(f) && f.StatusFrame? && toggle < 2 && Between(s.w, toggle, prev, g) && !s.done
    ensures Feed(o, s, PrintFrame(f, toggle, prev)) == HeaderDone(o, Arrived(s, f, toggle, prev))
    ensures Gen1Feed(o, s, PrintFrame(f, toggle, prev)) == G.HeaderDone(o, Arrived(s, f, toggle, prev))
  {
    hide HeaderDone, G.HeaderDone, Front, StatusTail;
    var h := Header(f, toggle, prev);
    assert PrintFrame(f, toggle, prev) == h;
    FrontFields(0, toggle, prev, f.tick);
    assert h[0] == Front(0, toggle, prev, f.tick)[0];
    FeedStatus(o, s, h);
    Gen1Status(o, s, h);
  }

  /** What both generations see in the header of a bus status frame. */
  lemma ArrivedFields(s: State, f: Sent, toggle: nat, prev: nat, g: Gate)
    requires Legal(f) && f.StatusFrame? && toggle < 2 && Between(s.w, toggle, prev, g)
    requires prev <= f.tick && (f.tick + 2 * PERIOD) * 100 < TWO64
    requires Epoch(prev) <= Epoch(f.tick) <= Epoch(prev) + PERIOD
    ensures var v := Arrived(s, f, toggle, prev).w;
      && |v.data| == DATA_BUF_SIZE && v.size == STATUS_HEADER_SIZE && v.status && InStep(v) && Tick(v).ts == Ns(f.tick)
      && v.data[3] % 16 == f.ls && Flag(v.data[3], 0x10) == Bit(f.vbus) && Flag(v.data[3], 0x20) == Bit(f.trigger)
      && v.data[3] / 0x40 == f.speed && v.ts == s.w.ts
      && v.enabled == s.w.enabled && v.trig == s.w.trig && v.vbus == s.w.vbus && v.speedIn == s.w.speedIn
      && v.ls == s.w.ls
  {
    hide Front, StatusTail, Flag, Epoch, Ns, ClockNs;
    var front, v := Front(0, toggle, prev, f.tick), Arrived(s, f, toggle, prev).w;
    FrontFields(0, toggle, prev, f.tick);
    StatusFields(f);
    assert v.data[0] == front[0] && v.data[1] == front[1] && v.data[2] == front[2] && v.data[3] == StatusTail(f)[0];
    EpochSteps(prev, f.tick);
    TickIsRight(v, prev, f.tick);
  }

  /** While the capture waits, a status frame that changes nothing says nothing. */
  lemma NothingNew(o: Opts, s: State)
    requires Plain(o, s) && OnTime(s) && |s.w.data| == DATA_BUF_SIZE && s.w.size == STATUS_HEADER_SIZE && s.w.status
    requires InStep(s.w) && s.w.ts <= Tick(s.w).ts && !s.w.enabled
    requires var d3 := s.w.data[3];
      Flag(d3, 0x20) == s.w.trig && Flag(d3, 0x10) == s.w.vbus && d3 / 0x40 == s.w.speedIn && d3 % 16 == s.w.ls
    ensures HeaderDone(o, s) == s.(w := Tick(s.w).(ptr := 0))
  {
    hide Tick, Flag, ToS64, Wrap64, OnTime, Ordered, FrameSize, HeaderFront, G.TimeoutEvent, Now;
    FrontSame(o, s);
    TickKeeps(s.w);
    TickKeepsBus(s.w);
    FrontIsTick(o, s);
    var c := HeaderFront(o, s);
    var d3 := c.w.data[3];
    assert c.w.status && d3 == s.w.data[3];
    StatusUnchanged(o, c, d3 % 16, Flag(d3, 0x10), Flag(d3, 0x20), d3 / 0x40);
  }

  lemma StatusUnchanged(o: Opts, s: State, ls: int, vbus: int, level: int, speed: int)
    requires s.w.ls == ls && s.w.vbus == vbus && s.w.trig == level && s.w.speedIn == speed
    ensures StatusEvent(o, s, ls, vbus, level, speed) == s
  {
  }

  lemma FrontIsTick(o: Opts, s: State)
    requires |s.w.data| == DATA_BUF_SIZE && s.w.size <= DATA_BUF_SIZE && !BadHeader(s.w) && !s.w.enabled
    ensures HeaderFront(o, s) == s.(w := Tick(s.w))
  {
    hide Tick, Flag, ToS64, Wrap64, Now;
    TickKeepsBus(s.w);
  }

  lemma MoveClock(s: State, w: Walk)
    requires OnTime(s) && w.ts >= s.w.ts
    ensures OnTime(s.(w := w))
  {
  }

  /** A marker: the clock goes on, and that is all. */
  lemma MarkerPasses(o: Opts, s: State, toggle: nat, k: nat, level: nat)
    requires 0 < k <= MARKERS && toggle < 2 && level < 2 && Waiting(o, s, toggle, (k - 1) * PERIOD, level)
    ensures var p := PrintFrame(Bus(k * PERIOD, 0, level), toggle, (k - 1) * PERIOD);
      var t := Feed(o, s, p);
      Waiting(o, t, 1 - toggle, k * PERIOD, level) && t.out == s.out && Gen1Feed(o, s, p) == t
  {
    hide HeaderDone, G.HeaderDone, Epoch, Ns, Tick, Flag, OnTime, Parts, InStep, Plain, Front, StatusTail, Header;
    var f, prev, g := Bus(k * PERIOD, 0, level), (k - 1) * PERIOD, Gate(false, level);
    TickSteps(k);
    FrameArrives(o, s, f, toggle, prev, g);
    ArrivedFields(s, f, toggle, prev, g);
    var u := Arrived(s, f, toggle, prev);
    NsGrows(prev, f.tick);
    MoveClock(s, u.w);
    PlainStays(o, s, u.w);
    NothingNew(o, u);
    TickKeepsBus(u.w);
    NotJ(u);
    HeadersAgree(o, u);
    AfterStatus(o, s, f, toggle, prev, g);
    SameHeader(o, u);
    MoveClock(s, HeaderDone(o, u).w);
    PlainStays(o, s, HeaderDone(o, u).w);
  }

  lemma PlainStays(o: Opts, s: State, w: Walk)
    requires Plain(o, s)
    ensures Plain(o, s.(w := w))
  {
  }

  lemma NotJ(u: State)
    requires |u.w.data| == DATA_BUF_SIZE && u.w.data[3] % 16 != LS_J3
    ensures !Parts(u.savedLs, u.savedTs, u.w)
  {
    hide Flag, Tick, WrapsIntoWindow;
  }

  /** The walker stands between frames again, its clock at the tick of this one. */
  lemma AfterStatus(o: Opts, s: State, f: Sent, toggle: nat, prev: nat, g: Gate)
    requires Legal(f) && f.StatusFrame? && toggle < 2 && Between(s.w, toggle, prev, g)
    requires prev <= f.tick && (f.tick + 2 * PERIOD) * 100 < TWO64
    requires Epoch(prev) <= Epoch(f.tick) <= Epoch(prev) + PERIOD
    ensures var w := WalkHeader(o.trigger, Arrived(s, f, toggle, prev).w).0;
      && Between(w, 1 - toggle, f.tick, Switch(o.trigger, g, Bit(f.trigger))) && w.ts == Ns(f.tick)
  {
    hide WalkHeader, Epoch, Ns, Switch, Header;
    HeaderInterpreted(o.trigger, s.w, f, toggle, prev, g);
  }

  // ---- The first frame ----

  lemma IdleStaysOff(trigger: Trigger)
    requires !trigger.Disabled?
    ensures var level := IdleLevel(trigger);
      Switch(trigger, Gate(false, -1), level) == Gate(false, level) && level < 2
  {
  }

  lemma FirstStatus(o: Opts, s: State, level: int)
    requires !TriggerEnabled(o.trigger, s.w, level) && !s.w.enabled && s.w.trig != level && s.w.vbus == -1
    requires s.w.speedIn == -1 && s.w.ls == -1 && s.savedLs == LS_INVALID
    ensures var t := StatusEvent(o, s, LS_SE0, 0, level, SPEED_LS);
      && t.out == s.out + [Info(s.w.ts, TriggerInput(level))] + [Info(s.w.ts, Vbus(false))]
      && t.savedLs == LS_SE0 && t.savedTs == s.w.ts && !t.done == !s.done
  {
    hide ToS32, Wrap64, TriggerEnabled;
  }

  /** The announcement, and a frame at time 0 that shows SE0 and a level short of the trigger. */
  lemma FirstFrame(o: Opts, limit: int)
    requires !o.foldEmpty && o.speed == SPEED_RESET && !o.trigger.Disabled?
    ensures var s, level := Announce(o, Fresh(limit)), IdleLevel(o.trigger);
      var p := PrintFrame(Bus(0, LS_SE0, level), 0, 0);
      var t := Feed(o, s, p);
      Waiting(o, t, 1, 0, level) && t.out == Reported(level) && Gen1Feed(o, s, p) == t
  {
    hide HeaderDone, G.HeaderDone, Epoch, Ns, Tick, OnTime, Parts, InStep, Front, StatusTail, Header, Switch, Flag,
         Feed, Gen1Feed, CaptureInfo, ClockRuns;
    var level := IdleLevel(o.trigger);
    var s, f, g := Announce(o, Fresh(limit)), Bus(0, LS_SE0, level), Gate(false, -1);
    AnnouncedWaits(o, limit);
    IdleStaysOff(o.trigger);
    ZeroTick();
    FrameArrives(o, s, f, 0, 0, g);
    ArrivedFields(s, f, 0, 0, g);
    var u := Arrived(s, f, 0, 0);
    MoveClock(s, u.w);
    PlainStays(o, s, u.w);
    NothingPending(u);
    HeadersAgree(o, u);
    AfterStatus(o, s, f, 0, 0, g);
    SameHeader(o, u);
    FirstHeader(o, u, level);
    ClockFrame(o.trigger, s.w, f, 0, 0, g);
    FeedOnTime(o, s, PrintFrame(f, 0, 0));
  }

  lemma ZeroTick()
    ensures Ns(0) == 0 && Epoch(0) == 0 && 2 * PERIOD * 100 < TWO64
  {
  }

  /** What a capture that waits for its trigger has written after its first status frame. */
  function Reported(level: int): seq<Record> {
    [Info(0, WaitingForTrigger), Info(0, TriggerInput(level)), Info(0, Vbus(false))]
  }

  lemma AnnouncedWaits(o: Opts, limit: int)
    requires !o.foldEmpty && o.speed == SPEED_RESET && !o.trigger.Disabled?
    ensures var s := Announce(o, Fresh(limit));
      && Plain(o, s) && OnTime(s) && !s.done && Between(s.w, 0, 0, Gate(false, -1)) && s.w == FreshWalk() && s.w.ts == 0
      && s.savedLs == LS_INVALID && s.out == [Info(0, WaitingForTrigger)]
  {
    assert Epoch(0) == 0;
  }

  lemma NothingPending(u: State)
    requires |u.w.data| == DATA_BUF_SIZE && u.savedLs == LS_INVALID
    ensures !Parts(u.savedLs, u.savedTs, u.w)
  {
    hide Flag, Tick, WrapsIntoWindow;
  }

  lemma FirstHeader(o: Opts, u: State, level: nat)
    requires |u.w.data| == DATA_BUF_SIZE && u.w.size == STATUS_HEADER_SIZE && u.w.status && InStep(u.w)
    requires level == IdleLevel(o.trigger) && !o.trigger.Disabled? && Tick(u.w).ts == 0
    requires !u.w.enabled && u.w.trig == -1 && u.w.vbus == -1 && u.w.speedIn == -1 && u.w.ls == -1
      && u.savedLs == LS_INVALID
    requires var d3 := u.w.data[3];
      d3 % 16 == LS_SE0 && Flag(d3, 0x10) == 0 && Flag(d3, 0x20) == level
      && d3 / 0x40 == SPEED_LS
    requires u.out == [Info(0, WaitingForTrigger)] && !u.done && !o.foldEmpty
    ensures var t := HeaderDone(o, u);
      t.out == Reported(level) && t.savedLs == LS_SE0 && t.savedTs == 0 && !t.done
      && t.w.vbus == 0 && t.w.speedIn == SPEED_LS && t.w.ls == LS_SE0
  {
    hide Tick, Flag, HeaderFront, StatusEvent, FrameSize, TriggerEnabled;
    FrontIsTick(o, u);
    TickKeeps(u.w);
    TickKeepsBus(u.w);
    var c := HeaderFront(o, u);
    IdleNotEnabled(o.trigger, c.w);
    FirstStatus(o, c, level);
    SameStatus(o, c, LS_SE0, 0, level, SPEED_LS);
    assert u.out + [Info(0, TriggerInput(level))] + [Info(0, Vbus(false))] == Reported(level);
  }

  lemma IdleNotEnabled(trigger: Trigger, w: Walk)
    requires !trigger.Disabled? && !w.enabled && w.trig == -1
    ensures !TriggerEnabled(trigger, w, IdleLevel(trigger))
  {
  }

  // ---- The last frame, and the whole run ----

  const HELD_NS: nat := 4294968800

  lemma JStatus(o: Opts, s: State, level: int)
    requires !o.foldEmpty && o.speed == SPEED_RESET && !o.excludeLineState && s.foldBuf == [] && s.foldCount == 0
    requires !s.w.enabled && s.w.trig == level && s.w.vbus == 0 && s.w.speedIn == SPEED_LS && s.w.ls == LS_SE0
    requires s.savedLs == LS_SE0 && s.savedTs == 0 && s.w.ts == HELD_NS
    ensures StatusEvent(o, s, LS_J3, 0, level, SPEED_LS).out == s.out
    ensures G.StatusEvent(o, s, LS_J3, 0, level, SPEED_LS).out == s.out + [Info(0, LineState(LS_SE0, 1504, true))]
  {
  }

  lemma JHeader(o: Opts, u: State, level: int)
    requires Plain(o, u) && OnTime(u) && !o.excludeLineState && |u.w.data| == DATA_BUF_SIZE
      && u.w.size == STATUS_HEADER_SIZE
    requires u.w.status && InStep(u.w) && u.w.ts <= Tick(u.w).ts == HELD_NS
    requires !u.w.enabled && u.w.trig == level && u.w.vbus == 0 && u.w.speedIn == SPEED_LS && u.w.ls == LS_SE0
    requires u.savedLs == LS_SE0 && u.savedTs == 0
    requires var d3 := u.w.data[3];
      d3 % 16 == LS_J3 && Flag(d3, 0x10) == 0 && Flag(d3, 0x20) == level
      && d3 / 0x40 == SPEED_LS
    ensures HeaderDone(o, u).out == u.out
    ensures G.HeaderDone(o, u).out == u.out + [Info(0, LineState(LS_SE0, 1504, true))]
  {
    hide Tick, Flag, HeaderFront, StatusEvent, G.StatusEvent, FrameSize, OnTime, ToS64, Wrap64, G.TimeoutEvent;
    FrontSame(o, u);
    FrontIsTick(o, u);
    TickKeeps(u.w);
    TickKeepsBus(u.w);
    QuietTimeout(o, u.(w := Tick(u.w)));
    JStatus(o, HeaderFront(o, u), level);
  }

  lemma QuietTimeout(o: Opts, s: State)
    requires !s.w.enabled
    ensures G.TimeoutEvent(o, s) == s
  {
  }

  lemma LastFrame(o: Opts, s: State, toggle: nat, level: nat)
    requires toggle < 2 && level < 2 && Waiting(o, s, toggle, MARKERS * PERIOD, level) && !o.excludeLineState
    ensures var p := PrintFrame(Bus(LAST_TICK, LS_J3, level), toggle, MARKERS * PERIOD);
      Feed(o, s, p).out == s.out && Gen1Feed(o, s, p).out == s.out + [Info(0, LineState(LS_SE0, 1504, true))]
  {
    hide HeaderDone, G.HeaderDone, Epoch, Tick, OnTime, InStep, Front, StatusTail, Header, Flag;
    var f, prev, g := Bus(LAST_TICK, LS_J3, level), MARKERS * PERIOD, Gate(false, level);
    TickSteps(MARKERS + 1);
    FrameArrives(o, s, f, toggle, prev, g);
    ArrivedFields(s, f, toggle, prev, g);
    var u := Arrived(s, f, toggle, prev);
    NsGrows(prev, f.tick);
    MoveClock(s, u.w);
    PlainStays(o, s, u.w);
    JHeader(o, u, level);
  }

  lemma {:induction false} HeldRun(o: Opts, s: State, toggle: nat, k: nat, level: nat)
    requires 0 < k <= MARKERS + 1 && toggle < 2 && level < 2 && !o.excludeLineState
    requires Waiting(o, s, toggle, (k - 1) * PERIOD, level)
    ensures AllLegal(Held(k, level))
    ensures var p := PrintFrames(Held(k, level), toggle, (k - 1) * PERIOD);
      Feed(o, s, p).out == s.out && Gen1Feed(o, s, p).out == s.out + [Info(0, LineState(LS_SE0, 1504, true))]
    decreases MARKERS + 1 - k
  {
    hide Feed, Gen1Feed, PrintFrame, Epoch, Ns, OnTime, Plain;
    HeldIsLegal(k, level);
    if k > MARKERS {
      LastFrame(o, s, toggle, level);
      OneFrame(Bus(LAST_TICK, LS_J3, level), toggle, (k - 1) * PERIOD);
    } else {
      var f, prev := Bus(k * PERIOD, LS_SE0, level), (k - 1) * PERIOD;
      var p, rest := PrintFrame(f, toggle, prev), PrintFrames(Held(k + 1, level), 1 - toggle, k * PERIOD);
      MarkerPasses(o, s, toggle, k, level);
      var t := Feed(o, s, p);
      HeldRun(o, t, 1 - toggle, k + 1, level);
      EndToEnd.FeedConcat(o, s, p, rest);
      Gen1Concat(o, s, p, rest);
    }
  }

  /**
   The run: announced with any trigger that is not off, a legal session whose clock runs, and the
   first generation writes one record more than the second.
   */
  lemma GenerationsDisagree(o: Opts, limit: int)
    requires !o.foldEmpty && o.speed == SPEED_RESET && !o.excludeLineState && !o.trigger.Disabled?
    ensures var s, fs := Announce(o, Fresh(limit)), Session(IdleLevel(o.trigger));
      && AllLegal(fs) && ClockOk(fs, 0)
      && var p := PrintFrames(fs, 0, 0);
         && Feed(o, s, p).out == Reported(IdleLevel(o.trigger))
         && Gen1Feed(o, s, p).out == Reported(IdleLevel(o.trigger)) + [Info(0, LineState(LS_SE0, 1504, true))]
  {
    hide Feed, Gen1Feed, PrintFrame, Epoch, Ns, OnTime, Plain, Announce, Held, Reported;
    var level, s := IdleLevel(o.trigger), Announce(o, Fresh(limit));
    IdleStaysOff(o.trigger);
    var f := Bus(0, LS_SE0, level);
    HeldIsLegal(1, level);
    var p, rest := PrintFrame(f, 0, 0), PrintFrames(Held(1, level), 1, 0);
    ZeroTick();
    FirstFrame(o, limit);
    AnnouncedWaits(o, limit);
    HeldRun(o, Feed(o, s, p), 1, 1, level);
    EndToEnd.FeedConcat(o, s, p, rest);
    Gen1Concat(o, s, p, rest);
    assert Session(level)[1..] == Held(1, level);
  }
}
