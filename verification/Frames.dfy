/**
 Capture frames as the hardware sends them (docs/protocol.md) and the test generators
 print them, and what the reference walker reads out of them.
 */
module Frames {
  import opened Bytes
  import opened PacketModel
  import opened Walker
  import opened Timestamps

  /** tick counts from the start of the capture. */
  datatype Sent =
    | DataFrame(tick: nat, payload: seq<byte>, overflow: bool, crcError: bool, dataError: bool, duration: nat)
    | StatusFrame(tick: nat, ls: nat, vbus: bool, trigger: bool, speed: nat)

  predicate Legal(f: Sent) {
    match f
    case DataFrame(_, payload, _, _, _, duration) =>
      DATA_HEADER_SIZE + |payload| <= MAX_DATA_SIZE && duration < 0x1_0000
    case StatusFrame(_, ls, _, _, speed) => ls < 16 && speed < 4
  }

  /** The first three octets; the overflow bit is set when a clock period began since tick prev. */
  function Front(kind: nat, toggle: nat, prev: nat, tick: nat): (p: seq<byte>)
    requires kind < 2 && toggle < 2
    ensures |p| == 3
  {
    var low := Low20(tick);
    [0x80 * kind + 0x40 * toggle + 0x10 * Bit(Epoch(tick) != Epoch(prev)) + low / 0x1_0000,
     low / 0x100 % 0x100, low % 0x100]
  }

  function DataTail(f: Sent): (p: seq<byte>)
    requires f.DataFrame? && Legal(f)
    ensures |p| == 4
  {
    var size := DATA_HEADER_SIZE + |f.payload|;
    [size / 0x100 + 0x20 * Bit(f.dataError) + 0x10 * Bit(f.crcError) + 0x08 * Bit(f.overflow), size % 0x100,
     f.duration / 0x100, f.duration % 0x100]
  }

  function StatusTail(f: Sent): (p: seq<byte>)
    requires f.StatusFrame? && Legal(f)
    ensures |p| == 1
  {
    [f.ls + 0x10 * Bit(f.vbus) + 0x20 * Bit(f.trigger) + 0x40 * f.speed]
  }

  function Header(f: Sent, toggle: nat, prev: nat): (p: seq<byte>)
    requires Legal(f) && toggle < 2
    ensures |p| == if f.DataFrame? then DATA_HEADER_SIZE else STATUS_HEADER_SIZE
  {
    Front(Bit(f.DataFrame?), toggle, prev, f.tick) + (if f.DataFrame? then DataTail(f) else StatusTail(f))
  }

  function PrintFrame(f: Sent, toggle: nat, prev: nat): seq<byte>
    requires Legal(f) && toggle < 2
  {
    Header(f, toggle, prev) + (if f.DataFrame? then f.payload else [])
  }

  predicate AllLegal(fs: seq<Sent>) { forall f :: f in fs ==> Legal(f) }

  /** The toggle bit alternates. */
  function PrintFrames(fs: seq<Sent>, toggle: nat, prev: nat): seq<byte>
    requires AllLegal(fs) && toggle < 2
    decreases |fs|
  {
    if fs == [] then []
    else PrintFrame(fs[0], toggle, prev) + PrintFrames(fs[1..], 1 - toggle, fs[0].tick)
  }

  /** Time does not run back, at most one period begins between frames, and the product stays in 64 bits. */
  predicate ClockOk(fs: seq<Sent>, prev: nat)
    decreases |fs|
  {
    fs == [] ||
    (&& prev <= fs[0].tick && Epoch(fs[0].tick) <= Epoch(prev) + PERIOD && (fs[0].tick + 2 * PERIOD) * 100 < TWO64
     && ClockOk(fs[1..], fs[0].tick))
  }

  lemma OneFrame(f: Sent, toggle: nat, prev: nat)
    requires Legal(f) && toggle < 2
    ensures AllLegal([f]) && PrintFrames([f], toggle, prev) == PrintFrame(f, toggle, prev)
  {
    hide PrintFrame;
    assert [f][1..] == [];
    assert PrintFrame(f, toggle, prev) + [] == PrintFrame(f, toggle, prev);
  }

  // ---- What the frames mean ----

  /** The trigger as the walker tracks it: whether the capture runs, and the last level (-1 before the first). */
  datatype Gate = Gate(enabled: bool, level: int)

  function Switch(trigger: Trigger, g: Gate, level: int): Gate {
    Gate(if level == g.level then g.enabled
         else match trigger
              case Disabled => true
              case Low => level == 0
              case High => level == 1
              case Falling => g.enabled || (level == 0 && g.level == 1)
              case Rising => g.enabled || (level == 1 && g.level == 0),
         level)
  }

  /** The frames of a capture: those with octets, while the trigger lets them through. */
  function Interpret(trigger: Trigger, g: Gate, fs: seq<Sent>): seq<Record>
    decreases |fs|
  {
    if fs == [] then []
    else match fs[0]
      case DataFrame(tick, payload, _, crcError, dataError, _) =>
        (if g.enabled && payload != [] && Ns(tick) < TWO64
         then [Frame(Ns(tick), payload, crcError || dataError)] else [])
        + Interpret(trigger, g, fs[1..])
      case StatusFrame(_, _, _, level, _) => Interpret(trigger, Switch(trigger, g, Bit(level)), fs[1..])
  }

  // ---- Between frames ----

  /** The walker is between frames, expects this toggle, and its clock stands at tick prev. */
  predicate Between(w: Walk, toggle: nat, prev: nat, g: Gate) {
    && WalkOk(w) && w.header && w.ptr == 0 && w.toggle == toggle && w.tsInt == Epoch(prev)
    && w.enabled == g.enabled && w.trig == g.level
  }

  lemma {:induction false} WalkConcat(trigger: Trigger, w: Walk, a: seq<byte>, b: seq<byte>)
    requires WalkOk(w)
    ensures var (v, r1) := WalkAll(trigger, w, a);
      var (u, r2) := WalkAll(trigger, v, b);
      WalkAll(trigger, w, a + b) == (u, r1 + r2)
    decreases |a|
  {
    hide WalkSm, WalkOk;
    if a == [] {
      assert a + b == b;
      assert NOTHING + WalkAll(trigger, w, b).1 == WalkAll(trigger, w, b).1;
    } else {
      WalkStaysOk(trigger, w, a[0]);
      var (v, rs) := WalkSm(trigger, w, a[0]);
      WalkConcat(trigger, v, a[1..], b);
      var (u, r1) := WalkAll(trigger, v, a[1..]);
      var r2 := WalkAll(trigger, u, b).1;
      assert rs + (r1 + r2) == (rs + r1) + r2;
      assert (a + b)[0] == a[0] && (a + b)[1..] == a[1..] + b;
    }
  }

  function Filled(w: Walk, bytes: seq<byte>): Walk
    requires w.ptr + |bytes| <= |w.data|
  {
    w.(data := w.data[..w.ptr] + bytes + w.data[w.ptr + |bytes|..], ptr := w.ptr + |bytes|)
  }

  /** Octets that do not complete a header or a payload are collected and nothing else. */
  lemma {:induction false} Fill(trigger: Trigger, w: Walk, bytes: seq<byte>)
    requires WalkOk(w) && (w.ptr > 0 || !w.header) && w.ptr + |bytes| < w.size
    ensures WalkAll(trigger, w, bytes) == (Filled(w, bytes), [])
    decreases |bytes|
  {
    hide WalkHeader, WalkSm, Filled, Store;
    FilledSteps(w, bytes);
    if bytes != [] {
      WalkStaysOk(trigger, w, bytes[0]);
      Collects(trigger, w, bytes[0]);
      Fill(trigger, Store(w, bytes[0]), bytes[1..]);
      assert NOTHING + NOTHING == NOTHING;
    }
  }

  lemma FilledSteps(w: Walk, bytes: seq<byte>)
    requires (w.ptr > 0 || !w.header) && w.ptr + |bytes| <= |w.data|
    ensures bytes == [] ==> Filled(w, bytes) == w
    ensures bytes != [] ==> Filled(Store(w, bytes[0]), bytes[1..]) == Filled(w, bytes)
  {
    if bytes == [] {
      assert Filled(w, bytes).data == w.data;
    } else {
      FilledData(w.data, w.ptr, bytes);
    }
  }

  lemma FilledData(data: seq<byte>, p: nat, bytes: seq<byte>)
    requires bytes != [] && p + |bytes| <= |data|
    ensures var d := data[p := bytes[0]];
      d[..p + 1] + bytes[1..] + d[p + |bytes|..] == data[..p] + bytes + data[p + |bytes|..]
  {
    var d := data[p := bytes[0]];
    assert d[..p + 1] == data[..p] + [bytes[0]] && d[p + |bytes|..] == data[p + |bytes|..];
    assert [bytes[0]] + bytes[1..] == bytes;
  }

  lemma Collects(trigger: Trigger, w: Walk, b: byte)
    requires WalkOk(w) && (w.ptr > 0 || !w.header) && w.ptr + 1 < w.size
    ensures var v := Store(w, b);
      WalkSm(trigger, w, b) == (v, NOTHING) && v.size == w.size && v.ptr == w.ptr + 1
  {
  }

  // ---- One frame ----

  lemma WalkOne(trigger: Trigger, w: Walk, b: byte)
    requires WalkOk(w)
    ensures WalkAll(trigger, w, [b]) == WalkSm(trigger, w, b)
  {
    hide WalkSm;
    assert [b][1..] == [];
    var (v, rs) := WalkSm(trigger, w, b);
    assert rs + NOTHING == rs;
  }

  function HeaderIn(w: Walk, h: seq<byte>): Walk
    requires 0 < |h| <= |w.data|
  {
    w.(data := h + w.data[|h|..], ptr := |h|, size := |h|, status := h[0] < 0x80)
  }

  predicate HeaderSized(h: seq<byte>) {
    h != [] && |h| == if h[0] < 0x80 then STATUS_HEADER_SIZE else DATA_HEADER_SIZE
  }

  lemma FirstCollects(trigger: Trigger, w: Walk, b: byte)
    requires WalkOk(w) && w.header && w.ptr == 0
    ensures WalkSm(trigger, w, b) == (Store(w, b), []) && WalkOk(Store(w, b)) && Store(w, b).ts == w.ts
    ensures Store(w, b).header && Store(w, b).ptr == 1
    ensures Store(w, b).size == if b < 0x80 then STATUS_HEADER_SIZE else DATA_HEADER_SIZE
  {
  }

  lemma MiddleFilled(w: Walk, h: seq<byte>)
    requires WalkOk(w) && w.header && w.ptr == 0 && HeaderSized(h)
    ensures Filled(Store(w, h[0]), h[1..|h| - 1])
      == HeaderIn(w, h).(data := h[..|h| - 1] + w.data[|h| - 1..], ptr := |h| - 1)
  {
    assert Filled(Store(w, h[0]), h[1..|h| - 1]).data == h[..|h| - 1] + w.data[|h| - 1..];
  }

  lemma AllFilled(w: Walk, h: seq<byte>)
    requires WalkOk(w) && w.header && w.ptr == 0 && HeaderSized(h)
    ensures |w.data| == DATA_BUF_SIZE && Filled(Store(w, h[0]), h[1..]) == HeaderIn(w, h)
  {
    FilledAll(w.data, h);
  }

  lemma FilledAll(data: seq<byte>, h: seq<byte>)
    requires 0 < |h| <= |data|
    ensures var d := data[0 := h[0]]; d[..1] + h[1..] + d[|h|..] == h + data[|h|..]
  {
    assert data[0 := h[0]][..1] == [h[0]] && [h[0]] + h[1..] == h;
  }

  lemma MiddleCollected(trigger: Trigger, w: Walk, h: seq<byte>)
    requires WalkOk(w) && w.header && w.ptr == 0 && HeaderSized(h)
    ensures var v := HeaderIn(w, h).(data := h[..|h| - 1] + w.data[|h| - 1..], ptr := |h| - 1);
      WalkAll(trigger, w, h[..|h| - 1]) == (v, NOTHING)
  {
    hide WalkHeader, WalkSm, WalkAll, Store, Filled;
    FirstCollects(trigger, w, h[0]);
    WalkOne(trigger, w, h[0]);
    Fill(trigger, Store(w, h[0]), h[1..|h| - 1]);
    MiddleFilled(w, h);
    WalkConcat(trigger, w, [h[0]], h[1..|h| - 1]);
    assert h[..|h| - 1] == [h[0]] + h[1..|h| - 1];
    assert NOTHING + NOTHING == NOTHING;
  }

  lemma LastOctet(trigger: Trigger, w: Walk, v: Walk, h: seq<byte>)
    requires WalkOk(w) && w.header && w.ptr == 0 && HeaderSized(h)
    requires v == HeaderIn(w, h).(data := h[..|h| - 1] + w.data[|h| - 1..], ptr := |h| - 1)
    ensures WalkOk(v) && WalkSm(trigger, v, h[|h| - 1]) == WalkHeader(trigger, HeaderIn(w, h))
  {
    hide WalkHeader;
    assert Store(v, h[|h| - 1]).data == HeaderIn(w, h).data;
  }

  /** A header is collected octet by octet; with the last one it is looked at as a whole. */
  lemma HeaderCollected(trigger: Trigger, w: Walk, h: seq<byte>)
    requires WalkOk(w) && w.header && w.ptr == 0 && HeaderSized(h)
    ensures WalkAll(trigger, w, h) == WalkHeader(trigger, HeaderIn(w, h))
  {
    hide WalkHeader, WalkSm;
    var n := |h|;
    MiddleCollected(trigger, w, h);
    var v := HeaderIn(w, h).(data := h[..n - 1] + w.data[n - 1..], ptr := n - 1);
    LastOctet(trigger, w, v, h);
    WalkOne(trigger, v, h[n - 1]);
    WalkConcat(trigger, w, h[..n - 1], [h[n - 1]]);
    assert h == h[..n - 1] + [h[n - 1]];
    var rs := WalkHeader(trigger, HeaderIn(w, h)).1;
    assert NOTHING + rs == rs;
  }

  lemma LastPayloadOctet(trigger: Trigger, w: Walk, p: seq<byte>)
    requires WalkOk(w) && !w.header && w.ptr == 0 && |p| == w.size
    ensures var v := w.(data := p + w.data[|p|..], ptr := 0, header := true);
      var u := Filled(w, p[..|p| - 1]);
      && WalkOk(u)
      && WalkSm(trigger, u, p[|p| - 1]) == (v, if w.enabled then [Frame(w.ts, p, Flagged(w))] else [])
  {
    var n := |p|;
    var u := Filled(w, p[..n - 1]);
    var last := Store(u, p[n - 1]);
    assert last.data == p + w.data[n..];
    assert last.data[..n] == p;
  }

  lemma PayloadCollected(trigger: Trigger, w: Walk, p: seq<byte>)
    requires WalkOk(w) && !w.header && w.ptr == 0 && |p| == w.size
    ensures var v := w.(data := p + w.data[|p|..], ptr := 0, header := true);
      WalkAll(trigger, w, p) == (v, if w.enabled then [Frame(w.ts, p, Flagged(w))] else [])
  {
    hide WalkSm, WalkAll, Filled, Flagged;
    var n := |p|;
    Fill(trigger, w, p[..n - 1]);
    LastPayloadOctet(trigger, w, p);
    WalkConcat(trigger, w, p[..n - 1], [p[n - 1]]);
    WalkOne(trigger, Filled(w, p[..n - 1]), p[n - 1]);
    assert p == p[..n - 1] + [p[n - 1]];
    var rs := if w.enabled then [Frame(w.ts, p, Flagged(w))] else [];
    assert NOTHING + rs == rs;
  }

  // ---- The header fields come back ----

  lemma FirstOctet(kind: nat, toggle: nat, carry: nat, top: nat)
    requires kind < 2 && toggle < 2 && carry < 2 && top < 16
    ensures var b: byte := 0x80 * kind + 0x40 * toggle + 0x10 * carry + top;
      && Flag(b, 0x40) == toggle && Flag(b, 0x20) == 0 && Flag(b, 0x10) == carry && (b < 0x80 <==> kind == 0)
      && b as int % 16 == top
  {
  }

  lemma FrontFields(kind: nat, toggle: nat, prev: nat, tick: nat)
    requires kind < 2 && toggle < 2
    ensures var p := Front(kind, toggle, prev, tick);
      && Flag(p[0], 0x40) == toggle && Flag(p[0], 0x20) == 0
      && Flag(p[0], 0x10) == Bit(Epoch(tick) != Epoch(prev)) && (p[0] < 0x80 <==> kind == 0)
      && p[0] as int % 16 * 0x1_0000 + p[1] as int * 0x100 + p[2] as int == Low20(tick)
  {
    hide Flag, Epoch;
    var low := Low20(tick);
    FirstOctet(kind, toggle, Bit(Epoch(tick) != Epoch(prev)), low / 0x1_0000);
    var mid := low / 0x100;
    assert mid / 0x100 == low / 0x1_0000;
  }

  lemma FlagOctet(top: nat, a: nat, b: nat, c: nat)
    requires top < 8 && a < 2 && b < 2 && c < 2
    ensures var x: byte := top + 0x20 * a + 0x10 * b + 0x08 * c;
      x as int % 8 == top && Flag(x, 0x20) == a && Flag(x, 0x10) == b && Flag(x, 0x08) == c
  {
  }

  lemma DataFields(f: Sent)
    requires f.DataFrame? && Legal(f)
    ensures var p := DataTail(f);
      && p[0] as int % 8 * 0x100 + p[1] as int == DATA_HEADER_SIZE + |f.payload|
      && Flag(p[0], 0x08) == Bit(f.overflow) && Flag(p[0], 0x10) == Bit(f.crcError)
      && Flag(p[0], 0x20) == Bit(f.dataError) && p[2] as int * 0x100 + p[3] as int == f.duration
  {
    hide Flag;
    FlagOctet((DATA_HEADER_SIZE + |f.payload|) / 0x100, Bit(f.dataError), Bit(f.crcError), Bit(f.overflow));
  }

  lemma StatusFields(f: Sent)
    requires f.StatusFrame? && Legal(f)
    ensures var p := StatusTail(f);
      && p[0] % 16 == f.ls && Flag(p[0], 0x10) == Bit(f.vbus) && Flag(p[0], 0x20) == Bit(f.trigger)
      && p[0] / 0x40 == f.speed
  {
  }

  // ---- One frame in front ----

  /** The walker after the header of f. */
  lemma HeaderWalked(trigger: Trigger, w: Walk, f: Sent, toggle: nat, prev: nat, g: Gate)
    requires Legal(f) && toggle < 2 && Between(w, toggle, prev, g)
    requires Epoch(prev) <= Epoch(f.tick) <= Epoch(prev) + PERIOD && (f.tick + 2 * PERIOD) * 100 < TWO64
      && prev <= f.tick
    ensures var (v, rs) := WalkAll(trigger, w, Header(f, toggle, prev));
      && rs == [] && WalkOk(v) && v.ptr == 0 && v.toggle == 1 - toggle && Tells(v, f.tick)
      && (f.StatusFrame? ==> Between(v, 1 - toggle, f.tick, Switch(trigger, g, Bit(f.trigger))))
      && (f.DataFrame? ==>
            && v.header == (f.payload == []) && v.size == |f.payload| && v.enabled == g.enabled && v.trig == g.level
            && Flagged(v) == (f.crcError || f.dataError))
  {
    hide WalkHeader, Front, DataTail, StatusTail, WalkOk;
    var h := Header(f, toggle, prev);
    FrontFields(Bit(f.DataFrame?), toggle, prev, f.tick);
    assert h[0] == Front(Bit(f.DataFrame?), toggle, prev, f.tick)[0];
    HeaderCollected(trigger, w, h);
    HeaderInterpreted(trigger, w, f, toggle, prev, g);
  }

  lemma HeaderInterpreted(trigger: Trigger, w: Walk, f: Sent, toggle: nat, prev: nat, g: Gate)
    requires Legal(f) && toggle < 2 && Between(w, toggle, prev, g)
    requires Epoch(prev) <= Epoch(f.tick) <= Epoch(prev) + PERIOD && (f.tick + 2 * PERIOD) * 100 < TWO64
      && prev <= f.tick
    ensures var (v, rs) := WalkHeader(trigger, HeaderIn(w, Header(f, toggle, prev)));
      && rs == [] && WalkOk(v) && v.ptr == 0 && v.toggle == 1 - toggle && Tells(v, f.tick)
      && (f.StatusFrame? ==> Between(v, 1 - toggle, f.tick, Switch(trigger, g, Bit(f.trigger))))
      && (f.DataFrame? ==>
            && v.header == (f.payload == []) && v.size == |f.payload| && v.enabled == g.enabled && v.trig == g.level
            && Flagged(v) == (f.crcError || f.dataError))
  {
    hide Front, DataTail, StatusTail, Flag, Epoch, Ns, ClockNs;
    var front := Front(Bit(f.DataFrame?), toggle, prev, f.tick);
    var h := Header(f, toggle, prev);
    var u := HeaderIn(w, h);
    FrontFields(Bit(f.DataFrame?), toggle, prev, f.tick);
    assert u.data[0] == front[0] && u.data[1] == front[1] && u.data[2] == front[2];
    HeaderStaysOk(trigger, u);
    TickIsRight(u, prev, f.tick);
    EpochSteps(prev, f.tick);
    TickKeeps(u);
    if f.DataFrame? {
      DataFields(f);
      var tail := DataTail(f);
      assert u.data[3] == tail[0] && u.data[4] == tail[1] && u.data[5] == tail[2] && u.data[6] == tail[3];
    } else {
      StatusFields(f);
      assert u.data[3] == StatusTail(f)[0];
    }
  }

  lemma EpochSteps(a: nat, b: nat)
    requires Epoch(a) <= Epoch(b) <= Epoch(a) + PERIOD
    ensures Epoch(b) == Epoch(a) || Epoch(b) == Epoch(a) + PERIOD
  {
  }

  lemma FrameWalked(trigger: Trigger, w: Walk, f: Sent, toggle: nat, prev: nat, g: Gate)
    requires Legal(f) && toggle < 2 && Between(w, toggle, prev, g)
    requires Epoch(prev) <= Epoch(f.tick) <= Epoch(prev) + PERIOD && (f.tick + 2 * PERIOD) * 100 < TWO64
      && prev <= f.tick
    ensures var (v, rs) := WalkAll(trigger, w, PrintFrame(f, toggle, prev));
      && Between(v, 1 - toggle, f.tick, if f.DataFrame? then g else Switch(trigger, g, Bit(f.trigger)))
      && rs == (if f.DataFrame? && g.enabled && f.payload != []
                then [Frame(Ns(f.tick), f.payload, f.crcError || f.dataError)]
                else NOTHING)
      && v.ts == Ns(f.tick) && Ns(f.tick) < TWO64
  {
    hide Header, WalkHeader, Epoch, Switch;
    HeaderWalked(trigger, w, f, toggle, prev, g);
    var v := WalkAll(trigger, w, Header(f, toggle, prev)).0;
    var rest := if f.DataFrame? then f.payload else [];
    WalkConcat(trigger, w, Header(f, toggle, prev), rest);
    if rest != [] { PayloadCollected(trigger, v, rest); }
    var rs := WalkAll(trigger, v, rest).1;
    assert NOTHING + rs == rs;
  }

  /**
   Any legal frames, printed one after the other, are read back exactly: the frames that
   the trigger lets through, in order, with their octets, error flags and times, and
   not one diagnostic.
   */
  lemma {:induction false} FramesRoundTrip(trigger: Trigger, w: Walk, fs: seq<Sent>, toggle: nat, prev: nat, g: Gate)
    requires AllLegal(fs) && toggle < 2 && Between(w, toggle, prev, g) && ClockOk(fs, prev)
    ensures var (v, rs) := WalkAll(trigger, w, PrintFrames(fs, toggle, prev));
      rs == Interpret(trigger, g, fs) && WalkOk(v) && v.header && v.ptr == 0
    decreases |fs|
  {
    hide PrintFrame, Between, Legal, Switch, Epoch;
    BetweenIsOk(w, toggle, prev, g);
    if fs != [] {
      var f := fs[0];
      EpochOrder(prev, f.tick);
      FrameWalked(trigger, w, f, toggle, prev, g);
      var g' := if f.DataFrame? then g else Switch(trigger, g, Bit(f.trigger));
      var v := WalkAll(trigger, w, PrintFrame(f, toggle, prev)).0;
      FramesRoundTrip(trigger, v, fs[1..], 1 - toggle, f.tick, g');
      WalkConcat(trigger, w, PrintFrame(f, toggle, prev), PrintFrames(fs[1..], 1 - toggle, f.tick));
      var rs := Interpret(trigger, g', fs[1..]);
      assert NOTHING + rs == rs;
    }
  }

  lemma BetweenIsOk(w: Walk, toggle: nat, prev: nat, g: Gate)
    requires Between(w, toggle, prev, g)
    ensures WalkOk(w) && w.header && w.ptr == 0
  {
  }

  lemma EpochOrder(a: nat, b: nat)
    requires a <= b
    ensures Epoch(a) <= Epoch(b)
  {
  }

  /** The generators fill the last word with the beginning of a header, which means nothing. */
  function Filler(n: nat): seq<byte>
    requires n < 4
  {
    [0x81, 0, 0][..n]
  }

  lemma FillerIsSilent(trigger: Trigger, w: Walk, n: nat)
    requires n < 4 && WalkOk(w) && w.header && w.ptr == 0
    ensures WalkAll(trigger, w, Filler(n)).1 == []
  {
    hide WalkHeader;
    if n > 0 {
      var p := Filler(n);
      var v1 := Store(w, p[0]);
      WalkStaysOk(trigger, w, p[0]);
      WalkOne(trigger, w, p[0]);
      Fill(trigger, v1, p[1..]);
      WalkConcat(trigger, w, [p[0]], p[1..]);
      assert p == [p[0]] + p[1..];
      assert NOTHING + NOTHING == NOTHING;
    }
  }
}
