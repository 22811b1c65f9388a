/**
 The speed the user selected, where the bus reports low speed: 1 and 2 are full and high speed,
 0 is low speed and 3 leaves it to detection.
 */
module SelectedSpeed {
  import opened Bytes
  import opened PacketModel
  import opened Walker
  import opened FoldLaws
  import opened FoldBound
  import opened FoldExact
  import opened FoldOutput
  import opened FoldRunaway
  import opened Frames
  import opened Timestamps
  import opened PacketCalls
  import opened TimeLaws
  import EndToEnd

  // ---- Any session ----

  /** A sound start-of-frame while the bus reports low speed. */
  predicate LowSof(h: Heard) {
    h.Got? && !h.flagged && !h.overflow && h.data != [] && h.data[0] == 0xA5 && h.speedIn == 0
  }

  predicate AllLowSofs(hs: seq<Heard>) { forall h :: h in hs ==> LowSof(h) }

  lemma FrontLow(hs: seq<Heard>)
    requires AllLowSofs(hs) && hs != []
    ensures AllLowSofs(hs[..|hs| - 1]) && LowSof(hs[|hs| - 1])
  {
    forall h | h in hs[..|hs| - 1] ensures h in hs {
    }
  }

  /** Selected full or high speed: each one drops the one before it. */
  lemma {:induction false} AllFold(o: Opts, hs: seq<Heard>)
    requires AllLowSofs(hs) && (o.speed == 1 || o.speed == 2)
    ensures Written(o, hs) == [] && Open(o, hs) == (if hs == [] then 0 else 1)
  {
    if hs == [] {
      NothingWritten(o);
    } else {
      var m := |hs| - 1;
      FrontLow(hs);
      AllFold(o, hs[..m]);
      StartsAt(o, hs[m]);
      Step(o, hs);
    }
  }

  lemma StartsAt(o: Opts, h: Heard)
    requires LowSof(h)
    ensures o.speed == 1 || o.speed == 2 ==> Closes(o, h, 0) && Closes(o, h, 1)
    ensures o.speed == 0 || o.speed == 3 ==> !Starts(o, h) && !Joins(h)
  {
  }

  /** Low speed or none selected: each one is written. */
  lemma {:induction false} NoneFolds(o: Opts, hs: seq<Heard>)
    requires AllLowSofs(hs) && (o.speed == 0 || o.speed == 3)
    ensures Written(o, hs) == Range(0, |hs|) && Open(o, hs) == 0
  {
    hide Starts, Joins, Closes, Written, Open;
    if hs == [] {
      NothingWritten(o);
    } else {
      var m := |hs| - 1;
      FrontLow(hs);
      NoneFolds(o, hs[..m]);
      StartsAt(o, hs[m]);
      CloseStarts(o, hs[m], Open(o, hs[..m]));
      Step(o, hs);
      assert Range(0, m + 1) == Range(0, m) + [m] && Range(m, m) == [];
      Nothing(Range(0, m));
    }
  }

  lemma {:induction false} TellsNone(o: Opts, rs: seq<Record>, hs: seq<Heard>)
    requires Reports(o, rs, hs, [])
    ensures forall r :: r in rs ==> !Shows(r)
  {
    hide When, Says;
    if rs != [] {
      TellsNone(o, rs[..|rs| - 1], hs);
      assert rs == rs[..|rs| - 1] + [rs[|rs| - 1]];
    }
  }

  lemma {:induction false} TellsEach(o: Opts, rs: seq<Record>, hs: seq<Heard>, n: nat)
    requires n <= |hs| && Reports(o, rs, hs, Range(0, n)) && AllLowSofs(hs) && (o.speed == 0 || o.speed == 3)
    ensures Select(AllFrames, rs) == FramesOf(hs[..n])
    decreases |rs|
  {
    hide Open, FramesOf, LowSof;
    if rs == [] {
      OneHeard(Alive(0));
    } else {
      var r, front := rs[|rs| - 1], rs[..|rs| - 1];
      if Shows(r) {
        assert hs[n - 1] in hs && n > 0 && Range(0, n)[n - 1] == n - 1;
        LowIsGot(hs[n - 1]);
        assert Range(0, n)[..n - 1] == Range(0, n - 1);
        TellsEach(o, front, hs, n - 1);
        PrefixLow(hs, n);
        NoneFolds(o, hs[..n]);
        FramesSnoc(hs, n);
      } else {
        TellsEach(o, front, hs, n);
      }
    }
  }

  lemma LowIsGot(h: Heard)
    requires LowSof(h)
    ensures h.Got?
  {
  }

  lemma PrefixLow(hs: seq<Heard>, n: nat)
    requires AllLowSofs(hs) && n <= |hs|
    ensures AllLowSofs(hs[..n])
  {
    forall h | h in hs[..n] ensures h in hs {
    }
  }

  lemma FramesSnoc(hs: seq<Heard>, n: nat)
    requires 0 < n <= |hs| && hs[n - 1].Got?
    ensures FramesOf(hs[..n]) == FramesOf(hs[..n - 1]) + [Frame(hs[n - 1].ts, hs[n - 1].data, hs[n - 1].flagged)]
  {
    assert hs[..n][..n - 1] == hs[..n - 1];
  }

  /**
   Start-of-frames behind a bus status that says low speed. With full or high speed selected
   none is written and the last one is held back; with low speed or none each one is written
   as it was received.
   */
  lemma SelectedSpeedDecides(o: Opts, limit: int, cs: seq<Call>)
    requires o.foldEmpty
    requires var s := Announce(o, Fresh(limit)); WalkOk(s.w) && AllLowSofs(HeardOf(o, s, cs))
    ensures var s := Announce(o, Fresh(limit));
      var t, hs := OnCalls(o, s, cs), HeardOf(o, s, cs);
      && (o.speed == 1 || o.speed == 2 ==>
            (forall r :: r in t.out ==> !r.Frame?) && |t.foldBuf| == (if hs == [] then 0 else 1))
      && (o.speed == 0 || o.speed == 3 ==> Select(AllFrames, t.out) == FramesOf(hs) && t.foldBuf == [])
  {
    hide OnCalls, HeardOf, WalkOk, Announce, Reports, Open, Written, Lost, Range, LowSof;
    var s := Announce(o, Fresh(limit));
    var t, hs := OnCalls(o, s, cs), HeardOf(o, s, cs);
    FoldedOutputIsExact(o, limit, cs);
    if o.speed == 1 || o.speed == 2 {
      AllFold(o, hs);
      TellsNone(o, t.out, hs);
    }
    if o.speed == 0 || o.speed == 3 {
      NoneFolds(o, hs);
      TellsEach(o, t.out, hs, |hs|);
      assert hs[..|hs|] == hs;
    }
  }

  // ---- How they are counted ----

  /** A status frame that says low speed, and n start-of-frames. */
  function Sofs(tick: nat, n: nat): seq<Sent>
    decreases n
  {
    if n == 0 then [] else [Sof(tick)] + Sofs(tick + MICROFRAME, n - 1)
  }

  function LowSession(n: nat): seq<Sent> { [StatusFrame(0, 0, true, false, 0)] + Sofs(0, n) }

  /** Counted or held back, after n more. */
  function After(c: nat, n: nat, cap: nat): nat
    decreases n
  {
    if n == 0 then c else After(if c == cap then 1 else c + 1, n - 1, cap)
  }

  lemma {:induction false} AfterIs(c: nat, n: nat, cap: nat)
    requires 0 < c <= cap
    ensures After(c, n, cap) == 1 + (c - 1 + n) % cap
    decreases n
  {
    if n == 0 {
      SmallModulo(c - 1, cap);
    } else if c == cap {
      AfterIs(1, n - 1, cap);
      WrapModulo(n - 1, cap);
    } else {
      AfterIs(c + 1, n - 1, cap);
    }
  }

  lemma SmallModulo(a: nat, cap: nat)
    requires a < cap
    ensures a % cap == a
  {
  }

  lemma WrapModulo(a: nat, cap: nat)
    requires cap > 0
    ensures (cap + a) % cap == a % cap
  {
    var q, m := a / cap, a % cap;
    assert a == cap * q + m && cap + a == cap * (q + 1) + m;
    Remainder(cap, q + 1, m);
  }

  /** The one that meets the limit: the summary is written and the count starts again. */
  lemma LimitFlushes(o: Opts, s: State)
    requires SoundFrame(o, s) && s.w.data[0] == PID_SOF && SofsFold(o, s.w.speedIn)
    requires s.foldBuf != [] && s.foldCount + 1 == Cap(o, s)
    ensures var t := DataEvent(o, s); t.foldCount == 0 && |t.foldBuf| == 1 && Info(s.w.ts, Folded(Cap(o, s))) in t.out
  {
    hide DataPrelude, Payload, Flagged, WriteAllFolded, LineStateEvent;
    PreludeStays(o, s);
    var p := DataPrelude(o, s);
    var q := p.(foldCount := p.foldCount + 1, foldBuf := []);
    SameCap(o, s, q);
    FlushSays(o, q);
    StopEmpties(o, q);
    var u := FoldOrWrite(o, p);
    assert CheckCaptureLimit(o, u) == u.(limit := u.limit - 1);
  }

  lemma StopEmpties(o: Opts, s: State)
    requires s.foldBuf == [] && s.foldCount > 0
    ensures StopFolding(o, s).foldBuf == [] && StopFolding(o, s).foldCount == 0
  {
    hide ToS32, Wrap64, EffectiveSpeed;
  }

  lemma LimitStep(o: Opts, s: State, toggle: nat, prev: nat, tick: nat, speed: nat, c: nat)
    requires Counting(o, s, toggle, prev, speed, c) && toggle < 2 && Close(prev, tick)
    requires SofsFold(o, speed) && c == Cap(o, s)
    ensures Ns(tick) < TWO64
    ensures var t := Feed(o, s, PrintFrame(Sof(tick), toggle, prev));
      Counting(o, t, 1 - toggle, tick, speed, 1) && Info(Ns(tick), Folded(c)) in t.out
  {
    hide Feed, Header, PrintFrame, Epoch, Ns, WalkOk, DataEvent, EffectiveSpeed;
    var f := Sof(tick);
    HeaderPart(o, s, f, toggle, prev, speed, c);
    FrameSplits(o, s, f, toggle, prev);
    FramePassed(o, s, f, toggle, prev, Gate(true, 0));
    var a := Feed(o, s, Header(f, toggle, prev));
    PayloadPart(o, a, f.payload);
    var v := a.(w := Filled(a.w, f.payload).(header := true));
    SameCap(o, s, v);
    LimitFlushes(o, v);
  }

  lemma {:induction false} SofsAreLegal(prev: nat, tick: nat, n: nat)
    requires Close(prev, tick) && Room(tick, n, 0)
    ensures AllLegal(Sofs(tick, n)) && ClockOk(Sofs(tick, n), prev)
    decreases n
  {
    hide Epoch;
    if n > 0 {
      NextClose(tick, MICROFRAME);
      SofsAreLegal(tick, tick + MICROFRAME, n - 1);
    }
  }

  lemma {:induction false} CountRun(o: Opts, s: State, toggle: nat, prev: nat, tick: nat, c: nat, n: nat)
    requires Counting(o, s, toggle, prev, 0, c) && toggle < 2 && (o.speed == 1 || o.speed == 2)
    requires Close(prev, tick) && Room(tick, n, 0)
    ensures AllLegal(Sofs(tick, n))
    ensures var t := Feed(o, s, PrintFrames(Sofs(tick, n), toggle, prev));
      var e := After(c, n, if o.speed == 2 then 8000 else 1000);
      t.foldCount + |t.foldBuf| == e && |t.foldBuf| == if e == 0 then 0 else 1
    decreases n
  {
    hide Feed, PrintFrame, Epoch, Ns, WalkOk, Room, Between;
    SofsAreLegal(prev, tick, n);
    BetweenOk(s.w, toggle, prev);
    if n > 0 {
      var cap := if o.speed == 2 then 8000 else 1000;
      var p, rest := PrintFrame(Sof(tick), toggle, prev), PrintFrames(Sofs(tick + MICROFRAME, n - 1), 1 - toggle, tick);
      RoomSoon(tick, n);
      assert Cap(o, s) == cap;
      if c == cap {
        LimitStep(o, s, toggle, prev, tick, 0, c);
      } else {
        SofStep(o, s, toggle, prev, tick, 0, c);
      }
      CountRun(o, Feed(o, s, p), 1 - toggle, tick, tick + MICROFRAME, if c == cap then 1 else c + 1, n - 1);
      EndToEnd.FeedConcat(o, s, p, rest);
    } else {
      FeedNothing(o, s);
    }
  }

  lemma BetweenOk(w: Walk, toggle: nat, prev: nat)
    requires Between(w, toggle, prev, Gate(true, 0))
    ensures WalkOk(w)
  {
  }

  lemma FeedNothing(o: Opts, s: State)
    requires WalkOk(s.w)
    ensures Feed(o, s, []) == s
  {
  }

  lemma RoomSoon(tick: nat, n: nat)
    requires Room(tick, n, 0) && n > 0
    ensures Close(tick, tick + MICROFRAME) && Room(tick + MICROFRAME, n - 1, 0)
  {
    hide Epoch;
    NextClose(tick, MICROFRAME);
  }

  /**
   A legal capture whose bus reports low speed while full or high speed is selected: of n
   start-of-frames the last is held back and the others are counted, modulo 1000 or 8000.
   */
  lemma SelectedSpeedCounts(o: Opts, limit: int, n: nat)
    requires o.foldEmpty && o.trigger.Disabled? && limit <= 0 && (o.speed == 1 || o.speed == 2)
    requires n > 0 && Room(0, n, 0)
    ensures var s, fs := Announce(o, Fresh(limit)), LowSession(n);
      && AllLegal(fs) && ClockOk(fs, 0) && WalkOk(s.w)
      && var t := Feed(o, s, PrintFrames(fs, 0, 0));
         |t.foldBuf| == 1 && t.foldCount == (n - 1) % (if o.speed == 2 then 8000 else 1000)
  {
    hide Feed, PrintFrame, Epoch, Ns, WalkOk, Room, Announce, Sofs, After;
    var s, f := Announce(o, Fresh(limit)), StatusFrame(0, 0, true, false, 0);
    var cap := if o.speed == 2 then 8000 else 1000;
    FirstClose(n, 0);
    SofsAreLegal(0, 0, n);
    AnnouncedCounts(o, limit);
    BusStep(o, s, 0, 0, f, Gate(true, -1));
    FramePassed(o, s, f, 0, 0, Gate(true, -1));
    var p, rest := PrintFrame(f, 0, 0), PrintFrames(Sofs(0, n), 1, 0);
    CountRun(o, Feed(o, s, p), 1, 0, 0, 0, n);
    FirstOne(n, cap);
    EndToEnd.FeedConcat(o, s, p, rest);
    assert LowSession(n)[1..] == Sofs(0, n);
  }

  lemma FirstOne(n: nat, cap: nat)
    requires n > 0 && cap > 0
    ensures After(0, n, cap) == 1 + (n - 1) % cap
  {
    AfterIs(1, n - 1, cap);
  }
}
