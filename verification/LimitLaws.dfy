/** The record limit: as many frames and keep-alives as were asked for, and then the capture is done. */
module LimitLaws {
  import opened Bytes
  import opened PacketModel
  import opened Walker
  import opened FoldLaws
  import opened PacketCalls
  import TimeLaws

  /** A limit is set, and the capture is done exactly when it is used up. */
  predicate Metered(s: State) { s.limit >= 0 && (s.done <==> s.limit == 0) }

  /** From s to t, k frames were taken in; keep-alives are counted by the states themselves. */
  predicate Spends(s: State, t: State, k: int) {
    Metered(t) && s.limit - t.limit == k + t.keepalives - s.keepalives
  }

  lemma LimitSpends(o: Opts, s: State)
    requires Metered(s) && !s.done
    ensures var t := CheckCaptureLimit(o, s);
      Metered(t) && t.limit == s.limit - 1 && t.keepalives == s.keepalives
  {
    hide Now;
  }

  lemma KeepaliveSpends(o: Opts, s: State, ts: u64, delta: int)
    requires Metered(s) && !s.done
    ensures Spends(s, KeepaliveEvent(o, s, ts, delta), 0)
  {
    hide CaptureInfo, Refold, CheckCaptureLimit;
    if s.w.enabled {
      var k := s.(keepalives := s.keepalives + 1);
      LimitSpends(o, if !o.foldEmpty then CaptureInfo(o, k, ts, KeepAlive)
                     else Refold(o, k, FOLD_LIMIT_LS_FS, CaptureFrame(ts, -delta, [])));
    }
  }

  lemma DataSpends(o: Opts, s: State)
    requires Metered(s) && !s.done && 0 < s.w.size <= |s.w.data|
    ensures Spends(s, DataEvent(o, s), if s.w.enabled then 1 else 0)
  {
    hide DataPrelude, FoldOrWrite, CheckCaptureLimit;
    if s.w.enabled { LimitSpends(o, FoldOrWrite(o, DataPrelude(o, s))); }
  }

  lemma LineSpends(o: Opts, s: State, ls: int)
    requires Metered(s) && !s.done
    ensures Spends(s, LineChange(o, s, ls), 0)
  {
    hide KeepaliveEvent, LineStateEvent, EffectiveSpeed, ToS32, Wrap64;
    if s.w.ls != ls {
      var t := s.(w := s.w.(ls := ls), savedLs := LS_INVALID);
      KeepaliveSpends(o, t, s.savedTs, ToS32(Wrap64(s.w.ts - s.savedTs)));
    }
  }

  lemma StatusSpends(o: Opts, s: State, ls: int, vbus: int, level: int, speed: int)
    requires Metered(s) && !s.done
    ensures Spends(s, StatusEvent(o, s, ls, vbus, level, speed), 0)
  {
    hide Now, LineChange, TriggerEnabled;
    LineSpends(o, SpeedChange(o, VbusChange(o, TriggerChange(o, s, level), vbus), speed), ls);
  }

  lemma FrontSpends(o: Opts, s: State)
    requires |s.w.data| == DATA_BUF_SIZE && s.w.size <= DATA_BUF_SIZE
    ensures var c := HeaderFront(o, s); c.limit == s.limit && c.done == s.done && c.keepalives == s.keepalives
  {
    hide Tick, Flag, ToS64, Wrap64, Now;
    SameCheck(o, s, Flag(s.w.data[0], 0x40), Flag(s.w.data[0], 0x20));
  }

  lemma HeaderSpends(o: Opts, s: State)
    requires Metered(s) && !s.done && |s.w.data| == DATA_BUF_SIZE && s.w.size <= DATA_BUF_SIZE
    ensures Spends(s, HeaderDone(o, s), 0)
  {
    hide HeaderFront, FrameSize, Flag, Now, StatusEvent, StartPayload;
    UnlimitedFront(o, s);
    FrontSpends(o, s);
    var c := HeaderFront(o, s);
    var d3 := c.w.data[3];
    StatusSpends(o, c, d3 % 16, Flag(d3, 0x10), Flag(d3, 0x20), d3 / 0x40);
  }

  lemma HeaderShowsNothing(trigger: Trigger, w: Walk)
    requires |w.data| == DATA_BUF_SIZE && w.size <= DATA_BUF_SIZE
    ensures Frames(WalkHeader(trigger, w).1) == 0
  {
    hide Tick, FrameSize, Flag, BusStatus, StartPayload;
    InfosAreNoFrames(WalkHeader(trigger, w).1);
  }

  /** How many of some records are frames. */
  function Frames(rs: seq<Record>): nat {
    if rs == [] then 0 else Frames(rs[..|rs| - 1]) + (if rs[|rs| - 1].Frame? then 1 else 0)
  }

  lemma {:induction false} InfosAreNoFrames(rs: seq<Record>)
    requires forall r :: r in rs ==> r.Info?
    ensures Frames(rs) == 0
  {
    if rs != [] {
      assert rs[|rs| - 1] in rs;
      InfosAreNoFrames(rs[..|rs| - 1]);
    }
  }

  lemma {:induction false} FramesConcat(a: seq<Record>, b: seq<Record>)
    ensures Frames(a + b) == Frames(a) + Frames(b)
  {
    if b == [] {
      assert a + b == a;
    } else {
      var n := |b| - 1;
      assert (a + b)[..|a| + n] == a + b[..n];
      FramesConcat(a, b[..n]);
    }
  }

  lemma ByteSpends(o: Opts, s: State, b: byte)
    requires Metered(s) && !s.done && WalkOk(s.w)
    ensures Spends(s, CaptureSm(o, s, b), Frames(WalkSm(o.trigger, s.w, b).1))
  {
    hide HeaderDone, WalkHeader, DataEvent;
    var t := s.(w := Store(s.w, b));
    if t.w.ptr >= t.w.size {
      if t.w.header {
        HeaderSpends(o, t);
        HeaderShowsNothing(o.trigger, t.w);
      } else {
        DataSpends(o, t.(w := t.w.(header := true)));
        OneFrame(Frame(t.w.ts, Payload(t.w), Flagged(t.w)));
      }
    }
  }

  lemma OneFrame(r: Record)
    requires r.Frame?
    ensures Frames([r]) == 1 && Frames([]) == 0
  {
    assert [r][..0] == [];
  }

  lemma {:induction false} FeedSpends(o: Opts, s: State, bytes: seq<byte>)
    requires Metered(s) && WalkOk(s.w)
    ensures Spends(s, Feed(o, s, bytes), Frames(WalkAll(o.trigger, s.w, bytes[..Consumed(o, s, bytes)]).1))
    decreases |bytes|
  {
    hide CaptureSm, WalkSm, WalkOk;
    if bytes == [] || s.done {
      assert bytes[..0] == [];
    } else {
      var n, t := Consumed(o, s, bytes), CaptureSm(o, s, bytes[0]);
      var (v, r1) := WalkSm(o.trigger, s.w, bytes[0]);
      SameWalk(o, s, bytes[0]);
      ByteSpends(o, s, bytes[0]);
      FeedSpends(o, t, bytes[1..]);
      assert bytes[..n][1..] == bytes[1..][..n - 1] && bytes[..n][0] == bytes[0];
      FramesConcat(r1, WalkAll(o.trigger, v, bytes[1..][..n - 1]).1);
    }
  }

  /** Frames taken in over a session, piece by piece. */
  function FramesTaken(o: Opts, s: State, cs: seq<Call>): nat
    requires WalkOk(s.w)
    decreases |cs|
  {
    if cs == [] then 0
    else
      (if cs[0].FeedBytes? then Frames(WalkAll(o.trigger, s.w, cs[0].data[..Consumed(o, s, cs[0].data)]).1) else 0)
      + FramesTaken(o, OnCall(o, s, cs[0]), cs[1..])
  }

  lemma {:induction false} CallsSpend(o: Opts, s: State, cs: seq<Call>)
    requires Metered(s) && WalkOk(s.w)
    ensures Spends(s, OnCalls(o, s, cs), FramesTaken(o, s, cs))
    decreases |cs|
  {
    hide Feed, WalkAll, WalkOk, Now;
    if cs != [] {
      if cs[0].FeedBytes? { FeedSpends(o, s, cs[0].data); }
      CallsSpend(o, OnCall(o, s, cs[0]), cs[1..]);
    }
  }

  /**
   With a limit of n, a session takes in at most n frames and keep-alives, whatever the
   bytes, the losses and the folding, and is done exactly when it has taken in n.
   */
  lemma LimitIsExact(o: Opts, n: int, cs: seq<Call>)
    requires n > 0
    ensures var s := TimeLaws.Announce(o, Fresh(n));
      WalkOk(s.w)
      && var t := OnCalls(o, s, cs);
         var taken := FramesTaken(o, s, cs) + t.keepalives;
         taken <= n && (t.done <==> taken == n)
  {
    hide Feed, WalkAll, WalkOk, CaptureInfo;
    AnnouncedOk(o, n);
    CallsSpend(o, TimeLaws.Announce(o, Fresh(n)), cs);
  }

  lemma AnnouncedOk(o: Opts, n: int)
    ensures var s := TimeLaws.Announce(o, Fresh(n)); WalkOk(s.w) && s.limit == n && !s.done && s.keepalives == 0
  {
  }
}
