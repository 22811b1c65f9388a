/** Hostile bytes or not, every frame that reaches the pcapng printer fits its block buffer. */
module FrameBounds {
  import opened Bytes
  import opened PacketModel
  import opened Walker
  import opened FoldLaws
  import opened PacketCalls
  import PcapngFormat

  const MAX_PAYLOAD: int := 1273

  predicate Bounded(d: seq<byte>) { 0 < |d| <= MAX_PAYLOAD }

  predicate AllBounded(ds: seq<seq<byte>>) { forall d :: d in ds ==> Bounded(d) }

  lemma OneByteBounded(trigger: Trigger, w: Walk, b: byte)
    requires WalkOk(w)
    ensures AllBounded(Loads(WalkSm(trigger, w, b).1))
  {
    hide WalkHeader;
    var v, rs := Store(w, b), WalkSm(trigger, w, b).1;
    if v.ptr >= v.size && v.header {
      NotesHaveNoLoads(trigger, v);
    } else if v.ptr >= v.size && v.enabled {
      assert rs[..0] == [];
      assert Loads(rs) == [Payload(v)];
    }
  }

  lemma {:induction false} NoFramesNoLoads(rs: seq<Record>)
    requires forall r :: r in rs ==> r.Info?
    ensures Loads(rs) == []
  {
    if rs != [] {
      assert rs[|rs| - 1] in rs;
      NoFramesNoLoads(rs[..|rs| - 1]);
    }
  }

  lemma NotesHaveNoLoads(trigger: Trigger, w: Walk)
    requires |w.data| == DATA_BUF_SIZE && w.size <= DATA_BUF_SIZE && w.header
    ensures Loads(WalkHeader(trigger, w).1) == []
  {
    hide Tick, FrameSize, Flag, BusStatus, StartPayload;
    TickKeeps(if BadHeader(w) then Resync(w) else w);
    NoFramesNoLoads(WalkHeader(trigger, w).1);
  }

  lemma {:induction false} WalkBounded(trigger: Trigger, w: Walk, bytes: seq<byte>)
    requires WalkOk(w)
    ensures AllBounded(Loads(WalkAll(trigger, w, bytes).1))
    decreases |bytes|
  {
    hide WalkSm, WalkOk;
    if bytes != [] {
      WalkStaysOk(trigger, w, bytes[0]);
      var (v, rs) := WalkSm(trigger, w, bytes[0]);
      OneByteBounded(trigger, w, bytes[0]);
      WalkBounded(trigger, v, bytes[1..]);
      LoadsConcat(rs, WalkAll(trigger, v, bytes[1..]).1);
    }
  }

  lemma {:induction false} SubMembers(a: seq<seq<byte>>, b: seq<seq<byte>>)
    requires Sub(a, b) && AllBounded(b)
    ensures AllBounded(a)
    decreases |b|
  {
    if a != [] && b != [] {
      var m, n := |a| - 1, |b| - 1;
      if a[m] == b[n] && Sub(a[..m], b[..n]) {
        SubMembers(a[..m], b[..n]);
        assert a == a[..m] + [a[m]];
      } else {
        SubMembers(a, b[..n]);
      }
    }
  }

  lemma {:induction false} FramesAreLoads(rs: seq<Record>, r: Record)
    requires r in rs && r.Frame?
    ensures r.data in Loads(rs)
  {
    var n := |rs| - 1;
    if r != rs[n] {
      assert rs == rs[..n] + [rs[n]];
      FramesAreLoads(rs[..n], r);
    }
  }

  lemma ShownStaysBounded(o: Opts, s: State, bytes: seq<byte>)
    requires WalkOk(s.w) && FoldOk(o, s) && AllBounded(Shown(s))
    ensures FoldOk(o, Feed(o, s, bytes)) && AllBounded(Shown(Feed(o, s, bytes)))
  {
    hide Feed, WalkOk, FoldShape, Sub, Adds, Loads;
    var t, b := Feed(o, s, bytes), bytes[..Consumed(o, s, bytes)];
    FeedFollowsWalker(o, s, bytes);
    var rs := WalkAll(o.trigger, s.w, b).1;
    WalkBounded(o.trigger, s.w, b);
    SubRefl(Shown(s));
    assert Sub(Shown(t), Shown(s) + Loads(rs));
    SubMembers(Shown(t), Shown(s) + Loads(rs));
  }

  lemma ShownFits(s: State, r: Record)
    requires AllBounded(Shown(s)) && r in s.out && r.Frame?
    ensures Bounded(r.data) && PcapngFormat.Fits(PcapngFormat.UsbFrame(r.ts, r.data))
  {
    hide Loads;
    FramesAreLoads(s.out, r);
    assert r.data in Shown(s);
  }

  /**
   Whatever the bytes and the options, each frame written from a fresh capture makes a block of at
   most 4096 octets.
   */
  lemma EveryFrameFits(o: Opts, s: State, bytes: seq<byte>, r: Record)
    requires WalkOk(s.w) && FoldOk(o, s) && AllBounded(Shown(s))
    requires r in Feed(o, s, bytes).out && r.Frame?
    ensures Bounded(r.data) && PcapngFormat.Fits(PcapngFormat.UsbFrame(r.ts, r.data))
  {
    hide Feed, WalkOk, FoldShape;
    ShownStaysBounded(o, s, bytes);
    ShownFits(Feed(o, s, bytes), r);
  }

  lemma SpeechStaysBounded(o: Opts, s: State, note: Note)
    requires FoldOk(o, s) && AllBounded(Shown(s))
    ensures FoldOk(o, Now(o, s, note)) && AllBounded(Shown(Now(o, s, note)))
  {
    hide CaptureInfo, Loads, Adds, Carries;
    NoteEffect(o, s, note);
    InfoKeeps(o, s, s.w.ts, note);
  }

  lemma {:induction false} CallsStayBounded(o: Opts, s: State, cs: seq<Call>)
    requires WalkOk(s.w) && FoldOk(o, s) && AllBounded(Shown(s))
    ensures FoldOk(o, OnCalls(o, s, cs)) && AllBounded(Shown(OnCalls(o, s, cs)))
    decreases |cs|
  {
    hide WalkOk, FoldShape, Shown, Feed, Now, AllBounded;
    if cs != [] {
      match cs[0] {
        case FeedBytes(d) => ShownStaysBounded(o, s, d);
        case LinkLost => SpeechStaysBounded(o, s, LinkLoss);
        case Say(text) => SpeechStaysBounded(o, s, Message(text));
      }
      CallsStayBounded(o, OnCall(o, s, cs[0]), cs[1..]);
    }
  }

  /** The same over a whole session with losses and messages in it. */
  lemma EverySessionFrameFits(o: Opts, s: State, cs: seq<Call>, r: Record)
    requires WalkOk(s.w) && FoldOk(o, s) && AllBounded(Shown(s))
    requires r in OnCalls(o, s, cs).out && r.Frame?
    ensures Bounded(r.data) && PcapngFormat.Fits(PcapngFormat.UsbFrame(r.ts, r.data))
  {
    hide OnCalls, WalkOk, FoldShape;
    CallsStayBounded(o, s, cs);
    ShownFits(OnCalls(o, s, cs), r);
  }
}
