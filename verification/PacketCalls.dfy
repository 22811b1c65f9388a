/**
 The life of a packet object between two announcements: pieces of the capture stream, loss
 reports between them, and messages of the session. The global laws hold across all calls.
 */
module PacketCalls {
  import opened Bytes
  import opened PacketModel
  import opened Walker
  import opened FoldLaws
  import opened FoldCount
  import opened TimeLaws

  /** packet_feed, packet_rsync, and packet_info or packet_stop_info. */
  datatype Call = FeedBytes(data: seq<byte>) | LinkLost | Say(text: string)

  function OnCall(o: Opts, s: State, c: Call): (t: State)
    requires WalkOk(s.w)
    ensures WalkOk(t.w)
  {
    match c
    case FeedBytes(d) => Feed(o, s, d)
    case LinkLost => Now(o, s, LinkLoss)
    case Say(text) => Now(o, s, Message(text))
  }

  function OnCalls(o: Opts, s: State, cs: seq<Call>): (t: State)
    requires WalkOk(s.w)
    ensures WalkOk(t.w)
    decreases |cs|
  {
    if cs == [] then s else OnCalls(o, OnCall(o, s, cs[0]), cs[1..])
  }

  // ---- Time ----

  /** No piece turns the decoded clock back. */
  predicate ClocksRun(o: Opts, s: State, cs: seq<Call>)
    requires WalkOk(s.w)
    decreases |cs|
  {
    cs == [] ||
    ((cs[0].FeedBytes? ==> ClockRuns(o.trigger, s.w, cs[0].data)) && ClocksRun(o, OnCall(o, s, cs[0]), cs[1..]))
  }

  lemma {:induction false} CallsOnTime(o: Opts, s: State, cs: seq<Call>)
    requires WalkOk(s.w) && OnTime(s) && ClocksRun(o, s, cs)
    ensures OnTime(OnCalls(o, s, cs))
    decreases |cs|
  {
    hide OnTime, Ordered, WalkOk, ClockRuns, Feed, Now;
    if cs != [] {
      match cs[0] {
        case FeedBytes(d) => FeedOnTime(o, s, d);
        case LinkLost => SpeakOnTime(o, s, LinkLoss);
        case Say(text) => SpeakOnTime(o, s, Message(text));
      }
      CallsOnTime(o, OnCall(o, s, cs[0]), cs[1..]);
    }
  }

  lemma SpeakOnTime(o: Opts, s: State, note: Note)
    requires OnTime(s)
    ensures OnTime(Now(o, s, note))
  {
    hide Ordered, Now;
    NowOnTime(o, s, note);
  }

  /**
   From the announcement of a fresh capture on all records are in time order, loss reports and
   messages among them.
   */
  lemma SessionOutputIsMonotone(o: Opts, limit: int, cs: seq<Call>)
    requires ClocksRun(o, Announce(o, Fresh(limit)), cs)
    ensures Ordered(OnCalls(o, Announce(o, Fresh(limit)), cs).out)
  {
    CallsOnTime(o, Announce(o, Fresh(limit)), cs);
  }

  // ---- Folding ----

  /** What the calls mean to the reference walker. */
  function WalkCalls(trigger: Trigger, w: Walk, cs: seq<Call>): (r: (Walk, seq<Record>))
    requires WalkOk(w)
    ensures WalkOk(r.0)
    decreases |cs|
  {
    if cs == [] then (w, [])
    else
      var (v, rs) := match cs[0]
        case FeedBytes(d) => WalkAll(trigger, w, d)
        case LinkLost => (w, [Info(w.ts, LinkLoss)])
        case Say(text) => (w, [Info(w.ts, Message(text))]);
      var (u, more) := WalkCalls(trigger, v, cs[1..]);
      (u, rs + more)
  }

  lemma CallFollowsWalker(o: Opts, s: State, c: Call)
    requires WalkOk(s.w) && FoldOk(o, s) && s.limit <= 0 && !s.done
    ensures var t, (w, rs) := OnCall(o, s, c), WalkCalls(o.trigger, s.w, [c]);
      t.w == w && Effect(o, s, t, rs) && t.limit <= 0 && !t.done
  {
    hide Effect, FoldShape, WalkOk, WalkAll, Now, InView;
    assert [c][1..] == [];
    match c {
      case FeedBytes(d) =>
        UnlimitedConsumesAll(o, s, d);
        UnlimitedFeed(o, s, d);
        assert d[..|d|] == d;
        FeedFollowsWalker(o, s, d);
        var rs := WalkAll(o.trigger, s.w, d).1;
        assert rs + NOTHING == rs;
      case LinkLost => SpeakEffect(o, s, LinkLoss);
      case Say(text) => SpeakEffect(o, s, Message(text));
    }
  }

  lemma SpeakEffect(o: Opts, s: State, note: Note)
    requires FoldOk(o, s) && (note.LinkLoss? || note.Message?)
    ensures var t := Now(o, s, note);
      t.w == s.w && t.limit == s.limit && t.done == s.done && Effect(o, s, t, [Info(s.w.ts, note)] + NOTHING)
  {
    hide Effect, FoldShape;
    NoteEffect(o, s, note);
    assert [Info(s.w.ts, note)] + NOTHING == [Info(s.w.ts, note)];
  }

  lemma {:induction false} UnlimitedFeed(o: Opts, s: State, bytes: seq<byte>)
    requires WalkOk(s.w) && s.limit <= 0 && !s.done
    ensures Feed(o, s, bytes).limit <= 0
    decreases |bytes|
  {
    hide CaptureSm, WalkOk;
    if bytes != [] {
      SameWalk(o, s, bytes[0]);
      UnlimitedByte(o, s, bytes[0]);
      UnlimitedFeed(o, CaptureSm(o, s, bytes[0]), bytes[1..]);
    }
  }

  lemma WalkCallsCons(trigger: Trigger, w: Walk, c: Call, cs: seq<Call>)
    requires WalkOk(w)
    ensures var (v, rs) := WalkCalls(trigger, w, [c]);
      var (u, more) := WalkCalls(trigger, v, cs);
      WalkCalls(trigger, w, [c] + cs) == (u, rs + more)
  {
    hide WalkOk, WalkAll;
    assert [c][1..] == [] && ([c] + cs)[1..] == cs && ([c] + cs)[0] == c;
    var rs := match c
      case FeedBytes(d) => WalkAll(trigger, w, d).1
      case LinkLost => [Info(w.ts, LinkLoss)]
      case Say(text) => [Info(w.ts, Message(text))];
    assert rs + NOTHING == rs;
  }

  lemma {:induction false} CallsFollowWalker(o: Opts, s: State, cs: seq<Call>)
    requires WalkOk(s.w) && FoldOk(o, s) && s.limit <= 0 && !s.done
    ensures var t, (w, rs) := OnCalls(o, s, cs), WalkCalls(o.trigger, s.w, cs);
      t.w == w && Effect(o, s, t, rs)
    decreases |cs|
  {
    hide FoldShape, WalkOk, WalkAll, OnCall, Adds, Carries;
    if cs == [] {
      Quiet(o, s, s);
    } else {
      var t := OnCall(o, s, cs[0]);
      var (v, r1) := WalkCalls(o.trigger, s.w, [cs[0]]);
      CallFollowsWalker(o, s, cs[0]);
      CallsFollowWalker(o, t, cs[1..]);
      assert cs == [cs[0]] + cs[1..];
      WalkCallsCons(o.trigger, s.w, cs[0], cs[1..]);
      EffectTrans(o, s, t, OnCalls(o, s, cs), r1, WalkCalls(o.trigger, v, cs[1..]).1);
    }
  }

  /**
   Folding is output-only over a whole session with losses and messages in it: equal walker
   states, identical diagnostics, loss reports, messages and solid frames with their times,
   and the folded payloads a subsequence of the others.
   */
  lemma SessionFoldingIsOutputOnly(o: Opts, s: State, cs: seq<Call>)
    requires WalkOk(s.w) && s.foldBuf == [] && s.foldCount == 0 && s.limit <= 0 && !s.done
    ensures
      var folded, plain := OnCalls(o.(foldEmpty := true), s, cs), OnCalls(o.(foldEmpty := false), s, cs);
      && folded.w == plain.w
      && Select(Diagnostics, folded.out) == Select(Diagnostics, plain.out)
      && Select(SolidFrames, folded.out) == Select(SolidFrames, plain.out)
      && Sub(Shown(folded), Loads(plain.out))
  {
    hide OnCalls, WalkOk, FoldShape, Effect;
    var o1, o0 := o.(foldEmpty := true), o.(foldEmpty := false);
    EmptyFolds(o1, s);
    EmptyFolds(o0, s);
    CallsFollowWalker(o1, s, cs);
    CallsFollowWalker(o0, s, cs);
    TwoViews(o1, o0, s, OnCalls(o1, s, cs), OnCalls(o0, s, cs), WalkCalls(o.trigger, s.w, cs).1);
  }

  lemma EmptyFolds(o: Opts, s: State)
    requires s.foldBuf == [] && s.foldCount == 0
    ensures FoldOk(o, s)
  {
  }

  // ---- Conservation ----

  /** SOF frames received while enabled, piece by piece. */
  function SofsReceived(o: Opts, s: State, cs: seq<Call>): nat
    requires WalkOk(s.w)
    decreases |cs|
  {
    if cs == [] then 0
    else
      (if cs[0].FeedBytes? then Sofs(WalkAll(o.trigger, s.w, cs[0].data[..Consumed(o, s, cs[0].data)]).1) else 0)
      + SofsReceived(o, OnCall(o, s, cs[0]), cs[1..])
  }

  lemma CallMoves(o: Opts, s: State, c: Call)
    requires WalkOk(s.w) && FoldOk(o, s) && s.foldCount >= 0
    ensures var t := OnCall(o, s, c);
      && FoldOk(o, t) && t.foldCount >= 0
      && Due(t) == Due(s) + (if c.FeedBytes?
                             then Sofs(WalkAll(o.trigger, s.w, c.data[..Consumed(o, s, c.data)]).1) else 0)
  {
    hide WalkOk, WalkAll, Now, Feed, FoldShape, Accounted;
    match c {
      case FeedBytes(d) =>
        FoldConservation(o, s, d);
        FeedKeepsFolds(o, s, d);
      case LinkLost => SpeakMoves(o, s, LinkLoss);
      case Say(text) => SpeakMoves(o, s, Message(text));
    }
  }

  lemma FeedKeepsFolds(o: Opts, s: State, d: seq<byte>)
    requires WalkOk(s.w) && FoldOk(o, s)
    ensures FoldOk(o, Feed(o, s, d))
  {
    hide WalkOk, WalkAll, Feed, FoldShape, Adds, Carries;
    FeedFollowsWalker(o, s, d);
  }

  lemma SpeakMoves(o: Opts, s: State, note: Note)
    requires FoldOk(o, s) && s.foldCount >= 0 && (note.LinkLoss? || note.Message?)
    ensures var t := Now(o, s, note); FoldOk(o, t) && t.foldCount >= 0 && Due(t) == Due(s)
  {
    hide Now, FoldShape, Adds, Carries, Due;
    NoteMoves(o, s, note);
    NoteEffect(o, s, note);
  }

  /** Conservation over a whole session: what was received is written, folded away and counted, or still pending. */
  lemma {:induction false} SessionFoldConservation(o: Opts, s: State, cs: seq<Call>)
    requires WalkOk(s.w) && FoldOk(o, s) && s.foldCount >= 0
    ensures var t := OnCalls(o, s, cs);
      && t.foldCount >= 0
      && SofsReceived(o, s, cs) + (t.keepalives - s.keepalives)
         == (Accounted(t.out) + t.foldCount + (if t.foldBuf != [] then 1 else 0))
            - (Accounted(s.out) + s.foldCount + (if s.foldBuf != [] then 1 else 0))
    decreases |cs|
  {
    hide WalkOk, WalkAll, OnCall, FoldShape, Accounted;
    if cs != [] {
      CallMoves(o, s, cs[0]);
      SessionFoldConservation(o, OnCall(o, s, cs[0]), cs[1..]);
    }
  }
}
