/**
 The packet layer follows the rule of FoldExact: with folding on, whatever the bytes, the
 frames and keep-alives in its output are those not lost, in order, with these times.
 */
module FoldOutput {
  import opened Bytes
  import opened PacketModel
  import opened Walker
  import opened FoldLaws
  import opened FoldExact
  import opened PacketCalls
  import opened TimeLaws

  // ---- What the output tells ----

  function LastTs(rs: seq<Record>): u64 { if rs == [] then 0 else rs[|rs| - 1].ts }

  /** What was held back is stamped with its own time, or with that of the record in front of it if this is later. */
  function When(o: Opts, hs: seq<Heard>, i: nat, last: u64): u64
    requires i < |hs|
  {
    if Open(o, hs[..i + 1]) > 0 then Max(hs[i].ts, last) else hs[i].ts
  }

  predicate Shows(r: Record) { r.Frame? || r.note.KeepAlive? }

  predicate Says(r: Record, h: Heard)
    requires Shows(r)
  {
    match r
    case Frame(_, data, flagged) => h.Got? && data == h.data && flagged == h.flagged
    case Info(_, _) => h.Alive?
  }

  /** The frames and keep-alives among some records are those at these places, at these times. */
  predicate Reports(o: Opts, rs: seq<Record>, hs: seq<Heard>, at: seq<nat>) {
    if rs == [] then at == []
    else
      var r, front := rs[|rs| - 1], rs[..|rs| - 1];
      if !Shows(r) then Reports(o, front, hs, at)
      else
        && at != []
        && var i := at[|at| - 1];
           i < |hs| && Says(r, hs[i]) && r.ts == When(o, hs, i, LastTs(front)) && Reports(o, front, hs, at[..|at| - 1])
  }

  lemma TellsSnoc(o: Opts, rs: seq<Record>, hs: seq<Heard>, at: seq<nat>, r: Record, i: nat)
    requires Reports(o, rs, hs, at)
    requires Shows(r) && i < |hs| && Says(r, hs[i]) && r.ts == When(o, hs, i, LastTs(rs))
    ensures Reports(o, rs + [r], hs, at + [i])
  {
    hide When, Says;
    assert (rs + [r])[..|rs|] == rs && (at + [i])[..|at|] == at;
  }

  lemma TellsSkip(o: Opts, rs: seq<Record>, hs: seq<Heard>, at: seq<nat>, r: Record)
    requires Reports(o, rs, hs, at) && !Shows(r)
    ensures Reports(o, rs + [r], hs, at)
  {
    hide When, Says;
    assert (rs + [r])[..|rs|] == rs;
  }

  /** What comes later changes nothing that was told. */
  lemma {:induction false} TellsLater(o: Opts, rs: seq<Record>, hs: seq<Heard>, at: seq<nat>, h: Heard)
    requires Reports(o, rs, hs, at)
    ensures Reports(o, rs, hs + [h], at)
  {
    hide Says, Open;
    if rs != [] {
      var r, front := rs[|rs| - 1], rs[..|rs| - 1];
      if Shows(r) {
        var i := at[|at| - 1];
        assert (hs + [h])[..i + 1] == hs[..i + 1];
        TellsLater(o, front, hs, at[..|at| - 1], h);
      } else {
        TellsLater(o, front, hs, at, h);
      }
    }
  }

  predicate Good(o: Opts, s: State, hs: seq<Heard>, at: seq<nat>) {
    s.lastTs == LastTs(s.out) && Reports(o, s.out, hs, at)
  }

  /** The step tells nothing new and leaves the batch alone. */
  predicate Still(o: Opts, s: State, t: State, hs: seq<Heard>, at: seq<nat>) {
    && t.foldBuf == s.foldBuf && t.savedTs == s.savedTs && t.keepalives == s.keepalives
    && (s.savedLs == LS_INVALID ==> t.savedLs == LS_INVALID)
    && (Good(o, s, hs, at) ==> Good(o, t, hs, at))
  }

  lemma EmitStill(o: Opts, s: State, r: Record, hs: seq<Heard>, at: seq<nat>)
    requires !Shows(r)
    ensures Still(o, s, Emit(s, r), hs, at)
  {
    if Good(o, s, hs, at) { TellsSkip(o, s.out, hs, at, r); }
    hide Reports;
  }

  lemma LineStateStill(o: Opts, s: State, hs: seq<Heard>, at: seq<nat>)
    ensures var t := LineStateEvent(o, s); Still(o, s, t, hs, at) && t.savedLs == LS_INVALID
  {
    hide ToS32, Wrap64, EffectiveSpeed, Reports, Emit;
    var delta := ToS32(Wrap64(s.w.ts - s.savedTs));
    var r := Info(s.savedTs, LineState(s.savedLs, delta, EffectiveSpeed(o, s.w) == SPEED_LS));
    EmitStill(o, s.(savedLs := LS_INVALID), r, hs, at);
    EmitKeeps(s.(savedLs := LS_INVALID), r);
  }

  lemma EmitKeeps(s: State, r: Record)
    ensures var t := Emit(s, r); t.savedLs == s.savedLs && t.foldCount == s.foldCount
  {
  }

  lemma InfoStill(o: Opts, s: State, ts: u64, note: Note, hs: seq<Heard>, at: seq<nat>)
    requires !note.KeepAlive?
    ensures var t := CaptureInfo(o, s, ts, note); Still(o, s, t, hs, at) && t.savedLs == LS_INVALID
  {
    hide LineStateEvent, Good, Emit;
    LineStateStill(o, s, hs, at);
    EmitStill(o, LineStateEvent(o, s), Info(ts, note), hs, at);
    EmitKeeps(LineStateEvent(o, s), Info(ts, note));
  }

  lemma NowStill(o: Opts, s: State, note: Note, hs: seq<Heard>, at: seq<nat>)
    requires !note.KeepAlive?
    ensures var t := Now(o, s, note); Still(o, s, t, hs, at) && t.savedLs == LS_INVALID
  {
    hide CaptureInfo, Good;
    InfoStill(o, s, s.w.ts, note, hs, at);
  }

  // ---- Writing a batch ----

  predicate Holds(f: CaptureFrame, h: Heard) {
    f.ts == h.ts && match h case Got(_, data, flagged, _, _) => f.size >= 0 && f.data == data && !flagged
                            case Alive(_) => f.size < 0
  }

  /** The buffer holds what was heard from place a on. */
  predicate Buffered(o: Opts, fs: seq<CaptureFrame>, hs: seq<Heard>, a: nat) {
    a + |fs| <= |hs| && forall k :: 0 <= k < |fs| ==> InBatch(o, fs[k], hs, a + k)
  }

  predicate InBatch(o: Opts, f: CaptureFrame, hs: seq<Heard>, i: nat) {
    i < |hs| && Holds(f, hs[i]) && Open(o, hs[..i + 1]) > 0
  }

  lemma OneFolded(o: Opts, s: State, f: CaptureFrame, hs: seq<Heard>, at: seq<nat>, i: nat)
    requires Good(o, s, hs, at) && s.savedLs == LS_INVALID && InBatch(o, f, hs, i)
    ensures var t := WriteFolded(o, s, f); Good(o, t, hs, at + [i]) && t.savedLs == LS_INVALID
  {
    hide Reports, Open;
    var ts := Max(f.ts, s.lastTs);
    var r := if f.size < 0 then Info(ts, KeepAlive) else Frame(ts, f.data, false);
    assert WriteFolded(o, s, f) == Emit(s, r);
    TellsSnoc(o, s.out, hs, at, r, i);
  }

  lemma {:induction false} FlushTells(o: Opts, s: State, fs: seq<CaptureFrame>, hs: seq<Heard>, at: seq<nat>, a: nat)
    requires Good(o, s, hs, at) && s.savedLs == LS_INVALID && Buffered(o, fs, hs, a)
    ensures var t := WriteAllFolded(o, s, fs);
      Good(o, t, hs, at + Range(a, a + |fs|)) && t.savedLs == LS_INVALID
    decreases |fs|
  {
    hide Good, Holds, Open, WriteFolded, InBatch;
    if fs == [] {
      assert at + Range(a, a) == at;
    } else {
      var n := |fs| - 1;
      FlushTells(o, s, fs[..n], hs, at, a);
      OneFolded(o, WriteAllFolded(o, s, fs[..n]), fs[n], hs, at + Range(a, a + n), a + n);
      assert at + Range(a, a + |fs|) == at + Range(a, a + n) + [a + n];
    }
  }

  lemma {:induction false} FlushBuf(o: Opts, s: State, fs: seq<CaptureFrame>)
    ensures var t := WriteAllFolded(o, s, fs);
      t.foldBuf == s.foldBuf && t.savedTs == s.savedTs && t.w == s.w && t.keepalives == s.keepalives
    decreases |fs|
  {
    hide ToS32, Wrap64, EffectiveSpeed;
    if fs != [] { FlushBuf(o, s, fs[..|fs| - 1]); }
  }

  lemma StopTells(o: Opts, s: State, hs: seq<Heard>, at: seq<nat>, a: nat)
    requires Good(o, s, hs, at) && s.savedLs == LS_INVALID && Buffered(o, s.foldBuf, hs, a)
    ensures var t := StopFolding(o, s);
      && Good(o, t, hs, at + Range(a, a + |s.foldBuf|)) && t.savedLs == LS_INVALID && t.foldBuf == []
      && t.savedTs == s.savedTs
  {
    hide Holds, Open, WriteAllFolded, CaptureInfo, Reports;
    if s.foldCount == 0 && s.foldBuf == [] {
      assert at + Range(a, a) == at;
    } else {
      var u := s.(foldCount := 0, foldBuf := []);
      FlushTells(o, u, s.foldBuf, hs, at, a);
      FlushBuf(o, u, s.foldBuf);
      NowStill(o, WriteAllFolded(o, u, s.foldBuf), Folded(s.foldCount), hs, at + Range(a, a + |s.foldBuf|));
    }
  }

  lemma RefoldTells(o: Opts, s: State, limit: int, f: CaptureFrame, hs: seq<Heard>, at: seq<nat>)
    requires Good(o, s, hs, at) && s.savedLs == LS_INVALID
    ensures var t := Refold(o, s, limit, f);
      Good(o, t, hs, at) && t.savedLs == LS_INVALID && t.foldBuf == [f]
  {
    hide StopFolding, Reports;
    if s.foldBuf != [] {
      var t := s.(foldCount := s.foldCount + 1, foldBuf := []);
      StopTells(o, t, hs, at, 0);
      assert at + Range(0, 0) == at;
    }
  }

  lemma LimitStill(o: Opts, s: State, hs: seq<Heard>, at: seq<nat>)
    ensures Still(o, s, CheckCaptureLimit(o, s), hs, at)
  {
    hide Now, Reports;
    NowStill(o, s.(limit := s.limit - 1), LimitReached, hs, at);
  }

  // ---- The state against what was heard ----

  /** The output is what the rule says, and the buffer is the open batch. */
  predicate Exact(o: Opts, s: State, hs: seq<Heard>) {
    && Good(o, s, hs, Written(o, hs)) && |s.foldBuf| == Open(o, hs) <= |hs|
    && forall k :: 0 <= k < |s.foldBuf| ==> Holds(s.foldBuf[k], hs[|hs| - |s.foldBuf| + k])
  }

  lemma {:induction false} OpenInside(o: Opts, hs: seq<Heard>, i: nat)
    requires |hs| - Open(o, hs) <= i < |hs|
    ensures Open(o, hs[..i + 1]) > 0
  {
    hide Starts, Joins;
    var m := |hs| - 1;
    if i < m {
      OpenInside(o, hs[..m], i);
      assert hs[..m][..i + 1] == hs[..i + 1];
    } else {
      assert hs[..i + 1] == hs;
    }
  }

  lemma ExactBuffered(o: Opts, s: State, hs: seq<Heard>)
    requires Exact(o, s, hs)
    ensures Buffered(o, s.foldBuf, hs, |hs| - |s.foldBuf|)
  {
    hide Holds, Open, Good, Written;
    var a := |hs| - |s.foldBuf|;
    forall k | 0 <= k < |s.foldBuf| ensures InBatch(o, s.foldBuf[k], hs, a + k) {
      OpenInside(o, hs, a + k);
    }
  }

  lemma StillExact(o: Opts, s: State, t: State, hs: seq<Heard>)
    requires Exact(o, s, hs) && Still(o, s, t, hs, Written(o, hs))
    ensures Exact(o, t, hs)
  {
    hide Good, Written, Open, Holds;
  }

  /** One more heard: the batch and what is written, by the rule. */
  lemma ExactNext(o: Opts, t: State, hs: seq<Heard>, h: Heard, at: seq<nat>)
    requires Good(o, t, hs + [h], at) && at == Written(o, hs + [h])
    requires |t.foldBuf| == Open(o, hs + [h]) <= |hs| + 1
    requires forall k :: 0 <= k < |t.foldBuf| ==> Holds(t.foldBuf[k], (hs + [h])[|hs| + 1 - |t.foldBuf| + k])
    ensures Exact(o, t, hs + [h])
  {
    hide Good, Written, Open, Holds;
  }

  lemma GoodLater(o: Opts, s: State, hs: seq<Heard>, at: seq<nat>, h: Heard)
    requires Good(o, s, hs, at)
    ensures Good(o, s, hs + [h], at)
  {
    TellsLater(o, s.out, hs, at, h);
    hide Reports;
  }

  // ---- A frame ----

  function HeardFrame(s: State): Heard
    requires 0 < s.w.size <= |s.w.data|
  {
    Got(s.w.ts, Payload(s.w), Flagged(s.w), s.w.overflow, s.w.speedIn)
  }

  /** The selected speed counts where the bus reports low speed. */
  lemma SofsFoldAre(o: Opts, w: Walk)
    ensures EffectiveSpeed(o, w) != SPEED_LS <==> SofsFold(o, w.speedIn)
  {
  }

  /** A frame that lost something, or a full buffer, writes the batch first. */
  predicate Flushes(s: State) { s.w.overflow || Flagged(s.w) || |s.foldBuf| == FOLD_BUF_SIZE }

  lemma PreludeTells(o: Opts, s: State, hs: seq<Heard>)
    requires Exact(o, s, hs)
    ensures var p, n := DataPrelude(o, s), |s.foldBuf|;
      && p.foldBuf == (if Flushes(s) then [] else s.foldBuf) && p.savedLs == LS_INVALID
      && Good(o, p, hs, Written(o, hs) + if Flushes(s) then Range(|hs| - n, |hs|) else [])
  {
    hide LineStateEvent, StopFolding, Now, Good, Holds, Open, Written, Flagged;
    var at := Written(o, hs);
    var a := LineStateEvent(o, s);
    LineStateStill(o, s, hs, at);
    StillExact(o, s, a, hs);
    ExactBuffered(o, a, hs);
    var b := if Flushes(s) then StopFolding(o, a) else a;
    var at' := at + if Flushes(s) then Range(|hs| - |s.foldBuf|, |hs|) else [];
    if Flushes(s) { StopTells(o, a, hs, at, |hs| - |s.foldBuf|); } else { assert at' == at; }
    NowStill(o, b, HardwareOverflow, hs, at');
    var c := if b.w.overflow then Now(o, b, HardwareOverflow) else b;
    NowStill(o, c, PhyError, hs, at');
  }

  lemma EmitFrame(o: Opts, s: State, hs: seq<Heard>, at: seq<nat>, h: Heard)
    requires Good(o, s, hs + [h], at) && h.Got? && Open(o, hs + [h]) == 0
    ensures Good(o, Emit(s, Frame(h.ts, h.data, h.flagged)), hs + [h], at + [|hs|])
  {
    hide Reports, Open;
    assert (hs + [h])[..|hs| + 1] == hs + [h];
    TellsSnoc(o, s.out, hs + [h], at, Frame(h.ts, h.data, h.flagged), |hs|);
  }

  /** The rule for one more that was received, by cases. */
  lemma NextStep(o: Opts, hs: seq<Heard>, h: Heard)
    ensures var n := Open(o, hs);
      && n <= |hs| && n <= BATCH
      && if Closes(o, h, n) then Open(o, hs + [h]) == 1 && Written(o, hs + [h]) == Written(o, hs)
         else if Joins(h) && 0 < n < BATCH then Open(o, hs + [h]) == n + 1 && Written(o, hs + [h]) == Written(o, hs)
         else Open(o, hs + [h]) == (if Starts(o, h) then 1 else 0)
              && Written(o, hs + [h])
                 == Written(o, hs) + Range(|hs| - n, |hs|) + (if Starts(o, h) then [] else [|hs|])
  {
    hide Starts, Joins, Closes, Open, Written, Range;
    OpenFits(o, hs);
    assert (hs + [h])[..|hs|] == hs && (hs + [h])[|hs|] == h;
    Step(o, hs + [h]);
  }

  /** A frame that stays in the batch. */
  lemma JoinTells(o: Opts, s: State, p: State, hs: seq<Heard>, h: Heard, f: CaptureFrame)
    requires Exact(o, s, hs) && p.foldBuf == s.foldBuf != [] && |s.foldBuf| < BATCH && Joins(h) && Holds(f, h)
    requires Good(o, p, hs, Written(o, hs))
    ensures Exact(o, p.(foldBuf := p.foldBuf + [f]), hs + [h])
  {
    hide Good, Written, Open, Holds, Starts, Closes;
    NotBoth(o, h);
    CloseStarts(o, h, Open(o, hs));
    NextStep(o, hs, h);
    var t := p.(foldBuf := p.foldBuf + [f]);
    GoodLater(o, p, hs, Written(o, hs), h);
    GoodFields(o, p, t, hs + [h], Written(o, hs));
    ExactNext(o, t, hs, h, Written(o, hs));
  }

  lemma GoodFields(o: Opts, s: State, t: State, hs: seq<Heard>, at: seq<nat>)
    requires Good(o, s, hs, at) && t.out == s.out && t.lastTs == s.lastTs
    ensures Good(o, t, hs, at)
  {
    hide Reports;
  }

  /** A frame or keep-alive that starts a batch; the one before it was dropped, or has been written. */
  lemma StartTells(o: Opts, s: State, p: State, limit: int, hs: seq<Heard>, h: Heard, f: CaptureFrame)
    requires Exact(o, s, hs) && Starts(o, h) && Holds(f, h) && p.savedLs == LS_INVALID
    requires Good(o, p, hs, Written(o, hs) + if Closes(o, h, |s.foldBuf|) then [] else Range(|hs| - |s.foldBuf|, |hs|))
    ensures Exact(o, Refold(o, p, limit, f), hs + [h])
  {
    hide Good, Written, Open, Holds, Starts, Closes, Refold, Range;
    NotBoth(o, h);
    NextStep(o, hs, h);
    var at := Written(o, hs) + if Closes(o, h, |s.foldBuf|) then [] else Range(|hs| - |s.foldBuf|, |hs|);
    Nothing(Written(o, hs));
    Nothing(at);
    RefoldTells(o, p, limit, f, hs, at);
    GoodLater(o, Refold(o, p, limit, f), hs, at, h);
    ExactNext(o, Refold(o, p, limit, f), hs, h, at);
  }

  /** Anything else is written at once, behind the batch. */
  lemma PlainTells(o: Opts, s: State, p: State, hs: seq<Heard>, h: Heard)
    requires Exact(o, s, hs) && h.Got? && !Starts(o, h) && !(Joins(h) && 0 < |s.foldBuf| < BATCH) && p.foldBuf == []
    requires Good(o, p, hs, Written(o, hs) + Range(|hs| - |s.foldBuf|, |hs|))
    ensures Exact(o, Emit(p, Frame(h.ts, h.data, h.flagged)), hs + [h])
  {
    hide Good, Written, Open, Holds, Starts, Joins, Closes, Range, Emit;
    CloseStarts(o, h, |s.foldBuf|);
    NextStep(o, hs, h);
    var at := Written(o, hs) + Range(|hs| - |s.foldBuf|, |hs|);
    var t := Emit(p, Frame(h.ts, h.data, h.flagged));
    GoodLater(o, p, hs, at, h);
    EmitFrame(o, p, hs, at, h);
    EmitBuf(p, Frame(h.ts, h.data, h.flagged));
    ExactNext(o, t, hs, h, at + [|hs|]);
  }

  lemma EmitBuf(s: State, r: Record)
    ensures Emit(s, r).foldBuf == s.foldBuf
  {
  }

  lemma FrameTells(o: Opts, s: State, hs: seq<Heard>)
    requires Exact(o, s, hs) && o.foldEmpty && 0 < s.w.size <= |s.w.data|
    ensures Exact(o, FoldOrWrite(o, DataPrelude(o, s)), hs + [HeardFrame(s)])
  {
    hide Good, Written, Open, Refold, StopFolding, DataPrelude, Exact, EffectiveSpeed, Range, FoldLimit;
    var p, h, w := DataPrelude(o, s), HeardFrame(s), s.w;
    var f := CaptureFrame(w.ts, w.size, Payload(w));
    PreludeTells(o, s, hs);
    SofsFoldAre(o, w);
    ExactBatch(o, s, hs);
    var n, at := |s.foldBuf|, Written(o, hs);
    Nothing(at);
    Single(|hs|);
    if !Flagged(w) && p.foldBuf != [] && (w.data[0] == PID_IN || w.data[0] == PID_NAK) {
      JoinTells(o, s, p, hs, h, f);
    } else if !Flagged(w) && w.data[0] == PID_SOF && EffectiveSpeed(o, w) != SPEED_LS {
      if !Flushes(s) && n == 0 { Single(|hs|); }
      StartTells(o, s, p, FoldLimit(o, w), hs, h, f);
    } else if p.foldBuf == [] {
      PlainTells(o, s, p, hs, h);
    } else {
      StillBuffered(o, s, p, hs);
      StopTells(o, p, hs, at, |hs| - n);
      PlainTells(o, s, StopFolding(o, p), hs, h);
    }
  }

  lemma ExactBatch(o: Opts, s: State, hs: seq<Heard>)
    requires Exact(o, s, hs)
    ensures |s.foldBuf| == Open(o, hs) <= BATCH && |s.foldBuf| <= |hs|
  {
    hide Good;
    OpenFits(o, hs);
  }

  lemma StillBuffered(o: Opts, s: State, p: State, hs: seq<Heard>)
    requires Exact(o, s, hs) && p.foldBuf == s.foldBuf
    ensures Buffered(o, p.foldBuf, hs, |hs| - |p.foldBuf|)
  {
    ExactBuffered(o, s, hs);
    hide InBatch, Good, Holds;
  }

  lemma LimitExact(o: Opts, s: State, hs: seq<Heard>)
    requires Exact(o, s, hs)
    ensures Exact(o, CheckCaptureLimit(o, s), hs)
  {
    hide Exact, Good;
    LimitStill(o, s, hs, Written(o, hs));
    StillExact(o, s, CheckCaptureLimit(o, s), hs);
  }

  lemma DataTells(o: Opts, s: State, hs: seq<Heard>)
    requires Exact(o, s, hs) && o.foldEmpty && 0 < s.w.size <= |s.w.data|
    ensures Exact(o, DataEvent(o, s), hs + if s.w.enabled then [HeardFrame(s)] else [])
  {
    hide Exact, FoldOrWrite, DataPrelude, CheckCaptureLimit;
    if s.w.enabled {
      FrameTells(o, s, hs);
      LimitExact(o, FoldOrWrite(o, DataPrelude(o, s)), hs + [HeardFrame(s)]);
    } else {
      assert hs + [] == hs;
    }
  }

  // ---- A keep-alive ----

  lemma KeepaliveTells(o: Opts, s: State, ts: u64, delta: int, hs: seq<Heard>)
    requires Exact(o, s, hs) && o.foldEmpty && s.savedLs == LS_INVALID && delta > 0
    ensures Exact(o, KeepaliveEvent(o, s, ts, delta), hs + if s.w.enabled then [Alive(ts)] else [])
    ensures KeepaliveEvent(o, s, ts, delta).keepalives == s.keepalives + if s.w.enabled then 1 else 0
  {
    hide Good, Written, Open, Refold, CheckCaptureLimit, Range, Exact;
    if s.w.enabled {
      var k, f := s.(keepalives := s.keepalives + 1), CaptureFrame(ts, -delta, []);
      SameExact(o, s, k, hs);
      ExactBatch(o, s, hs);
      Nothing(Written(o, hs));
      StartTells(o, k, k, FOLD_LIMIT_LS_FS, hs, Alive(ts), f);
      LimitExact(o, Refold(o, k, FOLD_LIMIT_LS_FS, f), hs + [Alive(ts)]);
      LimitCounts(o, Refold(o, k, FOLD_LIMIT_LS_FS, f));
    } else {
      assert hs + [] == hs;
    }
  }

  lemma LimitCounts(o: Opts, s: State)
    ensures CheckCaptureLimit(o, s).keepalives == s.keepalives
  {
    hide Now;
  }

  lemma SameExact(o: Opts, s: State, t: State, hs: seq<Heard>)
    requires Exact(o, s, hs) && t.out == s.out && t.lastTs == s.lastTs && t.foldBuf == s.foldBuf
    ensures Exact(o, t, hs) && Good(o, t, hs, Written(o, hs))
  {
    hide Reports, Written, Open, Holds;
  }

  // ---- Headers ----

  /** A step that tells nothing new, or exactly one keep-alive at the time of the pending line state. */
  predicate Quiet(o: Opts, s: State, t: State, hs: seq<Heard>) {
    Exact(o, t, hs) && t.keepalives == s.keepalives && t.savedTs == s.savedTs
  }

  lemma NowQuiet(o: Opts, s: State, note: Note, hs: seq<Heard>)
    requires Exact(o, s, hs) && !note.KeepAlive?
    ensures Quiet(o, s, Now(o, s, note), hs)
  {
    hide Exact, Good, Now;
    NowStill(o, s, note, hs, Written(o, hs));
    StillExact(o, s, Now(o, s, note), hs);
  }

  lemma LineTells(o: Opts, s: State, ls: int, hs: seq<Heard>)
    requires Exact(o, s, hs) && o.foldEmpty
    ensures var t := LineChange(o, s, ls);
      if t.keepalives > s.keepalives then Exact(o, t, hs + [Alive(s.savedTs)]) else Exact(o, t, hs)
  {
    hide Exact, Good, KeepaliveEvent, LineStateEvent, ToS32, Wrap64, EffectiveSpeed;
    var t := s.(w := s.w.(ls := ls));
    var delta := ToS32(Wrap64(s.w.ts - s.savedTs));
    SameExact(o, s, t, hs);
    SameExact(o, s, t.(savedLs := LS_INVALID), hs);
    if MIN_KEEPALIVE_DURATION < delta {
      KeepaliveTells(o, t.(savedLs := LS_INVALID), s.savedTs, delta, hs);
    }
    assert hs + [] == hs;
    LineStateStill(o, t, hs, Written(o, hs));
    StillExact(o, t, LineStateEvent(o, t), hs);
    SameExact(o, LineStateEvent(o, t), LineStateEvent(o, t).(savedLs := ls, savedTs := s.w.ts), hs);
  }

  lemma TriggerQuiet(o: Opts, s: State, level: int, hs: seq<Heard>)
    requires Exact(o, s, hs)
    ensures Quiet(o, s, TriggerChange(o, s, level), hs)
  {
    hide Exact, Now, TriggerEnabled;
    if s.w.trig != level {
      var a := s.(w := s.w.(enabled := TriggerEnabled(o.trigger, s.w, level), trig := level));
      SameExact(o, s, a, hs);
      NowQuiet(o, a, TriggerInput(level), hs);
      NowQuiet(o, Now(o, a, TriggerInput(level)), StartingCapture, hs);
      NowQuiet(o, Now(o, a, TriggerInput(level)), WaitingForTrigger, hs);
    }
  }

  lemma VbusQuiet(o: Opts, s: State, vbus: int, hs: seq<Heard>)
    requires Exact(o, s, hs)
    ensures Quiet(o, s, VbusChange(o, s, vbus), hs)
  {
    hide Exact, Now;
    var t := s.(w := s.w.(vbus := vbus));
    SameExact(o, s, t, hs);
    NowQuiet(o, t, Vbus(vbus != 0), hs);
  }

  lemma SpeedQuiet(o: Opts, s: State, speed: int, hs: seq<Heard>)
    requires Exact(o, s, hs)
    ensures Quiet(o, s, SpeedChange(o, s, speed), hs)
  {
    hide Exact, Now;
    var t := s.(w := s.w.(speedIn := speed));
    SameExact(o, s, t, hs);
    NowQuiet(o, t, BusReset, hs);
    NowQuiet(o, t, DetectedSpeed(speed), hs);
  }

  lemma StatusTells(o: Opts, s: State, ls: int, vbus: int, level: int, speed: int, hs: seq<Heard>)
    requires Exact(o, s, hs) && o.foldEmpty
    ensures var t := StatusEvent(o, s, ls, vbus, level, speed);
      if t.keepalives > s.keepalives then Exact(o, t, hs + [Alive(s.savedTs)]) else Exact(o, t, hs)
  {
    hide Exact, TriggerChange, VbusChange, SpeedChange, LineChange;
    var a := TriggerChange(o, s, level);
    var b := VbusChange(o, a, vbus);
    TriggerQuiet(o, s, level, hs);
    VbusQuiet(o, a, vbus, hs);
    SpeedQuiet(o, b, speed, hs);
    LineTells(o, SpeedChange(o, b, speed), ls, hs);
  }

  lemma DesyncQuiet(o: Opts, s: State, hs: seq<Heard>)
    requires Exact(o, s, hs) && s.w.size <= |s.w.data|
    ensures Quiet(o, s, DesyncError(o, s), hs)
  {
    hide Exact, Now;
    NowQuiet(o, s, Desynchronized, hs);
    var t := Now(o, s, Desynchronized);
    var dump := PacketHeader(s.w.data[..HeaderDump(s.w.size)]);
    NowQuiet(o, t, dump, hs);
    SameExact(o, Now(o, t, dump), DesyncError(o, s), hs);
  }

  lemma CheckHeaderQuiet(o: Opts, s: State, toggle: int, zero: int, hs: seq<Heard>)
    requires Exact(o, s, hs) && s.w.size <= |s.w.data|
    ensures Quiet(o, s, CheckHeader(o, s, toggle, zero), hs)
  {
    hide Exact, Now, DesyncError;
    var t := if toggle != s.w.toggle then Now(o, s, BadToggle(toggle, s.w.toggle)) else s;
    NowQuiet(o, s, BadToggle(toggle, s.w.toggle), hs);
    NowQuiet(o, t, ZeroBitSet, hs);
    DesyncQuiet(o, if zero != 0 then Now(o, t, ZeroBitSet) else t, hs);
  }

  lemma FrontQuiet(o: Opts, s: State, hs: seq<Heard>)
    requires Exact(o, s, hs) && |s.w.data| == DATA_BUF_SIZE && s.w.size <= DATA_BUF_SIZE
    ensures Quiet(o, s, HeaderFront(o, s), hs)
  {
    hide Exact, Now, CheckHeader, Flag, ToS64, Wrap64, Tick;
    var toggle, zero := Flag(s.w.data[0], 0x40), Flag(s.w.data[0], 0x20);
    SameCheck(o, s, toggle, zero);
    CheckHeaderQuiet(o, s, toggle, zero, hs);
    var a := CheckHeader(o, s, toggle, zero);
    SameExact(o, a, a.(w := Tick(a.w)), hs);
    NowQuiet(o, a.(w := Tick(a.w)), PeriodicUpdate, hs);
  }

  lemma HeaderTells(o: Opts, s: State, hs: seq<Heard>)
    requires Exact(o, s, hs) && o.foldEmpty && |s.w.data| == DATA_BUF_SIZE && s.w.size <= DATA_BUF_SIZE
    ensures var t := HeaderDone(o, s);
      if t.keepalives > s.keepalives then Exact(o, t, hs + [Alive(s.savedTs)]) else Exact(o, t, hs)
  {
    hide Exact, HeaderFront, FrameSize, Flag, Now, StatusEvent, DesyncError, StartPayload;
    UnlimitedFront(o, s);
    FrontQuiet(o, s, hs);
    var c := HeaderFront(o, s);
    if c.w.status {
      var d3 := c.w.data[3];
      var d := StatusEvent(o, c, d3 % 16, Flag(d3, 0x10), Flag(d3, 0x20), d3 / 0x40);
      StatusTells(o, c, d3 % 16, Flag(d3, 0x10), Flag(d3, 0x20), d3 / 0x40, hs);
      SameExact(o, d, d.(w := d.w.(ptr := 0)), if d.keepalives > s.keepalives then hs + [Alive(s.savedTs)] else hs);
    } else {
      var bad := BadSize(FrameSize(c.w));
      NowQuiet(o, c, bad, hs);
      DesyncQuiet(o, Now(o, c, bad), hs);
      SameExact(o, c, c.(w := StartPayload(c.w, FrameSize(c.w))), hs);
    }
  }

  // ---- Whole runs ----

  /** What one octet lets be heard: a frame with its last one, or a keep-alive with a status header. */
  function HeardAt(o: Opts, s: State, b: byte): seq<Heard>
    requires WalkOk(s.w)
  {
    var v := Store(s.w, b);
    if v.ptr < v.size then []
    else if !v.header then if v.enabled then [Got(v.ts, Payload(v), Flagged(v), v.overflow, v.speedIn)] else []
    else if CaptureSm(o, s, b).keepalives > s.keepalives then [Alive(s.savedTs)]
    else []
  }

  function HeardIn(o: Opts, s: State, bytes: seq<byte>): seq<Heard>
    requires WalkOk(s.w)
    decreases |bytes|
  {
    if bytes == [] || s.done then []
    else
      SameWalk(o, s, bytes[0]);
      HeardAt(o, s, bytes[0]) + HeardIn(o, CaptureSm(o, s, bytes[0]), bytes[1..])
  }

  function HeardOf(o: Opts, s: State, cs: seq<Call>): seq<Heard>
    requires WalkOk(s.w)
    decreases |cs|
  {
    if cs == [] then []
    else (if cs[0].FeedBytes? then HeardIn(o, s, cs[0].data) else []) + HeardOf(o, OnCall(o, s, cs[0]), cs[1..])
  }

  lemma ByteTells(o: Opts, s: State, b: byte, hs: seq<Heard>)
    requires WalkOk(s.w) && Exact(o, s, hs) && o.foldEmpty
    ensures Exact(o, CaptureSm(o, s, b), hs + HeardAt(o, s, b))
  {
    hide HeaderDone, DataEvent, Exact;
    var t := s.(w := Store(s.w, b));
    SameExact(o, s, t, hs);
    assert hs + [] == hs;
    if t.w.ptr >= t.w.size {
      if t.w.header {
        HeaderTells(o, t, hs);
      } else {
        var u := t.(w := t.w.(header := true));
        SameExact(o, t, u, hs);
        DataTells(o, u, hs);
        assert HeardAt(o, s, b) == if u.w.enabled then [HeardFrame(u)] else [];
        SameExact(o, DataEvent(o, u), PayloadDone(o, t), hs + HeardAt(o, s, b));
      }
    }
  }

  lemma {:induction false} FeedTells(o: Opts, s: State, bytes: seq<byte>, hs: seq<Heard>)
    requires WalkOk(s.w) && Exact(o, s, hs) && o.foldEmpty
    ensures Exact(o, Feed(o, s, bytes), hs + HeardIn(o, s, bytes))
    decreases |bytes|
  {
    hide CaptureSm, WalkOk, Exact, HeardAt;
    if bytes == [] || s.done {
      assert hs + [] == hs;
    } else {
      var t, h := CaptureSm(o, s, bytes[0]), HeardAt(o, s, bytes[0]);
      SameWalk(o, s, bytes[0]);
      ByteTells(o, s, bytes[0], hs);
      FeedTells(o, t, bytes[1..], hs + h);
      assert hs + h + HeardIn(o, t, bytes[1..]) == hs + (h + HeardIn(o, t, bytes[1..]));
    }
  }

  lemma {:induction false} CallsTell(o: Opts, s: State, cs: seq<Call>, hs: seq<Heard>)
    requires WalkOk(s.w) && Exact(o, s, hs) && o.foldEmpty
    ensures Exact(o, OnCalls(o, s, cs), hs + HeardOf(o, s, cs))
    decreases |cs|
  {
    hide WalkOk, Exact, HeardIn, Feed, Now;
    if cs == [] {
      assert hs + [] == hs;
    } else {
      var h := if cs[0].FeedBytes? then HeardIn(o, s, cs[0].data) else [];
      match cs[0] {
        case FeedBytes(d) => FeedTells(o, s, d, hs);
        case LinkLost => NowQuiet(o, s, LinkLoss, hs); assert hs + h == hs;
        case Say(text) => NowQuiet(o, s, Message(text), hs); assert hs + h == hs;
      }
      var t := OnCall(o, s, cs[0]);
      CallsTell(o, t, cs[1..], hs + h);
      assert hs + h + HeardOf(o, t, cs[1..]) == hs + (h + HeardOf(o, t, cs[1..]));
    }
  }

  lemma AnnouncedExact(o: Opts, limit: int)
    ensures var s := Announce(o, Fresh(limit)); WalkOk(s.w) && Exact(o, s, [])
  {
    var s := Announce(o, Fresh(limit));
    assert s.out[..0] == [];
  }

  /**
   From the announcement on, through any bytes, losses and messages: the frames and keep-alives
   written are those at the places the rule gives, in order, with their octets, marks and
   times; and one that was heard is written or still in the open batch exactly if it is not lost.
   */
  lemma FoldedOutputIsExact(o: Opts, limit: int, cs: seq<Call>)
    requires o.foldEmpty
    ensures var s := Announce(o, Fresh(limit));
      WalkOk(s.w)
      && var t, hs := OnCalls(o, s, cs), HeardOf(o, s, cs);
         && Reports(o, t.out, hs, Written(o, hs)) && |t.foldBuf| == Open(o, hs) <= |hs|
         && (forall k :: 0 <= k < |t.foldBuf| ==> Holds(t.foldBuf[k], hs[|hs| - |t.foldBuf| + k]))
         && Ascending(Written(o, hs))
         && forall i: nat :: i < |hs| ==>
              (i in Written(o, hs) || i >= |hs| - Open(o, hs) <==> !Lost(o, hs, i))
  {
    hide OnCalls, HeardOf, WalkOk, Announce, Reports, Holds, Open, Written, Lost, Range;
    var s := Announce(o, Fresh(limit));
    AnnouncedExact(o, limit);
    CallsTell(o, s, cs, []);
    var hs := HeardOf(o, s, cs);
    assert [] + hs == hs;
    PlacesAscend(o, hs);
    RangeHas(|hs| - Open(o, hs), |hs|);
    forall i: nat | i < |hs|
      ensures i in Written(o, hs) || i >= |hs| - Open(o, hs) <==> !Lost(o, hs, i)
    {
      ShownUnlessLost(o, hs, i);
    }
  }

  // ---- What is heard is what the reference hears ----

  function FramesOf(hs: seq<Heard>): seq<Record> {
    if hs == [] then []
    else
      FramesOf(hs[..|hs| - 1])
      + match hs[|hs| - 1] case Got(ts, data, flagged, _, _) => [Frame(ts, data, flagged)] case Alive(_) => []
  }

  lemma {:induction false} FramesOfConcat(a: seq<Heard>, b: seq<Heard>)
    ensures FramesOf(a + b) == FramesOf(a) + FramesOf(b)
  {
    if b == [] {
      assert a + b == a;
    } else {
      var n := |b| - 1;
      assert (a + b)[..|a| + n] == a + b[..n];
      FramesOfConcat(a, b[..n]);
    }
  }

  lemma OneHeard(h: Heard)
    ensures FramesOf([h]) == match h case Got(ts, data, flagged, _, _) => [Frame(ts, data, flagged)] case Alive(_) => []
    ensures FramesOf([]) == []
  {
    assert [h][..0] == [];
  }

  lemma {:induction false} NoFramesAmong(rs: seq<Record>)
    requires forall r :: r in rs ==> r.Info?
    ensures Select(AllFrames, rs) == []
  {
    if rs != [] {
      assert rs[|rs| - 1] in rs;
      NoFramesAmong(rs[..|rs| - 1]);
    }
  }

  lemma HeaderHasNoFrames(trigger: Trigger, w: Walk)
    requires |w.data| == DATA_BUF_SIZE && w.size <= DATA_BUF_SIZE
    ensures Select(AllFrames, WalkHeader(trigger, w).1) == []
  {
    hide Tick, FrameSize, Flag, BusStatus, StartPayload;
    NoFramesAmong(WalkHeader(trigger, w).1);
  }

  lemma HeardAtIsWalked(o: Opts, s: State, b: byte)
    requires WalkOk(s.w)
    ensures FramesOf(HeardAt(o, s, b)) == Select(AllFrames, WalkSm(o.trigger, s.w, b).1)
  {
    hide CaptureSm, WalkHeader, Flagged;
    var v := Store(s.w, b);
    OneHeard(Alive(s.savedTs));
    if v.ptr >= v.size {
      if v.header {
        HeaderHasNoFrames(o.trigger, v);
      } else if v.enabled {
        OneHeard(Got(v.ts, Payload(v), Flagged(v), v.overflow, v.speedIn));
        SelectOne(AllFrames, Frame(v.ts, Payload(v), Flagged(v)));
      }
    }
  }

  /** The frames heard are those the reference walker finds in the bytes taken in. */
  lemma {:induction false} HeardAreWalked(o: Opts, s: State, bytes: seq<byte>)
    requires WalkOk(s.w)
    ensures FramesOf(HeardIn(o, s, bytes))
      == Select(AllFrames, WalkAll(o.trigger, s.w, bytes[..Consumed(o, s, bytes)]).1)
    decreases |bytes|
  {
    hide CaptureSm, WalkSm, WalkOk, HeardAt, Select;
    if bytes == [] || s.done {
      assert bytes[..0] == [];
      OneHeard(Alive(0));
      NothingSelected();
    } else {
      var n, t := Consumed(o, s, bytes), CaptureSm(o, s, bytes[0]);
      var (v, r1) := WalkSm(o.trigger, s.w, bytes[0]);
      SameWalk(o, s, bytes[0]);
      HeardAtIsWalked(o, s, bytes[0]);
      HeardAreWalked(o, t, bytes[1..]);
      assert bytes[..n][1..] == bytes[1..][..n - 1] && bytes[..n][0] == bytes[0];
      FramesOfConcat(HeardAt(o, s, bytes[0]), HeardIn(o, t, bytes[1..]));
      SelectConcat(AllFrames, r1, WalkAll(o.trigger, v, bytes[1..][..n - 1]).1);
    }
  }

  lemma NothingSelected()
    ensures Select(AllFrames, []) == []
  {
  }
}
