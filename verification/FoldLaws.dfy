/**
 Folding only ever drops empty frames from the output. Whatever the options, the
 packet layer walks as the reference walker does and reports exactly its diagnostics
 and its solid frames; the frames it shows are, in order, among those received.
 */
module FoldLaws {
  import opened Bytes
  import opened PacketModel
  import opened Walker

  // ---- Views of the output ----

  datatype View = Diagnostics | SolidFrames | AllFrames

  predicate Foldable(data: seq<byte>) {
    data != [] && data[0] in {PID_SOF, PID_IN, PID_NAK}
  }

  predicate InView(v: View, r: Record) {
    match v
    case Diagnostics => r.Info? && (r.note.BadToggle? || r.note.ZeroBitSet? || r.note.BadSize?
                                    || r.note.Desynchronized? || r.note.PacketHeader?
                                    || r.note.LinkLoss? || r.note.Message?)
    case SolidFrames => r.Frame? && (r.flagged || !Foldable(r.data))
    case AllFrames => r.Frame?
  }

  function Select(v: View, rs: seq<Record>): seq<Record> {
    if rs == [] then []
    else
      var n := |rs| - 1;
      Select(v, rs[..n]) + if InView(v, rs[n]) then [rs[n]] else []
  }

  lemma {:induction false} SelectConcat(v: View, a: seq<Record>, b: seq<Record>)
    ensures Select(v, a + b) == Select(v, a) + Select(v, b)
  {
    if b == [] {
      assert a + b == a;
    } else {
      var n := |b| - 1;
      assert (a + b)[..|a| + n] == a + b[..n];
      SelectConcat(v, a, b[..n]);
    }
  }

  /** The payloads of the frames among some records. */
  function Loads(rs: seq<Record>): seq<seq<byte>> {
    if rs == [] then []
    else
      var n := |rs| - 1;
      Loads(rs[..n]) + if rs[n].Frame? then [rs[n].data] else []
  }

  lemma {:induction false} LoadsConcat(a: seq<Record>, b: seq<Record>)
    ensures Loads(a + b) == Loads(a) + Loads(b)
  {
    if b == [] {
      assert a + b == a;
    } else {
      var n := |b| - 1;
      assert (a + b)[..|a| + n] == a + b[..n];
      LoadsConcat(a, b[..n]);
    }
  }

  /** The payloads of the frames waiting in the fold buffer; keep-alives have none. */
  function BufLoads(fs: seq<CaptureFrame>): seq<seq<byte>> {
    if fs == [] then []
    else
      var n := |fs| - 1;
      BufLoads(fs[..n]) + if fs[n].size >= 0 then [fs[n].data] else []
  }

  lemma BufLoadsSnoc(fs: seq<CaptureFrame>, f: CaptureFrame)
    ensures BufLoads(fs + [f]) == BufLoads(fs) + if f.size >= 0 then [f.data] else []
  {
    assert (fs + [f])[..|fs|] == fs;
  }

  /** Payloads written or still to be written. */
  function Shown(s: State): seq<seq<byte>> {
    Loads(s.out) + BufLoads(s.foldBuf)
  }

  // ---- Subsequences ----

  predicate Sub<T(==)>(a: seq<T>, b: seq<T>)
    decreases |b|
  {
    if a == [] then true
    else if b == [] then false
    else
      var m, n := |a| - 1, |b| - 1;
      (a[m] == b[n] && Sub(a[..m], b[..n])) || Sub(a, b[..n])
  }

  lemma SubPush<T>(a: seq<T>, b: seq<T>, x: T)
    requires Sub(a, b)
    ensures Sub(a + [x], b + [x])
  {
    assert (a + [x])[..|a|] == a && (b + [x])[..|b|] == b;
  }

  lemma SubSkip<T>(a: seq<T>, b: seq<T>, x: T)
    requires Sub(a, b)
    ensures Sub(a, b + [x])
  {
    assert (b + [x])[..|b|] == b;
  }

  lemma {:induction false} SubDropLast<T>(a: seq<T>, b: seq<T>)
    requires Sub(a, b) && a != []
    ensures Sub(a[..|a| - 1], b)
    decreases |b|
  {
    var m, n := |a| - 1, |b| - 1;
    assert b == b[..n] + [b[n]];
    if a[m] == b[n] && Sub(a[..m], b[..n]) {
      SubSkip(a[..m], b[..n], b[n]);
    } else {
      SubDropLast(a, b[..n]);
      SubSkip(a[..m], b[..n], b[n]);
    }
  }

  lemma {:induction false} SubPrefix<T>(a: seq<T>, c: seq<T>, b: seq<T>)
    requires Sub(a + c, b)
    ensures Sub(a, b)
    decreases |c|
  {
    if c == [] {
      assert a + c == a;
    } else {
      SubDropLast(a + c, b);
      assert (a + c)[..|a + c| - 1] == a + c[..|c| - 1];
      SubPrefix(a, c[..|c| - 1], b);
    }
  }

  // ---- What one function adds ----

  /** Keep-alive entries and foldable frames only; entry 0 opens the batch. */
  predicate Opens(f: CaptureFrame) {
    f.size < 0 || (f.data != [] && f.data[0] == PID_SOF)
  }

  predicate Follows(f: CaptureFrame) {
    f.size > 0 && f.data != [] && f.data[0] in {PID_IN, PID_NAK}
  }

  predicate FoldShape(o: Opts, buf: seq<CaptureFrame>, count: int) {
    && |buf| <= FOLD_BUF_SIZE
    && (buf != [] ==> Opens(buf[0]))
    && (forall i :: 0 < i < |buf| ==> Follows(buf[i]))
    && (!o.foldEmpty ==> buf == [] && count == 0)
  }

  predicate FoldOk(o: Opts, s: State) {
    FoldShape(o, s.foldBuf, s.foldCount)
  }

  predicate Adds(v: View, s: State, t: State, rs: seq<Record>) {
    Select(v, t.out) == Select(v, s.out) + Select(v, rs)
  }

  ghost predicate Carries(s: State, t: State, rs: seq<Record>) {
    forall b: seq<seq<byte>> {:trigger Sub(Shown(s), b)} :: Sub(Shown(s), b) ==> Sub(Shown(t), b + Loads(rs))
  }

  /** Between s and t the layer took in rs: in full where views are exact, else as a subsequence. */
  ghost predicate Effect(o: Opts, s: State, t: State, rs: seq<Record>) {
    && FoldOk(o, t)
    && Adds(Diagnostics, s, t, rs) && Adds(SolidFrames, s, t, rs)
    && (!o.foldEmpty ==> Adds(AllFrames, s, t, rs))
    && Carries(s, t, rs)
  }

  lemma EffectTrans(o: Opts, s: State, t: State, u: State, a: seq<Record>, b: seq<Record>)
    requires Effect(o, s, t, a) && Effect(o, t, u, b)
    ensures Effect(o, s, u, a + b)
  {
    hide FoldShape, Select, Loads, Shown, Sub;
    SelectConcat(Diagnostics, a, b);
    SelectConcat(SolidFrames, a, b);
    SelectConcat(AllFrames, a, b);
    LoadsConcat(a, b);
    forall c: seq<seq<byte>> | Sub(Shown(s), c)
      ensures Sub(Shown(u), c + Loads(a + b))
    {
      assert Sub(Shown(t), c + Loads(a));
      assert c + Loads(a) + Loads(b) == c + Loads(a + b);
    }
  }

  lemma SelectOne(v: View, r: Record)
    ensures Select(v, [r]) == if InView(v, r) then [r] else []
    ensures Select(v, NOTHING) == [] && Loads(NOTHING) == []
    ensures Loads([r]) == if r.Frame? then [r.data] else []
  {
    assert [r][..0] == [];
  }

  lemma AddsEmit(v: View, s: State, r: Record)
    ensures Adds(v, s, Emit(s, r), [r])
  {
    SelectConcat(v, s.out, [r]);
  }

  lemma AddsTrans(v: View, s: State, t: State, u: State, a: seq<Record>, b: seq<Record>)
    requires Adds(v, s, t, a) && Adds(v, t, u, b)
    ensures Adds(v, s, u, a + b)
  {
    SelectConcat(v, a, b);
  }

  /** Nothing seen, nothing shown. */
  lemma Quiet(o: Opts, s: State, t: State)
    requires t.out == s.out && t.foldBuf == s.foldBuf && t.foldCount == s.foldCount && FoldOk(o, s)
    ensures Effect(o, s, t, [])
  {
    hide FoldShape, Sub;
    assert Loads([]) == [];
    assert Shown(t) == Shown(s);
    forall b: seq<seq<byte>> | Sub(Shown(s), b) ensures Sub(Shown(t), b + Loads([])) {
      assert b + [] == b;
    }
  }

  function InfoSeen(ts: u64, note: Note): seq<Record> {
    if InView(Diagnostics, Info(ts, note)) then [Info(ts, note)] else []
  }

  lemma InfoAdds(v: View, s: State, r: Record)
    requires r.Info? && (InView(v, r) ==> v.Diagnostics?)
    ensures Adds(v, s, Emit(s, r), if InView(Diagnostics, r) then [r] else NOTHING)
  {
    hide Select;
    AddsEmit(v, s, r);
    SelectOne(v, r);
  }

  lemma InfoCarries(s: State, ts: u64, note: Note)
    ensures Carries(s, Emit(s, Info(ts, note)), InfoSeen(ts, note))
  {
    hide Sub;
    var r := Info(ts, note);
    SelectOne(Diagnostics, r);
    LoadsConcat(s.out, [r]);
    assert Loads(InfoSeen(ts, note)) == [] && Loads([r]) == [];
    SameShownAfter(s, r);
    forall b: seq<seq<byte>> | Sub(Shown(s), b) ensures Sub(Shown(Emit(s, r)), b + Loads(InfoSeen(ts, note))) {
      assert b + [] == b;
    }
  }

  lemma SameShownAfter(s: State, r: Record)
    requires r.Info?
    ensures Shown(Emit(s, r)) == Shown(s)
  {
    assert (s.out + [r])[..|s.out|] == s.out;
    assert Loads(s.out + [r]) == Loads(s.out) + [];
  }

  lemma EmitInfo(o: Opts, s: State, ts: u64, note: Note)
    requires FoldOk(o, s)
    ensures Effect(o, s, Emit(s, Info(ts, note)), InfoSeen(ts, note))
  {
    hide FoldShape, Adds, Carries;
    InfoAdds(Diagnostics, s, Info(ts, note));
    InfoAdds(SolidFrames, s, Info(ts, note));
    InfoAdds(AllFrames, s, Info(ts, note));
    InfoCarries(s, ts, note);
  }

  lemma LineStateEffect(o: Opts, s: State)
    requires FoldOk(o, s)
    ensures Effect(o, s, LineStateEvent(o, s), [])
  {
    hide FoldShape, ToS32, Wrap64, EffectiveSpeed, Adds, Carries;
    if s.savedLs == LS_INVALID || o.excludeLineState {
      Quiet(o, s, LineStateEvent(o, s));
    } else {
      var t := s.(savedLs := LS_INVALID);
      var note := LineState(s.savedLs, ToS32(Wrap64(s.w.ts - s.savedTs)), EffectiveSpeed(o, s.w) == SPEED_LS);
      Quiet(o, s, t);
      EmitInfo(o, t, s.savedTs, note);
      assert InfoSeen(s.savedTs, note) == [];
      EffectTrans(o, s, t, Emit(t, Info(s.savedTs, note)), [], []);
      assert NOTHING + NOTHING == NOTHING;
    }
  }

  lemma InfoEffect(o: Opts, s: State, ts: u64, note: Note)
    requires FoldOk(o, s)
    ensures Effect(o, s, CaptureInfo(o, s, ts, note), InfoSeen(ts, note))
  {
    hide LineStateEvent, FoldShape, Adds, Carries;
    var t := LineStateEvent(o, s);
    LineStateEffect(o, s);
    EmitInfo(o, t, ts, note);
    EffectTrans(o, s, t, CaptureInfo(o, s, ts, note), [], InfoSeen(ts, note));
    assert [] + InfoSeen(ts, note) == InfoSeen(ts, note);
  }

  lemma NoteEffect(o: Opts, s: State, note: Note)
    requires FoldOk(o, s)
    ensures Effect(o, s, Now(o, s, note), InfoSeen(s.w.ts, note))
  {
    InfoEffect(o, s, s.w.ts, note);
  }

  lemma InfoKeeps(o: Opts, s: State, ts: u64, note: Note)
    ensures var t := CaptureInfo(o, s, ts, note);
      Loads(t.out) == Loads(s.out) && t.foldBuf == s.foldBuf && t.foldCount == s.foldCount
  {
    hide ToS32, Wrap64, EffectiveSpeed;
    var a := LineStateEvent(o, s);
    if a.out != s.out {
      assert a.out[..|s.out|] == s.out;
    }
    assert CaptureInfo(o, s, ts, note).out[..|a.out|] == a.out;
  }

  /** Writing out buffered entries moves them from the buffer to the output, and does nothing else. */
  lemma {:induction false} FlushShows(o: Opts, s: State, fs: seq<CaptureFrame>)
    requires o.foldEmpty && FoldOk(o, s) && forall f :: f in fs ==> Opens(f) || Follows(f)
    ensures var t := WriteAllFolded(o, s, fs);
      && t.foldBuf == s.foldBuf && t.foldCount == s.foldCount
      && Loads(t.out) == Loads(s.out) + BufLoads(fs)
      && Adds(Diagnostics, s, t, NOTHING) && Adds(SolidFrames, s, t, NOTHING)
    decreases |fs|
  {
    hide FoldShape, WriteFolded, Loads, BufLoads, Adds;
    if fs == [] {
      SameLoads(s);
      AddsNothing(Diagnostics, s);
      AddsNothing(SolidFrames, s);
    } else {
      var n := |fs| - 1;
      var a := WriteAllFolded(o, s, fs[..n]);
      FlushShows(o, s, fs[..n]);
      assert fs[n] in fs;
      FlushOne(o, a, fs[n]);
      assert fs == fs[..n] + [fs[n]];
      BufLoadsSnoc(fs[..n], fs[n]);
      MoreLoads(Loads(s.out), BufLoads(fs[..n]), if fs[n].size >= 0 then [fs[n].data] else []);
      AddsBoth(Diagnostics, s, a, WriteAllFolded(o, s, fs));
      AddsBoth(SolidFrames, s, a, WriteAllFolded(o, s, fs));
    }
  }

  lemma SameLoads(s: State)
    ensures Loads(s.out) + BufLoads([]) == Loads(s.out)
  {
  }

  lemma MoreLoads(a: seq<seq<byte>>, b: seq<seq<byte>>, c: seq<seq<byte>>)
    ensures a + b + c == a + (b + c)
  {
  }

  lemma AddsNothing(v: View, s: State)
    ensures Adds(v, s, s, NOTHING)
  {
    SelectOne(v, Info(0, KeepAlive));
  }

  lemma AddsBoth(v: View, s: State, t: State, u: State)
    requires Adds(v, s, t, NOTHING) && Adds(v, t, u, NOTHING)
    ensures Adds(v, s, u, NOTHING)
  {
    hide Adds;
    AddsTrans(v, s, t, u, NOTHING, NOTHING);
    assert NOTHING + NOTHING == NOTHING;
  }

  lemma FlushOne(o: Opts, s: State, f: CaptureFrame)
    requires FoldOk(o, s) && (Opens(f) || Follows(f))
    ensures var t := WriteFolded(o, s, f);
      && t.foldBuf == s.foldBuf && t.foldCount == s.foldCount
      && Loads(t.out) == Loads(s.out) + (if f.size >= 0 then [f.data] else [])
      && Adds(Diagnostics, s, t, []) && Adds(SolidFrames, s, t, [])
  {
    hide FoldShape, CaptureInfo, Select;
    var ts := Max(f.ts, s.lastTs);
    if f.size < 0 {
      InfoKeeps(o, s, ts, KeepAlive);
      InfoEffect(o, s, ts, KeepAlive);
    } else {
      var r := Frame(ts, f.data, false);
      SelectOne(Diagnostics, r);
      SelectOne(SolidFrames, r);
      AddsEmit(Diagnostics, s, r);
      AddsEmit(SolidFrames, s, r);
      LoadsConcat(s.out, [r]);
    }
  }

  lemma StopFoldingEffect(o: Opts, s: State)
    requires FoldOk(o, s)
    ensures Effect(o, s, StopFolding(o, s), [])
    ensures StopFolding(o, s).foldBuf == [] && StopFolding(o, s).foldCount == 0
    ensures Shown(StopFolding(o, s)) == Shown(s)
  {
    hide WriteAllFolded, CaptureInfo, Select, Loads, Sub;
    var t := StopFolding(o, s);
    if s.foldCount == 0 && s.foldBuf == [] {
      Quiet(o, s, t);
    } else {
      var a := s.(foldCount := 0, foldBuf := []);
      var b := WriteAllFolded(o, a, s.foldBuf);
      assert forall f :: f in s.foldBuf ==> Opens(f) || Follows(f);
      FlushShows(o, a, s.foldBuf);
      if s.foldCount >= 1 {
        InfoKeeps(o, b, b.w.ts, Folded(s.foldCount));
        NoteEffect(o, b, Folded(s.foldCount));
      } else {
        SelectOne(Diagnostics, Info(0, KeepAlive));
        SelectOne(SolidFrames, Info(0, KeepAlive));
      }
      AddsTrans(Diagnostics, s, b, t, NOTHING, NOTHING);
      AddsTrans(SolidFrames, s, b, t, NOTHING, NOTHING);
      assert NOTHING + NOTHING == NOTHING;
      assert Loads(t.out) == Loads(s.out) + BufLoads(s.foldBuf);
      assert BufLoads([]) == [];
      assert Shown(t) == Shown(s);
      SameShown(s, t);
    }
  }

  lemma SameShown(s: State, t: State)
    requires Shown(t) == Shown(s)
    ensures Carries(s, t, [])
  {
    assert Loads([]) == [];
    forall b: seq<seq<byte>> | Sub(Shown(s), b) ensures Sub(Shown(t), b + Loads([])) {
      assert b + [] == b;
    }
  }

  /** The records a buffered entry stands for: a frame, or nothing for a keep-alive. */
  function EntrySeen(f: CaptureFrame): seq<Record> {
    if f.size < 0 then [] else [Frame(f.ts, f.data, false)]
  }

  /** An entry put behind the buffer shows one more payload, without adding to the exact views. */
  lemma BufferEffect(o: Opts, s: State, f: CaptureFrame)
    requires o.foldEmpty && FoldOk(o, s) && |s.foldBuf| < FOLD_BUF_SIZE
    requires if s.foldBuf == [] then Opens(f) else Follows(f)
    ensures Effect(o, s, s.(foldBuf := s.foldBuf + [f]), EntrySeen(f))
  {
    hide Sub;
    var t := s.(foldBuf := s.foldBuf + [f]);
    var rs := EntrySeen(f);
    BufLoadsSnoc(s.foldBuf, f);
    if f.size < 0 {
      assert Shown(t) == Shown(s);
      SameShown(s, t);
      assert Adds(Diagnostics, s, t, []) && Adds(SolidFrames, s, t, []);
    } else {
      SelectOne(Diagnostics, Frame(f.ts, f.data, false));
      SelectOne(SolidFrames, Frame(f.ts, f.data, false));
      assert Shown(t) == Shown(s) + [f.data];
      forall b: seq<seq<byte>> | Sub(Shown(s), b) ensures Sub(Shown(t), b + Loads(rs)) {
        SubPush(Shown(s), b, f.data);
      }
    }
  }

  /** Forgetting the buffered entries shows fewer payloads, and that is all. */
  lemma DropEffect(o: Opts, s: State, count: int)
    requires o.foldEmpty && FoldOk(o, s)
    ensures Effect(o, s, s.(foldBuf := [], foldCount := count), [])
  {
    hide Sub;
    var t := s.(foldBuf := [], foldCount := count);
    assert BufLoads([]) == [] && Loads([]) == [];
    assert Shown(t) == Loads(s.out);
    forall b: seq<seq<byte>> | Sub(Shown(s), b) ensures Sub(Shown(t), b + Loads([])) {
      SubPrefix(Loads(s.out), BufLoads(s.foldBuf), b);
      assert b + [] == b;
    }
  }

  lemma RefoldEffect(o: Opts, s: State, foldLimit: int, f: CaptureFrame)
    requires o.foldEmpty && FoldOk(o, s) && Opens(f)
    ensures Effect(o, s, Refold(o, s, foldLimit, f), EntrySeen(f))
  {
    hide StopFolding, Adds, Carries, Opens, Follows;
    var seen := EntrySeen(f);
    if s.foldBuf == [] {
      BufferEffect(o, s, f);
      assert s.foldBuf + [f] == [f];
    } else {
      var t := s.(foldCount := s.foldCount + 1, foldBuf := []);
      var u := if t.foldCount == foldLimit then StopFolding(o, t) else t;
      DropEffect(o, s, s.foldCount + 1);
      if t.foldCount == foldLimit {
        StopFoldingEffect(o, t);
        EffectTrans(o, s, t, u, [], []);
        assert NOTHING + NOTHING == NOTHING;
      }
      BufferEffect(o, u, f);
      EffectTrans(o, s, u, u.(foldBuf := u.foldBuf + [f]), [], seen);
      assert [] + seen == seen;
    }
  }

  lemma EmitFrame(o: Opts, s: State, ts: u64, data: seq<byte>, flagged: bool)
    requires FoldOk(o, s) && s.foldBuf == []
    ensures Effect(o, s, Emit(s, Frame(ts, data, flagged)), [Frame(ts, data, flagged)])
  {
    hide FoldShape, Sub, Select;
    var r := Frame(ts, data, flagged);
    var t := Emit(s, r);
    AddsEmit(Diagnostics, s, r);
    AddsEmit(SolidFrames, s, r);
    AddsEmit(AllFrames, s, r);
    LoadsConcat(s.out, [r]);
    SelectOne(AllFrames, r);
    assert BufLoads([]) == [];
    assert Shown(t) == Shown(s) + [data];
    forall b: seq<seq<byte>> | Sub(Shown(s), b) ensures Sub(Shown(t), b + Loads([r])) {
      SubPush(Shown(s), b, data);
    }
  }

  lemma LimitEffect(o: Opts, s: State)
    requires FoldOk(o, s)
    ensures Effect(o, s, CheckCaptureLimit(o, s), [])
  {
    hide Now, Adds, Carries, FoldShape;
    var t := s.(limit := s.limit - 1);
    Quiet(o, s, t);
    if t.limit == 0 {
      var u := Now(o, t, LimitReached);
      NoteEffect(o, t, LimitReached);
      assert InfoSeen(t.w.ts, LimitReached) == [];
      Quiet(o, u, u.(done := true));
      assert NOTHING + NOTHING == NOTHING;
      EffectTrans(o, s, t, u, NOTHING, NOTHING);
      EffectTrans(o, s, u, u.(done := true), NOTHING, NOTHING);
    }
  }

  /** Two steps, the first of which takes nothing in. */
  lemma Then(o: Opts, s: State, t: State, u: State, rs: seq<Record>)
    requires Effect(o, s, t, []) && Effect(o, t, u, rs)
    ensures Effect(o, s, u, rs)
  {
    hide Effect;
    EffectTrans(o, s, t, u, [], rs);
    assert [] + rs == rs;
  }

  // ---- Frames ----

  lemma KeepaliveEffect(o: Opts, s: State, ts: u64, delta: int)
    requires FoldOk(o, s) && delta > 0
    ensures Effect(o, s, KeepaliveEvent(o, s, ts, delta), [])
  {
    hide Adds, Carries, FoldShape, CheckCaptureLimit, Refold, CaptureInfo;
    if !s.w.enabled {
      Quiet(o, s, s);
    } else {
      var k := s.(keepalives := s.keepalives + 1);
      Quiet(o, s, k);
      var f := CaptureFrame(ts, -delta, []);
      var t := if !o.foldEmpty then CaptureInfo(o, k, ts, KeepAlive) else Refold(o, k, FOLD_LIMIT_LS_FS, f);
      if !o.foldEmpty {
        InfoEffect(o, k, ts, KeepAlive);
        assert InfoSeen(ts, KeepAlive) == [];
      } else {
        RefoldEffect(o, k, FOLD_LIMIT_LS_FS, f);
      }
      Then(o, s, k, t, []);
      LimitEffect(o, t);
      Then(o, s, t, CheckCaptureLimit(o, t), []);
    }
  }

  lemma PreludeEffect(o: Opts, s: State)
    requires FoldOk(o, s)
    ensures var t := DataPrelude(o, s);
      Effect(o, s, t, []) && |t.foldBuf| < FOLD_BUF_SIZE && (Flagged(s.w) ==> t.foldBuf == [])
  {
    hide Adds, Carries, LineStateEvent, StopFolding;
    var a := LineStateEvent(o, s);
    var b := if a.w.overflow || Flagged(a.w) || |a.foldBuf| == FOLD_BUF_SIZE then StopFolding(o, a) else a;
    var c := if b.w.overflow then Now(o, b, HardwareOverflow) else b;
    var d := if c.w.dataError then Now(o, c, PhyError) else c;
    LineStateEffect(o, s);
    StopFoldingEffect(o, a);
    Quiet(o, a, a);
    Then(o, s, a, b, []);
    NoteKeeps(o, b, HardwareOverflow);
    Quiet(o, b, b);
    Then(o, s, b, c, []);
    NoteKeeps(o, c, PhyError);
    Quiet(o, c, c);
    Then(o, s, c, d, []);
  }

  lemma NoteKeeps(o: Opts, s: State, note: Note)
    requires FoldOk(o, s) && !InView(Diagnostics, Info(0, note))
    ensures Effect(o, s, Now(o, s, note), []) && Now(o, s, note).foldBuf == s.foldBuf
  {
    hide Adds, Carries, FoldShape, CaptureInfo;
    NoteEffect(o, s, note);
    InfoKeeps(o, s, s.w.ts, note);
  }

  function Received(w: Walk): Record
    requires 0 < w.size <= |w.data|
  {
    Frame(w.ts, Payload(w), Flagged(w))
  }

  lemma FoldOrWriteEffect(o: Opts, s: State)
    requires FoldOk(o, s) && |s.foldBuf| < FOLD_BUF_SIZE && (Flagged(s.w) ==> s.foldBuf == [])
    requires 0 < s.w.size <= |s.w.data|
    ensures Effect(o, s, FoldOrWrite(o, s), [Received(s.w)])
  {
    hide Adds, Carries, Refold, StopFolding, EffectiveSpeed, FoldLimit;
    var w := s.w;
    var pid, allowSof := w.data[0], EffectiveSpeed(o, w) != SPEED_LS;
    var frame := CaptureFrame(w.ts, w.size, Payload(w));
    assert frame.data[0] == pid;
    if Flagged(w) || !o.foldEmpty {
      EmitFrame(o, s, w.ts, Payload(w), Flagged(w));
    } else if s.foldBuf != [] && (pid == PID_IN || pid == PID_NAK) {
      BufferEffect(o, s, frame);
    } else if pid == PID_SOF && allowSof {
      RefoldEffect(o, s, FoldLimit(o, w), frame);
    } else {
      var t := if s.foldBuf != [] then StopFolding(o, s) else s;
      if s.foldBuf != [] {
        StopFoldingEffect(o, s);
      } else {
        Quiet(o, s, s);
      }
      EmitFrame(o, t, w.ts, Payload(w), false);
      Then(o, s, t, Emit(t, Frame(w.ts, Payload(w), false)), [Received(w)]);
    }
  }

  lemma DataEffect(o: Opts, s: State)
    requires FoldOk(o, s) && 0 < s.w.size <= |s.w.data|
    ensures Effect(o, s, DataEvent(o, s), if s.w.enabled then [Received(s.w)] else [])
  {
    hide Adds, Carries, FoldOrWrite, DataPrelude, CheckCaptureLimit, FoldShape, Received;
    if !s.w.enabled {
      Quiet(o, s, s);
    } else {
      var a := DataPrelude(o, s);
      PreludeEffect(o, s);
      var b := FoldOrWrite(o, a);
      FoldOrWriteEffect(o, a);
      Then(o, s, a, b, [Received(s.w)]);
      LimitEffect(o, b);
      EffectTrans(o, s, b, CheckCaptureLimit(o, b), [Received(s.w)], []);
      assert [Received(s.w)] + [] == [Received(s.w)];
    }
  }

  // ---- Bus status and headers ----

  lemma NoteIf(o: Opts, s: State, c: bool, note: Note)
    requires FoldOk(o, s) && !InView(Diagnostics, Info(0, note))
    ensures Effect(o, s, if c then Now(o, s, note) else s, [])
  {
    hide Adds, Carries;
    NoteKeeps(o, s, note);
    Quiet(o, s, s);
  }

  lemma TriggerEffect(o: Opts, s: State, level: int)
    requires FoldOk(o, s)
    ensures Effect(o, s, TriggerChange(o, s, level), [])
  {
    hide Adds, Carries, FoldShape, Now, TriggerEnabled;
    Quiet(o, s, s);
    if s.w.trig != level {
      var on := TriggerEnabled(o.trigger, s.w, level);
      var a := s.(w := s.w.(enabled := on, trig := level));
      var t := Now(o, a, TriggerInput(level));
      Quiet(o, s, a);
      NoteIf(o, a, true, TriggerInput(level));
      Then(o, s, a, t, []);
      NoteIf(o, t, true, StartingCapture);
      NoteIf(o, t, true, WaitingForTrigger);
      Then(o, s, t, Now(o, t, StartingCapture), []);
      Then(o, s, t, Now(o, t, WaitingForTrigger), []);
    }
  }

  lemma VbusEffect(o: Opts, s: State, vbus: int)
    requires FoldOk(o, s)
    ensures Effect(o, s, VbusChange(o, s, vbus), [])
  {
    hide Adds, Carries, FoldShape, Now;
    Quiet(o, s, s);
    var a := s.(w := s.w.(vbus := vbus));
    Quiet(o, s, a);
    NoteIf(o, a, true, Vbus(vbus != 0));
    Then(o, s, a, Now(o, a, Vbus(vbus != 0)), []);
  }

  lemma SpeedEffect(o: Opts, s: State, speed: int)
    requires FoldOk(o, s)
    ensures Effect(o, s, SpeedChange(o, s, speed), [])
  {
    hide Adds, Carries, FoldShape, Now;
    Quiet(o, s, s);
    var a := s.(w := s.w.(speedIn := speed));
    Quiet(o, s, a);
    NoteIf(o, a, true, BusReset);
    NoteIf(o, a, true, DetectedSpeed(speed));
    Then(o, s, a, Now(o, a, BusReset), []);
    Then(o, s, a, Now(o, a, DetectedSpeed(speed)), []);
  }

  lemma LineEffect(o: Opts, s: State, ls: int)
    requires FoldOk(o, s)
    ensures Effect(o, s, LineChange(o, s, ls), [])
  {
    hide Adds, Carries, FoldShape, LineStateEvent, KeepaliveEvent, EffectiveSpeed, ToS32, Wrap64;
    Quiet(o, s, s);
    var t := s.(w := s.w.(ls := ls));
    Quiet(o, s, t);
    var delta := ToS32(Wrap64(s.w.ts - s.savedTs));
    var k := t.(savedLs := LS_INVALID);
    Quiet(o, s, k);
    if delta > 0 {
      KeepaliveEffect(o, k, s.savedTs, delta);
      Then(o, s, k, KeepaliveEvent(o, k, s.savedTs, delta), []);
    }
    LineStateEffect(o, t);
    var u := LineStateEvent(o, t);
    Then(o, s, t, u, []);
    Quiet(o, u, u.(savedLs := ls, savedTs := s.w.ts));
    Then(o, s, u, u.(savedLs := ls, savedTs := s.w.ts), []);
  }

  lemma StatusEffect(o: Opts, s: State, ls: int, vbus: int, level: int, speed: int)
    requires FoldOk(o, s)
    ensures Effect(o, s, StatusEvent(o, s, ls, vbus, level, speed), [])
  {
    hide Adds, Carries, FoldShape, TriggerChange, VbusChange, SpeedChange, LineChange;
    var a := TriggerChange(o, s, level);
    var b := VbusChange(o, a, vbus);
    var c := SpeedChange(o, b, speed);
    TriggerEffect(o, s, level);
    VbusEffect(o, a, vbus);
    Then(o, s, a, b, []);
    SpeedEffect(o, b, speed);
    Then(o, s, b, c, []);
    LineEffect(o, c, ls);
    Then(o, s, c, LineChange(o, c, ls), []);
  }

  lemma DesyncEffect(o: Opts, s: State)
    requires FoldOk(o, s) && s.w.size <= |s.w.data|
    ensures Effect(o, s, DesyncError(o, s), DesyncNotes(s.w))
  {
    hide Adds, Carries, FoldShape, Now;
    var a := Now(o, s, Desynchronized);
    var head := PacketHeader(s.w.data[..HeaderDump(s.w.size)]);
    var b := Now(o, a, head);
    NoteEffect(o, s, Desynchronized);
    NoteEffect(o, a, head);
    EffectTrans(o, s, a, b, [Info(s.w.ts, Desynchronized)], [Info(s.w.ts, head)]);
    assert [Info(s.w.ts, Desynchronized)] + [Info(s.w.ts, head)] == DesyncNotes(s.w);
    var t := b.(w := Resync(b.w));
    Quiet(o, b, t);
    EffectTrans(o, s, b, t, DesyncNotes(s.w), []);
    assert DesyncNotes(s.w) + [] == DesyncNotes(s.w);
  }

  lemma CheckHeaderEffect(o: Opts, s: State)
    requires FoldOk(o, s) && |s.w.data| == DATA_BUF_SIZE && s.w.size <= DATA_BUF_SIZE
    ensures Effect(o, s, CheckHeader(o, s, Flag(s.w.data[0], 0x40), Flag(s.w.data[0], 0x20)), HeaderNotes(s.w))
  {
    hide Adds, Carries, FoldShape, Now, Flag, DesyncError, DesyncNotes;
    var toggle, zero := Flag(s.w.data[0], 0x40), Flag(s.w.data[0], 0x20);
    Quiet(o, s, s);
    if BadHeader(s.w) {
      var bt := BadToggle(toggle, s.w.toggle);
      var n1 := if toggle != s.w.toggle then [Info(s.w.ts, bt)] else [];
      var n2 := if zero != 0 then [Info(s.w.ts, ZeroBitSet)] else [];
      var t := if toggle != s.w.toggle then Now(o, s, bt) else s;
      var u := if zero != 0 then Now(o, t, ZeroBitSet) else t;
      NoteEffect(o, s, bt);
      Quiet(o, t, t);
      NoteEffect(o, t, ZeroBitSet);
      EffectTrans(o, s, t, u, n1, n2);
      DesyncEffect(o, u);
      EffectTrans(o, s, u, DesyncError(o, u), n1 + n2, DesyncNotes(s.w));
    }
  }

  lemma HeaderEffect(o: Opts, s: State)
    requires FoldOk(o, s) && |s.w.data| == DATA_BUF_SIZE && s.w.size <= DATA_BUF_SIZE
    ensures Effect(o, s, HeaderDone(o, s), WalkHeader(o.trigger, s.w).1)
  {
    hide Adds, Carries, FoldShape, Now, Flag, DesyncError, DesyncNotes, CheckHeader, HeaderNotes,
         ToS64, Wrap64, Tick, FrameSize, StatusEvent, TimeoutEvent;
    var toggle, zero := Flag(s.w.data[0], 0x40), Flag(s.w.data[0], 0x20);
    var notes := HeaderNotes(s.w);
    var a := CheckHeader(o, s, toggle, zero);
    SameCheck(o, s, toggle, zero);
    TickKeeps(a.w);
    var b := a.(w := Tick(a.w));
    CheckHeaderEffect(o, s);
    Quiet(o, a, b);
    var c := if ToS64(Wrap64(b.w.ts - b.lastTs)) > UPDATE_INTERVAL then TimeoutEvent(o, b) else b;
    TimeoutEffect(o, b);
    Then(o, a, b, c, []);
    EffectTrans(o, s, a, c, notes, []);
    assert notes + [] == notes;
    HeaderTail(o, s, c, notes);
  }

  lemma TimeoutEffect(o: Opts, s: State)
    requires FoldOk(o, s)
    ensures Effect(o, s, TimeoutEvent(o, s), []) && Effect(o, s, s, [])
  {
    hide Adds, Carries, FoldShape;
    Quiet(o, s, s);
    NoteIf(o, s, s.w.enabled, PeriodicUpdate);
  }

  /** The second half of a completed header: status, bad size, or start of a payload. */
  lemma HeaderTail(o: Opts, s: State, c: State, notes: seq<Record>)
    requires Effect(o, s, c, notes) && |c.w.data| == DATA_BUF_SIZE && c.w.size <= DATA_BUF_SIZE
    ensures var d3 := c.w.data[3];
      c.w.status ==>
        var d := StatusEvent(o, c, d3 % 16, Flag(d3, 0x10), Flag(d3, 0x20), d3 / 0x40);
        Effect(o, s, d.(w := d.w.(ptr := 0)), notes)
    ensures var bad := BadSize(FrameSize(c.w));
      Effect(o, s, DesyncError(o, Now(o, c, bad)), notes + ([Info(c.w.ts, bad)] + DesyncNotes(c.w)))
    ensures Effect(o, s, c.(w := StartPayload(c.w, FrameSize(c.w))), notes)
  {
    hide Adds, Carries, FoldShape, Now, Flag, DesyncError, DesyncNotes, FrameSize, StatusEvent;
    assert notes + [] == notes;
    if c.w.status {
      var d3 := c.w.data[3];
      var d := StatusEvent(o, c, d3 % 16, Flag(d3, 0x10), Flag(d3, 0x20), d3 / 0x40);
      StatusEffect(o, c, d3 % 16, Flag(d3, 0x10), Flag(d3, 0x20), d3 / 0x40);
      Quiet(o, d, d.(w := d.w.(ptr := 0)));
      Then(o, c, d, d.(w := d.w.(ptr := 0)), []);
      EffectTrans(o, s, c, d.(w := d.w.(ptr := 0)), notes, []);
    }
    var bad := BadSize(FrameSize(c.w));
    var e := Now(o, c, bad);
    NoteEffect(o, c, bad);
    DesyncEffect(o, e);
    EffectTrans(o, c, e, DesyncError(o, e), [Info(c.w.ts, bad)], DesyncNotes(c.w));
    EffectTrans(o, s, c, DesyncError(o, e), notes, [Info(c.w.ts, bad)] + DesyncNotes(c.w));
    var p := c.(w := StartPayload(c.w, FrameSize(c.w)));
    Quiet(o, c, p);
    EffectTrans(o, s, c, p, notes, []);
  }

  // ---- One byte, whole runs ----

  lemma ByteEffect(o: Opts, s: State, b: byte)
    requires WalkOk(s.w) && FoldOk(o, s)
    ensures Effect(o, s, CaptureSm(o, s, b), WalkSm(o.trigger, s.w, b).1)
  {
    hide Adds, Carries, FoldShape, HeaderDone, WalkHeader, DataEvent;
    var t := s.(w := Store(s.w, b));
    Quiet(o, s, t);
    if t.w.ptr >= t.w.size {
      if t.w.header {
        HeaderEffect(o, t);
        Then(o, s, t, HeaderDone(o, t), WalkHeader(o.trigger, t.w).1);
      } else {
        var u := t.(w := t.w.(header := true));
        Quiet(o, s, u);
        DataEffect(o, u);
        var d := DataEvent(o, u);
        var rs := if u.w.enabled then [Received(u.w)] else [];
        Then(o, s, u, d, rs);
        Quiet(o, d, d.(w := d.w.(ptr := 0)));
        EffectTrans(o, s, d, d.(w := d.w.(ptr := 0)), rs, []);
        assert rs + [] == rs;
      }
    }
  }

  /** How many bytes a feed consumes: all of them unless the record limit ends the capture. */
  function Consumed(o: Opts, s: State, bytes: seq<byte>): (n: nat)
    requires WalkOk(s.w)
    ensures n <= |bytes|
    decreases |bytes|
  {
    if bytes == [] || s.done then 0
    else
      SameWalk(o, s, bytes[0]);
      1 + Consumed(o, CaptureSm(o, s, bytes[0]), bytes[1..])
  }

  /**
   Folding is output-only. Under any options, feeding bytes leaves the walker where the
   reference leaves it, adds exactly the reference's diagnostics and solid frames to the
   output, adds exactly its frames when folding is off, and a subsequence of their
   payloads, pending ones included, when it is on.
   */
  lemma {:induction false} FeedFollowsWalker(o: Opts, s: State, bytes: seq<byte>)
    requires WalkOk(s.w) && FoldOk(o, s)
    ensures var (w, rs) := WalkAll(o.trigger, s.w, bytes[..Consumed(o, s, bytes)]);
      Feed(o, s, bytes).w == w && Effect(o, s, Feed(o, s, bytes), rs)
    decreases |bytes|
  {
    hide Adds, Carries, FoldShape, CaptureSm, WalkSm, WalkOk;
    if bytes == [] || s.done {
      Quiet(o, s, s);
      assert bytes[..0] == [];
    } else {
      var n := Consumed(o, s, bytes);
      var t := CaptureSm(o, s, bytes[0]);
      var (v, r1) := WalkSm(o.trigger, s.w, bytes[0]);
      SameWalk(o, s, bytes[0]);
      ByteEffect(o, s, bytes[0]);
      FeedFollowsWalker(o, t, bytes[1..]);
      assert bytes[..n][1..] == bytes[1..][..n - 1] && bytes[..n][0] == bytes[0];
      var r2 := WalkAll(o.trigger, v, bytes[1..][..n - 1]).1;
      EffectTrans(o, s, t, Feed(o, s, bytes), r1, r2);
    }
  }

  // ---- Two runs ----

  lemma UnlimitedByte(o: Opts, s: State, b: byte)
    requires WalkOk(s.w) && s.limit <= 0
    ensures CaptureSm(o, s, b).limit <= 0 && CaptureSm(o, s, b).done == s.done
  {
    hide LineStateEvent, Refold, FoldOrWrite, DataPrelude, StopFolding, Tick, FrameSize, Flag, ToS64, ToS32, Wrap64,
         EffectiveSpeed, TriggerEnabled, Now, StartPayload, Resync;
    var t := s.(w := Store(s.w, b));
    if t.w.ptr >= t.w.size && t.w.header {
      UnlimitedHeader(o, t);
    }
  }

  lemma UnlimitedDesync(o: Opts, s: State)
    requires s.w.size <= |s.w.data|
    ensures DesyncError(o, s).limit == s.limit && DesyncError(o, s).done == s.done
  {
    hide Now;
  }

  lemma UnlimitedFront(o: Opts, s: State)
    requires |s.w.data| == DATA_BUF_SIZE && s.w.size <= DATA_BUF_SIZE
    ensures var c := HeaderFront(o, s);
      c.limit == s.limit && c.done == s.done && |c.w.data| == DATA_BUF_SIZE && c.w.size <= DATA_BUF_SIZE
  {
    hide Tick, Flag, ToS64, Wrap64, Now, DesyncError;
    var toggle, zero := Flag(s.w.data[0], 0x40), Flag(s.w.data[0], 0x20);
    SameCheck(o, s, toggle, zero);
    UnlimitedCheck(o, s, toggle, zero);
    TickKeeps(CheckHeader(o, s, toggle, zero).w);
  }

  lemma UnlimitedCheck(o: Opts, s: State, toggle: int, zero: int)
    requires s.w.size <= |s.w.data|
    ensures CheckHeader(o, s, toggle, zero).limit == s.limit && CheckHeader(o, s, toggle, zero).done == s.done
  {
    hide Now, DesyncError;
    var t := if toggle != s.w.toggle then Now(o, s, BadToggle(toggle, s.w.toggle)) else s;
    UnlimitedDesync(o, if zero != 0 then Now(o, t, ZeroBitSet) else t);
    if toggle == s.w.toggle && zero == 0 {
    } else {
      assert CheckHeader(o, s, toggle, zero) == DesyncError(o, if zero != 0 then Now(o, t, ZeroBitSet) else t);
    }
  }

  lemma UnlimitedHeader(o: Opts, s: State)
    requires |s.w.data| == DATA_BUF_SIZE && s.w.size <= DATA_BUF_SIZE && s.limit <= 0
    ensures HeaderDone(o, s).limit <= 0 && HeaderDone(o, s).done == s.done
  {
    hide HeaderFront, FrameSize, Flag, Now, StatusEvent, StartPayload, DesyncError;
    UnlimitedFront(o, s);
    var c := HeaderFront(o, s);
    var d3 := c.w.data[3];
    UnlimitedStatus(o, c, d3 % 16, Flag(d3, 0x10), Flag(d3, 0x20), d3 / 0x40);
    UnlimitedDesync(o, Now(o, c, BadSize(FrameSize(c.w))));
  }

  lemma UnlimitedStatus(o: Opts, s: State, ls: int, vbus: int, level: int, speed: int)
    requires s.limit <= 0
    ensures var t := StatusEvent(o, s, ls, vbus, level, speed); t.limit <= 0 && t.done == s.done
  {
    hide LineStateEvent, Refold, ToS32, Wrap64, EffectiveSpeed, TriggerEnabled, Now, LineChange;
    var c := SpeedChange(o, VbusChange(o, TriggerChange(o, s, level), vbus), speed);
    assert c.limit == s.limit && c.done == s.done;
    UnlimitedLine(o, c, ls);
  }

  lemma UnlimitedLine(o: Opts, s: State, ls: int)
    requires s.limit <= 0
    ensures LineChange(o, s, ls).limit <= 0 && LineChange(o, s, ls).done == s.done
  {
    hide LineStateEvent, Refold, ToS32, Wrap64, EffectiveSpeed, Now;
  }

  lemma {:induction false} UnlimitedConsumesAll(o: Opts, s: State, bytes: seq<byte>)
    requires WalkOk(s.w) && s.limit <= 0 && !s.done
    ensures Consumed(o, s, bytes) == |bytes| && !Feed(o, s, bytes).done
    decreases |bytes|
  {
    hide CaptureSm, WalkOk;
    if bytes != [] {
      SameWalk(o, s, bytes[0]);
      UnlimitedByte(o, s, bytes[0]);
      UnlimitedConsumesAll(o, CaptureSm(o, s, bytes[0]), bytes[1..]);
    }
  }

  lemma {:induction false} SubRefl<T>(a: seq<T>)
    ensures Sub(a, a)
    decreases |a|
  {
    if a != [] {
      SubRefl(a[..|a| - 1]);
    }
  }

  /**
   The same bytes with and without folding: equal walker state, identical diagnostics,
   identical solid frames with their timestamps, and the folded run's payloads, pending
   ones included, are a subsequence of the other run's.
   */
  lemma FoldingIsOutputOnly(o: Opts, s: State, bytes: seq<byte>)
    requires WalkOk(s.w) && s.foldBuf == [] && s.foldCount == 0 && s.limit <= 0 && !s.done
    ensures
      var folded, plain := Feed(o.(foldEmpty := true), s, bytes), Feed(o.(foldEmpty := false), s, bytes);
      && folded.w == plain.w
      && Select(Diagnostics, folded.out) == Select(Diagnostics, plain.out)
      && Select(SolidFrames, folded.out) == Select(SolidFrames, plain.out)
      && Sub(Shown(folded), Loads(plain.out))
  {
    hide Sub, CaptureSm, WalkOk;
    var o1, o0 := o.(foldEmpty := true), o.(foldEmpty := false);
    UnlimitedConsumesAll(o1, s, bytes);
    UnlimitedConsumesAll(o0, s, bytes);
    assert bytes[..|bytes|] == bytes;
    FeedFollowsWalker(o1, s, bytes);
    FeedFollowsWalker(o0, s, bytes);
    var rs := WalkAll(o.trigger, s.w, bytes).1;
    TwoViews(o1, o0, s, Feed(o1, s, bytes), Feed(o0, s, bytes), rs);
  }

  lemma TwoViews(o1: Opts, o0: Opts, s: State, folded: State, plain: State, rs: seq<Record>)
    requires Effect(o1, s, folded, rs) && Effect(o0, s, plain, rs) && !o0.foldEmpty && s.foldBuf == []
    ensures Select(Diagnostics, folded.out) == Select(Diagnostics, plain.out)
    ensures Select(SolidFrames, folded.out) == Select(SolidFrames, plain.out)
    ensures Sub(Shown(folded), Loads(plain.out))
  {
    hide Sub, FoldShape;
    SubRefl(Loads(s.out));
    assert Shown(s) == Loads(s.out);
    assert Sub(Shown(s), Loads(s.out));
    LoadsOfFrames(s.out + rs);
    LoadsOfFrames(plain.out);
    SelectConcat(AllFrames, s.out, rs);
    LoadsConcat(s.out, rs);
  }

  lemma {:induction false} LoadsOfFrames(rs: seq<Record>)
    ensures Loads(Select(AllFrames, rs)) == Loads(rs)
  {
    if rs != [] {
      var n := |rs| - 1;
      LoadsOfFrames(rs[..n]);
      if rs[n].Frame? {
        LoadsConcat(Select(AllFrames, rs[..n]), [rs[n]]);
        SelectOne(AllFrames, rs[n]);
      } else {
        assert Select(AllFrames, rs) == Select(AllFrames, rs[..n]);
        assert Loads(rs) == Loads(rs[..n]);
      }
    }
  }
}
