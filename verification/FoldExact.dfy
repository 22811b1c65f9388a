/**
 What folding shows, exactly: which of the frames and keep-alives received are written, which
 are lost, and when those that were held back are said to have happened.
 */
module FoldExact {
  import opened Bytes
  import opened PacketModel
  import opened Walker
  import opened FoldLaws

  /** What reaches the fold: a frame received while the capture runs, or a keep-alive. */
  datatype Heard =
    | Got(ts: u64, data: seq<byte>, flagged: bool, overflow: bool, speedIn: int)
    | Alive(ts: u64)

  const BATCH: nat := 256

  // ---- The rule ----

  /** A start-of-frame folds unless the bus is at low speed and no other speed was selected. */
  predicate SofsFold(o: Opts, speedIn: int) { speedIn != 0 || (o.speed != 0 && o.speed != 3) }

  /** It opens a batch: a keep-alive, or a sound start-of-frame at a speed that has them. */
  predicate Starts(o: Opts, h: Heard) {
    h.Alive? || (!h.flagged && h.data != [] && h.data[0] == 0xA5 && SofsFold(o, h.speedIn))
  }

  /** It stays in the batch: a sound IN or NAK with nothing missing in front of it. */
  predicate Joins(h: Heard) {
    h.Got? && !h.flagged && !h.overflow && h.data != [] && (h.data[0] == 0x69 || h.data[0] == 0x5A)
  }

  /** It shows that the batch of n in front of it was empty, so that this batch is dropped. */
  predicate Closes(o: Opts, h: Heard, n: nat) {
    Starts(o, h) && (h.Alive? || (!h.overflow && n < BATCH))
  }

  /**
   Lost: in a batch, from something that starts one up to something that closes it, with
   nothing but IN and NAK in between.
   */
  ghost predicate Lost(o: Opts, hs: seq<Heard>, i: nat) {
    exists b: nat, j: nat :: b <= i < j < |hs| && j - b <= BATCH && Spans(o, hs, b, j) && Closes(o, hs[j], j - b)
  }

  predicate Spans(o: Opts, hs: seq<Heard>, b: nat, j: nat)
    requires b < j <= |hs|
  {
    Starts(o, hs[b]) && forall k :: b < k < j ==> Joins(hs[k])
  }

  // ---- The same rule from the left ----

  /** How many of the last ones make the open batch. */
  function Open(o: Opts, hs: seq<Heard>): nat {
    if hs == [] then 0
    else
      var n, h := Open(o, hs[..|hs| - 1]), hs[|hs| - 1];
      if Starts(o, h) then 1 else if Joins(h) && 0 < n < BATCH then n + 1 else 0
  }

  function Range(a: nat, b: nat): seq<nat>
    requires a <= b
  {
    seq(b - a, i => a + i)
  }

  lemma {:induction false} OpenFits(o: Opts, hs: seq<Heard>)
    ensures Open(o, hs) <= |hs| && Open(o, hs) <= BATCH
  {
    if hs != [] { OpenFits(o, hs[..|hs| - 1]); }
  }

  /** The batch in front of h is written because h is something else. */
  predicate Ends(o: Opts, n: nat, h: Heard) { n > 0 && !Closes(o, h, n) && !(Joins(h) && n < BATCH) }

  /** The places of those that are written. */
  function Written(o: Opts, hs: seq<Heard>): seq<nat> {
    if hs == [] then []
    else
      var m := |hs| - 1;
      var n := Open(o, hs[..m]);
      OpenFits(o, hs[..m]);
      Written(o, hs[..m]) + (if Ends(o, n, hs[m]) then Range(m - n, m) else []) + (if Open(o, hs) == 0 then [m] else [])
  }

  /** Those shown: written, or still in the open batch. */
  function Places(o: Opts, hs: seq<Heard>): seq<nat> {
    OpenFits(o, hs);
    Written(o, hs) + Range(|hs| - Open(o, hs), |hs|)
  }

  lemma {:induction false} OpenSpans(o: Opts, hs: seq<Heard>)
    ensures var n := Open(o, hs);
      && n <= |hs| && n <= BATCH
      && (n > 0 ==> Spans(o, hs, |hs| - n, |hs|))
      && forall b: nat :: b < |hs| && |hs| - b <= BATCH && Spans(o, hs, b, |hs|) ==> n == |hs| - b
  {
    hide Starts, Joins;
    if hs != [] {
      var m := |hs| - 1;
      var front := hs[..m];
      OpenSpans(o, front);
      NotBoth(o, hs[m]);
      forall b: nat | b < |hs| && |hs| - b <= BATCH && Spans(o, hs, b, |hs|)
        ensures Open(o, hs) == |hs| - b
      {
        if b < m {
          assert Joins(hs[m]);
          assert Spans(o, front, b, m);
        }
      }
    }
  }

  lemma NotBoth(o: Opts, h: Heard)
    ensures !(Starts(o, h) && Joins(h))
  {
  }

  /** What one more changes: the open batch may be lost. */
  lemma LostMore(o: Opts, hs: seq<Heard>, h: Heard, i: nat)
    requires i <= |hs|
    ensures Lost(o, hs + [h], i)
      <==> (i < |hs| && Lost(o, hs, i)) || (|hs| - Open(o, hs) <= i < |hs| && Closes(o, h, Open(o, hs)))
  {
    hide Starts, Joins, Closes, Open;
    var m, all := |hs|, hs + [h];
    OpenSpans(o, hs);
    var n := Open(o, hs);
    if Lost(o, all, i) {
      var b: nat, j: nat :| b <= i < j < |all| && j - b <= BATCH && Spans(o, all, b, j) && Closes(o, all[j], j - b);
      SpansFront(o, hs, h, b, j);
    }
    if i < m && Lost(o, hs, i) {
      var b: nat, j: nat :| b <= i < j < |hs| && j - b <= BATCH && Spans(o, hs, b, j) && Closes(o, hs[j], j - b);
      SpansFront(o, hs, h, b, j);
      assert all[j] == hs[j];
    }
    if m - n <= i < m && Closes(o, h, n) {
      SpansFront(o, hs, h, m - n, m);
      assert all[m] == h;
    }
  }

  lemma SpansFront(o: Opts, hs: seq<Heard>, h: Heard, b: nat, j: nat)
    requires b < j <= |hs|
    ensures Spans(o, hs + [h], b, j) == Spans(o, hs, b, j)
  {
    hide Starts, Joins;
    assert forall k :: b <= k < j ==> (hs + [h])[k] == hs[k];
  }

  predicate Ascending(at: seq<nat>) { forall a, b :: 0 <= a < b < |at| ==> at[a] < at[b] }

  lemma RangeHas(a: nat, b: nat)
    requires a <= b
    ensures Ascending(Range(a, b)) && forall i: nat :: i in Range(a, b) <==> a <= i < b
  {
    forall i: nat | a <= i < b ensures i in Range(a, b) { assert Range(a, b)[i - a] == i; }
  }

  lemma AscendJoin(a: seq<nat>, b: seq<nat>, k: nat)
    requires Ascending(a) && Ascending(b) && (forall i :: i in a ==> i < k) && forall i :: i in b ==> k <= i
    ensures Ascending(a + b)
  {
    forall x, y | 0 <= x < y < |a + b| ensures (a + b)[x] < (a + b)[y] {
      assert x < |a| ==> a[x] in a;
      assert y >= |a| ==> b[y - |a|] in b;
    }
  }

  /**
   What one more does: the open batch is dropped, goes on, or is written; and it starts one, joins
   it, or is written.
   */
  lemma Step(o: Opts, hs: seq<Heard>)
    requires hs != []
    ensures var m := |hs| - 1;
      var n, h := Open(o, hs[..m]), hs[m];
      && n <= m
      && if Closes(o, h, n) then Open(o, hs) == 1 && Written(o, hs) == Written(o, hs[..m])
         else if Joins(h) && 0 < n < BATCH then Open(o, hs) == n + 1 && Written(o, hs) == Written(o, hs[..m])
         else Written(o, hs) + Range(|hs| - Open(o, hs), |hs|) == Written(o, hs[..m]) + Range(m - n, m) + [m]
              && Open(o, hs) == (if Starts(o, h) then 1 else 0)
              && Written(o, hs) == Written(o, hs[..m]) + Range(m - n, m) + (if Starts(o, h) then [] else [m])
  {
    hide Starts, Joins, Closes, Open, Range, Written;
    var m := |hs| - 1;
    var n, h, w := Open(o, hs[..m]), hs[m], Written(o, hs[..m]);
    OpenFits(o, hs[..m]);
    OpenNow(o, hs);
    NotBoth(o, h);
    CloseStarts(o, h, n);
    WrittenNow(o, hs);
    Single(m);
    Nothing(w);
    Nothing(w + Range(m - n, m));
    Nothing(w + Range(m - n, m) + [m]);
    Single(m + 1);
  }

  lemma Nothing(w: seq<nat>)
    ensures w + [] == w
  {
  }

  lemma OpenNow(o: Opts, hs: seq<Heard>)
    requires hs != []
    ensures var m := |hs| - 1;
      var n, h := Open(o, hs[..m]), hs[m];
      Open(o, hs) == if Starts(o, h) then 1 else if Joins(h) && 0 < n < BATCH then n + 1 else 0
  {
  }

  lemma WrittenNow(o: Opts, hs: seq<Heard>)
    requires hs != []
    ensures var m := |hs| - 1;
      var n, h := Open(o, hs[..m]), hs[m];
      && n <= m
      && Written(o, hs)
         == Written(o, hs[..m]) + (if Ends(o, n, h) then Range(m - n, m) else [])
            + (if Open(o, hs) == 0 then [m] else [])
  {
    hide Starts, Joins, Closes, Open, Range;
    OpenFits(o, hs[..|hs| - 1]);
  }

  lemma {:induction false} PlacesAscend(o: Opts, hs: seq<Heard>)
    ensures Open(o, hs) <= |hs|
    ensures Ascending(Written(o, hs)) && forall i :: i in Written(o, hs) ==> i < |hs| - Open(o, hs)
  {
    hide Starts, Joins, Closes, Written, Open, Range, Ascending;
    OpenFits(o, hs);
    if hs == [] {
      NothingWritten(o);
    } else {
      var m := |hs| - 1;
      PlacesAscend(o, hs[..m]);
      Step(o, hs);
      var n, w := Open(o, hs[..m]), Written(o, hs[..m]);
      RangeHas(m - n, m);
      RangeHas(m, m + 1);
      Single(m);
      AscendJoin(w, Range(m - n, m), m - n);
      AscendJoin(w + Range(m - n, m), [m], m);
      assert w + Range(m - n, m) + [] == w + Range(m - n, m);
    }
  }

  lemma NothingWritten(o: Opts)
    ensures Written(o, []) == [] && Ascending([]) && Open(o, []) == 0
  {
  }

  lemma Single(m: nat)
    ensures Ascending([m]) && Range(m, m + 1) == [m] && Range(m, m) == []
  {
  }

  lemma PlaceStep(o: Opts, hs: seq<Heard>, i: nat)
    requires hs != [] && i < |hs|
    ensures var m := |hs| - 1;
      var front := hs[..m];
      var n := Open(o, front);
      n <= m
      && (i in Places(o, hs) <==> i == m || (i in Places(o, front) && !(m - n <= i && Closes(o, hs[m], n))))
  {
    hide Starts, Joins, Closes, Written, Open, Range;
    var m := |hs| - 1;
    var n := Open(o, hs[..m]);
    OpenFits(o, hs[..m]);
    OpenFits(o, hs);
    PlacesAscend(o, hs[..m]);
    CloseStarts(o, hs[m], n);
    NotBoth(o, hs[m]);
    Step(o, hs);
    Single(m);
    RangeHas(m - n, m);
    RangeHas(|hs| - Open(o, hs), |hs|);
  }

  lemma CloseStarts(o: Opts, h: Heard, n: nat)
    ensures Closes(o, h, n) ==> Starts(o, h)
  {
  }

  /** The rule, both ways: what is written or still held back is exactly what is not lost. */
  lemma {:induction false} ShownUnlessLost(o: Opts, hs: seq<Heard>, i: nat)
    requires i < |hs|
    ensures i in Places(o, hs) <==> !Lost(o, hs, i)
  {
    hide Starts, Joins, Closes, Lost;
    var m := |hs| - 1;
    var front, h := hs[..m], hs[m];
    assert hs == front + [h];
    OpenFits(o, front);
    OpenFits(o, hs);
    LostMore(o, front, h, i);
    PlacesAscend(o, front);
    PlaceStep(o, hs, i);
    if i < m { ShownUnlessLost(o, front, i); }
  }
}
