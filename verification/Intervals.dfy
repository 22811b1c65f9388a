/** Coverage accounting of tools/patcheck.py: which octets of a pattern file were seen, and which were not. */
module Intervals {
  const PACKET: int := 512

  datatype Interval = Interval(lo: int, hi: int)

  function Range(lo: int, hi: int): (r: set<int>)
    ensures forall x :: x in r <==> lo <= x < hi
    ensures lo <= hi ==> |r| == hi - lo
    decreases hi - lo
  {
    if lo < hi then Range(lo, hi - 1) + {hi - 1} else {}
  }

  /** The octets that packets starting at these offsets cover. */
  function Covered(starts: seq<int>): set<int> {
    if starts == [] then {}
    else var n := |starts| - 1; Covered(starts[..n]) + Range(starts[n], starts[n] + PACKET)
  }

  function Union(ivs: seq<Interval>): set<int> {
    if ivs == [] then {}
    else var n := |ivs| - 1; Union(ivs[..n]) + Range(ivs[n].lo, ivs[n].hi)
  }

  lemma {:induction false} CoveredBySome(starts: seq<int>, x: int)
    ensures x in Covered(starts) <==> exists s :: s in starts && s <= x < s + 512
  {
    if starts != [] {
      var n := |starts| - 1;
      CoveredBySome(starts[..n], x);
      assert starts == starts[..n] + [starts[n]];
      InRange(starts[n], starts[n] + PACKET, x);
      if x in Range(starts[n], starts[n] + PACKET) {
        assert starts[n] in starts;
      } else if x in Covered(starts) {
        var s :| s in starts[..n] && s <= x < s + PACKET;
        assert s in starts;
      }
      forall s | s in starts && s <= x < s + PACKET ensures x in Covered(starts) {
        if s != starts[n] { assert s in starts[..n]; }
      }
    }
  }

  lemma InRange(lo: int, hi: int, x: int)
    ensures x in Range(lo, hi) <==> lo <= x < hi
  {
  }

  lemma {:induction false} UnionFrom(ivs: seq<Interval>, x: int)
    requires Normal(ivs) && x in Union(ivs)
    ensures ivs != [] && ivs[0].lo <= x < ivs[|ivs| - 1].hi
  {
    hide Range;
    var n := |ivs| - 1;
    if x in Union(ivs[..n]) { UnionFrom(ivs[..n], x); }
  }

  /** In order, with something between any two, and word-aligned. */
  predicate Normal(ivs: seq<Interval>) {
    && (forall i :: 0 <= i < |ivs| ==> ivs[i].lo < ivs[i].hi && ivs[i].lo % 4 == 0 && ivs[i].hi % 4 == 0)
    && (forall i, j :: 0 <= i < j < |ivs| ==> ivs[i].hi < ivs[j].lo)
  }

  function Words(ivs: seq<Interval>): int {
    if ivs == [] then 0
    else var n := |ivs| - 1; Words(ivs[..n]) + (ivs[n].hi - ivs[n].lo) / 4
  }

  /** Disjoint intervals add up. */
  lemma {:induction false} WordsCount(ivs: seq<Interval>)
    requires Normal(ivs)
    ensures |Union(ivs)| == 4 * Words(ivs)
  {
    hide Range, Normal;
    if ivs != [] {
      var n := |ivs| - 1;
      InitNormal(ivs);
      WordsCount(ivs[..n]);
      LastCount(ivs);
    }
  }

  lemma LastCount(ivs: seq<Interval>)
    requires Normal(ivs) && ivs != []
    ensures var n := |ivs| - 1;
      |Union(ivs)| == |Union(ivs[..n])| + (ivs[n].hi - ivs[n].lo) && (ivs[n].hi - ivs[n].lo) % 4 == 0
  {
    hide Normal;
    var n := |ivs| - 1;
    InitNormal(ivs);
    LastApart(ivs);
    DisjointSizes(Union(ivs[..n]), Range(ivs[n].lo, ivs[n].hi));
  }

  lemma LastApart(ivs: seq<Interval>)
    requires Normal(ivs) && ivs != []
    ensures Union(ivs[..|ivs| - 1]) !! Range(ivs[|ivs| - 1].lo, ivs[|ivs| - 1].hi)
  {
    hide Normal, Union;
    var n := |ivs| - 1;
    InitNormal(ivs);
    forall x | x in Union(ivs[..n]) ensures x !in Range(ivs[n].lo, ivs[n].hi) { UnionFrom(ivs[..n], x); }
  }

  lemma DisjointSizes(a: set<int>, b: set<int>)
    requires a !! b
    ensures |a + b| == |a| + |b|
  {
  }

  lemma InitNormal(ivs: seq<Interval>)
    requires Normal(ivs) && ivs != []
    ensures var n := |ivs| - 1;
      && Normal(ivs[..n]) && ivs[n].lo < ivs[n].hi && ivs[n].lo % 4 == 0 && ivs[n].hi % 4 == 0
      && (n > 0 ==> ivs[n - 1].hi < ivs[n].lo)
  {
  }

  // ---- sorted ----

  predicate Sorted(s: seq<int>) { forall i, j :: 0 <= i <= j < |s| ==> s[i] <= s[j] }

  function Insert(x: int, s: seq<int>): (r: seq<int>)
    requires Sorted(s)
    ensures Sorted(r) && multiset(r) == multiset(s) + multiset{x} && |r| == |s| + 1
  {
    if s == [] || x <= s[0] then [x] + s
    else
      var t := Insert(x, s[1..]);
      HeadFirst(x, s, t);
      [s[0]] + t
  }

  lemma HeadFirst(x: int, s: seq<int>, t: seq<int>)
    requires s != [] && Sorted(s) && s[0] < x && Sorted(t) && multiset(t) == multiset(s[1..]) + multiset{x}
    ensures Sorted([s[0]] + t) && multiset([s[0]] + t) == multiset(s) + multiset{x}
  {
    assert s == [s[0]] + s[1..];
    forall i | 0 <= i < |t| ensures s[0] <= t[i] {
      assert t[i] in multiset(t);
      if t[i] != x {
        assert t[i] in multiset(s[1..]);
        assert t[i] in s[1..];
      }
    }
  }

  function Sort(s: seq<int>): (r: seq<int>)
    ensures Sorted(r) && multiset(r) == multiset(s) && |r| == |s|
  {
    if s == [] then []
    else
      assert s == s[..|s| - 1] + [s[|s| - 1]];
      Insert(s[|s| - 1], Sort(s[..|s| - 1]))
  }

  lemma SortCovers(s: seq<int>)
    ensures Covered(Sort(s)) == Covered(s)
  {
    forall x ensures x in Covered(Sort(s)) <==> x in Covered(s) {
      CoveredBySome(s, x);
      CoveredBySome(Sort(s), x);
      assert forall y :: y in s <==> y in multiset(s);
      assert forall y :: y in Sort(s) <==> y in multiset(Sort(s));
    }
  }

  predicate Aligned(starts: seq<int>) { forall s :: s in starts ==> s % 4 == 0 }

  lemma SortAligned(s: seq<int>)
    requires Aligned(s)
    ensures Aligned(Sort(s))
  {
    hide Sort, Sorted;
    forall y | y in Sort(s) ensures y % 4 == 0 {
      assert y in multiset(Sort(s));
      assert y in multiset(s);
      assert y in s;
    }
  }

  // ---- merge_intervals ----

  /**
   What merge_intervals returns is in order, disjoint and not even touching; it covers
   exactly the octets of the packets, and the word count is the number of those octets.
   */
  method MergeIntervals(starts: seq<int>) returns (coveredWords: int, merged: seq<Interval>)
    requires Aligned(starts)
    ensures Normal(merged) && Union(merged) == Covered(starts)
    ensures coveredWords == Words(merged) && 4 * coveredWords == |Covered(starts)|
    ensures starts != [] ==>
              merged != [] && merged[0].lo == Sort(starts)[0]
              && merged[|merged| - 1].hi == Sort(starts)[|starts| - 1] + PACKET
    ensures starts == [] ==> merged == []
  {
    hide Range, Sort, Normal, Sorted, Words, Union, Covered, Aligned;
    SortAligned(starts);
    SortCovers(starts);
    if starts == [] {
      NoIntervals();
      return 0, NONE;
    }
    var ss := Sort(starts);
    merged := [];
    var cs, ce := ss[0], ss[0] + PACKET;
    FirstPacket(ss);
    for n := 1 to |ss|
      invariant Normal(merged + [Interval(cs, ce)])
      invariant Union(merged) + Range(cs, ce) == Covered(ss[..n])
      invariant cs <= ss[n - 1] && ce == ss[n - 1] + PACKET
      invariant (merged + [Interval(cs, ce)])[0].lo == ss[0]
    {
      var s, e := ss[n], ss[n] + PACKET;
      ghost var before := merged + [Interval(cs, ce)];
      NextStart(ss, n);
      if s <= ce {
        Overlap(cs, ce, s, e);
        Stretch(merged, cs, ce, e);
        if e > ce {
          ce := e;
        }
      } else {
        UnionSnoc(merged, Interval(cs, ce));
        merged := merged + [Interval(cs, ce)];
        cs, ce := s, e;
        NewInterval(before, s, e);
      }
    }
    assert ss[..|ss|] == ss;
    UnionSnoc(merged, Interval(cs, ce));
    merged := merged + [Interval(cs, ce)];
    WordsCount(merged);
    coveredWords := SumWords(merged);
  }

  const NONE: seq<Interval> := []

  lemma UnionSnoc(ivs: seq<Interval>, iv: Interval)
    ensures Union(ivs + [iv]) == Union(ivs) + Range(iv.lo, iv.hi)
  {
    hide Range;
    assert (ivs + [iv])[..|ivs|] == ivs;
  }

  lemma NoIntervals()
    ensures Normal(NONE) && Union(NONE) == Covered([]) == {} && Words(NONE) == 0 && Range(0, 0) == {}
  {
  }

  lemma StepThrough(ivs: seq<Interval>, n: nat)
    requires Normal(ivs) && n < |ivs|
    ensures Normal(ivs[..n + 1]) && ivs[..n + 1] == ivs[..n] + [ivs[n]]
    ensures ivs[n].lo < ivs[n].hi && ivs[n].lo % 4 == 0 && ivs[n].hi % 4 == 0
    ensures n > 0 ==> ivs[n - 1].hi < ivs[n].lo && ivs[0].lo < ivs[n - 1].hi
    ensures 4 * Words(ivs[..n + 1]) == 4 * Words(ivs[..n]) + ivs[n].hi - ivs[n].lo
  {
    hide Words;
    assert ivs[..n + 1] == ivs[..n] + [ivs[n]];
    WordsSnoc(ivs[..n], ivs[n]);
    WholeWords(ivs[n].lo, ivs[n].hi);
    if n > 1 { assert ivs[0].hi < ivs[n - 1].lo; }
  }

  lemma WordsSnoc(ivs: seq<Interval>, iv: Interval)
    ensures Words(ivs + [iv]) == Words(ivs) + (iv.hi - iv.lo) / 4
  {
    assert (ivs + [iv])[..|ivs|] == ivs;
  }

  lemma FirstPacket(ss: seq<int>)
    requires ss != [] && Aligned(ss)
    ensures Normal(NONE + [Interval(ss[0], ss[0] + PACKET)])
    ensures Union(NONE) + Range(ss[0], ss[0] + PACKET) == Covered(ss[..1])
  {
    hide Range, Covered, Union, Normal;
    assert ss[0] in ss;
    NoIntervals();
    OneInterval(ss[0], ss[0] + PACKET);
    assert ss[..1] == [ss[0]];
    OneCovered(ss[0]);
  }

  lemma OneInterval(lo: int, hi: int)
    requires lo < hi && lo % 4 == 0 && hi % 4 == 0
    ensures Normal(NONE + [Interval(lo, hi)])
  {
    assert NONE + [Interval(lo, hi)] == [Interval(lo, hi)];
  }

  lemma OneCovered(s: int)
    ensures Covered([s]) == Range(s, s + PACKET)
  {
    hide Range;
    assert [s][..0] == [];
  }

  lemma NextStart(ss: seq<int>, n: nat)
    requires Sorted(ss) && Aligned(ss) && 0 < n < |ss|
    ensures ss[n - 1] <= ss[n] && ss[n] % 4 == 0 && ss[n - 1] % 4 == 0
    ensures Covered(ss[..n + 1]) == Covered(ss[..n]) + Range(ss[n], ss[n] + PACKET)
  {
    hide Range;
    assert ss[n] in ss && ss[n - 1] in ss && ss[..n + 1][..n] == ss[..n];
  }

  lemma Overlap(cs: int, ce: int, s: int, e: int)
    requires cs <= s <= ce <= e
    ensures Range(cs, ce) + Range(s, e) == Range(cs, e)
  {
  }

  lemma NewInterval(ivs: seq<Interval>, lo: int, hi: int)
    requires Normal(ivs) && ivs != [] && ivs[|ivs| - 1].hi < lo < hi && lo % 4 == 0 && hi % 4 == 0
    ensures Normal(ivs + [Interval(lo, hi)]) && (ivs + [Interval(lo, hi)])[0] == ivs[0]
  {
    var a := ivs + [Interval(lo, hi)];
    forall i, j | 0 <= i < j < |a| ensures a[i].hi < a[j].lo {
      if j == |ivs| && i < j - 1 { assert ivs[i].hi < ivs[j - 1].lo; }
    }
  }

  lemma Stretch(ivs: seq<Interval>, lo: int, hi: int, hi': int)
    requires Normal(ivs + [Interval(lo, hi)]) && hi <= hi' && hi' % 4 == 0
    ensures Normal(ivs + [Interval(lo, hi')])
    ensures (ivs + [Interval(lo, hi')])[0].lo == (ivs + [Interval(lo, hi)])[0].lo
  {
    var a, b := ivs + [Interval(lo, hi)], ivs + [Interval(lo, hi')];
    forall i | 0 <= i < |b| ensures b[i].lo == a[i].lo && (i < |ivs| ==> b[i] == a[i]) {}
  }

  method SumWords(ivs: seq<Interval>) returns (words: int)
    ensures words == Words(ivs)
  {
    words := 0;
    for i := 0 to |ivs|
      invariant words == Words(ivs[..i])
    {
      assert ivs[..i + 1][..i] == ivs[..i];
      words := words + (ivs[i].hi - ivs[i].lo) / 4;
    }
    assert ivs[..|ivs|] == ivs;
  }

  // ---- The gaps ----

  /**
   The two independent counts of what is missing agree: words of the span less words
   covered, and words between the merged intervals.
   */
  method Account(starts: seq<int>) returns (missingWords: int, gapWords: int, gaps: seq<Interval>)
    requires Aligned(starts)
    ensures missingWords == gapWords == Words(gaps) && Normal(gaps)
    ensures starts != [] ==>
              var all := Range(Sort(starts)[0], Sort(starts)[|starts| - 1] + PACKET);
              Union(gaps) == all - Covered(starts) && 4 * gapWords == |all - Covered(starts)|
    ensures starts == [] ==> gaps == []
  {
    hide Range, Sort, Normal, Sorted, Words, Union, Covered, Aligned;
    var coveredWords, merged := MergeIntervals(starts);
    SortAligned(starts);
    gaps := NONE;
    NoIntervals();
    if starts == [] {
      return 0, 0, NONE;
    }
    var spanLo, spanHi := Sort(starts)[0], Sort(starts)[|starts| - 1] + PACKET;
    var spanWords := (spanHi - spanLo) / 4;
    missingWords := spanWords - coveredWords;
    var prevEnd := spanLo;
    StepThrough(merged, 0);
    assert merged[..0] == NONE && Range(spanLo, spanLo) == {} by { NoRange(spanLo); }
    for n := 0 to |merged|
      invariant Normal(gaps) && (gaps != [] ==> gaps[|gaps| - 1].hi < prevEnd)
      invariant prevEnd == if n == 0 then spanLo else merged[n - 1].hi
      invariant prevEnd % 4 == 0 && spanLo % 4 == 0 && spanLo <= prevEnd
      invariant 4 * (Words(gaps) + Words(merged[..n])) == prevEnd - spanLo
      invariant Union(gaps) == Range(spanLo, prevEnd) - Union(merged[..n])
    {
      var iv := merged[n];
      StepThrough(merged, n);
      GapStep(gaps, if iv.lo > prevEnd then gaps + [Interval(prevEnd, iv.lo)] else gaps,
              merged[..n], iv, spanLo, prevEnd);
      if iv.lo > prevEnd {
        AppendGap(gaps, prevEnd, iv.lo);
        gaps := gaps + [Interval(prevEnd, iv.lo)];
      }
      prevEnd := if prevEnd > iv.hi then prevEnd else iv.hi;
    }
    assert merged[..|merged|] == merged;
    gapWords := SumWords(gaps);
    WordsCount(gaps);
  }

  lemma NoRange(lo: int)
    ensures Range(lo, lo) == {}
  {
  }

  lemma AppendGap(gaps: seq<Interval>, lo: int, hi: int)
    requires Normal(gaps) && (gaps != [] ==> gaps[|gaps| - 1].hi < lo) && lo < hi && lo % 4 == 0 && hi % 4 == 0
    ensures Normal(gaps + [Interval(lo, hi)]) && 4 * Words(gaps + [Interval(lo, hi)]) == 4 * Words(gaps) + hi - lo
  {
    hide Normal, Words;
    WordsSnoc(gaps, Interval(lo, hi));
    WholeWords(lo, hi);
    GapNormal(gaps, lo, hi);
  }

  lemma WholeWords(lo: int, hi: int)
    requires lo % 4 == 0 && hi % 4 == 0
    ensures 4 * ((hi - lo) / 4) == hi - lo
  {
  }

  lemma GapNormal(gaps: seq<Interval>, lo: int, hi: int)
    requires Normal(gaps) && (gaps != [] ==> gaps[|gaps| - 1].hi < lo) && lo < hi && lo % 4 == 0 && hi % 4 == 0
    ensures Normal(gaps + [Interval(lo, hi)])
  {
    if gaps != [] { NewInterval(gaps, lo, hi); }
  }

  lemma GapStep(g: seq<Interval>, g': seq<Interval>, before: seq<Interval>, iv: Interval, lo: int, p: int)
    requires Normal(before + [iv]) && lo <= p <= iv.lo
    requires before == [] ==> lo == iv.lo == p
    requires before != [] ==> before[0].lo == lo && before[|before| - 1].hi == p
    requires Union(g) == Range(lo, p) - Union(before)
    requires if iv.lo > p then g' == g + [Interval(p, iv.lo)] else g' == g
    ensures Union(g') == Range(lo, iv.hi) - Union(before + [iv])
  {
    hide Normal;
    UnionSnoc(before, iv);
    if iv.lo > p { UnionSnoc(g, Interval(p, iv.lo)); }
    InitNormal(before + [iv]);
    assert (before + [iv])[..|before|] == before;
    assert iv.lo < iv.hi;
    forall x | x in Union(before) ensures lo <= x < p { UnionFrom(before, x); }
    GapSets(Union(g), Union(before), lo, p, iv.lo, iv.hi);
  }

  lemma GapSets(g: set<int>, u: set<int>, lo: int, p: int, a: int, b: int)
    requires lo <= p <= a < b && g == Range(lo, p) - u && forall x :: x in u ==> lo <= x < p
    ensures g + Range(p, a) == Range(lo, b) - (u + Range(a, b))
    ensures a == p ==> g == Range(lo, b) - (u + Range(a, b))
  {
    hide Range;
    forall x ensures x in g + Range(p, a) <==> x in Range(lo, b) - (u + Range(a, b)) {
      InRange(lo, p, x);
      InRange(p, a, x);
      InRange(lo, b, x);
      InRange(a, b, x);
    }
    if a == p { NoRange(p); }
  }
}
