/**
 How many loss reports a stream causes and which blocks it delivers, told from the offsets
 of its blocks alone: no alignment, no state, no buffer.
 */
module LossReports {
  import opened Bytes
  import opened UhsifBlock
  import opened BlockParse
  import opened BlockLaws

  /** The first offset from i on with a valid header, or the end. */
  function NextHeader(s: seq<byte>, i: nat): (k: nat)
    requires i <= |s|
    ensures i <= k <= |s| && (k < |s| ==> HeaderAt(s, k))
    ensures forall j :: i <= j < k ==> !HeaderAt(s, j)
    decreases |s| - i
  {
    if i == |s| || HeaderAt(s, i) then i else NextHeader(s, i + 1)
  }

  predicate BlockAt(s: seq<byte>, k: nat) { HeaderAt(s, k) && k + BlockSize(s[k..]) <= |s| }

  function End(s: seq<byte>, k: nat): nat
    requires BlockAt(s, k)
    ensures k < End(s, k) <= |s|
  {
    k + BlockSize(s[k..])
  }

  function SeqAt(s: seq<byte>, k: nat): byte
    requires BlockAt(s, k)
  {
    BlkSeq(s[k..])
  }

  function TakenAt(s: seq<byte>, k: nat): Event
    requires BlockAt(s, k)
    ensures !TakenAt(s, k).Rsync?
  {
    Delivered(s[k..])
  }

  predicate AllBlocks(s: seq<byte>, ks: seq<nat>) { forall k :: k in ks ==> BlockAt(s, k) }

  /** The blocks taken when the search for the next one starts where the last one ended. */
  function Starts(s: seq<byte>, i: nat): (ks: seq<nat>)
    requires i <= |s|
    ensures AllBlocks(s, ks)
    decreases |s| - i
  {
    var k := NextHeader(s, i);
    if !BlockAt(s, k) then [] else [k] + Starts(s, End(s, k))
  }

  function Blocks(s: seq<byte>, ks: seq<nat>): seq<Event>
    requires AllBlocks(s, ks)
  {
    if ks == [] then []
    else
      assert ks[0] in ks && AllBlocks(s, ks[1..]);
      [TakenAt(s, ks[0])] + Blocks(s, ks[1..])
  }

  /** A gap before a block, or a jump of the sequence number between adjacent blocks, and a gap at the end. */
  function Losses(s: seq<byte>, end: nat, last: byte, ks: seq<nat>): nat
    requires end <= |s| && AllBlocks(s, ks)
    decreases |ks|
  {
    if ks == [] then (if end + ACK_SIZE <= |s| && !HeaderAt(s, end) then 1 else 0)
    else
      assert ks[0] in ks && AllBlocks(s, ks[1..]);
      var k := ks[0];
      (if k != end || SeqAt(s, k) != (last + 1) % 256 then 1 else 0) + Losses(s, End(s, k), SeqAt(s, k), ks[1..])
  }

  function Reports(es: seq<Event>): nat {
    if es == [] then 0 else (if es[0].Rsync? then 1 else 0) + Reports(es[1..])
  }

  lemma {:induction false} ReportsConcat(a: seq<Event>, b: seq<Event>)
    ensures Reports(a + b) == Reports(a) + Reports(b)
  {
    if a == [] {
      assert a + b == b;
    } else {
      assert (a + b)[1..] == a[1..] + b;
      ReportsConcat(a[1..], b);
    }
  }

  lemma ScanFrom(s: seq<byte>, i: nat)
    requires i <= |s|
    ensures Parse(START, s[i..]) == Parse(START, s[NextHeader(s, i)..])
  {
    hide HeaderValid;
    var k, t := NextHeader(s, i), s[i..];
    forall j | 0 <= j < k - i ensures !HeaderAt(t, j) {
      assert !HeaderAt(s, i + j);
      if i + j + ACK_SIZE <= |s| { assert t[j..] == s[i + j..]; }
    }
    ScanTo(t, k - i);
    assert t[k - i..] == s[k..];
  }

  lemma OneBlock(y: Sync, s: seq<byte>, k: nat)
    requires BlockAt(s, k)
    ensures var jump := y.last.Seq? && SeqAt(s, k) != (y.last.value + 1) % 256;
      Parse(y, s[k..]) == (if jump then [Rsync] else []) + [TakenAt(s, k)]
                          + Parse(Sync(true, Seq(SeqAt(s, k))), s[End(s, k)..])
  {
    hide HeaderValid, PayloadWords, BlkSeq;
    assert s[k..][BlockSize(s[k..])..] == s[End(s, k)..];
  }

  /** What the stream holds from the end of a block on. */
  predicate Counted(s: seq<byte>, end: nat, last: byte)
    requires end <= |s|
  {
    var es := Parse(Sync(true, Seq(last)), s[end..]);
    Reports(es) == Losses(s, end, last, Starts(s, end)) && Deliveries(es) == Blocks(s, Starts(s, end))
  }

  lemma AdjacentBlock(s: seq<byte>, end: nat, last: byte)
    requires end <= |s| && BlockAt(s, end) && Counted(s, End(s, end), SeqAt(s, end))
    ensures Counted(s, end, last)
  {
    hide HeaderValid, PayloadWords, BlkSeq, BlockSize, SeqAt, TakenAt, Parse, Starts;
    OneBlock(Sync(true, Seq(last)), s, end);
    StartsAt(s, end);
    Tally(SeqAt(s, end) != (last + 1) % 256, TakenAt(s, end), Parse(Sync(true, Seq(SeqAt(s, end))), s[End(s, end)..]));
  }

  lemma StartsAt(s: seq<byte>, i: nat)
    requires i <= |s|
    ensures var k := NextHeader(s, i);
      Starts(s, i) == (if !BlockAt(s, k) then [] else [k] + Starts(s, End(s, k))) && (HeaderAt(s, i) ==> k == i)
  {
    hide HeaderValid, BlockSize;
  }

  lemma GapParse(s: seq<byte>, end: nat, last: byte)
    requires end + ACK_SIZE <= |s| && !HeaderAt(s, end)
    ensures Parse(Sync(true, Seq(last)), s[end..]) == [Rsync] + Parse(START, s[NextHeader(s, end)..])
  {
    hide HeaderValid, BlockSize, PayloadWords, BlkSeq;
    ScanFrom(s, end);
  }

  lemma BlockAfterGap(s: seq<byte>, end: nat, last: byte, k: nat)
    requires end + ACK_SIZE <= |s| && !HeaderAt(s, end) && k == NextHeader(s, end) && BlockAt(s, k)
    requires Counted(s, End(s, k), SeqAt(s, k))
    ensures Counted(s, end, last)
  {
    hide HeaderValid, PayloadWords, BlkSeq, BlockSize, SeqAt, TakenAt, Parse, Starts;
    GapParse(s, end, last);
    OneBlock(START, s, k);
    StartsAt(s, end);
    var rest := Parse(Sync(true, Seq(SeqAt(s, k))), s[End(s, k)..]);
    assert [Rsync] + ([] + [TakenAt(s, k)] + rest) == [Rsync] + [TakenAt(s, k)] + rest;
    Tally(true, TakenAt(s, k), rest);
  }

  lemma NoBlockLeft(s: seq<byte>, end: nat, last: byte)
    requires end <= |s| && !BlockAt(s, NextHeader(s, end))
    ensures Counted(s, end, last)
  {
    hide HeaderValid, PayloadWords, BlkSeq, SeqAt, TakenAt, Starts;
    StartsAt(s, end);
    var k := NextHeader(s, end);
    if end + ACK_SIZE <= |s| && !HeaderAt(s, end) {
      GapParse(s, end, last);
      assert Parse(START, s[k..]) == [];
      OneReport();
    } else {
      assert Parse(Sync(true, Seq(last)), s[end..]) == [];
    }
  }

  /** From the end of one block on: one report for each loss, and exactly the blocks. */
  lemma {:induction false} AlignedLosses(s: seq<byte>, end: nat, last: byte)
    requires end <= |s|
    ensures var es := Parse(Sync(true, Seq(last)), s[end..]);
      Reports(es) == Losses(s, end, last, Starts(s, end)) && Deliveries(es) == Blocks(s, Starts(s, end))
    decreases |s| - end
  {
    hide HeaderValid, PayloadWords, BlkSeq, BlockSize, SeqAt, Parse, Starts, Losses, Blocks;
    var k := NextHeader(s, end);
    if !BlockAt(s, k) {
      NoBlockLeft(s, end, last);
    } else {
      AlignedLosses(s, End(s, k), SeqAt(s, k));
      if k == end { AdjacentBlock(s, end, last); } else { BlockAfterGap(s, end, last, k); }
    }
  }

  lemma OneReport()
    ensures Reports([Rsync]) == 1 && Deliveries([Rsync]) == [] && [Rsync] + [] == [Rsync]
  {
    assert [Rsync][1..] == [];
  }

  lemma Tally(jump: bool, d: Event, rest: seq<Event>)
    requires !d.Rsync?
    ensures var es := (if jump then [Rsync] else []) + [d] + rest;
      Reports(es) == (if jump then 1 else 0) + Reports(rest) && Deliveries(es) == [d] + Deliveries(rest)
  {
    OneReport();
    assert [d][1..] == [];
    var front := (if jump then [Rsync] else []) + [d];
    if jump {
      assert front[1..] == [d];
    } else {
      assert front == [d];
    }
    ReportsConcat(front, rest);
    DeliveriesConcat(front, rest);
    assert Reports([d]) == 0 && Deliveries([d]) == [d];
  }

  /** A whole stream: nothing is reported up to the first block, and from its end on as above. */
  lemma StreamLosses(s: seq<byte>)
    ensures var es, ks := Parse(START, s), Starts(s, 0);
      && Deliveries(es) == Blocks(s, ks)
      && Reports(es) == if ks == [] then 0 else Losses(s, End(s, ks[0]), SeqAt(s, ks[0]), ks[1..])
  {
    hide HeaderValid, PayloadWords, BlkSeq, BlockSize, SeqAt, TakenAt;
    var k := NextHeader(s, 0);
    assert s[0..] == s;
    ScanFrom(s, 0);
    if BlockAt(s, k) {
      OneBlock(START, s, k);
      AlignedLosses(s, End(s, k), SeqAt(s, k));
      Tally(false, TakenAt(s, k), Parse(Sync(true, Seq(SeqAt(s, k))), s[End(s, k)..]));
    } else {
      assert Parse(START, s[k..]) == [];
    }
  }
}
