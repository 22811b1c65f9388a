/**
 tools/usbcap.c: a second, independently written block parser. It aligns, holds
 candidates and keeps tails in its own way; it delivers the same blocks.
 */
module Usbcap {
  import opened Bytes
  import opened BitWords
  import opened HeaderCrc
  import opened UhsifBlock
  import opened BlockParse
  import opened BlockLaws
  import StreamBuffer

  const URB_SIZE_MAX: nat := 4 * 1024 * 1024

  function Payloads(es: seq<Event>): seq<byte> {
    if es == [] then []
    else (if es[0].Data? then es[0].payload else []) + Payloads(es[1..])
  }

  function Acks(es: seq<Event>): nat {
    if es == [] then 0 else (if es[0].Ack? then 1 else 0) + Acks(es[1..])
  }

  lemma {:induction false} SummarySnoc(es: seq<Event>, e: Event)
    ensures Payloads(es + [e]) == Payloads(es) + (if e.Data? then e.payload else [])
    ensures Acks(es + [e]) == Acks(es) + (if e.Ack? then 1 else 0)
  {
    if es == [] {
      assert es + [e] == [e] && [e][1..] == [];
    } else {
      assert (es + [e])[1..] == es[1..] + [e];
      SummarySnoc(es[1..], e);
    }
  }

  lemma {:induction false} SummaryOfDeliveries(es: seq<Event>)
    ensures Payloads(Deliveries(es)) == Payloads(es) && Acks(Deliveries(es)) == Acks(es)
  {
    if es != [] {
      SummaryOfDeliveries(es[1..]);
      var d := Deliveries(es[1..]);
      if es[0].Rsync? {
        assert Deliveries(es) == d;
      } else {
        assert Deliveries(es)[0] == es[0] && Deliveries(es)[1..] == d;
      }
    }
  }

  /** Whatever follows, the blocks of fed are those done and then those of rest. */
  ghost predicate Conveys(fed: seq<byte>, done: seq<Event>, rest: seq<byte>) {
    forall more: seq<byte> {:trigger Parse(START, rest + more)} ::
      Deliveries(Parse(START, fed + more)) == done + Deliveries(Parse(START, rest + more))
  }

  lemma ConveysFeed(fed: seq<byte>, done: seq<Event>, rest: seq<byte>, d: seq<byte>)
    requires Conveys(fed, done, rest)
    ensures Conveys(fed + d, done, rest + d)
  {
    forall more: seq<byte>
      ensures Deliveries(Parse(START, fed + d + more)) == done + Deliveries(Parse(START, rest + d + more))
    {
      assert fed + d + more == fed + (d + more) && rest + d + more == rest + (d + more);
    }
  }

  lemma ConveysSkip(fed: seq<byte>, done: seq<Event>, rest: seq<byte>, k: nat)
    requires Conveys(fed, done, rest) && k <= |rest|
    requires forall i :: 0 <= i < k ==> NoHeaderAt(rest, i)
    ensures Conveys(fed, done, rest[k..])
  {
    hide NoHeaderAt, Parse;
    AdvanceSkip(START, rest, k);
    forall more: seq<byte>
      ensures Deliveries(Parse(START, fed + more)) == done + Deliveries(Parse(START, rest[k..] + more))
    {
      assert Parse(START, rest + more) == [] + Parse(START, rest[k..] + more);
      assert [] + Parse(START, rest[k..] + more) == Parse(START, rest[k..] + more);
    }
  }

  lemma ConveysAccept(fed: seq<byte>, done: seq<Event>, rest: seq<byte>)
    requires Conveys(fed, done, rest)
    requires |rest| >= ACK_SIZE && HeaderValid(rest) && |rest| >= BlockSize(rest)
    ensures Conveys(fed, done + [Delivered(rest)], rest[BlockSize(rest)..])
  {
    hide HeaderValid, Parse, PayloadWords, BlkSeq;
    AdvanceAccept(START, rest);
    DeliveriesAccept(START, rest);
    var tail, y := rest[BlockSize(rest)..], Sync(true, Seq(BlkSeq(rest)));
    forall more: seq<byte>
      ensures Deliveries(Parse(START, fed + more)) == done + [Delivered(rest)] + Deliveries(Parse(START, tail + more))
    {
      assert Parse(START, rest + more) == AcceptEvents(START, rest) + Parse(y, tail + more);
      DeliveriesConcat(AcceptEvents(START, rest), Parse(y, tail + more));
      DeliveriesOfStream(y, tail + more);
    }
  }

  lemma ConveysAll(fed: seq<byte>, done: seq<Event>, rest: seq<byte>)
    requires Conveys(fed, done, rest)
    requires |rest| >= ACK_SIZE ==> HeaderValid(rest) && |rest| < BlockSize(rest)
    ensures done == Deliveries(Parse(START, fed))
  {
    hide HeaderValid;
    assert fed + [] == fed && rest + [] == rest;
    assert Deliveries(Parse(START, fed + [])) == done + Deliveries(Parse(START, rest + []));
    assert Parse(START, rest) == [];
  }

  class Capture {
    const pbuf: array<byte>
    var plenBuf: nat
    var aligned: bool
    var lastSeq: int
    var blocks: nat
    var acks: nat
    var bytesPayload: nat
    var hdrErrors: nat
    var seqJumps: nat
    // The output file.
    var out: seq<byte>

    ghost var fed: seq<byte>
    ghost var done: seq<Event>

    ghost predicate Valid()
      reads this, pbuf
    {
      && pbuf.Length == 2 * URB_SIZE_MAX + 64
      && plenBuf < BLK_MAX_SIZE
      && Counted()
      && done == Deliveries(Parse(START, fed))
      && Conveys(fed, done, pbuf[..plenBuf])
    }

    constructor ()
      ensures Valid() && fed == [] && fresh(pbuf)
    {
      pbuf := new byte[2 * URB_SIZE_MAX + 64](i => 0);
      plenBuf, aligned, lastSeq := 0, false, -1;
      blocks, acks, bytesPayload, hdrErrors, seqJumps := 0, 0, 0, 0, 0;
      out := [];
      fed, done := [], [];
      new;
      assert pbuf[..plenBuf] == [];
    }

    /** Count a block and write its payload. */
    method TakeBlock(seqNo: byte, plen: nat, payload: seq<byte>)
      requires |payload| == 4 * plen
      requires Counted()
      modifies `seqJumps, `lastSeq, `acks, `blocks, `bytesPayload, `out, `done
      ensures done == old(done) + [if plen == 0 then Ack else Data(payload)]
      ensures Counted()
    {
      var block := if plen == 0 then Ack else Data(payload);
      SummarySnoc(done, block);
      if lastSeq >= 0 && seqNo != (lastSeq + 1) % 256 {
        seqJumps := seqJumps + 1;
      }
      lastSeq := seqNo;
      if plen == 0 {
        acks := acks + 1;
      } else {
        blocks := blocks + 1;
        bytesPayload := bytesPayload + 4 * plen;
        out := out + payload;
      }
      done := done + [block];
    }

    /** What the counters say about the blocks done so far. */
    ghost predicate Counted()
      reads this
    {
      out == Payloads(done) && acks == Acks(done) && bytesPayload == |out|
    }

    /** One round of the parse loop over the octets s, from offset off. */
    method Step(s: seq<byte>, off: nat) returns (next: nat, stop: bool)
      requires off <= |s| && Counted() && Conveys(fed, done, s[off..])
      requires !aligned ==> off < |s| || s == []
      modifies `aligned, `hdrErrors, `seqJumps, `lastSeq, `acks, `blocks, `bytesPayload, `out, `done
      ensures off <= next <= |s| && Counted() && Conveys(fed, done, s[next..])
      ensures !aligned ==> next < |s| || s == []
      ensures stop ==> |s| - next >= ACK_SIZE ==> HeaderValid(s[next..]) && |s| - next < BlockSize(s[next..])
      ensures !stop ==> off < next
    {
      hide HeaderValid, Conveys, NoHeaderAt, Parse, PayloadWords, BlkSeq, Delivered;
      next, stop := off, true;
      if !aligned {
        next := FindOctets(s, off);
        ConveysScan(fed, done, s, off, next);
        if next + 1 >= |s| {
          next := if |s| > 0 then |s| - 1 else 0;
          return;
        }
        if |s| - next < 16 {
          return;
        }
      } else if |s| - next < 16 {
        return;
      }
      var rest := s[next..];
      var hdr := rest[..16];
      HeaderPrefix(hdr, rest);
      var ok, plen := StreamBuffer.HeaderCheck(hdr);
      if !ok {
        StreamBuffer.InvalidHere(rest, 0);
        ConveysSkip(fed, done, rest, 1);
        assert rest[1..] == s[next + 1..];
        hdrErrors := hdrErrors + 1;
        aligned := false;
        return next + 1, false;
      }
      aligned := true;
      var total := 16 + 4 * plen;
      if |s| - next < total {
        return;
      }
      ConveysAccept(fed, done, rest);
      DeliveredIs(rest, s, next, plen);
      TakeBlock(BlkSeq(hdr), plen, s[next + 16..next + total]);
      assert rest[BlockSize(rest)..] == s[next + total..];
      return next + total, false;
    }

    method ParsePush(data: seq<byte>)
      requires Valid() && |data| <= URB_SIZE_MAX
      modifies this, pbuf
      ensures Valid() && fed == old(fed) + data
    {
      hide HeaderValid, Conveys, Parse, PayloadWords;
      StreamBuffer.MemCopy(pbuf, plenBuf, data);
      ConveysFeed(fed, done, old(pbuf[..plenBuf]), data);
      plenBuf := plenBuf + |data|;
      fed := fed + data;
      var s := pbuf[..plenBuf];
      assert s == old(pbuf[..plenBuf]) + data;
      var off, stop := 0, false;
      assert s[0..] == s;
      while !stop
        invariant off <= plenBuf == |s| <= pbuf.Length && s == pbuf[..plenBuf]
        invariant fed == old(fed) + data && Counted() && Conveys(fed, done, s[off..])
        invariant !aligned ==> off < |s| || s == []
        invariant stop ==> |s| - off >= ACK_SIZE ==> HeaderValid(s[off..]) && |s| - off < BlockSize(s[off..])
        decreases |s| - off, !stop
      {
        off, stop := Step(s, off);
      }
      StreamBuffer.Incomplete(START, s[off..]);
      ConveysAll(fed, done, s[off..]);
      plenBuf := plenBuf - off;
      if off != 0 {
        StreamBuffer.MemMove(pbuf, 0, off, plenBuf);
      }
      assert pbuf[..plenBuf] == s[off..];
    }
  }

  lemma DeliveredIs(rest: seq<byte>, s: seq<byte>, off: nat, plen: nat)
    requires off <= |s| && rest == s[off..] && |rest| >= ACK_SIZE && plen == PayloadWords(rest)
    requires off + ACK_SIZE + 4 * plen <= |s|
    ensures Delivered(rest) == if plen == 0 then Ack else Data(s[off + 16..off + 16 + 4 * plen])
  {
    hide PayloadWords;
    assert rest[ACK_SIZE..BlockSize(rest)] == s[off + 16..off + 16 + 4 * plen];
  }

  /** The first place where the two magic octets stand, or one short of the end. */
  method FindOctets(s: seq<byte>, off: nat) returns (i: nat)
    requires off <= |s|
    ensures off <= i && (i < |s| || (i == off == |s|))
    ensures i + 1 < |s| ==> s[i] == 0xC6 && s[i + 1] == 0x6C
    ensures forall k :: off <= k < i ==> !(s[k] == 0xC6 && s[k + 1] == 0x6C)
  {
    i := off;
    while i + 1 < |s|
      invariant off <= i && (i < |s| || (i == off == |s|))
      invariant forall k :: off <= k < i ==> !(s[k] == 0xC6 && s[k + 1] == 0x6C)
    {
      if s[i] == 0xC6 && s[i + 1] == 0x6C {
        return;
      }
      i := i + 1;
    }
  }

  lemma ConveysScan(fed: seq<byte>, done: seq<Event>, s: seq<byte>, off: nat, i: nat)
    requires off <= i <= |s| && (i < |s| || i == off) && Conveys(fed, done, s[off..])
    requires forall k :: off <= k < i ==> !(s[k] == 0xC6 && s[k + 1] == 0x6C)
    ensures Conveys(fed, done, s[i..])
  {
    var rest := s[off..];
    forall k | 0 <= k < i - off ensures NoHeaderAt(rest, k) {
      assert rest[k] == s[off + k] && rest[k + 1] == s[off + k + 1];
    }
    ConveysSkip(fed, done, rest, i - off);
    assert rest[i - off..] == s[i..];
  }

  /** Both parsers, each under its own cutting of the stream, hand on the same payload and ACKs. */
  method BothParsers(transfers: seq<seq<byte>>, urbs: seq<seq<byte>>) returns (s: StreamBuffer.Stream, c: Capture)
    requires Flatten(transfers) == Flatten(urbs)
    requires forall u :: u in urbs ==> |u| <= URB_SIZE_MAX
    ensures c.out == Payloads(s.log) && c.acks == Acks(s.log)
  {
    hide Parse, Conveys;
    s := StreamBuffer.FeedAll(transfers);
    c := new Capture();
    assert urbs[..0] == [];
    for i := 0 to |urbs|
      invariant s.log == Parse(START, Flatten(transfers))
      invariant c.Valid() && fresh(c) && fresh(c.pbuf) && c.fed == Flatten(urbs[..i])
    {
      assert urbs[..i + 1] == urbs[..i] + [urbs[i]];
      FlattenSnoc(urbs[..i], urbs[i]);
      c.ParsePush(urbs[i]);
    }
    assert urbs[..|urbs|] == urbs;
    SummaryOfDeliveries(Parse(START, Flatten(urbs)));
  }
}
