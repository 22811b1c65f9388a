/** Upstream block headers: layout, validity and printing (src/uhsif.h). */
module UhsifBlock {
  import opened Bytes
  import opened BitWords
  import opened HeaderCrc

  const ACK_SIZE: nat := 16
  const BLK_MAGIC16: nat := 0x6CC6
  const MIN_PAYLOAD_WORDS: nat := 1
  const MAX_PAYLOAD_WORDS: nat := 4092
  const BLK_MAX_SIZE: nat := 4 * (4 + MAX_PAYLOAD_WORDS)

  /** The scan filter looks at a whole word, but only at its low half. */
  predicate Magic(p: seq<byte>)
    requires |p| >= 4
  {
    Le32(p) % 0x1_0000 == BLK_MAGIC16
  }

  predicate BlkHdrOk(w0: u32, w1: u32, w2: u32, w3: u32) {
    w0 % 0x1_0000 == BLK_MAGIC16 && w0 / 0x1_0000 == FromBits(Crc16(WireBytes(w1, w2, w3)))
  }

  function PayloadWords(h: seq<byte>): nat
    requires |h| >= ACK_SIZE
  {
    Le32(h[12..]) / 0x1000 % 0x1000
  }

  function BlkSeq(h: seq<byte>): byte
    requires |h| >= ACK_SIZE
  {
    Le32(h[12..]) / 0x100_0000
  }

  function BlockSize(h: seq<byte>): nat
    requires |h| >= ACK_SIZE
  {
    ACK_SIZE + 4 * PayloadWords(h)
  }

  predicate HeaderValid(h: seq<byte>)
    requires |h| >= ACK_SIZE
  {
    && BlkHdrOk(Le32(h), Le32(h[4..]), Le32(h[8..]), Le32(h[12..]))
    && Le32(h[4..]) / 0x1000 == 0
    && (PayloadWords(h) != 0 ==> MIN_PAYLOAD_WORDS <= PayloadWords(h) <= MAX_PAYLOAD_WORDS)
  }

  lemma ValidHeaderFacts(h: seq<byte>)
    requires |h| >= ACK_SIZE && HeaderValid(h)
    ensures Magic(h) && BlockSize(h) <= BLK_MAX_SIZE
  {
  }

  /** Nothing but the first sixteen octets matters. */
  lemma HeaderPrefix(h: seq<byte>, s: seq<byte>)
    requires |h| >= ACK_SIZE && h <= s
    ensures HeaderValid(h) == HeaderValid(s)
    ensures PayloadWords(h) == PayloadWords(s) && BlkSeq(h) == BlkSeq(s)
  {
    assert Le32(h) == Le32(s) && Le32(h[4..]) == Le32(s[4..]);
    assert Le32(h[8..]) == Le32(s[8..]) && Le32(h[12..]) == Le32(s[12..]);
  }

  /** The magic half-word as it lies on the wire. */
  lemma MagicOctets(p: seq<byte>)
    requires |p| >= 4
    ensures Magic(p) <==> p[0] == 0xC6 && p[1] == 0x6C
  {
    assert Le32(p) % 0x1_0000 == p[0] as int + 0x100 * p[1] as int;
  }
}

/**
 What an upstream byte stream means: the blocks it carries, and where framing was
 lost. Parse is the whole specification of the block layer; it knows nothing of
 chunks, buffers or the magic-word filter.
 */
module BlockParse {
  import opened Bytes
  import opened UhsifBlock

  datatype Event = Ack | Data(payload: seq<byte>) | Rsync

  datatype LastSeq = NoSeq | Seq(value: byte)

  /** Aligned means that a header is expected exactly at the current position. */
  datatype Sync = Sync(aligned: bool, last: LastSeq)

  const START: Sync := Sync(false, NoSeq)

  function AcceptEvents(y: Sync, s: seq<byte>): seq<Event>
    requires |s| >= ACK_SIZE && |s| >= BlockSize(s)
  {
    (if y.last.Seq? && BlkSeq(s) != (y.last.value + 1) % 256 then [Rsync] else [])
    + [if PayloadWords(s) == 0 then Ack else Data(s[ACK_SIZE..BlockSize(s)])]
  }

  function Parse(y: Sync, s: seq<byte>): seq<Event>
    decreases |s|, y.aligned
  {
    if |s| < ACK_SIZE then []
    else if !HeaderValid(s) then
      if y.aligned then [Rsync] + Parse(START, s) else Parse(y, s[1..])
    else if |s| < BlockSize(s) then []
    else AcceptEvents(y, s) + Parse(Sync(true, Seq(BlkSeq(s))), s[BlockSize(s)..])
  }

  /** Whatever follows, parsing rest from y first yields events and then goes on from y' with rest'. */
  ghost predicate Advances(y: Sync, rest: seq<byte>, events: seq<Event>, y': Sync, rest': seq<byte>) {
    forall more: seq<byte> {:trigger Parse(y, rest + more)} {:trigger Parse(y', rest' + more)} ::
      Parse(y, rest + more) == events + Parse(y', rest' + more)
  }

  lemma AdvanceTrans(y: Sync, s: seq<byte>, e: seq<Event>, y1: Sync, s1: seq<byte>, e1: seq<Event>, y2: Sync,
                     s2: seq<byte>)
    requires Advances(y, s, e, y1, s1) && Advances(y1, s1, e1, y2, s2)
    ensures Advances(y, s, e + e1, y2, s2)
  {
    forall more: seq<byte>
      ensures Parse(y, s + more) == e + e1 + Parse(y2, s2 + more)
    {
      assert Parse(y, s + more) == e + Parse(y1, s1 + more);
    }
  }

  /** More input arrives behind the unparsed rest. */
  lemma AdvanceFeed(y: Sync, s: seq<byte>, e: seq<Event>, y1: Sync, s1: seq<byte>, d: seq<byte>)
    requires Advances(y, s, e, y1, s1)
    ensures Advances(y, s + d, e, y1, s1 + d)
  {
    forall more: seq<byte>
      ensures Parse(y, s + d + more) == e + Parse(y1, s1 + d + more)
    {
      assert s + d + more == s + (d + more) && s1 + d + more == s1 + (d + more);
    }
  }

  lemma SkipOne(y: Sync, s: seq<byte>)
    requires !y.aligned && s != []
    requires |s| >= ACK_SIZE ==> !HeaderValid(s)
    ensures Parse(y, s) == Parse(y, s[1..])
  {
  }

  /** No header can begin here, whatever follows. */
  predicate NoHeaderAt(s: seq<byte>, i: nat)
    requires i < |s|
  {
    || (|s| - i >= 2 && !(s[i] == 0xC6 && s[i + 1] == 0x6C))
    || (|s| - i >= ACK_SIZE && !HeaderValid(s[i..]))
  }

  lemma NoHeaderStays(s: seq<byte>, i: nat, more: seq<byte>)
    requires i < |s| && NoHeaderAt(s, i) && |s| + |more| - i >= ACK_SIZE
    ensures !HeaderValid((s + more)[i..])
  {
    hide HeaderValid, Magic;
    var t := (s + more)[i..];
    assert s[i..] <= t;
    if |s| - i >= 2 && !(s[i] == 0xC6 && s[i + 1] == 0x6C) {
      MagicOctets(t);
      assert t[0] == s[i] && t[1] == s[i + 1];
      if HeaderValid(t) {
        ValidHeaderFacts(t);
      }
    } else {
      HeaderPrefix(s[i..], t);
    }
  }

  /** Octets at which no header can begin are dropped silently while scanning. */
  lemma {:induction false} AdvanceSkip(y: Sync, s: seq<byte>, k: nat)
    requires !y.aligned && k <= |s|
    requires forall i :: 0 <= i < k ==> NoHeaderAt(s, i)
    ensures Advances(y, s, [], y, s[k..])
  {
    hide HeaderValid, Magic, Parse, NoHeaderAt;
    if k == 0 {
      assert s[0..] == s;
    } else {
      AdvanceSkip(y, s, k - 1);
      forall more: seq<byte>
        ensures Parse(y, s + more) == Parse(y, s[k..] + more)
      {
        var t := s[k - 1..] + more;
        assert Parse(y, s + more) == [] + Parse(y, t);
        assert t == (s + more)[k - 1..];
        assert t[1..] == s[k..] + more;
        if |t| >= ACK_SIZE {
          NoHeaderStays(s, k - 1, more);
        }
        SkipOne(y, t);
      }
    }
  }

  /** An invalid header where one was due is reported once, and the scan starts there. */
  lemma AdvanceRsync(y: Sync, s: seq<byte>)
    requires y.aligned && |s| >= ACK_SIZE && !HeaderValid(s)
    ensures Advances(y, s, [Rsync], START, s)
  {
    hide HeaderValid;
    forall more: seq<byte>
      ensures Parse(y, s + more) == [Rsync] + Parse(START, s + more)
    {
      HeaderPrefix(s, s + more);
    }
  }

  lemma AdvanceAccept(y: Sync, s: seq<byte>)
    requires |s| >= ACK_SIZE && HeaderValid(s) && |s| >= BlockSize(s)
    ensures Advances(y, s, AcceptEvents(y, s), Sync(true, Seq(BlkSeq(s))), s[BlockSize(s)..])
  {
    hide HeaderValid;
    forall more: seq<byte>
      ensures Parse(y, s + more) == AcceptEvents(y, s) + Parse(Sync(true, Seq(BlkSeq(s))), s[BlockSize(s)..] + more)
    {
      HeaderPrefix(s, s + more);
      assert (s + more)[ACK_SIZE..BlockSize(s)] == s[ACK_SIZE..BlockSize(s)];
      assert (s + more)[BlockSize(s)..] == s[BlockSize(s)..] + more;
    }
  }
}
