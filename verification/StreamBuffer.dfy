/** src/stream.c: the incremental block parser over its 1 MiB staging buffer. */
module StreamBuffer {
  import opened Bytes
  import opened HeaderCrc
  import opened BitWords
  import opened UhsifBlock
  import opened BlockParse

  const STREAM_BUF_SIZE: nat := 1_048_576
  const SCAN_KEEP_TAIL: nat := 3

  datatype StreamState = STREAM_SCAN | STREAM_BLOCK

  /** memmove within one array: every source octet is read before any is written. */
  method MemMove(a: array<byte>, dst: nat, src: nat, n: nat)
    requires dst + n <= a.Length && src + n <= a.Length
    modifies a
    ensures a[..] == old(a[..dst]) + old(a[src..src + n]) + old(a[dst + n..])
  {
    forall i | 0 <= i < n { a[dst + i] := a[src + i]; }
  }

  method MemCopy(a: array<byte>, dst: nat, data: seq<byte>)
    requires dst + |data| <= a.Length
    modifies a
    ensures a[..] == old(a[..dst]) + data + old(a[dst + |data|..])
  {
    forall i | 0 <= i < |data| { a[dst + i] := data[i]; }
  }

  lemma AcceptPrefix(y: Sync, block: seq<byte>, s: seq<byte>)
    requires |s| >= ACK_SIZE && |s| >= BlockSize(s) && block == s[..BlockSize(s)]
    ensures BlockSize(block) == BlockSize(s) && AcceptEvents(y, block) == AcceptEvents(y, s)
  {
    hide PayloadWords, BlkSeq;
    HeaderPrefix(block, s);
    assert block[ACK_SIZE..BlockSize(s)] == s[ACK_SIZE..BlockSize(s)];
  }

  method HeaderCheck(hdr: seq<byte>) returns (valid: bool, payloadLen: nat)
    requires |hdr| == ACK_SIZE
    ensures valid == HeaderValid(hdr)
    ensures valid ==> payloadLen == PayloadWords(hdr)
  {
    var w0, w1, w2, w3 := Le32(hdr), Le32(hdr[4..]), Le32(hdr[8..]), Le32(hdr[12..]);
    var len := w3 / 0x1000 % 0x1000;
    valid, payloadLen := false, 0;
    var crc := HdrCrc16(w1, w2, w3);
    if w0 % 0x1_0000 != BLK_MAGIC16 || w0 / 0x1_0000 != FromBits(crc) {
      return;
    }
    if w1 / 0x1000 != 0 {
      return;
    }
    if len != 0 && !(MIN_PAYLOAD_WORDS <= len <= MAX_PAYLOAD_WORDS) {
      return;
    }
    valid, payloadLen := true, len;
  }

  /** The first offset at which the magic half-word shows, if any. */
  method FindMagic(s: seq<byte>) returns (found: int)
    requires |s| >= 4
    ensures found < 0 ==> forall i :: 0 <= i <= |s| - 4 ==> NoHeaderAt(s, i)
    ensures 0 <= found ==> found <= |s| - 4 && forall i :: 0 <= i < found ==> NoHeaderAt(s, i)
  {
    hide HeaderValid;
    var i := 0;
    while i <= |s| - 4
      invariant 0 <= i <= |s| - 3
      invariant forall k :: 0 <= k < i ==> NoHeaderAt(s, k)
    {
      MagicOctets(s[i..]);
      if Magic(s[i..]) {
        return i;
      }
      i := i + 1;
    }
    return -1;
  }

  class Stream {
    // The callbacks made so far, in order.
    var log: seq<Event>

    const buf: array<byte>
    const cap: nat
    var head: nat
    var len: nat
    var state: StreamState
    var lastSeq: byte
    var haveSeq: bool
    var good: nat

    // Everything ever fed.
    ghost var fed: seq<byte>

    ghost predicate Valid()
      reads this, buf
    {
      && buf.Length == cap == STREAM_BUF_SIZE
      && head + len <= cap
      && (state == STREAM_SCAN ==> !haveSeq)
      && good <= 2
      && Advances(START, fed, log, Position(), Contents())
    }

    /** Between calls only an incomplete block or a scan tail is left behind. */
    ghost predicate Settled()
      reads this, buf
    {
      Valid() && len < 16384 && Parse(Position(), Contents()) == []
    }

    ghost function Contents(): seq<byte>
      requires head + len <= buf.Length
      reads this, buf
    {
      buf[head..head + len]
    }

    ghost function Position(): Sync
      reads this
    {
      Sync(state == STREAM_BLOCK, if haveSeq then Seq(lastSeq) else NoSeq)
    }

    constructor ()
      ensures Settled() && fresh(buf) && fed == [] && log == []
    {
      buf := new byte[STREAM_BUF_SIZE](i => 0);
      cap := STREAM_BUF_SIZE;
      head, len, state := 0, 0, STREAM_SCAN;
      lastSeq, haveSeq, good := 0, false, 0;
      log, fed := [], [];
    }

    /** Bring the unprocessed octets to the front of the buffer. */
    method Compact()
      requires Valid()
      modifies buf, `head
      ensures Valid() && head == 0 && Contents() == old(Contents())
    {
      if head > 0 {
        MemMove(buf, 0, head, len);
        head := 0;
        assert Contents() == old(Contents());
      }
    }

    /** Drop the first k octets by moving the others to the front. */
    method MoveToFront(k: nat)
      requires head + len <= buf.Length && k <= len
      modifies buf, `head, `len
      ensures head == 0 && len == old(len) - k && head + len <= buf.Length
      ensures Contents() == old(Contents())[k..]
    {
      MemMove(buf, 0, head + k, len - k);
      head := 0;
      len := len - k;
      assert Contents() == old(Contents())[k..];
    }

    method Append(data: seq<byte>)
      requires Valid() && head + len + |data| <= cap
      modifies buf, `len, `fed
      ensures Valid() && head == old(head) && len == old(len) + |data|
      ensures fed == old(fed) + data && Contents() == old(Contents()) + data
    {
      MemCopy(buf, head + len, data);
      len := len + |data|;
      fed := fed + data;
      assert Contents() == old(Contents()) + data;
      AdvanceFeed(START, old(fed), log, Position(), old(Contents()), data);
    }

    /** Take the whole valid block at the front: check its sequence number, deliver it, step over it. */
    method AcceptBlock(payloadLen: nat)
      requires Valid() && len >= ACK_SIZE && HeaderValid(Contents())
      requires payloadLen == PayloadWords(Contents()) && BlockSize(Contents()) <= len
      modifies `log, `head, `len, `state, `lastSeq, `haveSeq, `good
      ensures Valid() && state == STREAM_BLOCK && len < old(len)
    {
      hide HeaderValid, Parse, PayloadWords, BlkSeq, Advances, AcceptEvents;
      ghost var y, s := Position(), Contents();
      var span := ACK_SIZE + 4 * payloadLen;
      var block := buf[head..head + span];
      assert block == s[..span];
      HeaderPrefix(block, s);
      AcceptPrefix(y, block, s);
      AdvanceAccept(y, s);
      AdvanceTrans(START, fed, log, y, s, AcceptEvents(y, s), Sync(true, Seq(BlkSeq(s))), s[BlockSize(s)..]);
      Deliver(block);
      head := head + span;
      len := len - span;
      state := STREAM_BLOCK;
      assert Contents() == s[BlockSize(s)..];
    }

    method Deliver(block: seq<byte>)
      requires good <= 2 && |block| >= ACK_SIZE && |block| == BlockSize(block)
      modifies `log, `lastSeq, `haveSeq, `good
      ensures log == old(log) + AcceptEvents(old(Position()), block)
      ensures haveSeq && lastSeq == BlkSeq(block) && good <= 2
    {
      hide PayloadWords, BlkSeq;
      var seqNo := BlkSeq(block);
      if haveSeq {
        var expected := (lastSeq + 1) % 256;
        if seqNo != expected {
          log := log + [Rsync];
          haveSeq := false;
          good := 0;
        }
      }
      lastSeq := seqNo;
      haveSeq := true;
      if good == 0 {
        good := 1;
      } else if good < 2 {
        good := good + 1;
      }
      if PayloadWords(block) == 0 {
        log := log + [Ack];
      } else {
        log := log + [Data(block[ACK_SIZE..BlockSize(block)])];
      }
    }

    /** Forget the first k octets, where no block can begin; the rest goes to the front. */
    method KeepFrom(k: nat)
      requires Valid() && state == STREAM_SCAN && k <= len
      requires forall i :: 0 <= i < k ==> NoHeaderAt(Contents(), i)
      modifies buf, `head, `len
      ensures Valid() && len == old(len) - k && Contents() == old(Contents())[k..]
    {
      hide NoHeaderAt, Parse;
      ghost var s := Contents();
      Skipped(fed, log, s, k);
      MoveToFront(k);
    }

    /** The same without moving anything. */
    method StepOver(k: nat)
      requires Valid() && state == STREAM_SCAN && k <= len
      requires forall i :: 0 <= i < k ==> NoHeaderAt(Contents(), i)
      modifies `head, `len
      ensures Valid() && len == old(len) - k && Contents() == old(Contents())[k..]
    {
      hide NoHeaderAt, Parse;
      ghost var s := Contents();
      Skipped(fed, log, s, k);
      head := head + k;
      len := len - k;
      assert Contents() == s[k..];
    }

    /** An aligned header is due: take its block, wait for the rest of it, or lose alignment. */
    method BlockStep() returns (wait: bool)
      requires Valid() && len >= ACK_SIZE && state == STREAM_BLOCK
      modifies this, buf
      ensures Valid() && fed == old(fed)
      ensures wait ==> Settled()
      ensures !wait ==> len < old(len) || (len == old(len) && state == STREAM_SCAN)
    {
      hide HeaderValid, Advances;
      ghost var s := Contents();
      var hdr := buf[head..head + ACK_SIZE];
      assert hdr <= s;
      HeaderPrefix(hdr, s);
      var valid, payloadLen := HeaderCheck(hdr);
      if valid && len < ACK_SIZE + 4 * payloadLen {
        ValidHeaderFacts(s);
        if ACK_SIZE + 4 * payloadLen <= cap {
          return true;
        }
        assert false;  // a block larger than the staging buffer does not exist
      }
      wait := false;
      if !valid {
        AdvanceRsync(Position(), s);
        AdvanceTrans(START, fed, log, Position(), s, [Rsync], START, s);
        log := log + [Rsync];
        haveSeq := false;
        good := 0;
        state := STREAM_SCAN;
        assert Contents() == s;
        return;
      }
      AcceptBlock(payloadLen);
    }

    /** Out of alignment: go to the next header candidate and take its block if it is one. */
    method ScanStep() returns (wait: bool)
      requires Valid() && len >= ACK_SIZE && state == STREAM_SCAN
      modifies this, buf
      ensures Valid() && fed == old(fed)
      ensures wait ==> Settled()
      ensures !wait ==> len < old(len)
    {
      hide HeaderValid, Advances, NoHeaderAt, Parse, BlkSeq, PayloadWords;
      var s := buf[head..head + len];
      var found := FindMagic(s);
      wait := true;
      if found < 0 {
        var keep := if len < SCAN_KEEP_TAIL then len else SCAN_KEEP_TAIL;
        if head + len > 0 && keep + ACK_SIZE <= cap {
          KeepFrom(len - keep);
          Incomplete(START, Contents());
        }
        return;
      }
      if len - found < ACK_SIZE {
        KeepFrom(found);
        Incomplete(START, Contents());
        return;
      }
      var hdr := s[found..found + ACK_SIZE];
      assert hdr <= s[found..];
      HeaderPrefix(hdr, s[found..]);
      var valid, payloadLen := HeaderCheck(hdr);
      if !valid {
        InvalidHere(s, found);
        StepOver(found + 1);
        return false;
      }
      if len - found < ACK_SIZE + 4 * payloadLen {
        KeepFrom(found);
        Incomplete(START, Contents());
        return;
      }
      StepOver(found);
      AcceptBlock(payloadLen);
      wait := false;
    }

    /** Handle everything the buffered octets allow. */
    method ProcessAvailable()
      requires Valid()
      modifies this, buf
      ensures Settled() && fed == old(fed)
    {
      hide HeaderValid, Advances;
      while len >= ACK_SIZE
        invariant Valid() && fed == old(fed)
        decreases len, state == STREAM_BLOCK
      {
        var wait;
        if state == STREAM_BLOCK {
          wait := BlockStep();
        } else {
          wait := ScanStep();
        }
        if wait {
          return;
        }
      }
    }

    method Feed(data: seq<byte>)
      requires Settled()
      modifies this, buf
      ensures Settled() && fed == old(fed) + data
      ensures log == Parse(START, fed)
    {
      hide Advances, Parse, Contents, Position;
      var data := data;
      ghost var all := fed + data;
      while data != []
        invariant Valid() && len < BLK_MAX_SIZE && fed + data == all
        decreases |data|
      {
        if head != 0 && len + |data| > cap - head {
          Compact();
        }
        if len + |data| <= cap - head {
          Append(data);
          data := [];
          break;
        }
        Compact();
        var room := cap - len;
        var part := if |data| < room then |data| else room;
        Append(data[..part]);
        data := data[part..];
        if data == [] {
          break;
        }
        ProcessAvailable();
        Compact();
      }
      ProcessAvailable();
      WholeParse(fed, log, Position(), Contents());
    }
  }

  lemma Skipped(fed: seq<byte>, log: seq<Event>, s: seq<byte>, k: nat)
    requires k <= |s| && Advances(START, fed, log, START, s)
    requires forall i :: 0 <= i < k ==> NoHeaderAt(s, i)
    ensures Advances(START, fed, log, START, s[k..])
  {
    AdvanceSkip(START, s, k);
    AdvanceTrans(START, fed, log, START, s, [], START, s[k..]);
    assert log + [] == log;
  }

  lemma Incomplete(y: Sync, s: seq<byte>)
    requires |s| >= ACK_SIZE ==> HeaderValid(s) && |s| < BlockSize(s)
    ensures Parse(y, s) == [] && |s| < BLK_MAX_SIZE
  {
  }

  lemma InvalidHere(s: seq<byte>, i: nat)
    requires |s| - i >= ACK_SIZE && !HeaderValid(s[i..])
    ensures NoHeaderAt(s, i)
  {
  }

  lemma WholeParse(fed: seq<byte>, log: seq<Event>, y: Sync, rest: seq<byte>)
    requires Advances(START, fed, log, y, rest) && Parse(y, rest) == []
    ensures log == Parse(START, fed)
  {
    assert fed + [] == fed && rest + [] == rest;
    assert Parse(START, fed + []) == log + Parse(y, rest + []);
  }

  /**
   Chunk independence: however a byte stream is cut into transfers, the callbacks
   made are those of one parse of the whole stream.
   */
  method FeedAll(transfers: seq<seq<byte>>) returns (s: Stream)
    ensures s.Settled() && s.log == Parse(START, Flatten(transfers))
  {
    s := new Stream();
    assert transfers[..0] == [];
    assert Parse(START, []) == [];
    for i := 0 to |transfers|
      invariant s.Settled() && fresh(s) && fresh(s.buf)
      invariant s.fed == Flatten(transfers[..i]) && s.log == Parse(START, s.fed)
    {
      assert transfers[..i + 1] == transfers[..i] + [transfers[i]];
      FlattenSnoc(transfers[..i], transfers[i]);
      s.Feed(transfers[i]);
    }
    assert transfers[..|transfers|] == transfers;
  }
}
