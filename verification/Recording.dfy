/** The printer and the asynchronous writer together: what a reader finds in the file, at any moment. */
module Recording {
  import opened Bytes
  import opened PcapngFormat
  import B = BufferRing
  import W = AsyncWriter

  /** While no write has failed, the file shows the first blocks of the recording and nothing else. */
  lemma LiveFileReads(s: W.State, linkType: u16, es: seq<Entry>, n: nat) returns (k: nat)
    requires W.Inv(s) && !s.wrErr && AllFit(es) && n <= |File(linkType, es)| && s.given == File(linkType, es)[..n]
    ensures k <= |es| + 3 && Walk(s.file) == FileBlocks(linkType, es)[..k]
  {
    hide Walk, FileBlocks, File, W.Control;
    W.NothingLost(s);
    assert s.file == s.given[..|s.file|];
    assert s.file == File(linkType, es)[..|s.file|];
    k := CutFileReads(linkType, es, |s.file|);
  }

  /**
   At any moment of any run whose calls have handed over some part of a printed recording,
   inside pcapng_begin too, the file shows the first blocks of that recording.
   */
  lemma EveryMomentReads(mem: seq<seq<byte>>, steps: seq<W.Step>, linkType: u16, es: seq<Entry>,
                         n: nat) returns (k: nat)
    requires B.IsMemory(mem) && W.IsRun(W.Init(mem), steps) && !W.After(W.Init(mem), steps).wrErr
    requires AllFit(es) && n <= |File(linkType, es)| && W.Written(steps, false) == File(linkType, es)[..n]
    ensures k <= |es| + 3 && Walk(W.After(W.Init(mem), steps).file) == FileBlocks(linkType, es)[..k]
  {
    hide Walk, FileBlocks, File, W.Inv, B.IsMemory, W.After, W.IsRun, W.Written;
    W.EveryRun(mem, steps);
    W.GivenIsWritten(W.Init(mem), steps);
    assert [] + W.Written(steps, false) == W.Written(steps, false);
    k := LiveFileReads(W.After(W.Init(mem), steps), linkType, es, n);
  }

  /**
   A session printed before and after pcapng_begin, whatever the interleaving: when the
   writer was closed and no write failed, the file is that session, in the order of the calls.
   */
  lemma ClosedSessionReads(mem: seq<seq<byte>>, steps: seq<W.Step>, before: seq<Entry>, linkType: u16,
                           after: seq<Entry>)
    requires B.IsMemory(mem) && W.IsRun(W.Init(mem), steps) && AllFit(before) && AllFit(after)
    requires W.Written(steps, false)
      == DeliverAll(Open(DeliverAll(Output(false, [], []), before), linkType), after).sunk
    requires var s := W.After(W.Init(mem), steps); s.producer.Closed? && !s.wrErr
    ensures AllFit(before + after) && W.After(W.Init(mem), steps).file == File(linkType, before + after)
  {
    hide DeliverAll, Open, File, W.Inv, B.IsMemory, W.After, W.IsRun, W.Written;
    W.EveryRun(mem, steps);
    W.GivenIsWritten(W.Init(mem), steps);
    assert [] + W.Written(steps, false) == W.Written(steps, false);
    SessionMakesFile(before, linkType, after);
  }

  /** What such a file shows: the section, the two interfaces and every entry. */
  lemma ClosedFileReads(mem: seq<seq<byte>>, steps: seq<W.Step>, before: seq<Entry>, linkType: u16, after: seq<Entry>)
    requires B.IsMemory(mem) && W.IsRun(W.Init(mem), steps) && AllFit(before) && AllFit(after)
    requires W.Written(steps, false)
      == DeliverAll(Open(DeliverAll(Output(false, [], []), before), linkType), after).sunk
    requires var s := W.After(W.Init(mem), steps); s.producer.Closed? && !s.wrErr
    ensures var blocks := Walk(W.After(W.Init(mem), steps).file);
            && (forall b :: b in blocks ==> Framed(b))
            && ReadAll(blocks) == [SectionStart, Interface(linkType), Interface(UPPER_PDU)] + Meanings(before + after)
  {
    hide Walk, File, Framed, ReadAll, DeliverAll, W.After, W.IsRun, W.Written, B.IsMemory;
    ClosedSessionReads(mem, steps, before, linkType, after);
    FileRoundTrip(linkType, before + after);
  }
}
