/**
 What the two flushes of the asynchronous writer are for: when the call returns nothing is
 collected any more, and after the longer one nothing is queued either.
 */
module AsyncFlush {
  import opened Bytes
  import opened BufferRing
  import opened AsyncWriter

  /** What a flush goes on with: the queue has to drain too, or not. */
  function Goal(all: bool): Then { if all then ThenDrain(false) else Resume([]) }

  /** On the way from a flush to its return, or back from it. */
  predicate Emptying(s: State, all: bool) {
    match s.producer
    case Flush(k) => k == Goal(all)
    case FlushWait(k) => k == Goal(all)
    case Refill(k) => k == Goal(all)
    case RefillWait(k) => k == Goal(all)
    case Sink(rest) => !all && |rest| == 0 && s.chunkLen == 0
    case Drain(close) => all && !close && s.chunkLen == 0
    case DrainWait(close) => all && !close && s.chunkLen == 0
    case Idle => s.chunkLen == 0 && (all ==> s.ring.count == 0 || s.wrErr)
    case _ => false
  }

  /** A step of one of the threads, and not a new call. */
  predicate OfThread(e: Step) { e.ProducerStep? || e.WriterStep? || e.SpuriousProducer? || e.SpuriousWriter? }

  lemma WriterLeaves(s: State, taken: nat)
    requires Control(s) && WriterCan(s, taken)
    ensures var t := WriterDo(s, taken);
      && t.chunkLen == s.chunkLen && t.given == s.given && (s.wrErr ==> t.wrErr)
      && (s.ring.count == 0 ==> t.ring.count == 0) && (t.producer == s.producer || t.producer == WakeFull(s.producer)
                                                       || t.producer == WakeFree(s.producer))
  {
    hide Held, Items, IsMemory, AllFit, Supply, ProducerOk, Phases;
  }

  lemma ProducerEmpties(s: State, agedOut: bool, all: bool)
    requires Control(s) && ProducerCan(s) && Emptying(s, all)
    ensures var t := ProducerDo(s, agedOut); Emptying(t, all) && t.given == s.given
  {
    hide Held, Items, IsMemory, AllFit, Supply, Phases, WriterOk;
  }

  lemma WriterEmpties(s: State, taken: nat, all: bool)
    requires Control(s) && WriterCan(s, taken) && Emptying(s, all)
    ensures var t := WriterDo(s, taken); Emptying(t, all) && t.given == s.given
  {
    hide Control, WriterDo, WriterCan;
    WriterLeaves(s, taken);
  }

  lemma StepEmpties(s: State, e: Step, all: bool)
    requires Control(s) && Can(s, e) && OfThread(e) && Emptying(s, all)
    ensures Emptying(Do(s, e), all) && Do(s, e).given == s.given
  {
    hide Control, WriterDo, ProducerDo, ProducerCan, WriterCan;
    match e {
      case ProducerStep(aged) => ProducerEmpties(s, aged, all);
      case WriterStep(n) => WriterEmpties(s, n, all);
      case SpuriousProducer =>
      case SpuriousWriter =>
    }
  }

  lemma {:induction false} RunEmpties(s: State, es: seq<Step>, all: bool)
    requires Inv(s) && IsRun(s, es) && (forall e :: e in es ==> OfThread(e)) && Emptying(s, all)
    ensures var t := After(s, es); Inv(t) && Emptying(t, all) && t.given == s.given
    decreases |es|
  {
    hide Control, Fifo, Do, Can, Emptying;
    if es != [] {
      assert es[0] in es;
      StepKeepsInv(s, es[0]);
      StepEmpties(s, es[0], all);
      RunEmpties(Do(s, es[0]), es[1..], all);
    }
  }

  /** With nothing collected and nothing left to copy, all that was given is written, in hand or queued. */
  lemma NothingCollected(s: State)
    requires Inv(s) && s.producer.Idle? && s.chunkLen == 0 && !s.wrErr
    ensures s.given == s.file + (InHand(s.mem, s.writer) + Content(s.mem, Items(s.ring)))
  {
    hide Held, IsMemory, AllFit, Supply, Items, Content, InHand, ProducerOk, Phases, WriterOk;
    assert Collected(s.mem, s.chunk, s.chunkLen) == [] && Unsent(s.producer) == [];
    var rest := Content(s.mem, Items(s.ring));
    assert rest + ([] + []) == rest;
  }

  lemma CallEmpties(s: State, all: bool)
    requires Inv(s) && s.producer.Idle? && s.begun
    ensures var e := if all then FlushAll else FlushChunk;
      Can(s, e) && Emptying(Do(s, e), all) && Do(s, e).given == s.given && Inv(Do(s, e))
  {
    hide Held, IsMemory, AllFit, Supply, Items, Fifo, Phases, WriterOk, Conserved;
    FlushStarts(s, all);
    var e := if all then FlushAll else FlushChunk;
    StepKeepsInv(s, e);
  }

  lemma FlushStarts(s: State, all: bool)
    requires s.producer.Idle? && s.begun && (s.chunk.None? ==> s.chunkLen == 0)
    ensures var e := if all then FlushAll else FlushChunk;
      Can(s, e) && Emptying(Do(s, e), all) && Do(s, e).given == s.given
  {
  }

  /**
   A flush, whatever the threads do until it returns: nothing is collected any more, so all that
   was given before is written, queued or in the writer's hand; if the queue was to drain, it
   is written or in the hand.
   */
  lemma FlushIsDone(s: State, es: seq<Step>, all: bool)
    requires Inv(s) && s.producer.Idle? && s.begun && (forall e :: e in es ==> OfThread(e))
    requires var e := if all then FlushAll else FlushChunk;
      Can(s, e) && IsRun(Do(s, e), es) && After(Do(s, e), es).producer.Idle? && !After(Do(s, e), es).wrErr
    ensures var t := After(Do(s, if all then FlushAll else FlushChunk), es);
      && Inv(t) && t.chunkLen == 0 && t.given == s.given
      && t.given == t.file + (InHand(t.mem, t.writer) + Content(t.mem, Items(t.ring)))
      && (all ==> t.ring.count == 0 && t.given == t.file + InHand(t.mem, t.writer))
  {
    hide Control, Fifo, Do, Can, After, IsRun, Items, Content, InHand;
    CallEmpties(s, all);
    var u := Do(s, if all then FlushAll else FlushChunk);
    RunEmpties(u, es, all);
    var t := After(u, es);
    NothingCollected(t);
    if all { NothingQueued(t); }
  }

  lemma NothingQueued(s: State)
    requires Control(s) && s.ring.count == 0
    ensures Content(s.mem, Items(s.ring)) == []
    ensures var h := InHand(s.mem, s.writer); s.file + (h + []) == s.file + h
  {
    hide Held, Supply, IsMemory, AllFit;
    assert Items(s.ring) == [];
    var h := InHand(s.mem, s.writer);
    assert h + [] == h;
  }

  /** A write that ends with a chunk past its age empties it in the same way before it returns. */
  lemma AgedChunkIsQueued(s: State, es: seq<Step>)
    requires Inv(s) && s.producer.Sink? && |s.producer.rest| == 0 && (forall e :: e in es ==> OfThread(e))
    requires ProducerCan(s)
    requires IsRun(ProducerDo(s, true), es)
    requires After(ProducerDo(s, true), es).producer.Idle? && !After(ProducerDo(s, true), es).wrErr
    ensures var t := After(ProducerDo(s, true), es);
      Inv(t) && t.chunkLen == 0 && t.given == s.given
      && t.given == t.file + (InHand(t.mem, t.writer) + Content(t.mem, Items(t.ring)))
  {
    hide Fifo, After, IsRun, Items, Content, InHand, Conserved, Phases, WriterOk;
    StepKeepsInv(s, ProducerStep(true));
    AgedStarts(s);
    RunEmpties(ProducerDo(s, true), es, false);
    NothingCollected(After(ProducerDo(s, true), es));
  }

  lemma AgedStarts(s: State)
    requires s.producer.Sink? && |s.producer.rest| == 0 && ProducerCan(s) && (s.chunk.None? ==> s.chunkLen == 0)
    ensures Emptying(ProducerDo(s, true), false) && ProducerDo(s, true).given == s.given
  {
    hide IsMemory;
  }
}
