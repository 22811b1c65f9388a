/**
 The asynchronous writer of src/pcapng.c: one thread hands octets to sink_write, which
 collects them in a chunk and queues full (or aged) chunks; a writer thread puts queued
 chunks into the file. A step is one section of code between two points where the other
 thread can interfere; the runs are all interleavings, with unprompted wake-ups.
 */
module AsyncWriter {
  import opened Bytes
  import opened BufferRing

  /** What the producer does after chunk_flush. */
  datatype Then =
    | Resume(rest: seq<byte>)   // the loop of sink_write, rest still to be copied
    | ThenDrain(closing: bool)  // pcapng_flush, called by pcapng_close if closing

  datatype Producer =
    | Idle
    | Sink(rest: seq<byte>)
    | Alloc(rest: seq<byte>) | AllocWait(rest: seq<byte>)
    | Flush(k: Then) | FlushWait(k: Then)
    | Refill(k: Then) | RefillWait(k: Then)
    | Drain(closing: bool) | DrainWait(closing: bool)
    | Join
    | Closed

  datatype Writer =
    | Check
    | AwaitItem
    | Writing(it: Item, off: nat)
    | Return(buf: nat)
    | Exited

  datatype Option<T> = None | Some(value: T)

  /** given is history: the octets that sink_write was asked to write and did not turn away. */
  datatype State = State(
    ring: Ring, mem: Memory, begun: bool, chunk: Option<nat>, chunkLen: nat, stop: bool, wrErr: bool,
    producer: Producer, writer: Writer, file: seq<byte>, given: seq<byte>, freed: multiset<nat>)

  function Init(mem: Memory): State {
    State(Start(), mem, false, None, 0, false, false, Idle, Check, [], [], multiset{})
  }

  // ---- The critical sections ----

  datatype GotFree = WaitFree | NoneFree | Free(buf: nat)

  /** buf_get_free after taking the mutex, or after waking with it. */
  function GetFreeSection(r: Ring, failed: bool): (Ring, GotFree)
    requires r.freeCount <= |r.free|
  {
    if r.freeCount == 0 && !failed then (r, WaitFree)
    else if r.freeCount == 0 then (r, NoneFree)
    else (TakeFree(r), Free(TopFree(r)))
  }

  datatype Enqueued = Full | Refused | Queued

  /** chunk_flush after taking the mutex, or after waking with it. */
  function EnqueueSection(r: Ring, it: Item, failed: bool): (Ring, Enqueued)
    requires |r.slots| == SLOTS && r.next < SLOTS
  {
    if r.count == SLOTS && !failed then (r, Full)
    else if failed then (r, Refused)
    else (Put(r, it), Queued)
  }

  datatype Dequeued = NothingYet | Leave | Have(it: Item)

  /** writer_main after taking the mutex, or after waking with it. */
  function DequeueSection(r: Ring, stop: bool): (Ring, Dequeued)
    requires r.count > 0 ==> |r.slots| == SLOTS && r.first < SLOTS
  {
    if r.count == 0 && !stop then (r, NothingYet)
    else if r.count == 0 && stop then (r, Leave)
    else (Pop(r), Have(Front(r)))
  }

  // ---- Steps ----

  /**
   Calls of the owner, producer steps (agedOut: is the chunk older than the live-display
   bound), and writer steps with the number of octets fwrite took.
   */
  datatype Step =
    | Begin | Write(data: seq<byte>) | FlushChunk | FlushAll | Close
    | ProducerStep(agedOut: bool) | WriterStep(taken: nat) | SpuriousProducer | SpuriousWriter

  /** Only the producer waits on freecv and nonfull, only the writer on nonempty. */
  function WakeFree(p: Producer): Producer {
    match p
    case AllocWait(rest) => Alloc(rest)
    case RefillWait(k) => Refill(k)
    case DrainWait(c) => Drain(c)
    case _ => p
  }

  function WakeFull(p: Producer): Producer { if p.FlushWait? then Flush(p.k) else p }

  function WakeWriter(w: Writer): Writer { if w.AwaitItem? then Check else w }

  function Continue(k: Then): Producer {
    match k
    case Resume(rest) => Sink(rest)
    case ThenDrain(c) => Drain(c)
  }

  /** The entry of chunk_flush. */
  function EnterFlush(s: State, k: Then): Producer {
    if s.chunkLen == 0 || s.chunk.None? then Continue(k) else Flush(k)
  }

  function Fill(mem: Memory, b: nat, at: nat, piece: seq<byte>): Memory
    requires IsMemory(mem) && b < SLOTS && at + |piece| <= CHUNK
  {
    mem[b := mem[b][..at] + piece + mem[b][at + |piece|..]]
  }

  function Take(s: State, rest: seq<byte>): nat
    requires s.chunkLen <= CHUNK
  {
    if |rest| < CHUNK - s.chunkLen then |rest| else CHUNK - s.chunkLen
  }

  predicate ProducerCan(s: State) {
    match s.producer
    case Sink(_) => IsMemory(s.mem) && s.chunkLen <= CHUNK && (s.chunk.Some? ==> s.chunk.value < SLOTS)
    case Alloc(_) => s.ring.freeCount <= |s.ring.free|
    case Flush(_) => |s.ring.slots| == SLOTS && s.ring.next < SLOTS && s.chunk.Some?
    case Refill(_) => s.ring.freeCount <= |s.ring.free|
    case Drain(_) => true
    case Join => s.writer.Exited? && s.ring.freeCount <= |s.ring.free|
    case _ => false
  }

  function ProducerDo(s: State, agedOut: bool): State
    requires ProducerCan(s)
  {
    match s.producer
    case Sink(rest) =>
      if rest == [] then
        if s.chunk.Some? && s.chunkLen > 0 && agedOut then s.(producer := EnterFlush(s, Resume([])))
        else s.(producer := Idle)
      else if s.chunk.None? then s.(producer := Alloc(rest))
      else CopyPiece(s, rest)
    case Alloc(rest) =>
      var (ring, got) := GetFreeSection(s.ring, s.wrErr);
      (match got
       case WaitFree => s.(producer := AllocWait(rest))
       case NoneFree => s.(wrErr := true, producer := Idle)
       case Free(b) => s.(ring := ring, chunk := Some(b), producer := Sink(rest)))
    case Flush(k) =>
      var (ring, done) := EnqueueSection(s.ring, Item(s.chunk.value, s.chunkLen), s.wrErr);
      (match done
       case Full => s.(producer := FlushWait(k))
       case Refused => s.(chunkLen := 0, producer := Continue(k))
       case Queued =>
         s.(ring := ring, chunk := None, chunkLen := 0, producer := Refill(k), writer := WakeWriter(s.writer)))
    case Refill(k) =>
      var (ring, got) := GetFreeSection(s.ring, s.wrErr);
      (match got
       case WaitFree => s.(producer := RefillWait(k))
       case NoneFree => s.(producer := Continue(k))
       case Free(b) => s.(ring := ring, chunk := Some(b), producer := Continue(k)))
    case Drain(c) =>
      if s.ring.count != 0 && !s.wrErr then s.(producer := DrainWait(c))
      else if c then s.(stop := true, producer := Join, writer := WakeWriter(s.writer))
      else s.(producer := Idle)
    case Join =>
      s.(freed := (if s.chunk.Some? then multiset{s.chunk.value} else multiset{})
                  + multiset(s.ring.free[..s.ring.freeCount]),
         chunk := None, producer := Closed)
    case _ => s
  }

  /** One round of the copying loop of sink_write. */
  function CopyPiece(s: State, rest: seq<byte>): State
    requires s.chunk.Some? && IsMemory(s.mem) && s.chunkLen <= CHUNK && s.chunk.value < SLOTS
  {
    var n := Take(s, rest);
    var t := s.(mem := Fill(s.mem, s.chunk.value, s.chunkLen, rest[..n]), chunkLen := s.chunkLen + n);
    t.(producer := if t.chunkLen == CHUNK then EnterFlush(t, Resume(rest[n..])) else Sink(rest[n..]))
  }

  predicate WriterCan(s: State, taken: nat) {
    match s.writer
    case Check => s.ring.count > 0 ==> |s.ring.slots| == SLOTS && s.ring.first < SLOTS
    case AwaitItem => false
    case Writing(it, off) => off <= it.len && IsMemory(s.mem) && Fits(it) && taken <= it.len - off
    case Return(_) => s.ring.freeCount < |s.ring.free|
    case Exited => false
  }

  function WriterDo(s: State, taken: nat): State
    requires WriterCan(s, taken)
  {
    match s.writer
    case Check =>
      var (ring, got) := DequeueSection(s.ring, s.stop);
      (match got
       case NothingYet => s.(writer := AwaitItem)
       case Leave => s.(writer := Exited)
       case Have(it) => s.(ring := ring, writer := Writing(it, 0), producer := WakeFull(s.producer)))
    case AwaitItem => s
    case Writing(it, off) =>
      if off == it.len then s.(writer := Return(it.buf))
      else if taken == 0 then s.(wrErr := true, writer := Return(it.buf))
      else s.(file := s.file + s.mem[it.buf][off..off + taken], writer := Writing(it, off + taken))
    case Return(b) => s.(ring := GiveBack(s.ring, b), writer := Check, producer := WakeFree(s.producer))
    case Exited => s
  }

  predicate Can(s: State, e: Step) {
    match e
    case Begin => s.producer.Idle? && !s.begun
    case Write(_) => s.producer.Idle?
    case FlushChunk => s.producer.Idle?
    case FlushAll => s.producer.Idle?
    case Close => s.producer.Idle?
    case ProducerStep(_) => ProducerCan(s)
    case WriterStep(n) => WriterCan(s, n)
    case SpuriousProducer => true
    case SpuriousWriter => true
  }

  function Do(s: State, e: Step): State
    requires Can(s, e)
  {
    match e
    case Begin => s.(begun := true)
    case Write(data) => if !s.begun || s.wrErr then s else s.(given := s.given + data, producer := Sink(data))
    case FlushChunk => s.(producer := EnterFlush(s, Resume([])))
    case FlushAll => if !s.begun then s else s.(producer := EnterFlush(s, ThenDrain(false)))
    case Close =>
      if s.begun then s.(producer := EnterFlush(s, ThenDrain(true)))
      else s.(stop := true, producer := Join, writer := WakeWriter(s.writer))
    case ProducerStep(aged) => ProducerDo(s, aged)
    case WriterStep(n) => WriterDo(s, n)
    case SpuriousProducer => s.(producer := WakeFree(WakeFull(s.producer)))
    case SpuriousWriter => s.(writer := WakeWriter(s.writer))
  }

  // ---- What holds between any two steps ----

  function ChunkHolds(c: Option<nat>): multiset<nat> { if c.Some? then multiset{c.value} else multiset{} }

  function WriterHolds(w: Writer): multiset<nat> {
    match w
    case Writing(it, _) => multiset{it.buf}
    case Return(b) => multiset{b}
    case _ => multiset{}
  }

  function Supply(s: State): multiset<nat>
    requires WellFormed(s.ring)
  {
    Held(s.ring) + ChunkHolds(s.chunk) + WriterHolds(s.writer)
  }

  /** Every buffer is free, queued, being filled or being written; in the end each was freed once. */
  predicate Conserved(s: State) {
    && WellFormed(s.ring)
    && (if s.producer.Closed? then s.freed == All() else Supply(s) == All())
  }

  predicate InBounds(s: State)
    requires WellFormed(s.ring)
  {
    && IsMemory(s.mem) && AllFit(Items(s.ring))
    && s.chunkLen <= CHUNK && (if s.chunk.Some? then s.chunk.value < SLOTS else s.chunkLen == 0)
    && (s.writer.Writing? ==> Fits(s.writer.it) && s.writer.off <= s.writer.it.len)
  }

  /** The wait for a queue slot is never entered, and a sleeping producer will be woken. */
  predicate ProducerOk(s: State) {
    match s.producer
    case Idle => s.chunkLen < CHUNK
    case Sink(_) => s.chunkLen < CHUNK
    case Alloc(rest) => s.chunk.None?
    case AllocWait(rest) => s.chunk.None? && s.ring.freeCount == 0
    case Flush(_) => s.chunk.Some? && s.chunkLen > 0
    case FlushWait(_) => false
    case Refill(_) => s.chunk.None?
    case RefillWait(_) => s.chunk.None? && s.ring.freeCount == 0
    case Drain(_) => s.chunkLen == 0
    case DrainWait(_) => s.chunkLen == 0 && (s.ring.count > 0 || s.writer.Writing? || s.writer.Return?)
    case Join => s.chunkLen == 0
    case Closed => s.chunkLen == 0 && s.writer.Exited?
  }

  /** The thread is told to stop last of all, and nothing is collected before the section header. */
  predicate Phases(s: State) {
    && (s.stop <==> s.producer.Join? || s.producer.Closed?)
    && (!s.begun ==> s.chunk.None? && |s.given| == 0
                     && (s.producer.Idle? || s.stop || (s.producer.Sink? && |s.producer.rest| == 0)))
  }

  predicate WriterOk(s: State) {
    && (s.writer.AwaitItem? ==> s.ring.count == 0 && !s.stop)
    && (s.writer.Exited? ==> s.ring.count == 0 && s.stop)
  }

  function InHand(mem: Memory, w: Writer): seq<byte>
    requires IsMemory(mem) && (w.Writing? ==> Fits(w.it) && w.off <= w.it.len)
  {
    if w.Writing? then mem[w.it.buf][w.off..w.it.len] else []
  }

  function Collected(mem: Memory, chunk: Option<nat>, len: nat): seq<byte>
    requires IsMemory(mem) && len <= CHUNK && (chunk.Some? ==> chunk.value < SLOTS)
  {
    if chunk.Some? then mem[chunk.value][..len] else []
  }

  function RestOf(k: Then): seq<byte> { if k.Resume? then k.rest else [] }

  function Unsent(p: Producer): seq<byte> {
    match p
    case Sink(rest) => rest
    case Alloc(rest) => rest
    case AllocWait(rest) => rest
    case Flush(k) => RestOf(k)
    case FlushWait(k) => RestOf(k)
    case Refill(k) => RestOf(k)
    case RefillWait(k) => RestOf(k)
    case _ => []
  }

  /** Written ++ rest of the chunk in the writer's hand ++ queued chunks ++ current chunk ++ still to copy. */
  function Flow(s: State): seq<byte>
    requires WellFormed(s.ring) && InBounds(s)
  {
    s.file + (InHand(s.mem, s.writer) + (Content(s.mem, Items(s.ring))
    + (Collected(s.mem, s.chunk, s.chunkLen) + Unsent(s.producer))))
  }

  /** Until a write fails, no octet is lost, doubled or reordered. */
  predicate Fifo(s: State)
    requires WellFormed(s.ring) && InBounds(s)
  {
    !s.wrErr ==> s.given == Flow(s)
  }

  predicate Control(s: State) {
    Conserved(s) && InBounds(s) && ProducerOk(s) && Phases(s) && WriterOk(s)
  }

  predicate Inv(s: State) { Control(s) && Fifo(s) }

  lemma InitInv(mem: Memory)
    requires IsMemory(mem)
    ensures Inv(Init(mem))
  {
    StartHoldsAll();
    assert Content(mem, Items(Start())) == [];
  }

  /** free_n + q_count + the buffers in hand is 32, and no buffer is in two places. */
  lemma BuffersCounted(s: State)
    requires Conserved(s) && !s.producer.Closed?
    ensures s.ring.count + s.ring.freeCount + (if s.chunk.Some? then 1 else 0)
            + (if s.writer.Writing? || s.writer.Return? then 1 else 0) == 32
    ensures s.chunk.Some? ==>
              s.chunk.value !in Bufs(Items(s.ring)) && s.ring.count < SLOTS
              && s.chunk.value !in WriterHolds(s.writer)
  {
    HeldSize(s.ring);
    AllOnce(0);
    if s.chunk.Some? {
      AllOnce(s.chunk.value);
      assert Supply(s)[s.chunk.value] >= 1;
    }
  }

  // ---- Producer steps ----

  lemma FillFits(mem: Memory, b: nat, at: nat, piece: seq<byte>)
    requires IsMemory(mem) && b < SLOTS && at + |piece| <= CHUNK
    ensures IsMemory(Fill(mem, b, at, piece))
    ensures Fill(mem, b, at, piece)[b][..at + |piece|] == mem[b][..at] + piece
    ensures forall c :: 0 <= c < SLOTS && c != b ==> Fill(mem, b, at, piece)[c] == mem[c]
  {
  }

  lemma CopyControl(s: State, rest: seq<byte>)
    requires Control(s) && s.producer == Sink(rest) && rest != [] && s.chunk.Some?
    ensures Control(CopyPiece(s, rest))
  {
    hide Held, Items, AllFit, IsMemory, Fill;
    FillFits(s.mem, s.chunk.value, s.chunkLen, rest[..Take(s, rest)]);
  }

  lemma CopyKeeps(s: State, rest: seq<byte>)
    requires Inv(s) && s.producer == Sink(rest) && rest != [] && s.chunk.Some?
    ensures Inv(CopyPiece(s, rest))
  {
    hide Held, Items, AllFit, IsMemory, Content, ProducerOk, Phases, WriterOk;
    CopyControl(s, rest);
    BuffersCounted(s);
    var t, n, b := CopyPiece(s, rest), Take(s, rest), s.chunk.value;
    FillFits(s.mem, b, s.chunkLen, rest[..n]);
    ContentElsewhere(s.mem, t.mem, Items(s.ring), b);
    assert InHand(t.mem, t.writer) == InHand(s.mem, s.writer);
    assert rest[..n] + rest[n..] == rest;
    assert Unsent(t.producer) == rest[n..];
    assert Collected(t.mem, t.chunk, t.chunkLen) + rest[n..] == Collected(s.mem, s.chunk, s.chunkLen) + rest;
  }

  lemma EnqueueSupply(s: State, t: State, it: Item)
    requires WellFormed(s.ring) && s.ring.count < SLOTS && s.chunk == Some(it.buf) && AllFit(Items(s.ring)) && Fits(it)
    requires t.ring == Put(s.ring, it) && t.chunk.None? && WriterHolds(t.writer) == WriterHolds(s.writer)
    ensures WellFormed(t.ring) && Items(t.ring) == Items(s.ring) + [it]
    ensures Supply(t) == Supply(s) && AllFit(Items(t.ring))
  {
    hide Held, Items, Put;
    PutAppends(s.ring, it);
  }

  lemma EnqueueControl(s: State)
    requires Control(s) && s.producer.Flush? && !s.wrErr
    ensures ProducerCan(s) && Control(ProducerDo(s, false))
    ensures var it := Item(s.chunk.value, s.chunkLen);
            Fits(it) && Items(ProducerDo(s, false).ring) == Items(s.ring) + [it]
  {
    hide Held, Items, IsMemory, AllFit, Supply;
    BuffersCounted(s);
    EnqueueSupply(s, ProducerDo(s, false), Item(s.chunk.value, s.chunkLen));
  }

  lemma EnqueueTouches(s: State)
    requires s.producer.Flush? && !s.wrErr && s.ring.count < SLOTS && ProducerCan(s)
    ensures var t := ProducerDo(s, false);
            && t.mem == s.mem && t.file == s.file && t.given == s.given && t.wrErr == s.wrErr
            && (t.writer == s.writer || t.writer == WakeWriter(s.writer))
            && t.chunk.None? && t.chunkLen == 0 && Unsent(t.producer) == Unsent(s.producer)
  {
    hide Put;
  }

  lemma EnqueueKeeps(s: State)
    requires Inv(s) && s.producer.Flush? && !s.wrErr
    ensures ProducerCan(s) && Inv(ProducerDo(s, false))
  {
    hide Held, Items, Content, IsMemory, AllFit, Phases, WriterOk, Put, ProducerDo, Supply, Unsent;
    EnqueueControl(s);
    BuffersCounted(s);
    EnqueueTouches(s);
    var t, it := ProducerDo(s, false), Item(s.chunk.value, s.chunkLen);
    ContentSnoc(s.mem, Items(s.ring), it);
    MoveChunk(s.file, InHand(s.mem, s.writer), Content(s.mem, Items(s.ring)), Collected(s.mem, s.chunk, s.chunkLen),
              Unsent(s.producer));
  }

  lemma MoveChunk(a: seq<byte>, b: seq<byte>, c: seq<byte>, d: seq<byte>, e: seq<byte>)
    ensures a + (b + (c + (d + e))) == a + (b + ((c + d) + ([] + e)))
  {
    assert c + (d + e) == (c + d) + ([] + e);
  }

  lemma SameSupply(s: State, t: State)
    requires WellFormed(s.ring) && t.ring == s.ring && t.chunk == s.chunk
      && WriterHolds(t.writer) == WriterHolds(s.writer)
    ensures Supply(t) == Supply(s)
  {
  }

  predicate IsPlain(s: State) {
    match s.producer
    case Sink(rest) => |rest| == 0 || s.chunk.None?
    case Alloc(_) => s.ring.freeCount == 0
    case Refill(_) => s.ring.freeCount == 0
    case Flush(_) => s.wrErr
    case Drain(_) => true
    case _ => false
  }

  lemma SinkControl(s: State, agedOut: bool)
    requires Control(s) && ProducerCan(s) && IsPlain(s) && s.producer.Sink?
    ensures Control(ProducerDo(s, agedOut))
    ensures Unsent(ProducerDo(s, agedOut).producer) == Unsent(s.producer)
  {
    hide Held, Items, IsMemory, AllFit, Supply;
    SameSupply(s, ProducerDo(s, agedOut));
  }

  lemma NoBufferControl(s: State, agedOut: bool)
    requires Control(s) && ProducerCan(s) && IsPlain(s) && (s.producer.Alloc? || s.producer.Refill?)
    ensures Control(ProducerDo(s, agedOut))
    ensures s.wrErr || Unsent(ProducerDo(s, agedOut).producer) == Unsent(s.producer)
  {
    hide Held, Items, IsMemory, AllFit, Supply;
    SameSupply(s, ProducerDo(s, agedOut));
  }

  lemma DiscardControl(s: State, agedOut: bool)
    requires Control(s) && ProducerCan(s) && IsPlain(s) && s.producer.Flush?
    ensures Control(ProducerDo(s, agedOut))
    ensures Unsent(ProducerDo(s, agedOut).producer) == Unsent(s.producer)
  {
    hide Held, Items, IsMemory, AllFit, Supply;
    BuffersCounted(s);
    SameSupply(s, ProducerDo(s, agedOut));
  }

  lemma DrainProtocol(s: State, agedOut: bool)
    requires Control(s) && ProducerCan(s) && s.producer.Drain?
    ensures ProducerOk(ProducerDo(s, agedOut))
    ensures Phases(ProducerDo(s, agedOut)) && WriterOk(ProducerDo(s, agedOut))
  {
    hide Conserved, InBounds;
  }

  lemma DrainTouches(s: State, agedOut: bool)
    requires ProducerCan(s) && s.producer.Drain?
    ensures var t := ProducerDo(s, agedOut);
            && t.ring == s.ring && t.mem == s.mem && t.chunk == s.chunk && t.chunkLen == s.chunkLen
            && (t.writer == s.writer || t.writer == WakeWriter(s.writer)) && !t.producer.Closed?
            && |Unsent(t.producer)| == 0
  {
  }

  lemma DrainControl(s: State, agedOut: bool)
    requires Control(s) && ProducerCan(s) && s.producer.Drain?
    ensures Control(ProducerDo(s, agedOut))
    ensures Unsent(ProducerDo(s, agedOut).producer) == Unsent(s.producer)
  {
    hide Held, Items, IsMemory, AllFit, Supply, ProducerOk, Phases, WriterOk, ProducerDo;
    DrainProtocol(s, agedOut);
    DrainTouches(s, agedOut);
    SameSupply(s, ProducerDo(s, agedOut));
  }

  /** The steps that touch neither the queue nor the octets collected. */
  lemma PlainControl(s: State, agedOut: bool)
    requires Control(s) && ProducerCan(s) && IsPlain(s)
    ensures Control(ProducerDo(s, agedOut))
    ensures s.wrErr || Unsent(ProducerDo(s, agedOut).producer) == Unsent(s.producer)
  {
    hide Control, ProducerDo, ProducerCan, Unsent;
    match s.producer {
      case Sink(_) => SinkControl(s, agedOut);
      case Alloc(_) => NoBufferControl(s, agedOut);
      case Refill(_) => NoBufferControl(s, agedOut);
      case Flush(_) => DiscardControl(s, agedOut);
      case Drain(_) => DrainControl(s, agedOut);
    }
  }

  lemma PlainTouches(s: State, agedOut: bool)
    requires ProducerCan(s) && IsPlain(s)
    ensures var t := ProducerDo(s, agedOut);
            && t.ring == s.ring && t.mem == s.mem && t.file == s.file && t.given == s.given
            && (t.writer == s.writer || t.writer == WakeWriter(s.writer))
            && (t.wrErr || (!s.wrErr && t.chunk == s.chunk && t.chunkLen == s.chunkLen))
  {
  }

  lemma PlainKeeps(s: State, agedOut: bool)
    requires Inv(s) && ProducerCan(s)
    requires IsPlain(s)
    ensures Inv(ProducerDo(s, agedOut))
  {
    hide Held, Items, Content, IsMemory, AllFit, ProducerOk, Phases, WriterOk, ProducerDo, ProducerCan, IsPlain, Unsent,
         Collected, Supply;
    PlainControl(s, agedOut);
    PlainTouches(s, agedOut);
  }

  /** buf_get_free finds a buffer. */
  lemma TakeSupply(s: State, t: State)
    requires WellFormed(s.ring) && s.ring.freeCount > 0 && s.chunk.None?
    requires t.ring == TakeFree(s.ring) && t.chunk == Some(TopFree(s.ring)) && t.writer == s.writer
    requires Supply(s) == All()
    ensures WellFormed(t.ring) && Items(t.ring) == Items(s.ring) && t.ring.count == s.ring.count
    ensures Supply(t) == Supply(s) && t.chunk.value < SLOTS
  {
    hide Held, Items, TakeFree, TopFree;
    TakeFreeMoves(s.ring);
    AllOnce(t.chunk.value);
    assert Supply(t)[t.chunk.value] >= 1;
  }

  lemma TakeControl(s: State)
    requires Control(s) && (s.producer.Alloc? || s.producer.Refill?) && s.ring.freeCount > 0
    ensures ProducerCan(s) && Control(ProducerDo(s, false))
    ensures Items(ProducerDo(s, false).ring) == Items(s.ring)
  {
    hide Held, Items, IsMemory, AllFit, TakeFree, TopFree, Supply;
    TakeSupply(s, ProducerDo(s, false));
  }

  lemma TakeTouches(s: State)
    requires (s.producer.Alloc? || s.producer.Refill?) && s.ring.freeCount > 0 && ProducerCan(s)
    ensures var t := ProducerDo(s, false);
            && t.mem == s.mem && t.file == s.file && t.given == s.given && t.wrErr == s.wrErr && t.writer == s.writer
            && t.chunkLen == s.chunkLen && Unsent(t.producer) == Unsent(s.producer)
  {
    hide TakeFree, TopFree;
  }

  lemma TakeKeeps(s: State)
    requires Inv(s) && (s.producer.Alloc? || s.producer.Refill?) && s.ring.freeCount > 0
    ensures ProducerCan(s) && Inv(ProducerDo(s, false))
  {
    hide Held, Items, Content, AllFit, Phases, WriterOk, ProducerDo, Unsent, Collected, InHand, IsMemory, Supply;
    TakeControl(s);
    TakeTouches(s);
    NothingCollected(s.mem, s.chunk);
    NothingCollected(s.mem, ProducerDo(s, false).chunk);
  }

  lemma JoinKeeps(s: State)
    requires Inv(s) && s.producer.Join? && s.writer.Exited?
    ensures ProducerCan(s) && Inv(ProducerDo(s, false))
  {
    hide Content, AllFit, Fifo, IsMemory, Items, Held, Supply, Conserved, Phases;
    JoinFrees(s);
    JoinFlow(s);
  }

  lemma JoinFrees(s: State)
    requires Control(s) && s.producer.Join? && s.writer.Exited?
    ensures ProducerCan(s) && Conserved(ProducerDo(s, false)) && Phases(ProducerDo(s, false))
  {
    hide AllFit, IsMemory, InBounds;
    assert Items(s.ring) == [];
    assert Bufs(Items(s.ring)) == [];
  }

  lemma JoinTouches(s: State)
    requires s.producer.Join? && ProducerCan(s)
    ensures var t := ProducerDo(s, false);
            && t.ring == s.ring && t.mem == s.mem && t.file == s.file && t.given == s.given && t.writer == s.writer
            && t.wrErr == s.wrErr && t.chunk.None? && t.chunkLen == s.chunkLen && t.producer.Closed?
  {
  }

  lemma NothingCollected(mem: Memory, chunk: Option<nat>)
    requires IsMemory(mem) && (chunk.Some? ==> chunk.value < SLOTS)
    ensures Collected(mem, chunk, 0) == []
  {
  }

  lemma JoinFlow(s: State)
    requires Inv(s) && s.producer.Join? && s.writer.Exited? && ProducerCan(s)
    requires Conserved(ProducerDo(s, false)) && InBounds(ProducerDo(s, false))
    ensures Fifo(ProducerDo(s, false))
  {
    hide Content, AllFit, Held, Items, Supply, ProducerDo, ProducerCan, Collected, InHand, IsMemory, Phases, WriterOk;
    JoinTouches(s);
    NothingCollected(s.mem, s.chunk);
    NothingCollected(s.mem, None);
  }

  lemma ProducerKeeps(s: State, agedOut: bool)
    requires Inv(s) && ProducerCan(s)
    ensures Inv(ProducerDo(s, agedOut))
  {
    hide Held, Items, Content, IsMemory, AllFit, Fifo, ProducerOk, Phases, WriterOk, InBounds, Conserved;
    match s.producer {
      case Sink(rest) => if rest != [] && s.chunk.Some? { CopyKeeps(s, rest); } else { PlainKeeps(s, agedOut); }
      case Alloc(_) => if s.ring.freeCount == 0 { PlainKeeps(s, agedOut); } else { TakeKeeps(s); }
      case Refill(_) => if s.ring.freeCount == 0 { PlainKeeps(s, agedOut); } else { TakeKeeps(s); }
      case Flush(_) => if s.wrErr { PlainKeeps(s, agedOut); } else { EnqueueKeeps(s); }
      case Join => JoinKeeps(s);
      case Drain(_) => PlainKeeps(s, agedOut);
    }
  }

  // ---- Writer steps ----

  lemma PopSupply(s: State, t: State)
    requires WellFormed(s.ring) && s.ring.count > 0 && AllFit(Items(s.ring)) && s.writer.Check?
    requires t.ring == Pop(s.ring) && t.chunk == s.chunk && t.writer == Writing(Front(s.ring), 0)
    ensures WellFormed(t.ring) && Items(s.ring) == [Front(s.ring)] + Items(t.ring)
    ensures Supply(t) == Supply(s) && AllFit(Items(t.ring)) && Fits(Front(s.ring))
  {
    hide Held, Items, Front;
    PopTakesOldest(s.ring);
    assert Front(s.ring) in Items(s.ring);
  }

  lemma PopControl(s: State)
    requires Control(s) && s.writer.Check? && s.ring.count > 0
    ensures WriterCan(s, 0) && Control(WriterDo(s, 0))
    ensures Items(s.ring) == [Front(s.ring)] + Items(WriterDo(s, 0).ring)
  {
    hide Held, Items, Front, IsMemory, AllFit, Fits, Supply;
    PopSupply(s, WriterDo(s, 0));
  }

  lemma PopTouches(s: State)
    requires s.writer.Check? && s.ring.count > 0 && WriterCan(s, 0)
    ensures var t := WriterDo(s, 0);
            && t.mem == s.mem && t.file == s.file && t.given == s.given && t.wrErr == s.wrErr
            && t.chunk == s.chunk && t.chunkLen == s.chunkLen && t.writer == Writing(Front(s.ring), 0)
            && Unsent(t.producer) == Unsent(s.producer)
  {
    hide Pop, Front;
  }

  lemma PopKeeps(s: State)
    requires Inv(s) && s.writer.Check? && s.ring.count > 0
    ensures WriterCan(s, 0) && Inv(WriterDo(s, 0))
  {
    hide Held, Items, Front, Content, ProducerOk, Phases, WriterOk, Supply, Collected, IsMemory, AllFit, WriterDo,
         Unsent;
    PopControl(s);
    PopTouches(s);
    var t := WriterDo(s, 0);
    PopContent(s.mem, Items(s.ring), Front(s.ring), Items(t.ring));
    var rest := Collected(s.mem, s.chunk, s.chunkLen) + Unsent(s.producer);
    Reassociate(InHand(t.mem, t.writer), Content(t.mem, Items(t.ring)), rest);
    NoHand(InHand(s.mem, s.writer), Content(s.mem, Items(s.ring)) + rest);
  }

  lemma NoHand(a: seq<byte>, b: seq<byte>)
    ensures a == [] ==> a + b == b
  {
  }

  lemma WriteTouches(s: State, taken: nat)
    requires s.writer.Writing? && WriterCan(s, taken)
    ensures var t := WriterDo(s, taken);
            && t.ring == s.ring && t.mem == s.mem && t.chunk == s.chunk && t.chunkLen == s.chunkLen
            && t.producer == s.producer && t.stop == s.stop && t.begun == s.begun && t.given == s.given
            && t.freed == s.freed
            && WriterHolds(t.writer) == WriterHolds(s.writer)
            && (t.writer.Return?
                || (t.writer.Writing? && t.writer.it == s.writer.it && t.writer.off <= t.writer.it.len))
  {
  }

  lemma WriteControl(s: State, taken: nat)
    requires Control(s) && s.writer.Writing? && WriterCan(s, taken)
    ensures Control(WriterDo(s, taken))
  {
    hide Held, Items, AllFit, IsMemory, Supply, WriterDo, WriterCan;
    WriteTouches(s, taken);
    SameSupply(s, WriterDo(s, taken));
  }

  lemma WriteKeeps(s: State, taken: nat)
    requires Inv(s) && s.writer.Writing? && WriterCan(s, taken)
    ensures Inv(WriterDo(s, taken))
  {
    hide Held, Items, Content, AllFit, ProducerOk, Phases, WriterOk, Supply, IsMemory, WriterDo, Collected, Unsent,
         InHand;
    WriteControl(s, taken);
    WriteTouches(s, taken);
    WriteMoves(s, taken);
    var t := WriterDo(s, taken);
    var rest := Content(s.mem, Items(s.ring)) + (Collected(s.mem, s.chunk, s.chunkLen) + Unsent(s.producer));
    Reassociate(s.file, InHand(s.mem, s.writer), rest);
    Reassociate(t.file, InHand(t.mem, t.writer), rest);
  }

  lemma WriteMoves(s: State, taken: nat)
    requires s.writer.Writing? && WriterCan(s, taken) && IsMemory(s.mem)
    ensures var t := WriterDo(s, taken);
            t.wrErr || (!s.wrErr && t.file + InHand(t.mem, t.writer) == s.file + InHand(s.mem, s.writer))
  {
    hide IsMemory;
    var it, off := s.writer.it, s.writer.off;
    RowFits(s.mem, it);
    if off == it.len {
      NothingLeft(s.mem[it.buf], off);
    } else if taken > 0 {
      MoveSome(s.file, s.mem[it.buf], off, off + taken, it.len);
    }
  }

  lemma NothingLeft(row: seq<byte>, a: nat)
    requires a <= |row|
    ensures row[a..a] == []
  {
  }

  lemma MoveSome(file: seq<byte>, row: seq<byte>, a: nat, b: nat, c: nat)
    requires a <= b <= c <= |row|
    ensures file + row[a..b] + row[b..c] == file + row[a..c]
  {
  }

  lemma ReturnSupply(s: State, t: State)
    requires WellFormed(s.ring) && s.ring.freeCount < SLOTS && s.writer.Return?
    requires t.ring == GiveBack(s.ring, s.writer.buf) && t.chunk == s.chunk && t.writer == Check
    ensures WellFormed(t.ring) && Items(t.ring) == Items(s.ring) && t.ring.count == s.ring.count
    ensures Supply(t) == Supply(s)
  {
    hide Held, Items, GiveBack;
    GiveBackMoves(s.ring, s.writer.buf);
  }

  lemma ReturnControl(s: State)
    requires Control(s) && s.writer.Return?
    ensures WriterCan(s, 0) && Control(WriterDo(s, 0))
    ensures Items(WriterDo(s, 0).ring) == Items(s.ring)
  {
    hide Held, Items, IsMemory, AllFit, GiveBack, Supply;
    assert !s.producer.Closed?;
    BuffersCounted(s);
    ReturnSupply(s, WriterDo(s, 0));
  }

  lemma ReturnKeeps(s: State)
    requires Inv(s) && s.writer.Return?
    ensures WriterCan(s, 0) && Inv(WriterDo(s, 0))
  {
    hide Held, Items, Content, IsMemory, AllFit, GiveBack, ProducerOk, Phases, WriterOk, Conserved;
    ReturnControl(s);
    assert Unsent(WakeFree(s.producer)) == Unsent(s.producer);
  }

  lemma IdleWriterControl(s: State)
    requires Control(s) && s.writer.Check? && s.ring.count == 0
    ensures Control(WriterDo(s, 0))
  {
    hide Held, Items, IsMemory, AllFit, Supply;
    SameSupply(s, WriterDo(s, 0));
  }

  lemma WriterKeeps(s: State, taken: nat)
    requires Inv(s) && WriterCan(s, taken)
    ensures Inv(WriterDo(s, taken))
  {
    hide Held, Items, Content, IsMemory, AllFit, ProducerOk, Phases, WriterOk, Conserved;
    match s.writer {
      case Check => if s.ring.count > 0 { PopKeeps(s); } else { IdleWriterControl(s); }
      case Writing(_, _) => WriteKeeps(s, taken);
      case Return(_) => ReturnKeeps(s);
    }
  }

  // ---- Calls and wake-ups ----

  lemma WriteCallControl(s: State, e: Step)
    requires Control(s) && Can(s, e) && (e.Begin? || e.Write?)
    ensures Control(Do(s, e))
  {
    hide Held, Items, IsMemory, AllFit, Supply;
    SameSupply(s, Do(s, e));
  }

  lemma FlushCallControl(s: State, e: Step)
    requires Control(s) && Can(s, e) && (e.FlushChunk? || e.FlushAll?)
    ensures Control(Do(s, e)) && |Unsent(Do(s, e).producer)| == 0
  {
    hide Held, Items, IsMemory, AllFit, Supply;
    SameSupply(s, Do(s, e));
  }

  lemma CloseControl(s: State)
    requires Control(s) && s.producer.Idle?
    ensures Control(Do(s, Close)) && |Unsent(Do(s, Close).producer)| == 0
  {
    hide Held, Items, IsMemory, AllFit, Supply;
    assert WriterHolds(WakeWriter(s.writer)) == WriterHolds(s.writer);
    SameSupply(s, Do(s, Close));
  }

  lemma SpuriousControl(s: State, e: Step)
    requires Control(s) && (e.SpuriousProducer? || e.SpuriousWriter?)
    ensures Control(Do(s, e)) && Unsent(Do(s, e).producer) == Unsent(s.producer)
  {
    hide Held, Items, IsMemory, AllFit, Supply;
    assert WriterHolds(WakeWriter(s.writer)) == WriterHolds(s.writer);
    SameSupply(s, Do(s, e));
  }

  lemma CallControl(s: State, e: Step)
    requires Control(s) && Can(s, e) && !e.ProducerStep? && !e.WriterStep?
    ensures Control(Do(s, e))
    ensures !e.Write? ==> Unsent(Do(s, e).producer) == Unsent(s.producer)
  {
    hide Control;
    match e {
      case Begin => WriteCallControl(s, e);
      case Write(_) => WriteCallControl(s, e);
      case FlushChunk => FlushCallControl(s, e);
      case FlushAll => FlushCallControl(s, e);
      case Close => CloseControl(s);
      case SpuriousProducer => SpuriousControl(s, e);
      case SpuriousWriter => SpuriousControl(s, e);
    }
  }

  lemma CallKeeps(s: State, e: Step)
    requires Inv(s) && Can(s, e) && !e.ProducerStep? && !e.WriterStep?
    ensures Inv(Do(s, e))
  {
    hide Held, Items, Content, IsMemory, AllFit, ProducerOk, Phases, WriterOk, Conserved;
    CallControl(s, e);
    assert InHand(s.mem, WakeWriter(s.writer)) == InHand(s.mem, s.writer);
  }

  /** Every step of either thread, and every call, keeps the invariant. */
  lemma StepKeepsInv(s: State, e: Step)
    requires Inv(s) && Can(s, e)
    ensures Inv(Do(s, e))
  {
    hide Inv, ProducerDo, WriterDo, ProducerCan, WriterCan;
    match e {
      case ProducerStep(aged) => ProducerKeeps(s, aged);
      case WriterStep(n) => WriterKeeps(s, n);
      case _ => CallKeeps(s, e);
    }
  }

  // ---- Runs ----

  ghost predicate IsRun(s: State, es: seq<Step>)
    decreases |es|
  {
    es == [] || (Can(s, es[0]) && IsRun(Do(s, es[0]), es[1..]))
  }

  ghost function After(s: State, es: seq<Step>): State
    requires IsRun(s, es)
    decreases |es|
  {
    if es == [] then s else After(Do(s, es[0]), es[1..])
  }

  lemma {:induction false} RunsKeepInv(s: State, es: seq<Step>)
    requires Inv(s) && IsRun(s, es)
    ensures Inv(After(s, es))
    decreases |es|
  {
    hide Inv, Can, Do;
    if es != [] {
      StepKeepsInv(s, es[0]);
      RunsKeepInv(Do(s, es[0]), es[1..]);
    }
  }

  /** What a run asks to write: the pieces of its calls, once the section header may go out. */
  function Written(es: seq<Step>, begun: bool): seq<byte> {
    if es == [] then []
    else match es[0]
      case Begin => Written(es[1..], true)
      case Write(data) => (if begun then data else []) + Written(es[1..], begun)
      case _ => Written(es[1..], begun)
  }

  lemma StepGives(s: State, e: Step)
    requires Can(s, e)
    ensures var t := Do(s, e);
            && (s.wrErr ==> t.wrErr) && t.begun == (s.begun || e.Begin?)
            && t.given == s.given + (if e.Write? && s.begun && !s.wrErr then e.data else [])
  {
    assert s.given + [] == s.given;
  }

  /** Unless a write failed, what was given is what the calls asked to write, in their order. */
  lemma {:induction false} GivenIsWritten(s: State, es: seq<Step>)
    requires IsRun(s, es)
    ensures s.wrErr ==> After(s, es).wrErr
    ensures !After(s, es).wrErr ==> After(s, es).given == s.given + Written(es, s.begun)
    decreases |es|
  {
    hide Can, Do;
    if es == [] {
      assert s.given + [] == s.given;
    } else {
      var t := Do(s, es[0]);
      StepGives(s, es[0]);
      GivenIsWritten(t, es[1..]);
      if es[0].Write? {
        var d := if s.begun then es[0].data else [];
        assert s.given + (d + Written(es[1..], t.begun)) == s.given + d + Written(es[1..], t.begun);
      } else {
        assert t.given == s.given;
      }
    }
  }

  /** While no write has failed, written ++ in hand ++ queued ++ collected ++ not yet copied is what was given. */
  lemma NothingLost(s: State)
    requires Inv(s) && !s.wrErr
    ensures s.given == Flow(s)
  {
  }

  /** The wait for a queue slot is dead code: the queue is never full when chunk_flush looks. */
  lemma NeverWaitsForSlot(s: State)
    requires Inv(s)
    ensures !s.producer.FlushWait?
    ensures s.producer.Flush? ==> s.ring.count < SLOTS
  {
    hide Held, Items, IsMemory, AllFit, Fifo;
    if s.producer.Flush? { BuffersCounted(s); }
  }

  /** After pcapng_close without a failed write the file is exactly what was given, and each buffer was freed once. */
  lemma ClosedFileIsComplete(s: State)
    requires Inv(s) && s.producer.Closed?
    ensures s.freed == All() && s.writer.Exited?
    ensures !s.wrErr ==> s.file == s.given
  {
    hide Held, IsMemory, AllFit, Supply;
    assert Items(s.ring) == [];
    assert Collected(s.mem, s.chunk, s.chunkLen) == [];
  }

  /** pcapng_flush returns when the queue is empty: all but the chunk in the writer's hand is in the file. */
  lemma FlushLeavesOnlyTheHand(s: State)
    requires Inv(s) && s.producer.Drain? && s.ring.count == 0 && !s.wrErr
    ensures s.given == s.file + InHand(s.mem, s.writer)
  {
    hide Held, IsMemory, AllFit, Supply;
    assert Items(s.ring) == [];
    assert Collected(s.mem, s.chunk, s.chunkLen) == [];
  }

  // ---- Nobody is left waiting ----

  /** Every array access is in range; only those asleep, idle, done or joining a live thread have no step. */
  lemma StepsAreSafe(s: State)
    requires Inv(s)
    ensures ProducerCan(s) <==> !s.producer.Idle? && !s.producer.Closed? && !s.producer.AllocWait?
                                && !s.producer.RefillWait? && !s.producer.DrainWait?
                                && (s.producer.Join? ==> s.writer.Exited?)
    ensures WriterCan(s, 0) <==> !s.writer.AwaitItem? && !s.writer.Exited?
  {
    hide Held, Items, IsMemory, AllFit, Fifo, Supply;
    if !s.producer.Closed? { BuffersCounted(s); }
  }

  lemma StuckIsQuiet(s: State)
    requires Inv(s) && !ProducerCan(s) && !WriterCan(s, 0)
    ensures s.producer.Idle? || s.producer.Closed?
    ensures s.ring.count == 0 && (s.writer.AwaitItem? || s.writer.Exited?)
  {
    hide Held, Items, IsMemory, AllFit, Supply, Fifo;
    StepsAreSafe(s);
    if !s.producer.Closed? { BuffersCounted(s); }
  }

  /** No deadlock: if neither thread can move, the producer is between calls or closed, and the queue is empty. */
  lemma StuckMeansDone(s: State)
    requires Inv(s) && !ProducerCan(s) && !WriterCan(s, 0)
    ensures s.producer.Idle? || s.producer.Closed?
    ensures s.ring.count == 0 && (s.writer.AwaitItem? || s.writer.Exited?)
    ensures !s.wrErr ==> s.given == s.file + Collected(s.mem, s.chunk, s.chunkLen)
  {
    hide Held, IsMemory, AllFit, Supply, ProducerOk, Phases, WriterOk, Collected;
    StuckIsQuiet(s);
    assert Items(s.ring) == [];
    assert InHand(s.mem, s.writer) == [] && Content(s.mem, Items(s.ring)) == [] && Unsent(s.producer) == [];
  }

  function ThenWork(k: Then): nat {
    match k
    case Resume(rest) => 30 * |rest|
    case ThenDrain(_) => 0
  }

  function ProducerWork(p: Producer, hasChunk: bool): nat {
    match p
    case Idle => 0
    case Sink(rest) => 30 * |rest| + (if hasChunk then 10 else 15)
    case Alloc(rest) => 30 * |rest| + 13
    case AllocWait(rest) => 30 * |rest| + 12
    case Flush(k) => ThenWork(k) + 9
    case FlushWait(_) => 0
    case Refill(k) => ThenWork(k) + 18
    case RefillWait(k) => ThenWork(k) + 17
    case Drain(_) => 10
    case DrainWait(_) => 9
    case Join => 3
    case Closed => 0
  }

  function WriterWork(w: Writer): nat {
    match w
    case Exited => 0
    case AwaitItem => 0
    case Check => 1
    case Writing(it, off) => (if off < it.len then 2 * (it.len - off) else 0) + 5
    case Return(_) => 4
  }

  function QueueWork(items: seq<Item>): nat {
    if items == [] then 0 else 2 * items[0].len + 6 + QueueWork(items[1..])
  }

  lemma {:induction false} QueueWorkSnoc(items: seq<Item>, it: Item)
    ensures QueueWork(items + [it]) == QueueWork(items) + 2 * it.len + 6
  {
    if items == [] {
      assert items + [it] == [it];
      assert [it][1..] == [];
    } else {
      assert (items + [it])[1..] == items[1..] + [it];
      QueueWorkSnoc(items[1..], it);
    }
  }

  /** An upper bound on the steps both threads can still take, while fwrite takes at least an octet or fails. */
  function Work(s: State): nat
    requires WellFormed(s.ring)
  {
    ProducerWork(s.producer, s.chunk.Some?) + 20 * s.chunkLen + QueueWork(Items(s.ring)) + WriterWork(s.writer)
  }

  lemma FlushProgress(s: State, agedOut: bool)
    requires Inv(s) && ProducerCan(s) && Control(ProducerDo(s, agedOut)) && s.producer.Flush?
    ensures Work(ProducerDo(s, agedOut)) < Work(s)
  {
    hide Held, Items, IsMemory, AllFit, Fifo, Supply, Phases, QueueWork;
    BuffersCounted(s);
    if !s.wrErr {
      var it := Item(s.chunk.value, s.chunkLen);
      PutAppends(s.ring, it);
      QueueWorkSnoc(Items(s.ring), it);
    }
  }

  lemma BufferProgress(s: State, agedOut: bool)
    requires Inv(s) && ProducerCan(s) && Control(ProducerDo(s, agedOut)) && (s.producer.Alloc? || s.producer.Refill?)
    ensures Work(ProducerDo(s, agedOut)) < Work(s)
  {
    hide Held, Items, IsMemory, AllFit, Fifo, Supply, Phases, QueueWork;
    if s.ring.freeCount > 0 { TakeFreeMoves(s.ring); }
  }

  lemma ProducerProgress(s: State, agedOut: bool)
    requires Inv(s) && ProducerCan(s) && Control(ProducerDo(s, agedOut))
    ensures Work(ProducerDo(s, agedOut)) < Work(s)
  {
    hide Held, Items, IsMemory, AllFit, Fifo, Supply, Phases, QueueWork;
    if s.producer.Flush? { FlushProgress(s, agedOut); }
    else if s.producer.Alloc? || s.producer.Refill? { BufferProgress(s, agedOut); }
    else { OtherProgress(s, agedOut); }
  }

  lemma OtherProgress(s: State, agedOut: bool)
    requires Inv(s) && ProducerCan(s) && Control(ProducerDo(s, agedOut))
    requires s.producer.Sink? || s.producer.Drain? || s.producer.Join?
    ensures Work(ProducerDo(s, agedOut)) < Work(s)
  {
    hide Held, Items, IsMemory, AllFit, Fifo, Supply, QueueWork, Conserved;
    if s.producer.Sink? { SinkProgress(s, agedOut); }
  }

  lemma SinkProgress(s: State, agedOut: bool)
    requires Inv(s) && ProducerCan(s) && Control(ProducerDo(s, agedOut)) && s.producer.Sink?
    ensures Work(ProducerDo(s, agedOut)) < Work(s)
  {
    hide Held, Items, IsMemory, AllFit, Fifo, Supply, QueueWork, Conserved, Fill;
    assert ProducerDo(s, agedOut).ring == s.ring;
  }

  lemma PopProgress(s: State)
    requires Inv(s) && s.writer.Check? && s.ring.count > 0 && WriterCan(s, 0) && Control(WriterDo(s, 0))
    ensures Work(WriterDo(s, 0)) < Work(s)
  {
    hide Held, Items, IsMemory, AllFit, Fifo, Supply, Phases, Front, InBounds;
    PopTakesOldest(s.ring);
    assert Items(s.ring)[1..] == Items(Pop(s.ring));
    assert WakeFull(s.producer) == s.producer;
  }

  lemma ReturnProgress(s: State)
    requires Inv(s) && s.writer.Return? && WriterCan(s, 0) && Control(WriterDo(s, 0))
    ensures Work(WriterDo(s, 0)) < Work(s)
  {
    hide Held, Items, IsMemory, AllFit, Fifo, Supply, Phases, GiveBack, InBounds, QueueWork;
    BuffersCounted(s);
    GiveBackMoves(s.ring, s.writer.buf);
  }

  lemma WriterProgress(s: State, taken: nat)
    requires Inv(s) && WriterCan(s, taken) && Control(WriterDo(s, taken))
    ensures Work(WriterDo(s, taken)) < Work(s)
  {
    hide Held, Items, IsMemory, AllFit, Fifo, Supply, Phases, GiveBack, Front, ProducerOk, QueueWork;
    if s.writer.Check? {
      if s.ring.count > 0 { PopProgress(s); }
    } else if s.writer.Return? {
      ReturnProgress(s);
    }
  }

  predicate IsThreadStep(e: Step) { e.ProducerStep? || e.WriterStep? }

  /**
   What a user of the writer gets, in every state of every run: the file is a prefix of
   what was given until a write fails, and all of it once closed; the queue never
   overflows and its wait is dead; in the end every buffer was freed exactly once.
   */
  lemma EveryRun(mem: Memory, es: seq<Step>)
    requires IsMemory(mem) && IsRun(Init(mem), es)
    ensures var s := After(Init(mem), es);
            && Inv(s) && s.ring.count <= SLOTS && !s.producer.FlushWait?
            && (!s.wrErr ==> |s.file| <= |s.given| && s.file == s.given[..|s.file|])
            && (s.producer.Closed? ==> s.freed == All() && (!s.wrErr ==> s.file == s.given))
  {
    hide Inv, IsMemory, Init;
    InitInv(mem);
    RunsKeepInv(Init(mem), es);
    var s := After(Init(mem), es);
    InvSays(s);
    if s.producer.Closed? { ClosedFileIsComplete(s); }
  }

  lemma InvSays(s: State)
    requires Inv(s)
    ensures s.ring.count <= SLOTS && !s.producer.FlushWait?
    ensures !s.wrErr ==> |s.file| <= |s.given| && s.file == s.given[..|s.file|]
  {
    hide Held, Items, IsMemory, AllFit, Supply, Content, InHand, Collected, Unsent;
  }

  /** Left to themselves the threads come to rest within Work(s) steps, so every call returns. */
  lemma {:induction false} ThreadsComeToRest(s: State, es: seq<Step>)
    requires Inv(s) && IsRun(s, es)
    requires forall i :: 0 <= i < |es| ==> IsThreadStep(es[i])
    ensures Inv(After(s, es)) && |es| + Work(After(s, es)) <= Work(s)
    decreases |es|
  {
    hide Work, ProducerCan, WriterCan, ProducerDo, WriterDo, InBounds, Fifo, ProducerOk, Phases, WriterOk, Supply;
    if es != [] {
      StepKeepsInv(s, es[0]);
      assert IsThreadStep(es[0]);
      if es[0].ProducerStep? { ProducerProgress(s, es[0].agedOut); } else { WriterProgress(s, es[0].taken); }
      ThreadsComeToRest(Do(s, es[0]), es[1..]);
    }
  }

  // ---- The shared fields in place ----

  /** The queue fields of struct pcapng; each method is what one thread does while it has the mutex. */
  class WriteQueue {
    const ring: RingBuffer
    var stopping: bool
    var failed: bool

    constructor ()
      ensures fresh(ring) && ring.Valid() && ring.View() == Start() && !stopping && !failed
      ensures fresh(ring.slots) && fresh(ring.free)
    {
      ring := new RingBuffer();
      stopping, failed := false, false;
    }

    method TryGetFree() returns (g: GotFree)
      requires ring.Valid()
      modifies ring`freeCount
      ensures ring.Valid() && (ring.View(), g) == GetFreeSection(old(ring.View()), failed)
    {
      if ring.freeCount == 0 && !failed {
        return WaitFree;
      }
      if ring.freeCount == 0 {
        return NoneFree;
      }
      var top := ring.TakeBuffer();
      return Free(top);
    }

    method TryEnqueue(b: nat, len: nat) returns (e: Enqueued)
      requires ring.Valid()
      modifies ring.slots, ring`next, ring`count
      ensures ring.Valid() && (ring.View(), e) == EnqueueSection(old(ring.View()), Item(b, len), failed)
    {
      if ring.count == SLOTS && !failed {
        return Full;
      }
      if failed {
        return Refused;
      }
      ring.PutItem(Item(b, len));
      return Queued;
    }

    method TryDequeue() returns (d: Dequeued)
      requires ring.Valid()
      modifies ring`first, ring`count
      ensures ring.Valid() && (ring.View(), d) == DequeueSection(old(ring.View()), stopping)
    {
      if ring.count == 0 && !stopping {
        return NothingYet;
      }
      if ring.count == 0 && stopping {
        return Leave;
      }
      var front := ring.PopItem();
      return Have(front);
    }

    method HandBack(b: nat)
      requires ring.Valid() && ring.freeCount < SLOTS
      modifies ring.free, ring`freeCount
      ensures ring.Valid() && ring.View() == GiveBack(old(ring.View()), b)
    {
      ring.ReturnBuffer(b);
    }
  }
}
