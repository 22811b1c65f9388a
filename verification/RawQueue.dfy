/**
 rawq of src/main.c: transport callbacks push received octets, a worker feeds them to the
 block parser, and a third thread may stop the queue. Every step below is one section of
 code that runs without giving up the mutex, or one octet of the copying and feeding done
 outside it; a run interleaves the steps of the threads in any order, with wake-ups that
 nobody asked for.
 */
module RawQueue {
  import opened Bytes
  import opened BufferRing

  /** Where rawq_push is. rest is what it has not taken a buffer for yet. */
  datatype Producer =
    | Idle
    | Acquire(rest: seq<byte>)
    | AwaitRoom(rest: seq<byte>)
    | Copying(buf: nat, piece: seq<byte>, k: nat, rest: seq<byte>)

  /** Where rawq_thread is. */
  datatype Worker =
    | Check
    | AwaitItem
    | Feeding(it: Item, k: nat)
    | Exited

  /** pushed, fed, dropped and late are history: nothing in the program reads them. */
  datatype State = State(
    ring: Ring, mem: Memory, stop: bool, producer: Producer, worker: Worker,
    pushed: seq<byte>, fed: seq<byte>, dropped: bool, late: bool)

  function Init(mem: Memory): State {
    State(Start(), mem, false, Idle, Check, [], [], false, false)
  }

  // ---- The two critical sections that decide something ----

  datatype Taken = Wait | Refused | Got(buf: nat)

  /** rawq_push after taking the mutex, or after waking with it. */
  function AcquireSection(r: Ring, stop: bool): (Ring, Taken)
    requires r.freeCount <= |r.free|
  {
    if r.freeCount == 0 && !stop then (r, Wait)
    else if stop || r.freeCount == 0 then (r, Refused)
    else (TakeFree(r), Got(TopFree(r)))
  }

  datatype Popped = Nothing | Leave | Have(it: Item)

  /** rawq_thread after taking the mutex, or after waking with it. */
  function PopSection(r: Ring, stop: bool): (Ring, Popped)
    requires r.count > 0 ==> |r.slots| == SLOTS && r.first < SLOTS
  {
    if r.count == 0 && !stop then (r, Nothing)
    else if r.count == 0 && stop then (r, Leave)
    else (Pop(r), Have(Front(r)))
  }

  // ---- Steps ----

  datatype Step =
    | Push(data: seq<byte>) | ProducerStep | WorkerStep | Stop | SpuriousProducer | SpuriousWorker

  function Next(rest: seq<byte>): Producer { if rest == [] then Idle else Acquire(rest) }

  /** pthread_cond_signal(&nonfull) and its like: only that thread waits there. */
  function WakeProducer(p: Producer): Producer { if p.AwaitRoom? then Acquire(p.rest) else p }

  function WakeWorker(w: Worker): Worker { if w.AwaitItem? then Check else w }

  function PieceSize(n: nat): (k: nat)
    ensures k <= n
  {
    if n > CHUNK then CHUNK else n
  }

  function Write(mem: Memory, b: nat, k: nat, x: byte): Memory
    requires IsMemory(mem) && b < SLOTS && k < CHUNK
  {
    mem[b := mem[b][..k] + [x] + mem[b][k + 1..]]
  }

  predicate ProducerCan(s: State) {
    match s.producer
    case Idle => false
    case AwaitRoom(_) => false
    case Acquire(rest) => s.ring.freeCount <= |s.ring.free|
    case Copying(b, piece, k, _) =>
      && IsMemory(s.mem) && k <= |piece| <= CHUNK && b < SLOTS
      && |s.ring.slots| == SLOTS && s.ring.next < SLOTS
  }

  function ProducerDo(s: State): State
    requires ProducerCan(s)
  {
    match s.producer
    case Idle => s
    case AwaitRoom(_) => s
    case Acquire(rest) =>
      var (ring, taken) := AcquireSection(s.ring, s.stop);
      var n := PieceSize(|rest|);
      (match taken
       case Wait => s.(producer := AwaitRoom(rest))
       case Refused => s.(producer := Idle, dropped := true)
       case Got(b) => s.(ring := ring, producer := Copying(b, rest[..n], 0, rest[n..])))
    case Copying(b, piece, k, rest) =>
      if k < |piece| then s.(mem := Write(s.mem, b, k, piece[k]), producer := Copying(b, piece, k + 1, rest))
      else s.(ring := Put(s.ring, Item(b, |piece|)), producer := Next(rest), worker := WakeWorker(s.worker),
              late := s.late || s.worker.Exited?)
  }

  predicate WorkerCan(s: State) {
    match s.worker
    case Check => s.ring.count > 0 ==> |s.ring.slots| == SLOTS && s.ring.first < SLOTS
    case AwaitItem => false
    case Feeding(it, k) => IsMemory(s.mem) && k <= it.len && Fits(it) && s.ring.freeCount < |s.ring.free|
    case Exited => false
  }

  function WorkerDo(s: State): State
    requires WorkerCan(s)
  {
    match s.worker
    case Check =>
      var (ring, popped) := PopSection(s.ring, s.stop);
      (match popped
       case Nothing => s.(worker := AwaitItem)
       case Leave => s.(worker := Exited)
       case Have(it) => s.(ring := ring, worker := Feeding(it, 0), producer := WakeProducer(s.producer)))
    case AwaitItem => s
    case Feeding(it, k) =>
      if k < it.len then s.(fed := s.fed + [s.mem[it.buf][k]], worker := Feeding(it, k + 1))
      else s.(ring := GiveBack(s.ring, it.buf), worker := Check)
    case Exited => s
  }

  predicate Can(s: State, e: Step) {
    match e
    case Push(_) => s.producer.Idle?
    case ProducerStep => ProducerCan(s)
    case WorkerStep => WorkerCan(s)
    case Stop => true
    case SpuriousProducer => true
    case SpuriousWorker => true
  }

  function Do(s: State, e: Step): State
    requires Can(s, e)
  {
    match e
    case Push(data) => s.(producer := Next(data), pushed := s.pushed + data)
    case ProducerStep => ProducerDo(s)
    case WorkerStep => WorkerDo(s)
    case Stop => s.(stop := true, producer := WakeProducer(s.producer), worker := WakeWorker(s.worker))
    case SpuriousProducer => s.(producer := WakeProducer(s.producer))
    case SpuriousWorker => s.(worker := WakeWorker(s.worker))
  }

  // ---- What holds between any two steps ----

  function ProducerHolds(p: Producer): multiset<nat> { if p.Copying? then multiset{p.buf} else multiset{} }

  function WorkerHolds(w: Worker): multiset<nat> { if w.Feeding? then multiset{w.it.buf} else multiset{} }

  /** Every buffer is free, queued, being filled or being fed, and only one of these. */
  predicate Conserved(s: State) {
    && WellFormed(s.ring)
    && Held(s.ring) + ProducerHolds(s.producer) + WorkerHolds(s.worker) == All()
  }

  predicate InBounds(s: State)
    requires WellFormed(s.ring)
  {
    && IsMemory(s.mem) && AllFit(Items(s.ring))
    && (s.producer.Copying? ==> s.producer.k <= |s.producer.piece| <= CHUNK && s.producer.buf < SLOTS
                                && s.mem[s.producer.buf][..s.producer.k] == s.producer.piece[..s.producer.k]
                                && |s.producer.piece| > 0)
    && (s.producer.Acquire? || s.producer.AwaitRoom? ==> s.producer.rest != [])
    && (s.worker.Feeding? ==> Fits(s.worker.it) && s.worker.k <= s.worker.it.len)
  }

  /** What the worker still has to feed of the item in its hand. */
  function InHand(s: State): seq<byte>
    requires IsMemory(s.mem) && (s.worker.Feeding? ==> Fits(s.worker.it) && s.worker.k <= s.worker.it.len)
  {
    if s.worker.Feeding? then s.mem[s.worker.it.buf][s.worker.k..s.worker.it.len] else []
  }

  function Accepted(s: State): seq<byte>
    requires WellFormed(s.ring) && InBounds(s)
  {
    s.fed + InHand(s) + Content(s.mem, Items(s.ring)) + (if s.producer.Copying? then s.producer.piece else [])
  }

  function Unsent(p: Producer): seq<byte> { if p.Idle? then [] else p.rest }

  predicate IsPrefix(a: seq<byte>, b: seq<byte>) { |a| <= |b| && a == b[..|a|] }

  /** First in, first out: nothing is lost, doubled or reordered. */
  predicate Fifo(s: State)
    requires WellFormed(s.ring) && InBounds(s)
  {
    if s.dropped then s.stop && !s.producer.Copying? && IsPrefix(Accepted(s), s.pushed)
    else s.pushed == Accepted(s) + Unsent(s.producer)
  }

  /** Whoever sleeps has reason to: the wake-up it waits for is still to come. */
  predicate SleepersWaitRightly(s: State) {
    && (s.producer.AwaitRoom? ==> s.ring.count >= SLOTS - 1 && !s.stop)
    && (s.worker.AwaitItem? ==> s.ring.count == 0 && !s.stop)
    && (s.worker.Exited? ==> s.stop && s.ring.count + (if s.producer.Copying? then 1 else 0) <= 1
                             && (!s.late ==> s.ring.count == 0))
    && (s.late ==> s.worker.Exited?)
  }

  predicate Inv(s: State) {
    Conserved(s) && InBounds(s) && Fifo(s) && SleepersWaitRightly(s)
  }

  lemma InitInv(mem: Memory)
    requires IsMemory(mem)
    ensures Inv(Init(mem))
  {
    StartHoldsAll();
    assert Content(mem, Items(Start())) == [];
  }

  /** count + free + the buffers in hand is 32, and no buffer is in two places. */
  lemma BuffersCounted(s: State)
    requires Conserved(s)
    ensures s.ring.count + s.ring.freeCount + (if s.producer.Copying? then 1 else 0)
            + (if s.worker.Feeding? then 1 else 0) == 32
    ensures s.producer.Copying? ==>
              s.producer.buf !in Bufs(Items(s.ring)) && s.ring.count < SLOTS
              && (s.worker.Feeding? ==> s.worker.it.buf != s.producer.buf)
  {
    HeldSize(s.ring);
    AllOnce(0);
    if s.producer.Copying? {
      var b := s.producer.buf;
      AllOnce(b);
      assert (Held(s.ring) + ProducerHolds(s.producer) + WorkerHolds(s.worker))[b] >= 1;
    }
  }

  lemma TakeMoves(s: State)
    requires Inv(s) && s.producer.Acquire? && ProducerCan(s) && s.ring.freeCount > 0 && !s.stop
    ensures Conserved(ProducerDo(s)) && InBounds(ProducerDo(s))
    ensures Items(ProducerDo(s).ring) == Items(s.ring) && ProducerDo(s).ring.count == s.ring.count
  {
    hide Content, Held, Items, TakeFree, TopFree, AllFit, IsPrefix, Fifo, SleepersWaitRightly;
    BuffersCounted(s);
    TakeFreeMoves(s.ring);
    var t, b := ProducerDo(s), TopFree(s.ring);
    AllOnce(b);
    assert (Held(t.ring) + multiset{b} + WorkerHolds(s.worker))[b] >= 1;
  }

  lemma TakeTouches(s: State)
    requires s.producer.Acquire? && ProducerCan(s) && s.ring.freeCount > 0 && !s.stop
    ensures var t, n, rest := ProducerDo(s), PieceSize(|s.producer.rest|), s.producer.rest;
            && t.mem == s.mem && t.fed == s.fed && t.pushed == s.pushed && t.worker == s.worker && t.stop == s.stop
            && t.dropped == s.dropped && t.late == s.late
            && t.producer.Copying? && t.producer.piece == rest[..n] && t.producer.rest == rest[n..]
  {
    hide TakeFree, TopFree;
  }

  lemma TakeKeeps(s: State)
    requires Inv(s) && s.producer.Acquire? && ProducerCan(s) && s.ring.freeCount > 0 && !s.stop
    ensures Inv(ProducerDo(s))
  {
    hide Content, Held, Items, AllFit, IsPrefix, IsMemory, ProducerDo, PieceSize;
    TakeMoves(s);
    TakeTouches(s);
    BuffersCounted(s);
    var t := ProducerDo(s);
    SplitRest(s.fed + InHand(s) + Content(s.mem, Items(s.ring)), s.producer.rest, PieceSize(|s.producer.rest|));
  }

  lemma SplitRest(a: seq<byte>, rest: seq<byte>, n: nat)
    requires n <= |rest|
    ensures a + [] + rest == (a + rest[..n]) + rest[n..]
  {
    assert rest == rest[..n] + rest[n..];
  }

  lemma NoTakeKeeps(s: State)
    requires Inv(s) && s.producer.Acquire? && ProducerCan(s) && (s.ring.freeCount == 0 || s.stop)
    ensures Inv(ProducerDo(s))
  {
    hide Content, Held, Items, TakeFree, TopFree, AllFit;
    BuffersCounted(s);
    assert Accepted(ProducerDo(s)) == Accepted(s);
    assert Accepted(s) == (Accepted(s) + s.producer.rest)[..|Accepted(s)|];
  }

  lemma CopyKeeps(s: State)
    requires Inv(s) && s.producer.Copying? && s.producer.k < |s.producer.piece|
    ensures ProducerCan(s) && Inv(ProducerDo(s))
  {
    hide Held;
    BuffersCounted(s);
    var t, p := ProducerDo(s), s.producer;
    ContentElsewhere(s.mem, t.mem, Items(s.ring), p.buf);
    assert t.mem[p.buf][..p.k] == s.mem[p.buf][..p.k];
    assert t.mem[p.buf][..p.k + 1] == t.mem[p.buf][..p.k] + [p.piece[p.k]];
    assert p.piece[..p.k + 1] == p.piece[..p.k] + [p.piece[p.k]];
    assert InHand(t) == InHand(s);
    assert Accepted(t) == Accepted(s);
  }

  lemma EnqueueKeeps(s: State)
    requires Inv(s) && s.producer.Copying? && s.producer.k == |s.producer.piece|
    ensures ProducerCan(s) && Inv(ProducerDo(s))
  {
    hide Held, Content;
    BuffersCounted(s);
    var t, p := ProducerDo(s), s.producer;
    var it := Item(p.buf, |p.piece|);
    PutAppends(s.ring, it);
    ContentSnoc(s.mem, Items(s.ring), it);
    assert p.piece[..p.k] == p.piece;
    assert Accepted(t) == Accepted(s);
  }

  lemma PopKeeps(s: State)
    requires Inv(s) && s.worker.Check?
    ensures WorkerCan(s) && Inv(WorkerDo(s))
  {
    if s.ring.count > 0 { PopItemKeeps(s); }
    else { assert Accepted(WorkerDo(s)) == Accepted(s); }
  }

  lemma PopRing(r: Ring)
    requires WellFormed(r) && r.count > 0 && AllFit(Items(r))
    ensures WellFormed(Pop(r)) && AllFit(Items(Pop(r))) && Fits(Front(r))
    ensures Items(r) == [Front(r)] + Items(Pop(r)) && Held(r) == Held(Pop(r)) + multiset{Front(r).buf}
  {
    hide Held, Items, Front;
    PopTakesOldest(r);
    assert Front(r) in Items(r);
  }

  lemma PopTouches(s: State)
    requires WellFormed(s.ring) && s.worker.Check? && s.ring.count > 0
    ensures WorkerCan(s)
    ensures var t := WorkerDo(s);
      && t.ring == Pop(s.ring) && t.worker == Feeding(Front(s.ring), 0) && t.mem == s.mem
      && t.producer == WakeProducer(s.producer)
  {
  }

  lemma WokenHolds(p: Producer)
    ensures ProducerHolds(WakeProducer(p)) == ProducerHolds(p)
    ensures p.Copying? ==> WakeProducer(p) == p
    ensures WakeProducer(p).Copying? ==> p.Copying?
    ensures WakeProducer(p).Acquire? || WakeProducer(p).AwaitRoom? ==>
      (p.Acquire? || p.AwaitRoom?) && WakeProducer(p).rest == p.rest
  {
  }

  lemma PopMoves(s: State)
    requires Inv(s) && s.worker.Check? && s.ring.count > 0
    ensures WorkerCan(s) && Conserved(WorkerDo(s)) && InBounds(WorkerDo(s))
    ensures Items(s.ring) == [Front(s.ring)] + Items(WorkerDo(s).ring) && Fits(Front(s.ring))
  {
    hide Held, Items, Front, Content, IsPrefix, Fifo, SleepersWaitRightly, AllFit, Fits, IsMemory, WorkerDo, WorkerCan,
         WakeProducer, ProducerHolds, Pop;
    PopRing(s.ring);
    PopTouches(s);
    WokenHolds(s.producer);
  }

  lemma PopItemKeeps(s: State)
    requires Inv(s) && s.worker.Check? && s.ring.count > 0
    ensures WorkerCan(s) && Inv(WorkerDo(s))
  {
    hide Held, Items, Front, Content, IsPrefix, IsMemory, AllFit;
    PopMoves(s);
    BuffersCounted(s);
    var t := WorkerDo(s);
    PopContent(s.mem, Items(s.ring), Front(s.ring), Items(t.ring));
    Reassociate(s.fed, InHand(t), Content(t.mem, Items(t.ring)));
    assert s.fed + [] == s.fed;
    assert Accepted(t) == Accepted(s);
  }

  lemma FeedKeeps(s: State)
    requires Inv(s) && s.worker.Feeding? && s.worker.k < s.worker.it.len
    ensures WorkerCan(s) && Inv(WorkerDo(s))
  {
    hide Held, Content, Items, AllFit, IsPrefix, IsMemory, Unsent;
    BuffersCounted(s);
    RowFits(s.mem, s.worker.it);
    MoveOne(s.fed, s.mem[s.worker.it.buf], s.worker.k, s.worker.it.len);
    var t := WorkerDo(s);
    assert t.fed + InHand(t) == s.fed + InHand(s);
    assert Accepted(t) == Accepted(s);
    assert Fifo(t);
  }

  lemma MoveOne(fed: seq<byte>, row: seq<byte>, k: nat, n: nat)
    requires k < n <= |row|
    ensures fed + [row[k]] + row[k + 1..n] == fed + row[k..n]
  {
  }

  lemma ReturnKeeps(s: State)
    requires Inv(s) && s.worker.Feeding? && s.worker.k == s.worker.it.len
    ensures WorkerCan(s) && Inv(WorkerDo(s))
  {
    hide Held, Content, Items, GiveBack, AllFit, IsPrefix;
    BuffersCounted(s);
    var t := WorkerDo(s);
    GiveBackMoves(s.ring, s.worker.it.buf);
    assert InHand(s) == [] == InHand(t);
    assert Accepted(t) == Accepted(s);
  }

  lemma PushKeeps(s: State, data: seq<byte>)
    requires Inv(s) && s.producer.Idle?
    ensures Inv(Do(s, Push(data)))
  {
    hide Held, Content, AllFit, Items, IsMemory;
    assert Accepted(Do(s, Push(data))) == Accepted(s);
    if s.dropped { assert IsPrefix(Accepted(s), s.pushed + data); }
  }

  lemma StopKeeps(s: State)
    requires Inv(s)
    ensures Inv(Do(s, Stop))
  {
    hide Held, Content, AllFit, Items, IsMemory, IsPrefix;
    assert Accepted(Do(s, Stop)) == Accepted(s);
  }

  lemma WakeProducerKeeps(s: State)
    requires Inv(s)
    ensures Inv(Do(s, SpuriousProducer))
  {
    hide Held, Content, AllFit, Items, IsMemory, IsPrefix;
    assert Accepted(Do(s, SpuriousProducer)) == Accepted(s);
  }

  lemma WakeWorkerKeeps(s: State)
    requires Inv(s)
    ensures Inv(Do(s, SpuriousWorker))
  {
    hide Held, Content, AllFit, Items, IsMemory, IsPrefix;
    assert Accepted(Do(s, SpuriousWorker)) == Accepted(s);
  }

  /** Every step of every thread keeps the invariant, whatever the interleaving. */
  lemma StepKeepsInv(s: State, e: Step)
    requires Inv(s) && Can(s, e)
    ensures Inv(Do(s, e))
  {
    hide Inv, ProducerDo, WorkerDo, WorkerCan;
    match e {
      case Push(data) => PushKeeps(s, data);
      case ProducerStep => ProducerKeeps(s);
      case WorkerStep => WorkerKeeps(s);
      case Stop => StopKeeps(s);
      case SpuriousProducer => WakeProducerKeeps(s);
      case SpuriousWorker => WakeWorkerKeeps(s);
    }
  }

  lemma ProducerKeeps(s: State)
    requires Inv(s) && ProducerCan(s)
    ensures Inv(ProducerDo(s))
  {
    hide Conserved, Fifo, SleepersWaitRightly, ProducerDo, Items, IsMemory, WellFormed;
    if s.producer.Acquire? {
      if s.ring.freeCount == 0 || s.stop { NoTakeKeeps(s); } else { TakeKeeps(s); }
    } else if s.producer.k < |s.producer.piece| {
      CopyKeeps(s);
    } else {
      EnqueueKeeps(s);
    }
  }

  lemma WorkerKeeps(s: State)
    requires Inv(s) && WorkerCan(s)
    ensures Inv(WorkerDo(s))
  {
    hide Conserved, Fifo, SleepersWaitRightly, WorkerDo, Items, IsMemory, WellFormed;
    if s.worker.Check? {
      PopKeeps(s);
    } else if s.worker.k < s.worker.it.len {
      FeedKeeps(s);
    } else {
      ReturnKeeps(s);
    }
  }

  // ---- Runs ----

  ghost predicate IsRun(s: State, es: seq<Step>)
    decreases |es|
  {
    es == [] || (Can(s, es[0]) && IsRun(Do(s, es[0]), es[1..]))
  }

  ghost function After(s: State, es: seq<Step>): State
    requires IsRun(s, es)
    decreases |es|
  {
    if es == [] then s else After(Do(s, es[0]), es[1..])
  }

  /** In every state of every run the octets fed are the first ones pushed, in order. */
  lemma {:induction false} RunsAreFifo(s: State, es: seq<Step>)
    requires Inv(s) && IsRun(s, es)
    ensures Inv(After(s, es)) && IsPrefix(After(s, es).fed, After(s, es).pushed)
    decreases |es|
  {
    hide Inv, Can, Do;
    if es == [] {
      FedIsPrefix(s);
    } else {
      StepKeepsInv(s, es[0]);
      RunsAreFifo(Do(s, es[0]), es[1..]);
    }
  }

  lemma FedIsPrefix(s: State)
    requires Inv(s)
    ensures IsPrefix(s.fed, s.pushed)
  {
    hide Content, Held, Items, AllFit;
  }

  /**
   What a user of the queue gets, in every state of every run: the octets fed are a prefix
   of those pushed, all of them when nothing is left to do, unless a stop came; no
   buffer is lost or doubled, and the ring never overflows.
   */
  lemma EveryRun(mem: Memory, es: seq<Step>)
    requires IsMemory(mem) && IsRun(Init(mem), es)
    ensures var s := After(Init(mem), es);
            && Inv(s) && IsPrefix(s.fed, s.pushed)
            && s.ring.count + s.ring.freeCount + (if s.producer.Copying? then 1 else 0)
               + (if s.worker.Feeding? then 1 else 0) == 32
            && (!ProducerCan(s) && !WorkerCan(s) && !s.stop ==> s.fed == s.pushed)
  {
    hide IsMemory, Init, Conserved, InBounds, Fifo, IsPrefix, ProducerCan, WorkerCan;
    InitInv(mem);
    RunsAreFifo(Init(mem), es);
    var s := After(Init(mem), es);
    BuffersCounted(s);
    if !ProducerCan(s) && !WorkerCan(s) && !s.stop { StuckMeansDone(s); }
  }

  /** The unchecked enqueue always has a slot, and the queue it leaves is the old one and the new item. */
  lemma EnqueueHasRoom(s: State)
    requires Inv(s) && s.producer.Copying? && s.producer.k == |s.producer.piece|
    ensures s.ring.count < SLOTS && ProducerCan(s) && WellFormed(ProducerDo(s).ring)
    ensures Items(ProducerDo(s).ring) == Items(s.ring) + [Item(s.producer.buf, |s.producer.piece|)]
  {
    hide Held, Items, Fifo, IsMemory, AllFit, Content;
    BuffersCounted(s);
    StepsAreSafe(s);
    PutAppends(s.ring, Item(s.producer.buf, |s.producer.piece|));
    PutTouches(s);
  }

  lemma PutTouches(s: State)
    requires ProducerCan(s) && s.producer.Copying? && s.producer.k == |s.producer.piece|
    ensures ProducerDo(s).ring == Put(s.ring, Item(s.producer.buf, |s.producer.piece|))
  {
  }

  // ---- Nobody is left waiting ----

  /** Every array access of a step is in range; only sleepers, the idle and the exited have no step. */
  lemma StepsAreSafe(s: State)
    requires Inv(s)
    ensures ProducerCan(s) <==> !s.producer.Idle? && !s.producer.AwaitRoom?
    ensures WorkerCan(s) <==> !s.worker.AwaitItem? && !s.worker.Exited?
  {
    hide Content, Held, Items, AllFit, IsMemory;
    BuffersCounted(s);
  }

  /**
   No deadlock, although nonfull is signalled before the buffer is back: if neither thread
   can move, the producer has nothing to push, and everything pushed was fed unless a stop
   overtook it. Even then at most one accepted chunk stays behind.
   */
  lemma StuckMeansDone(s: State)
    requires Inv(s) && !ProducerCan(s) && !WorkerCan(s)
    ensures s.producer.Idle?
    ensures s.worker.AwaitItem? || s.worker.Exited?
    ensures !s.dropped && !s.late ==> s.fed == s.pushed
    ensures s.worker.AwaitItem? ==> s.fed == s.pushed
    ensures |Accepted(s)| <= |s.fed| + CHUNK
  {
    hide Held, IsPrefix;
    StepsAreSafe(s);
    assert s.ring.count <= 1;
    if s.ring.count == 0 {
      assert Items(s.ring) == [];
    } else {
      var it := Items(s.ring)[0];
      assert it in Items(s.ring);
      assert Items(s.ring)[1..] == [];
      assert Content(s.mem, Items(s.ring)) == s.mem[it.buf][..it.len] + [];
    }
  }

  function ProducerWork(p: Producer): nat {
    match p
    case Idle => 0
    case AwaitRoom(rest) => 20 * |rest|
    case Acquire(rest) => 20 * |rest| + 1
    case Copying(_, piece, k, rest) => 20 * |rest| + 17 * |piece| + (if k < |piece| then |piece| - k else 0) + 1
  }

  function WorkerWork(w: Worker): nat {
    match w
    case Exited => 0
    case AwaitItem => 0
    case Check => 1
    case Feeding(it, k) => (if k < it.len then 2 * (it.len - k) else 0) + 2
  }

  /** An upper bound on the steps that pushing, copying and feeding can still take. */
  function Work(s: State): nat
    requires WellFormed(s.ring) && InBounds(s)
  {
    ProducerWork(s.producer) + WorkerWork(s.worker) + QueueWork(s.mem, s.ring)
  }

  function QueueWork(mem: Memory, r: Ring): nat
    requires WellFormed(r) && IsMemory(mem) && AllFit(Items(r))
  {
    2 * |Content(mem, Items(r))| + 4 * r.count
  }

  lemma AcquireProgress(s: State)
    requires Inv(s) && s.producer.Acquire? && ProducerCan(s) && Inv(ProducerDo(s))
    ensures Work(ProducerDo(s)) < Work(s)
  {
    hide Held, IsPrefix, Fifo, Items, Content, AllFit, IsMemory, Conserved, TakeFree, TopFree, QueueWork;
    if s.ring.freeCount > 0 && !s.stop {
      TakeTouches(s);
      SameQueueWork(s);
      SplitRest([], s.producer.rest, PieceSize(|s.producer.rest|));
    }
  }

  lemma SameQueueWork(s: State)
    requires Inv(s) && s.producer.Acquire? && ProducerCan(s) && s.ring.freeCount > 0 && !s.stop && Inv(ProducerDo(s))
    ensures QueueWork(ProducerDo(s).mem, ProducerDo(s).ring) == QueueWork(s.mem, s.ring)
  {
    hide Held, IsPrefix, Fifo, Items, Content, AllFit, IsMemory;
    TakeFreeMoves(s.ring);
  }

  lemma ProducerProgress(s: State)
    requires Inv(s) && ProducerCan(s) && Inv(ProducerDo(s))
    ensures Work(ProducerDo(s)) < Work(s)
  {
    hide Conserved, Fifo, Work, ProducerDo, SleepersWaitRightly;
    if s.producer.Acquire? {
      AcquireProgress(s);
    } else if s.producer.k < |s.producer.piece| {
      CopyProgress(s);
    } else {
      EnqueueProgress(s);
    }
  }

  lemma CopyProgress(s: State)
    requires Inv(s) && s.producer.Copying? && s.producer.k < |s.producer.piece|
    requires ProducerCan(s) && Inv(ProducerDo(s))
    ensures Work(ProducerDo(s)) < Work(s)
  {
    hide Held, IsPrefix, Fifo, Items, Content;
    BuffersCounted(s);
    ContentElsewhere(s.mem, ProducerDo(s).mem, Items(s.ring), s.producer.buf);
  }

  lemma EnqueueProgress(s: State)
    requires Inv(s) && s.producer.Copying? && s.producer.k == |s.producer.piece|
    requires ProducerCan(s) && Inv(ProducerDo(s))
    ensures Work(ProducerDo(s)) < Work(s)
  {
    hide Held, IsPrefix, Fifo, Items, Content;
    BuffersCounted(s);
    var it := Item(s.producer.buf, |s.producer.piece|);
    PutAppends(s.ring, it);
    ContentSnoc(s.mem, Items(s.ring), it);
  }

  lemma WorkerProgress(s: State)
    requires Inv(s) && WorkerCan(s) && Inv(WorkerDo(s))
    ensures Work(WorkerDo(s)) < Work(s)
  {
    hide Held, IsPrefix, Fifo, Items, Content, IsMemory, AllFit;
    if s.worker.Check? {
      if s.ring.count > 0 { PopProgress(s); }
    } else if s.worker.k == s.worker.it.len {
      BuffersCounted(s);
      GiveBackMoves(s.ring, s.worker.it.buf);
    }
  }

  lemma PopProgress(s: State)
    requires Inv(s) && s.worker.Check? && s.ring.count > 0 && WorkerCan(s) && Inv(WorkerDo(s))
    ensures Work(WorkerDo(s)) < Work(s)
  {
    hide Held, IsPrefix, Fifo, Items;
    BuffersCounted(s);
    PopTakesOldest(s.ring);
    assert Items(s.ring)[1..] == Items(Pop(s.ring));
  }

  predicate IsThreadStep(e: Step) { e.ProducerStep? || e.WorkerStep? }

  /** Left to themselves the threads come to rest, within Work(s) steps. */
  lemma {:induction false} ThreadsComeToRest(s: State, es: seq<Step>)
    requires Inv(s) && IsRun(s, es)
    requires forall i :: 0 <= i < |es| ==> IsThreadStep(es[i])
    ensures Inv(After(s, es)) && |es| + Work(After(s, es)) <= Work(s)
    decreases |es|
  {
    hide Work, ProducerCan, WorkerCan, ProducerDo, WorkerDo, Conserved, InBounds, Fifo, SleepersWaitRightly;
    if es != [] {
      StepKeepsInv(s, es[0]);
      assert IsThreadStep(es[0]);
      if es[0].ProducerStep? { ProducerProgress(s); } else { WorkerProgress(s); }
      ThreadsComeToRest(Do(s, es[0]), es[1..]);
    }
  }

  // ---- Stopping ----

  predicate PushFree(es: seq<Step>) { forall i :: 0 <= i < |es| ==> !es[i].Push? }

  predicate Draining(s: State) { s.stop && s.producer.Idle? && !s.dropped && !s.late }

  /** A stop between pushes loses nothing: once the worker has left, all that was pushed was fed. */
  lemma {:induction false} StopDrains(s: State, es: seq<Step>)
    requires Inv(s) && Draining(s) && IsRun(s, es)
    requires PushFree(es)
    ensures Inv(After(s, es)) && After(s, es).pushed == s.pushed
    ensures After(s, es).worker.Exited? ==> After(s, es).fed == s.pushed
    decreases |es|
  {
    hide Conserved, InBounds, Fifo, SleepersWaitRightly;
    if es == [] {
      if s.worker.Exited? { StuckMeansDone(s); }
    } else {
      assert !es[0].Push?;
      StepKeepsInv(s, es[0]);
      var t := Do(s, es[0]);
      assert Draining(t) && t.pushed == s.pushed;
      StopDrains(t, es[1..]);
    }
  }

  lemma {:induction false} RunConcat(s: State, a: seq<Step>, b: seq<Step>)
    requires IsRun(s, a) && IsRun(After(s, a), b)
    ensures IsRun(s, a + b) && After(s, a + b) == After(After(s, a), b)
    decreases |a|
  {
    hide Can, Do;
    if a == [] {
      assert a + b == b;
    } else {
      RunConcat(Do(s, a[0]), a[1..], b);
      assert (a + b)[0] == a[0] && (a + b)[1..] == a[1..] + b;
    }
  }

  lemma FirstStep(s: State, e: Step, es: seq<Step>)
    requires Can(s, e) && IsRun(Do(s, e), es)
    ensures IsRun(s, [e] + es) && After(s, [e] + es) == After(Do(s, e), es)
  {
    hide Can, Do;
    assert ([e] + es)[1..] == es;
  }

  lemma WorkerGoesOn(s: State)
    requires Inv(s) && s.stop && !s.worker.Exited?
    ensures Can(s, WorkerStep)
    ensures var t := Do(s, WorkerStep);
            && Inv(t) && t.stop && t.producer == s.producer && t.pushed == s.pushed && t.dropped == s.dropped
            && Work(t) < Work(s)
  {
    hide Work, InBounds, Fifo, Conserved;
    StepsAreSafe(s);
    StepKeepsInv(s, WorkerStep);
    WorkerProgress(s);
  }

  lemma ProducerGoesOn(s: State)
    requires Inv(s) && s.stop && s.worker.Exited? && !s.producer.Idle?
    ensures Can(s, ProducerStep)
    ensures var t := Do(s, ProducerStep);
            && Inv(t) && t.stop && t.worker.Exited? && t.pushed == s.pushed && t.fed == s.fed && Work(t) < Work(s)
  {
    hide Work, InBounds, Fifo, Conserved;
    StepsAreSafe(s);
    StepKeepsInv(s, ProducerStep);
    ProducerProgress(s);
  }

  /** Once stopped the worker, left to itself, drains the queue and leaves, whatever the producer is doing. */
  lemma WorkerLeaves(s: State) returns (es: seq<Step>)
    requires Inv(s) && s.stop
    ensures PushFree(es) && IsRun(s, es)
    ensures var t := After(s, es);
            && Inv(t) && t.worker.Exited? && t.producer == s.producer && t.pushed == s.pushed && t.dropped == s.dropped
            && t.stop
    decreases Work(s)
  {
    hide Work, InBounds, Fifo, Can, Do, Conserved, SleepersWaitRightly;
    if s.worker.Exited? {
      return [];
    }
    var e := WorkerStep;
    WorkerGoesOn(s);
    var rest := WorkerLeaves(Do(s, e));
    FirstStep(s, e, rest);
    es := [e] + rest;
  }

  /** With the worker gone the producer finishes its chunk, is refused another one, and nothing more is fed. */
  lemma ProducerLeaves(s: State) returns (es: seq<Step>)
    requires Inv(s) && s.stop && s.worker.Exited?
    ensures PushFree(es) && IsRun(s, es)
    ensures var t := After(s, es);
            && Inv(t) && t.worker.Exited? && t.producer.Idle? && t.pushed == s.pushed && t.fed == s.fed
    decreases Work(s)
  {
    hide Work, InBounds, Fifo, Can, Do, Conserved, SleepersWaitRightly;
    if s.producer.Idle? {
      return [];
    }
    var e := ProducerStep;
    ProducerGoesOn(s);
    var rest := ProducerLeaves(Do(s, e));
    FirstStep(s, e, rest);
    es := [e] + rest;
  }

  ghost predicate AtRest(s: State) { !ProducerCan(s) && !WorkerCan(s) }

  /** However the threads go on after a stop, when they come to rest all that was pushed was fed. */
  ghost predicate StopLosesNothing(s: State) {
    forall es: seq<Step> :: IsRun(Do(s, Stop), es) && PushFree(es) && AtRest(After(Do(s, Stop), es)) ==>
      After(Do(s, Stop), es).fed == After(Do(s, Stop), es).pushed
  }

  /** A stop loses nothing exactly if no push is in progress. */
  lemma StopExact(s: State)
    requires Inv(s) && !s.stop
    ensures StopLosesNothing(s) <==> s.producer.Idle?
  {
    hide Conserved, InBounds, Fifo, IsRun, After, ProducerDo, WorkerDo;
    var u := Do(s, Stop);
    StepKeepsInv(s, Stop);
    NothingDroppedYet(s);
    if s.producer.Idle? {
      forall es: seq<Step> | IsRun(u, es) && PushFree(es) && AtRest(After(u, es))
        ensures After(u, es).fed == After(u, es).pushed
      {
        StopDrains(u, es);
        StuckMeansDone(After(u, es));
      }
    } else {
      var a := WorkerLeaves(u);
      var t := After(u, a);
      StillUnsent(t);
      var b := ProducerLeaves(t);
      RunConcat(u, a, b);
      StepsAreSafe(After(u, a + b));
    }
  }

  lemma NothingDroppedYet(s: State)
    requires Inv(s) && !s.stop
    ensures !s.dropped && !s.late
  {
    hide Held, Content, Items, IsMemory, AllFit, IsPrefix;
  }

  lemma StillUnsent(s: State)
    requires Inv(s) && !s.dropped && !s.producer.Idle?
    ensures |s.fed| < |s.pushed|
  {
    hide Held, Content, Items, IsMemory, AllFit, IsPrefix;
  }

  /** For instance: a stop while one octet is being copied, and the worker leaves first. */
  lemma StopLosesAnOctet(mem: Memory)
    requires IsMemory(mem)
    ensures var es := [Push([1]), ProducerStep, Stop, WorkerStep, ProducerStep, ProducerStep];
      && IsRun(Init(mem), es)
      && var t := After(Init(mem), es);
         t.producer.Idle? && t.worker.Exited? && t.pushed == [1] && t.fed == []
  {
    var s0 := Init(mem);
    var s1 := Do(s0, Push([1]));
    var s2 := Do(s1, ProducerStep);
    var s3 := Do(s2, Stop);
    var s4 := Do(s3, WorkerStep);
    var s5 := Do(s4, ProducerStep);
    var s6 := Do(s5, ProducerStep);
    hide Can, Do;
    assert IsRun(s6, []) && After(s6, []) == s6;
    FirstStep(s5, ProducerStep, []);
    FirstStep(s4, ProducerStep, [ProducerStep] + []);
    FirstStep(s3, WorkerStep, [ProducerStep] + ([ProducerStep] + []));
    FirstStep(s2, Stop, [WorkerStep] + ([ProducerStep] + ([ProducerStep] + [])));
    FirstStep(s1, ProducerStep, [Stop] + ([WorkerStep] + ([ProducerStep] + ([ProducerStep] + []))));
    FirstStep(s0, Push([1]), [ProducerStep] + ([Stop] + ([WorkerStep] + ([ProducerStep] + ([ProducerStep] + [])))));
    assert [Push([1]), ProducerStep, Stop, WorkerStep, ProducerStep, ProducerStep]
      == [Push([1])] + ([ProducerStep] + ([Stop] + ([WorkerStep] + ([ProducerStep] + ([ProducerStep] + [])))));
  }

  // ---- The shared fields in place ----

  /** struct rawq. Each method is what one thread does between taking and giving up the mutex. */
  class Rawq {
    const ring: RingBuffer
    var stopping: bool

    constructor ()
      ensures fresh(ring) && ring.Valid() && ring.View() == Start() && !stopping
      ensures fresh(ring.slots) && fresh(ring.free)
    {
      ring := new RingBuffer();
      stopping := false;
    }

    method TryAcquire() returns (t: Taken)
      requires ring.Valid()
      modifies ring`freeCount
      ensures ring.Valid() && (ring.View(), t) == AcquireSection(old(ring.View()), stopping)
    {
      if ring.freeCount == 0 && !stopping {
        return Wait;
      }
      if stopping || ring.freeCount == 0 {
        return Refused;
      }
      var b := ring.TakeBuffer();
      return Got(b);
    }

    method Enqueue(b: nat, n: nat)
      requires ring.Valid()
      modifies ring.slots, ring`next, ring`count
      ensures ring.Valid() && ring.View() == Put(old(ring.View()), Item(b, n))
    {
      ring.PutItem(Item(b, n));
    }

    method TryPop() returns (p: Popped)
      requires ring.Valid()
      modifies ring`first, ring`count
      ensures ring.Valid() && (ring.View(), p) == PopSection(old(ring.View()), stopping)
    {
      if ring.count == 0 && !stopping {
        return Nothing;
      }
      if ring.count == 0 && stopping {
        return Leave;
      }
      var it := ring.PopItem();
      return Have(it);
    }

    method HandBack(b: nat)
      requires ring.Valid() && ring.freeCount < SLOTS
      modifies ring.free, ring`freeCount
      ensures ring.Valid() && ring.View() == GiveBack(old(ring.View()), b)
    {
      ring.ReturnBuffer(b);
    }
  }
}
