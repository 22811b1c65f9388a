/**
 The ring of filled buffers and the stack of free ones that both bounded queues of the
 program keep: rawq in src/main.c and the writer queue in src/pcapng.c. A buffer is
 named by its index in the pool. None of the operations checks for room, as in the source.
 */
module BufferRing {
  import opened Bytes

  const SLOTS: nat := 32
  const CHUNK: nat := 256 * 1024

  /** A filled buffer and how many of its octets count. */
  datatype Item = Item(buf: nat, len: nat)

  /** Slots first, first + 1, ... hold the queue; free[..freeCount] is the stack. */
  datatype Ring = Ring(slots: seq<Item>, first: nat, next: nat, count: nat, free: seq<nat>, freeCount: nat)

  predicate WellFormed(r: Ring) {
    && |r.slots| == SLOTS && r.first < SLOTS && r.count <= SLOTS && r.next == (r.first + r.count) % SLOTS
    && |r.free| == SLOTS && r.freeCount <= SLOTS
  }

  function Start(): Ring {
    Ring(seq(SLOTS, i => Item(0, 0)), 0, 0, 0, seq(SLOTS, i => i), SLOTS)
  }

  // ---- The critical sections ----

  function Put(r: Ring, it: Item): Ring
    requires |r.slots| == SLOTS && r.next < SLOTS
  {
    r.(slots := r.slots[r.next := it], next := (r.next + 1) % SLOTS, count := r.count + 1)
  }

  function Front(r: Ring): Item
    requires |r.slots| == SLOTS && r.first < SLOTS
  {
    r.slots[r.first]
  }

  function Pop(r: Ring): Ring
    requires r.count > 0
  {
    r.(first := (r.first + 1) % SLOTS, count := r.count - 1)
  }

  function TopFree(r: Ring): nat
    requires 0 < r.freeCount <= |r.free|
  {
    r.free[r.freeCount - 1]
  }

  function TakeFree(r: Ring): Ring
    requires 0 < r.freeCount
  {
    r.(freeCount := r.freeCount - 1)
  }

  function GiveBack(r: Ring, b: nat): Ring
    requires r.freeCount < |r.free|
  {
    r.(free := r.free[r.freeCount := b], freeCount := r.freeCount + 1)
  }

  // ---- What they do to the queue and to the stack ----

  function Items(r: Ring): (s: seq<Item>)
    requires WellFormed(r)
    ensures |s| == r.count
  {
    seq(r.count, i requires 0 <= i < r.count => r.slots[Slot(r.first, i)])
  }

  /** The slot of the i-th item behind first. */
  function Slot(first: nat, i: nat): (k: nat)
    ensures k < SLOTS
  {
    (first + i) % SLOTS
  }

  lemma SlotSteps(first: nat, i: nat)
    ensures Slot((first + 1) % SLOTS, i) == Slot(first, i + 1)
    ensures Slot(first, i + 1) == (Slot(first, i) + 1) % SLOTS
  {
    ModAdd(first + 1, i);
    ModAdd(first + i, 1);
  }

  lemma ModAdd(x: nat, y: nat)
    ensures (x % SLOTS + y) % SLOTS == (x + y) % SLOTS
  {
    var q, z := x / SLOTS, x % SLOTS + y;
    assert x + y == SLOTS * q + z;
    assert (SLOTS * q + z) % SLOTS == z % SLOTS;
  }

  lemma SlotsDiffer(first: nat, i: nat, j: nat)
    requires i < j < i + SLOTS
    ensures Slot(first, i) != Slot(first, j)
  {
  }

  lemma FirstSlot(first: nat)
    requires first < SLOTS
    ensures Slot(first, 0) == first
  {
  }

  function Bufs(items: seq<Item>): seq<nat> {
    seq(|items|, i requires 0 <= i < |items| => items[i].buf)
  }

  /** The buffers the queue and the stack hold. */
  function Held(r: Ring): multiset<nat>
    requires WellFormed(r)
  {
    multiset(Bufs(Items(r))) + multiset(r.free[..r.freeCount])
  }

  function All(): multiset<nat> { multiset(seq(SLOTS, i => i)) }

  lemma StartHoldsAll()
    ensures WellFormed(Start()) && Items(Start()) == [] && Held(Start()) == All()
  {
    var r := Start();
    assert r.free[..r.freeCount] == seq(SLOTS, i => i);
  }

  /** Each of the 32 buffers occurs once. */
  lemma AllOnce(b: nat)
    ensures |All()| == SLOTS
    ensures All()[b] == if b < SLOTS then 1 else 0
  {
    var s := seq(SLOTS, i => i);
    assert |s| == SLOTS;
    Upto(SLOTS, b);
    assert seq(SLOTS, i => i) == seq(SLOTS, (i: nat) => i);
  }

  lemma {:induction false} Upto(n: nat, b: nat)
    ensures multiset(seq(n, (i: nat) => i))[b] == if b < n then 1 else 0
  {
    if n > 0 {
      Upto(n - 1, b);
      assert seq(n, (i: nat) => i) == seq(n - 1, (i: nat) => i) + [n - 1];
    }
  }

  lemma BufsOfAppend(items: seq<Item>, it: Item)
    ensures Bufs(items + [it]) == Bufs(items) + [it.buf]
  {
  }

  /** With a slot to spare, Put appends; it never writes over a queued item. */
  lemma PutAppends(r: Ring, it: Item)
    requires WellFormed(r) && r.count < SLOTS
    ensures WellFormed(Put(r, it))
    ensures Items(Put(r, it)) == Items(r) + [it]
    ensures Held(Put(r, it)) == Held(r) + multiset{it.buf}
  {
    hide Items, Bufs, Held;
    PutShifts(r, it);
    assert Items(Put(r, it)) == Items(r) + [it];
    BufsOfAppend(Items(r), it);
    PutHeld(r, Put(r, it), it);
  }

  lemma PutHeld(r: Ring, t: Ring, it: Item)
    requires WellFormed(r) && WellFormed(t) && t.free == r.free && t.freeCount == r.freeCount
    requires Bufs(Items(t)) == Bufs(Items(r)) + [it.buf]
    ensures Held(t) == Held(r) + multiset{it.buf}
  {
    hide Bufs, Items;
  }

  lemma PutShifts(r: Ring, it: Item)
    requires WellFormed(r) && r.count < SLOTS
    ensures WellFormed(Put(r, it)) && Items(Put(r, it))[r.count] == it
    ensures forall i :: 0 <= i < r.count ==> Items(Put(r, it))[i] == Items(r)[i]
  {
    hide Slot;
    NextSlot(r);
    SlotSteps(r.first, r.count);
    NextSlot(Put(r, it));
    forall i | 0 <= i < r.count ensures Items(Put(r, it))[i] == Items(r)[i] { SlotsDiffer(r.first, i, r.count); }
  }

  lemma NextSlot(r: Ring)
    requires r.first < SLOTS && r.count <= SLOTS
    ensures (r.first + r.count) % SLOTS == Slot(r.first, r.count)
  {
  }

  /** Without one, it writes over the oldest item. */
  lemma PutOverwritesWhenFull(r: Ring, it: Item)
    requires WellFormed(r) && r.count == SLOTS
    ensures Put(r, it).slots[r.first] == it
  {
    assert r.next == r.first;
  }

  lemma PopTakesOldest(r: Ring)
    requires WellFormed(r) && r.count > 0
    ensures WellFormed(Pop(r))
    ensures Items(r) == [Front(r)] + Items(Pop(r))
    ensures Held(r) == Held(Pop(r)) + multiset{Front(r).buf}
  {
    hide Held, Items, Bufs, Front;
    var t := Pop(r);
    PopShifts(r);
    assert Items(r) == [Front(r)] + Items(t);
    BufsOfCons(Front(r), Items(t));
    PopHeld(r, t);
  }

  lemma BufsOfCons(it: Item, items: seq<Item>)
    ensures Bufs([it] + items) == [it.buf] + Bufs(items)
  {
  }

  lemma PopHeld(r: Ring, t: Ring)
    requires WellFormed(r) && WellFormed(t) && r.count > 0 && t.free == r.free && t.freeCount == r.freeCount
    requires Bufs(Items(r)) == [Front(r).buf] + Bufs(Items(t))
    ensures Held(r) == Held(t) + multiset{Front(r).buf}
  {
    hide Bufs, Items;
  }

  lemma PopShifts(r: Ring)
    requires WellFormed(r) && r.count > 0
    ensures WellFormed(Pop(r)) && Items(r)[0] == Front(r)
    ensures forall i :: 0 <= i < r.count - 1 ==> Items(r)[i + 1] == Items(Pop(r))[i]
  {
    hide Slot;
    FirstSlot(r.first);
    NextSlot(r);
    NextSlot(Pop(r));
    SlotSteps(r.first, r.count - 1);
    forall i | 0 <= i < r.count - 1 ensures Items(r)[i + 1] == Items(Pop(r))[i] { SlotSteps(r.first, i); }
  }

  lemma TakeFreeMoves(r: Ring)
    requires WellFormed(r) && r.freeCount > 0
    ensures WellFormed(TakeFree(r)) && Items(TakeFree(r)) == Items(r) && TakeFree(r).count == r.count
    ensures Held(r) == Held(TakeFree(r)) + multiset{TopFree(r)}
  {
    var n := r.freeCount;
    assert r.free[..n] == r.free[..n - 1] + [r.free[n - 1]];
    assert Items(TakeFree(r)) == Items(r);
  }

  lemma GiveBackMoves(r: Ring, b: nat)
    requires WellFormed(r) && r.freeCount < SLOTS
    ensures WellFormed(GiveBack(r, b)) && Items(GiveBack(r, b)) == Items(r) && GiveBack(r, b).count == r.count
    ensures Held(GiveBack(r, b)) == Held(r) + multiset{b}
  {
    var n, t := r.freeCount, GiveBack(r, b);
    assert t.free[..n + 1] == r.free[..n] + [b];
    assert Items(t) == Items(r);
  }

  lemma HeldSize(r: Ring)
    requires WellFormed(r)
    ensures |Held(r)| == r.count + r.freeCount
  {
  }

  // ---- Contents ----

  /** The octets of the 32 buffers. */
  type Memory = seq<seq<byte>>

  predicate IsMemory(m: Memory) {
    |m| == SLOTS && forall b :: 0 <= b < SLOTS ==> |m[b]| == CHUNK
  }

  predicate Fits(it: Item) { it.buf < SLOTS && it.len <= CHUNK }

  predicate AllFit(items: seq<Item>) { forall it :: it in items ==> Fits(it) }

  /** The octets of the queued items, oldest first. */
  function Content(mem: Memory, items: seq<Item>): seq<byte>
    requires IsMemory(mem) && AllFit(items)
  {
    if items == [] then []
    else
      assert items[0] in items;
      mem[items[0].buf][..items[0].len] + Content(mem, items[1..])
  }

  lemma {:induction false} ContentSnoc(mem: Memory, items: seq<Item>, it: Item)
    requires IsMemory(mem) && AllFit(items) && Fits(it)
    ensures AllFit(items + [it])
    ensures Content(mem, items + [it]) == Content(mem, items) + mem[it.buf][..it.len]
  {
    if items == [] {
      assert [it][1..] == [];
      assert items + [it] == [it];
    } else {
      ContentSnoc(mem, items[1..], it);
      assert (items + [it])[1..] == items[1..] + [it];
    }
  }

  lemma PopContent(mem: Memory, items: seq<Item>, it: Item, rest: seq<Item>)
    requires IsMemory(mem) && AllFit(items) && items == [it] + rest
    ensures AllFit(rest) && Fits(it)
    ensures Content(mem, items) == mem[it.buf][0..it.len] + Content(mem, rest)
  {
    assert it in items && items[1..] == rest;
    assert mem[it.buf][0..it.len] == mem[it.buf][..it.len];
  }

  lemma RowFits(mem: Memory, it: Item)
    requires IsMemory(mem) && Fits(it)
    ensures it.buf < |mem| && it.len <= |mem[it.buf]|
  {
  }

  /** Writing to a buffer that is not queued changes nothing queued. */
  lemma {:induction false} ContentElsewhere(mem: Memory, mem': Memory, items: seq<Item>, b: nat)
    requires IsMemory(mem) && IsMemory(mem') && AllFit(items) && b !in Bufs(items)
    requires forall c :: 0 <= c < SLOTS && c != b ==> mem'[c] == mem[c]
    ensures Content(mem', items) == Content(mem, items)
  {
    if items != [] {
      assert items[0] in items && Bufs(items)[0] == items[0].buf;
      forall i | 0 <= i < |items[1..]| ensures Bufs(items[1..])[i] == Bufs(items)[i + 1] {}
      ContentElsewhere(mem, mem', items[1..], b);
    }
  }

  // ---- In place ----

  /** The queue fields of rawq and of struct pcapng. Each method is one critical section. */
  class RingBuffer {
    const slots: array<Item>
    var first: nat
    var next: nat
    var count: nat
    const free: array<nat>
    var freeCount: nat

    ghost predicate Valid()
      reads this
    {
      slots.Length == SLOTS && free.Length == SLOTS && first < SLOTS && next < SLOTS && freeCount <= SLOTS
    }

    ghost function View(): Ring
      reads this, slots, free
    {
      Ring(slots[..], first, next, count, free[..], freeCount)
    }

    constructor ()
      ensures Valid() && View() == Start() && fresh(slots) && fresh(free)
    {
      slots := new Item[SLOTS](i => Item(0, 0));
      free := new nat[SLOTS](i => i);
      first, next, count, freeCount := 0, 0, 0, SLOTS;
      new;
      assert View().slots == Start().slots && View().free == Start().free;
    }

    method PutItem(it: Item)
      requires Valid()
      modifies slots, `next, `count
      ensures Valid() && View() == Put(old(View()), it)
    {
      slots[next] := it;
      next := (next + 1) % SLOTS;
      count := count + 1;
    }

    method PopItem() returns (it: Item)
      requires Valid() && count > 0
      modifies `first, `count
      ensures Valid() && View() == Pop(old(View())) && it == Front(old(View()))
    {
      it := slots[first];
      first := (first + 1) % SLOTS;
      count := count - 1;
    }

    method TakeBuffer() returns (b: nat)
      requires Valid() && freeCount > 0
      modifies `freeCount
      ensures Valid() && View() == TakeFree(old(View())) && b == TopFree(old(View()))
    {
      freeCount := freeCount - 1;
      b := free[freeCount];
    }

    method ReturnBuffer(b: nat)
      requires Valid() && freeCount < SLOTS
      modifies free, `freeCount
      ensures Valid() && View() == GiveBack(old(View()), b)
    {
      free[freeCount] := b;
      freeCount := freeCount + 1;
    }
  }
}
