/**
 The 60 MHz clock: frames carry its low 20 bits and one bit for a carry out of them, and
 the packet layer turns that into nanoseconds.
 */
module Timestamps {
  import opened Bytes
  import opened PacketModel

  const PERIOD: nat := 0x10_0000

  /** Nanoseconds of a tick count, rounded down. */
  function Ns(ticks: nat): nat { ticks * 100 / 6 }

  function Epoch(ticks: nat): nat { ticks / PERIOD * PERIOD }

  function Low20(ticks: nat): nat { ticks % PERIOD }

  /** Distinct ticks have distinct times, in the same order. */
  lemma NsIncreases(a: nat, b: nat)
    ensures a < b <==> Ns(a) < Ns(b)
  {
  }

  /** Over disjoint bits, or is plus. */
  lemma {:induction false} OrIsPlus(a: nat, b: nat, q: nat, k: nat)
    requires a == q * Pow2(k) && b < Pow2(k)
    ensures BitOr(a, b) == a + b
  {
    if k > 0 && a != 0 && b != 0 {
      assert a == 2 * (q * Pow2(k - 1));
      OrIsPlus(a / 2, b / 2, q, k - 1);
    }
  }

  /** The clock is right for a frame sent at tick n. */
  predicate Tells(w: Walk, n: nat) { w.tsInt == Epoch(n) && w.ts == Ns(n) }

  /** What the header octets in the assembly buffer say about tick m. */
  predicate Carried(w: Walk, m: nat)
    requires |w.data| == DATA_BUF_SIZE
  {
    w.data[0] as int % 16 * 0x1_0000 + w.data[1] as int * 0x100 + w.data[2] as int == Low20(m)
  }

  lemma PeriodIsPower()
    ensures Pow2(20) == PERIOD
  {
    assert Pow2(10) == 1024;
  }

  lemma ClockAt(epoch: nat, low: nat, q: nat)
    requires epoch == q * PERIOD && low < PERIOD && (epoch + low) * 100 < TWO64
    ensures ClockNs(epoch, low) == Ns(epoch + low)
  {
    hide Pow2, BitOr;
    PeriodIsPower();
    OrIsPlus(epoch, low, q, 20);
    WrapsNot((epoch + low) * 100);
  }

  lemma WrapsNot(x: nat)
    requires x < TWO64
    ensures Wrap64(x) == x
  {
  }

  /**
   Within the range of the nanosecond product the decoded time is right exactly if the
   overflow bit says how many periods began since the last frame: none or one.
   */
  lemma TickIsRight(w: Walk, n: nat, m: nat)
    requires |w.data| == DATA_BUF_SIZE && Carried(w, m)
    requires w.tsInt == Epoch(n) && m * 100 < TWO64 && (n + 2 * PERIOD) * 100 < TWO64
    ensures Tells(Tick(w), m) <==> Epoch(m) == Epoch(n) + Flag(w.data[0], 0x10) * PERIOD
    ensures Tick(w).ts == Ns(m) <==> Tells(Tick(w), m)
  {
    hide ClockNs, Flag, Ns;
    var c := Flag(w.data[0], 0x10);
    assert c == 0 || c == 1 by { FlagIsBit(w.data[0]); }
    var epoch := Epoch(n) + c * PERIOD;
    assert Wrap64(epoch) == epoch;
    ClockAt(epoch, Low20(m), n / PERIOD + c);
    NsIncreases(epoch + Low20(m), m);
    NsIncreases(m, epoch + Low20(m));
    assert m == Epoch(m) + Low20(m);
  }

  lemma FlagIsBit(b: byte)
    ensures Flag(b, 0x10) == 0 || Flag(b, 0x10) == 1
  {
  }

  /** ns_to_ticks: the least tick count whose time is not before ts; for a time in the image, the tick it came from. */
  method NsToTicks(ts: nat) returns (ticks: nat)
    ensures Ns(ticks) >= ts && forall t: nat :: t < ticks ==> Ns(t) < ts
    ensures forall n: nat :: ts == Ns(n) ==> ticks == n
  {
    ticks := ts * 6 / 100;
    while ticks * 100 / 6 < ts
      invariant forall t: nat :: t < ticks ==> Ns(t) < ts
      decreases ts - Ns(ticks)
    {
      NsIncreases(ticks, ticks + 1);
      forall t: nat | t < ticks + 1 ensures Ns(t) < ts { NsIncreases(t, ticks); }
      ticks := ticks + 1;
    }
    forall n: nat | ts == Ns(n) ensures ticks == n { NsIncreases(ticks, n); }
  }
}
