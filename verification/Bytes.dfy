/** Octets, little-endian words and the few sequence helpers every layer shares. */
module Bytes {

  type byte = x: int | 0 <= x < 256
  type u32 = x: int | 0 <= x < 0x1_0000_0000

  const TWO64: int := 0x1_0000_0000_0000_0000

  type u64 = x: int | 0 <= x < TWO64

  /** The little-endian 32-bit word in the first four octets. */
  function Le32(p: seq<byte>): u32
    requires |p| >= 4
  {
    p[0] as int + 0x100 * p[1] as int + 0x1_0000 * p[2] as int + 0x100_0000 * p[3] as int
  }

  /** Octet k of a word, octet 0 being the least significant one. */
  function WordByte(w: u32, k: nat): byte
    requires k < 4
  {
    if k == 0 then w % 0x100
    else if k == 1 then w / 0x100 % 0x100
    else if k == 2 then w / 0x1_0000 % 0x100
    else w / 0x100_0000
  }

  /** The four wire octets of a word. */
  function PutLe32(w: u32): (p: seq<byte>)
    ensures |p| == 4
  {
    [WordByte(w, 0), WordByte(w, 1), WordByte(w, 2), WordByte(w, 3)]
  }

  /** Printing a word and reading it back is the identity, and so is the converse. */
  lemma Le32RoundTrip(w: u32)
    ensures Le32(PutLe32(w)) == w
  {
    var h, q := w / 0x100, w / 0x1_0000;
    assert h / 0x100 == q && q / 0x100 == w / 0x100_0000;
  }

  function Bit(b: bool): nat { if b then 1 else 0 }

  function Pow2(n: nat): (p: nat)
    ensures p > 0
  {
    if n == 0 then 1 else 2 * Pow2(n - 1)
  }

  lemma Remainder(n: nat, q: nat, m: nat)
    requires m < n
    ensures (n * q + m) % n == m
  {
    var x := n * q + m;
    var d, e := x / n, x % n;
    assert x == n * d + e;
    if q > d {
      Spread(n, q, d);
    } else if d > q {
      Spread(n, d, q);
    }
  }

  lemma Spread(n: nat, a: nat, b: nat)
    requires a > b
    ensures n * a >= n * b + n
  {
    assert n * a == n * b + n * (a - b);
    assert n * (a - b) >= n by { Grows(n, a - b); }
  }

  lemma Grows(n: nat, k: nat)
    requires k > 0
    ensures n * k >= n
  {
  }

  /** The concatenation of a list of pieces. */
  function Flatten<T>(pieces: seq<seq<T>>): seq<T> {
    if pieces == [] then [] else pieces[0] + Flatten(pieces[1..])
  }

  lemma Reassociate(a: seq<byte>, b: seq<byte>, c: seq<byte>)
    ensures a + b + c == a + (b + c)
  {
  }

  lemma {:induction false} FlattenAppend<T>(a: seq<seq<T>>, b: seq<seq<T>>)
    ensures Flatten(a + b) == Flatten(a) + Flatten(b)
  {
    if a == [] {
      assert a + b == b;
    } else {
      assert (a + b)[1..] == a[1..] + b;
      FlattenAppend(a[1..], b);
    }
  }

  lemma FlattenSnoc<T>(a: seq<seq<T>>, x: seq<T>)
    ensures Flatten(a + [x]) == Flatten(a) + x
  {
    FlattenAppend(a, [x]);
    assert [x][1..] == [];
  }
}
