/**
  Feeding a hash in pieces: the buffer of an unfinished block, the count, the
  padding. The block transform is whatever the context was set up with.
 */
module HashStream {
  type Byte = n: int | 0 <= n < 256

  const BLOCK: nat := 64
  const WORD: nat := 0x1_0000_0000
  const LONG: nat := 0x1_0000_0000_0000_0000

  /** The transform applied to every block of a message. */
  function Fold<S>(f: (S, seq<Byte>) -> S, s: S, m: seq<Byte>): S
    requires |m| % BLOCK == 0
  {
    if m == [] then s else f(Fold(f, s, m[..|m| - BLOCK]), m[|m| - BLOCK..])
  }

  lemma {:induction false} FoldJoin<S>(f: (S, seq<Byte>) -> S, s: S, x: seq<Byte>, y: seq<Byte>)
    requires |x| % BLOCK == 0 && |y| % BLOCK == 0
    ensures Fold(f, s, x + y) == Fold(f, Fold(f, s, x), y)
    decreases |y|
  {
    if y == [] {
      assert x + y == x;
    } else {
      var n := |y| - BLOCK;
      FoldJoin(f, s, x, y[..n]);
      assert (x + y)[..|x + y| - BLOCK] == x + y[..n];
      assert (x + y)[|x + y| - BLOCK..] == y[n..];
    }
  }

  /** The bytes of several updates. */
  function Concat(parts: seq<seq<Byte>>): seq<Byte> {
    if parts == [] then [] else Concat(parts[..|parts| - 1]) + parts[|parts| - 1]
  }

  lemma ConcatMore(parts: seq<seq<Byte>>, k: nat)
    requires k < |parts|
    ensures Concat(parts[..k + 1]) == Concat(parts[..k]) + parts[k]
  {
    assert parts[..k + 1][..k] == parts[..k];
  }

  lemma FoldOne<S>(f: (S, seq<Byte>) -> S, s: S, x: seq<Byte>, b: seq<Byte>)
    requires |x| % BLOCK == 0 && |b| == BLOCK
    ensures Fold(f, s, x + b) == f(Fold(f, s, x), b)
  {
    assert (x + b)[..|x + b| - BLOCK] == x && (x + b)[|x + b| - BLOCK..] == b;
  }

  /** The bytes of a number of eight bytes, highest or lowest first. */
  function Bytes8(big: bool, n: nat): (b: seq<Byte>)
    ensures |b| == 8
  {
    seq(8, i requires 0 <= i < 8 => ByteAt(n, if big then 7 - i else i))
  }

  function ByteAt(n: nat, k: nat): Byte
    decreases k
  {
    if k == 0 then n % 256 else ByteAt(n / 256, k - 1)
  }

  /** How many zeros bring a message and its mark to eight bytes before the end of a block. */
  function Zeros(n: nat): nat { (BLOCK + 55 - n % BLOCK) % BLOCK }

  function ZeroBytes(n: nat): (z: seq<Byte>)
    ensures |z| == n
  {
    if n == 0 then [] else ZeroBytes(n - 1) + [0]
  }

  /** The padded message: a one bit, zeros, and the length in bits modulo 2^64. */
  function Pad(big: bool, m: seq<Byte>): (p: seq<Byte>)
    ensures |p| % BLOCK == 0
  {
    m + [0x80] + ZeroBytes(Zeros(|m|)) + Bytes8(big, 8 * |m| % LONG)
  }

  lemma ModBlock(n: nat, k: nat, t: nat)
    requires n == BLOCK * k + t && t < BLOCK
    ensures n % BLOCK == t
  {
  }

  lemma ModLong(n: nat, k: nat, t: nat)
    requires n == LONG * k + t
    ensures n % LONG == t % LONG
  {
  }

  /** Keeping the count in 64 bits loses neither the place in the block nor the length field. */
  lemma CountModulo(n: nat)
    ensures (n % LONG) % BLOCK == n % BLOCK && (8 * (n % LONG)) % LONG == 8 * n % LONG
  {
    var q, r := n / LONG, n % LONG;
    ModBlock(n, q * (LONG / BLOCK) + r / BLOCK, r % BLOCK);
    ModLong(8 * n, 8 * q, 8 * r);
  }
}
