/** av_sha_update, av_sha_final, av_md5_update and av_md5_final: the contexts and their chunking. */
module HashContext {
  import opened HashStream

  /** What a context holds after a message: the blocks folded, the rest in the buffer, the count in 64 bits. */
  ghost predicate Holds<S>(f: (S, seq<Byte>) -> S, init: S, m: seq<Byte>, state: S, rest: seq<Byte>, count: nat) {
    var n := |m| - |m| % BLOCK;
    count == |m| % LONG && state == Fold(f, init, m[..n]) && |rest| == BLOCK && rest[..|m| % BLOCK] == m[n..]
  }

  lemma Remainder(n: nat, d: nat)
    ensures (n + d) % BLOCK == (n % BLOCK + d) % BLOCK
    ensures (n % LONG + d) % LONG == (n + d) % LONG
  {
    var q := n / LONG;
    assert n + d == q * LONG + (n % LONG + d);
  }

  /** Data that does not fill the block is only kept. */
  lemma KeepsRest<S>(f: (S, seq<Byte>) -> S, init: S, m: seq<Byte>, state: S, rest: seq<Byte>, count: nat,
      data: seq<Byte>)
    requires Holds(f, init, m, state, rest, count) && |m| % BLOCK + |data| < BLOCK
    ensures var j := |m| % BLOCK;
            Holds(f, init, m + data, state, rest[..j] + data + rest[j + |data|..], (count + |data|) % LONG)
  {
    hide Fold;
    Remainder(|m|, |data|);
    var j := |m| % BLOCK;
    var n := |m| - j;
    var all, next := m + data, rest[..j] + data + rest[j + |data|..];
    assert |all| % BLOCK == j + |data|;
    assert next[..j + |data|] == rest[..j] + data;
    assert all[..n] == m[..n] && all[n..] == m[n..] + data;
  }

  /** Data that fills the block: the block is folded. */
  lemma FoldsBlock<S>(f: (S, seq<Byte>) -> S, init: S, m: seq<Byte>, state: S, rest: seq<Byte>, count: nat,
      data: seq<Byte>)
    requires Holds(f, init, m, state, rest, count) && |m| % BLOCK + |data| == BLOCK
    ensures var j := |m| % BLOCK;
            |m + data| % BLOCK == 0 && j <= |rest| && Fold(f, init, m + data) == f(state, rest[..j] + data)
  {
    hide Fold;
    var n := |m| - |m| % BLOCK;
    var tail := m[n..];
    assert |m + data| == n + BLOCK;
    assert m + data == m[..n] + (tail + data);
    FoldOne(f, init, m[..n], tail + data);
  }

  /** One more block straight from the data. */
  lemma FoldsNext<S>(f: (S, seq<Byte>) -> S, init: S, m: seq<Byte>, data: seq<Byte>, i: nat)
    requires i + 64 <= |data| && |m + data[..i]| % BLOCK == 0
    ensures |m + data[..i + 64]| % BLOCK == 0
    ensures Fold(f, init, m + data[..i + 64]) == f(Fold(f, init, m + data[..i]), data[i..i + 64])
  {
    hide Fold;
    FoldOne(f, init, m + data[..i], data[i..i + 64]);
    assert m + data[..i + 64] == m + data[..i] + data[i..i + 64];
  }

  /** The end of an update that has folded blocks. */
  lemma KeepsEnd<S>(f: (S, seq<Byte>) -> S, init: S, m: seq<Byte>, rest: seq<Byte>, data: seq<Byte>, i: nat)
    requires i <= |data| && |m + data[..i]| % BLOCK == 0 && |data| - i < BLOCK && |rest| == BLOCK
    ensures Holds(f, init, m + data, Fold(f, init, m + data[..i]), data[i..] + rest[|data| - i..],
            (|m| % LONG + |data|) % LONG)
  {
    hide Fold;
    Remainder(|m|, |data|);
    StartsRest(f, init, m + data[..i], rest, data[i..]);
    assert m + data == m + data[..i] + data[i..];
  }

  /** A whole number of blocks is folded, and what follows is kept. */
  lemma StartsRest<S>(f: (S, seq<Byte>) -> S, init: S, m: seq<Byte>, rest: seq<Byte>, data: seq<Byte>)
    requires |m| % BLOCK == 0 && |rest| == BLOCK && |data| < BLOCK
    ensures Holds(f, init, m + data, Fold(f, init, m), data + rest[|data|..], |m + data| % LONG)
  {
    assert |m + data| % BLOCK == |data|;
    assert (m + data)[..|m|] == m && (m + data)[|m|..] == data;
  }

  /** The length of the k-th update overflows the test for a full block. */
  predicate Overruns(m: seq<Byte>, parts: seq<seq<Byte>>, k: nat)
    requires k < |parts|
  {
    |m + Concat(parts[..k])| % BLOCK + |parts[k]| >= WORD
  }

  lemma NoParts(m: seq<Byte>, parts: seq<seq<Byte>>)
    ensures m + Concat(parts[..0]) == m
  {
  }

  lemma MoreParts(m: seq<Byte>, parts: seq<seq<Byte>>, k: nat)
    requires k < |parts|
    ensures m + Concat(parts[..k + 1]) == m + Concat(parts[..k]) + parts[k]
  {
    ConcatMore(parts, k);
  }

  lemma NoZeros(p: seq<Byte>)
    ensures p + ZeroBytes(0) == p
  {
  }

  lemma NextZero(p: seq<Byte>, z: nat)
    ensures p + ZeroBytes(z) + [0] == p + ZeroBytes(z + 1)
  {
  }

  /** The zeros stop where the place in the block is right, and not before. */
  lemma PaddingEnds(n: nat, z: nat)
    requires z <= (BLOCK + 56 - n % BLOCK) % BLOCK
    ensures (n + z) % BLOCK == 56 <==> z == (BLOCK + 56 - n % BLOCK) % BLOCK
  {
  }

  /** The context of the SHA family: the state, the buffer, the count, and the transform it was set up with. */
  class Sha<S(==)> {
    const transform: (S, seq<Byte>) -> S
    var state: S
    const buffer: array<Byte>
    var count: nat

    constructor (transform: (S, seq<Byte>) -> S, init: S)
      ensures this.transform == transform && fresh(buffer) && After(init, [])
    {
      this.transform := transform;
      state, count := init, 0;
      buffer := new Byte[64](_ => 0);
    }

    /** The context after a message. */
    ghost predicate After(init: S, m: seq<Byte>)
      reads this, buffer
    {
      Holds(transform, init, m, state, buffer[..], count)
    }

    /** memcpy into the buffer. */
    method Copy(at: nat, data: seq<Byte>)
      requires buffer.Length == BLOCK && at + |data| <= BLOCK
      modifies buffer
      ensures buffer[..] == old(buffer[..at]) + data + old(buffer[at + |data|..])
    {
      for i := 0 to |data|
        invariant buffer[..] == old(buffer[..at]) + data[..i] + old(buffer[at + i..])
      {
        buffer[at + i] := data[i];
      }
    }

    /** The blocks that lie whole in the data, from `start` on. */
    method FoldBlocks(data: seq<Byte>, start: nat, ghost init: S, ghost m: seq<Byte>) returns (i: nat)
      requires 0 < start <= BLOCK && start <= |data| && |data| + BLOCK - start < WORD
      requires |m + data[..start]| % BLOCK == 0 && state == Fold(transform, init, m + data[..start])
      modifies this`state
      ensures start <= i <= |data| && |data| - i < BLOCK
      ensures |m + data[..i]| % BLOCK == 0 && state == Fold(transform, init, m + data[..i])
    {
      hide Fold;
      i := start;
      while (i + 63) % WORD < |data|
        invariant start <= i <= |data| && (i - start) % BLOCK == 0
        invariant |m + data[..i]| % BLOCK == 0 && state == Fold(transform, init, m + data[..i])
      {
        FoldsNext(transform, init, m, data, i);
        state := transform(state, data[i..i + 64]);
        i := i + 64;
      }
    }

    /**
      av_sha_update, with the length in 32 bits. The test for a full block wraps
      when the length is that close to 2^32; the copy then overruns the buffer,
      and that is all that can go wrong.
     */
    method Update(data: seq<Byte>, ghost init: S, ghost m: seq<Byte>) returns (overrun: bool)
      requires After(init, m) && |data| < WORD
      modifies this`state, this`count, buffer
      ensures overrun <==> |m| % BLOCK + |data| >= WORD
      ensures !overrun ==> After(init, m + data)
    {
      hide Fold; hide Holds;
      CountIs(transform, init, m, state, buffer[..], count);
      var len := |data|;
      var j := count % BLOCK;
      if (j + len) % WORD > 63 {
        assert j + len < WORD;
        var i := BLOCK - j;
        FoldsBlock(transform, init, m, state, buffer[..], count, data[..i]);
        Copy(j, data[..i]);
        assert buffer[..] == old(buffer[..j]) + data[..i];
        state := transform(state, buffer[..]);
        i := FoldBlocks(data, i, init, m);
        ghost var before := buffer[..];
        KeepsEnd(transform, init, m, before, data, i);
        count := (count + len) % LONG;
        Copy(0, data[i..]);
        assert buffer[..] == data[i..] + before[len - i..];
        return false;
      }
      if j + len >= WORD {
        return true;
      }
      KeepsRest(transform, init, m, state, buffer[..], count, data);
      count := (count + len) % LONG;
      Copy(j, data);
      return false;
    }

    /** One update after another. */
    method UpdateAll(parts: seq<seq<Byte>>, ghost init: S, ghost m: seq<Byte>) returns (overrun: bool)
      requires After(init, m) && forall i :: 0 <= i < |parts| ==> |parts[i]| < WORD
      modifies this`state, this`count, buffer
      ensures overrun <==> exists k :: 0 <= k < |parts| && Overruns(m, parts, k)
      ensures !overrun ==> After(init, m + Concat(parts))
    {
      hide Fold; hide Holds; hide Concat;
      NoParts(m, parts);
      for k := 0 to |parts|
        invariant After(init, m + Concat(parts[..k]))
        invariant forall i :: 0 <= i < k ==> !Overruns(m, parts, i)
      {
        overrun := Update(parts[k], init, m + Concat(parts[..k]));
        if overrun {
          assert Overruns(m, parts, k);
          return;
        }
        MoreParts(m, parts, k);
      }
      assert parts[..|parts|] == parts;
      return false;
    }

    /** One zero after another, to eight bytes before the end of a block. */
    method PadZeros(ghost init: S, ghost p: seq<Byte>)
      requires After(init, p)
      modifies this`state, this`count, buffer
      ensures After(init, p + ZeroBytes((BLOCK + 56 - |p| % BLOCK) % BLOCK))
    {
      hide Fold; hide Holds; hide ZeroBytes;
      ghost var z: nat, all: nat := 0, (BLOCK + 56 - |p| % BLOCK) % BLOCK;
      NoZeros(p);
      CountIs(transform, init, p, state, buffer[..], count);
      while count % BLOCK != 56
        invariant z <= all && After(init, p + ZeroBytes(z)) && count % BLOCK == (|p| + z) % BLOCK
        decreases all - z
      {
        PaddingEnds(|p|, z);
        var overrun := Update([0], init, p + ZeroBytes(z));
        NextZero(p, z);
        z := z + 1;
        CountIs(transform, init, p + ZeroBytes(z), state, buffer[..], count);
      }
      PaddingEnds(|p|, z);
    }

    /** av_sha_final: the context ends with the transform folded over the padded message. */
    method Final(ghost init: S, ghost m: seq<Byte>) returns (s: S)
      requires After(init, m)
      modifies this`state, this`count, buffer
      ensures s == Fold(transform, init, Pad(true, m))
    {
      hide Fold; hide Holds; hide Bytes8; hide ZeroBytes;
      CountIs(transform, init, m, state, buffer[..], count);
      CountModulo(|m|);
      var bits := Bytes8(true, 8 * count % LONG);
      ghost var p := m + [0x80];
      var overrun := Update([0x80], init, m);
      PadZeros(init, p);
      ghost var q := p + ZeroBytes(Zeros(|m|));
      assert (BLOCK + 56 - |p| % BLOCK) % BLOCK == Zeros(|m|) by { Remainder(|m|, 1); }
      overrun := Update(bits, init, q);
      assert Pad(true, m) == q + bits;
      Folded(transform, init, Pad(true, m), state, buffer[..], count);
      s := state;
    }
  }

  /**
    The context of MD5: the same, with a length in a signed 32-bit number and blocks taken from the data or by way
    of the buffer.
   */
  class Md5Context<S(==)> {
    const body: (S, seq<Byte>) -> S
    var state: S
    const block: array<Byte>
    var count: nat

    constructor (body: (S, seq<Byte>) -> S, init: S)
      ensures this.body == body && fresh(block) && After(init, [])
    {
      this.body := body;
      state, count := init, 0;
      block := new Byte[64](_ => 0);
    }

    /** The context after a message. */
    ghost predicate After(init: S, m: seq<Byte>)
      reads this, block
    {
      Holds(body, init, m, state, block[..], count)
    }

    /** memcpy into the block. */
    method Copy(at: nat, data: seq<Byte>)
      requires block.Length == BLOCK && at + |data| <= BLOCK
      modifies block
      ensures block[..] == old(block[..at]) + data + old(block[at + |data|..])
    {
      for i := 0 to |data|
        invariant block[..] == old(block[..at]) + data[..i] + old(block[at + i..])
      {
        block[at + i] := data[i];
      }
    }

    /**
      body over all the whole blocks from `start` on, directly or, when the data is not aligned, each by way of
      the buffer.
     */
    method FoldBlocks(data: seq<Byte>, start: nat, aligned: bool, ghost init: S, ghost m: seq<Byte>) returns (i: nat)
      requires block.Length == BLOCK && start <= |data|
      requires |m + data[..start]| % BLOCK == 0 && state == Fold(body, init, m + data[..start])
      modifies this`state, block
      ensures start <= i <= |data| && |data| - i < BLOCK
      ensures |m + data[..i]| % BLOCK == 0 && state == Fold(body, init, m + data[..i])
    {
      hide Fold;
      i := start;
      var end := start + (|data| - start) / BLOCK * BLOCK;
      while i < end
        invariant start <= i <= end && (end - i) % BLOCK == 0
        invariant |m + data[..i]| % BLOCK == 0 && state == Fold(body, init, m + data[..i])
      {
        FoldsNext(body, init, m, data, i);
        if aligned {
          state := body(state, data[i..i + 64]);
        } else {
          Copy(0, data[i..i + 64]);
          assert block[..] == data[i..i + 64];
          state := body(state, block[..]);
        }
        i := i + 64;
      }
    }

    /** The bytes that complete an unfinished block; they may be all there are. */
    method Fill(data: seq<Byte>, ghost init: S, ghost m: seq<Byte>) returns (i: nat, done: bool)
      requires After(init, m)
      modifies this`state, this`count, block
      ensures done ==> After(init, m + data)
      ensures !done ==>
                && i <= |data| && |m + data[..i]| % BLOCK == 0 && state == Fold(body, init, m + data[..i])
                && block.Length == BLOCK && count == |m| % LONG
    {
      hide Fold; hide Holds;
      CountIs(body, init, m, state, block[..], count);
      var j := count % BLOCK;
      if j == 0 {
        assert m + data[..0] == m;
        Folded(body, init, m, state, block[..], count);
        return 0, false;
      }
      i := if |data| < BLOCK - j then |data| else BLOCK - j;
      if j + i < BLOCK {
        assert data[..i] == data;
        KeepsRest(body, init, m, state, block[..], count, data);
        count := (count + |data|) % LONG;
        Copy(j, data[..i]);
        return i, true;
      }
      FoldsBlock(body, init, m, state, block[..], count, data[..i]);
      Copy(j, data[..i]);
      assert block[..] == old(block[..j]) + data[..i];
      state := body(state, block[..]);
      done := false;
    }

    /** av_md5_update */
    method Update(data: seq<Byte>, aligned: bool, ghost init: S, ghost m: seq<Byte>)
      requires After(init, m) && |data| < WORD / 2
      modifies this`state, this`count, block
      ensures After(init, m + data)
    {
      hide Fold; hide Holds;
      var i, done := Fill(data, init, m);
      if done {
        return;
      }
      i := FoldBlocks(data, i, aligned, init, m);
      ghost var before := block[..];
      KeepsEnd(body, init, m, before, data, i);
      count := (count + |data|) % LONG;
      Copy(0, data[i..]);
      assert block[..] == data[i..] + before[|data| - i..];
    }

    method PadZeros(ghost init: S, ghost p: seq<Byte>)
      requires After(init, p)
      modifies this`state, this`count, block
      ensures After(init, p + ZeroBytes((BLOCK + 56 - |p| % BLOCK) % BLOCK))
    {
      hide Fold; hide Holds; hide ZeroBytes;
      ghost var z: nat, all: nat := 0, (BLOCK + 56 - |p| % BLOCK) % BLOCK;
      NoZeros(p);
      CountIs(body, init, p, state, block[..], count);
      while count % BLOCK != 56
        invariant z <= all && After(init, p + ZeroBytes(z)) && count % BLOCK == (|p| + z) % BLOCK
        decreases all - z
      {
        PaddingEnds(|p|, z);
        Update([0], true, init, p + ZeroBytes(z));
        NextZero(p, z);
        z := z + 1;
        CountIs(body, init, p + ZeroBytes(z), state, block[..], count);
      }
      PaddingEnds(|p|, z);
    }

    /** av_md5_final: the body folded over the message padded with the length lowest byte first. */
    method Final(ghost init: S, ghost m: seq<Byte>) returns (s: S)
      requires After(init, m)
      modifies this`state, this`count, block
      ensures s == Fold(body, init, Pad(false, m))
    {
      hide Fold; hide Holds; hide Bytes8; hide ZeroBytes;
      CountIs(body, init, m, state, block[..], count);
      CountModulo(|m|);
      var bits := Bytes8(false, 8 * count % LONG);
      ghost var p := m + [0x80];
      Update([0x80], true, init, m);
      PadZeros(init, p);
      ghost var q := p + ZeroBytes(Zeros(|m|));
      assert (BLOCK + 56 - |p| % BLOCK) % BLOCK == Zeros(|m|) by { Remainder(|m|, 1); }
      Update(bits, true, init, q);
      assert Pad(false, m) == q + bits;
      Folded(body, init, Pad(false, m), state, block[..], count);
      s := state;
    }
  }

  lemma CountIs<S>(f: (S, seq<Byte>) -> S, init: S, m: seq<Byte>, state: S, rest: seq<Byte>, count: nat)
    requires Holds(f, init, m, state, rest, count)
    ensures count == |m| % LONG && count % BLOCK == |m| % BLOCK && |rest| == BLOCK
  {
    hide Fold;
    CountModulo(|m|);
  }

  /** With nothing left over, the state is the fold of the whole message. */
  lemma Folded<S>(f: (S, seq<Byte>) -> S, init: S, m: seq<Byte>, state: S, rest: seq<Byte>, count: nat)
    requires Holds(f, init, m, state, rest, count) && |m| % BLOCK == 0
    ensures state == Fold(f, init, m)
  {
    assert m[..|m|] == m;
  }
}
