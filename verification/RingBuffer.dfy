/** base/srsw.hpp: srsw_buffer_t, one call at a time. */
module RingBuffer {
  /** size_t. */
  const SIZE := 0x1_0000_0000_0000_0000

  function Min(a: nat, b: nat): nat {
    if a <= b then a else b
  }

  /** The cell `i` steps on. */
  function Wrap(capacity: nat, i: nat): nat {
    if i < capacity then i else i - capacity
  }

  /** The `n` cells from `pos` on, around the end. */
  function Span<T>(data: seq<T>, pos: nat, n: nat): (r: seq<T>)
    requires pos <= |data| && n <= |data|
    ensures |r| == n
  {
    if pos + n <= |data| then data[pos..pos + n] else data[pos..] + data[..pos + n - |data|]
  }

  lemma SpanJoins<T>(data: seq<T>, pos: nat, n: nat, m: nat)
    requires pos <= |data| && n + m <= |data|
    ensures Wrap(|data|, pos + n) <= |data|
    ensures Span(data, pos, n + m) == Span(data, pos, n) + Span(data, Wrap(|data|, pos + n), m)
  {
  }

  lemma SpanKeeps<T>(data: seq<T>, next: seq<T>, pos: nat, n: nat)
    requires |data| == |next| && pos <= |data| && n <= |data|
    requires forall i :: pos <= i < pos + n ==> next[Wrap(|data|, i)] == data[Wrap(|data|, i)]
    ensures Span(next, pos, n) == Span(data, pos, n)
  {
    forall i | 0 <= i < n ensures Span(next, pos, n)[i] == Span(data, pos, n)[i] {
      assert next[Wrap(|data|, pos + i)] == data[Wrap(|data|, pos + i)];
    }
  }

  /** The cells after a write that may go around the end. */
  function Store<T>(data: seq<T>, pos: nat, bytes: seq<T>): (r: seq<T>)
    requires pos <= |data| && |bytes| <= |data|
    ensures |r| == |data|
  {
    var n, tail := |bytes|, |data| - pos;
    if n <= tail then data[..pos] + bytes + data[pos + n..] else bytes[tail..] + data[n - tail..pos] + bytes[..tail]
  }

  /** A write into the free cells is found there and leaves the rest alone. */
  lemma StoreAppends<T>(data: seq<T>, pos: nat, count: nat, bytes: seq<T>)
    requires pos < |data| && count + |bytes| <= |data|
    ensures Wrap(|data|, pos + count) <= |data|
    ensures Span(Store(data, Wrap(|data|, pos + count), bytes), pos, count + |bytes|) == Span(data, pos, count) + bytes
  {
    var at := Wrap(|data|, pos + count);
    var next := Store(data, at, bytes);
    SpanKeeps(data, next, pos, count);
    assert Span(next, at, |bytes|) == bytes;
    hide Span; hide Store;
    SpanJoins(next, pos, count, |bytes|);
  }

  /** The same, with the old contents and the new bytes apart. */
  lemma StoreFills<T>(data: seq<T>, pos: nat, count: nat, bytes: seq<T>)
    requires pos < |data| && count + |bytes| <= |data|
    ensures Wrap(|data|, pos + count) <= |data|
    ensures var at := Wrap(|data|, pos + count);
            var next := Store(data, at, bytes);
            Span(next, pos, count) + Span(next, at, |bytes|) == Span(data, pos, count) + bytes
  {
    StoreAppends(data, pos, count, bytes);
    SpanJoins(Store(data, Wrap(|data|, pos + count), bytes), pos, count, |bytes|);
  }

  /** memcpy at a place. */
  function Pasted<T>(data: seq<T>, at: nat, bytes: seq<T>): (r: seq<T>)
    requires at + |bytes| <= |data|
    ensures |r| == |data|
  {
    data[..at] + bytes + data[at + |bytes|..]
  }

  /** A write around the end is two copies. */
  lemma StoreIsTwoCopies<T>(data: seq<T>, pos: nat, bytes: seq<T>, tail: nat)
    requires pos < |data| && tail == |data| - pos && tail < |bytes| <= |data|
    ensures Pasted(Pasted(data, pos, bytes[..tail]), 0, bytes[tail..]) == Store(data, pos, bytes)
  {
    var once := Pasted(data, pos, bytes[..tail]);
    assert once == data[..pos] + bytes[..tail];
    assert once[|bytes| - tail..] == data[|bytes| - tail..pos] + bytes[..tail];
  }

  /** Two moves that stay within one round are one. */
  lemma Moves(capacity: nat, pos: nat, n: nat, m: nat)
    requires pos < capacity && n + m <= capacity
    ensures Wrap(capacity, pos + n) < capacity
    ensures Wrap(capacity, Wrap(capacity, pos + n) + m) == Wrap(capacity, pos + n + m)
  {
  }

  /** The distance from a position to the end of a block: around the end when the block lies before the position. */
  function Distance(capacity: nat, pos: nat, start: nat, end: nat): nat {
    if start >= pos then if end >= pos then end - pos else 0 else if pos <= capacity then capacity - pos + end else 0
  }

  /** What two counters of type size_t are apart, and a counter moved on. */
  function Held(written: nat, taken: nat): (r: nat)
    ensures r < SIZE
  {
    (written - taken) % SIZE
  }

  function Plus(counter: nat, n: nat): (r: nat)
    ensures r < SIZE
  {
    (counter + n) % SIZE
  }

  /** Counters that have wrapped still count. */
  lemma Grows(written: nat, taken: nat, n: nat)
    requires Held(written, taken) + n < SIZE
    ensures Held(Plus(written, n), taken) == Held(written, taken) + n
  {
    var q := (written - taken) / SIZE;
    assert Plus(written, n) - taken == Held(written, taken) + n + SIZE * (q - (written + n) / SIZE);
  }

  lemma PlusTwice(counter: nat, n: nat, m: nat)
    ensures Plus(Plus(counter, n), m) == Plus(counter, n + m)
  {
    assert Plus(counter, n) + m == counter + n + m - SIZE * ((counter + n) / SIZE);
  }

  lemma Shrinks(written: nat, taken: nat, n: nat)
    requires n <= Held(written, taken)
    ensures Held(written, Plus(taken, n)) == Held(written, taken) - n
  {
    var q := (written - taken) / SIZE;
    assert written - Plus(taken, n) == Held(written, taken) - n + SIZE * (q + (taken + n) / SIZE);
  }

  /** The four fields agree: the writer is ahead of the reader by what is held. */
  ghost predicate Shape(capacity: nat, written: nat, taken: nat, writePos: nat, readPos: nat) {
    capacity < SIZE && Held(written, taken) <= capacity &&
    (if capacity == 0 then readPos == writePos == 0
     else readPos < capacity && writePos == Wrap(capacity, readPos + Held(written, taken)))
  }

  lemma Pushes(capacity: nat, written: nat, taken: nat, writePos: nat, readPos: nat, n: nat)
    requires Shape(capacity, written, taken, writePos, readPos) && n <= capacity - Held(written, taken) && capacity > 0
    ensures Shape(capacity, Plus(written, n), taken, Wrap(capacity, writePos + n), readPos)
    ensures Held(Plus(written, n), taken) == Held(written, taken) + n
  {
    Grows(written, taken, n);
    Moves(capacity, readPos, Held(written, taken), n);
  }

  lemma Pops(capacity: nat, written: nat, taken: nat, writePos: nat, readPos: nat, n: nat)
    requires Shape(capacity, written, taken, writePos, readPos) && n <= Held(written, taken) && capacity > 0
    ensures Shape(capacity, written, Plus(taken, n), writePos, Wrap(capacity, readPos + n))
    ensures Held(written, Plus(taken, n)) == Held(written, taken) - n
  {
    Shrinks(written, taken, n);
    Moves(capacity, readPos, n, Held(written, taken) - n);
  }

  lemma Bounds(capacity: nat, written: nat, taken: nat, writePos: nat, readPos: nat)
    requires Shape(capacity, written, taken, writePos, readPos)
    ensures Held(written, taken) <= capacity && readPos <= capacity && writePos <= capacity
    ensures capacity > 0 ==> readPos < capacity && writePos < capacity &&
                             writePos == Wrap(capacity, readPos + Held(written, taken))
  {
  }

  class Ring<T> {
    const data: array<T>
    var writeSize: nat
    var readSize: nat
    var writePos: nat
    var readPos: nat

    ghost predicate Valid()
      reads this
    {
      Shape(data.Length, writeSize, readSize, writePos, readPos)
    }

    /** What has been written and not read, the oldest first. */
    ghost function Contents(): seq<T>
      reads this, data
      requires Valid()
    {
      Span(data[..], readPos, Held(writeSize, readSize))
    }

    /** reset with a buffer. */
    constructor (buffer: array<T>)
      requires buffer.Length < SIZE
      ensures Valid() && data == buffer && Contents() == []
    {
      data := buffer;
      writeSize, readSize, writePos, readPos := 0, 0, 0, 0;
    }

    /** memcpy. */
    method Copy(at: nat, bytes: seq<T>)
      requires at + |bytes| <= data.Length
      modifies data
      ensures data[..] == Pasted(old(data[..]), at, bytes)
    {
      forall i | 0 <= i < |bytes| {
        data[at + i] := bytes[i];
      }
    }

    /** The writer's half: the bytes in one step or in two. */
    method Put(bytes: seq<T>)
      requires writePos < data.Length && 0 < |bytes| <= data.Length
      modifies data, this`writePos
      ensures data[..] == Store(old(data[..]), old(writePos), bytes)
              && writePos == Wrap(data.Length, old(writePos) + |bytes|)
    {
      var n := |bytes|;
      if writePos + n <= data.Length {
        Copy(writePos, bytes);
        writePos := writePos + n;
        if writePos == data.Length {
          writePos := 0;
        }
      } else {
        var tail := data.Length - writePos;
        StoreIsTwoCopies(data[..], writePos, bytes, tail);
        hide Pasted; hide Store;
        Copy(writePos, bytes[..tail]);
        writePos := n - tail;
        Copy(0, bytes[tail..]);
      }
    }

    /** The reader's half. */
    method Get(n: nat) returns (bytes: seq<T>)
      requires readPos < data.Length && 0 < n <= data.Length
      modifies this`readPos
      ensures bytes == Span(data[..], old(readPos), n) && readPos == Wrap(data.Length, old(readPos) + n)
    {
      if readPos + n <= data.Length {
        bytes := data[readPos..readPos + n];
        readPos := readPos + n;
        if readPos == data.Length {
          readPos := 0;
        }
      } else {
        var tail := data.Length - readPos;
        bytes := data[readPos..];
        readPos := n - tail;
        bytes := bytes + data[..readPos];
      }
    }

    method Write(bytes: seq<T>) returns (n: nat)
      requires Valid()
      modifies data, this`writeSize, this`writePos
      ensures Valid() && n == Min(|bytes|, data.Length - |old(Contents())|)
      ensures Contents() == old(Contents()) + bytes[..n]
    {
      ghost var count := Held(writeSize, readSize);
      Bounds(data.Length, writeSize, readSize, writePos, readPos);
      hide Span; hide Store; hide Held; hide Plus; hide Wrap; hide Shape;
      n := Min(|bytes|, data.Length - Held(writeSize, readSize));
      if n == 0 { return; }
      StoreAppends(data[..], readPos, count, bytes[..n]);
      Pushes(data.Length, writeSize, readSize, writePos, readPos, n);
      Put(bytes[..n]);
      writeSize := Plus(writeSize, n);
    }

    method Read(len: nat) returns (bytes: seq<T>)
      requires Valid()
      modifies this`readSize, this`readPos
      ensures Valid() && |bytes| == Min(len, |old(Contents())|)
      ensures bytes + Contents() == old(Contents())
    {
      ghost var count := Held(writeSize, readSize);
      Bounds(data.Length, writeSize, readSize, writePos, readPos);
      hide Span; hide Held; hide Plus; hide Wrap; hide Shape;
      var n := Min(len, Held(writeSize, readSize));
      if n == 0 { return []; }
      SpanJoins(data[..], readPos, n, count - n);
      Pops(data.Length, writeSize, readSize, writePos, readPos, n);
      bytes := Get(n);
      readSize := Plus(readSize, n);
    }

    /** reserve: the free cells, as one block or as two. */
    method Reserve() returns (first: nat, length: nat, second: nat)
      requires Valid()
      ensures first == writePos && first + length <= data.Length
      ensures length + second == data.Length - |Contents()|
      ensures second > 0 ==> first + length == data.Length && second <= readPos
    {
      var free := data.Length - Held(writeSize, readSize);
      first := writePos;
      if writePos + free <= data.Length {
        length, second := free, 0;
      } else {
        length := data.Length - writePos;
        second := free - length;
      }
    }

    /** commit when the block ends in the first part. */
    method CommitHere(end: nat)
      requires Valid() && writePos <= end <= data.Length && data.Length > 0
      requires end - writePos <= data.Length - |Contents()|
      modifies this`writeSize, this`writePos
      ensures Valid() && Contents() == old(Contents()) + Span(data[..], old(writePos), end - old(writePos))
    {
      var n := end - writePos;
      Bounds(data.Length, writeSize, readSize, writePos, readPos);
      hide Span; hide Held; hide Plus; hide Shape;
      SpanJoins(data[..], readPos, Held(writeSize, readSize), n);
      Pushes(data.Length, writeSize, readSize, writePos, readPos, n);
      writePos := writePos + n;
      writeSize := Plus(writeSize, n);
      if writePos == data.Length {
        writePos := 0;
      }
    }

    /** commit when the block lies in the second part: what is left of the first part goes with it. */
    method CommitAround(end: nat)
      requires Valid() && data.Length > 0 && data.Length - writePos + end <= data.Length - |Contents()|
      modifies this`writeSize, this`writePos
      ensures Valid()
      ensures Contents() == old(Contents()) + Span(data[..], old(writePos), data.Length - old(writePos) + end)
    {
      ghost var n := data.Length - writePos + end;
      Bounds(data.Length, writeSize, readSize, writePos, readPos);
      hide Span; hide Held; hide Plus; hide Shape;
      SpanJoins(data[..], readPos, Held(writeSize, readSize), n);
      Pushes(data.Length, writeSize, readSize, writePos, readPos, n);
      PlusTwice(writeSize, data.Length - writePos, end);
      writeSize := Plus(writeSize, data.Length - writePos);
      writePos := end;
      writeSize := Plus(writeSize, writePos);
    }

    /** commit: everything up to the end of the block becomes readable. */
    method Commit(start: nat, len: nat)
      requires Valid() && data.Length > 0
      requires start >= writePos ==> start + len <= data.Length
      requires Distance(data.Length, writePos, start, start + len) <= data.Length - |Contents()|
      modifies this`writeSize, this`writePos
      ensures Valid()
      ensures Contents()
              == old(Contents()) + Span(data[..], old(writePos),
                  Distance(data.Length, old(writePos), start, start + len))
    {
      Bounds(data.Length, writeSize, readSize, writePos, readPos);
      hide Span; hide Held; hide Shape;
      if start >= writePos {
        CommitHere(start + len);
      } else {
        CommitAround(start + len);
      }
    }

    /** decommit when the block ends in the first part. */
    method DecommitHere(end: nat)
      requires Valid() && readPos <= end <= data.Length && data.Length > 0 && end - readPos <= |Contents()|
      modifies this`readSize, this`readPos
      ensures Valid() && Span(data[..], old(readPos), end - old(readPos)) + Contents() == old(Contents())
    {
      var n := end - readPos;
      Bounds(data.Length, writeSize, readSize, writePos, readPos);
      hide Span; hide Held; hide Plus; hide Shape;
      SpanJoins(data[..], readPos, n, Held(writeSize, readSize) - n);
      Pops(data.Length, writeSize, readSize, writePos, readPos, n);
      readPos := readPos + n;
      readSize := Plus(readSize, n);
      if readPos == data.Length {
        readPos := 0;
      }
    }

    /** decommit when the block lies in the second part: what is left of the first part is skipped with it. */
    method DecommitAround(end: nat)
      requires Valid() && data.Length > 0 && data.Length - readPos + end <= |Contents()|
      modifies this`readSize, this`readPos
      ensures Valid() && Span(data[..], old(readPos), data.Length - old(readPos) + end) + Contents() == old(Contents())
    {
      ghost var n := data.Length - readPos + end;
      Bounds(data.Length, writeSize, readSize, writePos, readPos);
      hide Span; hide Held; hide Plus; hide Shape;
      SpanJoins(data[..], readPos, n, Held(writeSize, readSize) - n);
      Pops(data.Length, writeSize, readSize, writePos, readPos, n);
      PlusTwice(readSize, data.Length - readPos, end);
      readSize := Plus(readSize, data.Length - readPos);
      readPos := end;
      readSize := Plus(readSize, readPos);
    }

    /** decommit: everything up to the end of the block has been read. */
    method Decommit(start: nat, len: nat)
      requires Valid() && data.Length > 0
      requires start >= readPos ==> start + len <= data.Length
      requires Distance(data.Length, readPos, start, start + len) <= |Contents()|
      modifies this`readSize, this`readPos
      ensures Valid()
              && Span(data[..], old(readPos), Distance(data.Length, old(readPos), start, start + len)) + Contents()
                 == old(Contents())
    {
      Bounds(data.Length, writeSize, readSize, writePos, readPos);
      hide Span; hide Held; hide Shape;
      if start >= readPos {
        DecommitHere(start + len);
      } else {
        DecommitAround(start + len);
      }
    }

    /** memcpy into the one block or the two. */
    method CopyReserved(first: nat, length: nat, bytes: seq<T>)
      requires first < data.Length && first + length <= data.Length && |bytes| <= data.Length
      requires |bytes| > length ==> first + length == data.Length
      modifies data
      ensures data[..] == Store(old(data[..]), first, bytes)
    {
      if |bytes| <= length {
        Copy(first, bytes);
      } else {
        StoreIsTwoCopies(data[..], first, bytes, length);
        hide Pasted; hide Store;
        Copy(first, bytes[..length]);
        Copy(0, bytes[length..]);
      }
    }

    method FillReserved(length: nat, bytes: seq<T>, ghost count: nat)
      requires readPos < data.Length && count + |bytes| <= data.Length && writePos == Wrap(data.Length, readPos + count)
      requires writePos + length <= data.Length && (|bytes| > length ==> writePos + length == data.Length)
      requires writePos < data.Length
      modifies data
      ensures Span(data[..], readPos, count) + Span(data[..], writePos, |bytes|)
              == Span(old(data[..]), readPos, count) + bytes
    {
      hide Span; hide Store; hide Wrap;
      StoreFills(data[..], readPos, count, bytes);
      CopyReserved(writePos, length, bytes);
    }

    /** The commit of a writer that has filled `n` bytes of what reserve gave it. */
    method CommitFilled(length: nat, n: nat)
      requires Valid() && 0 < n <= data.Length - |Contents()| && writePos + length <= data.Length
      requires n > length ==> writePos + length == data.Length
      modifies this`writeSize, this`writePos
      ensures Valid() && Contents() == old(Contents()) + Span(data[..], old(writePos), n)
    {
      Bounds(data.Length, writeSize, readSize, writePos, readPos);
      hide Span; hide Held; hide Shape;
      if n <= length {
        Commit(writePos, n);
      } else {
        Commit(0, n - length);
      }
    }

    /** A writer that fills what reserve gives it and commits does what write does. */
    method WriteInPlace(bytes: seq<T>) returns (n: nat)
      requires Valid()
      modifies data, this`writeSize, this`writePos
      ensures Valid() && n == Min(|bytes|, data.Length - |old(Contents())|)
      ensures Contents() == old(Contents()) + bytes[..n]
    {
      Bounds(data.Length, writeSize, readSize, writePos, readPos);
      hide Span; hide Held; hide Shape;
      var first, length, second := Reserve();
      n := Min(|bytes|, length + second);
      if n > 0 {
        FillReserved(length, bytes[..n], Held(writeSize, readSize));
        CommitFilled(length, n);
      }
    }
  }
}
