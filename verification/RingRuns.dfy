/** base/srsw.hpp under one writer and one reader. */
module RingRuns {
  // The loads and stores of `write` and `read` in every interleaving, each memcpy byte by
  // byte in any order.

  import opened Wrappers
  import opened RingBuffer

  type Byte = int

  /** A call of write past its size test, with the bytes it will store and those it has stored. */
  datatype Writer = NotWriting | Storing(bytes: seq<Byte>, done: set<nat>)

  /** A call of read past its size test, with what it has loaded. */
  datatype Reader = NotReading | Loading(n: nat, got: map<nat, Byte>)

  /** The object, the two calls, and the history: everything committed and everything returned. */
  datatype State = State(data: seq<Byte>, writeSize: nat, readSize: nat, writePos: nat, readPos: nat,
                         writer: Writer, reader: Reader, log: seq<Byte>, out: seq<Byte>)

  datatype Event =
    | WriteBegin(bytes: seq<Byte>)
    | Put(i: nat)
    | WriteEnd
    | ReadBegin(len: nat)
    | Get(i: nat)
    | ReadEnd

  function Start(data: seq<Byte>): State {
    State(data, 0, 0, 0, 0, NotWriting, NotReading, [], [])
  }

  function Values(got: map<nat, Byte>, n: nat): (r: seq<Byte>)
    requires forall i :: 0 <= i < n ==> i in got
    ensures |r| == n && forall i :: 0 <= i < n ==> r[i] == got[i]
  {
    if n == 0 then [] else Values(got, n - 1) + [got[n - 1]]
  }

  function Free(s: State): int {
    |s.data| - Held(s.writeSize, s.readSize)
  }

  /** One step of either thread, or None when that thread cannot take it. */
  function Next(s: State, e: Event): Option<State> {
    match e
    case WriteBegin(bytes) =>
      if s.writer.Storing? || Free(s) < 0 then None
      else
        var n := Min(|bytes|, Free(s));
        Some(if n == 0 then s else s.(writer := Storing(bytes[..n], {})))
    case Put(i) =>
      var cell := Cell(|s.data|, s.writePos, i);
      if s.writer.Storing? && i < |s.writer.bytes| && 0 <= cell < |s.data| then
        Some(s.(data := s.data[cell := s.writer.bytes[i]], writer := Storing(s.writer.bytes, s.writer.done + {i})))
      else None
    case WriteEnd =>
      if s.writer.Storing? && forall i :: 0 <= i < |s.writer.bytes| ==> i in s.writer.done then
        var n := |s.writer.bytes|;
        Some(s.(writePos := Cell(|s.data|, s.writePos, n), writeSize := Plus(s.writeSize, n),
                writer := NotWriting, log := s.log + s.writer.bytes))
      else None
    case ReadBegin(len) =>
      if s.reader.Loading? then None
      else
        var n := Min(len, Held(s.writeSize, s.readSize));
        Some(if n == 0 then s else s.(reader := Loading(n, map[])))
    case Get(i) =>
      var cell := Cell(|s.data|, s.readPos, i);
      if s.reader.Loading? && i < s.reader.n && 0 <= cell < |s.data| then
        Some(s.(reader := Loading(s.reader.n, s.reader.got[i := s.data[cell]])))
      else None
    case ReadEnd =>
      if s.reader.Loading? && forall i :: 0 <= i < s.reader.n ==> i in s.reader.got then
        var n := s.reader.n;
        Some(s.(readPos := Cell(|s.data|, s.readPos, n), readSize := Plus(s.readSize, n),
                reader := NotReading, out := s.out + Values(s.reader.got, n)))
      else None
  }

  /** Any schedule: steps a thread cannot take are skipped. */
  function Run(s: State, events: seq<Event>): State
    decreases |events|
  {
    if events == [] then s
    else var n := Next(s, events[0]); Run(if n.Some? then n.value else s, events[1..])
  }

  /** Bytes committed and not yet returned. */
  function Unread(s: State): int {
    |s.log| - |s.out|
  }

  /** The cell `i` steps on from a position. */
  function Cell(capacity: nat, pos: nat, i: nat): nat {
    Wrap(capacity, pos + i)
  }

  /** The fields are the totals, wrapped. */
  ghost predicate Totals(s: State) {
    s.writeSize == |s.log| % SIZE && s.readSize == |s.out| % SIZE &&
    (|s.data| > 0 ==> s.writePos == |s.log| % |s.data| && s.readPos == |s.out| % |s.data|)
  }

  /** The writer is ahead of the reader by what is unread. */
  ghost predicate Fields(s: State) {
    |s.data| < SIZE && 0 <= Unread(s) <= |s.data| && Held(s.writeSize, s.readSize) == Unread(s) &&
    if |s.data| == 0 then s.writePos == s.readPos == 0
    else s.readPos < |s.data| && s.writePos == Cell(|s.data|, s.readPos, Unread(s))
  }

  /** The cells hold what has been committed and not returned. */
  ghost predicate Cells(s: State) {
    s.out <= s.log &&
    forall j :: 0 <= j < Unread(s) ==>
      Cell(|s.data|, s.readPos, j) < |s.data| && s.data[Cell(|s.data|, s.readPos, j)] == s.log[|s.out| + j]
  }

  ghost predicate WriterFits(s: State) {
    s.writer.Storing? ==>
      0 < |s.writer.bytes| <= |s.data| - Unread(s) &&
      forall i :: i in s.writer.done ==>
        i < |s.writer.bytes| && Cell(|s.data|, s.writePos, i) < |s.data| &&
        s.data[Cell(|s.data|, s.writePos, i)] == s.writer.bytes[i]
  }

  ghost predicate ReaderFits(s: State) {
    s.reader.Loading? ==>
      0 < s.reader.n <= Unread(s) &&
      forall i :: i in s.reader.got ==> i < s.reader.n && s.reader.got[i] == s.log[|s.out| + i]
  }

  ghost predicate Inv(s: State) {
    Totals(s) && Fields(s) && Cells(s) && WriterFits(s) && ReaderFits(s)
  }

  /** A position moved on is the total moved on. */
  lemma PositionMoves(total: nat, n: nat, capacity: nat)
    requires 0 < capacity && n <= capacity
    ensures (total + n) % capacity == Cell(capacity, total % capacity, n)
  {
    var q, r := total / capacity, total % capacity;
    if r + n < capacity {
      Divides(total + n, q, r + n, capacity);
    } else {
      Divides(total + n, q + 1, r + n - capacity, capacity);
    }
  }

  lemma Divides(a: nat, q: nat, r: nat, capacity: nat)
    requires a == q * capacity + r && r < capacity
    ensures a % capacity == r
  {
    var d, m := a / capacity, a % capacity;
    assert a == d * capacity + m;
    assert (d - q) * capacity == r - m;
    if d > q {
      AtLeast(d - q, capacity);
    } else if d < q {
      AtLeast(q - d, capacity);
    }
  }

  lemma AtLeast(k: int, capacity: nat)
    requires k >= 1
    ensures k * capacity >= capacity
  {
  }

  lemma SizeMoves(total: nat, n: nat)
    ensures Plus(total % SIZE, n) == (total + n) % SIZE
  {
    assert total % SIZE + n == total + n - SIZE * (total / SIZE);
  }

  lemma StartKeeps(data: seq<Byte>)
    requires |data| < SIZE
    ensures Inv(Start(data))
  {
  }

  lemma WriteBeginKeeps(s: State, bytes: seq<Byte>)
    requires Inv(s) && Next(s, WriteBegin(bytes)).Some?
    ensures Inv(Next(s, WriteBegin(bytes)).value)
  {
    hide Cell; hide Held;
    var t := Next(s, WriteBegin(bytes)).value;
    assert t.(writer := s.writer) == s;
    assert Totals(t) && Fields(t) && Cells(t) && ReaderFits(t);
  }

  lemma PutKeeps(s: State, i: nat)
    requires Inv(s) && Next(s, Put(i)).Some?
    ensures Inv(Next(s, Put(i)).value)
    ensures forall j :: 0 <= j < Unread(s) ==> Cell(|s.data|, s.readPos, j) != Cell(|s.data|, s.writePos, i)
  {
    hide Held;
    var t := Next(s, Put(i)).value;
    assert Totals(t) && Fields(t) && ReaderFits(t);
    hide Totals; hide Fields; hide ReaderFits;
  }

  lemma WriteEndFields(s: State)
    requires Inv(s) && Next(s, WriteEnd).Some?
    ensures var t := Next(s, WriteEnd).value; Totals(t) && Fields(t)
  {
    var n := |s.writer.bytes|;
    var t := Next(s, WriteEnd).value;
    PositionMoves(|s.log|, n, |s.data|);
    SizeMoves(|s.log|, n);
    Grows(s.writeSize, s.readSize, n);
    hide Held; hide Plus; hide Cells;
    assert Totals(t);
    hide Totals;
  }

  lemma WriteEndCell(s: State, j: nat)
    requires Inv(s) && Next(s, WriteEnd).Some? && j < Unread(Next(s, WriteEnd).value)
    ensures var t := Next(s, WriteEnd).value;
            Cell(|t.data|, t.readPos, j) < |t.data| && t.data[Cell(|t.data|, t.readPos, j)] == t.log[|t.out| + j]
  {
    hide Held; hide Plus; hide Totals;
    if j >= Unread(s) {
      assert j - Unread(s) in s.writer.done;
    }
  }

  lemma WriteEndKeeps(s: State)
    requires Inv(s) && Next(s, WriteEnd).Some?
    ensures Inv(Next(s, WriteEnd).value)
  {
    var t := Next(s, WriteEnd).value;
    WriteEndFields(s);
    hide Held; hide Plus; hide Totals; hide Fields; hide Cell;
    forall j | 0 <= j < Unread(t)
      ensures Cell(|t.data|, t.readPos, j) < |t.data| && t.data[Cell(|t.data|, t.readPos, j)] == t.log[|t.out| + j]
    {
      WriteEndCell(s, j);
    }
  }

  lemma ReadBeginKeeps(s: State, len: nat)
    requires Inv(s) && Next(s, ReadBegin(len)).Some?
    ensures Inv(Next(s, ReadBegin(len)).value)
  {
    hide Cell; hide Held;
    var t := Next(s, ReadBegin(len)).value;
    assert Totals(t) && Fields(t) && Cells(t) && WriterFits(t);
  }

  lemma GetKeeps(s: State, i: nat)
    requires Inv(s) && Next(s, Get(i)).Some?
    ensures Inv(Next(s, Get(i)).value)
  {
    hide Held;
    var t := Next(s, Get(i)).value;
    assert Totals(t) && Fields(t) && Cells(t) && WriterFits(t);
    hide Totals; hide Fields; hide WriterFits;
    assert s.data[Cell(|s.data|, s.readPos, i)] == s.log[|s.out| + i];
  }

  lemma ReadEndFields(s: State)
    requires Inv(s) && Next(s, ReadEnd).Some?
    ensures var t := Next(s, ReadEnd).value; Totals(t) && Fields(t) && WriterFits(t)
  {
    var n := s.reader.n;
    PositionMoves(|s.out|, n, |s.data|);
    SizeMoves(|s.out|, n);
    Shrinks(s.writeSize, s.readSize, n);
    hide Held; hide Plus; hide Cells;
    var t := Next(s, ReadEnd).value;
    assert Totals(t);
    hide Totals;
    assert Fields(t);
  }

  lemma ReadEndOut(s: State)
    requires Inv(s) && Next(s, ReadEnd).Some?
    ensures Next(s, ReadEnd).value.out == s.log[..|s.out| + s.reader.n]
  {
    hide Held; hide Plus; hide Totals; hide WriterFits; hide Cell;
    assert Values(s.reader.got, s.reader.n) == s.log[|s.out|..|s.out| + s.reader.n];
  }

  lemma ReadEndCell(s: State, j: nat)
    requires Inv(s) && Next(s, ReadEnd).Some? && j < Unread(Next(s, ReadEnd).value)
    ensures var t := Next(s, ReadEnd).value;
            Cell(|t.data|, t.readPos, j) < |t.data| && t.data[Cell(|t.data|, t.readPos, j)] == t.log[|t.out| + j]
  {
    hide Held; hide Plus; hide Totals; hide WriterFits;
    var t := Next(s, ReadEnd).value;
    assert Cell(|s.data|, s.readPos, s.reader.n + j) == Cell(|t.data|, t.readPos, j);
  }

  lemma ReadEndKeeps(s: State)
    requires Inv(s) && Next(s, ReadEnd).Some?
    ensures Inv(Next(s, ReadEnd).value)
  {
    var t := Next(s, ReadEnd).value;
    ReadEndFields(s);
    ReadEndOut(s);
    hide Held; hide Plus; hide Totals; hide WriterFits; hide Fields; hide Cell;
    forall j | 0 <= j < Unread(t)
      ensures Cell(|t.data|, t.readPos, j) < |t.data| && t.data[Cell(|t.data|, t.readPos, j)] == t.log[|t.out| + j]
    {
      ReadEndCell(s, j);
    }
  }

  lemma StepKeeps(s: State, e: Event)
    requires Inv(s) && Next(s, e).Some?
    ensures Inv(Next(s, e).value)
  {
    hide Next; hide Inv;
    match e
    case WriteBegin(bytes) => WriteBeginKeeps(s, bytes);
    case Put(i) => PutKeeps(s, i);
    case WriteEnd => WriteEndKeeps(s);
    case ReadBegin(len) => ReadBeginKeeps(s, len);
    case Get(i) => GetKeeps(s, i);
    case ReadEnd => ReadEndKeeps(s);
  }

  lemma {:induction false} RunKeeps(s: State, events: seq<Event>)
    requires Inv(s)
    ensures Inv(Run(s, events))
    decreases |events|
  {
    hide Next; hide Inv;
    if events != [] {
      var n := Next(s, events[0]);
      if n.Some? {
        StepKeeps(s, events[0]);
      }
      RunKeeps(if n.Some? then n.value else s, events[1..]);
    }
  }

  /**
    In every interleaving the reader has returned a prefix of what was committed, in order, and never falls a
    round behind.
   */
  lemma DeliversInOrder(data: seq<Byte>, events: seq<Event>)
    requires |data| < SIZE
    ensures var s := Run(Start(data), events); s.out <= s.log && |s.log| - |s.out| <= |data|
  {
    StartKeeps(data);
    RunKeeps(Start(data), events);
    SameCapacity(Start(data), events);
    hide Run; hide Held;
  }

  /** No store of the writer lands on a byte the reader has still to return. */
  lemma NeverOverwrites(data: seq<Byte>, events: seq<Event>, i: nat)
    requires |data| < SIZE
    ensures var s := Run(Start(data), events);
            Next(s, Put(i)).Some? ==>
              forall j :: 0 <= j < |s.log| - |s.out| ==> Cell(|data|, s.readPos, j) != Cell(|data|, s.writePos, i)
  {
    StartKeeps(data);
    RunKeeps(Start(data), events);
    SameCapacity(Start(data), events);
    var s := Run(Start(data), events);
    hide Run; hide Next;
    if Next(s, Put(i)).Some? {
      PutKeeps(s, i);
    }
  }

  lemma {:induction false} SameCapacity(s: State, events: seq<Event>)
    ensures |Run(s, events).data| == |s.data|
    decreases |events|
  {
    if events != [] {
      var n := Next(s, events[0]);
      SameCapacity(if n.Some? then n.value else s, events[1..]);
    }
  }

  /** The four fields are the totals, wrapped at the capacity and at the width of size_t. */
  lemma FieldsAreTotals(data: seq<Byte>, events: seq<Event>)
    requires 0 < |data| < SIZE
    ensures var s := Run(Start(data), events);
            s.writePos == |s.log| % |data| && s.readPos == |s.out| % |data| &&
            s.writeSize == |s.log| % SIZE && s.readSize == |s.out| % SIZE
  {
    StartKeeps(data);
    RunKeeps(Start(data), events);
    SameCapacity(Start(data), events);
    hide Run;
  }

  predicate WriteStarts(s: State) {
    var n := Next(s, WriteBegin([0]));
    n.Some? && n.value.writer == Storing([0], {})
  }

  predicate ReadStarts(s: State) {
    var n := Next(s, ReadBegin(1));
    n.Some? && n.value.reader == Loading(1, map[])
  }

  /** Nothing is stuck: a call under way can take all its steps and end, and an idle reader gets what is there. */
  lemma CallsCanEnd(data: seq<Byte>, events: seq<Event>, i: nat)
    requires |data| < SIZE
    ensures var s := Run(Start(data), events);
            (s.writer.Storing? && i < |s.writer.bytes| ==> Next(s, Put(i)).Some?) &&
            (s.reader.Loading? && i < s.reader.n ==> Next(s, Get(i)).Some?) &&
            (s.writer.NotWriting? && |s.log| - |s.out| < |data| ==> WriteStarts(s)) &&
            (s.reader.NotReading? && |s.out| < |s.log| ==> ReadStarts(s))
  {
    StartKeeps(data);
    RunKeeps(Start(data), events);
    SameCapacity(Start(data), events);
    var s := Run(Start(data), events);
    assert [0][..1] == [0];
    hide Run;
  }
}
