/** av_crc_init and av_crc: filling a table in place, and the loops that use it. */
module CrcTable {
  import opened CrcWord
  import opened Crc

  /** The two sizes of a table, in entries. */
  const SMALL: nat := 257
  const LARGE: nat := 1024

  lemma IndexOfByte(b: Byte)
    ensures (b as nat) < 256 && (b as nat) as Byte == b
  {
  }

  /** The i-th entry of the j-th quarter. */
  function At(t: seq<Word>, j: nat, i: nat): Word
    requires 256 * j + i < |t|
  {
    t[256 * j + i]
  }

  /** What the i-th entry of the j-th quarter is to be. */
  function Want(k: Kind, j: nat, i: nat): Word
    requires Accepted(k) && i < 256
  {
    Deep(k, j, i as Byte)
  }

  /** The first `upto` entries of the j-th quarter. */
  predicate Quarter(t: seq<Word>, k: Kind, j: nat, upto: nat)
    requires Accepted(k) && 256 * j + upto <= |t| && upto <= 256
  {
    forall i :: 0 <= i < upto ==> At(t, j, i) == Want(k, j, i)
  }

  /** A table that av_crc_init has filled: one quarter and a mark, or four quarters. */
  predicate IsTable(t: seq<Word>, k: Kind) {
    Accepted(k) &&
    if |t| == SMALL then
      Quarter(t, k, 0, 256) && t[256] == 1
    else
      && |t| == LARGE && Quarter(t, k, 0, 256) && Quarter(t, k, 1, 256)
      && Quarter(t, k, 2, 256) && Quarter(t, k, 3, 256)
  }

  /**
    Entry 256 tells the sizes apart: the mark of a small table is one, and in a large one it is overwritten by
    zero.
   */
  lemma MarkSelects(t: seq<Word>, k: Kind)
    requires IsTable(t, k)
    ensures t[256] == 0 <==> |t| == LARGE
  {
    hide Entry;
    if |t| == LARGE {
      assert At(t, 1, 0) == Want(k, 1, 0);
      EntryZero(k);
      ShiftZero(k);
      assert Deep(k, 1, 0) == Shift(k, Deep(k, 0, 0));
    }
  }

  lemma ShiftZero(k: Kind)
    requires Accepted(k)
    ensures Shift(k, 0) == 0
  {
    hide Entry; hide Low; hide Xor; hide Down1;
    EntryZero(k);
    LowDownZero();
    XorZero(0);
  }

  lemma LowDownZero()
    ensures Low(0) == 0 && Down1(0) == 0
  {
  }

  /** The entry of one byte. */
  method Divide(k: Kind, b: Byte) returns (c: Word)
    requires Accepted(k)
    ensures c == Entry(k, b)
  {
    hide BitLow; hide BitHigh; hide Swap; hide Wide0; hide Wide3; hide Poly;
    c := if k.le then Wide0(b) else Wide3(b);
    ghost var start := c;
    for j := 0 to 8
      invariant c == Bits(k.le, Poly(k), start, j)
    {
      c := if k.le then BitLow(Poly(k), c) else BitHigh(Poly(k), c);
    }
    if !k.le {
      c := Swap(c);
    }
  }

  /** av_crc_init: refuses a bad polynomial or size, otherwise fills the table. */
  method Init(ctx: array<Word>, k: Kind) returns (ok: bool)
    modifies ctx
    ensures ok <==> Accepted(k) && (ctx.Length == SMALL || ctx.Length == LARGE)
    ensures ok ==> IsTable(ctx[..], k)
    ensures !ok ==> ctx[..] == old(ctx[..])
  {
    hide Want; hide Accepted;
    if !Accepted(k) {
      return false;
    }
    if ctx.Length != SMALL && ctx.Length != LARGE {
      return false;
    }
    Fill(ctx, k);
    ghost var before := ctx[..];
    ctx[256] := 1;
    assert forall i :: 0 <= i < 256 ==> At(ctx[..], 0, i) == At(before, 0, i);
    if ctx.Length == LARGE {
      Extend(ctx, k);
    }
    return true;
  }

  /** The first quarter. */
  method Fill(ctx: array<Word>, k: Kind)
    requires Accepted(k) && ctx.Length > 256
    modifies ctx
    ensures Quarter(ctx[..], k, 0, 256)
  {
    hide Entry;
    for i := 0 to 256
      invariant Quarter(ctx[..], k, 0, i)
    {
      var c := Divide(k, i as Byte);
      ghost var before := ctx[..];
      ctx[i] := c;
      assert forall m :: 0 <= m < i ==> At(ctx[..], 0, m) == At(before, 0, m);
    }
  }

  lemma OtherEntry(t: seq<Word>, j: nat, i: nat, w: Word, q: nat, m: nat)
    requires 256 * j + i < |t| && i < 256 && m < 256 && 256 * q + m < |t|
    ensures At(t[256 * j + i := w], q, m) == if q == j && m == i then w else At(t, q, m)
  {
  }

  /** The next entry of a column. */
  method Deepen(ctx: array<Word>, k: Kind, j: nat, i: nat)
    requires Accepted(k) && ctx.Length == LARGE && Quarter(ctx[..], k, 0, 256) && j < 3 && i < 256
    requires At(ctx[..], j, i) == Want(k, j, i)
    modifies ctx
    ensures ctx[..] == old(ctx[..])[256 * (j + 1) + i := Want(k, j + 1, i)]
  {
    hide Deep; hide Entry; hide Shift; hide Accepted; hide Quarter; hide Low; hide Down1; hide Xor;
    var c := ctx[256 * j + i];
    var x := Lookup(ctx, k, Low(c));
    DeepNext(k, j, i as Byte);
    XorCommutes(Down1(c), x);
    ctx[256 * (j + 1) + i] := Xor(Down1(c), x);
  }

  /** The columns below i, and the first entries of column i. */
  predicate Columns(t: seq<Word>, k: Kind, i: nat, j: nat)
    requires Accepted(k) && |t| == LARGE && i <= 256 && j < 4
  {
    && Quarter(t, k, 0, 256) && Quarter(t, k, 1, i) && Quarter(t, k, 2, i) && Quarter(t, k, 3, i)
    && (i < 256 ==> forall m :: 0 <= m <= j ==> At(t, m, i) == Want(k, m, i))
  }

  lemma ColumnsNext(t: seq<Word>, k: Kind, i: nat, j: nat)
    requires Accepted(k) && |t| == LARGE && i < 256 && j < 3 && Columns(t, k, i, j)
    ensures Columns(t[256 * (j + 1) + i := Want(k, j + 1, i)], k, i, j + 1)
  {
    hide Want; hide Accepted; hide At;
    var w := Want(k, j + 1, i);
    forall q: nat, m: nat | q < 4 && m < 256
      ensures At(t[256 * (j + 1) + i := w], q, m) == if q == j + 1 && m == i then w else At(t, q, m)
    {
      OtherEntry(t, j + 1, i, w, q, m);
    }
    var t' := t[256 * (j + 1) + i := w];
    assert Quarter(t', k, 0, 256) && Quarter(t', k, 1, i) && Quarter(t', k, 2, i) && Quarter(t', k, 3, i);
    forall m | 0 <= m <= j + 1 ensures At(t', m, i) == Want(k, m, i) {
      OtherEntry(t, j + 1, i, w, m, i);
      assert m <= j ==> At(t, m, i) == Want(k, m, i);
    }
  }

  /** A column that is complete, and the first entry of the next. */
  lemma ColumnDone(t: seq<Word>, k: Kind, i: nat)
    requires Accepted(k) && |t| == LARGE && i < 256 && Columns(t, k, i, 3)
    ensures Columns(t, k, i + 1, 0)
  {
    hide Want; hide Accepted; hide At;
  }

  lemma ColumnsBegin(t: seq<Word>, k: Kind)
    requires Accepted(k) && |t| == LARGE && Quarter(t, k, 0, 256)
    ensures Columns(t, k, 0, 0)
  {
    hide Want; hide Accepted; hide At;
  }

  lemma ColumnsEnd(t: seq<Word>, k: Kind)
    requires Accepted(k) && |t| == LARGE && Columns(t, k, 256, 0)
    ensures IsTable(t, k)
  {
    hide Want; hide Accepted; hide At;
  }

  lemma ColumnEntry(t: seq<Word>, k: Kind, i: nat, j: nat)
    requires Accepted(k) && |t| == LARGE && i < 256 && j < 3 && Columns(t, k, i, j)
    ensures At(t, j, i) == Want(k, j, i) && Quarter(t, k, 0, 256)
  {
    hide Want; hide Accepted; hide At;
  }

  /** The three further quarters, a column at a time. */
  method Extend(ctx: array<Word>, k: Kind)
    requires Accepted(k) && ctx.Length == LARGE && Quarter(ctx[..], k, 0, 256)
    modifies ctx
    ensures IsTable(ctx[..], k)
  {
    hide Want; hide Accepted; hide At; hide Columns; hide Quarter;
    ColumnsBegin(ctx[..], k);
    for i := 0 to 256
      invariant Columns(ctx[..], k, i, 0)
    {
      for j := 0 to 3
        invariant Columns(ctx[..], k, i, j)
      {
        ColumnEntry(ctx[..], k, i, j);
        ColumnsNext(ctx[..], k, i, j);
        Deepen(ctx, k, j, i);
      }
      ColumnDone(ctx[..], k, i);
    }
    ColumnsEnd(ctx[..], k);
  }

  lemma DeepNext(k: Kind, j: nat, b: Byte)
    requires Accepted(k)
    ensures Deep(k, j + 1, b) == Xor(Entry(k, Low(Deep(k, j, b))), Down1(Deep(k, j, b)))
  {
  }

  /** An entry of the first quarter. */
  method Lookup(ctx: array<Word>, ghost k: Kind, b: Byte) returns (w: Word)
    requires Accepted(k) && ctx.Length >= 256 && Quarter(ctx[..], k, 0, 256)
    ensures w == Entry(k, b)
  {
    hide Entry; hide Accepted;
    w := LookupIn(ctx, k, 0, b);
  }

  /** An entry of a quarter. */
  method LookupIn(ctx: array<Word>, ghost k: Kind, j: nat, b: Byte) returns (w: Word)
    requires Accepted(k) && ctx.Length >= 256 * j + 256 && Quarter(ctx[..], k, j, 256)
    ensures w == Deep(k, j, b)
  {
    hide Deep; hide Accepted;
    IndexOfByte(b);
    w := ctx[256 * j + b as nat];
    assert w == At(ctx[..], j, b as nat);
  }

  /** One byte. */
  method Byte1(ctx: array<Word>, ghost k: Kind, crc: Word, b: Byte) returns (r: Word)
    requires IsTable(ctx[..], k)
    ensures r == Check(k, crc, [b])
  {
    hide Entry; hide Xor; hide XorByte; hide Low; hide Down1;
    var w := Lookup(ctx, k, XorByte(Low(crc), b));
    r := Xor(w, Down1(crc));
    assert [b][..0] == [];
  }

  /** Four bytes, with a large table. */
  method Byte4(ctx: array<Word>, ghost k: Kind, crc: Word, a: Byte, b: Byte, c: Byte, d: Byte) returns (r: Word)
    requires IsTable(ctx[..], k) && ctx.Length == LARGE
    ensures r == Check(k, crc, [a, b, c, d])
  {
    hide Deep; hide Xor; hide Low; hide Down1; hide Down2; hide Down3; hide Four; hide Check; hide Accepted;
    hide Quarter;
    var x := Xor(crc, Four(a, b, c, d));
    var w3 := LookupIn(ctx, k, 3, Low(x));
    var w2 := LookupIn(ctx, k, 2, Low(Down1(x)));
    var w1 := LookupIn(ctx, k, 1, Low(Down2(x)));
    var w0 := LookupIn(ctx, k, 0, Low(Down3(x)));
    r := Xor(Xor(Xor(w3, w2), w1), w0);
    QuadChecks(k, crc, a, b, c, d);
  }

  /**
    av_crc: with a large table, bytes up to an aligned address, then four at a
    time, then the rest; with a small one, bytes. `address` is where the buffer
    lies. Either way, and at any address, the result is the check of the buffer.
   */
  method Compute(ctx: array<Word>, ghost k: Kind, crc: Word, buffer: seq<Byte>, address: nat) returns (r: Word)
    requires IsTable(ctx[..], k)
    ensures r == Check(k, crc, buffer)
  {
    hide Check; hide Quarter;
    r := crc;
    var pos: nat := 0;
    CheckNone(k, crc);
    MarkSelects(ctx[..], k);
    assert buffer[..0] == [];
    if ctx[256] == 0 {
      while (address + pos) % 4 != 0 && pos < |buffer|
        invariant pos <= |buffer| && r == Check(k, crc, buffer[..pos])
        decreases |buffer| - pos
      {
        CheckJoin(k, crc, buffer[..pos], [buffer[pos]]);
        assert buffer[..pos + 1] == buffer[..pos] + [buffer[pos]];
        r := Byte1(ctx, k, r, buffer[pos]);
        pos := pos + 1;
      }
      while pos + 3 < |buffer|
        invariant pos <= |buffer| && r == Check(k, crc, buffer[..pos])
      {
        var a, b, c, d := buffer[pos], buffer[pos + 1], buffer[pos + 2], buffer[pos + 3];
        CheckJoin(k, crc, buffer[..pos], [a, b, c, d]);
        assert buffer[..pos + 4] == buffer[..pos] + [a, b, c, d];
        r := Byte4(ctx, k, r, a, b, c, d);
        pos := pos + 4;
      }
    }
    while pos < |buffer|
      invariant pos <= |buffer| && r == Check(k, crc, buffer[..pos])
    {
      CheckJoin(k, crc, buffer[..pos], [buffer[pos]]);
      assert buffer[..pos + 1] == buffer[..pos] + [buffer[pos]];
      r := Byte1(ctx, k, r, buffer[pos]);
      pos := pos + 1;
    }
    assert buffer[..pos] == buffer;
  }
}
