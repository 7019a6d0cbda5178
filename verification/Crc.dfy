/** Cyclic redundancy checks: bit by bit, byte by byte, and four bytes at a time. */
module Crc {
  // The loop that takes four bytes at a time uses a table four times as large.

  import opened CrcWord

  // ----- the division and its table -----

  function Bit(le: bool, poly: Word, c: Word): Word { if le then BitLow(poly, c) else BitHigh(poly, c) }

  function Bits(le: bool, poly: Word, c: Word, n: nat): Word {
    if n == 0 then c else Bit(le, poly, Bits(le, poly, c, n - 1))
  }

  lemma {:induction false} BitsXor(le: bool, poly: Word, a: Word, b: Word, n: nat)
    ensures Bits(le, poly, Xor(a, b), n) == Xor(Bits(le, poly, a, n), Bits(le, poly, b, n))
  {
    hide BitLow; hide BitHigh; hide Xor;
    if n > 0 {
      BitsXor(le, poly, a, b, n - 1);
      if le {
        BitLowXor(poly, Bits(le, poly, a, n - 1), Bits(le, poly, b, n - 1));
      } else {
        BitHighXor(poly, Bits(le, poly, a, n - 1), Bits(le, poly, b, n - 1));
      }
    }
  }

  lemma BitsEight(le: bool, poly: Word, c: Word)
    ensures Bits(le, poly, c, 8)
            == Bit(le, poly,
                Bit(le, poly,
                    Bit(le, poly, Bit(le, poly, Bit(le, poly, Bit(le, poly, Bit(le, poly, Bit(le, poly, c))))))))
  {
    hide Bit;
    assert Bits(le, poly, c, 1) == Bit(le, poly, c);
    assert Bits(le, poly, c, 2) == Bit(le, poly, Bits(le, poly, c, 1));
    assert Bits(le, poly, c, 3) == Bit(le, poly, Bits(le, poly, c, 2));
    assert Bits(le, poly, c, 4) == Bit(le, poly, Bits(le, poly, c, 3));
    assert Bits(le, poly, c, 5) == Bit(le, poly, Bits(le, poly, c, 4));
    assert Bits(le, poly, c, 6) == Bit(le, poly, Bits(le, poly, c, 5));
    assert Bits(le, poly, c, 7) == Bit(le, poly, Bits(le, poly, c, 6));
  }

  /** A polynomial as av_crc_init takes it: the orientation, the number of bits and the coefficients. */
  datatype Kind = Kind(le: bool, bits: nat, poly: Word)

  predicate Accepted(k: Kind) { 8 <= k.bits <= 32 && (k.bits < 32 ==> k.poly >> k.bits == 0) }

  /** The polynomial as the division uses it: highest bit first, it stands at the top of the word. */
  function Poly(k: Kind): Word
    requires Accepted(k)
  {
    if k.le then k.poly else k.poly << (32 - k.bits)
  }

  /** The entry of a byte; highest bit first, the register is kept with its bytes reversed. */
  function Entry(k: Kind, b: Byte): Word
    requires Accepted(k)
  {
    if k.le then Bits(true, Poly(k), Wide0(b), 8) else Swap(Bits(false, Poly(k), Wide3(b), 8))
  }

  lemma EntryXor(k: Kind, a: Byte, b: Byte)
    requires Accepted(k)
    ensures Entry(k, XorByte(a, b)) == Xor(Entry(k, a), Entry(k, b))
  {
    hide Bits; hide Swap; hide Xor; hide XorByte; hide Wide0; hide Wide3; hide Poly;
    Wide0Xor(a, b);
    Wide3Xor(a, b);
    BitsXor(true, Poly(k), Wide0(a), Wide0(b), 8);
    BitsXor(false, Poly(k), Wide3(a), Wide3(b), 8);
    SwapXor(Bits(false, Poly(k), Wide3(a), 8), Bits(false, Poly(k), Wide3(b), 8));
  }

  lemma EntryZero(k: Kind)
    requires Accepted(k)
    ensures Entry(k, 0) == 0
  {
    hide Entry; hide Xor; hide XorByte;
    XorByteZero(0);
    EntryXor(k, 0, 0);
    XorZero(Entry(k, 0));
  }

  // ----- the byte loop -----

  /** The check of a buffer, a byte at a time. */
  function Check(k: Kind, crc: Word, buffer: seq<Byte>): Word
    requires Accepted(k)
  {
    if buffer == [] then crc
    else
      var c := Check(k, crc, buffer[..|buffer| - 1]);
      Xor(Entry(k, XorByte(Low(c), buffer[|buffer| - 1])), Down1(c))
  }

  /** The check of a concatenation is the check of the second part, begun with that of the first. */
  lemma {:induction false} CheckJoin(k: Kind, crc: Word, x: seq<Byte>, y: seq<Byte>)
    requires Accepted(k)
    ensures Check(k, crc, x + y) == Check(k, Check(k, crc, x), y)
  {
    hide Entry; hide Xor; hide XorByte; hide Low; hide Down1;
    if y == [] {
      assert x + y == x;
    } else {
      CheckJoin(k, crc, x, y[..|y| - 1]);
      assert (x + y)[..|x + y| - 1] == x + y[..|y| - 1];
    }
  }

  /** The register after a byte has been shifted out through the table. */
  function Shift(k: Kind, c: Word): Word
    requires Accepted(k)
  {
    Xor(Entry(k, Low(c)), Down1(c))
  }

  lemma LowDownWide0(c: Word, b: Byte)
    ensures Low(Xor(c, Wide0(b))) == XorByte(Low(c), b) && Down1(Xor(c, Wide0(b))) == Down1(c)
  {
    hide Xor; hide XorByte; hide Low; hide Down1; hide Wide0; hide Wide1; hide Wide2; hide Wide3;
    LowXor(c, Wide0(b));
    LowOfWide(b);
    DownXor(c, Wide0(b));
    DownOfWide(b);
    XorZero(Down1(c));
  }

  lemma CheckOne(k: Kind, crc: Word, x: seq<Byte>, b: Byte)
    requires Accepted(k)
    ensures Check(k, crc, x + [b]) == Shift(k, Xor(Check(k, crc, x), Wide0(b)))
  {
    hide Entry; hide Xor; hide XorByte; hide Low; hide Down1; hide Wide0;
    assert (x + [b])[..|x|] == x;
    LowDownWide0(Check(k, crc, x), b);
  }

  // ----- a lookup is eight steps of the division -----

  /** Eight steps of the division, in the orientation of the kind. */
  function Divided(k: Kind, c: Word): Word
    requires Accepted(k)
  {
    if k.le then Bits(true, Poly(k), c, 8) else Swap(Bits(false, Poly(k), Swap(c), 8))
  }

  lemma ShiftDivides(k: Kind, c: Word)
    requires Accepted(k)
    ensures Shift(k, c) == Divided(k, c)
  {
    hide Bits; hide Swap; hide Low; hide Xor; hide Down1; hide Wide0; hide Wide3; hide AboveLow; hide BelowHigh;
    hide Up; hide Poly; hide BitLow; hide BitHigh;
    if k.le {
      LowApart(c);
      AboveLowShifts(c);
      BitsXor(true, Poly(k), Wide0(Low(c)), AboveLow(c), 8);
      BitsEight(true, Poly(k), AboveLow(c));
      EightLow(Poly(k), AboveLow(c));
    } else {
      HighApart(c);
      BelowHighShifts(c);
      BitsXor(false, Poly(k), Wide3(Low(c)), BelowHigh(Swap(c)), 8);
      BitsEight(false, Poly(k), BelowHigh(Swap(c)));
      EightHigh(Poly(k), Swap(c));
      SwapXor(Bits(false, Poly(k), Wide3(Low(c)), 8), Up(BelowHigh(Swap(c))));
    }
  }

  /** Division bit by bit: each byte is added to the register and divided out by eight steps. */
  function Division(k: Kind, crc: Word, buffer: seq<Byte>): Word
    requires Accepted(k)
  {
    if buffer == [] then crc else Divided(k, Xor(Division(k, crc, buffer[..|buffer| - 1]), Wide0(buffer[|buffer| - 1])))
  }

  /** The byte loop computes the division bit by bit. */
  lemma {:induction false} CheckDivides(k: Kind, crc: Word, buffer: seq<Byte>)
    requires Accepted(k)
    ensures Check(k, crc, buffer) == Division(k, crc, buffer)
    decreases |buffer|
  {
    hide Entry; hide Divided; hide Xor; hide XorByte; hide Low; hide Down1; hide Wide0; hide Shift;
    if buffer != [] {
      var init, last := buffer[..|buffer| - 1], buffer[|buffer| - 1];
      assert buffer == init + [last];
      CheckDivides(k, crc, init);
      CheckOne(k, crc, init, last);
      ShiftDivides(k, Xor(Check(k, crc, init), Wide0(last)));
    }
  }

  /** Highest bit first: the division of the usual register, to whose top each byte is added. */
  function DivisionHigh(k: Kind, r: Word, buffer: seq<Byte>): Word
    requires Accepted(k) && !k.le
  {
    if buffer == [] then r
        else Bits(false, Poly(k), Xor(DivisionHigh(k, r, buffer[..|buffer| - 1]), Wide3(buffer[|buffer| - 1])), 8)
  }

  lemma SwapWide(b: Byte)
    ensures Swap(Wide0(b)) == Wide3(b)
  {
  }

  /** Highest bit first, the check is the usual one with the bytes of its register reversed. */
  lemma {:induction false} CheckIsSwapped(k: Kind, crc: Word, buffer: seq<Byte>)
    requires Accepted(k) && !k.le
    ensures Check(k, crc, buffer) == Swap(DivisionHigh(k, Swap(crc), buffer))
    decreases |buffer|
  {
    hide Entry; hide Xor; hide XorByte; hide Low; hide Down1; hide Wide0; hide Wide3; hide Shift; hide Bits;
    hide Swap; hide Poly;
    if buffer == [] {
      SwapTwice(crc);
    } else {
      var init, last := buffer[..|buffer| - 1], buffer[|buffer| - 1];
      assert buffer == init + [last];
      CheckIsSwapped(k, crc, init);
      CheckOne(k, crc, init, last);
      ShiftDivides(k, Xor(Check(k, crc, init), Wide0(last)));
      var r := DivisionHigh(k, Swap(crc), init);
      SwapXor(Swap(r), Wide0(last));
      SwapTwice(r);
      SwapWide(last);
    }
  }

  // ----- four bytes at a time -----

  lemma ShiftXor(k: Kind, a: Word, b: Word)
    requires Accepted(k)
    ensures Shift(k, Xor(a, b)) == Xor(Shift(k, a), Shift(k, b))
  {
    hide Entry; hide Xor; hide XorByte; hide Low; hide Down1;
    LowXor(a, b);
    DownXor(a, b);
    EntryXor(k, Low(a), Low(b));
    Regroup(Entry(k, Low(a)), Entry(k, Low(b)), Down1(a), Down1(b));
  }

  /** A byte moves down the register as bytes are shifted out below it. */
  lemma ShiftDown(k: Kind, b: Byte)
    requires Accepted(k)
    ensures Shift(k, Wide0(b)) == Entry(k, b) && Shift(k, Wide1(b)) == Wide0(b) && Shift(k, Wide2(b)) == Wide1(b)
            && Shift(k, Wide3(b)) == Wide2(b)
  {
    hide Entry; hide Low; hide Xor; hide Down1; hide Wide0; hide Wide1; hide Wide2; hide Wide3;
    LowOfWide(b);
    DownOfWide(b);
    EntryZero(k);
    XorZero(Entry(k, b));
    XorZero(Wide0(b));
    XorZero(Wide1(b));
    XorZero(Wide2(b));
  }

  /** The entry of a byte after j more bytes have been shifted out. */
  function Deep(k: Kind, j: nat, b: Byte): Word
    requires Accepted(k)
  {
    if j == 0 then Entry(k, b) else Shift(k, Deep(k, j - 1, b))
  }

  /** One round of the fast loop: four lookups. */
  function Quad(k: Kind, c: Word): Word
    requires Accepted(k)
  {
    Xor(Xor(Xor(Deep(k, 3, Low(c)), Deep(k, 2, Low(Down1(c)))), Deep(k, 1, Low(Down2(c)))), Deep(k, 0, Low(Down3(c))))
  }

  function Shifts(k: Kind, c: Word, n: nat): Word
    requires Accepted(k)
  {
    if n == 0 then c else Shift(k, Shifts(k, c, n - 1))
  }

  lemma {:induction false} ShiftsXor(k: Kind, a: Word, b: Word, n: nat)
    requires Accepted(k)
    ensures Shifts(k, Xor(a, b), n) == Xor(Shifts(k, a, n), Shifts(k, b, n))
  {
    hide Shift; hide Xor;
    if n > 0 {
      ShiftsXor(k, a, b, n - 1);
      ShiftXor(k, Shifts(k, a, n - 1), Shifts(k, b, n - 1));
    }
  }

  lemma ShiftsUnfold(k: Kind, c: Word)
    requires Accepted(k)
    ensures Shifts(k, c, 2) == Shift(k, Shift(k, c)) && Shifts(k, c, 3) == Shift(k, Shift(k, Shift(k, c)))
    ensures Shifts(k, c, 4) == Shift(k, Shift(k, Shift(k, Shift(k, c))))
  {
    hide Shift;
    assert Shifts(k, c, 1) == Shift(k, c);
    assert Shifts(k, c, 2) == Shift(k, Shift(k, c));
  }

  lemma ShiftsDown(k: Kind, b: Byte)
    requires Accepted(k)
    ensures Shifts(k, Wide0(b), 4) == Deep(k, 3, b) && Shifts(k, Wide1(b), 4) == Deep(k, 2, b)
    ensures Shifts(k, Wide2(b), 4) == Deep(k, 1, b) && Shifts(k, Wide3(b), 4) == Deep(k, 0, b)
  {
    hide Shift; hide Entry; hide Shifts; hide Wide0; hide Wide1; hide Wide2; hide Wide3;
    ShiftDown(k, b);
    ShiftsUnfold(k, Wide0(b));
    ShiftsUnfold(k, Wide1(b));
    ShiftsUnfold(k, Wide2(b));
    ShiftsUnfold(k, Wide3(b));
    assert Deep(k, 1, b) == Shift(k, Entry(k, b));
    assert Deep(k, 2, b) == Shift(k, Shift(k, Entry(k, b)));
    assert Deep(k, 3, b) == Shift(k, Shift(k, Shift(k, Entry(k, b))));
  }

  lemma FourIs(a: Byte, b: Byte, c: Byte, d: Byte)
    ensures Four(a, b, c, d) == Xor(Xor(Xor(Wide0(a), Wide1(b)), Wide2(c)), Wide3(d))
  {
  }

  /** Four lookups shift four bytes out. */
  lemma QuadShifts(k: Kind, c: Word)
    requires Accepted(k)
    ensures Quad(k, c) == Shifts(k, c, 4)
  {
    hide Low; hide Deep; hide Shifts; hide Xor; hide Wide0; hide Wide1; hide Wide2; hide Wide3; hide Down1;
    hide Down2; hide Down3; hide Four;
    var b0, b1, b2, b3 := Low(c), Low(Down1(c)), Low(Down2(c)), Low(Down3(c));
    FourParts(c);
    FourIs(b0, b1, b2, b3);
    ShiftsXor(k, Xor(Xor(Wide0(b0), Wide1(b1)), Wide2(b2)), Wide3(b3), 4);
    ShiftsXor(k, Xor(Wide0(b0), Wide1(b1)), Wide2(b2), 4);
    ShiftsXor(k, Wide0(b0), Wide1(b1), 4);
    ShiftsDown(k, b0);
    ShiftsDown(k, b1);
    ShiftsDown(k, b2);
    ShiftsDown(k, b3);
  }

  /** The higher bytes of a word that is added at once come down in time to be added one by one. */
  lemma ShiftsOfFour(k: Kind, crc: Word, a: Byte, b: Byte, c: Byte, d: Byte)
    requires Accepted(k)
    ensures Shifts(k, Xor(crc, Four(a, b, c, d)), 4)
         == Shift(k, Xor(Shift(k, Xor(Shift(k, Xor(Shift(k, Xor(crc, Wide0(a))), Wide0(b))), Wide0(c))), Wide0(d)))
  {
    hide Xor; hide Shift; hide Shifts; hide Wide0; hide Wide1; hide Wide2; hide Wide3; hide Four;
    var w := Xor(crc, Wide0(a));
    FourIs(a, b, c, d);
    XorAssociates(crc, Xor(Xor(Wide0(a), Wide1(b)), Wide2(c)), Wide3(d));
    XorAssociates(crc, Xor(Wide0(a), Wide1(b)), Wide2(c));
    XorAssociates(crc, Wide0(a), Wide1(b));
    ShiftsUnfold(k, Xor(crc, Four(a, b, c, d)));
    ShiftDown(k, b);
    ShiftDown(k, c);
    ShiftDown(k, d);
    ShiftXor(k, Xor(Xor(w, Wide1(b)), Wide2(c)), Wide3(d));
    ShiftXor(k, Xor(w, Wide1(b)), Wide2(c));
    ShiftXor(k, w, Wide1(b));
    var x := Xor(Shift(k, w), Wide0(b));
    ShiftXor(k, Xor(x, Wide1(c)), Wide2(d));
    ShiftXor(k, x, Wide1(c));
    ShiftXor(k, Xor(Shift(k, x), Wide0(c)), Wide1(d));
  }

  /** Adding four bytes at once and looking up four times is taking them one by one. */
  lemma QuadChecks(k: Kind, crc: Word, a: Byte, b: Byte, c: Byte, d: Byte)
    requires Accepted(k)
    ensures Check(k, crc, [a, b, c, d]) == Quad(k, Xor(crc, Four(a, b, c, d)))
  {
    hide Quad; hide Shift; hide Xor; hide Wide0; hide Four; hide Check; hide Shifts;
    QuadShifts(k, Xor(crc, Four(a, b, c, d)));
    ShiftsOfFour(k, crc, a, b, c, d);
    CheckNone(k, crc);
    CheckOne(k, crc, [], a);
    CheckOne(k, crc, [a], b);
    CheckOne(k, crc, [a, b], c);
    CheckOne(k, crc, [a, b, c], d);
    assert [] + [a] == [a] && [a] + [b] == [a, b] && [a, b] + [c] == [a, b, c] && [a, b, c] + [d] == [a, b, c, d];
  }

  lemma CheckNone(k: Kind, crc: Word)
    requires Accepted(k)
    ensures Check(k, crc, []) == crc
  {
  }
}
