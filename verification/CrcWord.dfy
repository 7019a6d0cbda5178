/**
  The word operations of the checks, and the few facts about their bits that the
  proofs rest on. Each fact is about bit-vectors alone, so that nothing else is in
  sight when it is proved.
 */
module CrcWord {
  type Byte = bv8

  type Word = bv32

  function Xor(a: Word, b: Word): Word { a ^ b }

  function XorByte(a: Byte, b: Byte): Byte { a ^ b }

  /** The lowest byte. */
  function Low(c: Word): Byte { (c & 0xFF) as Byte }

  /** A byte, that many places up in a word. */
  function Wide0(b: Byte): Word { b as Word }

  function Wide1(b: Byte): Word { (b as Word) << 8 }

  function Wide2(b: Byte): Word { (b as Word) << 16 }

  function Wide3(b: Byte): Word { (b as Word) << 24 }

  /** The word moved that many bytes down. */
  function Down1(c: Word): Word { c >> 8 }

  function Down2(c: Word): Word { c >> 16 }

  function Down3(c: Word): Word { c >> 24 }

  /** Four bytes, lowest first. */
  function Four(a: Byte, b: Byte, c: Byte, d: Byte): Word {
    (a as Word) ^ ((b as Word) << 8) ^ ((c as Word) << 16) ^ ((d as Word) << 24)
  }

  /** The word moved one byte up. */
  function Up(c: Word): Word { c << 8 }

  /** av_bswap32 */
  function Swap(x: Word): Word { (x >> 24) | ((x >> 8) & 0xFF00) | ((x << 8) & 0xFF_0000) | (x << 24) }

  /** The word without its lowest byte, and without its highest. */
  function AboveLow(c: Word): Word { c & 0xFFFF_FF00 }

  function BelowHigh(c: Word): Word { c & 0x00FF_FFFF }

  // ----- exclusive or -----

  lemma XorCommutes(a: Word, b: Word)
    ensures Xor(a, b) == Xor(b, a)
  {
  }

  lemma XorAssociates(a: Word, b: Word, c: Word)
    ensures Xor(Xor(a, b), c) == Xor(a, Xor(b, c))
  {
  }

  lemma XorZero(a: Word)
    ensures Xor(a, a) == 0 && Xor(a, 0) == a && Xor(0, a) == a
  {
  }

  lemma Regroup(a: Word, b: Word, c: Word, d: Word)
    ensures Xor(Xor(a, b), Xor(c, d)) == Xor(Xor(a, c), Xor(b, d))
  {
    hide Xor;
    XorAssociates(a, b, Xor(c, d));
    XorAssociates(b, c, d);
    XorCommutes(b, c);
    XorAssociates(c, b, d);
    XorAssociates(a, c, Xor(b, d));
  }

  lemma LowXor(a: Word, b: Word)
    ensures Low(Xor(a, b)) == XorByte(Low(a), Low(b))
  {
  }

  lemma DownXor(a: Word, b: Word)
    ensures Down1(Xor(a, b)) == Xor(Down1(a), Down1(b))
  {
  }

  lemma Wide0Xor(a: Byte, b: Byte)
    ensures Wide0(XorByte(a, b)) == Xor(Wide0(a), Wide0(b))
  {
  }

  lemma Wide3Xor(a: Byte, b: Byte)
    ensures Wide3(XorByte(a, b)) == Xor(Wide3(a), Wide3(b))
  {
  }

  lemma SwapXor(a: Word, b: Word)
    ensures Swap(Xor(a, b)) == Xor(Swap(a), Swap(b))
  {
  }

  // ----- parts of a word -----

  lemma LowOfWide(b: Byte)
    ensures Low(Wide0(b)) == b && Low(Wide1(b)) == 0 && Low(Wide2(b)) == 0 && Low(Wide3(b)) == 0
  {
  }

  lemma XorByteZero(b: Byte)
    ensures XorByte(0, 0) == 0 && XorByte(b, 0) == b
  {
  }

  lemma DownOfWide(b: Byte)
    ensures Down1(Wide0(b)) == 0 && Down1(Wide1(b)) == Wide0(b) && Down1(Wide2(b)) == Wide1(b)
            && Down1(Wide3(b)) == Wide2(b)
  {
  }

  lemma FourParts(c: Word)
    ensures c == Four(Low(c), Low(Down1(c)), Low(Down2(c)), Low(Down3(c)))
  {
  }

  lemma LowApart(c: Word)
    ensures c == Xor(Wide0(Low(c)), AboveLow(c))
  {
  }

  lemma AboveLowShifts(c: Word)
    ensures Down1(AboveLow(c)) == Down1(c) && Low(AboveLow(c)) == 0
  {
  }

  lemma HighApart(c: Word)
    ensures Swap(c) == Xor(Wide3(Low(c)), BelowHigh(Swap(c)))
  {
  }

  lemma BelowHighShifts(c: Word)
    ensures Swap(Up(BelowHigh(Swap(c)))) == Down1(c)
  {
  }

  lemma SwapTwice(c: Word)
    ensures Swap(Swap(c)) == c
  {
  }

  // ----- one bit of a division -----

  function Half(c: Word): Word { c >> 1 }

  function Double(c: Word): Word { c << 1 }

  function Bottom(c: Word): Word { c & 1 }

  function Top(c: Word): Word { c >> 31 }

  /** A bit spread over the word: unsigned negation of the lowest bit, or the signed shift of the highest. */
  function Spread(bit: Word): Word { 0 - bit }

  function And(a: Word, b: Word): Word { a & b }

  /** Lowest bit first: the polynomial is added if the bit shifted out is set. */
  function BitLow(poly: Word, c: Word): Word { Xor(Half(c), And(poly, Spread(Bottom(c)))) }

  /** Highest bit first. */
  function BitHigh(poly: Word, c: Word): Word { Xor(Double(c), And(poly, Spread(Top(c)))) }

  lemma HalfXor(a: Word, b: Word)
    ensures Half(Xor(a, b)) == Xor(Half(a), Half(b))
  {
  }

  lemma DoubleXor(a: Word, b: Word)
    ensures Double(Xor(a, b)) == Xor(Double(a), Double(b))
  {
  }

  lemma BottomXor(a: Word, b: Word)
    ensures Bottom(Xor(a, b)) == Xor(Bottom(a), Bottom(b)) && Bottom(a) <= 1 && Bottom(b) <= 1
  {
  }

  lemma TopXor(a: Word, b: Word)
    ensures Top(Xor(a, b)) == Xor(Top(a), Top(b)) && Top(a) <= 1 && Top(b) <= 1
  {
  }

  lemma SpreadXor(a: Word, b: Word)
    requires a <= 1 && b <= 1
    ensures Spread(Xor(a, b)) == Xor(Spread(a), Spread(b))
  {
  }

  lemma AndXor(p: Word, a: Word, b: Word)
    ensures And(p, Xor(a, b)) == Xor(And(p, a), And(p, b))
  {
  }

  lemma BitLowXor(poly: Word, a: Word, b: Word)
    ensures BitLow(poly, Xor(a, b)) == Xor(BitLow(poly, a), BitLow(poly, b))
  {
    hide Xor; hide Half; hide And; hide Spread; hide Bottom;
    HalfXor(a, b);
    BottomXor(a, b);
    SpreadXor(Bottom(a), Bottom(b));
    AndXor(poly, Spread(Bottom(a)), Spread(Bottom(b)));
    Regroup(Half(a), Half(b), And(poly, Spread(Bottom(a))), And(poly, Spread(Bottom(b))));
  }

  lemma BitHighXor(poly: Word, a: Word, b: Word)
    ensures BitHigh(poly, Xor(a, b)) == Xor(BitHigh(poly, a), BitHigh(poly, b))
  {
    hide Xor; hide Double; hide And; hide Spread; hide Top;
    DoubleXor(a, b);
    TopXor(a, b);
    SpreadXor(Top(a), Top(b));
    AndXor(poly, Spread(Top(a)), Spread(Top(b)));
    Regroup(Double(a), Double(b), And(poly, Spread(Top(a))), And(poly, Spread(Top(b))));
  }

  /** Eight bits that are all zero are shifted out without touching the rest. */
  lemma EightLow(poly: Word, c: Word)
    requires Low(c) == 0
    ensures BitLow(poly,
            BitLow(poly, BitLow(poly, BitLow(poly, BitLow(poly, BitLow(poly, BitLow(poly, BitLow(poly, c))))))))
                == Down1(c)
  {
  }

  lemma EightHigh(poly: Word, c: Word)
    ensures var d := BelowHigh(c);
            BitHigh(poly,
                BitHigh(poly,
                    BitHigh(poly, BitHigh(poly, BitHigh(poly, BitHigh(poly, BitHigh(poly, BitHigh(poly, d))))))))
                        == Up(d)
  {
  }
}
