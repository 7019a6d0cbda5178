/** The word operations of the hashes: sums modulo 2^32, and operations on bits. */
module HashWord {
  type Word = n: int | 0 <= n < 0x1_0000_0000

  const MODULUS: int := 0x1_0000_0000

  function Add(x: Word, y: Word): Word { (x + y) % MODULUS }

  lemma AddCommutes(x: Word, y: Word)
    ensures Add(x, y) == Add(y, x)
  {
  }

  lemma AddAssociates(x: Word, y: Word, z: Word)
    ensures Add(Add(x, y), z) == Add(x, Add(y, z))
  {
  }

  /** x from under two others. */
  lemma AddSwaps(x: Word, y: Word, z: Word)
    ensures Add(Add(x, y), z) == Add(Add(x, z), y)
  {
    hide Add;
    AddAssociates(x, y, z);
    AddCommutes(y, z);
    AddAssociates(x, z, y);
  }

  function Bits(x: Word): bv32 { x as bv32 }

  function Value(b: bv32): Word { b as Word }

  /** rol, for less than a whole turn. */
  function Rol(x: Word, n: nat): Word
    requires 0 < n < 32
  {
    Value((Bits(x) << n) | (Bits(x) >> (32 - n)))
  }

  function Shr(x: Word, n: nat): Word
    requires n < 32
  {
    Value(Bits(x) >> n)
  }

  function AndBits(x: bv32, y: bv32): bv32 { x & y }

  function OrBits(x: bv32, y: bv32): bv32 { x | y }

  function XorBits(x: bv32, y: bv32): bv32 { x ^ y }

  function NotBits(x: bv32): bv32 { !x }

  function And(x: Word, y: Word): Word { Value(AndBits(Bits(x), Bits(y))) }

  function Or(x: Word, y: Word): Word { Value(OrBits(Bits(x), Bits(y))) }

  function Xor(x: Word, y: Word): Word { Value(XorBits(Bits(x), Bits(y))) }

  function Not(x: Word): Word { Value(NotBits(Bits(x))) }

  // ----- the functions of the standards -----

  /** ROTR of FIPS 180-4, section 3.2. */
  function Rotr(x: Word, n: nat): Word
    requires 0 < n < 32
  {
    Value((Bits(x) >> n) | (Bits(x) << (32 - n)))
  }

  /** Ch of FIPS 180-4, section 4.1. */
  function Ch(x: Word, y: Word, z: Word): Word { Xor(And(x, y), And(Not(x), z)) }

  /** Maj of FIPS 180-4, section 4.1. */
  function Maj(x: Word, y: Word, z: Word): Word { Xor(Xor(And(x, y), And(x, z)), And(y, z)) }

  lemma TurnsBack(x: Word, n: nat)
    requires 0 < n < 32
    ensures Rol(x, 32 - n) == Rotr(x, n)
  {
    hide Bits; hide Value;
  }

  lemma BitsBack(b: bv32)
    ensures Bits(Value(b)) == b
  {
  }

  lemma ChooseBits(x: bv32, y: bv32, z: bv32)
    ensures XorBits(AndBits(x, XorBits(y, z)), z) == XorBits(AndBits(x, y), AndBits(NotBits(x), z))
  {
  }

  lemma EitherBits(x: bv32, y: bv32, z: bv32)
    ensures XorBits(AndBits(x, y), AndBits(NotBits(x), z)) == OrBits(AndBits(x, y), AndBits(NotBits(x), z))
  {
    ExclusiveChoice(x, y, z);
    InclusiveChoice(x, y, z);
    ChoicesAgree(x, y, z);
    hide AndBits; hide OrBits; hide XorBits; hide NotBits;
  }

  lemma ExclusiveChoice(x: bv32, y: bv32, z: bv32)
    ensures XorBits(AndBits(x, y), AndBits(NotBits(x), z)) == (x & y) ^ (!x & z)
  {
  }

  lemma InclusiveChoice(x: bv32, y: bv32, z: bv32)
    ensures OrBits(AndBits(x, y), AndBits(NotBits(x), z)) == (x & y) | (!x & z)
  {
  }

  lemma ChoicesAgree(x: bv32, y: bv32, z: bv32)
    ensures (x & y) ^ (!x & z) == (x & y) | (!x & z)
  {
  }

  lemma MajorityBits(x: bv32, y: bv32, z: bv32)
    ensures OrBits(AndBits(OrBits(x, y), z), AndBits(x, y))
            == XorBits(XorBits(AndBits(x, y), AndBits(x, z)), AndBits(y, z))
  {
    PlainMajority(x, y, z);
    RewrittenMajority(x, y, z);
    MajoritiesAgree(x, y, z);
    hide AndBits; hide OrBits; hide XorBits;
  }

  lemma PlainMajority(x: bv32, y: bv32, z: bv32)
    ensures XorBits(XorBits(AndBits(x, y), AndBits(x, z)), AndBits(y, z)) == ((x & y) ^ (x & z)) ^ (y & z)
  {
  }

  lemma RewrittenMajority(x: bv32, y: bv32, z: bv32)
    ensures OrBits(AndBits(OrBits(x, y), z), AndBits(x, y)) == ((x | y) & z) | (x & y)
  {
  }

  lemma MajoritiesAgree(x: bv32, y: bv32, z: bv32)
    ensures ((x | y) & z) | (x & y) == ((x & y) ^ (x & z)) ^ (y & z)
  {
  }

  lemma BitsCommute(x: bv32, y: bv32)
    ensures XorBits(x, y) == XorBits(y, x) && AndBits(x, y) == AndBits(y, x)
  {
  }

  lemma Commute(x: Word, y: Word)
    ensures Xor(x, y) == Xor(y, x) && And(x, y) == And(y, x)
  {
    BitsCommute(Bits(x), Bits(y));
    hide Bits; hide Value; hide XorBits; hide AndBits;
  }

  /** The rewritten choice saves an operation, and is the choice. */
  lemma ChooseIsCh(x: Word, y: Word, z: Word)
    ensures Xor(And(x, Xor(y, z)), z) == Ch(x, y, z) == Or(And(x, y), And(Not(x), z))
  {
    hide Bits; hide Value; hide AndBits; hide OrBits; hide XorBits; hide NotBits;
    var a, b, c := Bits(x), Bits(y), Bits(z);
    BitsBack(XorBits(b, c));
    BitsBack(AndBits(a, XorBits(b, c)));
    BitsBack(NotBits(a));
    BitsBack(AndBits(a, b));
    BitsBack(AndBits(NotBits(a), c));
    ChooseBits(a, b, c);
    EitherBits(a, b, c);
  }

  /** So is the rewritten majority. */
  lemma MajorityIsMaj(x: Word, y: Word, z: Word)
    ensures Or(And(Or(x, y), z), And(x, y)) == Maj(x, y, z)
  {
    hide Bits; hide Value; hide AndBits; hide OrBits; hide XorBits; hide NotBits;
    var a, b, c := Bits(x), Bits(y), Bits(z);
    BitsBack(OrBits(a, b));
    BitsBack(AndBits(OrBits(a, b), c));
    BitsBack(AndBits(a, b));
    BitsBack(AndBits(a, c));
    BitsBack(AndBits(b, c));
    BitsBack(XorBits(AndBits(a, b), AndBits(a, c)));
    MajorityBits(a, b, c);
  }

  /** The word of four bytes, highest first. */
  function BigEndian(a: int, b: int, c: int, d: int): Word
    requires 0 <= a < 256 && 0 <= b < 256 && 0 <= c < 256 && 0 <= d < 256
  {
    a * 0x100_0000 + b * 0x1_0000 + c * 0x100 + d
  }

  /** The word of four bytes, lowest first. */
  function LittleEndian(a: int, b: int, c: int, d: int): Word
    requires 0 <= a < 256 && 0 <= b < 256 && 0 <= c < 256 && 0 <= d < 256
  {
    BigEndian(d, c, b, a)
  }
}
