/** The body of MD5: the rounds rolled, and unrolled over four rotating registers. */
module Md5 {
  import opened HashWord
  import opened HashStream

  datatype Registers = Registers(a: Word, b: Word, c: Word, d: Word)

  /** The constants of the rounds. */
  function T(): (t: seq<Word>)
    ensures |t| == 64
  {
    Row0() + Row1() + Row2() + Row3()
  }

  function Row0(): (t: seq<Word>)
    ensures |t| == 16
  {
    [
      0xd76aa478, 0xe8c7b756, 0x242070db, 0xc1bdceee, 0xf57c0faf, 0x4787c62a, 0xa8304613, 0xfd469501,
      0x698098d8, 0x8b44f7af, 0xffff5bb1, 0x895cd7be, 0x6b901122, 0xfd987193, 0xa679438e, 0x49b40821
    ]
  }

  function Row1(): (t: seq<Word>)
    ensures |t| == 16
  {
    [
      0xf61e2562, 0xc040b340, 0x265e5a51, 0xe9b6c7aa, 0xd62f105d, 0x02441453, 0xd8a1e681, 0xe7d3fbc8,
      0x21e1cde6, 0xc33707d6, 0xf4d50d87, 0x455a14ed, 0xa9e3e905, 0xfcefa3f8, 0x676f02d9, 0x8d2a4c8a
    ]
  }

  function Row2(): (t: seq<Word>)
    ensures |t| == 16
  {
    [
      0xfffa3942, 0x8771f681, 0x6d9d6122, 0xfde5380c, 0xa4beea44, 0x4bdecfa9, 0xf6bb4b60, 0xbebfbc70,
      0x289b7ec6, 0xeaa127fa, 0xd4ef3085, 0x04881d05, 0xd9d4d039, 0xe6db99e5, 0x1fa27cf8, 0xc4ac5665
    ]
  }

  function Row3(): (t: seq<Word>)
    ensures |t| == 16
  {
    [
      0xf4292244, 0x432aff97, 0xab9423a7, 0xfc93a039, 0x655b59c3, 0x8f0ccc92, 0xffeff47d, 0x85845dd1,
      0x6fa87e4f, 0xfe2ce6e0, 0xa3014314, 0x4e0811a1, 0xf7537e82, 0xbd3af235, 0x2ad7d2bb, 0xeb86d391
    ]
  }

  /** The turns of the rounds. */
  function Turns(i: nat): (n: nat)
    requires i < 64
    ensures 0 < n < 32
  {
    match (i / 16, i % 4)
    case (0, 0) => 7 case (0, 1) => 12 case (0, 2) => 17 case (0, _) => 22
    case (1, 0) => 5 case (1, 1) => 9 case (1, 2) => 14 case (1, _) => 20
    case (2, 0) => 4 case (2, 1) => 11 case (2, 2) => 16 case (2, _) => 23
    case (_, 0) => 6 case (_, 1) => 10 case (_, 2) => 15 case (_, _) => 21
  }

  /** Which word of the block a round takes. */
  function Index(i: nat): (k: nat)
    ensures k < 16
  {
    if i < 16 then i % 16 else if i < 32 then (1 + 5 * i) % 16 else if i < 48 then (5 + 3 * i) % 16 else (7 * i) % 16
  }

  function F(i: nat, b: Word, c: Word, d: Word): Word {
    if i < 16 then Xor(d, And(b, Xor(c, d)))
    else if i < 32 then Or(And(d, b), And(Not(d), c))
    else if i < 48 then Xor(Xor(b, c), d)
    else Xor(c, Or(b, Not(d)))
  }

  /** The functions of the rounds are F, G, H and I of RFC 1321, section 3.4. */
  lemma FIsStandard(i: nat, x: Word, y: Word, z: Word)
    ensures F(i, x, y, z) ==
            if i < 16 then Or(And(x, y), And(Not(x), z))
            else if i < 32 then Or(And(x, z), And(y, Not(z)))
            else if i < 48 then Xor(Xor(x, y), z)
            else Xor(y, Or(x, Not(z)))
  {
    hide Xor; hide And; hide Or; hide Not;
    ChooseIsCh(x, y, z);
    Commute(z, And(x, Xor(y, z)));
    Commute(z, x);
    Commute(Not(z), y);
  }

  function X(block: seq<Byte>, k: nat): Word
    requires |block| == BLOCK && k < 16
  {
    LittleEndian(block[4 * k], block[4 * k + 1], block[4 * k + 2], block[4 * k + 3])
  }

  /** The macro CORE: the new value of its first register. */
  function Core(i: nat, a: Word, b: Word, c: Word, d: Word, block: seq<Byte>): Word
    requires i < 64 && |block| == BLOCK
  {
    Add(b, Rol(Add(Add(a, T()[i]), Add(F(i, b, c, d), X(block, Index(i)))), Turns(i)))
  }

  // ----- the rolled rounds -----

  /** One turn of the small loop, which moves the registers on. */
  function Round(r: Registers, block: seq<Byte>, i: nat): Registers
    requires i < 64 && |block| == BLOCK
  {
    Registers(r.d, Core(i, r.a, r.b, r.c, r.d, block), r.b, r.c)
  }

  function Rounds(r: Registers, block: seq<Byte>, n: nat): Registers
    requires |block| == BLOCK && n <= 64
  {
    if n == 0 then r else Round(Rounds(r, block, n - 1), block, n - 1)
  }

  function Plus(r: Registers, s: Registers): Registers {
    Registers(Add(r.a, s.a), Add(r.b, s.b), Add(r.c, s.c), Add(r.d, s.d))
  }

  /** The body over one block; the context keeps its four words in the order d, c, b, a. */
  function Transform(state: Registers, block: seq<Byte>): Registers
    requires |block| == BLOCK
  {
    Plus(state, Rounds(state, block, 64))
  }

  // ----- the unrolled rounds -----

  /** CORE2: four rounds, each on the next register, bring them back to their places. */
  method Four(r: Registers, block: seq<Byte>, i: nat, ghost start: Registers) returns (r': Registers)
    requires |block| == BLOCK && i + 4 <= 64 && r == Rounds(start, block, i)
    ensures r' == Rounds(start, block, i + 4)
  {
    hide Core;
    var a, b, c, d := r.a, r.b, r.c, r.d;
    a := Core(i, a, b, c, d, block);
    assert Registers(d, a, b, c) == Rounds(start, block, i + 1);
    d := Core(i + 1, d, a, b, c, block);
    assert Registers(c, d, a, b) == Rounds(start, block, i + 2);
    c := Core(i + 2, c, d, a, b, block);
    assert Registers(b, c, d, a) == Rounds(start, block, i + 3);
    b := Core(i + 3, b, c, d, a, block);
    r' := Registers(a, b, c, d);
  }

  /** The body in the fast build: the same state as the small build's. */
  method TransformFast(state: Registers, block: seq<Byte>) returns (s: Registers)
    requires |block| == BLOCK
    ensures s == Transform(state, block)
  {
    hide Rounds;
    var r := state;
    RoundsNone(state, block);
    var i := 0;
    while i < 64
      invariant i % 4 == 0 && i <= 64 && r == Rounds(state, block, i)
    {
      r := Four(r, block, i, state);
      i := i + 4;
    }
    s := Plus(state, r);
  }

  lemma RoundsNone(r: Registers, block: seq<Byte>)
    requires |block| == BLOCK
    ensures Rounds(r, block, 0) == r
  {
  }
}
