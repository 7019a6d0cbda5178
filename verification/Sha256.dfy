/** sha256_transform: the rounds rolled, and unrolled over eight rotating registers. */
module Sha256 {
  import opened HashWord
  import opened HashStream

  datatype Registers = Registers(a: Word, b: Word, c: Word, d: Word, e: Word, f: Word, g: Word, h: Word)

  /** The constants of the rounds. */
  function K256(): (t: seq<Word>)
    ensures |t| == 64
  {
    Row0() + Row1() + Row2() + Row3()
  }

  function Row0(): (t: seq<Word>)
    ensures |t| == 16
  {
    [
      0x428a2f98, 0x71374491, 0xb5c0fbcf, 0xe9b5dba5, 0x3956c25b, 0x59f111f1, 0x923f82a4, 0xab1c5ed5,
      0xd807aa98, 0x12835b01, 0x243185be, 0x550c7dc3, 0x72be5d74, 0x80deb1fe, 0x9bdc06a7, 0xc19bf174
    ]
  }

  function Row1(): (t: seq<Word>)
    ensures |t| == 16
  {
    [
      0xe49b69c1, 0xefbe4786, 0x0fc19dc6, 0x240ca1cc, 0x2de92c6f, 0x4a7484aa, 0x5cb0a9dc, 0x76f988da,
      0x983e5152, 0xa831c66d, 0xb00327c8, 0xbf597fc7, 0xc6e00bf3, 0xd5a79147, 0x06ca6351, 0x14292967
    ]
  }

  function Row2(): (t: seq<Word>)
    ensures |t| == 16
  {
    [
      0x27b70a85, 0x2e1b2138, 0x4d2c6dfc, 0x53380d13, 0x650a7354, 0x766a0abb, 0x81c2c92e, 0x92722c85,
      0xa2bfe8a1, 0xa81a664b, 0xc24b8b70, 0xc76c51a3, 0xd192e819, 0xd6990624, 0xf40e3585, 0x106aa070
    ]
  }

  function Row3(): (t: seq<Word>)
    ensures |t| == 16
  {
    [
      0x19a4c116, 0x1e376c08, 0x2748774c, 0x34b0bcb5, 0x391c0cb3, 0x4ed8aa4a, 0x5b9cca4f, 0x682e6ff3,
      0x748f82ee, 0x78a5636f, 0x84c87814, 0x8cc70208, 0x90befffa, 0xa4506ceb, 0xbef9a3f7, 0xc67178f2
    ]
  }

  function Choose(x: Word, y: Word, z: Word): Word { Xor(And(x, Xor(y, z)), z) }

  function Majority(z: Word, y: Word, x: Word): Word { Or(And(Or(x, y), z), And(x, y)) }

  function BigSigma0(x: Word): Word { Xor(Xor(Rol(x, 30), Rol(x, 19)), Rol(x, 10)) }

  function BigSigma1(x: Word): Word { Xor(Xor(Rol(x, 26), Rol(x, 21)), Rol(x, 7)) }

  function SmallSigma0(x: Word): Word { Xor(Xor(Rol(x, 25), Rol(x, 14)), Shr(x, 3)) }

  function SmallSigma1(x: Word): Word { Xor(Xor(Rol(x, 15), Rol(x, 13)), Shr(x, 10)) }

  /** The functions of the rounds are those of FIPS 180-4, section 4.1.2. */
  lemma FunctionsAreStandard(x: Word, y: Word, z: Word)
    ensures Choose(x, y, z) == Ch(x, y, z) && Majority(z, y, x) == Maj(x, y, z)
    ensures BigSigma0(x) == Xor(Xor(Rotr(x, 2), Rotr(x, 13)), Rotr(x, 22))
    ensures BigSigma1(x) == Xor(Xor(Rotr(x, 6), Rotr(x, 11)), Rotr(x, 25))
    ensures SmallSigma0(x) == Xor(Xor(Rotr(x, 7), Rotr(x, 18)), Shr(x, 3))
    ensures SmallSigma1(x) == Xor(Xor(Rotr(x, 17), Rotr(x, 19)), Shr(x, 10))
  {
    hide Xor; hide And; hide Or; hide Not; hide Rol; hide Rotr; hide Shr; hide Ch; hide Maj;
    ChooseIsCh(x, y, z);
    MajorityIsMaj(x, y, z);
    TurnsBack(x, 2);
    TurnsBack(x, 13);
    TurnsBack(x, 22);
    TurnsBack(x, 6);
    TurnsBack(x, 11);
    TurnsBack(x, 25);
    TurnsBack(x, 7);
    TurnsBack(x, 18);
    TurnsBack(x, 17);
    TurnsBack(x, 19);
  }

  function Extended(w16: Word, w15: Word, w7: Word, w2: Word): Word {
    Add(Add(Add(w16, SmallSigma0(w15)), SmallSigma1(w2)), w7)
  }

  /** The i-th word of the schedule of a block. */
  function W(buffer: seq<Byte>, i: nat): Word
    requires |buffer| == BLOCK && i < 64
  {
    if i < 16 then BigEndian(buffer[4 * i], buffer[4 * i + 1], buffer[4 * i + 2], buffer[4 * i + 3])
    else Extended(W(buffer, i - 16), W(buffer, i - 15), W(buffer, i - 7), W(buffer, i - 2))
  }

  // ----- the rolled rounds -----

  function T1(r: Registers, w: Word, i: nat): Word
    requires i < 64
  {
    Add(w, Add(Add(Add(r.h, BigSigma1(r.e)), Choose(r.e, r.f, r.g)), K256()[i]))
  }

  /** One turn of the small loop. */
  function Round(r: Registers, w: Word, i: nat): Registers
    requires i < 64
  {
    var t1, t2 := T1(r, w, i), Add(BigSigma0(r.a), Majority(r.a, r.b, r.c));
    Registers(Add(t1, t2), r.a, r.b, r.c, Add(r.d, t1), r.e, r.f, r.g)
  }

  function Rounds(r: Registers, buffer: seq<Byte>, n: nat): Registers
    requires |buffer| == BLOCK && n <= 64
  {
    if n == 0 then r else Round(Rounds(r, buffer, n - 1), W(buffer, n - 1), n - 1)
  }

  function Plus(r: Registers, s: Registers): Registers {
    Registers(Add(r.a, s.a), Add(r.b, s.b), Add(r.c, s.c), Add(r.d, s.d), Add(r.e, s.e), Add(r.f, s.f),
        Add(r.g, s.g), Add(r.h, s.h))
  }

  /** The transform of a block. */
  function Transform(state: Registers, buffer: seq<Byte>): Registers
    requires |buffer| == BLOCK
  {
    Plus(state, Rounds(state, buffer, 64))
  }

  // ----- the unrolled rounds -----

  /** The schedule as the rounds fill it in. */
  ghost predicate Filled(block: seq<Word>, buffer: seq<Byte>, n: nat)
    requires |buffer| == BLOCK && |block| == 64 && n <= 64
  {
    forall i :: 0 <= i < n ==> block[i] == W(buffer, i)
  }

  /** blk0 and blk. */
  method Schedule(block: array<Word>, buffer: seq<Byte>, i: nat) returns (w: Word)
    requires |buffer| == BLOCK && block.Length == 64 && i < 64 && Filled(block[..], buffer, i)
    modifies block
    ensures w == W(buffer, i) && Filled(block[..], buffer, i + 1)
  {
    hide BigEndian; hide Extended;
    w := if i < 16 then BigEndian(buffer[4 * i], buffer[4 * i + 1], buffer[4 * i + 2], buffer[4 * i + 3])
         else Extended(block[i - 16], block[i - 15], block[i - 7], block[i - 2]);
    block[i] := w;
  }

  /** The macro ROUND256: the fourth register is added to, the eighth replaced. */
  method Step(a: Word, b: Word, c: Word, d: Word, e: Word, f: Word, g: Word, h: Word, block: array<Word>,
      buffer: seq<Byte>, i: nat)
    returns (d': Word, h': Word)
    requires |buffer| == BLOCK && block.Length == 64 && i < 64 && Filled(block[..], buffer, i)
    modifies block
    ensures Filled(block[..], buffer, i + 1)
    ensures Registers(h', a, b, c, d', e, f, g) == Round(Registers(a, b, c, d, e, f, g, h), W(buffer, i), i)
  {
    hide W; hide Filled; hide Add; hide K256; hide BigSigma0; hide BigSigma1; hide Choose; hide Majority;
    var w := Schedule(block, buffer, i);
    var t := Add(w, Add(Add(Add(h, BigSigma1(e)), Choose(e, f, g)), K256()[i]));
    d' := Add(d, t);
    h' := Add(Add(t, BigSigma0(a)), Majority(a, b, c));
    AddAssociates(t, BigSigma0(a), Majority(a, b, c));
  }

  /** Eight rounds bring the registers back to their places. */
  method Eight(r: Registers, block: array<Word>, buffer: seq<Byte>, i: nat,
      ghost start: Registers) returns (r': Registers)
    requires |buffer| == BLOCK && block.Length == 64 && i + 8 <= 64 && Filled(block[..], buffer, i)
    requires r == Rounds(start, buffer, i)
    modifies block
    ensures Filled(block[..], buffer, i + 8) && r' == Rounds(start, buffer, i + 8)
  {
    hide Round; hide W; hide Filled;
    var a, b, c, d, e, f, g, h := r.a, r.b, r.c, r.d, r.e, r.f, r.g, r.h;
    d, h := Step(a, b, c, d, e, f, g, h, block, buffer, i);
    assert Registers(h, a, b, c, d, e, f, g) == Rounds(start, buffer, i + 1);
    c, g := Step(h, a, b, c, d, e, f, g, block, buffer, i + 1);
    assert Registers(g, h, a, b, c, d, e, f) == Rounds(start, buffer, i + 2);
    b, f := Step(g, h, a, b, c, d, e, f, block, buffer, i + 2);
    assert Registers(f, g, h, a, b, c, d, e) == Rounds(start, buffer, i + 3);
    a, e := Step(f, g, h, a, b, c, d, e, block, buffer, i + 3);
    assert Registers(e, f, g, h, a, b, c, d) == Rounds(start, buffer, i + 4);
    h, d := Step(e, f, g, h, a, b, c, d, block, buffer, i + 4);
    assert Registers(d, e, f, g, h, a, b, c) == Rounds(start, buffer, i + 5);
    g, c := Step(d, e, f, g, h, a, b, c, block, buffer, i + 5);
    assert Registers(c, d, e, f, g, h, a, b) == Rounds(start, buffer, i + 6);
    f, b := Step(c, d, e, f, g, h, a, b, block, buffer, i + 6);
    assert Registers(b, c, d, e, f, g, h, a) == Rounds(start, buffer, i + 7);
    e, a := Step(b, c, d, e, f, g, h, a, block, buffer, i + 7);
    r' := Registers(a, b, c, d, e, f, g, h);
  }

  /** sha256_transform in the fast build: the same state as the small build's. */
  method TransformFast(state: Registers, buffer: seq<Byte>) returns (s: Registers)
    requires |buffer| == BLOCK
    ensures s == Transform(state, buffer)
  {
    hide Rounds; hide W;
    var block := new Word[64];
    var r := state;
    RoundsNone(state, buffer);
    var i := 0;
    while i < 64
      invariant i % 8 == 0 && i <= 64 && Filled(block[..], buffer, i) && r == Rounds(state, buffer, i)
    {
      r := Eight(r, block, buffer, i, state);
      i := i + 8;
    }
    s := Plus(state, r);
  }

  lemma RoundsNone(r: Registers, buffer: seq<Byte>)
    requires |buffer| == BLOCK
    ensures Rounds(r, buffer, 0) == r
  {
  }
}
