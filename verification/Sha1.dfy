/**
  sha1_transform: the rounds as the small build rolls them, and as the fast build unrolls them over rotating
  registers.
 */
module Sha1 {
  import opened HashWord
  import opened HashStream

  datatype Registers = Registers(a: Word, b: Word, c: Word, d: Word, e: Word)

  // ----- the schedule and the functions of the rounds -----

  /** The i-th word of the schedule of a block. */
  function W(buffer: seq<Byte>, i: nat): Word
    requires |buffer| == BLOCK && i < 80
  {
    if i < 16 then BigEndian(buffer[4 * i], buffer[4 * i + 1], buffer[4 * i + 2], buffer[4 * i + 3])
        else Rol(Mix(W(buffer, i - 3), W(buffer, i - 8), W(buffer, i - 14), W(buffer, i - 16)), 1)
  }

  function Mix(p: Word, q: Word, r: Word, s: Word): Word { Xor(Xor(Xor(p, q), r), s) }

  function Choose(w: Word, x: Word, y: Word): Word { Xor(And(w, Xor(x, y)), y) }

  function Parity(w: Word, x: Word, y: Word): Word { Xor(Xor(w, x), y) }

  function Majority(w: Word, x: Word, y: Word): Word { Or(And(Or(w, x), y), And(w, x)) }

  function F(i: nat, w: Word, x: Word, y: Word): Word {
    if i < 20 then Choose(w, x, y) else if i < 40 then Parity(w, x, y) else if i < 60 then Majority(w, x, y)
        else Parity(w, x, y)
  }

  /** The functions of the rounds are those of FIPS 180-4, section 4.1.1. */
  lemma FIsStandard(i: nat, x: Word, y: Word, z: Word)
    ensures F(i, x, y, z) == if i < 20 then Ch(x, y, z) else if 40 <= i < 60 then Maj(x, y, z) else Xor(Xor(x, y), z)
  {
    hide Xor; hide And; hide Or; hide Not;
    ChooseIsCh(x, y, z);
    MajorityIsMaj(x, y, z);
  }

  function K(i: nat): Word {
    if i < 20 then 0x5A827999 else if i < 40 then 0x6ED9EBA1 else if i < 60 then 0x8F1BBCDC else 0xCA62C1D6
  }

  // ----- the rolled rounds -----

  /** One turn of the small loop. */
  function Round(r: Registers, w: Word, i: nat): Registers {
    var t := Add(Add(w, Add(r.e, Rol(r.a, 5))), Add(F(i, r.b, r.c, r.d), K(i)));
    Registers(t, r.a, Rol(r.b, 30), r.c, r.d)
  }

  function Rounds(r: Registers, buffer: seq<Byte>, n: nat): Registers
    requires |buffer| == BLOCK && n <= 80
  {
    if n == 0 then r else Round(Rounds(r, buffer, n - 1), W(buffer, n - 1), n - 1)
  }

  function Plus(r: Registers, s: Registers): Registers {
    Registers(Add(r.a, s.a), Add(r.b, s.b), Add(r.c, s.c), Add(r.d, s.d), Add(r.e, s.e))
  }

  /** The transform of a block. */
  function Transform(state: Registers, buffer: seq<Byte>): Registers
    requires |buffer| == BLOCK
  {
    Plus(state, Rounds(state, buffer, 80))
  }

  // ----- the unrolled rounds -----

  /** The schedule as the rounds fill it in. */
  ghost predicate Filled(block: seq<Word>, buffer: seq<Byte>, n: nat)
    requires |buffer| == BLOCK && |block| == 80 && n <= 80
  {
    forall i :: 0 <= i < n ==> block[i] == W(buffer, i)
  }

  /** blk0 and blk: the next word of the schedule, put where later words look for it. */
  method Schedule(block: array<Word>, buffer: seq<Byte>, i: nat) returns (w: Word)
    requires |buffer| == BLOCK && block.Length == 80 && i < 80 && Filled(block[..], buffer, i)
    modifies block
    ensures w == W(buffer, i) && Filled(block[..], buffer, i + 1)
  {
    hide BigEndian; hide Mix; hide Rol;
    w := if i < 16 then BigEndian(buffer[4 * i], buffer[4 * i + 1], buffer[4 * i + 2], buffer[4 * i + 3])
        else Rol(Mix(block[i - 3], block[i - 8], block[i - 14], block[i - 16]), 1);
    block[i] := w;
  }

  /** The macros R0 to R4: the fifth register is added to, the second is turned. */
  method Step(v: Word, w: Word, x: Word, y: Word, z: Word, block: array<Word>, buffer: seq<Byte>,
      i: nat) returns (w': Word, z': Word)
    requires |buffer| == BLOCK && block.Length == 80 && i < 80 && Filled(block[..], buffer, i)
    modifies block
    ensures Filled(block[..], buffer, i + 1)
    ensures Registers(z', v, w', x, y) == Round(Registers(v, w, x, y, z), W(buffer, i), i)
  {
    hide Rol; hide F; hide K; hide W; hide Filled; hide Add;
    var b := Schedule(block, buffer, i);
    z' := Add(z, Add(Add(Add(F(i, w, x, y), b), K(i)), Rol(v, 5)));
    w' := Rol(w, 30);
    SameSum(z, F(i, w, x, y), b, K(i), Rol(v, 5));
  }

  /** The order of the additions does not matter. */
  lemma SameSum(z: Word, f: Word, b: Word, k: Word, r: Word)
    ensures Add(z, Add(Add(Add(f, b), k), r)) == Add(Add(b, Add(z, r)), Add(f, k))
  {
    hide Add;
    AddSwaps(f, b, k);
    AddCommutes(Add(f, k), b);
    AddCommutes(z, Add(Add(b, Add(f, k)), r));
    AddAssociates(Add(b, Add(f, k)), r, z);
    AddCommutes(r, z);
    AddSwaps(b, Add(f, k), Add(z, r));
  }

  /** Five rounds bring the registers back to their places. */
  method Five(r: Registers, block: array<Word>, buffer: seq<Byte>, i: nat,
      ghost start: Registers) returns (r': Registers)
    requires |buffer| == BLOCK && block.Length == 80 && i + 5 <= 80 && Filled(block[..], buffer, i)
    requires r == Rounds(start, buffer, i)
    modifies block
    ensures Filled(block[..], buffer, i + 5) && r' == Rounds(start, buffer, i + 5)
  {
    hide Round; hide W; hide Filled;
    var a, b, c, d, e := r.a, r.b, r.c, r.d, r.e;
    b, e := Step(a, b, c, d, e, block, buffer, i);
    assert Registers(e, a, b, c, d) == Rounds(start, buffer, i + 1);
    a, d := Step(e, a, b, c, d, block, buffer, i + 1);
    assert Registers(d, e, a, b, c) == Rounds(start, buffer, i + 2);
    e, c := Step(d, e, a, b, c, block, buffer, i + 2);
    assert Registers(c, d, e, a, b) == Rounds(start, buffer, i + 3);
    d, b := Step(c, d, e, a, b, block, buffer, i + 3);
    assert Registers(b, c, d, e, a) == Rounds(start, buffer, i + 4);
    c, a := Step(b, c, d, e, a, block, buffer, i + 4);
    r' := Registers(a, b, c, d, e);
  }

  /** sha1_transform in the fast build: the same state as the small build's. */
  method TransformFast(state: Registers, buffer: seq<Byte>) returns (s: Registers)
    requires |buffer| == BLOCK
    ensures s == Transform(state, buffer)
  {
    hide Rounds; hide W;
    var block := new Word[80];
    var r := state;
    RoundsNone(state, buffer);
    var i := 0;
    while i < 80
      invariant i % 5 == 0 && i <= 80 && Filled(block[..], buffer, i) && r == Rounds(state, buffer, i)
    {
      r := Five(r, block, buffer, i, state);
      i := i + 5;
    }
    s := Plus(state, r);
  }

  lemma RoundsNone(r: Registers, buffer: seq<Byte>)
    requires |buffer| == BLOCK
    ensures Rounds(r, buffer, 0) == r
  {
  }
}
