module Hashes {
  import opened HashWord
  import opened HashStream
  import opened HashContext
  import Sha1
  import Sha256
  import Md5

  // The digests: initial values, the fold over the padded message, and the bytes that are written out.

  /** The transforms, on blocks only. */
  function Block1(s: Sha1.Registers, b: seq<Byte>): Sha1.Registers { if |b| == BLOCK then Sha1.Transform(s, b) else s }

  function Block256(s: Sha256.Registers, b: seq<Byte>): Sha256.Registers {
    if |b| == BLOCK then Sha256.Transform(s, b) else s
  }

  function Block5(s: Md5.Registers, b: seq<Byte>): Md5.Registers { if |b| == BLOCK then Md5.Transform(s, b) else s }

  const INIT_160: Sha1.Registers := Sha1.Registers(0x67452301, 0xEFCDAB89, 0x98BADCFE, 0x10325476, 0xC3D2E1F0)

  const INIT_224: Sha256.Registers :=
    Sha256.Registers(0xC1059ED8, 0x367CD507, 0x3070DD17, 0xF70E5939, 0xFFC00B31, 0x68581511, 0x64F98FA7, 0xBEFA4FA4)

  const INIT_256: Sha256.Registers :=
    Sha256.Registers(0x6A09E667, 0xBB67AE85, 0x3C6EF372, 0xA54FF53A, 0x510E527F, 0x9B05688C, 0x1F83D9AB, 0x5BE0CD19)

  const INIT_MD5: Md5.Registers := Md5.Registers(0x67452301, 0xefcdab89, 0x98badcfe, 0x10325476)

  /** The four bytes of a word. */
  function Written(big: bool, w: Word): (b: seq<Byte>)
    ensures |b| == 4
  {
    if big then [w / 0x100_0000, w / 0x1_0000 % 256, w / 256 % 256, w % 256]
        else [w % 256, w / 256 % 256, w / 0x1_0000 % 256, w / 0x100_0000]
  }

  function Output(big: bool, words: seq<Word>): seq<Byte> {
    if words == [] then [] else Output(big, words[..|words| - 1]) + Written(big, words[|words| - 1])
  }

  // ----- what the standards say -----

  /** SHA-1: five words. */
  function Sha1Digest(m: seq<Byte>): seq<Byte> {
    var r := Fold(Block1, INIT_160, Pad(true, m));
    Output(true, [r.a, r.b, r.c, r.d, r.e])
  }

  /** SHA-256, and with other initial values and seven words SHA-224. */
  function Sha256Digest(m: seq<Byte>, short: bool): seq<Byte> {
    var r := Fold(Block256, if short then INIT_224 else INIT_256, Pad(true, m));
    Output(true, [r.a, r.b, r.c, r.d, r.e, r.f, r.g] + (if short then [] else [r.h]))
  }

  /** MD5: four words, lowest byte first. */
  function Md5Digest(m: seq<Byte>): seq<Byte> {
    var r := Fold(Block5, INIT_MD5, Pad(false, m));
    Output(false, [r.a, r.b, r.c, r.d])
  }

  // ----- writing a digest out -----

  lemma OutputOne(big: bool, words: seq<Word>, w: Word)
    ensures Output(big, words + [w]) == Output(big, words) + Written(big, w)
  {
    assert (words + [w])[..|words|] == words;
  }

  /** The loop at the end of av_sha_final and av_md5_final. */
  method WriteOut(big: bool, words: seq<Word>) returns (digest: seq<Byte>)
    ensures digest == Output(big, words)
  {
    hide Written;
    digest := [];
    assert words[..0] == [];
    for i := 0 to |words|
      invariant digest == Output(big, words[..i])
    {
      OutputOne(big, words[..i], words[i]);
      assert words[..i + 1] == words[..i] + [words[i]];
      digest := digest + Written(big, words[i]);
    }
    assert words[..|words|] == words;
  }

  /** av_sha_final of SHA-1: whatever the updates, the digest of the whole message. */
  method Sha1Final(ctx: Sha<Sha1.Registers>, ghost m: seq<Byte>) returns (digest: seq<Byte>)
    requires ctx.transform == Block1 && ctx.After(INIT_160, m)
    modifies ctx`state, ctx`count, ctx.buffer
    ensures digest == Sha1Digest(m)
  {
    var r := ctx.Final(INIT_160, m);
    digest := WriteOut(true, [r.a, r.b, r.c, r.d, r.e]);
  }

  /** av_sha_final of SHA-256 and SHA-224, which writes as many words as the digest has. */
  method Sha256Final(ctx: Sha<Sha256.Registers>, short: bool, ghost m: seq<Byte>) returns (digest: seq<Byte>)
    requires ctx.transform == Block256 && ctx.After(if short then INIT_224 else INIT_256, m)
    modifies ctx`state, ctx`count, ctx.buffer
    ensures digest == Sha256Digest(m, short)
  {
    var r := ctx.Final(if short then INIT_224 else INIT_256, m);
    digest := WriteOut(true, [r.a, r.b, r.c, r.d, r.e, r.f, r.g] + (if short then [] else [r.h]));
  }

  /** av_md5_sum */
  method Md5Sum(src: seq<Byte>, aligned: bool) returns (digest: seq<Byte>)
    requires |src| < WORD / 2
    ensures digest == Md5Digest(src)
  {
    var ctx := new Md5Context<Md5.Registers>(Block5, INIT_MD5);
    ctx.Update(src, aligned, INIT_MD5, []);
    assert [] + src == src;
    var r := ctx.Final(INIT_MD5, src);
    digest := WriteOut(false, [r.a, r.b, r.c, r.d]);
  }

  /** What a context holds is determined by the message. */
  lemma HoldsOne<S>(
      f: (S, seq<Byte>) -> S, init: S, m: seq<Byte>, s1: S, rest1: seq<Byte>, n1: nat, s2: S, rest2: seq<Byte>, n2: nat)
    requires Holds(f, init, m, s1, rest1, n1) && Holds(f, init, m, s2, rest2, n2)
    ensures s1 == s2 && n1 == n2 && rest1[..n1 % BLOCK] == rest2[..n2 % BLOCK]
  {
    hide Fold;
    CountModulo(|m|);
  }

  /** Updates of fewer than 2^32 bytes, none of which overruns the block. */
  ghost predicate Updates(parts: seq<seq<Byte>>) {
    forall k :: 0 <= k < |parts| ==> |parts[k]| < WORD && !Overruns([], parts, k)
  }

  /**
    Two contexts that are given the same bytes in updates of different sizes end in
    the same state: the folded words, the count, and the bytes kept.
   */
  method CutsDoNotShow<S(==)>(f: (S, seq<Byte>) -> S, init: S, x: seq<seq<Byte>>,
      y: seq<seq<Byte>>) returns (c: Sha<S>, d: Sha<S>)
    requires Updates(x) && Updates(y) && Concat(x) == Concat(y)
    ensures c.transform == d.transform == f && c.After(init, Concat(x)) && d.After(init, Concat(y))
    ensures c.state == d.state && c.count == d.count && c.buffer.Length == d.buffer.Length == BLOCK
    ensures c.buffer[..c.count % BLOCK] == d.buffer[..d.count % BLOCK]
  {
    hide Fold; hide Holds; hide Concat;
    c := new Sha<S>(f, init);
    d := new Sha<S>(f, init);
    var overrun := c.UpdateAll(x, init, []);
    overrun := d.UpdateAll(y, init, []);
    assert [] + Concat(x) == Concat(x);
    assert [] + Concat(y) == Concat(y);
    HoldsLength(f, init, Concat(x), c.state, c.buffer[..], c.count);
    HoldsLength(f, init, Concat(y), d.state, d.buffer[..], d.count);
    HoldsOne(f, init, Concat(x), c.state, c.buffer[..], c.count, d.state, d.buffer[..], d.count);
    assert c.buffer[..][..c.count % BLOCK] == c.buffer[..c.count % BLOCK];
    assert d.buffer[..][..d.count % BLOCK] == d.buffer[..d.count % BLOCK];
  }

  lemma HoldsLength<S>(f: (S, seq<Byte>) -> S, init: S, m: seq<Byte>, s: S, rest: seq<Byte>, n: nat)
    requires Holds(f, init, m, s, rest, n)
    ensures |rest| == BLOCK
  {
    hide Fold;
  }

  /** SHA-256 or SHA-224 of a message given in several updates: the digest of the message. */
  method Sha256OfParts(parts: seq<seq<Byte>>, short: bool) returns (digest: seq<Byte>)
    requires Updates(parts)
    ensures digest == Sha256Digest(Concat(parts), short)
  {
    hide Fold; hide Holds; hide Concat; hide Sha256Digest;
    var init := if short then INIT_224 else INIT_256;
    var ctx := new Sha<Sha256.Registers>(Block256, init);
    var overrun := ctx.UpdateAll(parts, init, []);
    assert [] + Concat(parts) == Concat(parts);
    digest := Sha256Final(ctx, short, Concat(parts));
  }
}
