/**
  Several bytes at once: what they do to the parser, and what is told of them.

  The lemmas about the reference, which feeds one byte per call, are joined here into
  lemmas about rows of bytes. The values of decimal and hexadecimal digits are here too.
 */
module HttpBytes {
  import opened Wrappers
  import opened HttpTypes
  import opened HttpStep
  import opened HttpFold
  import opened HttpFragments

  function All(cfg: Settings, o: Seen, bytes: seq<byte>): Seen { Plain(cfg, o, bytes, |bytes|) }

  lemma {:induction false} AllJoin(cfg: Settings, o: Seen, x: seq<byte>, y: seq<byte>)
    ensures All(cfg, o, x + y) == All(cfg, All(cfg, o, x), y)
    decreases |y|
  {
    hide PlainNext;
    if y == [] {
      assert x + y == x;
    } else {
      var init, last := y[..|y| - 1], y[|y| - 1];
      AllJoin(cfg, o, x, init);
      assert x + y == (x + init) + [last];
      assert y == init + [last];
      PlainPrefix(cfg, o, x + init, [last], |x + init|);
      PlainPrefix(cfg, All(cfg, o, x), init, [last], |init|);
    }
  }

  lemma AllSnoc(cfg: Settings, o: Seen, x: seq<byte>, ch: byte)
    ensures All(cfg, o, x + [ch]) == PlainNext(cfg, All(cfg, o, x), ch)
  {
    hide PlainNext;
    PlainPrefix(cfg, o, x, [ch], |x|);
  }

  lemma AllOne(cfg: Settings, o: Seen, ch: byte)
    ensures All(cfg, o, [ch]) == PlainNext(cfg, o, ch)
  {
    hide PlainNext;
    assert Plain(cfg, o, [ch], 0) == o;
  }

  lemma AllTwo(cfg: Settings, o: Seen, c: byte, d: byte)
    ensures All(cfg, o, [c, d]) == PlainNext(cfg, PlainNext(cfg, o, c), d)
  {
    hide PlainNext;
    AllOne(cfg, o, c);
    AllSnoc(cfg, o, [c], d);
    assert [c] + [d] == [c, d];
  }

  /** A byte that tells the callbacks nothing. */
  lemma Quiet(cfg: Settings, o: Seen, ch: byte, p: Parser)
    requires !Finished(o) && Step(cfg, o.p, ch) == Out(p, None, [], false)
    ensures PlainNext(cfg, o, ch) == Seen(p, o.told, false)
  {
    hide Step;
    assert o.told + [] + [] == o.told;
  }

  /** A byte with one notification. */
  lemma Noted(cfg: Settings, o: Seen, ch: byte, p: Parser, n: Note)
    requires !Finished(o) && Step(cfg, o.p, ch) == Out(p, None, [n], false)
    ensures PlainNext(cfg, o, ch) == Seen(p, o.told + [Told(n)], false)
  {
    hide Step;
    assert ToldAll([n]) == [Told(n)];
    assert o.told + [] + [Told(n)] == o.told + [Told(n)];
  }

  /** A byte for a data callback. */
  lemma Texted(cfg: Settings, o: Seen, ch: byte, p: Parser, k: Kind)
    requires !Finished(o) && Step(cfg, o.p, ch) == Out(p, Some(k), [], false)
    ensures PlainNext(cfg, o, ch) == Seen(p, o.told + [Byte(k, ch)], false)
  {
    hide Step;
    assert o.told + [Byte(k, ch)] + [] == o.told + [Byte(k, ch)];
  }

  lemma AllNone(cfg: Settings, o: Seen)
    ensures All(cfg, o, []) == o
  {
  }

  lemma AllIs(cfg: Settings, o: Seen, bytes: seq<byte>)
    ensures All(cfg, o, bytes) == Plain(cfg, o, bytes, |bytes|)
  {
  }

  lemma FailedStays(cfg: Settings, o: Seen, ch: byte)
    requires Finished(o)
    ensures PlainNext(cfg, o, ch) == o
  {
  }

  // ----- numbers -----

  predicate AllDigits(ds: seq<byte>) { forall d :: d in ds ==> IsNum(d) }

  predicate HexDigits(hs: seq<byte>) { forall h :: h in hs ==> Unhex(h) != -1 }

  function DecimalValue(ds: seq<byte>): nat
    requires AllDigits(ds)
  {
    if ds == [] then 0
    else
      assert ds[|ds| - 1] in ds;
      DecimalValue(ds[..|ds| - 1]) * 10 + (ds[|ds| - 1] as int - 48)
  }

  function HexValue(hs: seq<byte>): nat
    requires HexDigits(hs)
  {
    if hs == [] then 0 else HexValue(hs[..|hs| - 1]) * 16 + Unhex(hs[|hs| - 1])
  }
}
