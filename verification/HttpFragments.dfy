/**
  How the cutting of the input into fragments matters. The reference feeds
  one byte per call. Whether every other cutting has the same effect comes down
  to two guards, and the condition is exact.
 */
module HttpFragments {
  import opened HttpTypes
  import opened HttpStep
  import opened HttpInv
  import opened HttpFold

  /** What a caller sees: the parser, all that the callbacks were told, and whether an upgrade stopped it. */
  datatype Seen = Seen(p: Parser, told: seq<Atom>, stop: bool)

  predicate Finished(o: Seen) { o.stop || o.p.errno != OK }

  function PlainNext(cfg: Settings, o: Seen, ch: byte): Seen {
    if Finished(o) then o
    else
      var out := Step(cfg, o.p, ch);
      Seen(out.p, o.told + Carried(out, ch) + ToldAll(out.notes), out.stop)
  }

  /** The reference: every byte on its own. */
  function Plain(cfg: Settings, o: Seen, bytes: seq<byte>, n: nat): Seen
    requires n <= |bytes|
  {
    if n == 0 then o else PlainNext(cfg, Plain(cfg, o, bytes, n - 1), bytes[n - 1])
  }

  function Concat(frags: seq<seq<byte>>): seq<byte> {
    if frags == [] then [] else Concat(frags[..|frags| - 1]) + frags[|frags| - 1]
  }

  /** No call without data: that would be the end of the input. */
  predicate NonEmpty(frags: seq<seq<byte>>) { forall i :: 0 <= i < |frags| ==> frags[i] != [] }

  /** One call of the parser after another; an upgrade ends the series. */
  function FeedAll(cfg: Settings, a: Acc, frags: seq<seq<byte>>): Acc {
    if frags == [] then a
    else
      var b := FeedAll(cfg, a, frags[..|frags| - 1]);
      if b.stop then b else Feed(cfg, Start(b.p, b.nread, b.told), frags[|frags| - 1])
  }

  function Telling(a: Acc): seq<Atom> { if a.p.errno != OK then a.told else a.told + a.held }

  predicate Legal(cfg: Settings, ch: byte) { cfg.lenient || IsHeaderChar(ch) }

  // ----- legal header values -----

  /** No illegal byte is met in a header value. */
  predicate LegalValues(cfg: Settings, o: Seen, bytes: seq<byte>) {
    forall i :: 0 <= i < |bytes| ==>
      var b := Plain(cfg, o, bytes, i); !Finished(b) && b.p.state == Head(Value) ==> Legal(cfg, bytes[i])
  }

  predicate OnlyBytes(atoms: seq<Atom>) { forall x :: x in atoms ==> x.Byte? }

  /** Part-way through a fragment: the same parser, and what is told or held is what the reference has told. */
  predicate Sim(a: Acc, o: Seen) {
    AccOk(a) && a.p == o.p && a.stop == o.stop && a.told + a.held == o.told && OnlyBytes(a.held)
        && (a.stop ==> a.held == [])
  }

  lemma LegalStep(cfg: Settings, p: Parser, ch: byte)
    requires p.state == Head(Value) && p.errno == OK && Legal(cfg, ch)
    ensures Step(cfg, p, ch).p.errno != InvalidHeaderToken
    ensures p.headerState.General? && !EndsLine(ch) ==> Step(cfg, p, ch) == Carry(p, p.state, ValueText)
  {
  }

  lemma SimNext(cfg: Settings, a: Acc, o: Seen, ch: byte)
    requires Sim(a, o)
    requires !Finished(o) && o.p.state == Head(Value) ==> Legal(cfg, ch)
    ensures Sim(Next(cfg, a, ch), PlainNext(cfg, o, ch))
  {
    hide Step; hide Inv; hide MarkOk;
    NextKeeps(cfg, a, ch);
    if !Halted(a) {
      StepKeeps(cfg, a.p, ch);
      if a.p.state == Head(Value) {
        LegalStep(cfg, a.p, ch);
      }
      var out := Outcome(cfg, a, ch);
      assert out == Step(cfg, a.p, ch);
      assert o.told + Carried(out, ch) + ToldAll(out.notes)
          == a.told + (a.held + Carried(out, ch)) + ToldAll(out.notes);
    }
  }

  lemma {:induction false} SimRun(cfg: Settings, a: Acc, o: Seen, bytes: seq<byte>, m: nat, frag: seq<byte>, j: nat)
    requires m + |frag| <= |bytes| && bytes[m..m + |frag|] == frag && j <= |frag|
    requires Sim(a, Plain(cfg, o, bytes, m)) && LegalValues(cfg, o, bytes)
    ensures Sim(Upto(cfg, a, frag, j), Plain(cfg, o, bytes, m + j))
  {
    hide Next; hide PlainNext; hide Sim;
    if j > 0 {
      SimRun(cfg, a, o, bytes, m, frag, j - 1);
      assert frag[j - 1] == bytes[m + j - 1];
      SimSame(cfg, Upto(cfg, a, frag, j - 1), Plain(cfg, o, bytes, m + j - 1), frag[j - 1],
          Plain(cfg, o, bytes, m + j));
    }
  }

  lemma SimSame(cfg: Settings, a: Acc, o: Seen, ch: byte, next: Seen)
    requires Sim(a, o) && next == PlainNext(cfg, o, ch)
    requires !Finished(o) && o.p.state == Head(Value) ==> Legal(cfg, ch)
    ensures Sim(Next(cfg, a, ch), next)
  {
    hide Next; hide PlainNext;
    SimNext(cfg, a, o, ch);
  }

  /** Between fragments: as the reference, except that an error may have cost the last marked bytes. */
  predicate Settled(a: Acc, o: Seen) {
    && AccOk(a) && a.p == o.p && a.stop == o.stop
    && a.told <= o.told && OnlyBytes(o.told[|a.told|..]) && (a.p.errno == OK ==> a.told == o.told)
    && a.held == [] && a.run == Outside
  }

  lemma SimEnds(a: Acc, o: Seen)
    requires Sim(a, o)
    ensures Settled(End(a), o)
  {
    assert o.told[|a.told|..] == a.held;
  }

  lemma {:induction false} FinishedStays(cfg: Settings, o: Seen, bytes: seq<byte>, m: nat, n: nat)
    requires m <= n <= |bytes| && Finished(Plain(cfg, o, bytes, m))
    ensures Plain(cfg, o, bytes, n) == Plain(cfg, o, bytes, m)
  {
    if m < n {
      FinishedStays(cfg, o, bytes, m, n - 1);
    }
  }

  lemma {:induction false} PlainPrefix(cfg: Settings, o: Seen, x: seq<byte>, y: seq<byte>, n: nat)
    requires n <= |x|
    ensures Plain(cfg, o, x + y, n) == Plain(cfg, o, x, n)
  {
    hide PlainNext;
    if n > 0 {
      PlainPrefix(cfg, o, x, y, n - 1);
    }
  }

  lemma LegalPrefix(cfg: Settings, o: Seen, x: seq<byte>, y: seq<byte>)
    requires LegalValues(cfg, o, x + y)
    ensures LegalValues(cfg, o, x)
  {
    hide PlainNext;
    forall i | 0 <= i < |x|
      ensures var b := Plain(cfg, o, x, i); !Finished(b) && b.p.state == Head(Value) ==> Legal(cfg, x[i])
    {
      PlainPrefix(cfg, o, x, y, i);
      assert (x + y)[i] == x[i];
      var b := Plain(cfg, o, x + y, i);
    }
  }

  /** A halted parser takes nothing more. */
  lemma {:induction false} HaltedStays(cfg: Settings, a: Acc, frag: seq<byte>, j: nat)
    requires Halted(a) && j <= |frag|
    ensures Upto(cfg, a, frag, j) == a
  {
    if j > 0 {
      HaltedStays(cfg, a, frag, j - 1);
    }
  }

  /** One more fragment. */
  lemma SettledNext(cfg: Settings, b: Acc, o: Seen, x: seq<byte>, y: seq<byte>)
    requires Settled(b, Plain(cfg, o, x, |x|)) && !b.stop && LegalValues(cfg, o, x + y)
    ensures Settled(Feed(cfg, Start(b.p, b.nread, b.told), y), Plain(cfg, o, x + y, |x + y|))
  {
    hide Next; hide PlainNext;
    var s := Start(b.p, b.nread, b.told);
    PlainPrefix(cfg, o, x, y, |x|);
    if b.p.errno != OK {
      HaltedStays(cfg, s, y, |y|);
      FinishedStays(cfg, o, x + y, |x|, |x + y|);
    } else {
      SimRun(cfg, s, o, x + y, |x|, y, |y|);
      SimEnds(Upto(cfg, s, y, |y|), Plain(cfg, o, x + y, |x + y|));
    }
  }

  lemma {:induction false} FedSettled(cfg: Settings, s: Acc, o: Seen, frags: seq<seq<byte>>)
    requires Settled(s, o) && LegalValues(cfg, o, Concat(frags))
    ensures Settled(FeedAll(cfg, s, frags), Plain(cfg, o, Concat(frags), |Concat(frags)|))
    decreases |frags|
  {
    hide Next; hide PlainNext; hide Settled; hide Feed; hide LegalValues;
    if frags != [] {
      var init, last := frags[..|frags| - 1], frags[|frags| - 1];
      LegalPrefix(cfg, o, Concat(init), last);
      FedSettled(cfg, s, o, init);
      var b := FeedAll(cfg, s, init);
      if b.stop {
        StoppedStays(cfg, b, o, Concat(init), last);
      } else {
        SettledNext(cfg, b, o, Concat(init), last);
      }
    }
  }

  lemma StoppedStays(cfg: Settings, b: Acc, o: Seen, x: seq<byte>, y: seq<byte>)
    requires Settled(b, Plain(cfg, o, x, |x|)) && b.stop
    ensures Settled(b, Plain(cfg, o, x + y, |x + y|))
  {
    hide PlainNext;
    PlainPrefix(cfg, o, x, y, |x|);
    FinishedStays(cfg, o, x + y, |x|, |x + y|);
  }

  lemma {:induction false} NotesOfBytes(x: seq<Atom>, y: seq<Atom>)
    requires OnlyBytes(y)
    ensures Notes(x + y) == Notes(x)
  {
    if y == [] {
      assert x + y == x;
    } else {
      var init := y[..|y| - 1];
      NotesOfBytes(x, init);
      assert y[|y| - 1] in y;
      assert (x + y)[..|x + y| - 1] == x + init && (x + y)[|x + y| - 1] == y[|y| - 1];
    }
  }

  /** A reference run that finds no error has met only legal bytes. */
  lemma AcceptedIsLegal(cfg: Settings, o: Seen, bytes: seq<byte>)
    requires Plain(cfg, o, bytes, |bytes|).p.errno == OK
    ensures LegalValues(cfg, o, bytes)
  {
    hide PlainNext; hide Legal;
    forall i | 0 <= i < |bytes|
      ensures var b := Plain(cfg, o, bytes, i); !Finished(b) && b.p.state == Head(Value) ==> Legal(cfg, bytes[i])
    {
      var b := Plain(cfg, o, bytes, i);
      if !Finished(b) && b.p.state == Head(Value) && !Legal(cfg, bytes[i]) {
        IllegalFails(cfg, b, bytes[i]);
        FinishedStays(cfg, o, bytes, i + 1, |bytes|);
      }
    }
  }

  lemma IllegalFails(cfg: Settings, o: Seen, ch: byte)
    requires !Finished(o) && o.p.state == Head(Value) && !Legal(cfg, ch)
    ensures PlainNext(cfg, o, ch).p.errno != OK
  {
  }
}
