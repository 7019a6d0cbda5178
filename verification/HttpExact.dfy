/**
  Exactly when the cutting of the input into fragments cannot be noticed.

  Two things can show it: the skip over a header value, which passes illegal bytes
  that a shorter fragment would have refused, and an error that is met while bytes
  are marked but not told. The condition says that neither happens when the input
  is fed whole, and it is shown to be enough and to be needed.
 */
module HttpExact {
  import opened HttpTypes
  import opened HttpStep
  import opened HttpInv
  import opened HttpFold
  import opened HttpFragments

  /**
    A byte that is treated alike however the input is cut: it is not an illegal
    byte that a header value's skip would pass over, and it is not refused while
    earlier bytes are marked but not told.
   */
  predicate GoodByte(cfg: Settings, w: Acc, ch: byte) {
    !Halted(w) ==>
      && (w.run.Vetted? && !EndsLine(ch) ==> Legal(cfg, ch))
      && (Outcome(cfg, w, ch).p.errno != OK ==> w.held == [])
  }

  /** Every byte is good when the input is fed whole. */
  predicate Clean(cfg: Settings, s: Acc, bytes: seq<byte>) {
    forall i :: 0 <= i < |bytes| ==> GoodByte(cfg, Upto(cfg, s, bytes, i), bytes[i])
  }

  /** The same error, the same stop, the same tellings, and the same parser unless it has failed. */
  predicate Same(p: Parser, told: seq<Atom>, stop: bool, o: Seen) {
    p.errno == o.p.errno && (o.p.errno == OK ==> p == o.p) && told == o.told && stop == o.stop
  }

  predicate SameSeen(a: Acc, o: Seen) { Same(a.p, a.told, a.stop, o) }

  /** Part-way: the input fed whole, the input fed in fragments, and the reference. */
  predicate Three(w: Acc, f: Acc, o: Seen) {
    && AccOk(w) && AccOk(f)
    && Same(w.p, Telling(w), w.stop, o) && Same(f.p, Telling(f), f.stop, o)
    && (o.p.errno == OK ==> |f.held| <= |w.held| && (f.run.Vetted? ==> w.run.Vetted?))
    && (o.stop ==> w.held == [] && f.held == [])
  }

  lemma LegalCarries(cfg: Settings, p: Parser, ch: byte)
    requires p.state == Head(Value) && p.headerState.General? && p.errno == OK && Legal(cfg, ch) && !EndsLine(ch)
    ensures Step(cfg, p, ch) == Carry(p, p.state, ValueText)
  {
  }

  lemma AbsorbSame(cfg: Settings, a: Acc, o: Seen, ch: byte, out: Out)
    requires AccOk(a) && !Halted(a) && Same(a.p, a.told + a.held, a.stop, o)
    requires Good(KindAt(a.p.state), out) && out.p.errno == Step(cfg, a.p, ch).p.errno
    requires out.p.errno == OK ==> out == Step(cfg, a.p, ch)
    requires out.p.errno != OK ==> a.held == []
    requires out.carry == Step(cfg, a.p, ch).carry && out.notes == Step(cfg, a.p, ch).notes
             && out.stop == Step(cfg, a.p, ch).stop
    ensures var b := Absorb(a, out, ch); Same(b.p, Telling(b), b.stop, PlainNext(cfg, o, ch))
  {
    hide Step; hide Inv; hide MarkOk; hide RunAfter;
    assert o.told + Carried(out, ch) + ToldAll(out.notes) == a.told + (a.held + Carried(out, ch)) + ToldAll(out.notes);
    if out.notes == [] {
      assert o.told + Carried(out, ch) + ToldAll(out.notes) == a.told + (a.held + Carried(out, ch));
    }
  }

  /** The outcome in a fragment is that of a plain step, up to the header state an error leaves. */
  lemma OutcomeIsStep(cfg: Settings, a: Acc, ch: byte)
    requires AccOk(a) && !Halted(a) && (a.run.Vetted? && !EndsLine(ch) ==> Legal(cfg, ch))
    ensures var out := Outcome(cfg, a, ch);
            var plain := Step(cfg, a.p, ch);
            && Good(KindAt(a.p.state), out) && out.p.errno == plain.p.errno && (plain.p.errno == OK ==> out == plain)
            && out.carry == plain.carry && out.notes == plain.notes && out.stop == plain.stop
  {
    hide Step;
    StepKeeps(cfg, a.p, ch);
    if a.run.Vetted? && !EndsLine(ch) {
      LegalCarries(cfg, a.p, ch);
    }
  }

  lemma ThreeNext(cfg: Settings, w: Acc, f: Acc, o: Seen, ch: byte)
    requires Three(w, f, o) && GoodByte(cfg, w, ch)
    ensures Three(Next(cfg, w, ch), Next(cfg, f, ch), PlainNext(cfg, o, ch))
  {
    hide Step; hide Inv; hide Outcome; hide MarkOk;
    NextKeeps(cfg, w, ch);
    NextKeeps(cfg, f, ch);
    if !Finished(o) {
      OutcomeIsStep(cfg, w, ch);
      OutcomeIsStep(cfg, f, ch);
      AbsorbSame(cfg, w, o, ch, Outcome(cfg, w, ch));
      AbsorbSame(cfg, f, o, ch, Outcome(cfg, f, ch));
    }
  }

  lemma {:induction false} ThreeRun(cfg: Settings, s: Acc, f: Acc, o: Seen, bytes: seq<byte>, m: nat,
      frag: seq<byte>, j: nat)
    requires m + |frag| <= |bytes| && bytes[m..m + |frag|] == frag && j <= |frag|
    requires Three(Upto(cfg, s, bytes, m), f, Plain(cfg, o, bytes, m)) && Clean(cfg, s, bytes)
    ensures Three(Upto(cfg, s, bytes, m + j), Upto(cfg, f, frag, j), Plain(cfg, o, bytes, m + j))
  {
    hide Next; hide PlainNext; hide Three; hide GoodByte;
    if j > 0 {
      ThreeRun(cfg, s, f, o, bytes, m, frag, j - 1);
      assert frag[j - 1] == bytes[m + j - 1];
      ThreeNext(cfg, Upto(cfg, s, bytes, m + j - 1), Upto(cfg, f, frag, j - 1), Plain(cfg, o, bytes, m + j - 1),
          frag[j - 1]);
    }
  }

  /** At the end of a fragment everything marked is told, so the next fragment can begin. */
  lemma ThreeEnds(w: Acc, f: Acc, o: Seen)
    requires Three(w, f, o)
    ensures var e := End(f); SameSeen(e, o) && Three(w, Start(e.p, e.nread, e.told).(stop := e.stop), o) && e.held == []
  {
    assert f.told + [] == f.told && End(f).told + [] == End(f).told;
  }

  lemma {:induction false} UptoPrefix(cfg: Settings, s: Acc, x: seq<byte>, y: seq<byte>, n: nat)
    requires n <= |x|
    ensures Upto(cfg, s, x + y, n) == Upto(cfg, s, x, n)
  {
    hide Next;
    if n > 0 {
      UptoPrefix(cfg, s, x, y, n - 1);
    }
  }

  lemma CleanPrefix(cfg: Settings, s: Acc, x: seq<byte>, y: seq<byte>)
    requires Clean(cfg, s, x + y)
    ensures Clean(cfg, s, x)
  {
    hide Next; hide GoodByte;
    forall i | 0 <= i < |x| ensures GoodByte(cfg, Upto(cfg, s, x, i), x[i]) {
      UptoPrefix(cfg, s, x, y, i);
      assert (x + y)[i] == x[i];
      assert GoodByte(cfg, Upto(cfg, s, x + y, i), (x + y)[i]);
    }
  }

  /** After some fragments, the input so far fed whole and the reference. */
  predicate Between(w: Acc, a: Acc, o: Seen) {
    SameSeen(a, o) && Three(w, Start(a.p, a.nread, a.told).(stop := a.stop), o)
  }

  lemma BetweenNext(cfg: Settings, s: Acc, a: Acc, o: Seen, x: seq<byte>, y: seq<byte>)
    requires Between(Upto(cfg, s, x, |x|), a, Plain(cfg, o, x, |x|)) && Clean(cfg, s, x + y)
    ensures var b := if a.stop then a else Feed(cfg, Start(a.p, a.nread, a.told), y);
            Between(Upto(cfg, s, x + y, |x + y|), b, Plain(cfg, o, x + y, |x + y|))
  {
    hide Next; hide PlainNext; hide Three; hide GoodByte; hide Clean;
    UptoPrefix(cfg, s, x, y, |x|);
    PlainPrefix(cfg, o, x, y, |x|);
    var f := Start(a.p, a.nread, a.told).(stop := a.stop);
    ThreeRun(cfg, s, f, o, x + y, |x|, y, |y|);
    var w, p := Upto(cfg, s, x + y, |x + y|), Plain(cfg, o, x + y, |x + y|);
    ThreeEnds(w, Upto(cfg, f, y, |y|), p);
    if a.stop {
      HaltedStays(cfg, f, y, |y|);
    }
  }

  lemma {:induction false} FedBetween(cfg: Settings, s: Acc, o: Seen, frags: seq<seq<byte>>)
    requires Between(s, s, o) && Clean(cfg, s, Concat(frags))
    ensures var bytes := Concat(frags);
    Between(Upto(cfg, s, bytes, |bytes|), FeedAll(cfg, s, frags), Plain(cfg, o, bytes, |bytes|))
    decreases |frags|
  {
    hide Next; hide PlainNext; hide Between; hide Feed; hide Clean;
    if frags != [] {
      var init, last := frags[..|frags| - 1], frags[|frags| - 1];
      CleanPrefix(cfg, s, Concat(init), last);
      FedBetween(cfg, s, o, init);
      BetweenNext(cfg, s, FeedAll(cfg, s, init), o, Concat(init), last);
    }
  }

  // ----- the reference is a way of cutting the input -----

  function Singles(bytes: seq<byte>): seq<seq<byte>> { seq(|bytes|, i requires 0 <= i < |bytes| => [bytes[i]]) }

  lemma OneByteFed(cfg: Settings, a: Acc, o: Seen, ch: byte)
    requires AccOk(a) && a.held == [] && a.run.Outside? && Same(a.p, a.told, a.stop, o)
    ensures var b := if a.stop then a else Feed(cfg, Start(a.p, a.nread, a.told), [ch]);
            AccOk(b) && b.held == [] && b.run.Outside? && Same(b.p, b.told, b.stop, PlainNext(cfg, o, ch))
  {
    hide Step; hide Inv;
    if !a.stop {
      var s := Start(a.p, a.nread, a.told);
      assert Upto(cfg, s, [ch], 1) == Next(cfg, Upto(cfg, s, [ch], 0), [ch][0]);
      assert a.told + [] == a.told;
      var w := s.(run := Outside);
      ThreeNext(cfg, s, s, o, ch);
      ThreeEnds(Next(cfg, s, ch), Next(cfg, s, ch), PlainNext(cfg, o, ch));
    }
  }

  lemma {:induction false} SinglesArePlain(cfg: Settings, s: Acc, o: Seen, bytes: seq<byte>)
    requires AccOk(s) && s.held == [] && s.run.Outside? && SameSeen(s, o)
    ensures Concat(Singles(bytes)) == bytes
    ensures var a := FeedAll(cfg, s, Singles(bytes));
            AccOk(a) && a.held == [] && a.run.Outside?
            && SameSeen(a, Plain(cfg, o, bytes, |bytes|))
    decreases |bytes|
  {
    hide Next; hide PlainNext; hide Feed; hide Same; hide AccOk;
    if bytes != [] {
      var init, last := bytes[..|bytes| - 1], bytes[|bytes| - 1];
      SinglesArePlain(cfg, s, o, init);
      assert Singles(bytes)[..|bytes| - 1] == Singles(init);
      assert bytes == init + [last];
      PlainPrefix(cfg, o, init, [last], |init|);
      OneByteFed(cfg, FeedAll(cfg, s, Singles(init)), Plain(cfg, o, init, |init|), last);
    }
  }

  // ----- a bad byte is noticed -----

  /** What a skip has settled to tell. */
  function ToldSoFar(a: Acc): seq<Atom> { if a.run.Vetted? then a.told + a.held else a.told }

  predicate Grown(a: Acc, b: Acc) { AccOk(b) && ToldSoFar(a) <= ToldSoFar(b) && (b.run.Vetted? ==> !Halted(b)) }

  lemma GrowsNext(cfg: Settings, a: Acc, ch: byte)
    requires Grown(a, a)
    ensures Grown(a, Next(cfg, a, ch))
  {
    hide Step; hide Inv;
    NextKeeps(cfg, a, ch);
    if !Halted(a) {
      if a.run.Vetted? {
        SkipGoesOn(cfg, a, ch);
      } else {
        StepKeeps(cfg, a.p, ch);
        var o := Outcome(cfg, a, ch);
        assert a.told <= a.told + (a.held + Carried(o, ch)) + ToldAll(o.notes);
      }
    }
  }

  lemma SkipGoesOn(cfg: Settings, a: Acc, ch: byte)
    requires AccOk(a) && !Halted(a) && a.run.Vetted?
    ensures var b := Next(cfg, a, ch);
            if EndsLine(ch) then b.told == a.told + (a.held + []) + [] && b.run.Outside? else
                b.told == a.told
                && b.held == a.held + [Byte(ValueText, ch)] && b.run.Vetted?
    ensures !Halted(Next(cfg, a, ch))
  {
  }

  lemma {:induction false} Grows(cfg: Settings, s: Acc, bytes: seq<byte>, i: nat, j: nat)
    requires i <= j <= |bytes| && Grown(Upto(cfg, s, bytes, i), Upto(cfg, s, bytes, i))
    ensures Grown(Upto(cfg, s, bytes, i), Upto(cfg, s, bytes, j))
  {
    hide Next; hide AccOk;
    if i < j {
      Grows(cfg, s, bytes, i, j - 1);
      GrowsNext(cfg, Upto(cfg, s, bytes, j - 1), bytes[j - 1]);
    }
  }

  /** A byte the skip passes over is told when the input is fed whole, though the reference refuses it. */
  lemma SkippedBadByte(cfg: Settings, s: Acc, o: Seen, bytes: seq<byte>, i: nat)
    requires i < |bytes| && var w := Upto(cfg, s, bytes, i); var p := Plain(cfg, o, bytes, i);
             Three(w, w, p) && !Halted(w) && w.run.Vetted? && !EndsLine(bytes[i]) && !Legal(cfg, bytes[i])
    ensures |Feed(cfg, s, bytes).told| > |Plain(cfg, o, bytes, |bytes|).told|
  {
    hide Next; hide PlainNext; hide Inv;
    var w, p := Upto(cfg, s, bytes, i), Plain(cfg, o, bytes, i);
    SkipGoesOn(cfg, w, bytes[i]);
    Refused(cfg, p, bytes[i]);
    FinishedStays(cfg, o, bytes, i + 1, |bytes|);
    NextKeeps(cfg, w, bytes[i]);
    Grows(cfg, s, bytes, i + 1, |bytes|);
  }

  lemma Refused(cfg: Settings, o: Seen, ch: byte)
    requires !Finished(o) && o.p.state == Head(Value) && !Legal(cfg, ch)
    ensures var b := PlainNext(cfg, o, ch); Finished(b) && b.told == o.told + [] + []
  {
  }

  /** A byte refused while others are marked costs them when the input is fed whole, but not one byte at a time. */
  lemma LostBytes(cfg: Settings, s: Acc, o: Seen, bytes: seq<byte>, i: nat)
    requires i < |bytes| && var w := Upto(cfg, s, bytes, i); var p := Plain(cfg, o, bytes, i);
             Three(w, w, p) && !Halted(w) && (w.run.Vetted? && !EndsLine(bytes[i]) ==> Legal(cfg, bytes[i]))
             && Outcome(cfg, w, bytes[i]).p.errno != OK && w.held != []
    ensures |Feed(cfg, s, bytes).told| < |Plain(cfg, o, bytes, |bytes|).told|
  {
    hide Step; hide Outcome; hide Inv; hide MarkOk;
    var w, p := Upto(cfg, s, bytes, i), Plain(cfg, o, bytes, i);
    OutcomeIsStep(cfg, w, bytes[i]);
    assert PlainNext(cfg, p, bytes[i]).told == p.told + [] + [];
    assert Finished(Plain(cfg, o, bytes, i + 1));
    FinishedStays(cfg, o, bytes, i + 1, |bytes|);
    StaysHalted(cfg, s, bytes, i + 1, |bytes|);
  }

  /** The first bad byte. */
  lemma {:induction false} FirstBad(cfg: Settings, s: Acc, bytes: seq<byte>, i: nat) returns (k: nat)
    requires i < |bytes| && !GoodByte(cfg, Upto(cfg, s, bytes, i), bytes[i])
    ensures k <= i && !GoodByte(cfg, Upto(cfg, s, bytes, k), bytes[k])
    ensures forall j :: 0 <= j < k ==> GoodByte(cfg, Upto(cfg, s, bytes, j), bytes[j])
  {
    hide Next; hide GoodByte;
    if j :| 0 <= j < i && !GoodByte(cfg, Upto(cfg, s, bytes, j), bytes[j]) {
      k := FirstBad(cfg, s, bytes, j);
    } else {
      k := i;
    }
  }

  lemma {:induction false} ThreeAt(cfg: Settings, s: Acc, o: Seen, bytes: seq<byte>, k: nat)
    requires k <= |bytes| && Three(s, s, o)
    requires forall j :: 0 <= j < k ==> GoodByte(cfg, Upto(cfg, s, bytes, j), bytes[j])
    ensures Three(Upto(cfg, s, bytes, k), Upto(cfg, s, bytes, k), Plain(cfg, o, bytes, k))
  {
    hide Next; hide PlainNext; hide Three; hide GoodByte;
    if k > 0 {
      ThreeAt(cfg, s, o, bytes, k - 1);
      var w := Upto(cfg, s, bytes, k - 1);
      ThreeNext(cfg, w, w, Plain(cfg, o, bytes, k - 1), bytes[k - 1]);
    }
  }

  lemma BadByteShows(cfg: Settings, s: Acc, o: Seen, bytes: seq<byte>)
    requires Three(s, s, o) && !Clean(cfg, s, bytes)
    ensures Feed(cfg, s, bytes).told != Plain(cfg, o, bytes, |bytes|).told
  {
    hide Next; hide PlainNext; hide Three; hide Feed; hide Outcome; hide Legal; hide Upto; hide Plain;
    var i :| 0 <= i < |bytes| && !GoodByte(cfg, Upto(cfg, s, bytes, i), bytes[i]);
    var k := FirstBad(cfg, s, bytes, i);
    ThreeAt(cfg, s, o, bytes, k);
    var w := Upto(cfg, s, bytes, k);
    if w.run.Vetted? && !EndsLine(bytes[k]) && !Legal(cfg, bytes[k]) {
      SkippedBadByte(cfg, s, o, bytes, k);
    } else {
      LostBytes(cfg, s, o, bytes, k);
    }
  }

  lemma CleanIfEmpty(cfg: Settings, s: Acc, bytes: seq<byte>)
    requires !Clean(cfg, s, bytes)
    ensures bytes != []
  {
  }
}
