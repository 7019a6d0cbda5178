/** Whether it shows how the input was cut into fragments. */
module HttpCuts {
  import opened HttpTypes
  import opened HttpStep
  import opened HttpInv
  import opened HttpFold
  import opened HttpFragments
  import opened HttpExact

  /**
    When header values are legal, two ways of cutting the same bytes leave the
    same parser, the same stop and the same notifications. The callbacks are
    told the same bytes in the same order, except that after an error one of the
    two may lack the bytes that were still marked.
   */
  lemma FragmentsAgree(cfg: Settings, p: Parser, n1: nat, n2: nat, f1: seq<seq<byte>>, f2: seq<seq<byte>>)
    requires AccOk(Start(p, n1, [])) && AccOk(Start(p, n2, [])) && Concat(f1) == Concat(f2)
    requires NonEmpty(f1) && NonEmpty(f2)
    requires LegalValues(cfg, Seen(p, [], false), Concat(f1))
    ensures var a := FeedAll(cfg, Start(p, n1, []), f1);
            var b := FeedAll(cfg, Start(p, n2, []), f2);
            && a.p == b.p && a.stop == b.stop && Notes(a.told) == Notes(b.told)
            && (a.told <= b.told || b.told <= a.told) && (a.p.errno == OK ==> a.told == b.told)
  {
    hide Next; hide PlainNext; hide Feed; hide LegalValues;
    var o := Seen(p, [], false);
    FedSettled(cfg, Start(p, n1, []), o, f1);
    FedSettled(cfg, Start(p, n2, []), o, f2);
    var r := Plain(cfg, o, Concat(f1), |Concat(f1)|);
    var a := FeedAll(cfg, Start(p, n1, []), f1);
    var b := FeedAll(cfg, Start(p, n2, []), f2);
    NotesOfBytes(a.told, r.told[|a.told|..]);
    NotesOfBytes(b.told, r.told[|b.told|..]);
    assert a.told + r.told[|a.told|..] == r.told == b.told + r.told[|b.told|..];
  }

  /** What is accepted one byte at a time is accepted, with the same result, however it is cut. */
  lemma AcceptedAgrees(cfg: Settings, p: Parser, nread: nat, frags: seq<seq<byte>>)
    requires AccOk(Start(p, nread, [])) && NonEmpty(frags)
    requires var bytes := Concat(frags); Plain(cfg, Seen(p, [], false), bytes, |bytes|).p.errno == OK
    ensures var bytes := Concat(frags);
            var r := Plain(cfg, Seen(p, [], false), bytes, |bytes|);
            var a := FeedAll(cfg, Start(p, nread, []), frags);
            a.p == r.p && a.told == r.told && a.stop == r.stop
  {
    hide Next; hide PlainNext; hide Feed; hide LegalValues;
    var o := Seen(p, [], false);
    AcceptedIsLegal(cfg, o, Concat(frags));
    FedSettled(cfg, Start(p, nread, []), o, frags);
  }

  predicate SameTold(a: Acc, b: Acc) {
    a.p.errno == b.p.errno && (b.p.errno == OK ==> a.p == b.p) && a.told == b.told && a.stop == b.stop
  }

  /** No two ways of cutting the bytes can be told apart. */
  ghost predicate Indifferent(cfg: Settings, s: Acc, bytes: seq<byte>) {
    forall f, g :: Concat(f) == bytes && Concat(g) == bytes && NonEmpty(f) && NonEmpty(g)
        ==> SameTold(FeedAll(cfg, s, f), FeedAll(cfg, s, g))
  }

  /** The cutting cannot be noticed if and only if every byte is good when the input is fed whole. */
  lemma CuttingIsExact(cfg: Settings, p: Parser, nread: nat, bytes: seq<byte>)
    requires AccOk(Start(p, nread, []))
    ensures Indifferent(cfg, Start(p, nread, []), bytes) <==> Clean(cfg, Start(p, nread, []), bytes)
  {
    hide Next; hide PlainNext; hide Clean; hide Feed; hide AccOk;
    var s, o := Start(p, nread, []), Seen(p, [], false);
    var r := Plain(cfg, o, bytes, |bytes|);
    assert Between(s, s, o);
    if Clean(cfg, s, bytes) {
      forall f, g | Concat(f) == bytes && Concat(g) == bytes && NonEmpty(f) && NonEmpty(g)
        ensures SameTold(FeedAll(cfg, s, f), FeedAll(cfg, s, g))
      {
        FedBetween(cfg, s, o, f);
        FedBetween(cfg, s, o, g);
      }
    } else {
      BadByteShows(cfg, s, o, bytes);
      SinglesArePlain(cfg, s, o, bytes);
      CleanIfEmpty(cfg, s, bytes);
      var f, g := [bytes], Singles(bytes);
      assert f[..0] == [] && Concat(f) == [] + bytes;
      assert FeedAll(cfg, s, f) == Feed(cfg, s, bytes);
      assert NonEmpty(f) && NonEmpty(g);
      assert !SameTold(FeedAll(cfg, s, f), FeedAll(cfg, s, g));
    }
  }
}
