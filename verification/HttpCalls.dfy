/** One call of http_parser_execute after another. */
module HttpCalls {
  import opened HttpTypes
  import opened HttpStep
  import opened HttpInv
  import opened HttpFold
  import opened HttpFragments
  import opened HttpExecute

  /** No upgrade ends the series before the last call. */
  ghost predicate GoesOn(cfg: Settings, s: Acc, frags: seq<seq<byte>>) {
    forall k :: 0 <= k < |frags| ==> !FeedAll(cfg, s, frags[..k]).stop
  }

  /** The header limit is exceeded in some call. */
  ghost predicate Exceeds(cfg: Settings, s: Acc, frags: seq<seq<byte>>) {
    exists k :: 0 <= k < |frags| && ExceedsAt(cfg, s, frags, k)
  }

  predicate ExceedsAt(cfg: Settings, s: Acc, frags: seq<seq<byte>>, k: nat)
    requires k < |frags|
  {
    var b := FeedAll(cfg, s, frags[..k]);
    Feed(cfg, Start(b.p, b.nread, b.told), frags[k]).over
  }

  /** After the calls for some fragments the parser is as the fold says, unless the header limit was exceeded. */
  ghost predicate Agrees(h: HttpParser, s: Acc, frags: seq<seq<byte>>)
    reads h
  {
    var a := FeedAll(h.cfg, s, frags);
    && h.Valid()
    && (h.p.errno == HeaderOverflow ==> Exceeds(h.cfg, s, frags))
    && (h.p.errno != HeaderOverflow ==> h.p == a.p && Flat(h.events) == a.told)
    && (h.p.errno == OK ==> h.nread == a.nread)
  }

  lemma OneMore(cfg: Settings, s: Acc, frags: seq<seq<byte>>, k: nat)
    requires k < |frags| && !FeedAll(cfg, s, frags[..k]).stop
    ensures var b := FeedAll(cfg, s, frags[..k]);
            FeedAll(cfg, s, frags[..k + 1]) == Feed(cfg, Start(b.p, b.nread, b.told), frags[k])
  {
    hide Feed;
    assert frags[..k + 1][..k] == frags[..k];
  }

  lemma ExceedsOn(cfg: Settings, s: Acc, frags: seq<seq<byte>>, k: nat)
    requires k < |frags| && (Exceeds(cfg, s, frags[..k]) || ExceedsAt(cfg, s, frags, k))
    ensures Exceeds(cfg, s, frags[..k + 1])
  {
    hide Feed; hide FeedAll;
    var x := frags[..k + 1];
    assert x[..k] == frags[..k];
    if Exceeds(cfg, s, frags[..k]) {
      var i :| 0 <= i < k && ExceedsAt(cfg, s, frags[..k], i);
      assert frags[..k][..i] == x[..i];
      assert ExceedsAt(cfg, s, x, i);
    } else {
      assert ExceedsAt(cfg, s, x, k);
    }
  }

  /** A parser that has failed takes no more. */
  lemma FailedFeed(cfg: Settings, b: Acc, data: seq<byte>)
    requires b.p.errno != OK
    ensures var a := Feed(cfg, Start(b.p, b.nread, b.told), data); a.p == b.p && a.told == b.told
  {
    hide Next;
    var s := Start(b.p, b.nread, b.told);
    StaysHalted(cfg, s, data, 0, |data|);
  }

  /** What one more call adds to what the calls before it have done. */
  lemma CallAgrees(h: HttpParser, s: Acc, frags: seq<seq<byte>>, k: nat, was: Acc)
    requires k < |frags| && !FeedAll(h.cfg, s, frags[..k]).stop
    requires was.p == FeedAll(h.cfg, s, frags[..k]).p && was.told == FeedAll(h.cfg, s, frags[..k]).told
    requires was == Start(was.p, FeedAll(h.cfg, s, frags[..k]).nread, was.told) && h.Valid()
    requires exists n :: h.Result(was, frags[k], n)
    ensures Agrees(h, s, frags[..k + 1])
  {
    hide Feed; hide FeedAll; hide Exceeds; hide Flat; hide Inv;
    OneMore(h.cfg, s, frags, k);
    if h.p.errno == HeaderOverflow {
      ExceedsOn(h.cfg, s, frags, k);
    }
  }

  /** What a call does that finds the parser failed. */
  lemma FailedAgrees(h: HttpParser, s: Acc, frags: seq<seq<byte>>, k: nat)
    requires k < |frags| && !FeedAll(h.cfg, s, frags[..k]).stop && Agrees(h, s, frags[..k]) && h.p.errno != OK
    ensures Agrees(h, s, frags[..k + 1])
  {
    hide Feed; hide FeedAll; hide Exceeds; hide Flat; hide Inv;
    OneMore(h.cfg, s, frags, k);
    if h.p.errno == HeaderOverflow {
      ExceedsOn(h.cfg, s, frags, k);
    } else {
      FailedFeed(h.cfg, FeedAll(h.cfg, s, frags[..k]), frags[k]);
    }
  }

  /**
    http_parser_execute on one fragment after another. Unless the header limit is
    exceeded, the parser and what the callbacks were told are what FeedAll says, so
    the lemmas about it are about these calls.
   */
  method ExecuteAll(h: HttpParser, frags: seq<seq<byte>>)
    requires h.Valid() && h.p.errno == OK && NonEmpty(frags) && GoesOn(h.cfg, h.Now(), frags)
    modifies h
    ensures Agrees(h, old(h.Now()), frags)
  {
    hide Feed; hide FeedAll; hide Flat; hide Inv; hide Exceeds;
    ghost var s := h.Now();
    Nothing(h.cfg, s);
    for k := 0 to |frags|
      invariant Agrees(h, s, frags[..k])
    {
      assert !FeedAll(h.cfg, s, frags[..k]).stop;
      if h.p.errno == OK {
        ghost var was := h.Now();
        var n := h.Execute(frags[k]);
        assert h.Result(was, frags[k], n);
        CallAgrees(h, s, frags, k, was);
      } else {
        FailedAgrees(h, s, frags, k);
        var n := h.Execute(frags[k]);
        assert Agrees(h, s, frags[..k + 1]);
      }
    }
    assert frags[..|frags|] == frags;
  }

  lemma Nothing(cfg: Settings, s: Acc)
    ensures FeedAll(cfg, s, []) == s
  {
  }
}
