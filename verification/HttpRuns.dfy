/**
  Runs of bytes that the parser consumes in one go: names, skipped values and bodies.

  The C code advances over such a run in an inner loop, or with memchr, or by adding
  to its pointer. Here each is shown to be the same number of single bytes, with the
  same bytes marked for the callback, the same count of the header, and the same
  state at the end; the errors that can stop a run are among the cases. The methods
  of the parser use these lemmas once for each run.
 */
module HttpRuns {
  import opened Wrappers
  import opened HttpTypes
  import opened HttpStep
  import opened HttpInv
  import opened HttpFold

  lemma BodyByte(cfg: Settings, a: Acc, ch: byte)
    requires !Halted(a) && a.run.Outside? && 1 < a.p.contentLength
    requires a.p.state == Body(ChunkData) || a.p.state == Body(Identity)
    ensures Next(cfg, a, ch)
            == a.(p := a.p.(contentLength := a.p.contentLength - 1), used := a.used + 1,
                held := a.held + [Byte(BodyText, ch)])
  {
  }

  /** The last byte of a body of known length. */
  lemma LastByte(cfg: Settings, a: Acc, ch: byte)
    requires !Halted(a) && a.run.Outside? && a.p.contentLength == 1
    requires a.p.state == Body(ChunkData) || a.p.state == Body(Identity)
    ensures var q := a.p.(contentLength := 0);
            var held := a.held + [Byte(BodyText, ch)];
            Next(cfg, a, ch) == if a.p.state == Body(ChunkData)
                then a.(p := q.(state := Body(ChunkDataAlmostDone)), used := a.used + 1, held := held)
                                else Acc(MessageDone(q).p, a.nread, a.over, a.used + 1,
                                    a.told + held + ToldAll([MessageComplete]), [], q.upgrade, Outside)
  {
  }

  lemma EofByte(cfg: Settings, a: Acc, ch: byte)
    requires !Halted(a) && a.run.Outside? && a.p.state == Body(IdentityEof)
    ensures Next(cfg, a, ch) == a.(used := a.used + 1, held := a.held + [Byte(BodyText, ch)])
  {
  }

  lemma BytesSnoc(k: Kind, data: seq<byte>, i: nat, j: nat)
    requires i < j <= |data|
    ensures Bytes(k, data[i..j]) == Bytes(k, data[i..j - 1]) + [Byte(k, data[j - 1])]
  {
  }

  lemma ValueByte(cfg: Settings, a: Acc, ch: byte)
    requires !Halted(a) && a.p.state == Head(Value) && !EndsLine(ch)
    requires a.run.Vetted? || cfg.lenient || IsHeaderChar(ch)
    requires ValueChar(a.p, ch).errno == OK && (a.run.Vetted? ==> a.p.headerState.General?)
    ensures var q := ValueChar(a.p, ch);
            Next(cfg, a, ch)
                == Acc(q, a.nread + 1, a.over
                    || a.nread + 1 > HTTP_MAX_HEADER_SIZE, a.used + 1, a.told, a.held + [Byte(ValueText, ch)], false,
                       RunAfter(a.p, a.run))
  {
    assert ParsingHeader(a.p.state);
  }

  /** A header value is skipped to the end of its line without looking at its bytes. */
  lemma {:induction false} SkippedRun(cfg: Settings, s: Acc, data: seq<byte>, i: nat, j: nat)
    requires i < j <= |data|
    requires var a := Upto(cfg, s, data, i); !Halted(a) && a.p.state == Head(Value) && a.p.headerState.General?
    requires cfg.lenient || IsHeaderChar(data[i])
    requires forall k :: i <= k < j ==> !EndsLine(data[k])
    ensures var a := Upto(cfg, s, data, i);
            Upto(cfg, s, data, j) == Acc(a.p, a.nread + (j - i), a.over
                || a.nread + (j - i) > HTTP_MAX_HEADER_SIZE, a.used + (j - i), a.told,
                   a.held + Bytes(ValueText, data[i..j]), false, Vetted)
  {
    hide Next;
    if i + 1 < j {
      SkippedRun(cfg, s, data, i, j - 1);
    }
    ValueByte(cfg, Upto(cfg, s, data, j - 1), data[j - 1]);
    BytesSnoc(ValueText, data, i, j);
  }

  lemma BytesJoin(k: Kind, data: seq<byte>, i: nat, m: nat, j: nat)
    requires i <= m <= j <= |data|
    ensures Bytes(k, data[i..j]) == Bytes(k, data[i..m]) + Bytes(k, data[m..j])
  {
  }

  /** Part of a body of known length, short of its end. */
  lemma {:induction false} BodyRun(cfg: Settings, s: Acc, data: seq<byte>, i: nat, j: nat)
    requires i <= j <= |data|
    requires var a := Upto(cfg, s, data, i);
             && !Halted(a) && (a.p.state == Body(ChunkData) || a.p.state == Body(Identity))
             && j - i < a.p.contentLength && a.run.Outside?
    ensures var a := Upto(cfg, s, data, i);
            Upto(cfg, s, data, j)
                == a.(p := a.p.(contentLength := a.p.contentLength - (j - i)), used := a.used + (j - i),
                    held := a.held + Bytes(BodyText, data[i..j]))
  {
    hide Next;
    if i < j {
      BodyRun(cfg, s, data, i, j - 1);
      BytesSnoc(BodyText, data, i, j);
      BodyByte(cfg, Upto(cfg, s, data, j - 1), data[j - 1]);
    }
  }

  /** Part of a body that lasts until the connection closes. */
  lemma {:induction false} EofRun(cfg: Settings, s: Acc, data: seq<byte>, i: nat, j: nat)
    requires i <= j <= |data|
    requires var a := Upto(cfg, s, data, i); !Halted(a) && a.p.state == Body(IdentityEof) && a.run.Outside?
    ensures var a := Upto(cfg, s, data, i);
            Upto(cfg, s, data, j) == a.(used := a.used + (j - i), held := a.held + Bytes(BodyText, data[i..j]))
  {
    hide Next;
    if i < j {
      EofRun(cfg, s, data, i, j - 1);
      BytesSnoc(BodyText, data, i, j);
      EofByte(cfg, Upto(cfg, s, data, j - 1), data[j - 1]);
    }
  }

  /** The parser after n bytes of a body of known length. */
  function Consumed(p: Parser, n: nat): Parser
    requires n <= p.contentLength
  {
    var q := p.(contentLength := p.contentLength - n);
    if n < p.contentLength then q else if p.state == Body(ChunkData) then q.(state := Body(ChunkDataAlmostDone))
        else MessageDone(q).p
  }

  lemma BodyTaken(cfg: Settings, s: Acc, data: seq<byte>, i: nat, n: nat)
    requires 0 < n && i + n <= |data| && AccOk(s)
    requires var a := Upto(cfg, s, data, i);
             && !Halted(a) && (a.p.state == Body(ChunkData) || a.p.state == Body(Identity))
             && n <= a.p.contentLength && a.run.Outside?
    ensures var a := Upto(cfg, s, data, i);
            var held := a.held + Bytes(BodyText, data[i..i + n]);
            var done := n == a.p.contentLength && a.p.state == Body(Identity);
            var b := Upto(cfg, s, data, i + n);
            && b == Acc(Consumed(a.p, n), a.nread, a.over, a.used + n, b.told, if done then [] else held, done
               && a.p.upgrade, Outside)
            && b.told == (if done then a.told + held + ToldAll([MessageComplete]) else a.told)
            && AccOk(b) && b.p.errno == OK
  {
    hide Next; hide MessageDone;
    UptoKeeps(cfg, s, data, i + n);
    var a := Upto(cfg, s, data, i);
    if n < a.p.contentLength {
      BodyRun(cfg, s, data, i, i + n);
    } else {
      BodyRun(cfg, s, data, i, i + n - 1);
      BytesSnoc(BodyText, data, i, i + n);
      var c := Upto(cfg, s, data, i + n - 1);
      LastByte(cfg, c, data[i + n - 1]);
      MessageDoneIsOk(c.p.(contentLength := 0));
      assert a.held + Bytes(BodyText, data[i..i + n]) == c.held + [Byte(BodyText, data[i + n - 1])];
    }
  }

  lemma MessageDoneIsOk(p: Parser)
    ensures MessageDone(p).p.errno == p.errno && KindAt(MessageDone(p).p.state).None?
  {
  }

  lemma FieldByte(cfg: Settings, a: Acc, ch: byte)
    requires !Halted(a) && a.p.state == Head(Field) && (a.run.Outside? || a.run.InName?) && Token(ch) != 0
    ensures Next(cfg, a, ch) == Acc(FieldChar(a.p, ch, Token(ch)), a.nread + 1, a.over
            || a.nread + 1 > HTTP_MAX_HEADER_SIZE, a.used + 1, a.told, a.held + [Byte(FieldText, ch)], false, InName)
  {
    assert ParsingHeader(a.p.state);
  }

  /** A fragment in which a counted byte exceeds the limit. */
  lemma Overflows(cfg: Settings, s: Acc, data: seq<byte>, i: nat)
    requires i < |data|
    requires var a := Upto(cfg, s, data, i);
    !Halted(a) && (a.over || (Counts(a.p.state) && a.nread + 1 > HTTP_MAX_HEADER_SIZE))
    ensures Feed(cfg, s, data).over
  {
    hide Outcome;
    assert Upto(cfg, s, data, i + 1).over;
    StaysOver(cfg, s, data, i + 1, |data|);
  }

  /** A byte that halts the parser settles the fragment. */
  lemma HaltsAt(cfg: Settings, s: Acc, data: seq<byte>, i: nat)
    requires i < |data| && Halted(Upto(cfg, s, data, i + 1))
    ensures Feed(cfg, s, data) == End(Upto(cfg, s, data, i + 1))
  {
    hide Next;
    StaysHalted(cfg, s, data, i + 1, |data|);
  }

  lemma NextIs(cfg: Settings, s: Acc, data: seq<byte>, i: nat)
    requires i < |data| && !Halted(Upto(cfg, s, data, i))
    ensures var a := Upto(cfg, s, data, i); Upto(cfg, s, data, i + 1) == Absorb(a, Outcome(cfg, a, data[i]), data[i])
  {
    hide Outcome; hide Absorb;
  }

  /** Unless a value is being read, the next byte takes an ordinary step. */
  lemma Stepped(cfg: Settings, s: Acc, data: seq<byte>, i: nat)
    requires i < |data| && AccOk(Upto(cfg, s, data, i))
    requires !Halted(Upto(cfg, s, data, i)) && (Upto(cfg, s, data, i).run.Outside? || Upto(cfg, s, data, i).run.InName?)
    ensures var a := Upto(cfg, s, data, i);
            var o := Step(cfg, a.p, data[i]);
            Upto(cfg, s, data, i + 1) == Absorb(a, o, data[i]) && AccOk(Absorb(a, o, data[i]))
                && Good(KindAt(a.p.state), o)
  {
    hide Step; hide Absorb;
    NextKeeps(cfg, Upto(cfg, s, data, i), data[i]);
    StepKeeps(cfg, Upto(cfg, s, data, i).p, data[i]);
  }

  lemma NameEnds(cfg: Settings, p: Parser, ch: byte)
    requires p.state == Head(Field) && Token(ch) == 0
    ensures Step(cfg, p, ch) == if Is(ch, ':') then Go(p, Head(DiscardWs)) else Fail(p, InvalidHeaderToken)
  {
  }

  lemma ValueEnds(cfg: Settings, a: Acc, ch: byte)
    requires !Halted(a) && a.p.state == Head(Value) && EndsLine(ch)
    ensures Outcome(cfg, a, ch) == Go(a.p, Head(if ch == CR then AlmostDone else ValueLws))
  {
  }

  /** The byte that ends the line of a header's value. */
  lemma ValueLine(cfg: Settings, s: Acc, data: seq<byte>, i: nat)
    requires i < |data| && EndsLine(data[i])
    requires var a := Upto(cfg, s, data, i); !Halted(a) && AccOk(a) && a.p.state == Head(Value)
    ensures var a := Upto(cfg, s, data, i);
            var b := Upto(cfg, s, data, i + 1);
            && AccOk(b)
               && b == Acc(b.p, a.nread + 1, a.over
                  || a.nread + 1 > HTTP_MAX_HEADER_SIZE, a.used + 1, b.told, [], false, Outside)
            && b.p == a.p.(state := Head(if data[i] == CR then AlmostDone else ValueLws))
               && b.told == a.told + a.held + []
  {
    hide Outcome; hide Step;
    NextKeeps(cfg, Upto(cfg, s, data, i), data[i]);
    ValueEnds(cfg, Upto(cfg, s, data, i), data[i]);
  }

  /** The header state with which the value loop began. */
  function Saved(a: Acc): HeaderState { if a.run.InValue? then a.run.saved else a.p.headerState }

  lemma ValueFails(cfg: Settings, a: Acc, ch: byte)
    requires !Halted(a) && a.p.state == Head(Value) && !a.run.Vetted? && !EndsLine(ch)
    ensures !cfg.lenient && !IsHeaderChar(ch)
            ==> Outcome(cfg, a, ch) == Out(a.p.(errno := InvalidHeaderToken, headerState := Saved(a)), None, [], false)
    ensures (cfg.lenient || IsHeaderChar(ch)) && ValueChar(a.p, ch).errno != OK
            ==> Outcome(cfg, a, ch) == Out(ValueChar(a.p, ch), None, [], false)
  {
  }
}
