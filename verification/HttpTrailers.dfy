/**
  The trailer of a chunked body (section 4.1.2 of RFC 7230): which fields it can carry.

  Only a Content-Length among the trailer fields can be refused. The other names that
  the parser knows are matched and leave marks of their own, none of which ends the
  message.
 */
module HttpTrailers {
  import opened Wrappers
  import opened HttpTypes
  import opened HttpStep
  import opened HttpInv
  import opened HttpFold
  import opened HttpFragments
  import opened HttpBytes

  /** A trailer field. */
  datatype Trailer = Trailer(name: seq<byte>, value: seq<byte>)

  /** A name of token characters, and a value on one line that may stand in a header. */
  predicate TrailerOk(cfg: Settings, t: Trailer) {
    && t.name != [] && (forall c :: c in t.name ==> Token(c) != 0)
    && (forall c :: c in t.value ==> !EndsLine(c) && Legal(cfg, c))
  }

  function EncodeTrailer(t: Trailer): seq<byte> { t.name + [58] + (t.value + [CR, LF]) }

  predicate Blank(ch: byte) { ch == SPACE || ch == TAB }

  function Trim(value: seq<byte>): seq<byte> { if value != [] && Blank(value[0]) then Trim(value[1..]) else value }

  function ToldOfTrailer(t: Trailer): seq<Atom> { Bytes(FieldText, t.name) + Bytes(ValueText, Trim(t.value)) }

  predicate TrailersOk(cfg: Settings, ts: seq<Trailer>) { forall t :: t in ts ==> TrailerOk(cfg, t) }

  function EncodeTrailers(ts: seq<Trailer>): seq<byte> {
    if ts == [] then [] else EncodeTrailers(ts[..|ts| - 1]) + EncodeTrailer(ts[|ts| - 1])
  }

  function ToldOfTrailers(ts: seq<Trailer>): seq<Atom> {
    if ts == [] then [] else ToldOfTrailers(ts[..|ts| - 1]) + ToldOfTrailer(ts[|ts| - 1])
  }

  // ----- what is refused -----

  const LENGTH_NAME := "content-length"

  /** The name so far is the beginning of Content-Length, in upper or lower case. */
  predicate BeginsLength(name: seq<byte>) {
    0 < |name| <= |LENGTH_NAME| && forall i :: 0 <= i < |name| ==> Token(name[i]) == LENGTH_NAME[i] as int
  }

  predicate IsLength(t: Trailer) { |t.name| == |LENGTH_NAME| && BeginsLength(t.name) }

  /** A Content-Length with a value. */
  predicate HasLength(t: Trailer) { IsLength(t) && Trim(t.value) != [] }

  predicate LengthChars(v: seq<byte>) { v != [] && IsNum(v[0]) && forall c :: c in v ==> IsNum(c) || c == SPACE }

  /** The digits among digits and spaces. */
  function DigitsOf(v: seq<byte>): (ds: seq<byte>)
    ensures AllDigits(ds)
  {
    if v == [] then []
    else DigitsOf(v[..|v| - 1]) + if IsNum(v[|v| - 1]) then [v[|v| - 1]] else []
  }

  /**
    Digits, with spaces after the first, that stay below the limit: all but the last make no more than a tenth of
    it.
   */
  predicate LengthText(v: seq<byte>) {
    && LengthChars(v)
    && var ds := DigitsOf(v); ds != [] ==> DecimalValue(ds[..|ds| - 1]) <= (ULLONG_MAX - 10) / 10
  }

  /** No Content-Length of the trailer is malformed, and there is none after another one. */
  predicate LengthsOk(seen: bool, ts: seq<Trailer>) {
    forall i :: 0 <= i < |ts| && HasLength(ts[i]) ==>
      LengthText(Trim(ts[i].value)) && !seen && forall j :: 0 <= j < i ==> !HasLength(ts[j])
  }

  // ----- names -----

  /** At the start of a header line. */
  predicate LineStart(p: Parser) {
    p.state == Head(FieldStart) || p.state == Head(DiscardLws) || p.state == Head(ValueLws)
  }

  /** What a trailer leaves as it was, but for the mark that a Content-Length has been read. */
  predicate Mild(p: Parser, q: Parser) {
    q.errno == p.errno && q.upgrade == p.upgrade && q.flags.trailing == p.flags.trailing
  }

  /** The same with that mark. */
  predicate Milder(p: Parser, q: Parser) { Mild(p, q) && q.flags.contentLength == p.flags.contentLength }

  /** How many characters of Content-Length the header state stands for. */
  function Matched(p: Parser): nat {
    match p.headerState
    case Naming(C) => 1
    case Naming(CO) => 2
    case Naming(CON) => 3
    case Naming(MatchingContentLength) => p.index + 1
    case Named(ContentLength) => |LENGTH_NAME|
    case _ => 0
  }

  /** Inside a name: the header state follows how much of it is Content-Length. */
  predicate Follows(p: Parser, name: seq<byte>) {
    && p.state == Head(Field) && (p.headerState.General? || p.headerState.Naming? || p.headerState.Named?)
    && Matched(p) == (if BeginsLength(name) then |name| else 0)
    && (p.headerState == Naming(C) ==> p.index == 0) && (p.headerState == Naming(CO) ==> p.index == 1)
    && (p.headerState == Naming(CON) ==> p.index == 2)
    && (p.headerState == Naming(MatchingContentLength) ==> 3 <= p.index < |LENGTH_NAME| - 1)
  }

  lemma LengthBegins(name: seq<byte>, ch: byte)
    ensures BeginsLength([ch]) <==> Token(ch) == LENGTH_NAME[0] as int
    ensures name != [] ==> (BeginsLength(name + [ch]) <==>
              BeginsLength(name) && |name| < |LENGTH_NAME| && Token(ch) == LENGTH_NAME[|name|] as int)
  {
    hide Token;
    var all := name + [ch];
    assert forall i :: 0 <= i < |name| ==> all[i] == name[i];
    assert all[|name|] == ch;
  }

  lemma NameFirst(cfg: Settings, o: Seen, ch: byte)
    requires !Finished(o) && LineStart(o.p) && Token(ch) != 0
    ensures var r := PlainNext(cfg, o, ch);
            r == Seen(r.p, o.told + [Byte(FieldText, ch)], false) && Milder(o.p, r.p) && Follows(r.p, [ch])
  {
    hide BeginsLength; hide Follows; hide Step; hide Token; hide StepFieldStart; hide EndHeader; hide LineStart;
    LineStarts(cfg, o.p, ch);
    NameStarts(cfg, Settle(o.p), ch);
    SettleIsMild(o.p);
    Texted(cfg, o, ch, Step(cfg, o.p, ch).p, FieldText);
  }

  /** The parser at the start of a line once the value before has taken effect. */
  function Settle(p: Parser): Parser {
    if p.state == Head(FieldStart) then p else EndHeader(p).(state := Head(FieldStart))
  }

  lemma ConnectionIsMild(f: Flags, h: HeaderState)
    ensures var g := SetConnection(f, h); g.trailing == f.trailing && g.contentLength == f.contentLength
  {
  }

  lemma SettleIsMild(p: Parser)
    ensures Milder(p, Settle(p))
  {
    ConnectionIsMild(p.flags, p.headerState);
    hide SetConnection;
  }

  lemma LineStarts(cfg: Settings, p: Parser, ch: byte)
    requires LineStart(p) && (ch == CR || Token(ch) != 0)
    ensures Step(cfg, p, ch) == StepFieldStart(cfg, Settle(p), ch)
  {
    hide StepFieldStart; hide EndHeader;
  }

  lemma NameStarts(cfg: Settings, p: Parser, ch: byte)
    requires p.state == Head(FieldStart) && Token(ch) != 0
    ensures var o := StepFieldStart(cfg, p, ch);
            o == Out(o.p, Some(FieldText), [], false) && Milder(p, o.p)
            && Follows(o.p, [ch])
  {
    LengthBegins([], ch);
    hide BeginsLength;
  }

  lemma NameMore(cfg: Settings, o: Seen, name: seq<byte>, ch: byte)
    requires !Finished(o) && name != [] && Follows(o.p, name) && Token(ch) != 0
    ensures var r := PlainNext(cfg, o, ch);
            r == Seen(r.p, o.told + [Byte(FieldText, ch)], false) && Milder(o.p, r.p) && Follows(r.p, name + [ch])
  {
    LengthBegins(name, ch);
    hide BeginsLength;
    assert Step(cfg, o.p, ch) == Carry(FieldChar(o.p, ch, Token(ch)), Head(Field), FieldText);
    Texted(cfg, o, ch, Step(cfg, o.p, ch).p, FieldText);
    FieldFollows(o.p, name, ch);
  }

  lemma FieldFollows(p: Parser, name: seq<byte>, ch: byte)
    requires name != [] && Follows(p, name) && Token(ch) != 0
    requires BeginsLength(name + [ch]) <==>
             BeginsLength(name) && |name| < |LENGTH_NAME|
             && Token(ch) == LENGTH_NAME[|name|] as int
    ensures Follows(FieldChar(p, ch, Token(ch)), name + [ch])
  {
    hide BeginsLength;
  }

  /** A name leads to the state of Content-Length exactly if it is that name. */
  lemma {:induction false} NameRun(cfg: Settings, o: Seen, name: seq<byte>)
    requires !Finished(o) && LineStart(o.p) && name != [] && forall c :: c in name ==> Token(c) != 0
    ensures var r := All(cfg, o, name);
            r == Seen(r.p, o.told + Bytes(FieldText, name), false) && Milder(o.p, r.p)
            && Follows(r.p, name)
    decreases |name|
  {
    hide PlainNext; hide Token; hide Follows; hide LineStart;
    var init, last := name[..|name| - 1], name[|name| - 1];
    assert name == init + [last];
    AllSnoc(cfg, o, init, last);
    BytesGrow(o.told, FieldText, init, last);
    if init == [] {
      AllNone(cfg, o);
      assert [last] == name && o.told + Bytes(FieldText, init) == o.told;
      NameFirst(cfg, o, last);
    } else {
      NameRun(cfg, o, init);
      NameMore(cfg, All(cfg, o, init), init, last);
    }
  }

  lemma BytesGrow(told: seq<Atom>, k: Kind, bytes: seq<byte>, ch: byte)
    ensures told + Bytes(k, bytes + [ch]) == told + Bytes(k, bytes) + [Byte(k, ch)]
  {
    assert Bytes(k, bytes + [ch]) == Bytes(k, bytes) + [Byte(k, ch)];
  }

  // ----- values -----

  /** Before or in the value of a field that is not a Content-Length. */
  predicate Other(p: Parser) { p.headerState != Named(ContentLength) }

  lemma OtherFirst(cfg: Settings, o: Seen, ch: byte)
    requires !Finished(o) && !EndsLine(ch) && !Blank(ch) && o.p.state == Head(DiscardWs) && Other(o.p)
    ensures var r := PlainNext(cfg, o, ch);
            r == Seen(r.p, o.told + [Byte(ValueText, ch)], false) && Milder(o.p, r.p) && r.p.state == Head(Value)
                && Other(r.p)
  {
    Texted(cfg, o, ch, Step(cfg, o.p, ch).p, ValueText);
  }

  /** A character of such a value. */
  lemma OtherChar(p: Parser, ch: byte)
    requires Other(p)
    ensures var q := ValueChar(p, ch); Milder(p, q) && q.state == p.state && Other(q)
  {
    hide WordChar; hide SetConnection; hide TokenStart;
    match p.headerState
    case Valuing(v) => assert WordChar(p, Lower(ch), v).headerState != Named(ContentLength);
    case Valued(v) => ConnectionIsMild(p.flags, p.headerState);
    case MatchingTokenStart => TokenStartIsOther(Lower(ch));
    case _ =>
  }

  lemma TokenStartIsOther(c: byte)
    ensures TokenStart(c) != Named(ContentLength)
  {
  }

  lemma OtherMore(cfg: Settings, o: Seen, ch: byte)
    requires !Finished(o) && !EndsLine(ch) && Legal(cfg, ch) && o.p.state == Head(Value) && Other(o.p)
    ensures var r := PlainNext(cfg, o, ch);
            r == Seen(r.p, o.told + [Byte(ValueText, ch)], false) && Milder(o.p, r.p) && r.p.state == Head(Value)
                && Other(r.p)
  {
    OtherChar(o.p, ch);
    hide ValueChar;
    assert Step(cfg, o.p, ch) == Carry(ValueChar(o.p, ch), Head(Value), ValueText);
    Texted(cfg, o, ch, Step(cfg, o.p, ch).p, ValueText);
  }

  /** A value after its leading blanks. */
  lemma {:induction false} OtherRun(cfg: Settings, o: Seen, value: seq<byte>)
    requires !Finished(o) && o.p.state == Head(DiscardWs) && Other(o.p) && value != [] && !Blank(value[0])
    requires forall c :: c in value ==> !EndsLine(c) && Legal(cfg, c)
    ensures var r := All(cfg, o, value);
            r == Seen(r.p, o.told + Bytes(ValueText, value), false) && Milder(o.p, r.p) && r.p.state == Head(Value)
    ensures Other(All(cfg, o, value).p)
    decreases |value|
  {
    hide PlainNext; hide Legal; hide EndsLine; hide Blank;
    var init, last := value[..|value| - 1], value[|value| - 1];
    assert value == init + [last] && last in value;
    AllSnoc(cfg, o, init, last);
    BytesGrow(o.told, ValueText, init, last);
    if init == [] {
      AllNone(cfg, o);
      assert o.told + Bytes(ValueText, init) == o.told;
      OtherFirst(cfg, o, last);
    } else {
      OtherRun(cfg, o, init);
      OtherMore(cfg, All(cfg, o, init), last);
    }
  }

  /** What has become of a Content-Length in the trailer: read so far, or refused with only its own bytes told. */
  predicate LengthRead(o: Seen, value: seq<byte>, r: Seen) {
    if LengthText(value) && !o.p.flags.contentLength then
      && r == Seen(r.p, o.told + Bytes(ValueText, value), false) && Mild(o.p, r.p) && r.p.flags.contentLength
      && r.p.state == Head(Value) && r.p.headerState == Named(ContentLength)
         && r.p.contentLength == DecimalValue(DigitsOf(value))
    else r.p.errno != OK && exists k :: 0 <= k <= |value| && r.told == o.told + Bytes(ValueText, value[..k])
  }

  lemma DigitsGrow(v: seq<byte>, ch: byte)
    ensures DigitsOf(v + [ch]) == DigitsOf(v) + if IsNum(ch) then [ch] else []
  {
    assert (v + [ch])[..|v|] == v;
  }

  lemma DecimalGrows(ds: seq<byte>, d: byte)
    requires AllDigits(ds) && IsNum(d)
    ensures AllDigits(ds + [d]) && DecimalValue(ds + [d]) == DecimalValue(ds) * 10 + (d as int - 48)
  {
    assert (ds + [d])[..|ds|] == ds;
  }

  /** One more character of a Content-Length. */
  lemma TextGrows(v: seq<byte>, ch: byte)
    requires v != []
    ensures LengthText(v + [ch]) <==>
            LengthText(v) && (ch == SPACE || (IsNum(ch) && DecimalValue(DigitsOf(v)) <= (ULLONG_MAX - 10) / 10))
    ensures LengthText(v) && IsNum(ch)
            ==> DecimalValue(DigitsOf(v + [ch])) == DecimalValue(DigitsOf(v)) * 10 + (ch as int - 48)
    ensures ch == SPACE ==> DigitsOf(v + [ch]) == DigitsOf(v)
  {
    var w := v + [ch];
    DigitsGrow(v, ch);
    assert w[0] == v[0] && (forall c :: c in w <==> c in v || c == ch);
    assert LengthChars(w) <==> LengthChars(v) && (IsNum(ch) || ch == SPACE);
    hide LengthChars; hide DigitsOf;
    var ds := DigitsOf(v);
    if IsNum(ch) {
      assert (ds + [ch])[..|ds|] == ds;
      DecimalGrows(ds, ch);
      if ds != [] {
        SmallerInit(ds);
      }
    } else {
      assert ds + [] == ds;
    }
  }

  lemma SmallerInit(ds: seq<byte>)
    requires AllDigits(ds) && ds != []
    ensures AllDigits(ds[..|ds| - 1]) && DecimalValue(ds[..|ds| - 1]) <= DecimalValue(ds)
  {
    assert ds[|ds| - 1] in ds;
  }

  lemma TextOne(ch: byte)
    ensures LengthText([ch]) <==> IsNum(ch)
    ensures IsNum(ch) ==> DecimalValue(DigitsOf([ch])) == ch as int - 48
  {
    DigitsGrow([], ch);
    assert [] + [ch] == [ch];
    assert ch in [ch];
    if IsNum(ch) {
      DecimalGrows([], ch);
      assert [ch][..0] == [];
    }
  }

  lemma LengthFirst(cfg: Settings, o: Seen, ch: byte)
    requires !Finished(o) && !EndsLine(ch) && !Blank(ch) && o.p.state == Head(DiscardWs)
             && o.p.headerState == Named(ContentLength)
    ensures LengthRead(o, [ch], PlainNext(cfg, o, ch))
  {
    TextOne(ch);
    hide LengthText; hide DigitsOf;
    assert Step(cfg, o.p, ch) == ValueStart(o.p, ch);
    if IsNum(ch) && !o.p.flags.contentLength {
      Texted(cfg, o, ch, Step(cfg, o.p, ch).p, ValueText);
      assert Bytes(ValueText, [ch]) == [Byte(ValueText, ch)];
    } else {
      assert o.told + [] + [] == o.told + Bytes(ValueText, [ch][..0]);
    }
  }

  lemma LengthMore(cfg: Settings, o: Seen, value: seq<byte>, ch: byte, r: Seen)
    requires !Finished(o) && value != [] && LengthRead(o, value, r) && !EndsLine(ch) && Legal(cfg, ch)
    ensures LengthRead(o, value + [ch], PlainNext(cfg, r, ch))
  {
    TextGrows(value, ch);
    BytesGrow(o.told, ValueText, value, ch);
    hide LengthText; hide DigitsOf; hide DecimalValue; hide Legal;
    if LengthText(value) && !o.p.flags.contentLength {
      LengthStep(cfg, r, ch);
      assert (value + [ch])[..|value|] == value;
    } else {
      FailedStays(cfg, r, ch);
      var k :| 0 <= k <= |value| && r.told == o.told + Bytes(ValueText, value[..k]);
      assert (value + [ch])[..k] == value[..k];
    }
  }

  lemma LengthStep(cfg: Settings, o: Seen, ch: byte)
    requires !Finished(o) && !EndsLine(ch) && Legal(cfg, ch) && o.p.state == Head(Value)
             && o.p.headerState == Named(ContentLength)
    ensures var r := PlainNext(cfg, o, ch);
            if ch == SPACE then r == Seen(o.p, o.told + [Byte(ValueText, ch)], false)
            else if IsNum(ch) && o.p.contentLength <= (ULLONG_MAX - 10) / 10
            then r == Seen(o.p.(contentLength := o.p.contentLength * 10 + (ch as int - 48)),
                o.told + [Byte(ValueText, ch)], false)
            else r.p.errno != OK && r.told == o.told
  {
    var p := Step(cfg, o.p, ch).p;
    if p.errno == OK {
      Texted(cfg, o, ch, p, ValueText);
    } else {
      assert o.told + [] + [] == o.told;
    }
  }

  lemma {:induction false} LengthRun(cfg: Settings, o: Seen, value: seq<byte>)
    requires !Finished(o) && o.p.state == Head(DiscardWs) && o.p.headerState == Named(ContentLength)
    requires value != [] && !Blank(value[0]) && forall c :: c in value ==> !EndsLine(c) && Legal(cfg, c)
    ensures LengthRead(o, value, All(cfg, o, value))
    decreases |value|
  {
    hide PlainNext; hide Legal; hide EndsLine; hide Blank; hide LengthRead;
    var init, last := value[..|value| - 1], value[|value| - 1];
    assert value == init + [last] && last in value;
    AllSnoc(cfg, o, init, last);
    if init == [] {
      AllNone(cfg, o);
      assert value == [last];
      LengthFirst(cfg, o, last);
    } else {
      LengthRun(cfg, o, init);
      LengthMore(cfg, o, init, last, All(cfg, o, init));
    }
  }

  /** Leading blanks are dropped. */
  lemma {:induction false} TrimRun(cfg: Settings, o: Seen, value: seq<byte>)
    requires !Finished(o) && o.p.state == Head(DiscardWs)
    ensures All(cfg, o, value) == All(cfg, o, Trim(value)) && (Trim(value) != [] ==> !Blank(Trim(value)[0]))
    ensures forall c :: c in Trim(value) ==> c in value
    decreases |value|
  {
    hide PlainNext; hide All;
    if value != [] && Blank(value[0]) {
      var first, rest := value[0], value[1..];
      assert value == [first] + rest;
      AllJoin(cfg, o, [first], rest);
      AllOne(cfg, o, first);
      Quiet(cfg, o, first, o.p);
      TrimRun(cfg, o, rest);
    }
  }

  // ----- a field -----

  lemma Colon(cfg: Settings, o: Seen)
    requires !Finished(o) && o.p.state == Head(Field)
    ensures All(cfg, o, [58]) == Seen(o.p.(state := Head(DiscardWs)), o.told, false)
  {
    AllOne(cfg, o, 58);
    Quiet(cfg, o, 58, o.p.(state := Head(DiscardWs)));
  }

  lemma ValueLineEnds(cfg: Settings, o: Seen)
    requires !Finished(o) && (o.p.state == Head(DiscardWs) || o.p.state == Head(Value))
    ensures var s := Head(if o.p.state == Head(Value) then ValueLws else DiscardLws);
            All(cfg, o, [CR, LF]) == Seen(o.p.(state := s), o.told, false)
  {
    AllTwo(cfg, o, CR, LF);
    var p := o.p.(state := Head(if o.p.state == Head(Value) then AlmostDone else DiscardWsAlmostDone));
    Quiet(cfg, o, CR, p);
    Quiet(cfg, Seen(p, o.told, false), LF, o.p.(state := Head(if o.p.state == Head(Value) then ValueLws
        else DiscardLws)));
  }

  predicate HeaderBytes(atoms: seq<Atom>) {
    forall a :: a in atoms ==> a.Byte? && (a.kind.FieldText? || a.kind.ValueText?)
  }

  /** After a trailer field: at the next line, with all of it told, or refused with some of it told. */
  predicate FieldRead(o: Seen, t: Trailer, r: Seen) {
    if HasLength(t) && (o.p.flags.contentLength || !LengthText(Trim(t.value))) then Lost(o, r)
    else
      && r == Seen(r.p, o.told + ToldOfTrailer(t), false) && LineStart(r.p) && Mild(o.p, r.p)
      && r.p.flags.contentLength == (o.p.flags.contentLength || HasLength(t))
  }

  /** An error; only bytes of header fields have been told since. */
  predicate Lost(o: Seen, r: Seen) {
    r.p.errno != OK && o.told <= r.told && HeaderBytes(r.told[|o.told|..])
  }

  /** The value with the line's end, after the name of a field. */
  lemma ValueLine(cfg: Settings, o: Seen, t: Trailer)
    requires !Finished(o) && o.p.state == Head(DiscardWs) && (o.p.headerState == Named(ContentLength) <==> IsLength(t))
    requires forall c :: c in t.value ==> !EndsLine(c) && Legal(cfg, c)
    ensures var r := All(cfg, o, t.value + [CR, LF]);
            if HasLength(t) && (o.p.flags.contentLength || !LengthText(Trim(t.value)))
            then r.p.errno != OK && exists k ::
                0 <= k <= |Trim(t.value)|
                && r.told == o.told + Bytes(ValueText, Trim(t.value)[..k])
            else
              && r == Seen(r.p, o.told + Bytes(ValueText, Trim(t.value)), false) && LineStart(r.p) && Mild(o.p, r.p)
              && r.p.flags.contentLength == (o.p.flags.contentLength || HasLength(t))
  {
    hide All; hide Legal; hide EndsLine; hide Blank; hide LengthText; hide BeginsLength; hide Trim;
    var v := Trim(t.value);
    AllJoin(cfg, o, t.value, [CR, LF]);
    TrimRun(cfg, o, t.value);
    var a := All(cfg, o, v);
    if v == [] {
      AllNone(cfg, o);
      assert o.told + Bytes(ValueText, v) == o.told;
      ValueLineEnds(cfg, a);
    } else if IsLength(t) {
      LengthRun(cfg, o, v);
      if LengthText(v) && !o.p.flags.contentLength {
        ValueLineEnds(cfg, a);
      } else {
        AllTwo(cfg, a, CR, LF);
        FailedStays(cfg, a, CR);
        FailedStays(cfg, a, LF);
      }
    } else {
      OtherRun(cfg, o, v);
      ValueLineEnds(cfg, a);
    }
  }

  lemma TrailerRun(cfg: Settings, o: Seen, t: Trailer)
    requires !Finished(o) && LineStart(o.p) && TrailerOk(cfg, t)
    ensures FieldRead(o, t, All(cfg, o, EncodeTrailer(t)))
  {
    NameRun(cfg, o, t.name);
    var a := All(cfg, o, t.name);
    hide All; hide Token; hide Legal; hide LengthText; hide Trim; hide EndsLine;
    AllJoin(cfg, o, t.name, [58]);
    Colon(cfg, a);
    var b := All(cfg, a, [58]);
    AllJoin(cfg, o, t.name + [58], t.value + [CR, LF]);
    ValueLine(cfg, b, t);
    hide BeginsLength;
    var r := All(cfg, b, t.value + [CR, LF]);
    assert r == All(cfg, o, EncodeTrailer(t));
    var x := Bytes(FieldText, t.name);
    if HasLength(t) && (o.p.flags.contentLength || !LengthText(Trim(t.value))) {
      var k :| 0 <= k <= |Trim(t.value)| && r.told == b.told + Bytes(ValueText, Trim(t.value)[..k]);
      FieldLost(o.told, x, Bytes(ValueText, Trim(t.value)[..k]), r.told);
    } else {
      FieldTold(o.told, x, Bytes(ValueText, Trim(t.value)));
    }
  }

  lemma FieldTold(told: seq<Atom>, x: seq<Atom>, y: seq<Atom>)
    ensures told + (x + y) == told + x + y
  {
  }

  lemma FieldLost(told: seq<Atom>, x: seq<Atom>, y: seq<Atom>, all: seq<Atom>)
    requires all == told + x + y && HeaderBytes(x) && HeaderBytes(y)
    ensures told <= all && HeaderBytes(all[|told|..])
  {
    assert all[|told|..] == x + y;
  }

  // ----- the trailer -----

  predicate AnyLength(ts: seq<Trailer>) { exists i :: 0 <= i < |ts| && HasLength(ts[i]) }

  /** One more field. */
  lemma LengthsGrow(seen: bool, ts: seq<Trailer>, t: Trailer)
    ensures LengthsOk(seen, ts + [t]) <==>
            LengthsOk(seen, ts) && !(HasLength(t) && (seen || AnyLength(ts) || !LengthText(Trim(t.value))))
    ensures AnyLength(ts + [t]) <==> AnyLength(ts) || HasLength(t)
  {
    hide HasLength; hide LengthText; hide Trim;
    var all := ts + [t];
    assert all[|ts|] == t;
    assert forall i :: 0 <= i < |ts| ==> all[i] == ts[i];
  }

  /** After the whole trailer. */
  predicate TrailerRead(o: Seen, ts: seq<Trailer>, r: Seen) {
    if LengthsOk(o.p.flags.contentLength, ts) then
      && r == Seen(r.p, o.told + ToldOfTrailers(ts), false) && LineStart(r.p) && Mild(o.p, r.p)
      && r.p.flags.contentLength == (o.p.flags.contentLength || AnyLength(ts))
    else Lost(o, r)
  }

  /** A trailer is read to its last line, unless a Content-Length in it is malformed or comes after another. */
  lemma {:induction false} TrailersRun(cfg: Settings, o: Seen, ts: seq<Trailer>)
    requires !Finished(o) && LineStart(o.p) && TrailersOk(cfg, ts)
    ensures TrailerRead(o, ts, All(cfg, o, EncodeTrailers(ts)))
    decreases |ts|
  {
    hide All; hide TrailerOk; hide HasLength; hide LineStart; hide LengthText;
    if ts == [] {
      AllNone(cfg, o);
      assert o.told + [] == o.told;
    } else {
      var init, last := ts[..|ts| - 1], ts[|ts| - 1];
      assert ts == init + [last];
      TrailersRun(cfg, o, init);
      AllJoin(cfg, o, EncodeTrailers(init), EncodeTrailer(last));
      LengthsGrow(o.p.flags.contentLength, init, last);
      var a := All(cfg, o, EncodeTrailers(init));
      hide LengthsOk; hide AnyLength;
      if LengthsOk(o.p.flags.contentLength, init) {
        TrailerRun(cfg, a, last);
        TrailerJoins(o, init, last, a, All(cfg, a, EncodeTrailer(last)));
      } else {
        FailedAll(cfg, a, EncodeTrailer(last));
      }
    }
  }

  lemma TrailerJoins(o: Seen, init: seq<Trailer>, last: Trailer, a: Seen, r: Seen)
    requires LengthsOk(o.p.flags.contentLength, init) && TrailerRead(o, init, a) && FieldRead(a, last, r)
    requires LengthsOk(o.p.flags.contentLength, init + [last]) <==>
             !(HasLength(last) && (o.p.flags.contentLength || AnyLength(init) || !LengthText(Trim(last.value))))
    requires AnyLength(init + [last]) <==> AnyLength(init) || HasLength(last)
    ensures TrailerRead(o, init + [last], r)
  {
    hide LengthsOk; hide AnyLength; hide HasLength; hide LengthText; hide Trim; hide ToldOfTrailer;
    assert (init + [last])[..|init|] == init;
    FieldTold(o.told, ToldOfTrailers(init), ToldOfTrailer(last));
    if Lost(a, r) {
      LaterLost(init, o.told, a.told, r.told);
    }
  }

  lemma LaterLost(ts: seq<Trailer>, told: seq<Atom>, more: seq<Atom>, all: seq<Atom>)
    requires more == told + ToldOfTrailers(ts) && more <= all && HeaderBytes(all[|more|..])
    ensures told <= all && HeaderBytes(all[|told|..])
  {
    TrailersTold(ts);
    var x, y := ToldOfTrailers(ts), all[|more|..];
    assert all == told + x + y;
    FieldLost(told, x, y, all);
  }

  lemma {:induction false} TrailersTold(ts: seq<Trailer>)
    ensures HeaderBytes(ToldOfTrailers(ts))
  {
    if ts != [] {
      TrailersTold(ts[..|ts| - 1]);
    }
  }

  lemma {:induction false} FailedAll(cfg: Settings, o: Seen, bytes: seq<byte>)
    requires Finished(o)
    ensures All(cfg, o, bytes) == o
    decreases |bytes|
  {
    hide PlainNext;
    if bytes == [] {
      AllNone(cfg, o);
    } else {
      var init, last := bytes[..|bytes| - 1], bytes[|bytes| - 1];
      assert bytes == init + [last];
      FailedAll(cfg, o, init);
      AllSnoc(cfg, o, init, last);
      FailedStays(cfg, o, last);
    }
  }

  /** The empty line after the trailer. */
  lemma BodyEnds(cfg: Settings, o: Seen)
    requires !Finished(o) && LineStart(o.p) && o.p.flags.trailing
    ensures var r := All(cfg, o, [CR, LF]);
            r.told == o.told + [Told(ChunkComplete), Told(MessageComplete)] && r.stop == o.p.upgrade && r.p.errno == OK
  {
    hide Step; hide EndHeader; hide LineStart;
    LineStarts(cfg, o.p, CR);
    SettleIsMild(o.p);
    EmptyLine(cfg, Settle(o.p));
    AllTwo(cfg, o, CR, LF);
    var p := Settle(o.p).(state := Head(HeadersAlmostDone));
    Quiet(cfg, o, CR, p);
    MessageEnds(cfg, p);
    assert ToldAll([ChunkComplete, MessageComplete]) == [Told(ChunkComplete), Told(MessageComplete)];
    assert o.told + [] == o.told;
  }

  lemma EmptyLine(cfg: Settings, p: Parser)
    requires p.state == Head(FieldStart)
    ensures StepFieldStart(cfg, p, CR) == Out(p.(state := Head(HeadersAlmostDone)), None, [], false)
  {
  }

  lemma MessageEnds(cfg: Settings, p: Parser)
    requires p.state == Head(HeadersAlmostDone) && p.flags.trailing
    ensures var o := Step(cfg, p, LF);
            o == Out(o.p, None, [ChunkComplete, MessageComplete], p.upgrade)
            && o.p.errno == p.errno
  {
    assert [ChunkComplete] + [MessageComplete] == [ChunkComplete, MessageComplete];
  }
}
