/** http_parser_execute: the loop over a fragment, its marks, its counters and its callbacks. */
module HttpExecute {
  import opened Wrappers
  import opened HttpTypes
  import opened HttpStep
  import opened HttpInv
  import opened HttpFold
  import opened HttpRuns

  /** Where the bytes of a data callback begin. */
  datatype Mark = Mark(kind: Kind, at: nat)

  function Held(mark: Option<Mark>, data: seq<byte>, pos: nat): (held: seq<Atom>)
    requires pos <= |data| && (mark.Some? ==> mark.value.at <= pos)
    ensures mark.None? ==> held == []
  {
    if mark.Some? then Bytes(mark.value.kind, data[mark.value.at..pos]) else []
  }

  lemma HeldJoin(mark: Option<Mark>, data: seq<byte>, start: nat, pos: nat)
    requires start <= pos <= |data| && mark.Some? && mark.value.at <= start
    ensures Held(mark, data, pos) == Held(mark, data, start) + Bytes(mark.value.kind, data[start..pos])
  {
    BytesJoin(mark.value.kind, data, mark.value.at, start, pos);
  }

  lemma HeldOne(mark: Option<Mark>, data: seq<byte>, pos: nat, kind: Kind)
    requires pos < |data| && (mark.Some? ==> mark.value.at <= pos && mark.value.kind == kind)
    ensures Held(SetMark(mark, kind, pos), data, pos + 1) == Held(mark, data, pos) + [Byte(kind, data[pos])]
  {
    HeldJoin(SetMark(mark, kind, pos), data, pos, pos + 1);
    assert Bytes(kind, data[pos..pos + 1]) == [Byte(kind, data[pos])];
  }

  /** The mark a fragment begins with. */
  function EntryMark(s: State): Option<Mark> {
    match EntryKind(s) case Some(k) => Some(Mark(k, 0)) case None => None
  }

  /** MARK: an earlier mark stays. */
  function SetMark(mark: Option<Mark>, kind: Kind, pos: nat): Option<Mark> {
    if mark.None? then Some(Mark(kind, pos)) else mark
  }

  function NotifyAll(notes: seq<Note>): seq<Event> {
    seq(|notes|, i requires 0 <= i < |notes| => Notify(notes[i]))
  }

  lemma FlatData(events: seq<Event>, k: Kind, bytes: seq<byte>)
    ensures Flat(events + [Data(k, bytes)]) == Flat(events) + Bytes(k, bytes)
  {
    assert (events + [Data(k, bytes)])[..|events|] == events;
  }

  lemma FlatNotify(events: seq<Event>, n: Note)
    ensures Flat(events + [Notify(n)]) == Flat(events) + [Told(n)]
  {
    assert (events + [Notify(n)])[..|events|] == events;
  }

  lemma LastNote(init: seq<Note>, last: Note)
    ensures NotifyAll(init + [last]) == NotifyAll(init) + [Notify(last)]
            && ToldAll(init + [last]) == ToldAll(init) + [Told(last)]
  {
  }

  lemma NoNotes(events: seq<Event>)
    ensures events + NotifyAll([]) == events && Flat(events) + ToldAll([]) == Flat(events)
  {
  }

  lemma {:induction false} FlatNotes(events: seq<Event>, notes: seq<Note>)
    ensures Flat(events + NotifyAll(notes)) == Flat(events) + ToldAll(notes)
  {
    if notes == [] {
      NoNotes(events);
    } else {
      var init, last := notes[..|notes| - 1], notes[|notes| - 1];
      assert notes == init + [last];
      FlatNotes(events, init);
      FlatNotify(events + NotifyAll(init), last);
      LastNote(init, last);
      hide Flat; hide NotifyAll; hide ToldAll;
      assert events + (NotifyAll(init) + [Notify(last)]) == events + NotifyAll(init) + [Notify(last)];
      assert Flat(events) + (ToldAll(init) + [Told(last)]) == Flat(events) + ToldAll(init) + [Told(last)];
    }
  }

  /** memchr */
  method MemChr(data: seq<byte>, from: nat, limit: nat, c: byte) returns (found: Option<nat>)
    requires from + limit <= |data|
    ensures match found
            case Some(i) => from <= i < from + limit && data[i] == c && forall k :: from <= k < i ==> data[k] != c
            case None => forall k :: from <= k < from + limit ==> data[k] != c
  {
    var i := from;
    while i < from + limit
      invariant from <= i <= from + limit
      invariant forall k :: from <= k < i ==> data[k] != c
    {
      if data[i] == c {
        return Some(i);
      }
      i := i + 1;
    }
    return None;
  }

  /**
    How far a header value is skipped: to the first CR or LF within the limit, otherwise to the end of the
    fragment.
   */
  method LineEnd(data: seq<byte>, from: nat) returns (end: nat)
    requires from < |data|
    ensures from <= end <= |data|
    ensures end < |data| ==> EndsLine(data[end])
    ensures forall k :: from <= k < end && k < from + HTTP_MAX_HEADER_SIZE ==> !EndsLine(data[k])
    ensures end > from + HTTP_MAX_HEADER_SIZE ==> end == |data|
  {
    var limit := |data| - from;
    if limit > HTTP_MAX_HEADER_SIZE {
      limit := HTTP_MAX_HEADER_SIZE;
    }
    var cr := MemChr(data, from, limit, CR);
    var lf := MemChr(data, from, limit, LF);
    if cr.Some? {
      end := if lf.Some? && cr.value >= lf.value then lf.value else cr.value;
    } else if lf.Some? {
      end := lf.value;
    } else {
      end := |data|;
    }
  }

  class HttpParser {
    const cfg: Settings
    var p: Parser
    var nread: nat
    var events: seq<Event>

    /** Between fragments: the state machine's invariant, and nothing counted where a chunk size begins. */
    ghost predicate Valid()
      reads this
    {
      p.errno == OK ==> Inv(p) && (AtChunkSize(p.state) ==> nread == 0)
    }

    ghost function Now(): Acc
      reads this
    {
      Start(p, nread, Flat(events))
    }

    constructor (cfg: Settings, typ: Type)
      ensures Valid() && this.cfg == cfg && nread == 0 && events == []
      ensures p == Initial(typ)
    {
      this.cfg := cfg;
      p := Initial(typ);
      nread := 0;
      events := [];
    }

    /**
      Inside a fragment: the first `pos` bytes have had the effect the fold says, and `extra` more has been
      counted.
     */
    ghost predicate Tracks(s: Acc, data: seq<byte>, pos: nat, mark: Option<Mark>, extra: nat)
      reads this
    {
      && pos <= |data|
      && (mark.Some? ==> mark.value.at <= pos && Some(mark.value.kind) == KindAt(p.state))
      && (EntryKind(p.state).Some? ==> mark.Some?)
      && var a := Upto(cfg, s, data, pos);
      && !Halted(a) && AccOk(a) && !a.over && (pos < |data| ==> a.run.Outside?)
      && a.p == p && a.told == Flat(events) && a.used == pos && a.held == Held(mark, data, pos)
      && nread == a.nread + extra + (if a.run.Outside? then 0 else 1)
      && (!a.run.Outside? ==> nread <= HTTP_MAX_HEADER_SIZE)
    }

    /** What is left of a fragment: everything the fold says, unless the header limit was exceeded. */
    ghost predicate Result(s: Acc, data: seq<byte>, n: nat)
      reads this
    {
      var e := Feed(cfg, s, data);
      && (p.errno == HeaderOverflow ==> e.over)
      && (p.errno != HeaderOverflow ==> p == e.p && Flat(events) == e.told && n == e.used)
      && (p.errno == OK ==> nread == e.nread && !e.over && Valid())
    }

    /** Counts some bytes of the header; false when the limit is exceeded. */
    method CountHeader(n: nat) returns (fits: bool)
      modifies this`nread, this`p
      ensures nread == old(nread) + n && fits == (nread <= HTTP_MAX_HEADER_SIZE)
      ensures p == if fits then old(p) else old(p).(errno := HeaderOverflow)
    {
      nread := nread + n;
      fits := nread <= HTTP_MAX_HEADER_SIZE;
      if !fits {
        p := p.(errno := HeaderOverflow);
      }
    }

    /** A data callback for a mark, if there is one. */
    method Flush(mark: Option<Mark>, data: seq<byte>, pos: nat)
      requires pos <= |data| && (mark.Some? ==> mark.value.at <= pos)
      modifies this`events
      ensures Flat(events) == Flat(old(events)) + Held(mark, data, pos)
    {
      if mark.Some? {
        FlatData(events, mark.value.kind, data[mark.value.at..pos]);
        events := events + [Data(mark.value.kind, data[mark.value.at..pos])];
      }
    }

    /** The callbacks after a byte: the marked bytes, then the notifications. */
    method Deliver(mark: Option<Mark>, data: seq<byte>, pos: nat, notes: seq<Note>)
      requires pos <= |data| && (mark.Some? ==> mark.value.at <= pos)
      modifies this`events
      ensures Flat(events) == Flat(old(events)) + Held(mark, data, pos) + ToldAll(notes)
    {
      Flush(mark, data, pos);
      FlatNotes(events, notes);
      events := events + NotifyAll(notes);
    }

    /** One byte of a state that looks at one byte at a time. */
    method OneByte(data: seq<byte>, pos: nat, mark: Option<Mark>, ghost s: Acc) returns (next: nat,
        mark': Option<Mark>, done: bool)
      requires pos < |data| && Tracks(s, data, pos, mark, if ParsingHeader(p.state) then 1 else 0)
      requires ParsingHeader(p.state) ==> nread <= HTTP_MAX_HEADER_SIZE
      requires p.state != Head(Field) && p.state != Head(Value)
      modifies this
      ensures done ==> Result(s, data, next)
      ensures !done ==> next == pos + 1 && Tracks(s, data, next, mark', 0)
    {
      hide Step; hide Inv; hide Upto; hide Next; hide Flat; hide Held;
      ghost var a := Upto(cfg, s, data, pos);
      if p.state == Body(ChunkNextSize) {
        var fits := CountHeader(1);
        if !fits {
          Overflows(cfg, s, data, pos);
          return pos, mark, true;
        }
      }
      assert AtChunkSize(p.state) ==> nread == 1;
      ChunkAsserts(p);
      assert p.state.Chunk? || p.state == Body(ChunkNextSize) ==> p.flags.chunked;
      Stepped(cfg, s, data, pos);
      var o := Step(cfg, p, data[pos]);
      ghost var b := Absorb(a, o, data[pos]);
      p := o.p;
      if p.errno != OK {
        HaltsAt(cfg, s, data, pos);
        return pos, mark, true;
      }
      next, mark', done := pos + 1, mark, o.stop;
      if o.carry.Some? {
        mark' := SetMark(mark, o.carry.value, pos);
        HeldOne(mark, data, pos, o.carry.value);
      }
      if o.carry.None? || o.notes != [] {
        var end := if o.carry.Some? then next else pos;
        assert Held(mark', data, end) == a.held + Carried(o, data[pos]);
        Deliver(mark', data, end, o.notes);
        mark' := None;
      }
      if Clears(o.notes) {
        nread := 0;
      }
      if done {
        HaltsAt(cfg, s, data, pos);
      }
    }

    /** What the fold says after the bytes from `start` to `pos` of a run that began in `a`. */
    ghost predicate InRun(s: Acc, a: Acc, data: seq<byte>, start: nat, pos: nat, kind: Kind)
      requires start <= pos <= |data|
      reads this
    {
      var b := Upto(cfg, s, data, pos);
      && AccOk(b) && b.p == p && p.errno == OK && !b.stop
      && b.nread == a.nread + (pos - start) && b.over == (pos > start && b.nread > HTTP_MAX_HEADER_SIZE)
      && b.used == pos && b.told == a.told && b.held == a.held + Bytes(kind, data[start..pos])
      && (b.run.Outside? <==> pos == start)
    }

    /** The loop over the characters of a header's name. */
    method NameLoop(data: seq<byte>, start: nat, ghost s: Acc, ghost a: Acc) returns (pos: nat)
      requires start < |data| && p.state == Head(Field)
      requires a == Upto(cfg, s, data, start) && InRun(s, a, data, start, start, FieldText)
      modifies this`p
      ensures start <= pos <= |data| && p.state == Head(Field) && InRun(s, a, data, start, pos, FieldText)
      ensures pos < |data| ==> Token(data[pos]) == 0
    {
      hide Step; hide Next; hide Flat; hide FieldChar;
      pos := start;
      while pos < |data| && Token(data[pos]) != 0
        invariant start <= pos <= |data| && p.state == Head(Field) && InRun(s, a, data, start, pos, FieldText)
      {
        assert NameState(p);
        FieldByte(cfg, Upto(cfg, s, data, pos), data[pos]);
        NextKeeps(cfg, Upto(cfg, s, data, pos), data[pos]);
        BytesSnoc(FieldText, data, start, pos + 1);
        p := FieldChar(p, data[pos], Token(data[pos]));
        pos := pos + 1;
      }
    }

    /** The bytes of a header's name, to the colon or the end of the fragment. */
    method ReadName(data: seq<byte>, start: nat, mark: Option<Mark>, ghost s: Acc) returns (pos: nat,
        mark': Option<Mark>, done: bool)
      requires start < |data| && Tracks(s, data, start, mark, 1) && nread <= HTTP_MAX_HEADER_SIZE
      requires p.state == Head(Field)
      modifies this
      ensures done ==> Result(s, data, pos)
      ensures !done ==> pos > start && Tracks(s, data, pos, mark', 0)
    {
      hide Upto; hide Step; hide Next; hide Flat; hide FieldChar;
      ghost var a := Upto(cfg, s, data, start);
      pos := NameLoop(data, start, s, a);
      mark', done := mark, false;
      var fits := CountHeader(pos - start);
      if !fits {
        if pos < |data| {
          Overflows(cfg, s, data, pos);
        }
        return pos, mark, true;
      }
      HeldJoin(mark, data, start, pos);
      if pos == |data| {
        return;
      }
      Stepped(cfg, s, data, pos);
      NameEnds(cfg, p, data[pos]);
      if !Is(data[pos], ':') {
        p := p.(errno := InvalidHeaderToken);
        HaltsAt(cfg, s, data, pos);
        return pos, mark, true;
      }
      p := p.(state := Head(DiscardWs));
      Deliver(mark, data, pos, []);
      mark' := None;
      pos := pos + 1;
    }

    /** Skipping from `pos` to `end`; whether that is further than the header limit allows. */
    lemma SkipValue(s: Acc, a: Acc, data: seq<byte>, start: nat, pos: nat, end: nat) returns (lost: bool)
      requires start <= pos < end <= |data| && p.state == Head(Value) && p.headerState.General?
      requires AccOk(s) && InRun(s, a, data, start, pos, ValueText) && (cfg.lenient || IsHeaderChar(data[pos]))
      requires forall k :: pos <= k < end && k < pos + HTTP_MAX_HEADER_SIZE ==> !EndsLine(data[k])
      ensures lost ==> end > pos + HTTP_MAX_HEADER_SIZE && Feed(cfg, s, data).over
      ensures !lost ==> InRun(s, a, data, start, end, ValueText) && Upto(cfg, s, data, end).run.Vetted?
    {
      hide Next; hide Flat; hide Step; hide Upto; hide Feed; hide Inv; hide Bytes; hide EndsLine; hide IsHeaderChar;
      lost := end > pos + HTTP_MAX_HEADER_SIZE;
      var j := if lost then pos + HTTP_MAX_HEADER_SIZE else end;
      SkippedRun(cfg, s, data, pos, j);
      UptoKeeps(cfg, s, data, j);
      if lost {
        Overflows(cfg, s, data, j);
      } else {
        BytesJoin(ValueText, data, start, pos, end);
      }
    }

    /**
      The loop over the characters of a header's value. It stops at the end of
      the line or of the fragment, and at an error; `lost` says that it has
      skipped further than the header limit allows.
     */
    method ValueLoop(data: seq<byte>, start: nat, ghost s: Acc, ghost a: Acc) returns (pos: nat, ghost lost: bool)
      requires start < |data| && p.state == Head(Value)
      requires a == Upto(cfg, s, data, start) && InRun(s, a, data, start, start, ValueText) && AccOk(s)
      modifies this`p
      ensures start <= pos <= |data| && p.state == Head(Value)
      ensures p.errno == OK && !lost ==>
              InRun(s, a, data, start, pos, ValueText)
              && (pos < |data| ==> EndsLine(data[pos]))
      ensures p.errno == OK && lost ==>
              pos == |data| && Feed(cfg, s, data).over
              && a.nread + (pos - start) >= HTTP_MAX_HEADER_SIZE
      ensures p.errno != OK ==> p.errno != HeaderOverflow && pos < |data| && End(Upto(cfg, s, data, pos + 1)).p == p
      ensures p.errno != OK ==> var b := Upto(cfg, s, data, pos + 1); Halted(b) && b.used == pos && b.told == a.told
    {
      hide Step; hide Next; hide Outcome; hide Flat; hide ValueChar;
      var saved := p.headerState;
      pos, lost := start, false;
      while pos < |data| && !EndsLine(data[pos])
        invariant start <= pos <= |data| && p.state == Head(Value) && p.errno == OK
        invariant !lost ==>
                  InRun(s, a, data, start, pos, ValueText)
                  && (Upto(cfg, s, data, pos).run.Vetted? || Saved(Upto(cfg, s, data, pos)) == saved)
        invariant !lost && Upto(cfg, s, data, pos).run.Vetted? && pos < |data| ==> EndsLine(data[pos])
        invariant lost ==> pos == |data| && Feed(cfg, s, data).over && a.nread + (pos - start) >= HTTP_MAX_HEADER_SIZE
      {
        ghost var b := Upto(cfg, s, data, pos);
        ValueFails(cfg, b, data[pos]);
        if !cfg.lenient && !IsHeaderChar(data[pos]) {
          NextIs(cfg, s, data, pos);
          p := p.(errno := InvalidHeaderToken, headerState := saved);
          return;
        }
        if p.headerState.General? {
          var end := LineEnd(data, pos);
          lost := SkipValue(s, a, data, start, pos, end);
          pos := end;
        } else {
          assert p.headerState != Named(Connection) && p.headerState != Named(TransferEncoding);
          p := ValueChar(p, data[pos]);
          if p.errno != OK {
            NextIs(cfg, s, data, pos);
            return;
          }
          ValueByte(cfg, b, data[pos]);
          NextKeeps(cfg, b, data[pos]);
          BytesSnoc(ValueText, data, start, pos + 1);
          pos := pos + 1;
        }
      }
    }

    /** The bytes of a header's value, to the end of the line or of the fragment. */
    method ReadValue(data: seq<byte>, start: nat, mark: Option<Mark>, ghost s: Acc) returns (pos: nat,
        mark': Option<Mark>, done: bool)
      requires start < |data| && AccOk(s) && Tracks(s, data, start, mark, 1) && nread <= HTTP_MAX_HEADER_SIZE
      requires p.state == Head(Value)
      modifies this
      ensures done ==> Result(s, data, pos)
      ensures !done ==> pos > start && Tracks(s, data, pos, mark', 0)
    {
      hide Upto; hide Step; hide Next; hide Outcome; hide Flat; hide ValueChar;
      ghost var a := Upto(cfg, s, data, start);
      ghost var lost;
      pos, lost := ValueLoop(data, start, s, a);
      mark', done := mark, false;
      if p.errno != OK {
        HaltsAt(cfg, s, data, pos);
        return pos, mark, true;
      }
      if pos < |data| {
        ValueLine(cfg, s, data, pos);
        HeldJoin(mark, data, start, pos);
        p := p.(state := Head(if data[pos] == CR then AlmostDone else ValueLws));
        Deliver(mark, data, pos, []);
        mark' := None;
      } else if !lost {
        HeldJoin(mark, data, start, pos);
      }
      var fits := CountHeader(pos - start);
      if !fits {
        if pos < |data| {
          Overflows(cfg, s, data, pos);
        }
        return pos, mark', true;
      }
      if pos < |data| {
        pos := pos + 1;
      }
    }

    /** As much of a body of known length as the fragment holds, in one go. */
    method ReadBody(data: seq<byte>, start: nat, mark: Option<Mark>, ghost s: Acc) returns (pos: nat,
        mark': Option<Mark>, done: bool)
      requires start < |data| && AccOk(s) && Tracks(s, data, start, mark, 0)
      requires p.state == Body(ChunkData) || p.state == Body(Identity)
      modifies this
      ensures done ==> Result(s, data, pos)
      ensures !done ==> pos > start && Tracks(s, data, pos, mark', 0)
    {
      hide Upto; hide Next; hide Flat; hide Inv; hide MessageDone;
      ghost var a := Upto(cfg, s, data, start);
      assert p.contentLength != 0 && p.contentLength != ULLONG_MAX by { BodyLength(p); }
      var n := |data| - start;
      if n > p.contentLength {
        n := p.contentLength;
      }
      pos, mark', done := start + n, SetMark(mark, BodyText, start), false;
      BodyTaken(cfg, s, data, start, n);
      HeldJoin(mark', data, start, pos);
      p := p.(contentLength := p.contentLength - n);
      if p.contentLength == 0 {
        if p.state.body.ChunkData? {
          p := p.(state := Body(ChunkDataAlmostDone));
        } else {
          MessageDoneIsOk(p);
          done := p.upgrade;
          p := MessageDone(p).p;
          Deliver(mark', data, pos, [MessageComplete]);
          mark' := None;
          if done {
            HaltsAt(cfg, s, data, pos - 1);
          }
        }
      }
    }

    /** A body that lasts until the connection closes takes the rest of the fragment. */
    method ReadToEof(data: seq<byte>, start: nat, mark: Option<Mark>, ghost s: Acc) returns (pos: nat,
        mark': Option<Mark>)
      requires start < |data| && AccOk(s) && Tracks(s, data, start, mark, 0)
      requires p.state == Body(IdentityEof)
      ensures pos == |data| && Tracks(s, data, pos, mark', 0)
    {
      hide Upto; hide Next; hide Flat; hide Inv;
      pos, mark' := |data|, SetMark(mark, BodyText, start);
      EofRun(cfg, s, data, start, pos);
      UptoKeeps(cfg, s, data, pos);
      HeldJoin(mark', data, start, pos);
    }

    /** What a call with no data does: the end of the connection. */
    ghost predicate AtEof(was: Parser, told: seq<Atom>, n: nat)
      reads this
    {
      match was.state
      case Body(b) =>
        if b.IdentityEof? then p == was && n == 0 && Flat(events) == told + [Told(MessageComplete)]
        else p == was.(errno := InvalidEofState) && n == 1 && Flat(events) == told
      case Dead => p == was && n == 0 && Flat(events) == told
      case Line(l) =>
        if l.StartReqOrRes? || l.StartReq? || l.StartRes? then p == was && n == 0 && Flat(events) == told
        else p == was.(errno := InvalidEofState) && n == 1 && Flat(events) == told
      case _ => p == was.(errno := InvalidEofState) && n == 1 && Flat(events) == told
    }

    method ExecuteEof() returns (n: nat)
      requires Valid() && p.errno == OK
      modifies this
      ensures Valid() && AtEof(old(p), old(Flat(events)), n)
    {
      if p.state == Body(IdentityEof) {
        FlatNotify(events, MessageComplete);
        events := events + [Notify(MessageComplete)];
        return 0;
      }
      if p.state.Dead? || p.state == Line(StartReqOrRes) || p.state == Line(StartRes) || p.state == Line(StartReq) {
        return 0;
      }
      p := p.(errno := InvalidEofState);
      return 1;
    }

    /**
      http_parser_execute. Unless the header limit is exceeded, the parser, the
      callbacks and the result are what feeding the bytes one at a time says;
      and the limit is reported only when some byte exceeds it.
     */
    method Execute(data: seq<byte>) returns (n: nat)
      requires Valid()
      modifies this
      ensures Valid()
      ensures old(p.errno) != OK ==> n == 0 && p == old(p) && events == old(events)
      ensures old(p.errno) == OK && data == [] ==> AtEof(old(p), old(Flat(events)), n)
      ensures old(p.errno) == OK && data != [] ==> Result(old(Now()), data, n)
    {
      hide Step; hide Inv; hide Next; hide Flat;
      if p.errno != OK {
        return 0;
      }
      if data == [] {
        n := ExecuteEof();
        return;
      }
      ghost var s := Now();
      var pos := 0;
      var mark := EntryMark(p.state);
      while pos < |data|
        invariant Tracks(s, data, pos, mark, 0)
        decreases |data| - pos
      {
        if ParsingHeader(p.state) {
          var fits := CountHeader(1);
          if !fits {
            Overflows(cfg, s, data, pos);
            return pos;
          }
        }
        var done := false;
        if p.state == Head(Field) {
          pos, mark, done := ReadName(data, pos, mark, s);
        } else if p.state == Head(Value) {
          pos, mark, done := ReadValue(data, pos, mark, s);
        } else if p.state == Body(Identity) || p.state == Body(ChunkData) {
          pos, mark, done := ReadBody(data, pos, mark, s);
        } else if p.state == Body(IdentityEof) {
          pos, mark := ReadToEof(data, pos, mark, s);
        } else {
          pos, mark, done := OneByte(data, pos, mark, s);
        }
        if done {
          return pos;
        }
      }
      Flush(mark, data, pos);
      n := |data|;
    }
  }
}
