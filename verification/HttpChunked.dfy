/** What the accumulators hold, and what a chunked body (section 4.1 of RFC 7230) delivers. */
module HttpChunked {
  import opened Wrappers
  import opened HttpTypes
  import opened HttpStep
  import opened HttpInv
  import opened HttpFold
  import opened HttpFragments
  import opened HttpCuts
  import opened HttpBytes
  import opened HttpTrailers

  // ----- the accumulators -----

  lemma SizeByte(cfg: Settings, o: Seen, h: byte)
    requires !Finished(o) && Unhex(h) != -1
    ensures AtChunkSize(o.p.state)
            ==> PlainNext(cfg, o, h) == Seen(o.p.(state := Chunk(Size), contentLength := Unhex(h)), o.told, false)
    ensures o.p.state == Chunk(Size) && o.p.contentLength <= (ULLONG_MAX - 16) / 16 ==>
              PlainNext(cfg, o, h) == Seen(o.p.(contentLength := o.p.contentLength * 16 + Unhex(h)), o.told, false)
  {
    assert o.told + [] + [] == o.told;
  }

  /** A chunk size of hexadecimal digits, upper or lower case, with any leading zeros, is its value. */
  lemma {:induction false} SizeDigits(cfg: Settings, o: Seen, hs: seq<byte>)
    requires !Finished(o) && AtChunkSize(o.p.state) && hs != [] && HexDigits(hs) && HexValue(hs) <= ULLONG_MAX - 16
    ensures All(cfg, o, hs) == Seen(o.p.(state := Chunk(Size), contentLength := HexValue(hs)), o.told, false)
    decreases |hs|
  {
    hide PlainNext;
    var init, last := hs[..|hs| - 1], hs[|hs| - 1];
    assert hs == init + [last];
    AllSnoc(cfg, o, init, last);
    if init == [] {
      SizeByte(cfg, o, last);
    } else {
      SizeDigits(cfg, o, init);
      SizeByte(cfg, All(cfg, o, init), last);
    }
  }

  // ----- a chunk -----

  /** A chunk: the digits of its size, its extension and its data. */
  datatype Piece = Piece(size: seq<byte>, ext: seq<byte>, data: seq<byte>)

  predicate ExtOk(ext: seq<byte>) { (ext != [] ==> Is(ext[0], ';') || ext[0] == SPACE) && CR !in ext }

  predicate SizeOk(p: Piece) {
    p.size != [] && HexDigits(p.size) && HexValue(p.size) == |p.data| && |p.data| <= ULLONG_MAX - 16 && ExtOk(p.ext)
  }

  function Encode(p: Piece): seq<byte> { p.size + p.ext + [CR, LF] + (p.data + [CR, LF]) }

  lemma {:induction false} ExtRun(cfg: Settings, o: Seen, ext: seq<byte>)
    requires !Finished(o) && o.p.state == Chunk(Size) && ExtOk(ext)
    ensures All(cfg, o, ext) == Seen(o.p.(state := Chunk(if ext == [] then Size else Parameters)), o.told, false)
    decreases |ext|
  {
    hide PlainNext;
    if ext != [] {
      var init, last := ext[..|ext| - 1], ext[|ext| - 1];
      assert ext == init + [last];
      ExtRun(cfg, o, init);
      AllSnoc(cfg, o, init, last);
      ExtByte(cfg, All(cfg, o, init), last);
    }
  }

  lemma ExtByte(cfg: Settings, o: Seen, ch: byte)
    requires !Finished(o) && ch != CR
    requires o.p.state == Chunk(Parameters) || (o.p.state == Chunk(Size) && (Is(ch, ';') || ch == SPACE))
    ensures PlainNext(cfg, o, ch) == Seen(o.p.(state := Chunk(Parameters)), o.told, false)
  {
    Quiet(cfg, o, ch, o.p.(state := Chunk(Parameters)));
  }

  /** The end of a size line. */
  lemma SizeLineEnds(cfg: Settings, o: Seen)
    requires !Finished(o) && (o.p.state == Chunk(Size) || o.p.state == Chunk(Parameters))
    ensures var p := if o.p.contentLength == 0
            then o.p.(flags := o.p.flags.(trailing := true), state := Head(FieldStart))
                else o.p.(state := Body(ChunkData));
            All(cfg, o, [CR, LF]) == Seen(p, o.told + [Told(ChunkHeader)], false)
  {
    var p := o.p.(state := Chunk(SizeAlmostDone));
    AllTwo(cfg, o, CR, LF);
    Quiet(cfg, o, CR, p);
    var q := if o.p.contentLength == 0 then o.p.(flags := o.p.flags.(trailing := true), state := Head(FieldStart))
        else o.p.(state := Body(ChunkData));
    Noted(cfg, Seen(p, o.told, false), LF, q, ChunkHeader);
  }

  lemma DataByte(cfg: Settings, o: Seen, ch: byte)
    requires !Finished(o) && o.p.state == Body(ChunkData) && o.p.contentLength > 0
    ensures PlainNext(cfg, o, ch)
            == Seen(o.p.(contentLength := o.p.contentLength - 1, state := Body(if o.p.contentLength == 1
                then ChunkDataAlmostDone else ChunkData)), o.told + [Byte(BodyText, ch)], false)
  {
    Texted(cfg, o, ch, o.p.(contentLength := o.p.contentLength - 1, state := Body(if o.p.contentLength == 1
        then ChunkDataAlmostDone else ChunkData)), BodyText);
  }

  lemma {:induction false} DataRun(cfg: Settings, o: Seen, data: seq<byte>)
    requires !Finished(o) && o.p.state == Body(ChunkData) && |data| <= o.p.contentLength && o.p.contentLength > 0
    ensures All(cfg, o, data)
            == Seen(o.p.(contentLength := o.p.contentLength - |data|, state := Body(if |data| == o.p.contentLength
                then ChunkDataAlmostDone else ChunkData)), o.told + Bytes(BodyText, data), false)
    decreases |data|
  {
    hide PlainNext;
    if data == [] {
      assert o.told + Bytes(BodyText, data) == o.told;
    } else {
      var init, last := data[..|data| - 1], data[|data| - 1];
      assert data == init + [last];
      DataRun(cfg, o, init);
      AllSnoc(cfg, o, init, last);
      DataByte(cfg, All(cfg, o, init), last);
      assert Bytes(BodyText, data) == Bytes(BodyText, init) + [Byte(BodyText, last)];
      assert o.told + Bytes(BodyText, data) == o.told + Bytes(BodyText, init) + [Byte(BodyText, last)];
    }
  }

  lemma DataEnds(cfg: Settings, o: Seen)
    requires !Finished(o) && o.p.state == Body(ChunkDataAlmostDone)
    ensures All(cfg, o, [CR, LF]) == Seen(o.p.(state := Body(ChunkNextSize)), o.told + [Told(ChunkComplete)], false)
  {
    var p := o.p.(state := Body(ChunkDataDone));
    AllTwo(cfg, o, CR, LF);
    Quiet(cfg, o, CR, p);
    Noted(cfg, Seen(p, o.told, false), LF, o.p.(state := Body(ChunkNextSize)), ChunkComplete);
  }

  /** The size line of a chunk. */
  lemma SizeLine(cfg: Settings, o: Seen, p: Piece)
    requires !Finished(o) && AtChunkSize(o.p.state) && SizeOk(p)
    ensures var q := o.p.(contentLength := |p.data|);
            All(cfg, o, p.size + p.ext + [CR, LF])
            == Seen(if p.data == [] then q.(flags := q.flags.(trailing := true), state := Head(FieldStart))
                else q.(state := Body(ChunkData)), o.told + [Told(ChunkHeader)], false)
  {
    hide All;
    SizeDigits(cfg, o, p.size);
    AllJoin(cfg, o, p.size, p.ext);
    ExtRun(cfg, All(cfg, o, p.size), p.ext);
    AllJoin(cfg, o, p.size + p.ext, [CR, LF]);
    SizeLineEnds(cfg, All(cfg, o, p.size + p.ext));
  }

  function ToldOf(p: Piece): seq<Atom> { [Told(ChunkHeader)] + Bytes(BodyText, p.data) + [Told(ChunkComplete)] }

  lemma PieceRun(cfg: Settings, o: Seen, p: Piece)
    requires !Finished(o) && AtChunkSize(o.p.state) && SizeOk(p) && p.data != []
    ensures All(cfg, o, Encode(p))
            == Seen(o.p.(contentLength := 0, state := Body(ChunkNextSize)), o.told + ToldOf(p), false)
  {
    hide All;
    SizeLine(cfg, o, p);
    var a := All(cfg, o, p.size + p.ext + [CR, LF]);
    AllJoin(cfg, o, p.size + p.ext + [CR, LF], p.data + [CR, LF]);
    AllJoin(cfg, a, p.data, [CR, LF]);
    DataRun(cfg, a, p.data);
    DataEnds(cfg, All(cfg, a, p.data));
    assert o.told + ToldOf(p) == o.told + [Told(ChunkHeader)] + Bytes(BodyText, p.data) + [Told(ChunkComplete)];
  }

  lemma {:induction false} PiecesRun(cfg: Settings, o: Seen, ps: seq<Piece>)
    requires !Finished(o) && AtChunkSize(o.p.state) && PiecesOk(ps)
    ensures var r := All(cfg, o, EncodeAll(ps));
            && !Finished(r) && AtChunkSize(r.p.state) && r.told == o.told + ToldOfAll(ps)
            && r.p == o.p.(contentLength := r.p.contentLength, state := r.p.state)
    decreases |ps|
  {
    hide All; hide SizeOk;
    if ps == [] {
      AllNone(cfg, o);
      assert o.told + [] == o.told;
    } else {
      var init, last := ps[..|ps| - 1], ps[|ps| - 1];
      PiecesRun(cfg, o, init);
      AllJoin(cfg, o, EncodeAll(init), Encode(last));
      PieceRun(cfg, All(cfg, o, EncodeAll(init)), last);
      assert o.told + (ToldOfAll(init) + ToldOf(last)) == o.told + ToldOfAll(init) + ToldOf(last);
    }
  }

  predicate PiecesOk(ps: seq<Piece>) { forall p :: p in ps ==> SizeOk(p) && p.data != [] }

  function EncodeAll(ps: seq<Piece>): seq<byte> {
    if ps == [] then [] else EncodeAll(ps[..|ps| - 1]) + Encode(ps[|ps| - 1])
  }

  function ToldOfAll(ps: seq<Piece>): seq<Atom> {
    if ps == [] then [] else ToldOfAll(ps[..|ps| - 1]) + ToldOf(ps[|ps| - 1])
  }

  // ----- a whole body -----

  /** A chunked body: its chunks, the line of the last chunk, whose size is zero, and the trailer. */
  datatype ChunkedBody = ChunkedBody(pieces: seq<Piece>, last: Piece, trailers: seq<Trailer>)

  predicate WellFormed(cfg: Settings, b: ChunkedBody) {
    PiecesOk(b.pieces) && SizeOk(b.last) && b.last.data == [] && TrailersOk(cfg, b.trailers)
  }

  function EncodeBody(b: ChunkedBody): seq<byte> {
    EncodeAll(b.pieces) + (b.last.size + b.last.ext + [CR, LF]) + EncodeTrailers(b.trailers) + [CR, LF]
  }

  function Payload(ps: seq<Piece>): seq<byte> { if ps == [] then [] else Payload(ps[..|ps| - 1]) + ps[|ps| - 1].data }

  /** The bytes that on_body is told. */
  function BodyOf(atoms: seq<Atom>): seq<byte> {
    if atoms == [] then []
    else
      var a := atoms[|atoms| - 1];
      BodyOf(atoms[..|atoms| - 1]) + if a.Byte? && a.kind.BodyText? then [a.ch] else []
  }

  lemma {:induction false} BodyOfJoin(x: seq<Atom>, y: seq<Atom>)
    ensures BodyOf(x + y) == BodyOf(x) + BodyOf(y)
  {
    if y == [] {
      assert x + y == x;
    } else {
      BodyOfJoin(x, y[..|y| - 1]);
      assert (x + y)[..|x + y| - 1] == x + y[..|y| - 1];
    }
  }

  lemma {:induction false} BodyOfBytes(k: Kind, bytes: seq<byte>)
    ensures BodyOf(Bytes(k, bytes)) == if k.BodyText? then bytes else []
    decreases |bytes|
  {
    if bytes != [] {
      var init, last := bytes[..|bytes| - 1], bytes[|bytes| - 1];
      BodyOfBytes(k, init);
      assert Bytes(k, bytes)[..|bytes| - 1] == Bytes(k, init);
    }
  }

  lemma {:induction false} BodyOfPieces(ps: seq<Piece>)
    ensures BodyOf(ToldOfAll(ps)) == Payload(ps)
  {
    if ps != [] {
      var init, last := ps[..|ps| - 1], ps[|ps| - 1];
      BodyOfPieces(init);
      BodyOfJoin(ToldOfAll(init), ToldOf(last));
      BodyOfJoin([Told(ChunkHeader)] + Bytes(BodyText, last.data), [Told(ChunkComplete)]);
      BodyOfJoin([Told(ChunkHeader)], Bytes(BodyText, last.data));
      BodyOfBytes(BodyText, last.data);
    }
  }

  lemma {:induction false} BodyOfTrailers(ts: seq<Trailer>)
    ensures BodyOf(ToldOfTrailers(ts)) == []
  {
    if ts != [] {
      var init, last := ts[..|ts| - 1], ts[|ts| - 1];
      BodyOfTrailers(init);
      BodyOfJoin(ToldOfTrailers(init), ToldOfTrailer(last));
      BodyOfJoin(Bytes(FieldText, last.name), Bytes(ValueText, Trim(last.value)));
      BodyOfBytes(FieldText, last.name);
      BodyOfBytes(ValueText, Trim(last.value));
    }
  }

  /** Everything a chunked body tells the callbacks. */
  function ToldOfBody(b: ChunkedBody): seq<Atom> {
    ToldOfAll(b.pieces) + [Told(ChunkHeader)] + ToldOfTrailers(b.trailers)
        + [Told(ChunkComplete), Told(MessageComplete)]
  }

  /** The part of a chunked body before its trailer. */
  function EncodeChunks(b: ChunkedBody): seq<byte> { EncodeAll(b.pieces) + (b.last.size + b.last.ext + [CR, LF]) }

  function ToldOfChunks(b: ChunkedBody): seq<Atom> { ToldOfAll(b.pieces) + [Told(ChunkHeader)] }

  lemma ChunksRun(cfg: Settings, o: Seen, b: ChunkedBody)
    requires !Finished(o) && AtChunkSize(o.p.state) && WellFormed(cfg, b)
    ensures var r := All(cfg, o, EncodeChunks(b));
            && r == Seen(r.p, o.told + ToldOfChunks(b), false) && r.p.errno == OK && r.p.state == Head(FieldStart)
            && r.p.flags == o.p.flags.(trailing := true) && r.p.upgrade == o.p.upgrade
  {
    hide All; hide SizeOk; hide TrailersOk; hide PiecesOk;
    PiecesRun(cfg, o, b.pieces);
    var x := All(cfg, o, EncodeAll(b.pieces));
    AllJoin(cfg, o, EncodeAll(b.pieces), b.last.size + b.last.ext + [CR, LF]);
    SizeLine(cfg, x, b.last);
    assert o.told + ToldOfChunks(b) == o.told + ToldOfAll(b.pieces) + [Told(ChunkHeader)];
  }

  /** A chunked body one byte at a time: all is told, unless a Content-Length in the trailer is refused. */
  lemma BodyRun(cfg: Settings, o: Seen, b: ChunkedBody)
    requires !Finished(o) && AtChunkSize(o.p.state) && WellFormed(cfg, b)
    ensures var r := All(cfg, o, EncodeBody(b));
            if LengthsOk(o.p.flags.contentLength, b.trailers)
            then r.p.errno == OK && r.told == o.told + ToldOfBody(b) && r.stop == o.p.upgrade
            else
              && r.p.errno != OK && o.told + ToldOfChunks(b) <= r.told
              && HeaderBytes(r.told[|o.told + ToldOfChunks(b)|..])
  {
    hide All; hide SizeOk; hide TrailerOk; hide PiecesOk; hide TrailersOk; hide LengthsOk; hide AnyLength;
    hide EncodeChunks; hide ToldOfChunks;
    BodyParts(b);
    ChunksRun(cfg, o, b);
    var y := All(cfg, o, EncodeChunks(b));
    AllJoin(cfg, o, EncodeChunks(b), EncodeTrailers(b.trailers));
    TrailersRun(cfg, y, b.trailers);
    var z := All(cfg, y, EncodeTrailers(b.trailers));
    AllJoin(cfg, o, EncodeChunks(b) + EncodeTrailers(b.trailers), [CR, LF]);
    if LengthsOk(o.p.flags.contentLength, b.trailers) {
      BodyEnds(cfg, z);
      ToldParts(o.told, b);
    } else {
      FailedAll(cfg, z, [CR, LF]);
    }
  }

  lemma BodyParts(b: ChunkedBody)
    ensures EncodeBody(b) == EncodeChunks(b) + EncodeTrailers(b.trailers) + [CR, LF]
  {
  }

  lemma ToldParts(told: seq<Atom>, b: ChunkedBody)
    ensures told + ToldOfBody(b)
         == told + ToldOfChunks(b) + ToldOfTrailers(b.trailers) + [Told(ChunkComplete), Told(MessageComplete)]
  {
  }

  // ----- in fragments -----

  lemma TrailerLegal(cfg: Settings, t: Trailer, c: byte)
    requires TrailerOk(cfg, t) && c in EncodeTrailer(t)
    ensures Legal(cfg, c)
  {
    hide Token;
    if c in t.name {
      TokenIsLegal(c);
    }
  }

  lemma TokenIsLegal(c: byte)
    requires Token(c) != 0
    ensures IsHeaderChar(c)
  {
  }

  lemma {:induction false} TrailersLegal(cfg: Settings, ts: seq<Trailer>, c: byte)
    requires TrailersOk(cfg, ts) && c in EncodeTrailers(ts)
    ensures Legal(cfg, c)
  {
    hide TrailerOk; hide Legal; hide EncodeTrailer;
    var init, last := ts[..|ts| - 1], ts[|ts| - 1];
    if c in EncodeTrailer(last) {
      TrailerLegal(cfg, last, c);
    } else {
      assert c in EncodeTrailers(init);
      TrailersLegal(cfg, init, c);
    }
  }

  /** Bytes that are legal in a value may follow an accepted input. */
  lemma LegalAfter(cfg: Settings, o: Seen, x: seq<byte>, y: seq<byte>)
    requires All(cfg, o, x).p.errno == OK && forall c :: c in y ==> Legal(cfg, c)
    ensures LegalValues(cfg, o, x + y)
  {
    hide PlainNext; hide Legal;
    AllIs(cfg, o, x);
    AcceptedIsLegal(cfg, o, x);
    forall i | 0 <= i < |x + y|
      ensures var b := Plain(cfg, o, x + y, i); !Finished(b) && b.p.state == Head(Value) ==> Legal(cfg, (x + y)[i])
    {
      if i < |x| {
        PlainPrefix(cfg, o, x, y, i);
        assert (x + y)[i] == x[i];
      } else {
        assert (x + y)[i] in y;
      }
    }
  }

  lemma BodyIsLegal(cfg: Settings, o: Seen, b: ChunkedBody)
    requires !Finished(o) && AtChunkSize(o.p.state) && WellFormed(cfg, b)
    ensures LegalValues(cfg, o, EncodeBody(b))
  {
    ChunksRun(cfg, o, b);
    BodyParts(b);
    hide All; hide EncodeChunks; hide LegalValues; hide EncodeBody; hide PlainNext;
    var y := EncodeTrailers(b.trailers) + [CR, LF];
    assert EncodeBody(b) == EncodeChunks(b) + y;
    forall c | c in y ensures Legal(cfg, c) {
      if c in EncodeTrailers(b.trailers) {
        TrailersLegal(cfg, b.trailers, c);
      }
    }
    LegalAfter(cfg, o, EncodeChunks(b), y);
  }

  /** What is told up to a last notification is told even if an error costs the bytes after it. */
  lemma ToldToLastNote(told: seq<Atom>, all: seq<Atom>, x: seq<Atom>, n: Note)
    requires told <= all && OnlyBytes(all[|told|..]) && x + [Told(n)] <= all && HeaderBytes(all[|x| + 1..])
    ensures x + [Told(n)] <= told && HeaderBytes(told[|x| + 1..])
  {
    assert all[|x|] == Told(n);
    OnlyBytesAt(all, |told|, |x|);
    assert told == all[..|told|];
    assert told[|x| + 1..] == all[|x| + 1..][..|told| - |x| - 1];
  }

  lemma OnlyBytesAt(all: seq<Atom>, k: nat, i: nat)
    requires k <= |all| && i < |all|
    ensures OnlyBytes(all[k..]) && all[i].Told? ==> i < k
  {
    if k <= i {
      assert all[k..][i - k] == all[i] && all[k..][i - k] in all[k..];
    }
  }

  lemma {:induction false} NoBodyInHeaders(atoms: seq<Atom>)
    requires HeaderBytes(atoms)
    ensures BodyOf(atoms) == []
  {
    if atoms != [] {
      NoBodyInHeaders(atoms[..|atoms| - 1]);
      assert atoms[|atoms| - 1] in atoms;
    }
  }

  lemma BodyOfChunks(b: ChunkedBody)
    ensures BodyOf(ToldOfChunks(b)) == Payload(b.pieces)
  {
    BodyOfPieces(b.pieces);
    BodyOfJoin(ToldOfAll(b.pieces), [Told(ChunkHeader)]);
    NoBody([Told(ChunkHeader)]);
  }

  lemma BodyOfBody(b: ChunkedBody)
    ensures BodyOf(ToldOfBody(b)) == Payload(b.pieces)
  {
    BodyOfPieces(b.pieces);
    BodyOfTrailers(b.trailers);
    var x, y := ToldOfAll(b.pieces) + [Told(ChunkHeader)], ToldOfTrailers(b.trailers);
    BodyOfJoin(x + y, [Told(ChunkComplete), Told(MessageComplete)]);
    BodyOfJoin(x, y);
    BodyOfJoin(ToldOfAll(b.pieces), [Told(ChunkHeader)]);
    NoBody([Told(ChunkComplete), Told(MessageComplete)]);
    NoBody([Told(ChunkHeader)]);
  }

  /**
    A well-formed chunked body, in fragments of any sizes, delivers exactly the
    data of its chunks, whatever its trailer. It is accepted, with its message
    completed, if and only if each Content-Length of the trailer is decimal and
    the only one; then the callbacks are told all of it and nothing else.
   */
  lemma ChunkedBodyDelivers(cfg: Settings, p: Parser, nread: nat, b: ChunkedBody, frags: seq<seq<byte>>)
    requires AccOk(Start(p, nread, [])) && p.errno == OK && AtChunkSize(p.state) && NonEmpty(frags)
    requires WellFormed(cfg, b) && Concat(frags) == EncodeBody(b)
    ensures var a := FeedAll(cfg, Start(p, nread, []), frags);
            && BodyOf(a.told) == Payload(b.pieces)
            && (a.p.errno == OK <==> LengthsOk(p.flags.contentLength, b.trailers))
            && (a.p.errno == OK ==> a.told == ToldOfBody(b) && a.stop == p.upgrade)
  {
    hide All; hide WellFormed; hide Feed; hide LengthsOk; hide LegalValues; hide PlainNext; hide Next;
    hide EncodeBody; hide ToldOfBody;
    hide FeedAll;
    var o := Seen(p, [], false);
    BodyRun(cfg, o, b);
    BodyIsLegal(cfg, o, b);
    AllIs(cfg, o, EncodeBody(b));
    FedSettled(cfg, Start(p, nread, []), o, frags);
    var a, r := FeedAll(cfg, Start(p, nread, []), frags), All(cfg, o, EncodeBody(b));
    assert Settled(a, r);
    if LengthsOk(p.flags.contentLength, b.trailers) {
      assert [] + ToldOfBody(b) == ToldOfBody(b);
      BodyOfBody(b);
    } else {
      ChunksTold(b, a.told, r.told);
    }
  }

  lemma ChunksTold(b: ChunkedBody, told: seq<Atom>, all: seq<Atom>)
    requires told <= all && OnlyBytes(all[|told|..])
    requires [] + ToldOfChunks(b) <= all && HeaderBytes(all[|[] + ToldOfChunks(b)|..])
    ensures BodyOf(told) == Payload(b.pieces)
  {
    assert [] + ToldOfChunks(b) == ToldOfChunks(b);
    ToldToLastNote(told, all, ToldOfAll(b.pieces), ChunkHeader);
    var x := ToldOfChunks(b);
    assert told == x + told[|x|..];
    BodyOfJoin(x, told[|x|..]);
    NoBodyInHeaders(told[|x|..]);
    BodyOfChunks(b);
  }

  lemma {:induction false} NoBody(atoms: seq<Atom>)
    requires forall a :: a in atoms ==> a.Told?
    ensures BodyOf(atoms) == []
  {
    if atoms != [] {
      NoBody(atoms[..|atoms| - 1]);
      assert atoms[|atoms| - 1] in atoms;
    }
  }

  // ----- Content-Length -----

  lemma LengthFirst(cfg: Settings, o: Seen, d: byte)
    requires !Finished(o) && o.p.state == Head(DiscardWs) && o.p.headerState == Named(ContentLength)
             && !o.p.flags.contentLength && IsNum(d)
    ensures PlainNext(cfg, o, d)
            == Seen(o.p.(state := Head(Value), index := 0, flags := o.p.flags.(contentLength := true),
                contentLength := d as int - 48), o.told + [Byte(ValueText, d)], false)
  {
    assert o.told + [Byte(ValueText, d)] + [] == o.told + [Byte(ValueText, d)];
  }

  lemma LengthDigit(cfg: Settings, o: Seen, d: byte)
    requires !Finished(o) && o.p.state == Head(Value) && o.p.headerState == Named(ContentLength) && IsNum(d)
    ensures var r := PlainNext(cfg, o, d);
            if o.p.contentLength <= (ULLONG_MAX - 10) / 10
            then r == Seen(o.p.(contentLength := o.p.contentLength * 10 + (d as int - 48)),
                o.told + [Byte(ValueText, d)], false)
            else r.p.errno == InvalidContentLength
  {
    assert o.told + [Byte(ValueText, d)] + [] == o.told + [Byte(ValueText, d)];
  }

  /**
    What is made of a Content-Length of decimal digits: its value, unless all its
    digits but the last already exceed the conservative limit; then it is refused.
   */
  predicate ReadAsDecimal(o: Seen, ds: seq<byte>, r: Seen)
    requires AllDigits(ds) && ds != []
  {
    assert AllDigits(ds[..|ds| - 1]) by { DecimalSplits(o.told, ds); }
    if DecimalValue(ds[..|ds| - 1]) <= (ULLONG_MAX - 10) / 10
    then r == Seen(o.p.(state := Head(Value), index := 0, flags := o.p.flags.(contentLength := true),
        contentLength := DecimalValue(ds)), o.told + Bytes(ValueText, ds), false)
    else r.p.errno == InvalidContentLength
  }

  lemma LengthOne(cfg: Settings, o: Seen, d: byte)
    requires !Finished(o) && o.p.state == Head(DiscardWs) && o.p.headerState == Named(ContentLength)
             && !o.p.flags.contentLength && AllDigits([d])
    ensures ReadAsDecimal(o, [d], PlainNext(cfg, o, d))
  {
    hide PlainNext;
    assert [d][..0] == [] && d in [d];
    LengthFirst(cfg, o, d);
  }

  lemma LengthMore(cfg: Settings, o: Seen, init: seq<byte>, d: byte, r: Seen)
    requires AllDigits(init) && AllDigits(init + [d]) && init != [] && ReadAsDecimal(o, init, r)
    requires !Finished(o) && o.p.headerState == Named(ContentLength)
    ensures ReadAsDecimal(o, init + [d], PlainNext(cfg, r, d))
  {
    var ds := init + [d];
    assert ds[..|ds| - 1] == init && ds[|ds| - 1] == d;
    DecimalSplits(o.told, ds);
    DecimalSplits(o.told, init);
    hide PlainNext; hide Bytes;
    if DecimalValue(init[..|init| - 1]) <= (ULLONG_MAX - 10) / 10 {
      LengthDigit(cfg, r, d);
    } else {
      FailedStays(cfg, r, d);
    }
  }

  /** A Content-Length of decimal digits is read as its value or refused, and exactly when. */
  lemma {:induction false} LengthIsDecimal(cfg: Settings, o: Seen, ds: seq<byte>)
    requires !Finished(o) && o.p.state == Head(DiscardWs) && o.p.headerState == Named(ContentLength)
             && !o.p.flags.contentLength
    requires AllDigits(ds) && ds != []
    ensures ReadAsDecimal(o, ds, All(cfg, o, ds))
    decreases |ds|
  {
    var init, last := ds[..|ds| - 1], ds[|ds| - 1];
    DecimalSplits(o.told, ds);
    AllNone(cfg, o);
    hide PlainNext; hide All; hide ReadAsDecimal; hide DecimalValue;
    AllSnoc(cfg, o, init, last);
    if init == [] {
      assert ds == [last];
      LengthOne(cfg, o, last);
    } else {
      LengthIsDecimal(cfg, o, init);
      LengthMore(cfg, o, init, last, All(cfg, o, init));
    }
  }

  lemma DecimalSplits(told: seq<Atom>, ds: seq<byte>)
    requires AllDigits(ds) && ds != []
    ensures var init, last := ds[..|ds| - 1], ds[|ds| - 1];
            ds == init + [last] && AllDigits(init) && IsNum(last) &&
            told + Bytes(ValueText, ds) == told + Bytes(ValueText, init) + [Byte(ValueText, last)] &&
            (init == [] ==> told + Bytes(ValueText, init) == told)
  {
    var init, last := ds[..|ds| - 1], ds[|ds| - 1];
    assert ds == init + [last] && last in ds;
    assert Bytes(ValueText, ds) == Bytes(ValueText, init) + [Byte(ValueText, last)];
  }

  /** A digit is added to either accumulator without wrapping, and "absent" is never the result. */
  lemma DigitAdds(cfg: Settings, p: Parser, ch: byte)
    requires Inv(p) && p.errno == OK
    ensures var o := Step(cfg, p, ch);
            p.state == Head(Value) && p.headerState == Named(ContentLength) && IsNum(ch) && o.p.errno == OK ==>
              o.p.contentLength == p.contentLength * 10 + (ch as int - 48) < ULLONG_MAX
    ensures var o := Step(cfg, p, ch);
            p.state == Chunk(Size) && Unhex(ch) != -1 && o.p.errno == OK ==>
              o.p.contentLength == p.contentLength * 16 + Unhex(ch) < ULLONG_MAX
  {
    assert IsNum(ch) ==> !EndsLine(ch) && IsHeaderChar(ch) && ch != SPACE;
  }

  /** What the code asserts in the body states, the count being the one before the byte. */
  predicate Asserts(p: Parser, nread: nat) {
    && (p.state.Chunk? ==> p.flags.chunked)
    && (p.state == Chunk(SizeStart) || p.state == Body(ChunkNextSize) ==> p.flags.chunked && nread + 1 == 1)
    && (p.state == Body(ChunkData) ==> p.flags.chunked && p.contentLength != 0 && p.contentLength != ULLONG_MAX)
    && (p.state == Body(Identity) ==> p.contentLength != 0 && p.contentLength != ULLONG_MAX)
    && (p.state == Body(ChunkDataAlmostDone) ==> p.flags.chunked && p.contentLength == 0)
    && (p.state == Body(ChunkDataDone) ==> p.flags.chunked)
  }

  /**
    Every parser reached from http_parser_init, by any calls with any bytes,
    meets the asserts of the body states: the flags, the length, and the count
    of one where a chunk size begins.
   */
  lemma {:induction false} ReachedIsOk(cfg: Settings, typ: Type, frags: seq<seq<byte>>)
    ensures var a := FeedAll(cfg, Start(Initial(typ), 0, []), frags);
            AccOk(a) && (a.p.errno == OK ==> Inv(a.p) && Asserts(a.p, a.nread))
    decreases |frags|
  {
    hide Next;
    if frags != [] {
      var init, last := frags[..|frags| - 1], frags[|frags| - 1];
      ReachedIsOk(cfg, typ, init);
      var b := FeedAll(cfg, Start(Initial(typ), 0, []), init);
      UptoKeeps(cfg, Start(b.p, b.nread, b.told), last, |last|);
    }
  }

  /**
    Within a fragment too: before each of its bytes the asserts hold, and a digit
    of a length is added without wrapping, never giving the value for "absent".
   */
  lemma AccumulatorsExact(cfg: Settings, typ: Type, frags: seq<seq<byte>>, data: seq<byte>, i: nat)
    requires i < |data|
    ensures var b := FeedAll(cfg, Start(Initial(typ), 0, []), frags);
            var a := Upto(cfg, Start(b.p, b.nread, b.told), data, i);
            var o := Step(cfg, a.p, data[i]);
            a.p.errno == OK ==>
              Asserts(a.p, a.nread) &&
              (o.p.errno == OK && a.p.state == Head(Value) && a.p.headerState == Named(ContentLength)
                  && IsNum(data[i]) ==>
                 o.p.contentLength == a.p.contentLength * 10 + (data[i] as int - 48) < ULLONG_MAX) &&
              (o.p.errno == OK && a.p.state == Chunk(Size) && Unhex(data[i]) != -1 ==>
                 o.p.contentLength == a.p.contentLength * 16 + Unhex(data[i]) < ULLONG_MAX)
  {
    ReachedIsOk(cfg, typ, frags);
    var b := FeedAll(cfg, Start(Initial(typ), 0, []), frags);
    var s := Start(b.p, b.nread, b.told);
    UptoKeeps(cfg, s, data, i);
    var a := Upto(cfg, s, data, i);
    hide FeedAll; hide Upto;
    if a.p.errno == OK {
      DigitAdds(cfg, a.p, data[i]);
    }
    hide Step;
  }
}
