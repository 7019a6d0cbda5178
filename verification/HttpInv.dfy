/**
  What every byte keeps: the asserts of the state machine hold, and no accumulator
  or counter wraps. There is a lemma for each state or group of states, in the order
  of a message: start line, URL, headers, body.
 */
module HttpInv {
  import opened Wrappers
  import opened HttpTypes
  import opened HttpStep

  /** The header states of a header's name; the name loop asserts that it meets no other. */
  predicate NameState(p: Parser) {
    match p.headerState
    case General => true
    case Naming(n) => NameIndex(n, p.index)
    case Named(_) => true
    case _ => false
  }

  /**
    The header states of a header's value; the value loop asserts that it meets neither Connection nor
    TransferEncoding.
   */
  predicate ValueState(p: Parser) {
    match p.headerState
    case Naming(_) => false
    case Named(n) => n.ContentLength? && p.flags.contentLength
    case Valuing(_) => p.index <= 16
    case MatchingTokenStart => p.index == 0
    case _ => true
  }

  /** A length that a Content-Length header or a chunk size can leave: never the mark for "absent". */
  predicate Known(n: nat) { n < ULLONG_MAX }

  predicate HeadOk(p: Parser, s: HeadState) {
    match s
    case Field => NameState(p)
    case Value => ValueState(p)
    case _ => true
  }

  predicate ChunkOk(p: Parser, s: ChunkState) {
    p.flags.chunked && (!s.SizeStart? ==> Known(p.contentLength))
  }

  predicate BodyOk(p: Parser, s: BodyState) {
    match s
    case ChunkData => p.flags.chunked && 0 < p.contentLength && Known(p.contentLength)
    case ChunkDataAlmostDone => p.flags.chunked && p.contentLength == 0
    case ChunkDataDone => p.flags.chunked
    case ChunkNextSize => p.flags.chunked
    case Identity => 0 < p.contentLength && Known(p.contentLength)
    case IdentityEof => true
  }

  predicate StateOk(p: Parser) {
    match p.state
    case Dead => true
    case Line(s) => s.ReqMethod? ==> p.index <= 12
    case Url(_) => true
    case Head(s) => HeadOk(p, s)
    case Chunk(s) => ChunkOk(p, s)
    case Body(s) => BodyOk(p, s)
  }

  /** The fields stay in the range of their bit-fields and below the "absent" mark. */
  predicate Ranges(p: Parser) {
    && p.contentLength <= ULLONG_MAX
    && p.index <= 17
    && p.major <= 999 && p.minor <= 999 && p.status <= 999
    && (p.flags.contentLength ==> Known(p.contentLength))
  }

  predicate Inv(p: Parser) { Ranges(p) && StateOk(p) }

  /** The data callback whose mark is set while the parser is in a state. */
  function KindAt(s: State): Option<Kind> {
    match s
    case Dead => None
    case Line(s) => if s.ResStatus? then Some(StatusText) else None
    case Url(_) => Some(UrlText)
    case Head(s) => if s.Field? then Some(FieldText) else if s.Value? then Some(ValueText) else None
    case Chunk(_) => None
    case Body(s) => if s.ChunkDataDone? || s.ChunkNextSize? then None else Some(BodyText)
  }

  /** The states on whose first byte the code asserts a header count of one. */
  predicate AtChunkSize(s: State) { s == Chunk(SizeStart) || s == Body(ChunkNextSize) }

  /** The notifications before which the header count is cleared. */
  predicate Clears(notes: seq<Note>) {
    notes != [] && (notes[0].HeadersComplete? || notes[0].ChunkHeader? || notes == [ChunkComplete])
  }

  /** The data callback that is marked from the start of a fragment. */
  function EntryKind(s: State): Option<Kind> { if s.Body? then None else KindAt(s) }

  /** A data callback's mark is set exactly while the state says so. */
  predicate MarkOk(was: Option<Kind>, o: Out) {
    var now := KindAt(o.p.state);
    match o.carry
    case Some(k) => (was.Some? ==> was.value == k)
        && (if o.notes == [] then now == Some(k) else EntryKind(o.p.state).None?)
    case None => EntryKind(o.p.state).None? && (was.Some? && o.notes == [] ==> now.None?)
  }

  /** What the outcome of a byte obeys, given the kind whose mark was set before it. */
  predicate Good(was: Option<Kind>, o: Out) {
    match o.p.errno
    case OK => Inv(o.p) && MarkOk(was, o) && (AtChunkSize(o.p.state) ==> Clears(o.notes)) && (o.stop ==> o.notes != [])
    case _ => o.carry.None? && o.notes == [] && !o.stop && o.p.errno != HeaderOverflow
  }

  // ----- start line -----

  lemma StartReqKeeps(p: Parser, ch: byte)
    requires Inv(p) && p.errno == OK
    ensures Good(None, StepStartReq(p, ch))
  {
  }

  lemma StartKeeps(p: Parser, ch: byte)
    requires Inv(p) && p.errno == OK && p.state.Line?
    ensures Good(None, StepStartRes(p, ch))
    ensures KindAt(p.state).None? && !p.state.line.ReqMethod? ==> Good(None, StepStartReqOrRes(p, ch))
  {
    hide ChunkOk; hide BodyOk; hide NameState; hide ValueState;
    StartReqKeeps(Fresh(p).(typ := REQUEST, state := Line(StartReq)), ch);
  }

  lemma VersionDigitKeeps(p: Parser, ch: byte, s: LineState)
    requires Inv(p) && p.errno == OK && p.state.Line? && KindAt(p.state).None?
    requires !s.ReqMethod? && !s.ResStatus?
    ensures Good(None, StepMajor(p, ch, s)) && Good(None, StepMinor(p, ch))
  {
    hide ChunkOk; hide BodyOk; hide NameState; hide ValueState;
  }

  lemma StatusDigitKeeps(p: Parser, ch: byte)
    requires Inv(p) && p.errno == OK && p.state == Line(ResStatusCode)
    ensures Good(None, StepStatusCode(p, ch))
  {
    hide ChunkOk; hide BodyOk; hide NameState; hide ValueState;
  }

  lemma MethodKeeps(p: Parser, ch: byte)
    requires Inv(p) && p.errno == OK && p.state == Line(ReqMethod)
    ensures Good(None, StepMethod(p, ch))
  {
  }

  lemma ResponseLineKeeps(p: Parser, ch: byte)
    requires Inv(p) && p.errno == OK && p.state.Line?
    requires var s := p.state.line;
             s.ResFirstStatus? || s.ResStatusStart? || s.ResStatus? || s.ResLineAlmostDone?
             || s.ReqSpaces?
    ensures Good(KindAt(p.state), StepLine(p, ch))
  {
    hide ChunkOk; hide BodyOk; hide NameState; hide ValueState;
  }

  lemma VersionKeeps(p: Parser, ch: byte)
    requires Inv(p) && p.errno == OK && p.state.Line?
    requires var s := p.state.line;
             s.ResFirstMajor? || s.ResFirstMinor? || s.ReqFirstMajor? || s.ReqFirstMinor?
             || s.ReqHttpStart? || s.ReqLineAlmostDone?
    ensures Good(None, StepLine(p, ch))
  {
    hide ChunkOk; hide BodyOk; hide NameState; hide ValueState;
  }

  lemma NumbersKeep(p: Parser, ch: byte)
    requires Inv(p) && p.errno == OK && p.state.Line?
    requires var s := p.state.line; s.ResMajor? || s.ResMinor? || s.ReqMajor? || s.ReqMinor?
    ensures Good(None, StepLine(p, ch))
  {
    hide ChunkOk; hide BodyOk; hide NameState; hide ValueState;
    VersionDigitKeeps(p, ch, ResFirstMinor);
    VersionDigitKeeps(p, ch, ReqFirstMinor);
  }

  lemma ConstantsKeep(p: Parser, ch: byte)
    requires Inv(p) && p.errno == OK && p.state.Line?
    requires var s := p.state.line;
             s.ResOrRespH? || s.ResH? || s.ResHT? || s.ResHTT? || s.ResHTTP? || s.ReqH?
             || s.ReqHT? || s.ReqHTT? || s.ReqHTTP?
    ensures Good(None, StepLine(p, ch))
  {
    hide ChunkOk; hide BodyOk; hide NameState; hide ValueState;
  }

  lemma LineKeeps(p: Parser, ch: byte)
    requires Inv(p) && p.errno == OK && p.state.Line?
    ensures Good(KindAt(p.state), StepLine(p, ch))
  {
    match p.state.line
    case StartReqOrRes => StartKeeps(p, ch);
    case StartRes => StartKeeps(p, ch);
    case StartReq => StartReqKeeps(p, ch);
    case ResOrRespH => ConstantsKeep(p, ch);
    case ReqMethod => MethodKeeps(p, ch);
    case ResMajor => NumbersKeep(p, ch);
    case ResMinor => NumbersKeep(p, ch);
    case ReqMajor => NumbersKeep(p, ch);
    case ReqMinor => NumbersKeep(p, ch);
    case ResStatusCode => StatusDigitKeeps(p, ch);
    case ResFirstStatus => ResponseLineKeeps(p, ch);
    case ResStatusStart => ResponseLineKeeps(p, ch);
    case ResStatus => ResponseLineKeeps(p, ch);
    case ResLineAlmostDone => ResponseLineKeeps(p, ch);
    case ReqSpaces => ResponseLineKeeps(p, ch);
    case ResFirstMajor => VersionKeeps(p, ch);
    case ResFirstMinor => VersionKeeps(p, ch);
    case ReqFirstMajor => VersionKeeps(p, ch);
    case ReqFirstMinor => VersionKeeps(p, ch);
    case ReqHttpStart => VersionKeeps(p, ch);
    case ReqLineAlmostDone => VersionKeeps(p, ch);
    case _ => ConstantsKeep(p, ch);
  }

  lemma UrlCarryKeeps(p: Parser, s: UrlState)
    requires Ranges(p) && p.errno == OK
    ensures Good(Some(UrlText), Carry(p, Url(s), UrlText))
  {
  }

  lemma UrlKeeps(p: Parser, ch: byte)
    requires Inv(p) && p.errno == OK && p.state.Url?
    ensures Good(Some(UrlText), StepUrl(p, ch))
  {
    var s := UrlChar(p.state.url, ch);
    if s.Some? {
      UrlCarryKeeps(p, s.value);
    }
  }

  // ----- headers -----

  lemma HeadersDoneKeeps(p: Parser)
    requires Ranges(p) && p.errno == OK
    ensures Good(None, HeadersDone(p)) && Good(None, MessageDone(p))
  {
  }

  lemma HeadersAlmostDoneKeeps(cfg: Settings, p: Parser, ch: byte)
    requires Ranges(p) && p.errno == OK
    ensures Good(None, StepHeadersAlmostDone(cfg, p, ch))
  {
    HeadersDoneKeeps(p);
    var q := p.(upgrade := (p.flags.upgrade && p.flags.connUpgrade) || p.verb == CONNECT);
    HeadersDoneKeeps(q);
    HeadersDoneKeeps(q.(flags := q.flags.(skipBody := true)));
    HeadersDoneKeeps(q.(upgrade := true, flags := q.flags.(skipBody := true)));
  }

  lemma FieldStartKeeps(cfg: Settings, p: Parser, ch: byte)
    requires Ranges(p) && p.errno == OK
    ensures Good(None, StepFieldStart(cfg, p, ch))
  {
    HeadersAlmostDoneKeeps(cfg, p.(state := Head(HeadersAlmostDone)), ch);
  }

  lemma FieldKeeps(p: Parser, ch: byte)
    requires Inv(p) && p.errno == OK && p.state == Head(Field)
    ensures Good(Some(FieldText), StepField(p, ch))
  {
  }

  lemma LengthStarts(p: Parser, ch: byte)
    requires Ranges(p) && p.errno == OK && p.headerState == Named(ContentLength)
    ensures Good(None, ValueStart(p, ch))
  {
  }

  lemma CodingStarts(p: Parser, ch: byte)
    requires Ranges(p) && p.errno == OK && p.headerState == Named(TransferEncoding)
    ensures Good(None, ValueStart(p, ch))
  {
  }

  lemma ConnectionStarts(p: Parser, ch: byte)
    requires Ranges(p) && p.errno == OK && p.headerState == Named(Connection)
    ensures Good(None, ValueStart(p, ch))
  {
  }

  lemma OtherStarts(p: Parser, ch: byte)
    requires Ranges(p) && p.errno == OK && (p.headerState.Named? ==> p.headerState == Named(Upgrade))
    ensures Good(None, ValueStart(p, ch))
  {
  }

  lemma ValueStartKeeps(p: Parser, ch: byte)
    requires Ranges(p) && p.errno == OK
    ensures Good(None, ValueStart(p, ch))
  {
    hide ValueStart; hide Good;
    match p.headerState
    case Named(ContentLength) => LengthStarts(p, ch);
    case Named(TransferEncoding) => CodingStarts(p, ch);
    case Named(Connection) => ConnectionStarts(p, ch);
    case _ => OtherStarts(p, ch);
  }

  lemma WordKeeps(p: Parser, c: byte, v: ValueMatch)
    requires Ranges(p) && p.errno == OK && p.headerState == Valuing(v) && p.index <= 16
    ensures var q := WordChar(p, c, v); q.state == p.state && q.errno == OK && Ranges(q) && ValueState(q)
  {
  }

  lemma TokenKeeps(p: Parser, ch: byte)
    requires Ranges(p) && p.errno == OK && p.headerState.Valued?
    ensures var q := EndToken(p, ch); q.state == p.state && q.errno == OK && Ranges(q) && ValueState(q)
  {
  }

  lemma ValueCharKeeps(p: Parser, ch: byte)
    requires Inv(p) && p.errno == OK && p.state == Head(Value)
    ensures var q := ValueChar(p, ch); q.state == p.state && Ranges(q) && (q.errno == OK ==> ValueState(q))
    ensures ValueChar(p, ch).errno != HeaderOverflow
  {
    hide ChunkOk; hide BodyOk; hide NameState;
    match p.headerState
    case Valuing(v) => WordKeeps(p, Lower(ch), v);
    case Valued(_) => TokenKeeps(p, ch);
    case _ =>
  }

  lemma ValueKeeps(cfg: Settings, p: Parser, ch: byte)
    requires Inv(p) && p.errno == OK && p.state == Head(Value)
    ensures Good(Some(ValueText), StepValue(cfg, p, ch))
  {
    ValueCharKeeps(p, ch);
    hide ValueChar;
  }

  /** The header before is done with; nothing it leaves takes a field out of its range. */
  lemma EndHeaderKeeps(p: Parser)
    requires Ranges(p)
    ensures Ranges(EndHeader(p)) && EndHeader(p).errno == p.errno
  {
  }

  lemma BetweenHeadersKeeps(cfg: Settings, p: Parser, ch: byte)
    requires Inv(p) && p.errno == OK && (p.state == Head(DiscardLws) || p.state == Head(ValueLws))
    ensures Good(None, StepDiscardLws(cfg, p, ch)) && Good(None, StepValueLws(cfg, p, ch))
  {
    assert Good(None, Go(p, Head(DiscardWs)));
    ValueStartKeeps(p, ch);
    EndHeaderKeeps(p);
    hide Good; hide EndHeader; hide StepFieldStart; hide ValueStart; hide Go;
    FieldStartKeeps(cfg, EndHeader(p).(state := Head(FieldStart)), ch);
  }

  lemma GoGood(p: Parser, s: HeadState)
    requires Ranges(p) && p.errno == OK && !s.Field? && !s.Value?
    ensures Good(None, Go(p, Head(s)))
  {
  }

  lemma FailGood(p: Parser, e: Errno)
    requires e != OK && e != HeaderOverflow
    ensures Good(None, Fail(p, e))
  {
  }

  lemma BetweenValuesKeeps(cfg: Settings, p: Parser, ch: byte)
    requires Inv(p) && p.errno == OK && (p.state == Head(DiscardWs) || p.state == Head(DiscardWsAlmostDone)
             || p.state == Head(AlmostDone))
    ensures Good(None, StepHead(cfg, p, ch))
  {
    hide Good; hide Go; hide Fail; hide ValueStart;
    ValueStartKeeps(p, ch);
    GoGood(p, DiscardWs);
    GoGood(p, DiscardWsAlmostDone);
    GoGood(p, DiscardLws);
    GoGood(p, ValueLws);
    FailGood(p, Strict);
    FailGood(p, LfExpected);
  }

  lemma HeadKeeps(cfg: Settings, p: Parser, ch: byte)
    requires Inv(p) && p.errno == OK && p.state.Head?
    ensures Good(KindAt(p.state), StepHead(cfg, p, ch))
  {
    match p.state.head
    case FieldStart => FieldStartKeeps(cfg, p, ch);
    case Field => FieldKeeps(p, ch);
    case Value => ValueKeeps(cfg, p, ch);
    case HeadersAlmostDone => HeadersAlmostDoneKeeps(cfg, p, ch);
    case DiscardLws => BetweenHeadersKeeps(cfg, p, ch);
    case ValueLws => BetweenHeadersKeeps(cfg, p, ch);
    case _ => BetweenValuesKeeps(cfg, p, ch);
  }

  // ----- body -----

  lemma ChunkSizeKeeps(p: Parser, ch: byte)
    requires Ranges(p) && p.errno == OK && p.flags.chunked
    ensures Good(None, ChunkSizeStart(p, ch)) && (p.state == Chunk(Size) && Known(p.contentLength)
            ==> Good(None, ChunkSizeDigit(p, ch)))
  {
  }

  lemma ChunkKeeps(p: Parser, ch: byte)
    requires Inv(p) && p.errno == OK && p.state.Chunk?
    ensures Good(None, StepChunk(p, ch))
  {
    ChunkSizeKeeps(p, ch);
  }

  lemma ChunkBodyKeeps(p: Parser, ch: byte)
    requires Inv(p) && p.errno == OK
    requires p.state == Body(ChunkData) || p.state == Body(ChunkDataAlmostDone) || p.state == Body(ChunkDataDone)
    ensures Good(KindAt(p.state), StepBody(p, ch))
  {
  }

  lemma IdentityKeeps(p: Parser, ch: byte)
    requires Inv(p) && p.errno == OK && p.state == Body(Identity)
    ensures Good(Some(BodyText), StepBody(p, ch))
  {
    HeadersDoneKeeps(p.(contentLength := 0));
  }

  lemma BodyKeeps(p: Parser, ch: byte)
    requires Inv(p) && p.errno == OK && p.state.Body?
    ensures Good(KindAt(p.state), StepBody(p, ch))
  {
    match p.state.body
    case ChunkNextSize => ChunkSizeKeeps(p, ch);
    case Identity => IdentityKeeps(p, ch);
    case IdentityEof =>
    case _ => ChunkBodyKeeps(p, ch);
  }

  lemma StepKeeps(cfg: Settings, p: Parser, ch: byte)
    requires Inv(p) && p.errno == OK
    ensures Good(KindAt(p.state), Step(cfg, p, ch))
  {
    match p.state
    case Dead =>
    case Line(_) => LineKeeps(p, ch);
    case Url(_) => UrlKeeps(p, ch);
    case Head(_) => HeadKeeps(cfg, p, ch);
    case Chunk(_) => ChunkKeeps(p, ch);
    case Body(_) => BodyKeeps(p, ch);
  }

  /** The assert on the length of a body. */
  lemma BodyLength(p: Parser)
    requires Inv(p) && (p.state == Body(ChunkData) || p.state == Body(Identity))
    ensures p.contentLength != 0 && p.contentLength != ULLONG_MAX
    ensures p.state == Body(ChunkData) ==> p.flags.chunked
  {
  }

  /** The asserts of the chunk states. */
  lemma ChunkAsserts(p: Parser)
    requires Inv(p)
    ensures p.state.Chunk? ==> p.flags.chunked
    ensures p.state == Body(ChunkDataAlmostDone) ==> p.flags.chunked && p.contentLength == 0
    ensures p.state == Body(ChunkDataDone) || p.state == Body(ChunkNextSize) ==> p.flags.chunked
  {
  }
}
