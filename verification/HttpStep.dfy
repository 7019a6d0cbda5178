/** What one byte does to the parser. */
module HttpStep {
  import opened Wrappers
  import opened HttpTypes

  /**
    What one byte leads to: the parser, the data callback the byte belongs to, the notifications after it, and
    whether to stop for an upgrade.
   */
  datatype Out = Out(p: Parser, carry: Option<Kind>, notes: seq<Note>, stop: bool)

  /** What on_headers_complete may answer: 0, 1 and 2. */
  datatype Answer = Proceed | NoBody | NoBodyUpgrade

  /** The user's side: the answer of on_headers_complete, and whether illegal bytes in header values are accepted. */
  datatype Settings = Settings(answer: Parser -> Answer, lenient: bool)

  function Go(p: Parser, s: State): Out { Out(p.(state := s), None, [], false) }

  function Carry(p: Parser, s: State, k: Kind): Out { Out(p.(state := s), Some(k), [], false) }

  function Fail(p: Parser, e: Errno): Out { Out(p.(errno := e), None, [], false) }

  function Tell(p: Parser, s: State, n: Note): Out { Out(p.(state := s), None, [n], false) }

  // ----- start line -----

  function Expect(p: Parser, ch: byte, c: char, s: LineState): Out {
    if Is(ch, c) then Go(p, Line(s)) else Fail(p, Strict)
  }

  function Fresh(p: Parser): Parser { p.(flags := NO_FLAGS, contentLength := ULLONG_MAX) }

  function FirstMethod(ch: byte): Option<nat> {
    if Is(ch, 'A') then Some(19) else if Is(ch, 'B') then Some(16) else if Is(ch, 'C') then Some(CONNECT)
    else if Is(ch, 'D') then Some(0) else if Is(ch, 'G') then Some(1) else if Is(ch, 'H') then Some(HEAD)
    else if Is(ch, 'L') then Some(LOCK) else if Is(ch, 'M') then Some(MKCOL) else if Is(ch, 'N') then Some(25)
    else if Is(ch, 'O') then Some(6) else if Is(ch, 'P') then Some(POST) else if Is(ch, 'R') then Some(REPORT)
    else if Is(ch, 'S') then Some(SUBSCRIBE) else if Is(ch, 'T') then Some(7) else if Is(ch, 'U') then Some(UNLOCK)
    else None
  }

  /** The method a different letter at this position switches to. */
  function SwitchMethod(m: nat, index: nat, ch: byte): Option<nat> {
    if m == POST && index == 1 && Is(ch, 'U') then Some(PUT)
    else if m == POST && index == 1 && Is(ch, 'A') then Some(28)
    else if m == CONNECT && index == 1 && Is(ch, 'H') then Some(22)
    else if m == CONNECT && index == 2 && Is(ch, 'P') then Some(8)
    else if m == MKCOL && index == 1 && Is(ch, 'O') then Some(11)
    else if m == MKCOL && index == 1 && Is(ch, 'E') then Some(23)
    else if m == MKCOL && index == 2 && Is(ch, 'A') then Some(21)
    else if m == MKCOL && index == 3 && Is(ch, 'A') then Some(30)
    else if m == SUBSCRIBE && index == 1 && Is(ch, 'E') then Some(14)
    else if m == REPORT && index == 2 && Is(ch, 'B') then Some(17)
    else if m == POST && index == 1 && Is(ch, 'R') then Some(PROPFIND)
    else if m == PROPFIND && index == 4 && Is(ch, 'P') then Some(13)
    else if m == PUT && index == 2 && Is(ch, 'R') then Some(29)
    else if m == LOCK && index == 1 && Is(ch, 'I') then Some(31)
    else if m == UNLOCK && index == 2 && Is(ch, 'S') then Some(27)
    else if m == UNLOCK && index == 2 && Is(ch, 'B') then Some(18)
    else if m == UNLOCK && index == 3 && Is(ch, 'I') then Some(32)
    else None
  }

  function StepStartReq(p: Parser, ch: byte): Out {
    if ch == CR || ch == LF then Go(p, Line(StartReq)) else
    var p := Fresh(p);
    match FirstMethod(ch)
    case None => Fail(if IsAlpha(ch) then p.(verb := 0, index := 1) else p, InvalidMethod)
    case Some(m) => Tell(p.(verb := m, index := 1), Line(ReqMethod), MessageBegin)
  }

  function StepStartRes(p: Parser, ch: byte): Out {
    var p := Fresh(p);
    if Is(ch, 'H') then Tell(p, Line(ResH), MessageBegin)
    else if ch == CR || ch == LF then Tell(p, Line(StartRes), MessageBegin)
    else Fail(p, InvalidConstant)
  }

  function StepStartReqOrRes(p: Parser, ch: byte): Out {
    if ch == CR || ch == LF then Go(p, p.state)
    else if Is(ch, 'H') then Tell(Fresh(p), Line(ResOrRespH), MessageBegin)
    else StepStartReq(Fresh(p).(typ := REQUEST, state := Line(StartReq)), ch)
  }

  function StepResOrRespH(p: Parser, ch: byte): Out {
    if Is(ch, 'T') then Go(p.(typ := RESPONSE), Line(ResHT))
    else if Is(ch, 'E') then Go(p.(typ := REQUEST, verb := HEAD, index := 2), Line(ReqMethod))
    else Fail(p, InvalidConstant)
  }

  /** A version or status number: one more digit, at most 999. */
  function Digits(n: nat, ch: byte): nat
    requires IsNum(ch)
  {
    n * 10 + (ch - 48)
  }

  function StepMajor(p: Parser, ch: byte, minor: LineState): Out {
    if Is(ch, '.') then Go(p, Line(minor))
    else if !IsNum(ch) then Fail(p, InvalidVersion)
    else
      var n := Digits(p.major, ch);
      if n > 999 then Fail(p.(major := n), InvalidVersion) else Go(p.(major := n), p.state)
  }

  function StepMinor(p: Parser, ch: byte): Out {
    if !IsNum(ch) then Fail(p, InvalidVersion)
    else
      var n := Digits(p.minor, ch);
      if n > 999 then Fail(p.(minor := n), InvalidVersion) else Go(p.(minor := n), p.state)
  }

  function StepStatusCode(p: Parser, ch: byte): Out {
    if IsNum(ch) then
      var n := Digits(p.status, ch);
      if n > 999 then Fail(p.(status := n), InvalidStatus) else Go(p.(status := n), p.state)
    else if ch == SPACE then Go(p, Line(ResStatusStart))
    else if ch == CR then Go(p, Line(ResLineAlmostDone))
    else if ch == LF then Go(p, Head(FieldStart))
    else Fail(p, InvalidStatus)
  }

  function StepMethod(p: Parser, ch: byte): Out {
    var next := MethodChar(p.verb, p.index);
    var q := p.(index := p.index + 1);
    if ch == 0 then Fail(p, InvalidMethod)
    else if ch == SPACE && next == 0 then Go(q, Line(ReqSpaces))
    else if ch == next then Go(q, p.state)
    else if IsAlpha(ch) then
      match SwitchMethod(p.verb, p.index, ch)
      case None => Fail(p, InvalidMethod)
      case Some(m) => Go(q.(verb := m), p.state)
    else if Is(ch, '-') && p.index == 1 && p.verb == MKCOL then Go(q.(verb := MSEARCH), p.state)
    else Fail(p, InvalidMethod)
  }

  function StepSpaces(p: Parser, ch: byte): Out {
    if ch == SPACE then Go(p, p.state)
    else
      var s := if p.verb == CONNECT then UrlChar(ServerStart, ch)
               else if Is(ch, '/') || Is(ch, '*') then Some(Path)
               else if IsAlpha(ch) then Some(Schema)
               else None;
      if s.None? then Fail(p.(state := Dead), InvalidUrl) else Carry(p, Url(s.value), UrlText)
  }

  function StepStatusText(p: Parser, ch: byte): Out {
    if ch == CR then Go(p, Line(ResLineAlmostDone))
    else if ch == LF then Go(p, Head(FieldStart))
    else Carry(p, Line(ResStatus), StatusText)
  }

  function StepLine(p: Parser, ch: byte): Out
    requires p.state.Line?
  {
    match p.state.line
    case StartReqOrRes => StepStartReqOrRes(p, ch)
    case ResOrRespH => StepResOrRespH(p, ch)
    case StartRes => StepStartRes(p, ch)
    case ResH => Expect(p, ch, 'T', ResHT)
    case ResHT => Expect(p, ch, 'T', ResHTT)
    case ResHTT => Expect(p, ch, 'P', ResHTTP)
    case ResHTTP => Expect(p, ch, '/', ResFirstMajor)
    case ResFirstMajor => if IsNum(ch) then Go(p.(major := ch - 48), Line(ResMajor)) else Fail(p, InvalidVersion)
    case ResMajor => StepMajor(p, ch, ResFirstMinor)
    case ResFirstMinor => if IsNum(ch) then Go(p.(minor := ch - 48), Line(ResMinor)) else Fail(p, InvalidVersion)
    case ResMinor => if ch == SPACE then Go(p, Line(ResFirstStatus)) else StepMinor(p, ch)
    case ResFirstStatus =>
      if IsNum(ch) then Go(p.(status := ch - 48), Line(ResStatusCode))
      else if ch == SPACE then Go(p, p.state) else Fail(p, InvalidStatus)
    case ResStatusCode => StepStatusCode(p, ch)
    case ResStatusStart =>
      if ch == CR || ch == LF then StepStatusText(p, ch) else Carry(p.(index := 0), Line(ResStatus), StatusText)
    case ResStatus => StepStatusText(p, ch)
    case ResLineAlmostDone => if ch == LF then Go(p, Head(FieldStart)) else Fail(p, Strict)
    case StartReq => StepStartReq(p, ch)
    case ReqMethod => StepMethod(p, ch)
    case ReqSpaces => StepSpaces(p, ch)
    case ReqHttpStart =>
      if Is(ch, 'H') then Go(p, Line(ReqH)) else if ch == SPACE then Go(p, p.state) else Fail(p, InvalidConstant)
    case ReqH => Expect(p, ch, 'T', ReqHT)
    case ReqHT => Expect(p, ch, 'T', ReqHTT)
    case ReqHTT => Expect(p, ch, 'P', ReqHTTP)
    case ReqHTTP => Expect(p, ch, '/', ReqFirstMajor)
    case ReqFirstMajor => if 49 <= ch <= 57 then Go(p.(major := ch - 48), Line(ReqMajor)) else Fail(p, InvalidVersion)
    case ReqMajor => StepMajor(p, ch, ReqFirstMinor)
    case ReqFirstMinor => if IsNum(ch) then Go(p.(minor := ch - 48), Line(ReqMinor)) else Fail(p, InvalidVersion)
    case ReqMinor =>
      if ch == CR then Go(p, Line(ReqLineAlmostDone)) else if ch == LF then Go(p, Head(FieldStart))
          else StepMinor(p, ch)
    case ReqLineAlmostDone => if ch == LF then Go(p, Head(FieldStart)) else Fail(p, LfExpected)
  }

  // ----- URL -----

  /** parse_url_char: the state after a character of a URL, none for an illegal one. */
  function UrlChar(s: UrlState, ch: byte): Option<UrlState> {
    if ch == SPACE || ch == CR || ch == LF || ch == TAB || ch == 12 then None else
    match s
    case Schema => if IsAlpha(ch) then Some(Schema) else if Is(ch, ':') then Some(SchemaSlash) else None
    case SchemaSlash => if Is(ch, '/') then Some(SchemaSlashSlash) else None
    case SchemaSlashSlash => if Is(ch, '/') then Some(ServerStart) else None
    case ServerWithAt => if Is(ch, '@') then None else ServerChar(ch)
    case ServerStart => ServerChar(ch)
    case Server => ServerChar(ch)
    case Path =>
      if IsUrlChar(ch) then Some(Path) else if Is(ch, '?') then Some(QueryStart) else if Is(ch, '#')
          then Some(FragmentStart) else None
    case QueryStart => QueryChar(ch)
    case Query => QueryChar(ch)
    case FragmentStart =>
      if IsUrlChar(ch) || Is(ch, '?') then Some(Fragment) else if Is(ch, '#') then Some(FragmentStart) else None
    case Fragment => if IsUrlChar(ch) || Is(ch, '?') || Is(ch, '#') then Some(Fragment) else None
  }

  function ServerChar(ch: byte): Option<UrlState> {
    if Is(ch, '/') then Some(Path) else if Is(ch, '?') then Some(QueryStart) else if Is(ch, '@') then Some(ServerWithAt)
    else if IsUserinfoChar(ch) || Is(ch, '[') || Is(ch, ']') then Some(Server) else None
  }

  function QueryChar(ch: byte): Option<UrlState> {
    if IsUrlChar(ch) || Is(ch, '?') then Some(Query) else if Is(ch, '#') then Some(FragmentStart) else None
  }

  function StepUrl(p: Parser, ch: byte): Out
    requires p.state.Url?
  {
    var early := p.state.url.Schema? || p.state.url.SchemaSlash? || p.state.url.SchemaSlashSlash?
        || p.state.url.ServerStart?;
    if ch == SPACE || ch == CR || ch == LF then
      if early then Fail(p, InvalidUrl)
      else if ch == SPACE then Go(p, Line(ReqHttpStart))
      else Go(p.(major := 0, minor := 9), if ch == CR then Line(ReqLineAlmostDone) else Head(FieldStart))
    else
      match UrlChar(p.state.url, ch)
      case None => Fail(p.(state := Dead), InvalidUrl)
      case Some(s) => Carry(p, Url(s), UrlText)
  }

  // ----- end of a message -----

  predicate NeedsEof(p: Parser) {
    && p.typ != REQUEST
    && !(p.status / 100 == 1 || p.status == 204 || p.status == 304 || p.flags.skipBody)
    && !(p.flags.chunked || p.contentLength != ULLONG_MAX)
  }

  predicate ShouldKeepAlive(p: Parser) {
    && (if p.major > 0 && p.minor > 0 then !p.flags.close else p.flags.keepAlive)
    && !NeedsEof(p)
  }

  /** NEW_MESSAGE */
  function NewMessage(p: Parser): State {
    if !ShouldKeepAlive(p) then Dead else if p.typ == REQUEST then Line(StartReq) else Line(StartRes)
  }

  function MessageDone(p: Parser): Out {
    Out(p.(state := NewMessage(p)), None, [MessageComplete], p.upgrade)
  }

  /** s_headers_done, on the line feed that ends the headers. */
  function HeadersDone(p: Parser): Out {
    var hasBody := p.flags.chunked || (p.contentLength > 0 && p.contentLength != ULLONG_MAX);
    var done := Out(p.(state := NewMessage(p)), None, [HeadersComplete, MessageComplete], false);
    if p.upgrade && (p.verb == CONNECT || p.flags.skipBody || !hasBody) then done.(stop := true)
    else if p.flags.skipBody then done
    else if p.flags.chunked then Tell(p, Chunk(SizeStart), HeadersComplete)
    else if p.contentLength == 0 then done
    else if p.contentLength != ULLONG_MAX then Tell(p, Body(Identity), HeadersComplete)
    else if !NeedsEof(p) then done
    else Tell(p, Body(IdentityEof), HeadersComplete)
  }

  /** s_headers_almost_done, on a byte that has to be the line feed. */
  function StepHeadersAlmostDone(cfg: Settings, p: Parser, ch: byte): Out {
    if ch != LF then Fail(p, Strict)
    else if p.flags.trailing then
      var o := MessageDone(p);
      o.(notes := [ChunkComplete] + o.notes)
    else if p.flags.chunked && p.flags.contentLength then Fail(p, UnexpectedContentLength)
    else
      var p := p.(upgrade := (p.flags.upgrade && p.flags.connUpgrade) || p.verb == CONNECT);
      match cfg.answer(p)
      case Proceed => HeadersDone(p)
      case NoBody => HeadersDone(p.(flags := p.flags.(skipBody := true)))
      case NoBodyUpgrade => HeadersDone(p.(upgrade := true, flags := p.flags.(skipBody := true)))
  }

  // ----- headers -----

  function StepFieldStart(cfg: Settings, p: Parser, ch: byte): Out {
    if ch == CR then Go(p, Head(HeadersAlmostDone))
    else if ch == LF then StepHeadersAlmostDone(cfg, p.(state := Head(HeadersAlmostDone)), ch)
    else
      var c := Token(ch);
      if c == 0 then Fail(p, InvalidHeaderToken)
      else
        var h := if Is(c, 'c') then Naming(C) else if Is(c, 'p') then Naming(MatchingProxyConnection)
                 else if Is(c, 't') then Naming(MatchingTransferEncoding) else if Is(c, 'u')
                     then Naming(MatchingUpgrade) else General;
        Carry(p.(index := 0, headerState := h), Head(Field), FieldText)
  }

  /** One more character of a word being matched; the end of the word counts as a zero character. */
  function Match(p: Parser, c: byte, word: string, full: HeaderState, off: HeaderState): (q: Parser)
    requires |word| <= 17
    ensures q == p.(index := p.index + 1, headerState := q.headerState)
    ensures q.headerState == full || q.headerState == off
            || (q.headerState == p.headerState && (c == 0 || q.index < 16))
  {
    var i := p.index + 1;
    var p := p.(index := i);
    if i > |word| || (if i < |word| then c != word[i] as int else c != 0) then p.(headerState := off)
    else if i == |word| - 1 then p.(headerState := full)
    else p
  }

  /** The index while a name is matched. */
  predicate NameIndex(n: NameMatch, index: nat) {
    match n case C => index == 0 case CO => index == 1 case CON => index == 2 case _ => index <= 16
  }

  function NameChar(p: Parser, c: byte, n: NameMatch): (q: Parser)
    requires p.headerState == Naming(n)
    ensures q == p.(index := p.index + 1, headerState := q.headerState)
    ensures q.headerState.General? || q.headerState.Named? || q.headerState.Naming?
    ensures q.headerState.Naming? && c != 0 && NameIndex(n, p.index) ==> NameIndex(q.headerState.naming, q.index)
  {
    match n
    case C => p.(index := p.index + 1, headerState := if Is(c, 'o') then Naming(CO) else General)
    case CO => p.(index := p.index + 1, headerState := if Is(c, 'n') then Naming(CON) else General)
    case CON =>
      var h := if Is(c, 'n') then Naming(MatchingConnection) else if Is(c, 't') then Naming(MatchingContentLength)
          else General;
      p.(index := p.index + 1, headerState := h)
    case MatchingConnection => Match(p, c, "connection", Named(Connection), General)
    case MatchingProxyConnection => Match(p, c, "proxy-connection", Named(Connection), General)
    case MatchingContentLength => Match(p, c, "content-length", Named(ContentLength), General)
    case MatchingTransferEncoding => Match(p, c, "transfer-encoding", Named(TransferEncoding), General)
    case MatchingUpgrade => Match(p, c, "upgrade", Named(Upgrade), General)
  }

  function FieldChar(p: Parser, ch: byte, c: byte): (q: Parser)
    ensures q == p.(index := q.index, headerState := q.headerState)
  {
    match p.headerState
    case Naming(n) => NameChar(p, c, n)
    case _ => if ch != SPACE then p.(headerState := General) else p
  }

  function StepField(p: Parser, ch: byte): Out {
    var c := Token(ch);
    if c != 0 then Carry(FieldChar(p, ch, c), Head(Field), FieldText)
    else if Is(ch, ':') then Go(p, Head(DiscardWs))
    else Fail(p, InvalidHeaderToken)
  }

  /** s_header_value_start */
  function ValueStart(p: Parser, ch: byte): Out {
    var c := Lower(ch);
    var p := p.(state := Head(Value), index := 0);
    match p.headerState
    case Named(Upgrade) => Carry(p.(flags := p.flags.(upgrade := true), headerState := General), Head(Value), ValueText)
    case Named(TransferEncoding) => Carry(p.(headerState := if Is(c, 'c') then Valuing(MatchingChunked)
        else General), Head(Value), ValueText)
    case Named(ContentLength) =>
      if !IsNum(ch) then Fail(p, InvalidContentLength)
      else if p.flags.contentLength then Fail(p, UnexpectedContentLength)
      else Carry(p.(flags := p.flags.(contentLength := true), contentLength := ch - 48), Head(Value), ValueText)
    case Named(Connection) =>
      var h := if Is(c, 'k') then Valuing(MatchingKeepAlive) else if Is(c, 'c') then Valuing(MatchingClose)
               else if Is(c, 'u') then Valuing(MatchingConnUpgrade) else MatchingToken;
      Carry(p.(headerState := h), Head(Value), ValueText)
    case MatchingTokenStart => Carry(p, Head(Value), ValueText)
    case _ => Carry(p.(headerState := General), Head(Value), ValueText)
  }

  /** The token of a Connection header is complete. */
  function SetConnection(f: Flags, h: HeaderState): Flags {
    match h
    case Valued(ConnectionKeepAlive) => f.(keepAlive := true)
    case Valued(ConnectionClose) => f.(close := true)
    case Valued(ConnectionUpgrade) => f.(connUpgrade := true)
    case _ => f
  }

  function EndToken(p: Parser, ch: byte): Parser {
    if Is(ch, ',')
        then p.(flags := SetConnection(p.flags, p.headerState), headerState := MatchingTokenStart, index := 0)
    else if ch != SPACE then p.(headerState := MatchingToken)
    else p
  }

  /** One more decimal digit, in 64 bits. */
  function Decimal(n: nat, digit: nat): (r: nat)
    requires digit < 10
    ensures n <= (ULLONG_MAX - 10) / 10 ==> r == n * 10 + digit < ULLONG_MAX
  {
    (n * 10 + digit) % (ULLONG_MAX + 1)
  }

  /** One more hexadecimal digit, in 64 bits. */
  function Hexadecimal(n: nat, digit: nat): (r: nat)
    requires digit < 16
    ensures n <= (ULLONG_MAX - 16) / 16 ==> r == n * 16 + digit < ULLONG_MAX
  {
    (n * 16 + digit) % (ULLONG_MAX + 1)
  }

  function LengthChar(p: Parser, ch: byte): Parser {
    if ch == SPACE then p
    else if !IsNum(ch) || (ULLONG_MAX - 10) / 10 < p.contentLength then p.(errno := InvalidContentLength)
    else p.(contentLength := Decimal(p.contentLength, ch - 48))
  }

  function WordChar(p: Parser, c: byte, v: ValueMatch): (q: Parser)
    requires p.headerState == Valuing(v)
    ensures q == p.(index := p.index + 1, headerState := q.headerState)
    ensures q.headerState.General? || q.headerState.MatchingToken? || q.headerState.Valued?
            || (q.headerState == Valuing(v) && (c == 0 || q.index < 16))
  {
    match v
    case MatchingChunked => Match(p, c, "chunked", Valued(TransferEncodingChunked), General)
    case MatchingKeepAlive => Match(p, c, "keep-alive", Valued(ConnectionKeepAlive), MatchingToken)
    case MatchingClose => Match(p, c, "close", Valued(ConnectionClose), MatchingToken)
    case MatchingConnUpgrade => Match(p, c, "upgrade", Valued(ConnectionUpgrade), MatchingToken)
  }

  function TokenStart(c: byte): HeaderState {
    if Is(c, 'k') then Valuing(MatchingKeepAlive) else if Is(c, 'c') then Valuing(MatchingClose)
    else if Is(c, 'u') then Valuing(MatchingConnUpgrade) else if Token(c) != 0 then MatchingToken
    else if c == SPACE || c == TAB then MatchingTokenStart else General
  }

  /** A character of a header value that is neither CR nor LF. */
  function ValueChar(p: Parser, ch: byte): (q: Parser)
    ensures q.state == p.state && (q.errno == p.errno || q.errno == InvalidContentLength)
  {
    match p.headerState
    case General => p
    case Named(n) => if n.ContentLength? then LengthChar(p, ch) else p.(headerState := General)
    case Naming(_) => p.(headerState := General)
    case Valuing(v) => WordChar(p, Lower(ch), v)
    case Valued(v) => if v.TransferEncodingChunked? then (if ch != SPACE then p.(headerState := General) else p)
        else EndToken(p, ch)
    case MatchingTokenStart => p.(headerState := TokenStart(Lower(ch)))
    case MatchingToken => if Is(ch, ',') then p.(headerState := MatchingTokenStart, index := 0) else p
  }

  function StepValue(cfg: Settings, p: Parser, ch: byte): Out {
    if ch == CR then Go(p, Head(AlmostDone))
    else if ch == LF then Go(p, Head(ValueLws))
    else if !cfg.lenient && !IsHeaderChar(ch) then Fail(p, InvalidHeaderToken)
    else
      var q := ValueChar(p, ch);
      if q.errno != OK then Out(q, None, [], false) else Carry(q, Head(Value), ValueText)
  }

  /** The header is finished: its value takes effect. */
  function EndHeader(p: Parser): Parser {
    if p.headerState == Valued(TransferEncodingChunked) then p.(flags := p.flags.(chunked := true))
    else p.(flags := SetConnection(p.flags, p.headerState))
  }

  function StepValueLws(cfg: Settings, p: Parser, ch: byte): Out {
    if ch == SPACE || ch == TAB then ValueStart(p, ch)
    else StepFieldStart(cfg, EndHeader(p).(state := Head(FieldStart)), ch)
  }

  function StepDiscardLws(cfg: Settings, p: Parser, ch: byte): Out {
    if ch == SPACE || ch == TAB then Go(p, Head(DiscardWs))
    else StepFieldStart(cfg, EndHeader(p).(state := Head(FieldStart)), ch)
  }

  function StepDiscardWs(p: Parser, ch: byte): Out {
    if ch == SPACE || ch == TAB then Go(p, p.state)
    else if ch == CR then Go(p, Head(DiscardWsAlmostDone))
    else if ch == LF then Go(p, Head(DiscardLws))
    else ValueStart(p, ch)
  }

  function StepHead(cfg: Settings, p: Parser, ch: byte): Out
    requires p.state.Head?
  {
    match p.state.head
    case FieldStart => StepFieldStart(cfg, p, ch)
    case Field => StepField(p, ch)
    case DiscardWs => StepDiscardWs(p, ch)
    case DiscardWsAlmostDone => if ch == LF then Go(p, Head(DiscardLws)) else Fail(p, Strict)
    case DiscardLws => StepDiscardLws(cfg, p, ch)
    case Value => StepValue(cfg, p, ch)
    case AlmostDone => if ch == LF then Go(p, Head(ValueLws)) else Fail(p, LfExpected)
    case ValueLws => StepValueLws(cfg, p, ch)
    case HeadersAlmostDone => StepHeadersAlmostDone(cfg, p, ch)
  }

  // ----- body -----

  function ChunkSizeStart(p: Parser, ch: byte): Out {
    if Unhex(ch) == -1 then Fail(p, InvalidChunkSize) else Go(p.(contentLength := Unhex(ch)), Chunk(Size))
  }

  function ChunkSizeDigit(p: Parser, ch: byte): Out {
    if ch == CR then Go(p, Chunk(SizeAlmostDone))
    else if Unhex(ch) == -1 then
      if Is(ch, ';') || ch == SPACE then Go(p, Chunk(Parameters)) else Fail(p, InvalidChunkSize)
    else if (ULLONG_MAX - 16) / 16 < p.contentLength then Fail(p, InvalidContentLength)
    else Go(p.(contentLength := Hexadecimal(p.contentLength, Unhex(ch))), p.state)
  }

  function ChunkSizeEnd(p: Parser, ch: byte): Out {
    if ch != LF then Fail(p, Strict)
    else if p.contentLength == 0 then Tell(p.(flags := p.flags.(trailing := true)), Head(FieldStart), ChunkHeader)
    else Tell(p, Body(ChunkData), ChunkHeader)
  }

  function StepChunk(p: Parser, ch: byte): Out
    requires p.state.Chunk?
  {
    match p.state.chunk
    case SizeStart => ChunkSizeStart(p, ch)
    case Size => ChunkSizeDigit(p, ch)
    case Parameters => if ch == CR then Go(p, Chunk(SizeAlmostDone)) else Go(p, p.state)
    case SizeAlmostDone => ChunkSizeEnd(p, ch)
  }

  function StepBody(p: Parser, ch: byte): Out
    requires p.state.Body?
  {
    match p.state.body
    case ChunkData =>
      if p.contentLength == 0 then Carry(p, p.state, BodyText)
      else
        var n := p.contentLength - 1;
        Carry(p.(contentLength := n), if n == 0 then Body(ChunkDataAlmostDone) else p.state, BodyText)
    case ChunkDataAlmostDone => if ch == CR then Go(p, Body(ChunkDataDone)) else Fail(p, Strict)
    case ChunkDataDone => if ch == LF then Tell(p, Body(ChunkNextSize), ChunkComplete) else Fail(p, Strict)
    case ChunkNextSize => ChunkSizeStart(p, ch)
    case Identity =>
      if p.contentLength == 0 then Carry(p, p.state, BodyText)
      else
        var n := p.contentLength - 1;
        if n == 0 then MessageDone(p.(contentLength := n)).(carry := Some(BodyText))
        else Carry(p.(contentLength := n), p.state, BodyText)
    case IdentityEof => Carry(p, p.state, BodyText)
  }

  /** What one byte does. */
  function Step(cfg: Settings, p: Parser, ch: byte): Out {
    match p.state
    case Dead => if ch == CR || ch == LF then Go(p, Dead) else Fail(p, ClosedConnection)
    case Line(_) => StepLine(p, ch)
    case Url(_) => StepUrl(p, ch)
    case Head(_) => StepHead(cfg, p, ch)
    case Chunk(_) => StepChunk(p, ch)
    case Body(_) => StepBody(p, ch)
  }
}
