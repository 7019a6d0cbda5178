/** The data of the HTTP parser: its states, its fields and the character classes (strict mode). */
module HttpTypes {
  type byte = n: int | 0 <= n < 256

  const CR: byte := 13
  const LF: byte := 10
  const TAB: byte := 9
  const SPACE: byte := 32
  const ULLONG_MAX: nat := 0xFFFF_FFFF_FFFF_FFFF
  const HTTP_MAX_HEADER_SIZE: nat := 80 * 1024

  // ----- character classes -----

  predicate Is(ch: byte, c: char) { ch == c as int }

  predicate IsNum(ch: byte) { 48 <= ch <= 57 }

  predicate IsAlpha(ch: byte) { 65 <= ch <= 90 || 97 <= ch <= 122 }

  predicate IsMark(ch: byte) {
    Is(ch, '-') || Is(ch, '_') || Is(ch, '.') || Is(ch, '!') || Is(ch, '~') || Is(ch, '*') || Is(ch, '\'')
        || Is(ch, '(') || Is(ch, ')')
  }

  predicate IsUserinfoChar(ch: byte) {
    || IsAlpha(ch) || IsNum(ch) || IsMark(ch) || Is(ch, '%') || Is(ch, ';') || Is(ch, ':') || Is(ch, '&') || Is(ch, '=')
    || Is(ch, '+') || Is(ch, '$') || Is(ch, ',')
  }

  predicate IsUrlChar(ch: byte) { 33 <= ch <= 126 && !Is(ch, '#') && !Is(ch, '?') }

  /** The token table: zero for a separator or control character, otherwise the character in lower case. */
  function Token(ch: byte): byte {
    if 65 <= ch <= 90 then ch + 32
    else if 97 <= ch <= 122 || IsNum(ch) then ch
    else if Is(ch, '!') || (35 <= ch <= 39) || Is(ch, '*') || Is(ch, '+') || Is(ch, '-') || Is(ch, '.')
            || (94 <= ch <= 96) || Is(ch, '|') || Is(ch, '~') then ch
    else 0
  }

  /** ch | 0x20 */
  function Lower(ch: byte): (r: byte)
    ensures r != 0
  { if (ch / 32) % 2 == 0 then ch + 32 else ch }

  predicate IsHeaderChar(ch: byte) { ch == CR || ch == LF || ch == TAB || (ch > 31 && ch != 127) }

  function Unhex(ch: byte): int {
    if IsNum(ch) then ch - 48
    else if 65 <= ch <= 70 then ch - 55
    else if 97 <= ch <= 102 then ch - 87
    else -1
  }

  // ----- states -----

  /** The start line of a request or a response. */
  datatype LineState =
    | StartReqOrRes | ResOrRespH
    | StartRes | ResH | ResHT | ResHTT | ResHTTP
    | ResFirstMajor | ResMajor | ResFirstMinor | ResMinor
    | ResFirstStatus | ResStatusCode | ResStatusStart | ResStatus | ResLineAlmostDone
    | StartReq | ReqMethod | ReqSpaces
    | ReqHttpStart | ReqH | ReqHT | ReqHTT | ReqHTTP
    | ReqFirstMajor | ReqMajor | ReqFirstMinor | ReqMinor | ReqLineAlmostDone

  /** Inside a request's URL. */
  datatype UrlState =
    | Schema | SchemaSlash | SchemaSlashSlash | ServerStart | Server | ServerWithAt
    | Path | QueryStart | Query | FragmentStart | Fragment

  datatype HeadState =
    | FieldStart | Field | DiscardWs | DiscardWsAlmostDone | DiscardLws
    | Value | ValueLws | AlmostDone | HeadersAlmostDone

  datatype ChunkState = SizeStart | Size | Parameters | SizeAlmostDone

  datatype BodyState = ChunkData | ChunkDataAlmostDone | ChunkDataDone | ChunkNextSize | Identity | IdentityEof

  /**
    Where the parser is between two bytes. The states that are left again
    before the next byte (value start, headers done, message done) are
    functions, not values.
   */
  datatype State =
    | Dead
    | Line(line: LineState)
    | Url(url: UrlState)
    | Head(head: HeadState)
    | Chunk(chunk: ChunkState)
    | Body(body: BodyState)

  /** PARSING_HEADER: the bytes that count towards the header size limit. */
  predicate ParsingHeader(s: State) { !s.Body? }

  /** How much of a known header's name has been matched. */
  datatype NameMatch =
    | C | CO | CON
    | MatchingConnection | MatchingProxyConnection | MatchingContentLength | MatchingTransferEncoding | MatchingUpgrade

  datatype KnownName = Connection | ContentLength | TransferEncoding | Upgrade

  /** The value word being matched. */
  datatype ValueMatch = MatchingChunked | MatchingKeepAlive | MatchingClose | MatchingConnUpgrade

  datatype KnownValue = TransferEncodingChunked | ConnectionKeepAlive | ConnectionClose | ConnectionUpgrade

  /** The header states, grouped by what the next character is compared with. */
  datatype HeaderState =
    | General
    | Naming(naming: NameMatch)
    | Named(name: KnownName)
    | Valuing(valuing: ValueMatch)
    | Valued(value: KnownValue)
    | MatchingTokenStart
    | MatchingToken

  datatype Flags = Flags(
    chunked: bool, keepAlive: bool, close: bool, connUpgrade: bool,
    trailing: bool, upgrade: bool, skipBody: bool, contentLength: bool)

  const NO_FLAGS := Flags(false, false, false, false, false, false, false, false)

  datatype Errno =
    | OK | InvalidEofState | HeaderOverflow | ClosedConnection | InvalidVersion | InvalidStatus | InvalidMethod
        | InvalidUrl
    | LfExpected | InvalidHeaderToken | InvalidContentLength | UnexpectedContentLength | InvalidChunkSize
        | InvalidConstant
    | Strict

  datatype Type = REQUEST | RESPONSE | BOTH

  /** struct http_parser, without nread. */
  datatype Parser = Parser(
    typ: Type, flags: Flags, state: State, headerState: HeaderState, index: nat, contentLength: nat,
    major: nat, minor: nat, status: nat, verb: nat, errno: Errno, upgrade: bool)

  /** http_parser_init */
  function Initial(typ: Type): Parser {
    var start := match typ case REQUEST => StartReq case RESPONSE => StartRes case BOTH => StartReqOrRes;
    Parser(typ, NO_FLAGS, Line(start), General, 0, 0, 0, 0, 0, 0, OK, false)
  }

  // ----- methods -----

  /** The methods by number. */
  function MethodName(m: nat): string {
    match m
    case 0 => "DELETE"
    case 1 => "GET"
    case 2 => "HEAD"
    case 3 => "POST"
    case 4 => "PUT"
    case 5 => "CONNECT"
    case 6 => "OPTIONS"
    case 7 => "TRACE"
    case 8 => "COPY"
    case 9 => "LOCK"
    case 10 => "MKCOL"
    case 11 => "MOVE"
    case 12 => "PROPFIND"
    case 13 => "PROPPATCH"
    case 14 => "SEARCH"
    case 15 => "UNLOCK"
    case 16 => "BIND"
    case 17 => "REBIND"
    case 18 => "UNBIND"
    case 19 => "ACL"
    case 20 => "REPORT"
    case 21 => "MKACTIVITY"
    case 22 => "CHECKOUT"
    case 23 => "MERGE"
    case 24 => "M-SEARCH"
    case 25 => "NOTIFY"
    case 26 => "SUBSCRIBE"
    case 27 => "UNSUBSCRIBE"
    case 28 => "PATCH"
    case 29 => "PURGE"
    case 30 => "MKCALENDAR"
    case 31 => "LINK"
    case 32 => "UNLINK"
    case _ => ""
  }

  const HEAD: nat := 2
  const POST: nat := 3
  const PUT: nat := 4
  const CONNECT: nat := 5
  const LOCK: nat := 9
  const MKCOL: nat := 10
  const PROPFIND: nat := 12
  const UNLOCK: nat := 15
  const REPORT: nat := 20
  const MSEARCH: nat := 24
  const SUBSCRIBE: nat := 26

  /** The character of a method's name at a position, zero at its end. */
  function MethodChar(m: nat, index: nat): (c: int)
    ensures c != 0 ==> index < 11
  {
    if index < |MethodName(m)| then MethodName(m)[index] as int else 0
  }

  // ----- what the callbacks are told -----

  datatype Kind = StatusText | UrlText | FieldText | ValueText | BodyText

  datatype Note = MessageBegin | HeadersComplete | ChunkHeader | ChunkComplete | MessageComplete

  /** One callback call. */
  datatype Event = Notify(note: Note) | Data(kind: Kind, bytes: seq<byte>)

  /** What a callback call tells, one byte at a time. */
  datatype Atom = Told(note: Note) | Byte(kind: Kind, ch: byte)

  function Bytes(kind: Kind, bytes: seq<byte>): (atoms: seq<Atom>)
    ensures |atoms| == |bytes|
    ensures forall i :: 0 <= i < |bytes| ==> atoms[i] == Byte(kind, bytes[i])
  {
    seq(|bytes|, i requires 0 <= i < |bytes| => Byte(kind, bytes[i]))
  }

  function ToldAll(notes: seq<Note>): (atoms: seq<Atom>)
    ensures |atoms| == |notes|
    ensures forall i :: 0 <= i < |notes| ==> atoms[i] == Told(notes[i])
  {
    seq(|notes|, i requires 0 <= i < |notes| => Told(notes[i]))
  }

  /** The notifications among some atoms. */
  function Notes(atoms: seq<Atom>): seq<Note> {
    if atoms == [] then []
    else Notes(atoms[..|atoms| - 1]) + (var a := atoms[|atoms| - 1]; if a.Told? then [a.note] else [])
  }

  function Flat(events: seq<Event>): seq<Atom> {
    if events == [] then []
    else
      var e := events[|events| - 1];
      Flat(events[..|events| - 1]) + match e { case Notify(n) => [Told(n)] case Data(k, bytes) => Bytes(k, bytes) }
  }
}
