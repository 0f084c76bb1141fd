/** What the HTTP writer prints and what the HTTP reader makes of a byte stream, as
  * functions on byte strings, and the round trips between them.
  */
module HttpSpec {
  import opened Common
  import opened HttpText

  datatype Header = Header(name: string, value: string)

  const CONTENT_LENGTH: string := "Content-Length"
  const TRANSFER_ENCODING: string := "Transfer-Encoding"

  // The fixed-size fields hold at most this many characters.
  const VERSION_MAX: nat := 15
  const METHOD_MAX: nat := 15
  const REASON_MAX: nat := 127

  // snprintf into a field of max + 1 bytes.
  function Fit(s: string, max: nat): (r: string)
    ensures r <= s && |r| <= max && (|r| == max || r == s)
  {
    if |s| <= max then s else s[..max]
  }

  datatype Response = Response(version: string, status: int, reason: string, headers: seq<Header>, content: string)
  datatype Request = Request(verb: string, uri: string, version: string, headers: seq<Header>, content: string)

  datatype Result<T> = Ok(value: T) | Err
  // What was read, and the bytes left unread.
  datatype Parsed<T> = Parsed(value: T, rest: string)

  // Case-insensitive first match.
  function Lookup(headers: seq<Header>, name: string): Option<string> {
    if headers == [] then None
    else if SameIgnoringCase(name, headers[0].name) then Some(headers[0].value)
    else Lookup(headers[1..], name)
  }

  // ----- Writing -----

  function HeaderText(h: Header): string { h.name + ": " + h.value }

  function PrintHeaders(headers: seq<Header>): string {
    if headers == [] then "" else HeaderText(headers[0]) + CRLF + PrintHeaders(headers[1..])
  }

  // The headers as sent: a length is added when there is content and none is given.
  function SentHeaders(headers: seq<Header>, content: string): seq<Header> {
    if |content| > 0 && Lookup(headers, CONTENT_LENGTH) == None
    then headers + [Header(CONTENT_LENGTH, Digits(|content|, 10))] else headers
  }

  function PrintResponse(r: Response): string {
    r.version + " " + Decimal(r.status) + " " + r.reason + CRLF
    + (PrintHeaders(SentHeaders(r.headers, r.content)) + CRLF + r.content)
  }

  function PrintRequest(r: Request): string {
    r.verb + " " + r.uri + " " + r.version + CRLF
    + (PrintHeaders(SentHeaders(r.headers, r.content)) + CRLF + r.content)
  }

  // ----- Reading -----

  // A logical header line, split at its first colon.
  function SplitHeader(line: string): Header {
    match AfterToken(line, ':')
    case None => Header(line, "")
    case Some(v) => Header(Token(line, ':'), TrimLeft(v))
  }

  function Flush(pending: string): seq<Header> {
    if pending == "" then [] else [SplitHeader(pending)]
  }

  // Does this line end the logical line collected so far?
  predicate StartsNew(line: string) { line == "" || !IsSpace(line[0]) }

  // RecvHeaders: pending is the logical line collected so far.
  function ReadHeaders(input: string, pending: string): (r: Result<Parsed<seq<Header>>>)
    ensures r.Ok? ==> |r.value.rest| < |input|
    decreases |input|
  {
    match TrimmedLine(input, MAX_RECV_LEN)
    case Bad => Err
    case Good(line, rest) =>
      var done := if StartsNew(line) then Flush(pending) else [];
      if line == "" then Ok(Parsed(done, rest))
      else
        match ReadHeaders(rest, (if StartsNew(line) then "" else pending) + TrimLeft(line))
        case Err => Err
        case Ok(p) => Ok(Parsed(done + p.value, p.rest))
  }

  // The chunked branch of RecvBody.
  function ReadChunks(input: string): (r: Result<Parsed<string>>)
    decreases |input|
  {
    match GetLine(input, MAX_RECV_LEN)
    case Bad => Err
    case Good(line, rest) =>
      var size := StrToInt(CStr(line), 16);
      if size <= 0 then Ok(Parsed("", rest))
      else if size > |rest| then Err
      else match GetLine(rest[size..], MAX_RECV_LEN)
        case Bad => Err
        case Good(_, after) =>
          match ReadChunks(after)
          case Err => Err
          case Ok(p) => Ok(Parsed(rest[..size] + p.value, p.rest))
  }

  // A given number of bytes; a number that is not positive means none.
  function ReadCounted(input: string, size: int): Result<Parsed<string>> {
    if size <= 0 then Ok(Parsed("", input))
    else if size > |input| then Err
    else Ok(Parsed(input[..size], input[size..]))
  }

  predicate IsChunked(headers: seq<Header>) {
    Lookup(headers, TRANSFER_ENCODING).Some? && SameIgnoringCase(Lookup(headers, TRANSFER_ENCODING).value, "chunked")
  }

  // RecvBody; a response without a length is read until the peer closes.
  function ReadBody(input: string, headers: seq<Header>, response: bool): Result<Parsed<string>> {
    if IsChunked(headers) then ReadChunks(input)
    else match Lookup(headers, CONTENT_LENGTH)
      case Some(v) => ReadCounted(input, StrToInt(v, 10))
      case None => if response then Ok(Parsed(input, "")) else Ok(Parsed("", input))
  }

  // Up to three parts of a start line; a part that is missing keeps its default.
  datatype StartLine = StartLine(first: string, second: Option<string>, third: Option<string>)

  function SplitStartLine(line: string): StartLine {
    match AfterToken(line, ' ')
    case None => StartLine(Token(line, ' '), None, None)
    case Some(more) => StartLine(Token(line, ' '), Some(Token(more, ' ')), AfterToken(more, ' '))
  }

  const START_LINE_LEN: nat := 1024

  function ReadRequestLine(input: string): Result<Parsed<Request>> {
    match TrimmedLine(input, START_LINE_LEN)
    case Bad => Err
    case Good(line, rest) =>
      var l := SplitStartLine(line);
      Ok(Parsed(Request(Fit(l.first, METHOD_MAX), l.second.GetOr(""), Fit(l.third.GetOr("HTTP/1.0"), VERSION_MAX), [], ""), rest))
  }

  function ReadResponseLine(input: string): Result<Parsed<Response>> {
    match TrimmedLine(input, START_LINE_LEN)
    case Bad => Err
    case Good(line, rest) =>
      if |line| < 4 || !SameIgnoringCase(line[..4], "HTTP") then Err
      else
        var l := SplitStartLine(line);
        Ok(Parsed(Response(Fit(l.first, VERSION_MAX), if l.second.Some? then StrToInt(l.second.value, 10) else 200,
                           Fit(l.third.GetOr("OK"), REASON_MAX), [], ""), rest))
  }

  function ReadRequest(input: string): Result<Parsed<Request>> {
    match ReadRequestLine(input)
    case Err => Err
    case Ok(start) =>
      match ReadHeaders(start.rest, "")
      case Err => Err
      case Ok(hs) =>
        match ReadBody(hs.rest, hs.value, false)
        case Err => Err
        case Ok(b) => Ok(Parsed(start.value.(headers := hs.value, content := b.value), b.rest))
  }

  const SC_NOT_MODIFIED: int := 304

  // The client's reading order: no body is read for status 304.
  function ReadResponse(input: string): Result<Parsed<Response>> {
    match ReadResponseLine(input)
    case Err => Err
    case Ok(start) =>
      match ReadHeaders(start.rest, "")
      case Err => Err
      case Ok(hs) =>
        if start.value.status == SC_NOT_MODIFIED then Ok(Parsed(start.value.(headers := hs.value), hs.rest))
        else match ReadBody(hs.rest, hs.value, true)
          case Err => Err
          case Ok(b) => Ok(Parsed(start.value.(headers := hs.value, content := b.value), b.rest))
  }

  // ----- Well-formed fields -----

  predicate WellFormedHeader(h: Header) {
    && h.name != "" && !IsSpace(h.name[0]) && ':' !in h.name
    && IsCleanLine(HeaderText(h)) && |HeaderText(h)| + 1 < 8192
    && (h.value == "" || !IsSpace(h.value[0]))
  }

  predicate WellFormedHeaders(headers: seq<Header>) {
    forall i | 0 <= i < |headers| :: WellFormedHeader(headers[i])
  }

  // A header round-trips through its own line.
  lemma SplitHeaderText(h: Header)
    requires WellFormedHeader(h)
    ensures SplitHeader(HeaderText(h)) == h
  {
    hide IsCleanLine, Token, AfterToken, TrimLeft;
    assert HeaderText(h) == h.name + [':'] + (" " + h.value);
    Separate(h.name, ':', " " + h.value);
    TrimOneSpace(h.value);
  }

  lemma TrimOneSpace(v: string)
    requires v == "" || !IsSpace(v[0])
    ensures TrimLeft(" " + v) == v
  {
    assert (" " + v)[1..] == v;
  }

  // One written header line: it completes the pending one and becomes pending itself.
  lemma ReadOneHeader(h: Header, more: string, pending: string)
    requires WellFormedHeader(h)
    ensures ReadHeaders(HeaderText(h) + CRLF + more, pending)
            == match ReadHeaders(more, HeaderText(h))
               case Err => Err
               case Ok(p) => Ok(Parsed(Flush(pending) + p.value, p.rest))
  {
    TrimmedLineOf(HeaderText(h), more, MAX_RECV_LEN);
    assert "" + HeaderText(h) == HeaderText(h);
    assert HeaderText(h)[0] == h.name[0];
  }

  lemma ReadBlankLine(rest: string, pending: string)
    ensures ReadHeaders(CRLF + rest, pending) == Ok(Parsed(Flush(pending), rest))
  {
    TrimmedLineOf("", rest, MAX_RECV_LEN);
    assert "" + CRLF + rest == CRLF + rest;
  }

  /** Reading back any list of well-formed headers, up to and including the blank line. */
  lemma {:induction false} HeadersRoundTrip(headers: seq<Header>, rest: string, pending: string)
    requires WellFormedHeaders(headers)
    ensures ReadHeaders(PrintHeaders(headers) + CRLF + rest, pending) == Ok(Parsed(Flush(pending) + headers, rest))
    decreases |headers|
  {
    hide ReadHeaders, SplitHeader, WellFormedHeader;
    if headers == [] {
      ReadBlankLine(rest, pending);
      assert "" + CRLF + rest == CRLF + rest;
      assert Flush(pending) + [] == Flush(pending);
    } else {
      var h := headers[0];
      var more := PrintHeaders(headers[1..]) + CRLF + rest;
      assert PrintHeaders(headers) + CRLF + rest == HeaderText(h) + CRLF + more;
      ReadOneHeader(h, more, pending);
      HeadersRoundTrip(headers[1..], rest, HeaderText(h));
      SplitHeaderText(h);
      FlushHeader(h);
      assert Flush(pending) + ([h] + headers[1..]) == Flush(pending) + headers;
    }
  }

  lemma FlushHeader(h: Header)
    ensures Flush(HeaderText(h)) == [SplitHeader(HeaderText(h))]
  {
    assert |HeaderText(h)| >= 2;
  }

  // ----- Folded headers -----

  // A continuation line starts with white space and is not blank after it is trimmed
  // on the right.
  predicate IsContinuation(line: string) {
    IsCleanLine(line) && |line| + 1 < 8192 && line != "" && IsSpace(line[0])
  }

  function PrintLines(lines: seq<string>): string {
    if lines == [] then "" else lines[0] + CRLF + PrintLines(lines[1..])
  }

  function Unfold(lines: seq<string>): string {
    if lines == [] then "" else TrimLeft(lines[0]) + Unfold(lines[1..])
  }

  /** Continuation lines are appended to the pending line, each trimmed on the left. */
  lemma {:induction false} FoldedLinesJoin(lines: seq<string>, more: string, pending: string)
    requires forall i | 0 <= i < |lines| :: IsContinuation(lines[i])
    ensures ReadHeaders(PrintLines(lines) + more, pending) == ReadHeaders(more, pending + Unfold(lines))
    decreases |lines|
  {
    hide IsContinuation, ReadHeaders, TrimLeft;
    if lines == [] {
      assert "" + more == more && pending + "" == pending;
    } else {
      FoldedLinesJoin(lines[1..], more, pending + TrimLeft(lines[0]));
      OneContinuation(lines[0], PrintLines(lines[1..]) + more, pending);
      FirstOfLines(lines, more, pending);
    }
  }

  lemma FirstOfLines(lines: seq<string>, more: string, pending: string)
    requires lines != []
    ensures PrintLines(lines) + more == lines[0] + CRLF + (PrintLines(lines[1..]) + more)
    ensures pending + Unfold(lines) == pending + TrimLeft(lines[0]) + Unfold(lines[1..])
  {
    hide TrimLeft;
  }

  lemma OneContinuation(line: string, after: string, pending: string)
    requires IsContinuation(line)
    ensures ReadHeaders(line + CRLF + after, pending) == ReadHeaders(after, pending + TrimLeft(line))
  {
    hide IsCleanLine, TrimLeft;
    TrimmedLineOf(line, after, MAX_RECV_LEN);
    NothingBefore(ReadHeaders(after, pending + TrimLeft(line)));
  }

  lemma NothingBefore(r: Result<Parsed<seq<Header>>>)
    ensures r.Ok? ==> Ok(Parsed([] + r.value.value, r.value.rest)) == r
  {
    if r.Ok? {
      assert [] + r.value.value == r.value.value;
    }
  }

  // A header as sent over several lines; the first piece of its value may be empty.
  datatype FoldedHeader = FoldedHeader(name: string, first: string, lines: seq<string>) {
    function Head(): Header { Header(name, first) }
    function Whole(): Header { Header(name, first + Unfold(lines)) }
    function Text(): string { HeaderText(Head()) + CRLF + PrintLines(lines) }
  }

  predicate WellFormedFolded(h: FoldedHeader) {
    WellFormedHeader(h.Head()) && forall i | 0 <= i < |h.lines| :: IsContinuation(h.lines[i])
  }

  function PrintFolded(hs: seq<FoldedHeader>): string {
    if hs == [] then "" else hs[0].Text() + PrintFolded(hs[1..])
  }

  function Unfolded(hs: seq<FoldedHeader>): seq<Header> {
    if hs == [] then [] else [hs[0].Whole()] + Unfolded(hs[1..])
  }

  lemma {:induction false} UnfoldStart(lines: seq<string>)
    ensures Unfold(lines) == "" || !IsSpace(Unfold(lines)[0])
    decreases |lines|
  {
    hide TrimLeft, IsSpace;
    if lines != [] {
      UnfoldStart(lines[1..]);
      var piece := TrimLeft(lines[0]);
      if piece == "" {
        assert piece + Unfold(lines[1..]) == Unfold(lines[1..]);
      } else {
        assert Unfold(lines)[0] == piece[0];
      }
    }
  }

  /** Any list of headers, each folded over any number of lines, comes back in order; a
    * header's value is the concatenation of its pieces, each trimmed on the left.
    */
  lemma {:induction false} FoldedHeadersRoundTrip(hs: seq<FoldedHeader>, rest: string, pending: string)
    requires forall i | 0 <= i < |hs| :: WellFormedFolded(hs[i])
    ensures ReadHeaders(PrintFolded(hs) + CRLF + rest, pending) == Ok(Parsed(Flush(pending) + Unfolded(hs), rest))
    decreases |hs|
  {
    hide ReadHeaders, SplitHeader, WellFormedFolded, Flush, FoldedHeader.Text, FoldedHeader.Whole;
    if hs == [] {
      ReadBlankLine(rest, pending);
      assert "" + CRLF + rest == CRLF + rest;
      assert Flush(pending) + [] == Flush(pending);
    } else {
      var after := PrintFolded(hs[1..]) + CRLF + rest;
      assert PrintFolded(hs) + CRLF + rest == hs[0].Text() + after;
      FoldedHeadersRoundTrip(hs[1..], rest, FoldedText(hs[0]));
      ReadOneFolded(hs[0], after, pending);
      assert Flush(pending) + ([hs[0].Whole()] + Unfolded(hs[1..])) == Flush(pending) + Unfolded(hs);
    }
  }

  // The logical line that a folded header makes.
  function FoldedText(h: FoldedHeader): string { HeaderText(h.Head()) + Unfold(h.lines) }

  lemma ReadOneFolded(h: FoldedHeader, after: string, pending: string)
    requires WellFormedFolded(h)
    ensures ReadHeaders(h.Text() + after, pending)
            == match ReadHeaders(after, FoldedText(h))
               case Err => Err
               case Ok(p) => Ok(Parsed(Flush(pending) + p.value, p.rest))
    ensures Flush(FoldedText(h)) == [h.Whole()]
  {
    hide ReadHeaders, SplitHeader, WellFormedHeader, IsContinuation;
    var more := PrintLines(h.lines) + after;
    assert h.Text() + after == HeaderText(h.Head()) + CRLF + more;
    ReadOneHeader(h.Head(), more, pending);
    FoldedLinesJoin(h.lines, after, HeaderText(h.Head()));
    UnfoldStart(h.lines);
    SplitWhole(h.Head(), Unfold(h.lines));
    assert |FoldedText(h)| >= 2;
  }

  lemma SplitWhole(h: Header, extra: string)
    requires WellFormedHeader(h) && (extra == "" || !IsSpace(extra[0]))
    ensures SplitHeader(HeaderText(h) + extra) == Header(h.name, h.value + extra)
  {
    hide IsCleanLine, Token, AfterToken, TrimLeft;
    var v := h.value + extra;
    assert HeaderText(h) + extra == h.name + [':'] + (" " + v);
    Separate(h.name, ':', " " + v);
    assert v == "" || v[0] == if h.value == "" then extra[0] else h.value[0];
    TrimOneSpace(v);
  }

  // ----- Chunked bodies -----

  // One chunk: its data, and the line before it, which gives the size as a hexadecimal
  // numeral, upper or lower case and with any number of leading zeros, and may go on with
  // an extension.
  datatype Chunk = Chunk(data: string, size: string, ext: string)

  // A size line for n that fits the line buffer.
  predicate IsSizeLine(n: nat, size: string, ext: string) {
    && n < 0x8000_0000 && IsNumeral(size, 16) && Value(size, 16) == n
    && (ext == "" || (!IsDigit(ext[0], 16) && ext[0] !in "xX"))
    && (forall i | 0 <= i < |ext| :: ext[i] != '\n' && ext[i] != 0 as char)
    && |size + ext| + 1 < 8192
  }

  predicate IsChunk(c: Chunk) {
    c.data != "" && IsSizeLine(|c.data|, c.size, c.ext)
  }

  function SizeLine(size: string, ext: string): string { size + ext + CRLF }

  // The chunked coding of RFC 2616, section 3.6.1, up to the last-chunk line.
  function PrintChunks(chunks: seq<Chunk>, last: string): string {
    if chunks == [] then last + CRLF
    else SizeLine(chunks[0].size, chunks[0].ext) + (chunks[0].data + CRLF + PrintChunks(chunks[1..], last))
  }

  function Contents(chunks: seq<Chunk>): string {
    if chunks == [] then "" else chunks[0].data + Contents(chunks[1..])
  }

  lemma SizeLineRead(n: nat, size: string, ext: string, more: string)
    requires IsSizeLine(n, size, ext)
    ensures GetLine(SizeLine(size, ext) + more, MAX_RECV_LEN) == Good(size + ext + "\r", more)
    ensures StrToInt(CStr(size + ext + "\r"), 16) == n
  {
    hide StrToInt, GetLine, Value;
    var text := size + ext + "\r";
    assert SizeLine(size, ext) + more == text + "\n" + more;
    forall i | 0 <= i < |text| ensures text[i] != '\n' && text[i] != 0 as char {
      if i < |size| {
        NumeralIsClean(size[i]);
      }
    }
    GetLineOf(text, more, MAX_RECV_LEN);
    assert text == "" + "" + size + (ext + "\r");
    NumeralRead("", "", size, 16, ext + "\r");
  }

  lemma NumeralIsClean(c: char)
    requires NumeralValue(c) < 16
    ensures c != '\n' && c != 0 as char
  {
  }

  /** Reading a chunked body, whatever the sizes of its chunks and however they are written:
    * exactly the chunk data, stopping right after the last-chunk line.
    */
  lemma {:induction false} ChunksRoundTrip(chunks: seq<Chunk>, zero: string, ext: string, rest: string)
    requires (forall i | 0 <= i < |chunks| :: IsChunk(chunks[i])) && IsSizeLine(0, zero, ext)
    ensures ReadChunks(PrintChunks(chunks, zero + ext) + rest) == Ok(Parsed(Contents(chunks), rest))
    decreases |chunks|
  {
    hide StrToInt, GetLine, SizeLine, ReadChunks, IsSizeLine;
    if chunks == [] {
      SizeLineRead(0, zero, ext, rest);
      SizeLineIs(zero, ext);
      LastChunk(SizeLine(zero, ext) + rest, zero + ext + "\r", rest);
    } else {
      var c := chunks[0];
      var after := PrintChunks(chunks[1..], zero + ext) + rest;
      var body := c.data + CRLF + after;
      assert PrintChunks(chunks, zero + ext) + rest == SizeLine(c.size, c.ext) + body;
      SizeLineRead(|c.data|, c.size, c.ext, body);
      ChunksRoundTrip(chunks[1..], zero, ext, rest);
      OneChunk(SizeLine(c.size, c.ext) + body, c.size + c.ext + "\r", c.data, after);
    }
  }

  lemma SizeLineIs(size: string, ext: string)
    ensures SizeLine(size, ext) == size + ext + CRLF
  {
  }

  lemma LastChunk(input: string, line: string, rest: string)
    requires GetLine(input, MAX_RECV_LEN) == Good(line, rest) && StrToInt(CStr(line), 16) == 0
    ensures ReadChunks(input) == Ok(Parsed("", rest))
  {
  }

  lemma OneChunk(input: string, line: string, data: string, after: string)
    requires GetLine(input, MAX_RECV_LEN) == Good(line, data + CRLF + after)
    requires StrToInt(CStr(line), 16) == |data| > 0
    ensures ReadChunks(input) == match ReadChunks(after)
      case Err => Err
      case Ok(p) => Ok(Parsed(data + p.value, p.rest))
  {
    hide StrToInt, GetLine, CStr;
    var body := data + CRLF + after;
    assert body[..|data|] == data && body[|data|..] == CRLF + after;
    assert CRLF + after == "\r" + "\n" + after;
    GetLineOf("\r", after, MAX_RECV_LEN);
  }

  /** The blank line that ends a chunked message is left unread, and the next request
    * read on the connection is not the one that was sent: its first line is that blank
    * line, so it comes out with an empty method.
    */
  lemma ChunkedMessageLeavesItsBlankLine(chunks: seq<Chunk>, next: string)
    requires forall i | 0 <= i < |chunks| :: IsChunk(chunks[i])
    ensures ReadChunks(PrintChunks(chunks, "0") + CRLF + next) == Ok(Parsed(Contents(chunks), CRLF + next))
    ensures ReadRequestLine(CRLF + next) == Ok(Parsed(Request("", "", "HTTP/1.0", [], ""), next))
  {
    hide ReadRequestLine, IsChunk, PrintChunks, ReadChunks;
    assert PrintChunks(chunks, "0") + CRLF + next == PrintChunks(chunks, "0") + (CRLF + next);
    ZeroIsASize();
    ChunksRoundTrip(chunks, "0", "", CRLF + next);
    assert "0" + "" == "0";
    BlankRequestLine(next);
  }

  lemma ZeroIsASize()
    ensures IsSizeLine(0, "0", "")
  {
    assert "0"[..0] == "";
  }

  lemma BlankRequestLine(next: string)
    ensures ReadRequestLine(CRLF + next) == Ok(Parsed(Request("", "", "HTTP/1.0", [], ""), next))
  {
    TrimmedLineOf("", next, START_LINE_LEN);
    assert "" + CRLF + next == CRLF + next;
  }
}
