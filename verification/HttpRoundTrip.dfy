/** A message printed on a connection and read back: which messages come back as they
  * were sent, with the bytes that follow left unread.
  */
module HttpRoundTrip {
  import opened Common
  import opened HttpText
  import opened HttpSpec

  // ----- Header lookup in what is sent -----

  lemma {:induction false} LookupAppend(headers: seq<Header>, h: Header, name: string)
    ensures Lookup(headers + [h], name)
            == if Lookup(headers, name).Some? then Lookup(headers, name)
               else if SameIgnoringCase(name, h.name) then Some(h.value) else None
    decreases |headers|
  {
    if headers == [] {
      assert ([h])[1..] == [];
    } else {
      LookupAppend(headers[1..], h, name);
      assert (headers + [h])[1..] == headers[1..] + [h];
    }
  }

  lemma SentLookups(headers: seq<Header>, content: string)
    ensures var sent := SentHeaders(headers, content);
      && Lookup(sent, TRANSFER_ENCODING) == Lookup(headers, TRANSFER_ENCODING)
      && Lookup(sent, CONTENT_LENGTH)
         == if Lookup(headers, CONTENT_LENGTH).Some? then Lookup(headers, CONTENT_LENGTH)
            else if |content| > 0 then Some(Digits(|content|, 10)) else None
  {
    hide Digits;
    var h := Header(CONTENT_LENGTH, Digits(|content|, 10));
    LookupAppend(headers, h, TRANSFER_ENCODING);
    LookupAppend(headers, h, CONTENT_LENGTH);
    assert |TRANSFER_ENCODING| != |CONTENT_LENGTH|;
  }

  lemma {:induction false} FewDecimalDigits(n: nat, k: nat)
    requires n < Power10(k) && k > 0
    ensures |Digits(n, 10)| <= k
    decreases k
  {
    if n >= 10 {
      FewDecimalDigits(n / 10, k - 1);
    }
  }

  function Power10(k: nat): nat { if k == 0 then 1 else 10 * Power10(k - 1) }

  lemma LengthHeaderIsWellFormed(n: nat)
    requires n < 0x8000_0000
    ensures WellFormedHeader(Header(CONTENT_LENGTH, Digits(n, 10)))
  {
    hide WellFormedHeader;
    assert 0x8000_0000 <= Power10(10);
    FewDecimalDigits(n, 10);
    PlainValueIsWellFormed(Digits(n, 10));
  }

  lemma PlainValueIsWellFormed(value: string)
    requires 0 < |value| <= 10 && forall i | 0 <= i < |value| :: IsDigit(value[i], 10) && !IsSpace(value[i])
    ensures WellFormedHeader(Header(CONTENT_LENGTH, value))
  {
    hide IsDigit;
    var text := HeaderText(Header(CONTENT_LENGTH, value));
    DigitsAreClean(value);
    forall i | 0 <= i < |text| ensures text[i] != '\n' && text[i] != 0 as char {
      if i >= |CONTENT_LENGTH| + 2 {
        assert text[i] == value[i - |CONTENT_LENGTH| - 2];
      }
    }
    assert text[|text| - 1] == value[|value| - 1];
  }

  lemma DigitsAreClean(value: string)
    requires forall i | 0 <= i < |value| :: IsDigit(value[i], 10)
    ensures forall i | 0 <= i < |value| :: value[i] != '\n' && value[i] != '\r' && value[i] != 0 as char
  {
  }

  lemma SentHeadersAreWellFormed(headers: seq<Header>, content: string)
    requires WellFormedHeaders(headers) && |content| < 0x8000_0000
    ensures WellFormedHeaders(SentHeaders(headers, content))
  {
    hide WellFormedHeader, Digits;
    LengthHeaderIsWellFormed(|content|);
  }

  // ----- The body -----

  // What the headers promise about the body agrees with the content. A response with
  // neither content nor a length is delimited only by the end of the stream.
  predicate Delimited(headers: seq<Header>, content: string, rest: string, response: bool) {
    match Lookup(headers, CONTENT_LENGTH)
    case Some(v) => |content| == if StrToInt(v, 10) > 0 then StrToInt(v, 10) else 0
    case None => !response || content != "" || rest == ""
  }

  lemma CountedExactly(content: string, rest: string, size: int)
    ensures ReadCounted(content + rest, size) == Ok(Parsed(content, rest)) <==> |content| == if size > 0 then size else 0
  {
    var all := content + rest;
    assert all[..|content|] == content && all[|content|..] == rest;
  }

  // Decoding chunks always uses up bytes that are not part of what it yields.
  lemma {:induction false} ChunksConsume(input: string)
    ensures ReadChunks(input).Ok? ==> |ReadChunks(input).value.value| + |ReadChunks(input).value.rest| < |input|
    decreases |input|
  {
    hide StrToInt, CStr;
    match GetLine(input, MAX_RECV_LEN)
    case Bad =>
    case Good(line, rest) =>
      var size := StrToInt(CStr(line), 16);
      if 0 < size <= |rest| && GetLine(rest[size..], MAX_RECV_LEN).Good? {
        ChunksConsume(GetLine(rest[size..], MAX_RECV_LEN).rest);
      }
  }

  lemma ChunkedByHeader(headers: seq<Header>, content: string)
    ensures IsChunked(SentHeaders(headers, content)) <==> IsChunked(headers)
  {
    hide Lookup, SentHeaders;
    SentLookups(headers, content);
  }

  /** Content that is itself in the chunked coding comes back decoded. */
  lemma ChunkedContentIsDecoded(headers: seq<Header>, chunks: seq<Chunk>, zero: string, ext: string, rest: string, response: bool)
    requires IsChunked(headers) && (forall i | 0 <= i < |chunks| :: IsChunk(chunks[i])) && IsSizeLine(0, zero, ext)
    ensures ReadBody(PrintChunks(chunks, zero + ext) + rest, SentHeaders(headers, PrintChunks(chunks, zero + ext)), response)
            == Ok(Parsed(Contents(chunks), rest))
  {
    hide IsChunked, SentHeaders, PrintChunks, IsChunk, IsSizeLine, ReadChunks;
    ChunkedByHeader(headers, PrintChunks(chunks, zero + ext));
    ChunksRoundTrip(chunks, zero, ext, rest);
  }

  /** The body comes back with the right framing exactly when the headers do not promise
    * chunks, which the printer never makes, and it is delimited.
    */
  lemma BodyRoundTrip(headers: seq<Header>, content: string, rest: string, response: bool)
    requires |content| < 0x8000_0000
    ensures ReadBody(content + rest, SentHeaders(headers, content), response) == Ok(Parsed(content, rest))
            <==> !IsChunked(headers) && Delimited(headers, content, rest, response)
  {
    hide StrToInt, Digits, SentHeaders, Lookup, IsChunked, ReadChunks;
    SentLookups(headers, content);
    ChunkedByHeader(headers, content);
    if IsChunked(headers) {
      ChunksConsume(content + rest);
    } else {
      PlainBodyRoundTrip(headers, content, rest, response);
    }
  }

  lemma PlainBodyRoundTrip(headers: seq<Header>, content: string, rest: string, response: bool)
    requires |content| < 0x8000_0000 && !IsChunked(headers)
    ensures ReadBody(content + rest, SentHeaders(headers, content), response) == Ok(Parsed(content, rest))
            <==> Delimited(headers, content, rest, response)
  {
    hide StrToInt, Digits, SentHeaders, Lookup, IsChunked;
    SentLookups(headers, content);
    ChunkedByHeader(headers, content);
    if Lookup(headers, CONTENT_LENGTH).Some? {
      CountedExactly(content, rest, StrToInt(Lookup(headers, CONTENT_LENGTH).value, 10));
    } else if content != "" {
      CountedExactly(content, rest, |content|);
      UnsignedRoundTrip(|content|, 10, "");
      assert Digits(|content|, 10) + "" == Digits(|content|, 10);
    } else {
      assert content + rest == rest;
    }
  }

  // ----- Start lines -----

  predicate WellFormedStart(line: string) { IsCleanLine(line) && |line| + 1 < 1024 }

  lemma SplitThree(a: string, b: string, c: string)
    requires ' ' !in a && ' ' !in b
    ensures SplitStartLine(a + " " + b + " " + c) == StartLine(a, Some(b), Some(c))
  {
    assert a + " " + b + " " + c == a + [' '] + (b + " " + c);
    Separate(a, ' ', b + " " + c);
    assert b + " " + c == b + [' '] + c;
    Separate(b, ' ', c);
  }

  function ResponseStart(r: Response): string { r.version + " " + Decimal(r.status) + " " + r.reason }

  function RequestStart(r: Request): string { r.verb + " " + r.uri + " " + r.version }

  predicate WellFormedResponse(r: Response) {
    && WellFormedStart(ResponseStart(r))
    && ' ' !in r.version && 4 <= |r.version| <= 15 && SameIgnoringCase(r.version[..4], "HTTP")
    && -0x8000_0000 <= r.status < 0x8000_0000
    && |r.reason| <= 127
    && WellFormedHeaders(r.headers)
    && |r.content| < 0x8000_0000
  }

  predicate WellFormedRequest(r: Request) {
    && WellFormedStart(RequestStart(r))
    && ' ' !in r.verb && |r.verb| <= 15 && ' ' !in r.uri && |r.version| <= 15
    && WellFormedHeaders(r.headers)
    && |r.content| < 0x8000_0000
  }

  lemma DecimalHasNoSpace(n: int)
    ensures ' ' !in Decimal(n)
  {
  }

  lemma ResponseLineRoundTrip(r: Response, more: string)
    requires WellFormedResponse(r)
    ensures ReadResponseLine(ResponseStart(r) + CRLF + more) == Ok(Parsed(r.(headers := [], content := ""), more))
  {
    hide IsCleanLine, Decimal, StrToInt, WellFormedHeaders, SplitStartLine, TrimmedLine;
    var line := ResponseStart(r);
    TrimmedLineOf(line, more, START_LINE_LEN);
    DecimalHasNoSpace(r.status);
    SplitThree(r.version, Decimal(r.status), r.reason);
    DecimalRoundTrip(r.status);
    assert line[..4] == r.version[..4];
  }

  lemma RequestLineRoundTrip(r: Request, more: string)
    requires WellFormedRequest(r)
    ensures ReadRequestLine(RequestStart(r) + CRLF + more) == Ok(Parsed(r.(headers := [], content := ""), more))
  {
    hide IsCleanLine, WellFormedHeaders, SplitStartLine, TrimmedLine;
    TrimmedLineOf(RequestStart(r), more, START_LINE_LEN);
    SplitThree(r.verb, r.uri, r.version);
  }

  // ----- Messages -----

  lemma HeadersOf(headers: seq<Header>, content: string, rest: string)
    requires WellFormedHeaders(headers) && |content| < 0x8000_0000
    ensures ReadHeaders((PrintHeaders(SentHeaders(headers, content)) + CRLF + content) + rest, "")
            == Ok(Parsed(SentHeaders(headers, content), content + rest))
  {
    hide ReadHeaders, PrintHeaders, WellFormedHeaders, SentHeaders;
    var sent := SentHeaders(headers, content);
    SentHeadersAreWellFormed(headers, content);
    HeadersRoundTrip(sent, content + rest, "");
    assert (PrintHeaders(sent) + CRLF + content) + rest == PrintHeaders(sent) + CRLF + (content + rest);
    assert Flush("") + sent == sent;
  }

  /** A request on a connection comes back field by field, with the added length header,
    * its content, and everything after it unread, exactly when its headers do not promise
    * chunks and a given Content-Length agrees with the content.
    */
  lemma RequestRoundTrip(r: Request, rest: string)
    requires WellFormedRequest(r)
    ensures ReadRequest(PrintRequest(r) + rest) == Ok(Parsed(r.(headers := SentHeaders(r.headers, r.content)), rest))
            <==> !IsChunked(r.headers) && Delimited(r.headers, r.content, rest, false)
  {
    hide ReadHeaders, PrintHeaders, WellFormedHeaders, SentHeaders, ReadRequestLine, ReadBody, Delimited, WellFormedStart;
    var tail := PrintHeaders(SentHeaders(r.headers, r.content)) + CRLF + r.content;
    assert PrintRequest(r) + rest == RequestStart(r) + CRLF + (tail + rest);
    RequestLineRoundTrip(r, tail + rest);
    HeadersOf(r.headers, r.content, rest);
    BodyRoundTrip(r.headers, r.content, rest, false);
  }

  /** A response likewise. Without content it needs an explicit length, or it swallows
    * what follows; and a response with status 304 must not have content at all.
    */
  lemma ResponseRoundTrip(r: Response, rest: string)
    requires WellFormedResponse(r)
    ensures ReadResponse(PrintResponse(r) + rest) == Ok(Parsed(r.(headers := SentHeaders(r.headers, r.content)), rest))
            <==> if r.status == 304 then r.content == ""
                 else !IsChunked(r.headers) && Delimited(r.headers, r.content, rest, true)
  {
    hide ReadHeaders, PrintHeaders, WellFormedHeaders, SentHeaders, ReadResponseLine, ReadBody, Delimited,
         WellFormedStart, Decimal, SameIgnoringCase;
    var tail := PrintHeaders(SentHeaders(r.headers, r.content)) + CRLF + r.content;
    assert PrintResponse(r) + rest == ResponseStart(r) + CRLF + (tail + rest);
    ResponseLineRoundTrip(r, tail + rest);
    HeadersOf(r.headers, r.content, rest);
    BodyRoundTrip(r.headers, r.content, rest, true);
    if r.content == "" {
      assert r.content + rest == rest;
    } else {
      assert |r.content + rest| != |rest|;
    }
  }

  /** What happens otherwise: a response without content or length takes the bytes of the
    * following message as its own content.
    */
  lemma UndelimitedResponseSwallowsTheRest(r: Response, rest: string)
    requires WellFormedResponse(r) && r.status != 304 && !IsChunked(r.headers)
    requires r.content == "" && Lookup(r.headers, CONTENT_LENGTH) == None
    ensures ReadResponse(PrintResponse(r) + rest) == Ok(Parsed(r.(content := rest), ""))
  {
    hide ReadHeaders, PrintHeaders, WellFormedHeaders, ReadResponseLine, WellFormedStart, Decimal, SameIgnoringCase;
    var tail := PrintHeaders(SentHeaders(r.headers, r.content)) + CRLF + r.content;
    assert PrintResponse(r) + rest == ResponseStart(r) + CRLF + (tail + rest);
    ResponseLineRoundTrip(r, tail + rest);
    HeadersOf(r.headers, r.content, rest);
    assert r.content + rest == rest;
  }
}
