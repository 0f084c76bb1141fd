/** What the reader and the writer do with given text, said in terms of the text itself:
  * start lines of one, two or three parts, the limits of the buffers and fields, header
  * lines with any white space, names in any case, and the bytes that are written.
  */
module HttpReading {
  import opened Common
  import opened HttpText
  import opened HttpSpec

  // ----- Lines and limits -----

  lemma LongLine(s: string, rest: string, size: nat)
    requires '\n' !in s && |s| >= size > 0
    ensures GetLine(s + "\n" + rest, size) == Bad
  {
    LineLengthOf(s, rest);
  }

  /** A clean line is read back if it fits the buffer together with its carriage return and a
    * terminator, and refused otherwise.
    */
  lemma LineReadExactly(s: string, rest: string, size: nat)
    requires IsCleanLine(s) && size > 0
    ensures TrimmedLine(s + "\r\n" + rest, size) == if |s| + 1 < size then Good(s, rest) else Bad
  {
    if |s| + 1 < size {
      TrimmedLineOf(s, rest, size);
    } else {
      assert s + "\r\n" + rest == (s + "\r") + "\n" + rest;
      LongLine(s + "\r", rest, size);
    }
  }

  /** An unfinished line is an error for every reader of lines. */
  lemma UnfinishedLineRefused(s: string, pending: string)
    requires '\n' !in s
    ensures ReadRequestLine(s) == Err && ReadResponseLine(s) == Err && ReadHeaders(s, pending) == Err && ReadChunks(s) == Err
  {
    assert LineLength(s) == |s|;
  }

  function Prefix(s: string, max: nat): string { if |s| <= max then s else s[..max] }

  // ----- Start lines -----

  // A start line of one to three parts; only the third may contain blanks.
  predicate AreParts(parts: seq<string>) {
    && 1 <= |parts| <= 3 && ' ' !in parts[0] && (|parts| > 1 ==> ' ' !in parts[1])
  }

  function Line(parts: seq<string>): string
    requires AreParts(parts)
  {
    parts[0] + (if |parts| > 1 then " " + parts[1] else "") + (if |parts| > 2 then " " + parts[2] else "")
  }

  lemma NoSeparator(s: string, del: char)
    requires del !in s
    ensures Token(s, del) == s && AfterToken(s, del) == None
  {
  }

  lemma SplitParts(parts: seq<string>)
    requires AreParts(parts)
    ensures SplitStartLine(Line(parts)) == StartLine(
              parts[0], if |parts| > 1 then Some(parts[1]) else None, if |parts| > 2 then Some(parts[2]) else None)
  {
    hide Token, AfterToken;
    var a := parts[0];
    if |parts| == 1 {
      assert Line(parts) == a;
      NoSeparator(a, ' ');
    } else {
      var b := parts[1];
      var more := b + if |parts| > 2 then " " + parts[2] else "";
      assert Line(parts) == a + [' '] + more;
      Separate(a, ' ', more);
      if |parts| == 2 {
        assert more == b;
        NoSeparator(b, ' ');
      } else {
        assert more == b + [' '] + parts[2];
        Separate(b, ' ', parts[2]);
      }
    }
  }

  /** Any request line of one to three parts: method and version are cut to 15 characters, a
    * missing URI is empty and a missing version is 1.0; a line that does not fit 1024 bytes
    * with its end is refused.
    */
  lemma RequestLineRead(parts: seq<string>, rest: string)
    requires AreParts(parts) && IsCleanLine(Line(parts))
    ensures ReadRequestLine(Line(parts) + "\r\n" + rest) ==
            if |Line(parts)| + 1 < 1024 then
              Ok(Parsed(Request(Prefix(parts[0], 15), if |parts| > 1 then parts[1] else "",
                                if |parts| > 2 then Prefix(parts[2], 15) else "HTTP/1.0", [], ""), rest))
            else Err
  {
    hide SplitStartLine, TrimmedLine, IsCleanLine, Line;
    LineReadExactly(Line(parts), rest, 1024);
    SplitParts(parts);
  }

  /** Any status line of one to three parts: it is accepted if and only if it fits and begins
    * with HTTP in any case; a missing status is 200 and a missing reason is OK, which is
    * cut to 127 characters like any other.
    */
  lemma StatusLineRead(parts: seq<string>, rest: string)
    requires AreParts(parts) && IsCleanLine(Line(parts))
    ensures var line := Line(parts);
      ReadResponseLine(line + "\r\n" + rest) ==
      if 4 <= |line| < 1023 && SameIgnoringCase(line[..4], "HTTP") then
        Ok(Parsed(Response(Prefix(parts[0], 15), if |parts| > 1 then StrToInt(parts[1], 10) else 200,
                           if |parts| > 2 then Prefix(parts[2], 127) else "OK", [], ""), rest))
      else Err
  {
    hide SplitStartLine, TrimmedLine, IsCleanLine, Line, StrToInt, SameIgnoringCase;
    LineReadExactly(Line(parts), rest, 1024);
    SplitParts(parts);
  }

  // ----- Header lines -----

  /** A header line is read with any white space around its value's start. */
  lemma HeaderLineRead(name: string, blanks: string, value: string)
    requires ':' !in name && forall i | 0 <= i < |blanks| :: blanks[i] as int in {9, 10, 11, 12, 13, 32}
    requires value == "" || value[0] as int !in {9, 10, 11, 12, 13, 32}
    ensures SplitHeader(name + ":" + blanks + value) == Header(name, value)
  {
    hide Token, AfterToken, TrimLeft, IsSpace;
    forall i | 0 <= i < |blanks| ensures IsSpace(blanks[i]) {
      SpacesAre(blanks[i]);
    }
    if value != "" {
      SpacesAre(value[0]);
    }
    assert name + ":" + blanks + value == name + [':'] + (blanks + value);
    Separate(name, ':', blanks + value);
    TrimLeftOf(blanks, value);
  }

  /** A header line without a colon is a name without a value. */
  lemma NoColon(line: string)
    requires ':' !in line
    ensures SplitHeader(line) == Header(line, "")
  {
    NoSeparator(line, ':');
  }

  /** A header line continues the one before it if and only if it begins with white space. */
  lemma ContinuationsAre(line: string)
    ensures StartsNew(line) <==> line == "" || line[0] as int !in {9, 10, 11, 12, 13, 32}
  {
    if line != "" {
      SpacesAre(line[0]);
    }
  }

  /** A header line that does not fit 8192 bytes with its end is refused. */
  lemma LongHeaderRefused(line: string, rest: string, pending: string)
    requires IsCleanLine(line) && |line| + 1 >= 8192
    ensures ReadHeaders(line + "\r\n" + rest, pending) == Err
  {
    LineReadExactly(line, rest, 8192);
  }

  // ----- Names in any case -----

  // The same headers but for the case of their names.
  predicate SameButCase(a: seq<Header>, b: seq<Header>) {
    && |a| == |b|
    && forall i | 0 <= i < |a| ::
      && a[i].value == b[i].value && |a[i].name| == |b[i].name|
      && forall k | 0 <= k < |a[i].name| :: SameLetter(a[i].name[k], b[i].name[k])
  }

  lemma SameNameEitherWay(name: string, a: string, b: string)
    requires |a| == |b| && forall k | 0 <= k < |a| :: SameLetter(a[k], b[k])
    ensures SameIgnoringCase(name, a) <==> SameIgnoringCase(name, b)
  {
    forall k | 0 <= k < |a| ensures Lower(a[k]) == Lower(b[k]) {
      LowerIsCase(a[k], b[k]);
    }
  }

  /** The case of header names never matters for a lookup. */
  lemma {:induction false} LookupIgnoresCase(a: seq<Header>, b: seq<Header>, name: string)
    requires SameButCase(a, b)
    ensures Lookup(a, name) == Lookup(b, name)
    decreases |a|
  {
    hide SameIgnoringCase, SameLetter;
    if a != [] {
      SameNameEitherWay(name, a[0].name, b[0].name);
      LookupIgnoresCase(a[1..], b[1..], name);
    }
  }

  /** Nor does the case in which a header is asked for. */
  lemma {:induction false} AskingIgnoresCase(headers: seq<Header>, a: string, b: string)
    requires |a| == |b| && forall k | 0 <= k < |a| :: SameLetter(a[k], b[k])
    ensures Lookup(headers, a) == Lookup(headers, b)
    decreases |headers|
  {
    hide SameLetter, SameIgnoringCase;
    if headers != [] {
      SameNameEitherWay(headers[0].name, a, b);
      Symmetric(a, headers[0].name);
      Symmetric(b, headers[0].name);
      AskingIgnoresCase(headers[1..], a, b);
    }
  }

  lemma Symmetric(a: string, b: string)
    ensures SameIgnoringCase(a, b) <==> SameIgnoringCase(b, a)
  {
  }

  /** How the names Content-Length and Transfer-Encoding are spelled does not change what is
    * read as the body.
    */
  lemma BodyIgnoresCase(input: string, a: seq<Header>, b: seq<Header>, response: bool)
    requires SameButCase(a, b)
    ensures ReadBody(input, a, response) == ReadBody(input, b, response)
  {
    hide Lookup, SameButCase, StrToInt, ReadChunks;
    LookupIgnoresCase(a, b, TRANSFER_ENCODING);
    LookupIgnoresCase(a, b, CONTENT_LENGTH);
  }

  /** A length given under any spelling of Content-Length is obeyed: unless the headers promise
    * chunks, the body is that many bytes, and it is an error if they do not come.
    */
  lemma LengthIsObeyed(headers: seq<Header>, length: string, input: string, response: bool)
    requires !IsChunked(headers) && Lookup(headers, "content-LENGTH") == Some(length)
    requires IsNumeral(length, 10) && Value(length, 10) < 0x8000_0000
    ensures var n := Value(length, 10);
      ReadBody(input, headers, response) == if n <= |input| then Ok(Parsed(input[..n], input[n..])) else Err
  {
    hide Lookup, IsChunked, StrToInt, Value, SameLetter, NumeralValue;
    LengthNameAnyCase();
    AskingIgnoresCase(headers, "content-LENGTH", CONTENT_LENGTH);
    NumeralRead("", "", length, 10, "");
    assert "" + "" + length + "" == length;
  }

  lemma LengthNameAnyCase()
    ensures |CONTENT_LENGTH| == |"content-LENGTH"|
    ensures forall k | 0 <= k < |CONTENT_LENGTH| :: SameLetter("content-LENGTH"[k], CONTENT_LENGTH[k])
  {
  }

  /** A negative length means no content. */
  lemma NegativeLengthMeansNone(headers: seq<Header>, length: string, input: string, response: bool)
    requires !IsChunked(headers) && Lookup(headers, "content-LENGTH") == Some("-" + length)
    requires IsNumeral(length, 10) && Value(length, 10) <= 0x8000_0000
    ensures ReadBody(input, headers, response) == Ok(Parsed("", input))
  {
    hide IsChunked, Lookup, StrToInt, Value, IsNumeral, NumeralValue;
    LengthNameAnyCase();
    AskingIgnoresCase(headers, "content-LENGTH", CONTENT_LENGTH);
    NumeralRead("", "-", length, 10, "");
    assert "" + "-" + length + "" == "-" + length;
  }

  /** A chunk that does not come in full is an error. */
  lemma ShortChunkRefused(n: nat, size: string, ext: string, data: string)
    requires IsSizeLine(n, size, ext) && |data| < n
    ensures ReadChunks(SizeLine(size, ext) + data) == Err
  {
    hide StrToInt, GetLine, SizeLine, IsSizeLine, CStr;
    SizeLineRead(n, size, ext, data);
  }

  /** The headers promise chunks if and only if the first Transfer-Encoding says chunked, both
    * in any case.
    */
  lemma ChunksArePromised(headers: seq<Header>)
    ensures IsChunked(headers) <==>
              match Lookup(headers, "transfer-encoding")
              case None => false
              case Some(v) => |v| == 7 && forall k | 0 <= k < 7 :: SameLetter(v[k], "chunked"[k])
  {
    hide Lookup, SameLetter, SameIgnoringCase;
    EncodingNameAnyCase();
    AskingIgnoresCase(headers, "transfer-encoding", TRANSFER_ENCODING);
    match Lookup(headers, TRANSFER_ENCODING)
    case None =>
    case Some(v) => SameNamesAre(v, "chunked");
  }

  lemma EncodingNameAnyCase()
    ensures |TRANSFER_ENCODING| == |"transfer-encoding"|
    ensures forall k | 0 <= k < |TRANSFER_ENCODING| :: SameLetter("transfer-encoding"[k], TRANSFER_ENCODING[k])
  {
  }

  // ----- What is written -----

  // The lines of the headers, one after the other.
  function HeaderLines(headers: seq<Header>): string {
    if headers == [] then ""
    else
      var last := headers[|headers| - 1];
      HeaderLines(headers[..|headers| - 1]) + last.name + ": " + last.value + "\r\n"
  }

  lemma LineAppended(headers: seq<Header>, h: Header)
    ensures HeaderLines([]) == ""
    ensures HeaderLines(headers + [h]) == HeaderLines(headers) + (h.name + ": " + h.value + "\r\n")
  {
    assert (headers + [h])[..|headers|] == headers;
  }

  lemma FirstPrinted(headers: seq<Header>)
    ensures PrintHeaders([]) == ""
    ensures headers != [] ==>
              PrintHeaders(headers) == (headers[0].name + ": " + headers[0].value + "\r\n") + PrintHeaders(headers[1..])
  {
  }

  lemma {:induction false} PrintedLines(headers: seq<Header>, more: seq<Header>)
    ensures HeaderLines(headers) + PrintHeaders(more) == HeaderLines(headers + more)
    decreases |more|
  {
    hide HeaderLines, PrintHeaders;
    FirstPrinted(more);
    if more == [] {
      assert headers + more == headers;
    } else {
      LineAppended(headers, more[0]);
      PrintedLines(headers + [more[0]], more[1..]);
      assert headers + [more[0]] + more[1..] == headers + more;
    }
  }

  // The line that is added when there is content and no length is given.
  function LengthLine(headers: seq<Header>, content: string): string {
    if content != "" && Lookup(headers, "content-length") == None
    then "Content-Length: " + Digits(|content|, 10) + "\r\n" else ""
  }

  lemma PrintedHead(headers: seq<Header>, content: string)
    ensures PrintHeaders(SentHeaders(headers, content)) == HeaderLines(headers) + LengthLine(headers, content)
  {
    hide Lookup, Digits, SameLetter, PrintHeaders, HeaderLines;
    LowerCaseLengthName();
    AskingIgnoresCase(headers, "content-length", CONTENT_LENGTH);
    var sent := SentHeaders(headers, content);
    PrintedLines([], sent);
    assert [] + sent == sent;
    LineAppended(headers, Header("Content-Length", Digits(|content|, 10)));
    assert HeaderLines(headers) + "" == HeaderLines(headers);
    assert "Content-Length" + ": " == "Content-Length: ";
  }

  lemma LowerCaseLengthName()
    ensures |CONTENT_LENGTH| == |"content-length"|
    ensures forall k | 0 <= k < |CONTENT_LENGTH| :: SameLetter("content-length"[k], CONTENT_LENGTH[k])
  {
  }

  /** The bytes of a request: start line, header lines, a length line if it is needed, a blank
    * line, and the content.
    */
  lemma RequestText(r: Request)
    ensures PrintRequest(r) ==
            r.verb + " " + r.uri + " " + r.version + "\r\n" + HeaderLines(r.headers) + LengthLine(r.headers, r.content)
            + "\r\n" + r.content
  {
    hide PrintHeaders, SentHeaders, HeaderLines, LengthLine;
    PrintedHead(r.headers, r.content);
  }

  /** The bytes of a response. */
  lemma ResponseText(r: Response)
    ensures PrintResponse(r) ==
            r.version + " " + (if r.status < 0 then "-" + Digits(-r.status, 10) else Digits(r.status, 10)) + " " + r.reason
            + "\r\n" + HeaderLines(r.headers) + LengthLine(r.headers, r.content) + "\r\n" + r.content
  {
    hide PrintHeaders, SentHeaders, HeaderLines, LengthLine, Digits;
    PrintedHead(r.headers, r.content);
  }
}
