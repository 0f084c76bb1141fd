/** The HTTP reader and writer as they work on buffers: the start line and the headers are
  * read into a character buffer that is trimmed and cut up in place.
  */
module HttpProto {
  import opened Common
  import opened HttpText
  import opened HttpSpec
  import opened HttpMessages
  import opened HttpQuery
  import HttpRoundTrip
  import UrlEncoding

  // ----- C strings in a buffer -----

  lemma {:induction false} CStrEndsAt(s: string, n: nat)
    requires n < |s| && NUL !in s[..n] && s[n] == NUL
    ensures CStr(s) == s[..n]
    decreases n
  {
    if n > 0 {
      assert s[0] == s[..n][0];
      assert s[1..][..n - 1] == s[..n][1..];
      CStrEndsAt(s[1..], n - 1);
    }
  }

  // The position of the terminator, from p on.
  function EndOf(s: string, p: nat): (n: nat)
    requires p <= |s| && NUL in s[p..]
    ensures p <= n < |s| && s[n] == NUL && NUL !in s[p..n]
    ensures CStr(s[p..]) == s[p..n]
  {
    var k := IndexOf(s[p..], NUL);
    CStrEndsAt(s[p..], k);
    assert s[p..][..k] == s[p..p + k];
    p + k
  }

  lemma StringInside(s: string, p: nat, n: nat)
    requires p <= n < |s| && NUL !in s[p..n] && s[n] == NUL
    ensures CStr(s[p..]) == s[p..n] && NUL in s[p..]
  {
    assert s[p..][..n - p] == s[p..n] && s[p..][n - p] == NUL;
    CStrEndsAt(s[p..], n - p);
  }

  lemma {:induction false} CStrOfPrefix(s: string, t: string)
    requires s + [NUL] <= t
    ensures CStr(t) == CStr(s) && NUL in t
    decreases |s|
  {
    assert t[|s|] == NUL;
    if s != "" && s[0] != NUL {
      assert t[0] == s[0] && s[1..] + [NUL] <= t[1..];
      CStrOfPrefix(s[1..], t[1..]);
    }
  }

  // ----- The connection -----

  // The byte stream under the reader and writer: what the peer has still to deliver
  // before it closes, and what has been written.
  class TcpStream {
    var input: string
    var output: string

    constructor (input: string)
      ensures this.input == input && output == ""
    {
      this.input, output := input, "";
    }

    method Put(text: string)
      modifies this`output
      ensures output == old(output) + text
    {
      output := output + text;
    }

    /** istream::getline. gcount also counts the newline, which is not stored. */
    method Getline(line: array<char>) returns (good: bool, gcount: nat)
      requires line.Length > 0
      modifies this`input, line
      ensures good <==> GetLine(old(input), line.Length).Good?
      ensures good ==> var r := GetLine(old(input), line.Length);
                input == r.rest && gcount == |r.text| + 1 && r.text + [NUL] <= line[..]
      ensures gcount <= |old(input)| && input == old(input)[gcount..]
    {
      ghost var was := input;
      gcount := 0;
      while gcount + 1 < line.Length && input != "" && input[0] != '\n'
        invariant gcount < line.Length && gcount <= |was| && input == was[gcount..]
        invariant line[..gcount] == was[..gcount] && '\n' !in was[..gcount]
      {
        line[gcount] := input[0];
        assert was[..gcount + 1] == was[..gcount] + [input[0]];
        input := input[1..];
        gcount := gcount + 1;
      }
      line[gcount] := NUL;
      good := input != "" && input[0] == '\n';
      FirstLine(was, gcount, line.Length);
      if good {
        input := input[1..];
        assert line[..] == was[..gcount] + [NUL] + line[gcount + 1..];
        gcount := gcount + 1;
      }
    }

    /** Reads n bytes, or as many as are left. */
    method Read(buff: array<char>, n: nat) returns (good: bool, gcount: nat)
      requires n <= buff.Length
      modifies this`input, buff
      ensures good <==> n <= |old(input)|
      ensures gcount == if good then n else |old(input)|
      ensures buff[..gcount] == old(input)[..gcount] && input == old(input)[gcount..]
    {
      good := n <= |input|;
      gcount := if good then n else |input|;
      forall i | 0 <= i < gcount {
        buff[i] := input[i];
      }
      input := input[gcount..];
    }

    /** Reads a line and overwrites its line end, from the right, with terminators. */
    method GetlineWithTrimRight(line: array<char>) returns (good: bool)
      requires line.Length > 0
      modifies this`input, line
      ensures match TrimmedLine(old(input), line.Length)
              case Bad => !good
              case Good(text, rest) => good && input == rest && CStr(line[..]) == text && NUL in line[..]
    {
      hide GetLine, TrimRight, CStr;
      var gcount;
      good, gcount := Getline(line);
      if good {
        TrimLine(line, gcount, GetLine(old(input), line.Length).text);
      }
    }
  }

  // The loop that runs down from the terminator.
  method TrimLine(line: array<char>, gcount: nat, ghost text: string)
    requires gcount == |text| + 1 && text + [NUL] <= line[..]
    modifies line
    ensures CStr(line[..]) == CStr(TrimRight(text)) && NUL in line[..]
  {
    hide CStr, TrimRight;
    var pos := gcount - 1;
    assert text[..pos] == text;
    while pos >= 0 && (line[pos] == NUL || line[pos] == '\r' || line[pos] == '\n')
      invariant -1 <= pos <= |text| < line.Length
      invariant forall i | 0 <= i <= pos && i < |text| :: line[i] == text[i]
      invariant line[if pos == |text| then pos else pos + 1] == NUL
      invariant pos < |text| ==> TrimRight(text[..pos + 1]) == TrimRight(text)
    {
      if pos < |text| {
        TrimOne(text[..pos + 1]);
        assert text[..pos + 1][..pos] == text[..pos];
      }
      line[pos] := NUL;
      pos := pos - 1;
    }
    TrimOne(text[..pos + 1]);
    CStrOfPrefix(text[..pos + 1], line[..]);
  }

  lemma TrimOne(s: string)
    ensures TrimRight(s) == if s != "" && IsLineEnd(s[|s| - 1]) then TrimRight(s[..|s| - 1]) else s
  {
  }

  lemma FirstLine(s: string, n: nat, size: nat)
    requires n <= |s| && '\n' !in s[..n] && n < size
    requires n + 1 == size || n == |s| || s[n] == '\n'
    ensures GetLine(s, size) == if n < |s| && s[n] == '\n' then Good(s[..n], s[n + 1..]) else Bad
  {
    assert forall i | 0 <= i < n :: s[i] == s[..n][i] != '\n';
    if n < |s| && s[n] == '\n' {
      assert s == s[..n] + "\n" + s[n + 1..];
      GetLineOf(s[..n], s[n + 1..], size);
    }
  }

  // ----- Cutting up a line in place -----

  lemma IndexOfIs(s: string, del: char, k: nat)
    requires k <= |s| && del !in s[..k] && (k == |s| || s[k] == del)
    ensures IndexOf(s, del) == k
  {
    assert forall i | 0 <= i < k :: s[i] == s[..k][i];
  }

  /** strsep, with positions for pointers: s is cut at the first del, which is overwritten
    * by a terminator; next is what follows it, or null.
    */
  method Strsep(line: array<char>, s: Option<nat>, del: char) returns (tok: Option<nat>, next: Option<nat>)
    requires del != NUL && (s.Some? ==> s.value <= line.Length && NUL in line[s.value..])
    modifies line
    ensures tok == s
    ensures s.None? ==> next.None? && line[..] == old(line[..])
    ensures s.Some? ==>
              var text := old(CStr(line[s.value..]));
              && line[..s.value] == old(line[..s.value])
              && NUL in line[s.value..] && CStr(line[s.value..]) == Token(text, del)
              && (next.Some? <==> AfterToken(text, del).Some?)
              && (next.Some? ==>
                    && s.value < next.value <= line.Length && line[next.value - 1] == NUL
                    && NUL in line[next.value..] && CStr(line[next.value..]) == AfterToken(text, del).value)
  {
    hide CStr, Token, AfterToken;
    if s.None? {
      return None, None;
    }
    tok := s;
    var p := s.value;
    ghost var was := line[..];
    ghost var end := EndOf(was, p);
    var d := p;
    while line[d] != NUL && line[d] != del
      invariant p <= d <= end
      invariant forall i | p <= i < d :: was[i] != del
      decreases end - d
    {
      d := d + 1;
    }
    CutAt(was, p, d, end, del);
    if line[d] == del {
      line[d] := NUL;
      next := Some(d + 1);
      assert line[..] == was[d := NUL];
    } else {
      next := None;
    }
  }

  // What the cut at d leaves in the buffer.
  lemma CutAt(s: string, p: nat, d: nat, end: nat, del: char)
    requires del != NUL && p <= d <= end < |s| && s[end] == NUL && NUL !in s[p..end]
    requires (forall i | p <= i < d :: s[i] != del) && (s[d] == del || d == end)
    ensures var text := CStr(s[p..]);
      if d == end then Token(text, del) == text && AfterToken(text, del) == None
      else
        var t := s[d := NUL];
        && t[..p] == s[..p] && NUL in t[p..] && CStr(t[p..]) == Token(text, del)
        && NUL in t[d + 1..] && AfterToken(text, del) == Some(CStr(t[d + 1..]))
  {
    hide CStr;
    var text := s[p..end];
    StringInside(s, p, end);
    IndexOfIs(text, del, d - p);
    if d < end {
      var t := s[d := NUL];
      StringInside(t, p, d);
      assert t[p..d] == text[..d - p];
      StringInside(t, d + 1, end);
      assert t[d + 1..end] == text[d - p + 1..];
    } else {
      assert text[..d - p] == text;
    }
  }

  lemma {:induction false} TrimLeftAt(s: string, n: nat)
    requires n <= |s| && (forall i | 0 <= i < n :: IsSpace(s[i])) && (n == |s| || !IsSpace(s[n]))
    ensures TrimLeft(s) == s[n..]
    decreases n
  {
    if n > 0 {
      assert forall i | 0 <= i < n - 1 :: s[1..][i] == s[i + 1];
      TrimLeftAt(s[1..], n - 1);
    }
  }

  // Steps over white space from pos on.
  method SkipSpaces(line: array<char>, pos: nat) returns (q: nat)
    requires pos <= line.Length && NUL in line[pos..]
    ensures pos <= q < line.Length && NUL in line[q..]
    ensures CStr(line[q..]) == TrimLeft(CStr(line[pos..]))
  {
    hide CStr, TrimLeft, IsSpace;
    ghost var s := line[..];
    ghost var end := EndOf(s, pos);
    ghost var text := s[pos..end];
    q := pos;
    while line[q] != NUL && IsSpace(line[q])
      invariant pos <= q <= end
      invariant forall i | 0 <= i < q - pos :: IsSpace(text[i])
      decreases end - q
    {
      q := q + 1;
    }
    TrimLeftAt(text, q - pos);
    assert text[q - pos..] == s[q..end];
    StringInside(s, q, end);
  }

  // ----- Start lines -----

  // The two cuts that both start lines make.
  method CutStartLine(line: array<char>) returns (first: nat, second: Option<nat>, pos: Option<nat>)
    requires NUL in line[..]
    modifies line
    ensures first == 0 && (second.Some? ==> second.value <= line.Length) && (pos.Some? ==> pos.value <= line.Length)
    ensures SplitStartLine(old(CStr(line[..]))) == StartLine(
              CStr(line[..]),
              if second.None? then None else Some(CStr(line[second.value..])),
              if pos.None? then None else Some(CStr(line[pos.value..])))
  {
    hide CStr;
    assert line[0..] == line[..];
    var tok;
    tok, pos := Strsep(line, Some(0), ' ');
    first := 0;
    assert line[0..] == line[..];
    ghost var cut := line[..];
    second, pos := Strsep(line, pos, ' ');
    if second.Some? {
      ghost var end := EndOf(cut, 0);
      ghost var q := second.value;
      assert cut[q - 1] == NUL && end <= q - 1;
      assert line[..q] == cut[..q];
      assert line[0..end] == cut[0..end];
      StringInside(line[..], 0, end);
      assert line[..][0..] == line[..] && cut[0..] == cut;
    }
  }

  /** Return value 0 of the reader is ok here; on failure the stream cannot be read on. */
  method RecvReqStartLine(socket: TcpStream, req: HttpMessage) returns (ok: bool)
    modifies socket`input, req`verb, req`uri, req`version
    ensures match TrimmedLine(old(socket.input), START_LINE_LEN)
            case Bad => !ok && unchanged(req)
            case Good(text, rest) =>
              var l := SplitStartLine(text);
              && ok && socket.input == rest
              && req.verb == Fit(l.first, METHOD_MAX)
              && req.uri == l.second.GetOr(old(req.uri))
              && req.version == if l.third.Some? then Fit(l.third.value, VERSION_MAX) else old(req.version)
  {
    hide CStr, SplitStartLine, TrimmedLine, Fit;
    var line := new char[START_LINE_LEN](_ => NUL);
    ok := socket.GetlineWithTrimRight(line);
    if ok {
      var first, second, pos := CutStartLine(line);
      req.SetMethod(CStr(line[..]));
      if second.Some? {
        req.uri := CStr(line[second.value..]);
      }
      if pos.Some? {
        req.SetVersion(CStr(line[pos.value..]));
      }
    }
  }

  method RecvRespStartLine(socket: TcpStream, resp: HttpMessage) returns (ok: bool)
    modifies socket`input, resp`version, resp`status_code, resp`reason_phrase
    ensures match TrimmedLine(old(socket.input), START_LINE_LEN)
            case Bad => !ok && unchanged(resp)
            case Good(text, rest) =>
              var l := SplitStartLine(text);
              && (ok <==> |text| >= 4 && SameIgnoringCase(text[..4], "HTTP"))
              && (!ok ==> unchanged(resp))
              && (ok ==>
                    && socket.input == rest
                    && resp.version == Fit(l.first, VERSION_MAX)
                    && resp.status_code == (if l.second.Some? then StrToInt(l.second.value, 10) else old(resp.status_code))
                    && resp.reason_phrase == if l.third.Some? then Fit(l.third.value, REASON_MAX) else old(resp.reason_phrase))
  {
    hide CStr, SplitStartLine, TrimmedLine, Fit, StrToInt, SameIgnoringCase;
    var line := new char[START_LINE_LEN](_ => NUL);
    ok := socket.GetlineWithTrimRight(line);
    if ok {
      var text := CStr(line[..]);
      ok := |text| >= 4 && SameIgnoringCase(text[..4], "HTTP");
    }
    if ok {
      var first, second, pos := CutStartLine(line);
      resp.SetVersion(CStr(line[..]));
      if second.Some? {
        resp.status_code := StrToInt(CStr(line[second.value..]), 10);
      }
      if pos.Some? {
        resp.SetReasonPhrase(CStr(line[pos.value..]));
      }
    }
  }

  // ----- Headers -----

  // A completed logical line is cut at its colon and stored.
  method AddPending(msg: HttpMessage, multi_line: string)
    requires msg.Valid() && NUL !in multi_line
    modifies msg`header_name_list, msg`header_value_list
    ensures msg.Valid() && msg.Headers() == old(msg.Headers()) + Flush(multi_line)
  {
    hide CStr, TrimLeft;
    if |multi_line| > 0 {
      var header := new char[|multi_line| + 1](i requires 0 <= i => if i < |multi_line| then multi_line[i] else NUL);
      assert header[0..|multi_line|] == multi_line;
      StringInside(header[..], 0, |multi_line|);
      assert header[..][0..] == header[0..] == header[..];
      var name, pos := Strsep(header, Some(0), ':');
      assert header[0..] == header[..];
      var value := "";
      if pos.Some? {
        var q := SkipSpaces(header, pos.value);
        value := CStr(header[q..]);
      } else {
        assert Token(multi_line, ':') == multi_line;
      }
      msg.AddHeader(CStr(header[..]), value);
    }
  }

  // What has been read already, in front of what is still read.
  function Before(done: seq<Header>, r: Result<Parsed<seq<Header>>>): Result<Parsed<seq<Header>>> {
    match r
    case Err => Err
    case Ok(p) => Ok(Parsed(done + p.value, p.rest))
  }

  lemma BeforeBoth(a: seq<Header>, b: seq<Header>, r: Result<Parsed<seq<Header>>>)
    ensures Before(a, Before(b, r)) == Before(a + b, r)
    ensures Before([], r) == r
  {
    if r.Ok? {
      assert a + (b + r.value.value) == a + b + r.value.value;
      assert [] + r.value.value == r.value.value;
    }
  }

  lemma ReadHeadersStep(input: string, pending: string)
    ensures ReadHeaders(input, pending) ==
            match TrimmedLine(input, MAX_RECV_LEN)
            case Bad => Err
            case Good(line, rest) =>
              var done := if StartsNew(line) then Flush(pending) else [];
              if line == "" then Ok(Parsed(done, rest))
              else Before(done, ReadHeaders(rest, (if StartsNew(line) then "" else pending) + TrimLeft(line)))
  {
    hide TrimmedLine, TrimLeft, StartsNew, Flush;
  }

  // One turn of the loop: a line is read, and what was pending is stored when the line
  // starts something new.
  method HeaderLine(socket: TcpStream, msg: HttpMessage, line: array<char>, pending: string)
    returns (is_good: bool, ended: bool, multi_line: string)
    requires msg.Valid() && NUL !in pending && line.Length == MAX_RECV_LEN
    modifies socket`input, msg`header_name_list, msg`header_value_list, line
    ensures msg.Valid() && NUL !in multi_line
    ensures match TrimmedLine(old(socket.input), MAX_RECV_LEN)
            case Bad => !is_good && msg.Headers() == old(msg.Headers())
            case Good(text, rest) =>
              && is_good && socket.input == rest && (ended <==> text == "")
              && msg.Headers() == old(msg.Headers()) + (if StartsNew(text) then Flush(pending) else [])
              && multi_line == (if StartsNew(text) then "" else pending) + TrimLeft(text)
  {
    hide CStr, TrimLeft, Flush, TrimmedLine;
    multi_line, ended := pending, false;
    is_good := socket.GetlineWithTrimRight(line);
    if !is_good {
      return;
    }
    FirstOf(line[..]);
    if !IsSpace(line[0]) || line[0] == NUL {
      AddPending(msg, multi_line);
      multi_line := "";
    }
    assert line[0..] == line[..];
    var pos := SkipSpaces(line, 0);
    multi_line := multi_line + CStr(line[pos..]);
    ended := line[0] == NUL;
  }

  /** RecvHeaders: the header lines up to the blank line, folded lines joined. */
  method RecvHeaders(socket: TcpStream, msg: HttpMessage) returns (ok: bool)
    requires msg.Valid()
    modifies socket`input, msg`header_name_list, msg`header_value_list
    ensures msg.Valid() && old(msg.Headers()) <= msg.Headers()
    ensures match ReadHeaders(old(socket.input), "")
            case Err => !ok
            case Ok(p) => ok && socket.input == p.rest && msg.Headers() == old(msg.Headers()) + p.value
  {
    hide TrimLeft, ReadHeaders, Flush, TrimmedLine, Before, StartsNew, HttpMessage.Headers;
    var line := new char[MAX_RECV_LEN];
    var multi_line := "";
    var ended := false;
    ghost var all := ReadHeaders(socket.input, "");
    ghost var was, done := msg.Headers(), [];
    BeforeBoth([], [], all);
    while !ended
      invariant msg.Valid() && msg.Headers() == was + done && NUL !in multi_line
      invariant ended ==> all == Ok(Parsed(done, socket.input))
      invariant !ended ==> all == Before(done, ReadHeaders(socket.input, multi_line))
      decreases !ended, |socket.input|
    {
      HeaderTurn(all, done, socket.input, multi_line);
      ghost var l, pending := TrimmedLine(socket.input, MAX_RECV_LEN), multi_line;
      var is_good;
      is_good, ended, multi_line := HeaderLine(socket, msg, line, multi_line);
      if !is_good {
        return false;
      }
      done := done + if StartsNew(l.text) then Flush(pending) else [];
    }
    return true;
  }

  lemma HeaderTurn(all: Result<Parsed<seq<Header>>>, done: seq<Header>, input: string, pending: string)
    requires all == Before(done, ReadHeaders(input, pending))
    ensures match TrimmedLine(input, MAX_RECV_LEN)
            case Bad => all == Err
            case Good(text, rest) =>
              var add := if StartsNew(text) then Flush(pending) else [];
              && |rest| < |input|
              && all == if text == "" then Ok(Parsed(done + add, rest))
                        else Before(done + add, ReadHeaders(rest, (if StartsNew(text) then "" else pending) + TrimLeft(text)))
  {
    ReadHeadersStep(input, pending);
    hide ReadHeaders, TrimLeft, Flush, StartsNew;
    match TrimmedLine(input, MAX_RECV_LEN)
    case Bad =>
    case Good(text, rest) =>
      var add := if StartsNew(text) then Flush(pending) else [];
      BeforeBoth(done, add, ReadHeaders(rest, (if StartsNew(text) then "" else pending) + TrimLeft(text)));
  }

  lemma FirstOf(s: string)
    requires NUL in s
    ensures s != "" && (CStr(s) == "" <==> s[0] == NUL) && (CStr(s) != "" ==> CStr(s)[0] == s[0])
  {
  }

  // ----- Bodies -----

  // The loop that reads a counted run of bytes in pieces of at most one buffer. When the
  // stream ends too early, what did arrive in whole pieces has been appended.
  method RecvPieces(socket: TcpStream, msg: HttpMessage, buff: array<char>, count: int) returns (is_good: bool)
    requires buff.Length == MAX_RECV_LEN
    modifies socket`input, msg`content, buff
    ensures match ReadCounted(old(socket.input), count)
            case Err => !is_good && socket.input == ""
            case Ok(p) => is_good && socket.input == p.rest && msg.content == old(msg.content) + p.value
    ensures old(msg.content) <= msg.content <= old(msg.content) + old(socket.input)
  {
    var size := count;
    ghost var content, input, n := msg.content, socket.input, 0;
    is_good := true;
    while size > 0
      invariant n <= |input| && socket.input == input[n..] && msg.content == content + input[..n]
      invariant size == (if count > 0 then count else size) - n && (count <= 0 ==> n == 0 && size == count)
      invariant size <= 0 ==> n == if count > 0 then count else 0
    {
      var read_len := if size > MAX_RECV_LEN then MAX_RECV_LEN else size;
      var gcount;
      is_good, gcount := socket.Read(buff, read_len);
      if is_good {
        size := size - read_len;
        msg.AppendContent(buff, read_len);
        assert input[..n + read_len] == input[..n] + input[n..][..read_len];
        n := n + read_len;
      } else {
        return;
      }
    }
  }

  function Joined(done: string, r: Result<Parsed<string>>): Result<Parsed<string>> {
    match r
    case Err => Err
    case Ok(p) => Ok(Parsed(done + p.value, p.rest))
  }

  // One turn of the chunk loop. size is what the size line says.
  lemma ChunkTurn(all: Result<Parsed<string>>, done: string, input: string)
    requires all == Joined(done, ReadChunks(input))
    ensures match GetLine(input, MAX_RECV_LEN)
            case Bad => all == Err
            case Good(line, rest) =>
              var size := StrToInt(CStr(line), 16);
              if size <= 0 then all == Ok(Parsed(done, rest))
              else if size > |rest| then all == Err
              else match GetLine(rest[size..], MAX_RECV_LEN)
                   case Bad => all == Err
                   case Good(_, after) => |after| < |input| && all == Joined(done + rest[..size], ReadChunks(after))
  {
    hide StrToInt, GetLine, CStr, Joined, ReadChunks;
    ReadChunksStep(input);
    JoinedErr(done);
    match GetLine(input, MAX_RECV_LEN)
    case Bad =>
    case Good(line, rest) =>
      var size := StrToInt(CStr(line), 16);
      JoinedOk(done, "", rest);
      if 0 < size <= |rest| {
        var end := GetLine(rest[size..], MAX_RECV_LEN);
        if end.Good? {
          JoinedBoth(done, rest[..size], ReadChunks(end.rest));
        }
      }
  }

  lemma ReadChunksStep(input: string)
    ensures ReadChunks(input) ==
            match GetLine(input, MAX_RECV_LEN)
            case Bad => Err
            case Good(line, rest) =>
              var size := StrToInt(CStr(line), 16);
              if size <= 0 then Ok(Parsed("", rest))
              else if size > |rest| then Err
              else match GetLine(rest[size..], MAX_RECV_LEN)
                   case Bad => Err
                   case Good(_, after) => Joined(rest[..size], ReadChunks(after))
  {
    hide StrToInt, GetLine, CStr;
  }

  lemma JoinedErr(done: string)
    ensures Joined(done, Err) == Err
  {
  }

  lemma JoinedOk(a: string, b: string, rest: string)
    ensures Joined(a, Ok(Parsed(b, rest))) == Ok(Parsed(a + b, rest)) && a + "" == a
  {
  }

  lemma JoinedBoth(a: string, b: string, r: Result<Parsed<string>>)
    ensures Joined(a, Joined(b, r)) == Joined(a + b, r)
  {
    if r.Ok? {
      assert a + (b + r.value.value) == a + b + r.value.value;
    }
  }

  lemma JoinedNothing(r: Result<Parsed<string>>)
    ensures Joined("", r) == r
  {
    if r.Ok? {
      assert "" + r.value.value == r.value.value;
    }
  }

  // strtol on the line in the buffer.
  method ParseSize(buff: array<char>, ghost text: string) returns (size: int)
    requires text + [NUL] <= buff[..]
    ensures size == StrToInt(CStr(text), 16)
  {
    CStrOfPrefix(text, buff[..]);
    size := StrToInt(CStr(buff[..]), 16);
  }

  // One turn of the chunk loop: the size line and, unless it is the last, the data and the
  // line end after it.
  method RecvChunk(socket: TcpStream, msg: HttpMessage, buff: array<char>) returns (is_good: bool, last: bool)
    requires buff.Length == MAX_RECV_LEN
    modifies socket`input, msg`content, buff
    ensures match GetLine(old(socket.input), MAX_RECV_LEN)
            case Bad => !is_good
            case Good(line, rest) =>
              var size := StrToInt(CStr(line), 16);
              if size <= 0 then is_good && last && socket.input == rest && msg.content == old(msg.content)
              else if size > |rest| then !is_good
              else match GetLine(rest[size..], MAX_RECV_LEN)
                   case Bad => !is_good
                   case Good(_, after) =>
                     is_good && !last && socket.input == after && msg.content == old(msg.content) + rest[..size]
  {
    hide StrToInt, GetLine, CStr;
    last := false;
    ghost var l := GetLine(socket.input, MAX_RECV_LEN);
    var gcount;
    is_good, gcount := socket.Getline(buff);
    if !is_good {
      return;
    }
    var size := ParseSize(buff, l.text);
    if size > 0 {
      is_good := RecvPieces(socket, msg, buff, size);
      // reached after a failed read too, where there is nothing left to read
      is_good, gcount := socket.Getline(buff);
      NothingToRead();
    } else {
      last := true;
    }
  }

  lemma NothingToRead()
    ensures GetLine("", MAX_RECV_LEN).Bad?
  {
  }

  /** The chunked branch of RecvBody. */
  method RecvChunks(socket: TcpStream, msg: HttpMessage, buff: array<char>) returns (is_good: bool)
    requires buff.Length == MAX_RECV_LEN
    modifies socket`input, msg`content, buff
    ensures match ReadChunks(old(socket.input))
            case Err => !is_good
            case Ok(p) => is_good && socket.input == p.rest && msg.content == old(msg.content) + p.value
  {
    hide StrToInt, GetLine, CStr, ReadChunks, Joined;
    ghost var all, content, done := ReadChunks(socket.input), msg.content, "";
    JoinedNothing(all);
    is_good := true;
    var last := false;
    while is_good && !last
      invariant is_good ==> msg.content == content + done
      invariant is_good && !last ==> all == Joined(done, ReadChunks(socket.input))
      invariant is_good && last ==> all == Ok(Parsed(done, socket.input))
      invariant !is_good ==> all == Err
      decreases is_good && !last, |socket.input|
    {
      ChunkTurn(all, done, socket.input);
      ghost var l := GetLine(socket.input, MAX_RECV_LEN);
      is_good, last := RecvChunk(socket, msg, buff);
      if is_good && !last {
        done := done + l.rest[..StrToInt(CStr(l.text), 16)];
      }
    }
  }

  // Without a length, a response is read until the stream ends.
  method RecvUntilClose(socket: TcpStream, msg: HttpMessage, buff: array<char>)
    requires buff.Length == MAX_RECV_LEN
    modifies socket`input, msg`content, buff
    ensures socket.input == "" && msg.content == old(msg.content) + old(socket.input)
  {
    ghost var content, input, n := msg.content, socket.input, 0;
    var is_good := true;
    while is_good
      invariant n <= |input| && socket.input == input[n..] && msg.content == content + input[..n]
      invariant !is_good ==> n == |input|
      decreases is_good, |socket.input|
    {
      var gcount;
      is_good, gcount := socket.Read(buff, MAX_RECV_LEN);
      assert input[..n + gcount] == input[..n] + input[n..][..gcount];
      if gcount > 0 {
        msg.AppendContent(buff, gcount);
      }
      n := n + gcount;
    }
    assert input[..n] == input;
  }

  /** RecvBody, guided by the headers that msg has. */
  method RecvBody(socket: TcpStream, msg: HttpMessage) returns (ok: bool)
    requires msg.Valid()
    modifies socket`input, msg`content
    ensures match ReadBody(old(socket.input), msg.Headers(), msg.kind == eResponse)
            case Err => !ok
            case Ok(p) => ok && socket.input == p.rest && msg.content == old(msg.content) + p.value
  {
    hide StrToInt, ReadChunks, Lookup, SameIgnoringCase;
    var buff := new char[MAX_RECV_LEN];
    ok := true;
    var encoding := msg.GetHeaderValue(TRANSFER_ENCODING);
    if encoding.Some? && SameIgnoringCase(encoding.value, "chunked") {
      ok := RecvChunks(socket, msg, buff);
    } else {
      var content_length := msg.GetHeaderValue(CONTENT_LENGTH);
      if content_length.Some? {
        ok := RecvPieces(socket, msg, buff, StrToInt(content_length.value, 10));
      } else if msg.kind == eResponse {
        RecvUntilClose(socket, msg, buff);
      }
    }
  }

  // ----- Whole messages -----

  /** Reading into a new request is ReadRequest. */
  method RecvReq(socket: TcpStream, req: HttpMessage) returns (ok: bool)
    requires req.Valid() && req.kind == eRequest && req.AsRequest() == Request("", "", "HTTP/1.0", [], "")
    modifies socket`input, req
    ensures req.Valid()
    ensures match ReadRequest(old(socket.input))
            case Err => !ok
            case Ok(p) => ok && socket.input == p.rest && req.AsRequest() == p.value
  {
    hide TrimmedLine, SplitStartLine, ReadHeaders, ReadBody;
    ok := RecvReqStartLine(socket, req);
    if ok {
      BeforeBoth([], [], ReadHeaders(socket.input, ""));
      ok := RecvHeaders(socket, req);
    }
    if ok {
      JoinedNothing(ReadBody(socket.input, req.Headers(), false));
      ok := RecvBody(socket, req);
    }
  }

  // The start line of a response that still has its initial values.
  method RecvFirstLine(socket: TcpStream, resp: HttpMessage) returns (ok: bool)
    requires resp.Valid() && resp.AsResponse() == Response("HTTP/1.0", 200, "OK", [], "")
    modifies socket`input, resp`version, resp`status_code, resp`reason_phrase
    ensures match ReadResponseLine(old(socket.input))
            case Err => !ok
            case Ok(p) => ok && socket.input == p.rest && resp.AsResponse() == p.value
  {
    hide TrimmedLine, SplitStartLine, StrToInt, SameIgnoringCase;
    ok := RecvRespStartLine(socket, resp);
  }

  lemma StartHasNoHeaders(input: string)
    ensures var r := ReadResponseLine(input); r.Ok? ==> r.value.value.headers == [] && r.value.value.content == ""
  {
  }

  /** The client's reading of a new response is ReadResponse. */
  method RecvResp(socket: TcpStream, resp: HttpMessage) returns (ok: bool)
    requires resp.Valid() && resp.kind == eResponse && resp.AsResponse() == Response("HTTP/1.0", 200, "OK", [], "")
    modifies socket`input, resp
    ensures resp.Valid()
    ensures match ReadResponse(old(socket.input))
            case Err => !ok
            case Ok(p) => ok && socket.input == p.rest && resp.AsResponse() == p.value
  {
    hide ReadResponseLine, ReadHeaders, ReadBody;
    StartHasNoHeaders(socket.input);
    ok := RecvFirstLine(socket, resp);
    if ok {
      BeforeBoth([], [], ReadHeaders(socket.input, ""));
      ok := RecvHeaders(socket, resp);
    }
    if ok && resp.status_code != SC_NOT_MODIFIED {
      JoinedNothing(ReadBody(socket.input, resp.Headers(), true));
      ok := RecvBody(socket, resp);
    }
  }

  // ----- Sending -----

  lemma {:induction false} PrintAppend(headers: seq<Header>, h: Header)
    ensures PrintHeaders(headers + [h]) == PrintHeaders(headers) + HeaderText(h) + CRLF
    decreases |headers|
  {
    hide HeaderText;
    if headers == [] {
      assert ([h])[1..] == [];
    } else {
      PrintAppend(headers[1..], h);
      assert (headers + [h])[1..] == headers[1..] + [h];
    }
  }

  // One line moves from what is left to what has been written.
  lemma PrintOne(out: string, all: string, headers: seq<Header>, i: nat)
    requires i < |headers| && out + PrintHeaders(headers[i..]) == all
    ensures out + (headers[i].name + ": " + headers[i].value + CRLF) + PrintHeaders(headers[i + 1..]) == all
  {
    assert headers[i..][1..] == headers[i + 1..];
  }

  // The loop that both senders have.
  method PutHeaders(socket: TcpStream, msg: HttpMessage)
    requires msg.Valid()
    modifies socket`output
    ensures socket.output == old(socket.output) + PrintHeaders(msg.Headers())
  {
    hide PrintHeaders;
    ghost var headers := msg.Headers();
    ghost var all := socket.output + PrintHeaders(headers);
    assert headers[0..] == headers;
    for i := 0 to |msg.header_name_list|
      invariant socket.output + PrintHeaders(headers[i..]) == all
    {
      PrintOne(socket.output, all, headers, i);
      socket.Put(msg.header_name_list[i] + ": " + msg.header_value_list[i] + CRLF);
    }
    PrintNone(headers[|headers|..]);
    assert socket.output + "" == socket.output;
  }

  // The part that both senders share: the headers, a length if there is content and no
  // length is given, and the blank line.
  method SendHeaders(socket: TcpStream, msg: HttpMessage)
    requires msg.Valid()
    modifies socket`output
    ensures socket.output == old(socket.output) + PrintHeaders(SentHeaders(msg.Headers(), msg.content)) + CRLF
  {
    hide PrintHeaders, Lookup, Digits, HttpMessage.Headers;
    PutHeaders(socket, msg);
    if |msg.content| > 0 {
      var content_length := msg.GetHeaderValue(CONTENT_LENGTH);
      if content_length == None {
        PrintAppend(msg.Headers(), Header(CONTENT_LENGTH, Digits(|msg.content|, 10)));
        socket.Put(CONTENT_LENGTH + ": " + Digits(|msg.content|, 10) + CRLF);
      }
    }
    socket.Put(CRLF);
  }

  lemma PrintNone(headers: seq<Header>)
    requires headers == []
    ensures PrintHeaders(headers) == ""
  {
  }

  /** SendResp writes PrintResponse. */
  method SendResp(socket: TcpStream, resp: HttpMessage)
    requires resp.Valid()
    modifies socket`output
    ensures socket.output == old(socket.output) + PrintResponse(resp.AsResponse())
  {
    hide PrintHeaders, SentHeaders, Decimal;
    socket.Put(resp.version + " " + Decimal(resp.status_code) + " " + resp.reason_phrase + CRLF);
    SendHeaders(socket, resp);
    if |resp.content| > 0 {
      socket.Put(resp.content);
    }
  }

  // url.append(name), "=", url.append(value), through tmp.
  method AppendParam(url: string, name: string, value: string, tmp: array<char>, stray: char) returns (longer: string)
    requires UrlEncoding.IsCString(name) && UrlEncoding.IsCString(value) && tmp.Length == TMP_LEN
    modifies tmp
    ensures var named := Filled(old(tmp[..]), name, stray);
      var valued := Filled(named, value, stray);
      tmp[..] == valued && longer == url + CStr(named) + "=" + CStr(valued)
  {
    hide CStr, UrlEncoding.Encode, Filled;
    EncodeInto(name, tmp, stray);
    longer := url + CStr(tmp[..]) + "=";
    EncodeInto(value, tmp, stray);
    longer := longer + CStr(tmp[..]);
  }

  method EncodeInto(source: string, tmp: array<char>, stray: char)
    requires UrlEncoding.IsCString(source) && tmp.Length == TMP_LEN
    modifies tmp
    ensures tmp[..] == Filled(old(tmp[..]), source, stray)
  {
    hide UrlEncoding.Encode;
    UrlEncoding.EndStaysClose(source, 0, TMP_LEN - 1, stray);
    ghost var w := UrlEncoding.Encode(source, 0, TMP_LEN - 1, stray);
    UrlEncoding.URLEncode(source, tmp, TMP_LEN - 1, stray);
  }

  ghost function Target(req: HttpMessage, stray: char): string
    requires req.Valid() && AreParams(req.Params())
    reads req
  {
    TargetText(req.uri, req.Params(), stray)
  }

  // Builds the target of a request with parameters.
  method BuildUrl(req: HttpMessage, stray: char) returns (url: string)
    requires req.Valid() && AreParams(req.Params()) && req.Params() != []
    ensures url == Target(req, stray)
  {
    hide QueryText, Filled, CStr;
    ghost var params := req.Params();
    ghost var target := Target(req, stray);
    url := req.uri + "?";
    var tmp := new char[TMP_LEN](_ => NUL);
    assert tmp[..] == seq(TMP_LEN, _ => NUL);
    assert params[0..] == params;
    var before := "";
    for i := 0 to |req.param_name_list|
      invariant before == if i > 0 then "&" else ""
      invariant url + QueryText(before, params[i..], tmp[..], stray) == target
    {
      QueryStep(url, target, before, params, i, tmp[..], stray);
      if i > 0 {
        url := url + "&";
      } else {
        assert url + "" == url;
      }
      before := "&";
      url := AppendParam(url, req.param_name_list[i], req.param_value_list[i], tmp, stray);
    }
    QueryEnd("&", params[|params|..], tmp[..], stray);
    assert url + "" == url;
  }

  lemma QueryStep(url: string, target: string, before: string, params: seq<Header>, i: nat, tmp: string, stray: char)
    requires AreParams(params) && i < |params| && |tmp| == TMP_LEN
    requires url + QueryText(before, params[i..], tmp, stray) == target
    ensures var named := Filled(tmp, params[i].name, stray);
      var valued := Filled(named, params[i].value, stray);
      ((url + before) + CStr(named) + "=" + CStr(valued)) + QueryText("&", params[i + 1..], valued, stray) == target
  {
    hide CStr, Filled;
    assert params[i..][1..] == params[i + 1..];
  }

  lemma QueryEnd(before: string, params: seq<Header>, tmp: string, stray: char)
    requires params == [] && |tmp| == TMP_LEN
    ensures QueryText(before, params, tmp, stray) == ""
  {
  }

  /** The client's sending of a request writes PrintRequest with the given method and the
    * target that the parameters make.
    */
  method SendReq(socket: TcpStream, verb: string, req: HttpMessage, stray: char)
    requires req.Valid() && AreParams(req.Params())
    modifies socket`output
    ensures socket.output == old(socket.output)
                             + PrintRequest(req.AsRequest().(verb := verb, uri := Target(req, stray)))
  {
    hide PrintHeaders, SentHeaders, QueryText;
    var url := "";
    if |req.param_name_list| > 0 {
      url := BuildUrl(req, stray);
    }
    socket.Put(verb + " " + (if |url| > 0 then url else req.uri) + " " + req.version + CRLF);
    SendHeaders(socket, req);
    socket.Put(req.content);
  }

  /** A client and a server with a connection between them: the server reads back exactly
    * the request that was sent, what follows it stays unread, and when the parameters fit
    * their buffer the server can read every one of them from the target.
    */
  method SendAndReceive(verb: string, req: HttpMessage, stray: char, rest: string)
    returns (ok: bool, got: HttpMessage, unread: string)
    requires req.Valid() && AreParams(req.Params())
    requires HttpRoundTrip.WellFormedRequest(req.AsRequest().(verb := verb, uri := Target(req, stray)))
    requires !IsChunked(req.Headers()) && HttpRoundTrip.Delimited(req.Headers(), req.content, rest, false)
    ensures ok && got.Valid() && unread == rest
    ensures got.AsRequest() == Request(verb, Target(req, stray), req.version, SentHeaders(req.Headers(), req.content), req.content)
    ensures req.Params() != [] && '?' !in req.uri && (forall i | 0 <= i < |req.Params()| :: FittingParam(req.Params()[i])) ==>
              Token(got.uri, '?') == req.uri
              && AfterToken(got.uri, '?').Some? && ParseQuery(AfterToken(got.uri, '?').value) == req.Params()
  {
    hide PrintRequest, ReadRequest, IsChunked, HttpRoundTrip.WellFormedRequest, HttpRoundTrip.Delimited, SentHeaders, TargetText,
         FittingParam, Token, AfterToken, ParseQuery;
    var out := new TcpStream("");
    SendReq(out, verb, req, stray);
    var sent := out.output;
    ghost var r := req.AsRequest().(verb := verb, uri := Target(req, stray));
    assert "" + PrintRequest(r) == PrintRequest(r);
    HttpRoundTrip.RequestRoundTrip(r, rest);
    var back := new TcpStream(sent + rest);
    got := new HttpMessage(eRequest);
    ok := RecvReq(back, got);
    unread := back.input;
    ghost var params := req.Params();
    if params != [] && '?' !in req.uri && forall i | 0 <= i < |params| :: FittingParam(params[i]) {
      TargetGivesParamsBack(req.uri, params, stray);
    }
  }
}
