/** The query that a request with parameters puts into its start line. Every parameter is
  * encoded into one reused buffer of 1024 bytes and appended from there.
  */
module HttpQuery {
  import opened Common
  import opened HttpText
  import opened HttpSpec
  import opened UrlEncoding

  const TMP_LEN: nat := 1024
  const NUL: char := 0 as char

  predicate AreParams(params: seq<Header>) {
    forall i | 0 <= i < |params| :: IsCString(params[i].name) && IsCString(params[i].value)
  }

  // The buffer after one more string has been encoded into it. A byte that was stepped
  // over still shows what an earlier string left there.
  function Filled(tmp: string, source: string, stray: char): (r: string)
    requires IsCString(source) && |tmp| == TMP_LEN
    ensures |r| == TMP_LEN
  {
    EndStaysClose(source, 0, TMP_LEN - 1, stray);
    var w := Encode(source, 0, TMP_LEN - 1, stray);
    w.text + (if w.skipped then [tmp[|w.text|]] else "") + [NUL] + tmp[End(w) + 1..]
  }

  // What SendReqHeader appends for params, the first of them after before.
  function QueryText(before: string, params: seq<Header>, tmp: string, stray: char): string
    requires AreParams(params) && |tmp| == TMP_LEN
    decreases |params|
  {
    if params == [] then ""
    else
      var named := Filled(tmp, params[0].name, stray);
      var valued := Filled(named, params[0].value, stray);
      before + CStr(named) + "=" + CStr(valued) + QueryText("&", params[1..], valued, stray)
  }

  // ----- Parameters that fit -----

  predicate FittingParam(p: Header) {
    && IsSevenBit(p.name) && |FullEncode(p.name)| < TMP_LEN
    && IsSevenBit(p.value) && |FullEncode(p.value)| < TMP_LEN
  }

  function ParamText(p: Header): string
    requires FittingParam(p)
  {
    FullEncode(p.name) + "=" + FullEncode(p.value)
  }

  // The query as one would write it down, without any buffer.
  function ParamsText(params: seq<Header>): string
    requires forall i | 0 <= i < |params| :: FittingParam(params[i])
  {
    if params == [] then ""
    else if |params| == 1 then ParamText(params[0])
    else ParamText(params[0]) + "&" + ParamsText(params[1..])
  }

  predicate IsQueryChar(c: char) { IsAlnum(c) || c == '+' || c == '%' }

  predicate IsEncodedText(s: string) {
    forall i | 0 <= i < |s| :: IsQueryChar(s[i])
  }

  lemma HexIsAlnum(d: nat)
    requires d < 16
    ensures IsAlnum(DigitChar(d))
  {
  }

  lemma {:induction false} EncodedText(source: string)
    requires IsSevenBit(source)
    ensures IsEncodedText(FullEncode(source))
    decreases |source|
  {
    hide IsAlnum, DigitChar;
    if source != "" {
      EncodedText(source[1..]);
      HexIsAlnum(source[0] as int / 16);
      HexIsAlnum(source[0] as int % 16);
    }
  }

  lemma {:induction false} CStrOfWhole(s: string, more: string)
    requires NUL !in s
    ensures CStr(s + [NUL] + more) == s
    decreases |s|
  {
    if s != "" {
      assert (s + [NUL] + more)[1..] == s[1..] + [NUL] + more;
      CStrOfWhole(s[1..], more);
    }
  }

  lemma FilledFits(tmp: string, source: string, stray: char)
    requires IsSevenBit(source) && |FullEncode(source)| < TMP_LEN && |tmp| == TMP_LEN
    ensures CStr(Filled(tmp, source, stray)) == FullEncode(source)
  {
    hide Encode, FullEncode, CStr;
    var text := FullEncode(source);
    FitsExactly(source, 0, TMP_LEN - 1, stray);
    EncodedText(source);
    assert Filled(tmp, source, stray) == text + [NUL] + tmp[|text| + 1..];
    CStrOfWhole(text, tmp[|text| + 1..]);
  }

  lemma FirstParam(before: string, params: seq<Header>, tmp: string, stray: char)
    requires |tmp| == TMP_LEN && params != [] && AreParams(params) && FittingParam(params[0])
    ensures var valued := Filled(Filled(tmp, params[0].name, stray), params[0].value, stray);
      QueryText(before, params, tmp, stray) == before + ParamText(params[0]) + QueryText("&", params[1..], valued, stray)
  {
    hide FullEncode, CStr, Filled;
    var named := Filled(tmp, params[0].name, stray);
    FilledFits(tmp, params[0].name, stray);
    FilledFits(named, params[0].value, stray);
    assert before + FullEncode(params[0].name) + "=" + FullEncode(params[0].value) == before + ParamText(params[0]);
  }

  /** When every parameter fits, the reused buffer does not show: the query is the encoded
    * parameters, whatever the buffer held before.
    */
  lemma {:induction false} QueryOfFitting(before: string, params: seq<Header>, tmp: string, stray: char)
    requires |tmp| == TMP_LEN && params != [] && AreParams(params) && forall i | 0 <= i < |params| :: FittingParam(params[i])
    ensures QueryText(before, params, tmp, stray) == before + ParamsText(params)
    decreases |params|
  {
    hide FullEncode, CStr, Filled, ParamText;
    FirstParam(before, params, tmp, stray);
    var valued := Filled(Filled(tmp, params[0].name, stray), params[0].value, stray);
    if |params| == 1 {
      assert QueryText("&", params[1..], valued, stray) == "";
    } else {
      QueryOfFitting("&", params[1..], valued, stray);
    }
  }

  // ----- Reading a query back -----

  // A reader of form queries: parameters at '&', name and value at the first '='.
  function ParseParam(s: string): Header {
    Header(FormDecode(Token(s, '=')), FormDecode(AfterToken(s, '=').GetOr("")))
  }

  function ParseQuery(s: string): seq<Header>
    decreases |s|
  {
    match AfterToken(s, '&')
    case None => [ParseParam(s)]
    case Some(more) => [ParseParam(Token(s, '&'))] + ParseQuery(more)
  }

  lemma ParamBack(p: Header)
    requires FittingParam(p)
    ensures ParseParam(ParamText(p)) == p && '&' !in ParamText(p)
  {
    hide FullEncode, Token, AfterToken;
    EncodedText(p.name);
    EncodedText(p.value);
    assert ParamText(p) == FullEncode(p.name) + ['='] + FullEncode(p.value);
    Separate(FullEncode(p.name), '=', FullEncode(p.value));
    DecodeUndoesEncode(p.name);
    DecodeUndoesEncode(p.value);
  }

  lemma NoCut(s: string, del: char)
    requires del !in s
    ensures AfterToken(s, del) == None
  {
  }

  /** Whatever characters the parameters contain, the query gives them all back. */
  lemma {:induction false} QueryRoundTrip(params: seq<Header>)
    requires params != [] && forall i | 0 <= i < |params| :: FittingParam(params[i])
    ensures ParseQuery(ParamsText(params)) == params
    decreases |params|
  {
    hide ParamText, ParseParam, Token, AfterToken, FittingParam;
    ParamBack(params[0]);
    if |params| == 1 {
      NoCut(ParamText(params[0]), '&');
    } else {
      assert ParamsText(params) == ParamText(params[0]) + ['&'] + ParamsText(params[1..]);
      Separate(ParamText(params[0]), '&', ParamsText(params[1..]));
      QueryRoundTrip(params[1..]);
    }
  }

  // Text that keeps a start line in three parts.
  predicate IsTokenText(s: string) {
    forall i | 0 <= i < |s| :: s[i] != ' ' && s[i] != '\r' && s[i] != '\n' && s[i] != NUL
  }

  /** However the parameters look, the query adds no separator to the start line. */
  lemma {:induction false} ParamsAreTokenText(params: seq<Header>)
    requires forall i | 0 <= i < |params| :: FittingParam(params[i])
    ensures IsTokenText(ParamsText(params))
    decreases |params|
  {
    hide FullEncode;
    if params != [] {
      EncodedText(params[0].name);
      EncodedText(params[0].value);
      ParamsAreTokenText(params[1..]);
    }
  }

  // ----- The request target -----

  // The URI, and the parameters as its query, made in a buffer that starts out empty.
  function TargetText(uri: string, params: seq<Header>, stray: char): string
    requires AreParams(params)
  {
    if params == [] then uri else uri + "?" + QueryText("", params, seq(TMP_LEN, _ => NUL), stray)
  }

  lemma FittingTarget(uri: string, params: seq<Header>, stray: char)
    requires AreParams(params) && params != [] && forall i | 0 <= i < |params| :: FittingParam(params[i])
    ensures TargetText(uri, params, stray) == uri + ['?'] + ParamsText(params)
  {
    hide QueryText, ParamsText, FittingParam;
    QueryOfFitting("", params, seq(TMP_LEN, _ => NUL), stray);
    assert "" + ParamsText(params) == ParamsText(params);
  }

  /** The target keeps the start line in its three parts, and whoever reads it gets the
    * URI and every parameter back.
    */
  lemma TargetGivesParamsBack(uri: string, params: seq<Header>, stray: char)
    requires AreParams(params) && params != [] && forall i | 0 <= i < |params| :: FittingParam(params[i])
    requires '?' !in uri
    ensures var target := TargetText(uri, params, stray);
      && Token(target, '?') == uri
      && AfterToken(target, '?').Some? && ParseQuery(AfterToken(target, '?').value) == params
      && (IsTokenText(uri) ==> IsTokenText(target))
  {
    hide TargetText, ParamsText, FittingParam, ParseQuery, Token, AfterToken;
    FittingTarget(uri, params, stray);
    Separate(uri, '?', ParamsText(params));
    QueryRoundTrip(params);
    ParamsAreTokenText(params);
  }
}
