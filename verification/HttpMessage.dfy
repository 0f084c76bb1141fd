/** The message objects: fixed-size text fields, and headers and parameters kept as
  * parallel lists of names and values that are searched from the front.
  */
module HttpMessages {
  import opened Common
  import opened HttpText
  import opened HttpSpec

  // ----- Parallel lists -----

  function Zip(names: seq<string>, values: seq<string>): (headers: seq<Header>)
    requires |names| == |values|
    ensures |headers| == |names|
    ensures forall i | 0 <= i < |headers| :: headers[i] == Header(names[i], values[i])
  {
    if names == [] then [] else [Header(names[0], values[0])] + Zip(names[1..], values[1..])
  }

  // i is where a search for name from the front stops.
  predicate StopsAt(headers: seq<Header>, name: string, i: nat) {
    && i <= |headers|
    && (forall k | 0 <= k < i :: !SameIgnoringCase(name, headers[k].name))
    && (i < |headers| ==> SameIgnoringCase(name, headers[i].name))
  }

  lemma {:induction false} LookupStopsAt(headers: seq<Header>, name: string, i: nat)
    requires StopsAt(headers, name, i)
    ensures Lookup(headers, name) == if i < |headers| then Some(headers[i].value) else None
    decreases i
  {
    hide SameIgnoringCase;
    if i > 0 {
      assert forall k | 0 <= k < i - 1 :: headers[1..][k] == headers[k + 1];
      LookupStopsAt(headers[1..], name, i - 1);
    }
  }

  // The headers without the first one called name.
  function Without(headers: seq<Header>, name: string): seq<Header> {
    if headers == [] then []
    else if SameIgnoringCase(name, headers[0].name) then headers[1..]
    else [headers[0]] + Without(headers[1..], name)
  }

  lemma {:induction false} WithoutStopsAt(headers: seq<Header>, name: string, i: nat)
    requires StopsAt(headers, name, i)
    ensures Without(headers, name) == if i < |headers| then headers[..i] + headers[i + 1..] else headers
    decreases i
  {
    hide SameIgnoringCase;
    if i > 0 {
      assert forall k | 0 <= k < i - 1 :: headers[1..][k] == headers[k + 1];
      WithoutStopsAt(headers[1..], name, i - 1);
    }
  }

  lemma SameName(a: string, b: string, c: string)
    requires SameIgnoringCase(a, c)
    ensures SameIgnoringCase(a, b) <==> SameIgnoringCase(b, c)
  {
    if SameIgnoringCase(a, b) {
      assert forall i | 0 <= i < |a| :: Lower(b[i]) == Lower(a[i]) == Lower(c[i]);
    }
    if SameIgnoringCase(b, c) {
      assert forall i | 0 <= i < |a| :: Lower(b[i]) == Lower(c[i]) == Lower(a[i]);
    }
  }

  /** Removing one header does not hide or change any other. */
  lemma {:induction false} RemovalKeepsOthers(headers: seq<Header>, name: string, other: string)
    requires !SameIgnoringCase(name, other)
    ensures Lookup(Without(headers, name), other) == Lookup(headers, other)
    decreases |headers|
  {
    hide SameIgnoringCase;
    if headers != [] {
      if SameIgnoringCase(name, headers[0].name) {
        SameName(name, other, headers[0].name);
      } else {
        RemovalKeepsOthers(headers[1..], name, other);
      }
    }
  }

  function CountOf(headers: seq<Header>, name: string): nat {
    if headers == [] then 0
    else (if SameIgnoringCase(name, headers[0].name) then 1 else 0) + CountOf(headers[1..], name)
  }

  lemma {:induction false} FoundIfCounted(headers: seq<Header>, name: string)
    ensures Lookup(headers, name).Some? <==> CountOf(headers, name) > 0
    decreases |headers|
  {
    hide SameIgnoringCase;
    if headers != [] {
      FoundIfCounted(headers[1..], name);
    }
  }

  lemma {:induction false} RemovalCount(headers: seq<Header>, name: string)
    ensures CountOf(Without(headers, name), name) == if CountOf(headers, name) > 0 then CountOf(headers, name) - 1 else 0
    decreases |headers|
  {
    hide SameIgnoringCase;
    if headers != [] {
      RemovalCount(headers[1..], name);
    }
  }

  /** Removing a header really makes it disappear exactly when it was there at most once:
    * only the first match is removed.
    */
  lemma RemovalIsComplete(headers: seq<Header>, name: string)
    ensures Lookup(Without(headers, name), name) == None <==> CountOf(headers, name) <= 1
  {
    RemovalCount(headers, name);
    FoundIfCounted(Without(headers, name), name);
  }

  // ----- The objects -----

  datatype MessageType = eRequest | eResponse

  // The fields of HttpMessage and of its two subclasses; an object only uses those of
  // its own type.
  class HttpMessage {
    const kind: MessageType
    var version: string
    var content: string
    var header_name_list: seq<string>
    var header_value_list: seq<string>
    // requests
    var verb: string
    var uri: string
    var param_name_list: seq<string>
    var param_value_list: seq<string>
    // responses
    var status_code: int
    var reason_phrase: string

    ghost predicate Valid()
      reads this
    {
      |header_name_list| == |header_value_list| && |param_name_list| == |param_value_list|
    }

    ghost function Headers(): seq<Header>
      requires Valid()
      reads this
    {
      Zip(header_name_list, header_value_list)
    }

    ghost function Params(): seq<Header>
      requires Valid()
      reads this
    {
      Zip(param_name_list, param_value_list)
    }

    ghost function AsRequest(): Request
      requires Valid()
      reads this
    {
      Request(verb, uri, version, Headers(), content)
    }

    ghost function AsResponse(): Response
      requires Valid()
      reads this
    {
      Response(version, status_code, reason_phrase, Headers(), content)
    }

    constructor (kind: MessageType)
      ensures Valid() && this.kind == kind && Params() == []
      ensures AsRequest() == Request("", "", "HTTP/1.0", [], "")
      ensures AsResponse() == Response("HTTP/1.0", 200, "OK", [], "")
    {
      this.kind := kind;
      version, content := "HTTP/1.0", "";
      header_name_list, header_value_list := [], [];
      verb, uri, param_name_list, param_value_list := "", "", [], [];
      status_code, reason_phrase := 200, "OK";
    }

    method SetVersion(text: string)
      modifies this`version
      ensures version == Fit(text, VERSION_MAX)
    {
      version := if |text| <= VERSION_MAX then text else text[..VERSION_MAX];
    }

    method SetMethod(text: string)
      modifies this`verb
      ensures verb == Fit(text, METHOD_MAX)
    {
      verb := if |text| <= METHOD_MAX then text else text[..METHOD_MAX];
    }

    method SetReasonPhrase(text: string)
      modifies this`reason_phrase
      ensures reason_phrase == Fit(text, REASON_MAX)
    {
      reason_phrase := if |text| <= REASON_MAX then text else text[..REASON_MAX];
    }

    // A length that is not positive means that the bytes are a C string.
    method AppendContent(bytes: array<char>, length: int)
      requires length <= bytes.Length && (length <= 0 ==> 0 as char in bytes[..])
      modifies this`content
      ensures content == old(content) + if length > 0 then bytes[..length] else CStr(bytes[..])
    {
      var n := length;
      if length <= 0 {
        n := |CStr(bytes[..])|;
      }
      content := content + bytes[..n];
    }

    method AddHeader(name: string, value: string)
      requires Valid()
      modifies this`header_name_list, this`header_value_list
      ensures Valid() && Headers() == old(Headers()) + [Header(name, value)]
    {
      header_name_list := header_name_list + [name];
      header_value_list := header_value_list + [value];
    }

    // The two erase calls.
    method EraseHeader(i: nat)
      requires Valid() && i < |header_name_list|
      modifies this`header_name_list, this`header_value_list
      ensures Valid() && Headers() == old(Headers())[..i] + old(Headers())[i + 1..]
    {
      header_name_list := header_name_list[..i] + header_name_list[i + 1..];
      header_value_list := header_value_list[..i] + header_value_list[i + 1..];
    }

    /** Removes the first header of that name, in any case, if there is one. */
    method RemoveHeader(name: string) returns (ret: bool)
      requires Valid()
      modifies this`header_name_list, this`header_value_list
      ensures Valid() && Headers() == Without(old(Headers()), name)
      ensures ret <==> old(Lookup(Headers(), name)).Some?
      ensures exists i: nat | StopsAt(old(Headers()), name, i) :: ret == (i < |old(Headers())|)
                && Headers() == if ret then old(Headers())[..i] + old(Headers())[i + 1..] else old(Headers())
    {
      hide SameIgnoringCase;
      ret := false;
      var i := 0;
      ghost var was := Headers();
      while i < |header_name_list| && !ret
        invariant i <= |was| && Valid()
        invariant !ret ==> Headers() == was && forall k | 0 <= k < i :: !SameIgnoringCase(name, was[k].name)
        invariant ret ==> 0 < i && StopsAt(was, name, i - 1) && Headers() == was[..i - 1] + was[i..]
      {
        if SameIgnoringCase(name, header_name_list[i]) {
          EraseHeader(i);
          ret := true;
        }
        i := i + 1;
      }
      ghost var at := if ret then i - 1 else i;
      LookupStopsAt(was, name, at);
      WithoutStopsAt(was, name, at);
    }

    /** The first header of that name, in any case. */
    method GetHeaderValue(name: string) returns (value: Option<string>)
      requires Valid()
      ensures value == Lookup(Headers(), name)
      ensures exists i: nat | StopsAt(Headers(), name, i) ::
                value == if i < |Headers()| then Some(Headers()[i].value) else None
    {
      hide SameIgnoringCase;
      value := None;
      var i := 0;
      while i < |header_name_list| && value == None
        invariant i <= |header_name_list|
        invariant value == None ==> forall k | 0 <= k < i :: !SameIgnoringCase(name, Headers()[k].name)
        invariant value != None ==> 0 < i && StopsAt(Headers(), name, i - 1) && value == Some(Headers()[i - 1].value)
      {
        if SameIgnoringCase(name, header_name_list[i]) {
          value := Some(header_value_list[i]);
        }
        i := i + 1;
      }
      ghost var at := if value == None then i else i - 1;
      LookupStopsAt(Headers(), name, at);
    }

    method IsKeepAlive() returns (alive: bool)
      requires Valid()
      ensures alive <==> exists name | name in {"Proxy-Connection", "Connection"} ::
                Lookup(Headers(), name).Some? && SameIgnoringCase(Lookup(Headers(), name).value, "Keep-Alive")
    {
      hide SameIgnoringCase, Lookup;
      var proxy := GetHeaderValue("Proxy-Connection");
      var local := GetHeaderValue("Connection");
      alive := (proxy.Some? && SameIgnoringCase(proxy.value, "Keep-Alive"))
               || (local.Some? && SameIgnoringCase(local.value, "Keep-Alive"));
      assert {"Proxy-Connection", "Connection"} == {"Proxy-Connection"} + {"Connection"};
    }
  }
}
