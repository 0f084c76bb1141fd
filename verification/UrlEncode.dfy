/** The in-place form encoder of HttpProto, which writes into a buffer of length + 1
  * bytes and keeps its own count of the bytes written.
  */
module UrlEncoding {
  import opened Common

  predicate IsAlnum(c: char) {
    '0' <= c <= '9' || 'A' <= c <= 'Z' || 'a' <= c <= 'z'
  }

  // Bytes that are copied or become one plus sign; every other byte takes three.
  predicate IsPlain(c: char) { IsAlnum(c) || c == ' ' }

  // A C string without its terminator.
  predicate IsCString(s: string) {
    forall i | 0 <= i < |s| :: 0 < s[i] as int < 256
  }

  predicate IsSevenBit(s: string) {
    forall i | 0 <= i < |s| :: 0 < s[i] as int < 128
  }

  // The high digit comes from shifting a signed char: for bytes above 127 the index is
  // negative and the read falls outside the table, so what it yields is a parameter.
  function HighDigit(c: char, stray: char): char
    requires c as int < 256
  {
    if c as int < 128 then DigitChar(c as int / 16) else stray
  }

  function LowDigit(c: char): char {
    DigitChar(c as int % 16)
  }

  // What the loop writes from position n on. skipped: the loop stopped at a byte that
  // did not fit and stepped over one byte of the buffer without writing it.
  datatype Written = Written(text: string, skipped: bool) {
    function After(head: string): Written { Written(head + text, skipped) }

    lemma AfterIs(head: string)
      ensures After(head) == Written(head + text, skipped)
      ensures After("") == this
    {
      assert "" + text == text;
    }

    // Moving head from what is left to what has been written.
    ghost function MoveOver(before: string, head: string, rest: Written): (r: Written)
      requires this == rest.After(head)
      ensures r == rest && After(before) == rest.After(before + head)
    {
      assert before + (head + rest.text) == before + head + rest.text;
      rest
    }
  }

  // The test n > length - 3 is made on unsigned numbers: below 3 the right side wraps
  // round to a huge value and the test is false.
  predicate TooFull(n: nat, length: nat) {
    length >= 3 && n > length - 3
  }

  function Encode(source: string, n: nat, length: nat, stray: char): Written
    requires IsCString(source)
    decreases |source|
  {
    if source == "" || n >= length then Written("", false)
    else
      var c := source[0];
      if IsPlain(c) then Encode(source[1..], n + 1, length, stray).After([if c == ' ' then '+' else c])
      else if TooFull(n, length) then Written("", true)
      else Encode(source[1..], n + 3, length, stray).After(['%', HighDigit(c, stray), LowDigit(c)])
  }

  // Where the terminating NUL goes: the highest position written.
  function End(w: Written): nat { |w.text| + if w.skipped then 1 else 0 }

  lemma {:induction false} EndStaysClose(source: string, n: nat, length: nat, stray: char)
    requires IsCString(source) && n <= length
    ensures n + End(Encode(source, n, length, stray)) <= length + 2
    ensures length >= 3 ==> n + End(Encode(source, n, length, stray)) <= length
    decreases |source|
  {
    if source != "" && n < length {
      if IsPlain(source[0]) {
        EndStaysClose(source[1..], n + 1, length, stray);
      } else if !TooFull(n, length) {
        if n + 3 <= length {
          EndStaysClose(source[1..], n + 3, length, stray);
        } else {
          assert Encode(source[1..], n + 3, length, stray).text == "";
        }
      }
    }
  }

  // The buffer ends at dest[length]. For the limits 1 and 2 the array continues beyond
  // it, so that a write past the buffer can be seen.
  predicate HasRoom(size: nat, length: nat) {
    size > length && (1 <= length <= 2 ==> size >= length + 3)
  }

  /** URLEncode. Everything it writes is described by Encode, and it writes past the
    * buffer exactly when the limit is 1 or 2 and a byte to be escaped comes up before
    * the limit.
    */
  method URLEncode(source: string, dest: array<char>, length: nat, stray: char)
    requires IsCString(source) && HasRoom(dest.Length, length)
    modifies dest
    ensures var w := Encode(source, 0, length, stray);
      && End(w) < dest.Length
      && dest[..|w.text|] == w.text
      && (w.skipped ==> dest[|w.text|] == old(dest[|w.text|]))
      && dest[End(w)] == 0 as char
      && forall i | End(w) < i < dest.Length :: dest[i] == old(dest[i])
    ensures (forall i | length < i < dest.Length :: dest[i] == old(dest[i]))
            || (1 <= length <= 2 && exists i :: 0 <= i < |source| && i < length && !IsPlain(source[i]))
  {
    hide Encode, IsPlain;
    BoundIsExact(source, length, stray);
    var q := EncodeLoop(source, dest, length, stray);
    dest[q] := 0 as char;
  }

  // The loop of URLEncode; q is where the terminator goes.
  method EncodeLoop(source: string, dest: array<char>, length: nat, stray: char) returns (q: nat)
    requires IsCString(source) && HasRoom(dest.Length, length)
    modifies dest
    ensures q == End(Encode(source, 0, length, stray)) < dest.Length
    ensures dest[..|Encode(source, 0, length, stray).text|] == Encode(source, 0, length, stray).text
    ensures forall i | |Encode(source, 0, length, stray).text| <= i < dest.Length :: dest[i] == old(dest[i])
  {
    hide Encode, IsPlain, DigitChar, HighDigit, LowDigit, Written.After;
    EndStaysClose(source, 0, length, stray);
    q := 0;
    var p, n := 0, 0;
    ghost var all := Encode(source, 0, length, stray);
    ghost var rest := all;
    assert source[0..] == source && dest[..0] == "";
    rest.AfterIs("");
    while p < |source| && n < length
      invariant 0 <= p <= |source| && q == n && n <= (if length >= 3 then length else length + 2) && (length == 0 ==> n == 0)
      invariant rest == Encode(source[p..], n, length, stray)
      invariant all == rest.After(dest[..n])
      invariant forall i | n <= i < dest.Length :: dest[i] == old(dest[i])
      decreases |source| - p
    {
      var c := source[p];
      EncodeStep(source, p, n, length, stray);
      ghost var before := dest[..n];
      if IsAlnum(c) {
        WriteByte(dest, q, c);
        rest := rest.MoveOver(before, [c], Encode(source[p + 1..], n + 1, length, stray));
      } else if c == ' ' {
        WriteByte(dest, q, '+');
        rest := rest.MoveOver(before, "+", Encode(source[p + 1..], n + 1, length, stray));
      } else {
        if TooFull(n, length) {
          q := q + 1;
          break;
        }
        WriteEscape(dest, q, c, stray);
        q := q + 2;
        n := n + 2;
        rest := rest.MoveOver(before, ['%', HighDigit(c, stray), LowDigit(c)], Encode(source[p + 1..], n + 1, length, stray));
      }
      p, q, n := p + 1, q + 1, n + 1;
    }
    rest.AfterIs(dest[..n]);
    if q == n {
      NothingLeft(source, p, n, length, stray);
    }
  }

  method WriteByte(dest: array<char>, q: nat, c: char)
    requires q < dest.Length
    modifies dest
    ensures dest[..q + 1] == old(dest[..q]) + [c]
    ensures forall i | q + 1 <= i < dest.Length :: dest[i] == old(dest[i])
  {
    dest[q] := c;
  }

  // *q++ = '%', then the two digits.
  method WriteEscape(dest: array<char>, q: nat, c: char, stray: char)
    requires q + 3 <= dest.Length && c as int < 256
    modifies dest
    ensures dest[..q + 3] == old(dest[..q]) + ['%', HighDigit(c, stray), LowDigit(c)]
    ensures forall i | q + 3 <= i < dest.Length :: dest[i] == old(dest[i])
  {
    dest[q] := '%';
    dest[q + 1] := HighDigit(c, stray);
    dest[q + 2] := LowDigit(c);
  }

  // One turn of the loop.
  lemma EncodeStep(source: string, p: nat, n: nat, length: nat, stray: char)
    requires IsCString(source) && p < |source| && n < length
    ensures IsCString(source[p..]) && IsCString(source[p + 1..])
    ensures Encode(source[p..], n, length, stray) ==
            if IsAlnum(source[p]) then Encode(source[p + 1..], n + 1, length, stray).After([source[p]])
            else if source[p] == ' ' then Encode(source[p + 1..], n + 1, length, stray).After("+")
            else if TooFull(n, length) then Written("", true)
            else Encode(source[p + 1..], n + 3, length, stray).After(['%', HighDigit(source[p], stray), LowDigit(source[p])])
  {
    assert source[p..][0] == source[p] && source[p..][1..] == source[p + 1..];
  }

  lemma NothingLeft(source: string, p: nat, n: nat, length: nat, stray: char)
    requires IsCString(source) && p <= |source| && (p == |source| || n >= length)
    ensures Encode(source[p..], n, length, stray) == Written("", false)
  {
  }

  /** The exact bound: the terminator lands inside the buffer unless the limit is 1 or 2
    * and one of the first length bytes needs escaping.
    */
  lemma BoundIsExact(source: string, length: nat, stray: char)
    requires IsCString(source)
    ensures End(Encode(source, 0, length, stray)) <= length <==>
              (length == 0 || length >= 3 || forall i | 0 <= i < |source| && i < length :: IsPlain(source[i]))
  {
    if length >= 3 {
      EndStaysClose(source, 0, length, stray);
    } else if 0 < length && source != "" {
      if |source| > 1 {
        EncodeStep(source, 1, 1, 2, stray);
        NothingLeft(source, if |source| > 1 then 2 else 1, 2, 2, stray);
      }
      NothingLeft(source, 1, 1, 1, stray);
      NothingLeft(source, 1, 3, length, stray);
    }
  }

  /** So the limits that are safe for every source are 0 and those from 3 up. */
  lemma SafeLimits(length: nat, stray: char)
    ensures (forall source | IsCString(source) :: End(Encode(source, 0, length, stray)) <= length)
            <==> length == 0 || length >= 3
  {
    forall source | IsCString(source) && (length == 0 || length >= 3)
      ensures End(Encode(source, 0, length, stray)) <= length
    {
      BoundIsExact(source, length, stray);
    }
    var bad := "/";
    assert IsCString(bad) && !IsPlain(bad[0]);
    BoundIsExact(bad, length, stray);
  }

  // ----- Decoding -----

  // The encoding with no limit.
  function FullEncode(source: string): string
    requires IsSevenBit(source)
    decreases |source|
  {
    if source == "" then ""
    else
      (if source[0] == ' ' then "+" else if IsAlnum(source[0]) then [source[0]]
       else ['%', DigitChar(source[0] as int / 16), LowDigit(source[0])])
      + FullEncode(source[1..])
  }

  lemma Unfolded(source: string, k: nat)
    requires IsSevenBit(source) && 0 < k <= |source|
    ensures IsSevenBit(source[..k]) && IsSevenBit(source[1..])
    ensures FullEncode(source[..k]) == Piece(source[0]) + FullEncode(source[1..][..k - 1])
  {
    assert source[..k][0] == source[0] && source[..k][1..] == source[1..][..k - 1];
  }

  function Piece(c: char): (r: string)
    requires c as int < 128
    ensures |r| == if IsPlain(c) then 1 else 3
  {
    if c == ' ' then "+" else if IsAlnum(c) then [c] else ['%', DigitChar(c as int / 16), LowDigit(c)]
  }

  lemma EncodedPiece(source: string, n: nat, length: nat, stray: char)
    requires IsSevenBit(source) && source != "" && n < length
    ensures Encode(source, n, length, stray) ==
            if !IsPlain(source[0]) && TooFull(n, length) then Written("", true)
            else Encode(source[1..], n + |Piece(source[0])|, length, stray).After(Piece(source[0]))
  {
  }

  /** Within a safe limit the encoding of the longest prefix that fits is written, and one byte
    * is stepped over exactly when room is left but the next character does not fit.
    */
  lemma {:induction false} LongestPrefixIsWritten(source: string, n: nat, length: nat, stray: char) returns (k: nat)
    requires IsSevenBit(source) && n <= length && (length == 0 || length >= 3)
    ensures k <= |source|
    ensures var w := Encode(source, n, length, stray);
      && w.text == FullEncode(source[..k]) && n + |w.text| <= length
      && (k < |source| ==> n + |FullEncode(source[..k + 1])| > length)
      && (w.skipped <==> k < |source| && n + |w.text| < length)
    decreases |source|
  {
    hide Encode, FullEncode, IsPlain, Piece;
    EncodeNothing();
    k := 0;
    if source == "" || n >= length {
      NothingMore(source, n, length, stray);
      if source != "" { Unfolded(source, 1); }
    } else {
      EncodedPiece(source, n, length, stray);
      Unfolded(source, 1);
      if IsPlain(source[0]) || !TooFull(n, length) {
        k := LongestPrefixIsWritten(source[1..], n + |Piece(source[0])|, length, stray);
        k := k + 1;
        Unfolded(source, k);
        if k < |source| { Unfolded(source, k + 1); }
      }
    }
  }

  lemma EncodeNothing()
    ensures FullEncode("") == ""
  {
  }

  lemma NothingMore(source: string, n: nat, length: nat, stray: char)
    requires IsCString(source) && (source == "" || n >= length)
    ensures Encode(source, n, length, stray) == Written("", false)
  {
  }

  /** What becomes of each character: letters and digits stay, a blank becomes a plus sign, and
    * anything else a percent sign with its code in two lower-case hexadecimal digits.
    */
  lemma EncodedCharacter(c: char)
    requires 0 < c as int < 128
    ensures var n := c as int;
      IsSevenBit([c]) && FullEncode([c]) == if 48 <= n <= 57 || 65 <= n <= 90 || 97 <= n <= 122 then [c]
                         else if n == 32 then "+"
                         else ['%', "0123456789abcdef"[n / 16], "0123456789abcdef"[n % 16]]
  {
    assert [c][1..] == "";
    assert FullEncode("") == "";
  }

  /** A text is encoded character by character. */
  lemma {:induction false} EncodedPieces(a: string, b: string)
    requires IsSevenBit(a) && IsSevenBit(b)
    ensures IsSevenBit(a + b) && FullEncode(a + b) == FullEncode(a) + FullEncode(b)
    decreases |a|
  {
    hide IsAlnum, DigitChar, LowDigit;
    if a == "" {
      assert a + b == b;
    } else {
      EncodedPieces(a[1..], b);
      assert (a + b)[1..] == a[1..] + b;
    }
  }

  /** Within the safe limits, the whole encoding is written exactly when it fits. */
  lemma {:induction false} FitsExactly(source: string, n: nat, length: nat, stray: char)
    requires IsSevenBit(source) && n <= length && (length == 0 || length >= 3)
    ensures Encode(source, n, length, stray) == Written(FullEncode(source), false)
            <==> n + |FullEncode(source)| <= length
    decreases |source|
  {
    if source != "" && n < length {
      if IsPlain(source[0]) {
        FitsExactly(source[1..], n + 1, length, stray);
        assert Encode(source, n, length, stray).text[1..] == Encode(source[1..], n + 1, length, stray).text;
        assert FullEncode(source)[1..] == FullEncode(source[1..]);
      } else if !TooFull(n, length) {
        FitsExactly(source[1..], n + 3, length, stray);
        assert Encode(source, n, length, stray).text[3..] == Encode(source[1..], n + 3, length, stray).text;
        assert FullEncode(source)[3..] == FullEncode(source[1..]);
      }
    }
  }

  // Form decoding: plus is a space, and percent escapes per section 2.1 of RFC 3986.
  function FormDecode(s: string): string
    decreases |s|
  {
    if s == "" then ""
    else if s[0] == '+' then " " + FormDecode(s[1..])
    else if s[0] == '%' && |s| >= 3 && IsDigit(s[1], 16) && IsDigit(s[2], 16) then
      [(16 * DigitValue(s[1]) + DigitValue(s[2])) as char] + FormDecode(s[3..])
    else [s[0]] + FormDecode(s[1..])
  }

  lemma DecodePlain(c: char, rest: string)
    requires IsPlain(c)
    ensures FormDecode([if c == ' ' then '+' else c] + rest) == [c] + FormDecode(rest)
  {
    assert ([if c == ' ' then '+' else c] + rest)[1..] == rest;
  }

  lemma DecodeEscape(c: char, rest: string)
    requires c as int < 128
    ensures FormDecode(['%', DigitChar(c as int / 16), LowDigit(c)] + rest) == [c] + FormDecode(rest)
  {
    hide DigitChar, DigitValue;
    var s := ['%', DigitChar(c as int / 16), LowDigit(c)] + rest;
    assert s[3..] == rest;
  }

  /** Form decoding undoes the encoding. */
  lemma {:induction false} DecodeUndoesEncode(source: string)
    requires IsSevenBit(source)
    ensures FormDecode(FullEncode(source)) == source
    decreases |source|
  {
    hide FormDecode, LowDigit;
    if source == "" {
      DecodeNothing();
    } else {
      var rest := FullEncode(source[1..]);
      DecodeUndoesEncode(source[1..]);
      if IsPlain(source[0]) {
        DecodePlain(source[0], rest);
      } else {
        DecodeEscape(source[0], rest);
      }
    }
  }

  lemma DecodeNothing()
    ensures FormDecode("") == ""
  {
  }

  /** Two parameters that both fit are told apart. */
  lemma EncodeIsInjective(a: string, b: string, length: nat, stray: char)
    requires IsSevenBit(a) && IsSevenBit(b) && (length == 0 || length >= 3)
    requires |FullEncode(a)| <= length && |FullEncode(b)| <= length
    requires Encode(a, 0, length, stray) == Encode(b, 0, length, stray)
    ensures a == b
  {
    FitsExactly(a, 0, length, stray);
    FitsExactly(b, 0, length, stray);
    DecodeUndoesEncode(a);
    DecodeUndoesEncode(b);
  }
}
