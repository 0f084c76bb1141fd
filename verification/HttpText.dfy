/** The C library and stream operations that the HTTP reader and writer are built on, as
  * functions on byte strings.
  */
module HttpText {
  import opened Common

  const MAX_RECV_LEN: nat := 8192

  const CRLF: string := "\r\n"

  predicate IsSpace(c: char) {
    c == ' ' || c == '\t' || c == '\n' || c == 11 as char || c == 12 as char || c == '\r'
  }

  // What the trimming loop of getlineWithTrimRight removes.
  predicate IsLineEnd(c: char) { c == 0 as char || c == '\r' || c == '\n' }

  // A buffer read as a C string.
  function CStr(s: string): (r: string)
    ensures r <= s
    ensures 0 as char !in r
    ensures 0 as char !in s ==> r == s
    ensures |r| < |s| ==> s[|r|] as int == 0
  {
    if s == "" || s[0] == 0 as char then "" else [s[0]] + CStr(s[1..])
  }

  function TrimRight(s: string): (r: string)
    ensures r <= s
    ensures r == "" || !IsLineEnd(r[|r| - 1])
    ensures forall i | |r| <= i < |s| :: IsLineEnd(s[i])
  {
    if s == "" then "" else if IsLineEnd(s[|s| - 1]) then TrimRight(s[..|s| - 1]) else s
  }

  function TrimLeft(s: string): (r: string)
    ensures |r| <= |s| && r == s[|s| - |r|..]
    ensures r == "" || !IsSpace(r[0])
    ensures forall i | 0 <= i < |s| - |r| :: IsSpace(s[i])
  {
    if s == "" || !IsSpace(s[0]) then s else TrimLeft(s[1..])
  }

  // The position of the first newline, or the length if there is none.
  function LineLength(input: string): (n: nat)
    ensures n <= |input|
    ensures forall i | 0 <= i < n :: input[i] != '\n'
    ensures n < |input| ==> input[n] == '\n'
  {
    if input == "" || input[0] == '\n' then 0 else 1 + LineLength(input[1..])
  }

  datatype Line = Bad | Good(text: string, rest: string)

  // istream::getline into a buffer of size bytes: good when a newline comes within
  // size - 1 bytes.
  function GetLine(input: string, size: nat): (r: Line)
    requires size > 0
    ensures r.Good? ==> |r.rest| < |input| && |r.text| < size && input == r.text + "\n" + r.rest
  {
    var n := LineLength(input);
    if n < |input| && n < size then Good(input[..n], input[n + 1..]) else Bad
  }

  // getlineWithTrimRight, with the buffer read as a C string afterwards.
  function TrimmedLine(input: string, size: nat): Line
    requires size > 0
  {
    match GetLine(input, size)
    case Bad => Bad
    case Good(text, rest) => Good(CStr(TrimRight(text)), rest)
  }

  // A line that survives being sent and read back.
  predicate IsCleanLine(s: string) {
    && (forall i | 0 <= i < |s| :: s[i] != '\n' && s[i] != 0 as char)
    && (s == "" || s[|s| - 1] != '\r')
  }

  lemma {:induction false} LineLengthOf(s: string, rest: string)
    requires forall i | 0 <= i < |s| :: s[i] != '\n'
    ensures LineLength(s + "\n" + rest) == |s|
    decreases |s|
  {
    var all := s + "\n" + rest;
    if s != "" {
      assert all[1..] == s[1..] + "\n" + rest;
      LineLengthOf(s[1..], rest);
    }
  }

  lemma GetLineOf(s: string, rest: string, size: nat)
    requires (forall i | 0 <= i < |s| :: s[i] != '\n') && |s| < size
    ensures GetLine(s + "\n" + rest, size) == Good(s, rest)
  {
    LineLengthOf(s, rest);
    var all := s + "\n" + rest;
    assert all[..|s|] == s && all[|s| + 1..] == rest;
  }

  lemma TrimClean(s: string)
    requires IsCleanLine(s)
    ensures TrimRight(s + "\r") == s
  {
    assert (s + "\r")[..|s|] == s;
    assert TrimRight(s + "\r") == TrimRight(s);
  }

  /** Reading back one written line. */
  lemma TrimmedLineOf(s: string, rest: string, size: nat)
    requires IsCleanLine(s) && |s| + 1 < size
    ensures TrimmedLine(s + CRLF + rest, size) == Good(s, rest)
  {
    assert s + CRLF + rest == (s + "\r") + "\n" + rest;
    GetLineOf(s + "\r", rest, size);
    TrimClean(s);
  }

  // strsep: the text before the first del, and what follows it, if del occurs at all.
  function IndexOf(s: string, del: char): (n: nat)
    ensures n <= |s|
    ensures forall i | 0 <= i < n :: s[i] != del
    ensures n < |s| ==> s[n] == del
  {
    if s == "" || s[0] == del then 0 else 1 + IndexOf(s[1..], del)
  }

  function Token(s: string, del: char): string { s[..IndexOf(s, del)] }

  function AfterToken(s: string, del: char): Option<string> {
    if IndexOf(s, del) < |s| then Some(s[IndexOf(s, del) + 1..]) else None
  }

  lemma {:induction false} IndexOfFirst(a: string, del: char, b: string)
    requires del !in a
    ensures IndexOf(a + [del] + b, del) == |a|
    decreases |a|
  {
    var s := a + [del] + b;
    if a != "" {
      assert s[1..] == a[1..] + [del] + b;
      IndexOfFirst(a[1..], del, b);
    }
  }

  lemma Separate(a: string, del: char, b: string)
    requires del !in a
    ensures Token(a + [del] + b, del) == a && AfterToken(a + [del] + b, del) == Some(b)
  {
    IndexOfFirst(a, del, b);
    var s := a + [del] + b;
    assert s[..|a|] == a && s[|a| + 1..] == b;
  }

  // ----- Case-insensitive comparison -----

  function Lower(c: char): char {
    if 'A' <= c <= 'Z' then (c as int + 32) as char else c
  }

  predicate SameIgnoringCase(a: string, b: string) {
    |a| == |b| && forall i | 0 <= i < |a| :: Lower(a[i]) == Lower(b[i])
  }

  // ----- Numbers -----

  predicate IsBase(base: nat) { base == 10 || base == 16 }

  // Unsigned numbers as the stream inserter and a chunk encoder write them.
  function Digits(n: nat, base: nat): (s: string)
    requires IsBase(base)
    ensures s != "" && (n > 0 ==> s[0] != '0')
    ensures forall i | 0 <= i < |s| :: IsDigit(s[i], base) && !IsSpace(s[i]) && 0 < s[i] as int < 128
    ensures s[0] != '-' && s[0] != '+'
  {
    if n < base then [DigitChar(n)] else Digits(n / base, base) + [DigitChar(n % base)]
  }

  // A signed int as the stream inserter writes it.
  function Decimal(n: int): string {
    if n < 0 then "-" + Digits(-n, 10) else Digits(n, 10)
  }

  predicate StartsWithDigit(s: string, base: nat) {
    s != "" && IsDigit(s[0], base)
  }

  function ParseDigits(s: string, base: nat, acc: nat): nat
    requires IsBase(base)
    decreases |s|
  {
    if StartsWithDigit(s, base) then ParseDigits(s[1..], base, acc * base + DigitValue(s[0])) else acc
  }

  lemma DivMod(n: nat, base: nat)
    requires IsBase(base)
    ensures n / base * base + n % base == n
  {
  }

  lemma ParseOneDigit(d: nat, base: nat, tail: string, acc: nat)
    requires IsBase(base) && d < base
    ensures ParseDigits([DigitChar(d)] + tail, base, acc) == ParseDigits(tail, base, acc * base + d)
  {
    assert ([DigitChar(d)] + tail)[1..] == tail;
  }

  lemma {:induction false} ParseDigitsOf(n: nat, base: nat, tail: string)
    requires IsBase(base)
    ensures ParseDigits(Digits(n, base) + tail, base, 0) == ParseDigits(tail, base, n)
    decreases n
  {
    hide ParseDigits;
    if n < base {
      ParseOneDigit(n, base, tail, 0);
    } else {
      var c := DigitChar(n % base);
      assert Digits(n, base) + tail == Digits(n / base, base) + ([c] + tail);
      ParseDigitsOf(n / base, base, [c] + tail);
      ParseOneDigit(n % base, base, tail, n / base);
      DivMod(n, base);
    }
  }

  const LONG_MAX: int := 0x7FFF_FFFF_FFFF_FFFF

  // The digits after the sign; base 16 allows a 0x prefix.
  function Magnitude(s: string, base: nat): nat
    requires IsBase(base)
  {
    if base == 16 && |s| >= 3 && s[0] == '0' && (s[1] == 'x' || s[1] == 'X') && StartsWithDigit(s[2..], 16)
    then ParseDigits(s[2..], 16, 0) else ParseDigits(s, base, 0)
  }

  // What strtol makes of the value it has read.
  function Narrowed(value: int): int {
    CastToInt(if value > LONG_MAX then LONG_MAX else if value < -LONG_MAX - 1 then -LONG_MAX - 1 else value)
  }

  // strtol on a C string, narrowed to int; atoi is this with base 10.
  function StrToInt(s: string, base: nat): int
    requires IsBase(base)
  {
    var t := TrimLeft(s);
    var value :=
      if t != "" && t[0] == '-' then -(Magnitude(t[1..], base) as int)
      else if t != "" && t[0] == '+' then Magnitude(t[1..], base)
      else Magnitude(t, base);
    Narrowed(value)
  }

  lemma NoHexPrefix(n: nat, base: nat, tail: string)
    requires IsBase(base) && !StartsWithDigit(tail, base) && (tail == "" || (tail[0] != 'x' && tail[0] != 'X'))
    ensures Magnitude(Digits(n, base) + tail, base) == n
  {
    var s := Digits(n, base) + tail;
    ParseDigitsOf(n, base, tail);
    assert s[0] == Digits(n, base)[0];
    if s[0] == '0' {
      assert n == 0;
      assert Digits(n, base) == "0";
      assert |s| > 1 ==> s[1] == tail[0];
    }
  }

  /** Reading back a number that was written unsigned. */
  lemma UnsignedRoundTrip(n: nat, base: nat, tail: string)
    requires IsBase(base) && n < 0x8000_0000
    requires !StartsWithDigit(tail, base) && (tail == "" || (tail[0] != 'x' && tail[0] != 'X'))
    ensures StrToInt(Digits(n, base) + tail, base) == n
  {
    var s := Digits(n, base) + tail;
    assert s[0] == Digits(n, base)[0];
    assert TrimLeft(s) == s;
    NoHexPrefix(n, base, tail);
  }

  lemma AfterMinus(digits: string)
    ensures StrToInt("-" + digits, 10) == Narrowed(-(Magnitude(digits, 10) as int))
  {
    hide Magnitude, Narrowed;
    var s := "-" + digits;
    assert TrimLeft(s) == s && s[1..] == digits;
  }

  lemma NegativeRoundTrip(n: nat)
    requires 0 < n <= 0x8000_0000
    ensures StrToInt("-" + Digits(n, 10), 10) == -(n as int)
  {
    hide Digits, Magnitude, StrToInt;
    AfterMinus(Digits(n, 10));
    NoHexPrefix(n, 10, "");
    assert Digits(n, 10) + "" == Digits(n, 10);
  }

  /** Reading back a signed int. */
  lemma DecimalRoundTrip(n: int)
    requires -0x8000_0000 <= n < 0x8000_0000
    ensures StrToInt(Decimal(n), 10) == n
  {
    if n >= 0 {
      UnsignedRoundTrip(n, 10, "");
      assert Digits(n, 10) + "" == Digits(n, 10);
      hide *;
    } else {
      NegativeRoundTrip(-n);
      hide StrToInt, Digits;
    }
  }

  // ----- What these functions mean, in terms of character codes -----

  /** White space is tab, newline, vertical tab, form feed, carriage return and blank. */
  lemma SpacesAre(c: char)
    ensures IsSpace(c) <==> c as int in {9, 10, 11, 12, 13, 32}
  {
  }

  /** Exactly terminators, newlines and carriage returns are trimmed on the right. */
  lemma {:induction false} TrimRightExactly(s: string, ends: string)
    requires forall i | 0 <= i < |ends| :: ends[i] as int in {0, 10, 13}
    requires s == "" || s[|s| - 1] as int !in {0, 10, 13}
    ensures TrimRight(s + ends) == s
    decreases |ends|
  {
    if ends == "" {
      assert s + ends == s;
    } else {
      var n := |ends| - 1;
      TrimRightExactly(s, ends[..n]);
      assert (s + ends)[..|s| + n] == s + ends[..n];
    }
  }

  // The two letters differ in case only, or not at all.
  predicate SameLetter(a: char, b: char) {
    a == b || (65 <= a as int <= 90 && b as int == a as int + 32) || (65 <= b as int <= 90 && a as int == b as int + 32)
  }

  /** Names are the same when they agree letter by letter but for the case of A to Z. */
  lemma SameNamesAre(a: string, b: string)
    ensures SameIgnoringCase(a, b) <==> |a| == |b| && forall i | 0 <= i < |a| :: SameLetter(a[i], b[i])
  {
    if SameIgnoringCase(a, b) {
      forall i | 0 <= i < |a| ensures SameLetter(a[i], b[i]) {
        LowerIsCase(a[i], b[i]);
      }
    }
    if |a| == |b| && forall i | 0 <= i < |a| :: SameLetter(a[i], b[i]) {
      forall i | 0 <= i < |a| ensures Lower(a[i]) == Lower(b[i]) {
        LowerIsCase(a[i], b[i]);
      }
    }
  }

  lemma LowerIsCase(a: char, b: char)
    ensures Lower(a) == Lower(b) <==> SameLetter(a, b)
  {
  }

  // ----- Numerals -----

  // A digit's value, upper and lower case letters alike.
  function NumeralValue(c: char): nat {
    var n := c as int;
    if 48 <= n <= 57 then n - 48 else if 97 <= n <= 102 then n - 87 else if 65 <= n <= 70 then n - 55 else 16
  }

  predicate IsNumeral(text: string, base: nat) {
    text != "" && forall i | 0 <= i < |text| :: NumeralValue(text[i]) < base
  }

  // The number that a numeral stands for.
  function Value(text: string, base: nat): nat {
    if text == "" then 0 else Value(text[..|text| - 1], base) * base + NumeralValue(text[|text| - 1])
  }

  lemma NumeralIsDigit(c: char, base: nat)
    requires IsBase(base)
    ensures IsDigit(c, base) <==> NumeralValue(c) < base
    ensures IsDigit(c, base) ==> DigitValue(c) == NumeralValue(c) && !IsSpace(c) && c !in "+-xX"
  {
  }

  lemma {:induction false} ParseNumeral(text: string, base: nat, tail: string)
    requires IsBase(base) && forall i | 0 <= i < |text| :: NumeralValue(text[i]) < base
    ensures ParseDigits(text + tail, base, 0) == ParseDigits(tail, base, Value(text, base))
    decreases |text|
  {
    if text == "" {
      assert text + tail == tail;
    } else {
      hide NumeralValue, DigitValue;
      var n := |text| - 1;
      var more := [text[n]] + tail;
      ParseNumeral(text[..n], base, more);
      assert text + tail == text[..n] + more;
      NumeralIsDigit(text[n], base);
      assert more[1..] == tail;
    }
  }

  lemma MagnitudeOf(text: string, base: nat, tail: string)
    requires IsBase(base) && IsNumeral(text, base)
    requires tail == "" || (!IsDigit(tail[0], base) && tail[0] !in "xX")
    ensures Magnitude(text + tail, base) == Value(text, base)
  {
    hide NumeralValue, DigitValue, Value;
    ParseNumeral(text, base, tail);
    var s := text + tail;
    if |s| > 1 {
      assert s[1] == if |text| > 1 then text[1] else tail[0];
      if |text| > 1 {
        NumeralIsDigit(text[1], base);
      }
    }
  }

  lemma {:induction false} TrimLeftOf(blanks: string, s: string)
    requires (forall i | 0 <= i < |blanks| :: IsSpace(blanks[i])) && (s == "" || !IsSpace(s[0]))
    ensures TrimLeft(blanks + s) == s
    decreases |blanks|
  {
    if blanks == "" {
      assert blanks + s == s;
    } else {
      assert (blanks + s)[1..] == blanks[1..] + s;
      TrimLeftOf(blanks[1..], s);
    }
  }

  // Limited to a 64-bit long.
  function Limited(v: int): int {
    if v > 0x7FFF_FFFF_FFFF_FFFF then 0x7FFF_FFFF_FFFF_FFFF else if v < -0x8000_0000_0000_0000 then -0x8000_0000_0000_0000 else v
  }

  /** Reading any numeral, with white space and a sign before it and anything that is no digit
    * behind it: the value, limited to 64 bits, and of that the low 32 bits as an int.
    */
  lemma NumeralRead(blanks: string, sign: string, text: string, base: nat, tail: string)
    requires IsBase(base) && IsNumeral(text, base) && sign in {"", "+", "-"}
    requires forall i | 0 <= i < |blanks| :: blanks[i] as int in {9, 10, 11, 12, 13, 32}
    requires tail == "" || (!IsDigit(tail[0], base) && tail[0] !in "xX")
    ensures var v := Limited(if sign == "-" then -(Value(text, base) as int) else Value(text, base));
      var r := StrToInt(blanks + sign + text + tail, base);
      (v - r) % 0x1_0000_0000 == 0 && -0x8000_0000 <= r < 0x8000_0000
    ensures sign == "" && Value(text, base) < 0x8000_0000 ==> StrToInt(blanks + sign + text + tail, base) == Value(text, base)
  {
    hide NumeralValue, DigitValue, Value, Magnitude, TrimLeft, IsSpace;
    var s := sign + (text + tail);
    assert blanks + sign + text + tail == blanks + s;
    forall i | 0 <= i < |blanks| ensures IsSpace(blanks[i]) {
      SpacesAre(blanks[i]);
    }
    NumeralIsDigit(text[0], base);
    assert s[0] == if sign == "" then text[0] else sign[0];
    SpacesAre(s[0]);
    TrimLeftOf(blanks, s);
    MagnitudeOf(text, base, tail);
    if sign == "" {
      assert s == text + tail;
    } else {
      assert s[1..] == text + tail;
    }
  }

  lemma OneMoreDigit(text: string, base: nat, c: char)
    requires (text == "" || IsNumeral(text, base)) && NumeralValue(c) < base
    ensures IsNumeral(text + [c], base) && Value(text + [c], base) == Value(text, base) * base + NumeralValue(c)
  {
    hide NumeralValue;
    assert (text + [c])[..|text|] == text;
  }

  lemma LastDigit(n: nat, base: nat)
    requires IsBase(base)
    ensures Digits(n, base) == (if n < base then "" else Digits(n / base, base)) + [DigitChar(n % base)]
    ensures NumeralValue(DigitChar(n % base)) == n % base
  {
    NumeralIsDigit(DigitChar(n % base), base);
    assert n < base ==> n % base == n;
  }

  /** A number is written in positional notation. */
  lemma {:induction false} DigitsValue(n: nat, base: nat)
    requires IsBase(base)
    ensures IsNumeral(Digits(n, base), base) && Value(Digits(n, base), base) == n
    decreases n
  {
    hide Digits, DigitChar, NumeralValue, Value, IsNumeral, IsDigit;
    LastDigit(n, base);
    DivMod(n, base);
    if n < base {
      EmptyValue(base);
      OneMoreDigit("", base, DigitChar(n % base));
    } else {
      DigitsValue(n / base, base);
      OneMoreDigit(Digits(n / base, base), base, DigitChar(n % base));
    }
  }

  lemma EmptyValue(base: nat)
    ensures Value("", base) == 0
  {
  }
}
