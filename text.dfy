/**
 * The string primitives the tools rely on: .NET whitespace, `Trim`,
 * `ToLowerInvariant` (ASCII part), `string.Split(char)` / `string.Join`,
 * and 32-bit `int.Parse` / `int.ToString` under the invariant culture.
 */
module Text {
  import opened Wrappers

  // ---------------------------------------------------------------------
  // Characters
  // ---------------------------------------------------------------------

  /** The characters `char.IsWhiteSpace` accepts; the regex class `\s` is the same set. */
  predicate IsWhiteSpace(c: char) {
    c == ' ' || ('\t' <= c <= '\r') || c == '\U{85}' || c == '\U{A0}' || c == '\U{1680}'
    || ('\U{2000}' <= c <= '\U{200A}') || c == '\U{2028}' || c == '\U{2029}'
    || c == '\U{202F}' || c == '\U{205F}' || c == '\U{3000}'
  }

  predicate IsDigit(c: char) { '0' <= c <= '9' }

  /** The regex class `\w` restricted to ASCII: letters, digits and underscore. */
  predicate IsWordChar(c: char) {
    ('a' <= c <= 'z') || ('A' <= c <= 'Z') || IsDigit(c) || c == '_'
  }

  function LowerChar(c: char): char {
    if 'A' <= c <= 'Z' then (c as int + 32) as char else c
  }

  /** `ToLowerInvariant` on the ASCII range; other characters are kept. */
  function Lower(s: string): (r: string)
    ensures |r| == |s|
    ensures forall i :: 0 <= i < |s| ==> r[i] == LowerChar(s[i])
  {
    seq(|s|, i requires 0 <= i < |s| => LowerChar(s[i]))
  }

  /** A lower-cased text holds no ASCII capital, so lower-casing it again changes nothing. */
  lemma LowerIdempotent(s: string)
    ensures forall i :: 0 <= i < |s| ==> !('A' <= Lower(s)[i] <= 'Z')
    ensures Lower(Lower(s)) == Lower(s)
  {
    var once := Lower(s);
    assert forall i :: 0 <= i < |once| ==> LowerChar(once[i]) == once[i];
  }

  // ---------------------------------------------------------------------
  // Trimming
  // ---------------------------------------------------------------------

  /** `TrimStart()`: drops the leading whitespace and nothing else. */
  function TrimStart(s: string): (r: string)
    ensures |r| <= |s| && r == s[|s| - |r|..]
    ensures forall i :: 0 <= i < |s| - |r| ==> IsWhiteSpace(s[i])
    ensures r == [] || !IsWhiteSpace(r[0])
  {
    if s != [] && IsWhiteSpace(s[0]) then TrimStart(s[1..]) else s
  }

  /** `TrimEnd()`: drops the trailing whitespace and nothing else. */
  function TrimEnd(s: string): (r: string)
    ensures |r| <= |s| && r == s[..|r|]
    ensures forall i :: |r| <= i < |s| ==> IsWhiteSpace(s[i])
    ensures r == [] || !IsWhiteSpace(r[|r| - 1])
  {
    if s != [] && IsWhiteSpace(s[|s| - 1]) then TrimEnd(s[..|s| - 1]) else s
  }

  /** `r` is the slice of `s` at `i`, with only white space before and after it. */
  predicate StrippedAt(s: string, i: int, r: string) {
    0 <= i <= |s| - |r| && r == s[i..i + |r|]
    && (forall k :: 0 <= k < i ==> IsWhiteSpace(s[k]))
    && (forall k :: i + |r| <= k < |s| ==> IsWhiteSpace(s[k]))
  }

  /** `Trim()`. */
  function Trim(s: string): (r: string)
    ensures r == [] || (!IsWhiteSpace(r[0]) && !IsWhiteSpace(r[|r| - 1]))
  {
    TrimEnd(TrimStart(s))
  }

  /**
   * `Trim()` gives the middle of `s` that is left when the leading and the
   * trailing white space are dropped.
   */
  lemma TrimStripped(s: string)
    ensures exists i :: StrippedAt(s, i, Trim(s))
  {
    StrippedBetween(s, TrimStart(s), Trim(s));
  }

  /** A suffix after white space, cut before white space, is stripped at its start. */
  lemma StrippedBetween(s: string, t: string, r: string)
    requires |t| <= |s| && t == s[|s| - |t|..] && forall k :: 0 <= k < |s| - |t| ==> IsWhiteSpace(s[k])
    requires |r| <= |t| && r == t[..|r|] && forall k :: |r| <= k < |t| ==> IsWhiteSpace(t[k])
    ensures StrippedAt(s, |s| - |t|, r)
  {
    var i := |s| - |t|;
    assert r == s[i..i + |r|];
    assert forall k :: i + |r| <= k < |s| ==> s[k] == t[k - i];
  }

  /** Concatenation is associative. */
  lemma SeqAssoc<T>(a: seq<T>, b: seq<T>, c: seq<T>)
    ensures a + b + c == a + (b + c)
  {
  }

  /** Leading white space is dropped only from the front part when the back part starts with a visible character. */
  lemma {:induction false} TrimStartAppend(a: string, b: string)
    requires b != [] && !IsWhiteSpace(b[0])
    ensures TrimStart(a + b) == TrimStart(a) + b
    decreases |a|
  {
    if a == [] {
      assert a + b == b;
    } else if IsWhiteSpace(a[0]) {
      assert (a + b)[0] == a[0] && (a + b)[1..] == a[1..] + b;
      TrimStartAppend(a[1..], b);
    } else {
      assert (a + b)[0] == a[0];
    }
  }

  /** Trailing white space is dropped only from the back part when the front part ends with a visible character. */
  lemma {:induction false} TrimEndPrepend(a: string, b: string)
    requires a != [] && !IsWhiteSpace(a[|a| - 1])
    ensures TrimEnd(a + b) == a + TrimEnd(b)
    decreases |b|
  {
    if b == [] {
      assert a + b == a;
    } else if IsWhiteSpace(b[|b| - 1]) {
      var ab := a + b;
      assert ab[|ab| - 1] == b[|b| - 1] && ab[..|ab| - 1] == a + b[..|b| - 1];
      TrimEndPrepend(a, b[..|b| - 1]);
    } else {
      var ab := a + b;
      assert ab[|ab| - 1] == b[|b| - 1];
    }
  }

  lemma TrimNoWhiteSpace(s: string)
    requires forall i :: 0 <= i < |s| ==> !IsWhiteSpace(s[i])
    ensures TrimStart(s) == s && Trim(s) == s
  {
  }

  // ---------------------------------------------------------------------
  // Searching, splitting and joining
  // ---------------------------------------------------------------------

  /** `IndexOf(c)`: the first position of `c`, if any. */
  function IndexOf(s: string, c: char): (r: Option<nat>)
    ensures r.None? <==> c !in s
    ensures r.Some? ==> r.value < |s| && s[r.value] == c && c !in s[..r.value]
  {
    if s == [] then None
    else if s[0] == c then Some(0)
    else match IndexOf(s[1..], c)
      case None => None
      case Some(k) =>
        assert s[..k + 1] == [s[0]] + s[1..][..k];
        Some(k + 1)
  }

  function CountChar(s: string, c: char): nat {
    if s == [] then 0 else (if s[0] == c then 1 else 0) + CountChar(s[1..], c)
  }

  lemma CountCharAppend(a: string, b: string, c: char)
    ensures CountChar(a + b, c) == CountChar(a, c) + CountChar(b, c)
  {
    if a != [] {
      assert (a + b)[0] == a[0] && (a + b)[1..] == a[1..] + b;
      CountCharAppend(a[1..], b, c);
    } else {
      assert a + b == b;
    }
  }

  lemma CountCharAbsent(s: string, c: char)
    requires c !in s
    ensures CountChar(s, c) == 0
  {
    if s != [] {
      CountCharAbsent(s[1..], c);
    }
  }

  /** `string.Join(sep, parts)`. */
  function Join(parts: seq<string>, sep: string): string {
    if |parts| == 0 then ""
    else if |parts| == 1 then parts[0]
    else parts[0] + sep + Join(parts[1..], sep)
  }

  /**
   * `string.Split(c)`: the pieces between the occurrences of `c`, empty
   * pieces included, so there is always one more piece than separators and
   * joining the pieces back gives the input.
   */
  function Split(s: string, c: char): (parts: seq<string>)
    ensures |parts| == CountChar(s, c) + 1
    ensures forall i :: 0 <= i < |parts| ==> c !in parts[i]
    ensures Join(parts, [c]) == s
    decreases |s|
  {
    match IndexOf(s, c)
    case None =>
      CountCharAbsent(s, c);
      [s]
    case Some(k) =>
      var rest := Split(s[k + 1..], c);
      assert s == s[..k] + [c] + s[k + 1..];
      CountCharAppend(s[..k] + [c], s[k + 1..], c);
      CountCharAppend(s[..k], [c], c);
      CountCharAbsent(s[..k], c);
      [s[..k]] + rest
  }

  /** The first occurrence is the one `IndexOf` finds. */
  lemma IndexOfFirst(s: string, c: char, n: nat)
    requires n < |s| && s[n] == c && c !in s[..n]
    ensures IndexOf(s, c) == Some(n)
  {
    if n > 0 {
      assert s[..n][0] == s[0];
      assert s[1..][n - 1] == c && s[1..][..n - 1] == s[..n][1..];
      IndexOfFirst(s[1..], c, n - 1);
    }
  }

  /** Splitting at the first separator. */
  lemma SplitAt(s: string, c: char, n: nat)
    requires IndexOf(s, c) == Some(n)
    ensures Split(s, c) == [s[..n]] + Split(s[n + 1..], c)
  {
  }

  /** Splitting a join restores the pieces when no piece holds the separator. */
  lemma {:induction false} SplitJoin(parts: seq<string>, c: char)
    requires |parts| >= 1
    requires forall i :: 0 <= i < |parts| ==> c !in parts[i]
    ensures Split(Join(parts, [c]), c) == parts
  {
    if |parts| == 1 {
      assert IndexOf(parts[0], c).None?;
    } else {
      var n := |parts[0]|;
      var tail := Join(parts[1..], [c]);
      var s := parts[0] + [c] + tail;
      assert Join(parts, [c]) == s;
      assert s[..n] == parts[0] && s[n] == c && s[n + 1..] == tail;
      IndexOfFirst(s, c, n);
      SplitAt(s, c, n);
      SplitJoin(parts[1..], c);
      assert parts == [parts[0]] + parts[1..];
    }
  }

  // ---------------------------------------------------------------------
  // 32-bit integers in decimal
  // ---------------------------------------------------------------------

  const MinInt32: int := -0x8000_0000
  const MaxInt32: int := 0x7FFF_FFFF

  /** The values of a C# `int`. */
  type Int32 = x: int | MinInt32 <= x <= MaxInt32

  /** What `int.Parse` does with a text: a value, `FormatException` or `OverflowException`. */
  datatype IntParse = Parsed(value: int) | BadFormat | Overflow

  function DigitValue(c: char): nat
    requires IsDigit(c)
  {
    c as int - '0' as int
  }

  function DigitChar(d: nat): (c: char)
    requires d < 10
    ensures IsDigit(c) && DigitValue(c) == d
  {
    ('0' as int + d) as char
  }

  predicate AllDigits(s: string) {
    forall i :: 0 <= i < |s| ==> IsDigit(s[i])
  }

  /** The value of a string of decimal digits, read left to right. */
  function DigitsValue(s: string): nat
    requires AllDigits(s)
  {
    if s == [] then 0 else DigitsValue(s[..|s| - 1]) * 10 + DigitValue(s[|s| - 1])
  }

  /** The white space `NumberStyles.Integer` admits around a number. */
  predicate IsNumberWhite(c: char) {
    c == ' ' || ('\t' <= c <= '\r')
  }

  function TrimNumberWhite(s: string): string {
    if s != [] && IsNumberWhite(s[0]) then TrimNumberWhite(s[1..])
    else if s != [] && IsNumberWhite(s[|s| - 1]) then TrimNumberWhite(s[..|s| - 1])
    else s
  }

  /** The text without the NUL characters at its end. */
  function DropTrailingNuls(s: string): string {
    if s != [] && s[|s| - 1] == '\0' then DropTrailingNuls(s[..|s| - 1]) else s
  }

  /**
   * `int.Parse` / `int.TryParse` with `NumberStyles.Integer`: optional white
   * space around, one optional sign, one or more ASCII digits, and the value
   * within 32 bits. As in .NET, NUL characters may close the text, after the
   * trailing white space and with nothing else after them.
   */
  function ParseInt32(s: string): (r: IntParse)
    ensures r.Parsed? ==> MinInt32 <= r.value <= MaxInt32
  {
    var t := TrimNumberWhite(DropTrailingNuls(s));
    var negative := |t| > 0 && t[0] == '-';
    var digits := if |t| > 0 && (t[0] == '-' || t[0] == '+') then t[1..] else t;
    if digits == [] || !AllDigits(digits) then BadFormat
    else
      var v: int := if negative then -(DigitsValue(digits) as int) else DigitsValue(digits);
      if MinInt32 <= v <= MaxInt32 then Parsed(v) else Overflow
  }

  /** The decimal digits of a natural number, most significant first. */
  function NatToString(n: nat): (r: string)
    ensures |r| >= 1 && AllDigits(r)
  {
    if n < 10 then [DigitChar(n)] else NatToString(n / 10) + [DigitChar(n % 10)]
  }

  /** `int.ToString()` under the invariant culture. */
  function FormatInt(x: int): (r: string)
    ensures |r| >= 1
    ensures forall i :: 0 <= i < |r| ==> r[i] == '-' || IsDigit(r[i])
  {
    if x < 0 then "-" + NatToString(-x) else NatToString(x)
  }

  lemma {:induction false} NatToStringValue(n: nat)
    ensures DigitsValue(NatToString(n)) == n
  {
    if n >= 10 {
      var s := NatToString(n);
      assert s[..|s| - 1] == NatToString(n / 10);
      NatToStringValue(n / 10);
    }
  }

  /** Printing a 32-bit integer and parsing it back gives the same integer. */
  lemma FormatParseInt32(x: Int32)
    ensures ParseInt32(FormatInt(x)) == Parsed(x)
  {
    var s := FormatInt(x);
    assert DropTrailingNuls(s) == s;
    assert TrimNumberWhite(s) == s;
    if x < 0 {
      var n: nat := -(x as int);
      assert s[1..] == NatToString(n);
      NatToStringValue(n);
    } else {
      NatToStringValue(x);
    }
  }

  /** A NUL at the end of the text never changes what it parses to. */
  lemma TrailingNulIgnored(s: string)
    ensures ParseInt32(s + ['\0']) == ParseInt32(s)
  {
    var t := s + ['\0'];
    assert t[..|t| - 1] == s;
  }

  /** NULs may follow the trailing white space, but white space may not follow a NUL. */
  lemma TrailingNulOrder()
    ensures ParseInt32("5 \0") == Parsed(5)
    ensures ParseInt32("5\0 ") == BadFormat
  {
    var a := "5 \0";
    assert a[..|a| - 1] == "5 ";
    assert DropTrailingNuls("5 ") == "5 ";
    assert "5 "[..1] == "5";
    assert TrimNumberWhite("5 ") == TrimNumberWhite("5") == "5";
    assert DigitsValue("5") == 5;
    var b := "5\0 ";
    assert DropTrailingNuls(b) == b;
    assert b[..2] == "5\0";
    assert TrimNumberWhite(b) == TrimNumberWhite("5\0") == "5\0";
    assert !IsDigit(b[1]);
  }
}
