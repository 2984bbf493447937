/**
 * JavaScript string and number primitives that the app's screens and
 * utilities rely on, restated over Dafny strings and unbounded integers:
 * Number.prototype.toString on integers, parseInt, String.prototype.trim,
 * padStart, substring, slice-free split and Array.prototype.join.
 */
module JsText {

  datatype Option<T> = None | Some(value: T)

  /** A JavaScript number as far as the app uses it: an integer, or NaN. */
  datatype JsNumber = Num(value: int) | NaN

  predicate IsDigit(c: char) {
    '0' <= c <= '9'
  }

  predicate AllDigits(s: string) {
    forall i :: 0 <= i < |s| ==> IsDigit(s[i])
  }

  function DigitValue(c: char): (d: nat)
    requires IsDigit(c)
    ensures d < 10
  {
    (c as int) - ('0' as int)
  }

  function DigitChar(d: nat): (c: char)
    requires d < 10
    ensures IsDigit(c) && DigitValue(c) == d
  {
    (('0' as int) + d) as char
  }

  /** Decimal text of a natural number, without leading zeros. */
  function NatToString(n: nat): (s: string)
    ensures |s| >= 1 && AllDigits(s)
    ensures n < 10 <==> |s| == 1
    decreases n
  {
    if n < 10 then [DigitChar(n)] else NatToString(n / 10) + [DigitChar(n % 10)]
  }

  /** `n.toString()` for an integer-valued JavaScript number. */
  function IntToString(n: int): string {
    if n < 0 then "-" + NatToString(-n) else NatToString(n)
  }

  /** `String(v)` / `v.toString()` for the numbers the app stores. */
  function NumberToString(v: JsNumber): string {
    match v
    case Num(n) => IntToString(n)
    case NaN => "NaN"
  }

  /** Value of a string of decimal digits, most significant first. */
  function DigitsValue(s: string): nat
    requires AllDigits(s)
  {
    if s == [] then 0 else DigitsValue(s[..|s| - 1]) * 10 + DigitValue(s[|s| - 1])
  }

  lemma {:induction false} NatToStringValue(n: nat)
    ensures DigitsValue(NatToString(n)) == n
    decreases n
  {
    if n >= 10 {
      var s := NatToString(n);
      assert s[..|s| - 1] == NatToString(n / 10);
      NatToStringValue(n / 10);
    }
  }

  /**
   * The characters String.prototype.trim and parseInt skip: the
   * ECMAScript WhiteSpace and LineTerminator code points.
   */
  predicate IsJsWhiteSpace(c: char) {
    c == '\t' || c == '\n' || c == '\U{000B}' || c == '\U{000C}' || c == '\r' ||
    c == ' ' || c == '\U{00A0}' || c == '\U{1680}' || ('\U{2000}' <= c <= '\U{200A}') ||
    c == '\U{2028}' || c == '\U{2029}' || c == '\U{202F}' || c == '\U{205F}' ||
    c == '\U{3000}' || c == '\U{FEFF}'
  }

  predicate AllWhiteSpace(s: string) {
    forall i :: 0 <= i < |s| ==> IsJsWhiteSpace(s[i])
  }

  function TrimStart(s: string): (r: string)
    ensures |r| <= |s| && r == s[|s| - |r|..]
    ensures r == [] || !IsJsWhiteSpace(r[0])
    ensures AllWhiteSpace(s[..|s| - |r|])
  {
    if s != [] && IsJsWhiteSpace(s[0]) then TrimStart(s[1..]) else s
  }

  function TrimEnd(s: string): (r: string)
    ensures |r| <= |s| && r == s[..|r|]
    ensures r == [] || !IsJsWhiteSpace(r[|r| - 1])
    ensures AllWhiteSpace(s[|r|..])
  {
    if s != [] && IsJsWhiteSpace(s[|s| - 1]) then TrimEnd(s[..|s| - 1]) else s
  }

  /** `s.trim()` */
  function Trim(s: string): string {
    TrimEnd(TrimStart(s))
  }

  lemma {:induction false} TrimStartSkipsWhiteSpace(a: string, s: string)
    requires AllWhiteSpace(a)
    ensures TrimStart(a + s) == TrimStart(s)
  {
    if a != [] {
      assert (a + s)[0] == a[0];
      assert (a + s)[1..] == a[1..] + s;
      TrimStartSkipsWhiteSpace(a[1..], s);
    } else {
      assert a + s == s;
    }
  }

  lemma {:induction false} TrimEndSkipsWhiteSpace(s: string, b: string)
    requires AllWhiteSpace(b)
    ensures TrimEnd(s + b) == TrimEnd(s)
  {
    if b != [] {
      assert (s + b)[..|s + b| - 1] == s + b[..|b| - 1];
      TrimEndSkipsWhiteSpace(s, b[..|b| - 1]);
    } else {
      assert s + b == s;
    }
  }

  lemma {:induction false} TrimStartOfAppend(s: string, b: string)
    requires TrimStart(s) != []
    ensures TrimStart(s + b) == TrimStart(s) + b
  {
    assert s != [];
    assert (s + b)[0] == s[0];
    if IsJsWhiteSpace(s[0]) {
      assert (s + b)[1..] == s[1..] + b;
      assert TrimStart(s) == TrimStart(s[1..]);
      TrimStartOfAppend(s[1..], b);
    } else {
      assert TrimStart(s) == s;
      assert TrimStart(s + b) == s + b;
    }
  }

  /** White space around a text never changes what `trim` gives. */
  lemma TrimIgnoresSurroundingWhiteSpace(a: string, s: string, b: string)
    requires AllWhiteSpace(a) && AllWhiteSpace(b)
    ensures Trim(a + s + b) == Trim(s)
  {
    assert a + s + b == a + (s + b);
    TrimStartSkipsWhiteSpace(a, s + b);
    if TrimStart(s) != [] {
      TrimStartOfAppend(s, b);
      TrimEndSkipsWhiteSpace(TrimStart(s), b);
    } else {
      assert s == s[..|s| - |TrimStart(s)|];
      TrimStartSkipsWhiteSpace(s, b);
      TrimStartSkipsWhiteSpace(b, []);
      assert b + [] == b;
    }
  }

  /** Length of the longest all-digit prefix of `s`. */
  function DigitPrefixLength(s: string): (n: nat)
    ensures n <= |s| && AllDigits(s[..n])
    ensures n < |s| ==> !IsDigit(s[n])
  {
    if s != [] && IsDigit(s[0]) then
      var n := 1 + DigitPrefixLength(s[1..]);
      assert s[..n] == [s[0]] + s[1..][..n - 1];
      n
    else 0
  }

  /**
   * `parseInt(s)` without a radix, for decimal text: leading white space
   * is skipped, one sign is accepted, and the longest run of digits that
   * follows is read; no digits at all gives NaN.
   */
  function ParseInt(s: string): JsNumber {
    ParseSigned(TrimStart(s))
  }

  function ParseSigned(t: string): JsNumber {
    if t != [] && t[0] == '-' then Negate(ParseDigits(t[1..]))
    else if t != [] && t[0] == '+' then ParseDigits(t[1..])
    else ParseDigits(t)
  }

  function ParseDigits(b: string): JsNumber {
    var n := DigitPrefixLength(b);
    if n == 0 then NaN else Num(DigitsValue(b[..n]))
  }

  function Negate(v: JsNumber): JsNumber {
    match v
    case Num(n) => Num(-n)
    case NaN => NaN
  }

  lemma {:induction false} DigitPrefixOfDigits(s: string)
    requires AllDigits(s)
    ensures DigitPrefixLength(s) == |s|
  {
    if s != [] {
      DigitPrefixOfDigits(s[1..]);
    }
  }

  lemma ParseDigitsOfDigits(s: string)
    requires s != [] && AllDigits(s)
    ensures ParseDigits(s) == Num(DigitsValue(s))
  {
    DigitPrefixOfDigits(s);
    assert s[..|s|] == s;
  }

  lemma DigitStartsNoSignOrBlank(c: char)
    requires IsDigit(c)
    ensures !IsJsWhiteSpace(c) && c != '-' && c != '+'
  {
  }

  /** The decimal text of a natural number is read back by `parseInt`. */
  lemma ParseNatToString(n: nat)
    ensures ParseInt(NatToString(n)) == Num(n)
  {
    var t := NatToString(n);
    DigitStartsNoSignOrBlank(t[0]);
    assert TrimStart(t) == t;
    assert ParseSigned(t) == ParseDigits(t);
    NatToStringValue(n);
    ParseDigitsOfDigits(t);
  }

  /** A minus sign before the decimal text of n is read back as -n. */
  lemma ParseNegatedNatToString(n: nat)
    ensures ParseInt("-" + NatToString(n)) == Num(-(n as int))
  {
    var t := "-" + NatToString(n);
    assert !IsJsWhiteSpace(t[0]);
    assert TrimStart(t) == t;
    assert t[1..] == NatToString(n);
    NatToStringValue(n);
    ParseDigitsOfDigits(NatToString(n));
  }

  /** Integers survive `toString` followed by `parseInt`. */
  lemma IntToStringRoundTrip(n: int)
    ensures ParseInt(IntToString(n)) == Num(n)
  {
    if n < 0 {
      ParseNegatedNatToString(-n);
    } else {
      ParseNatToString(n);
    }
  }

  /** `s.padStart(len, pad)` for a one-character pad string. */
  function PadStart(s: string, len: nat, pad: char): (r: string)
    ensures |r| == if |s| >= len then |s| else len
    ensures r[|r| - |s|..] == s
  {
    if |s| >= len then s else seq(len - |s|, _ => pad) + s
  }

  function Clamp(i: int, len: nat): (r: nat)
    ensures r <= len
  {
    if i < 0 then 0 else if i > len then len else i
  }

  /**
   * `s.substring(start, end)`: both indices are clamped to the string,
   * and swapped when the start is past the end.
   */
  function Substring(s: string, start: int, end: int): (r: string)
    ensures |r| <= |s|
    ensures 0 <= start <= end <= |s| ==> r == s[start..end]
    ensures 0 <= end <= start <= |s| ==> r == s[end..start]
    ensures start <= 0 && |s| <= end ==> r == s
  {
    var a := Clamp(start, |s|);
    var b := Clamp(end, |s|);
    if a <= b then s[a..b] else s[b..a]
  }

  /** A relative index of `slice`: negative counts from the end; the result is clamped. */
  function SliceIndex(i: int, len: nat): (r: nat)
    ensures r <= len
    ensures 0 <= i <= len ==> r == i
  {
    if i < 0 then Clamp(len + i, len) else Clamp(i, len)
  }

  /** `s.slice(start, end)`: the part between the two relative indices, empty when they cross. */
  function Slice<T>(s: seq<T>, start: int, end: int): (r: seq<T>)
    ensures |r| <= |s|
    ensures 0 <= start <= end <= |s| ==> r == s[start..end]
  {
    var a := SliceIndex(start, |s|);
    var b := SliceIndex(end, |s|);
    if a < b then s[a..b] else []
  }

  /** `parts.join(sep)` */
  function Join(parts: seq<string>, sep: string): string {
    if parts == [] then ""
    else if |parts| == 1 then parts[0]
    else parts[0] + sep + Join(parts[1..], sep)
  }

  /** Joining one-character parts gives one character per part plus the separators. */
  lemma {:induction false} JoinLength(parts: seq<string>, sep: string)
    requires parts != []
    requires forall i :: 0 <= i < |parts| ==> |parts[i]| == 1
    ensures |Join(parts, sep)| == |parts| + (|parts| - 1) * |sep|
  {
    if |parts| > 1 {
      JoinLength(parts[1..], sep);
    }
  }

  /** The first part of `s.split(sep)` and what follows the first separator. */
  function SplitFirst(s: string, sep: char): (r: (string, Option<string>))
    ensures r.1.None? ==> r.0 == s && sep !in s
    ensures r.1.Some? ==> s == r.0 + [sep] + r.1.value && sep !in r.0
  {
    if s == [] then ("", None)
    else if s[0] == sep then
      assert s == [] + [sep] + s[1..];
      ("", Some(s[1..]))
    else
      var rest := SplitFirst(s[1..], sep);
      assert rest.1.Some? ==> s == ([s[0]] + rest.0) + [sep] + rest.1.value;
      ([s[0]] + rest.0, rest.1)
  }

  /** Text with no separator before the first one splits exactly there. */
  lemma {:induction false} SplitFirstOfJoined(a: string, sep: char, b: string)
    requires sep !in a
    ensures SplitFirst(a + [sep] + b, sep) == (a, Some(b))
  {
    if a == [] {
      assert a + [sep] + b == [sep] + b;
    } else {
      assert (a + [sep] + b)[1..] == a[1..] + [sep] + b;
      SplitFirstOfJoined(a[1..], sep, b);
      assert [a[0]] + a[1..] == a;
    }
  }

  /** Text without the separator is a single field. */
  lemma SplitFirstWithoutSeparator(s: string, sep: char)
    requires sep !in s
    ensures SplitFirst(s, sep) == (s, None)
  {
  }

  /**
   * `Number(s)` for the texts the app feeds it: the empty string is 0, a
   * run of decimal digits is its value, anything else is NaN here.
   */
  function NumberOf(s: string): JsNumber {
    if s == [] then Num(0)
    else if AllDigits(s) then Num(DigitsValue(s))
    else NaN
  }
}
