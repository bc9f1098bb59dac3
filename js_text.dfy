/**
 * The JavaScript string operations the pages rely on: `String.prototype.slice`,
 * `toLowerCase` (on the ASCII letters only), `parseInt` with no radix (on
 * decimal input only) and the decimal `toString` of a non-negative integer.
 * A string is a sequence of Unicode code points here, where JavaScript
 * counts UTF-16 code units; the two agree on the ASCII text these pages
 * measure and cut.
 */
module JsText {
  import opened Common

  // ---------------------------------------------------------------- slice

  /** How `slice` reads one index: a negative index counts back from the end; the result is clamped to [0, len]. */
  function ResolveIndex(index: int, len: nat): (r: nat)
    ensures r <= len
    ensures index >= 0 ==> r == Min(index, len)
    ensures index < 0 ==> r == Max(len + index, 0)
  {
    if index < 0 then (if len + index < 0 then 0 else len + index)
    else if index > len then len
    else index
  }

  /** `s.slice(start, end)`: empty when the resolved end does not lie past the resolved start. */
  function Slice(s: string, start: int, end: int): (r: string)
    ensures |r| <= |s|
    ensures 0 <= start <= end <= |s| ==> r == s[start..end]
  {
    var from, to := ResolveIndex(start, |s|), ResolveIndex(end, |s|);
    if from < to then s[from..to] else ""
  }

  /** `s.slice(start)`: from the resolved start to the end of the string. */
  function SliceFrom(s: string, start: int): (r: string)
    ensures |r| <= |s|
    ensures start < 0 && -start <= |s| ==> r == s[|s| + start..]
    ensures start < 0 && -start > |s| ==> r == s
  {
    s[ResolveIndex(start, |s|)..]
  }

  // ---------------------------------------------------------- toLowerCase

  function LowerChar(c: char): (r: char)
    ensures 'A' <= c <= 'Z' ==> 'a' <= r <= 'z' && r as int - c as int == 'a' as int - 'A' as int
    ensures !('A' <= c <= 'Z') ==> r == c
  {
    if 'A' <= c <= 'Z' then (c as int - 'A' as int + 'a' as int) as char else c
  }

  /** `s.toLowerCase()` on ASCII letters; every other character is kept. */
  function ToLower(s: string): (r: string)
    ensures |r| == |s|
    ensures forall i :: 0 <= i < |s| ==> r[i] == LowerChar(s[i])
  {
    seq(|s|, i requires 0 <= i < |s| => LowerChar(s[i]))
  }

  /** Lower-casing twice is lower-casing once. */
  lemma ToLowerIdempotent(s: string)
    ensures ToLower(ToLower(s)) == ToLower(s)
  {
  }

  // ----------------------------------------------------- parseInt (radix 10)

  predicate IsDigit(c: char) { '0' <= c <= '9' }

  predicate AllDigits(s: string) { forall i :: 0 <= i < |s| ==> IsDigit(s[i]) }

  /**
   * The white space and line terminators `parseInt` skips before the number:
   * tab, vertical tab, form feed, the byte order mark, the line terminators,
   * and every space separator (general category Zs) of Unicode 15.
   */
  predicate IsSpace(c: char)
  {
    c == '\t' || c == '\U{000B}' || c == '\U{000C}' || c == '\U{FEFF}'
    || c == '\n' || c == '\r' || c == '\U{2028}' || c == '\U{2029}'
    || c == ' ' || c == '\U{00A0}' || c == '\U{1680}' || '\U{2000}' <= c <= '\U{200A}'
    || c == '\U{202F}' || c == '\U{205F}' || c == '\U{3000}'
  }

  function DigitValue(c: char): (d: nat)
    requires IsDigit(c)
    ensures d < 10
  {
    c as int - '0' as int
  }

  /** The value of a string of decimal digits, most significant first. */
  function DigitsValue(s: string): nat
    requires AllDigits(s)
  {
    if s == [] then 0 else DigitsValue(s[..|s| - 1]) * 10 + DigitValue(s[|s| - 1])
  }

  /** `s` without its leading white space. */
  function TrimStart(s: string): (r: string)
    ensures |r| <= |s| && r == s[|s| - |r|..]
    ensures r == [] || !IsSpace(r[0])
  {
    if s != [] && IsSpace(s[0]) then TrimStart(s[1..]) else s
  }

  /** The number of decimal digits `s` starts with. */
  function LeadingDigits(s: string): (n: nat)
    ensures n <= |s|
    ensures AllDigits(s[..n])
    ensures n < |s| ==> !IsDigit(s[n])
  {
    if s != [] && IsDigit(s[0]) then
      var n := 1 + LeadingDigits(s[1..]);
      assert s[..n] == [s[0]] + s[1..][..n - 1];
      n
    else 0
  }

  /**
   * `parseInt(s)`: skip leading white space, read an optional sign, then the
   * longest run of decimal digits. `None` stands for `NaN` (no digit at all).
   */
  function ParseInt(s: string): (r: Option<int>)
  {
    ParseSigned(TrimStart(s))
  }

  /** The number at the start of `t`, which no longer starts with white space. */
  function ParseSigned(t: string): (r: Option<int>)
  {
    var negative := t != [] && t[0] == '-';
    var u := if t != [] && (t[0] == '-' || t[0] == '+') then t[1..] else t;
    var n := LeadingDigits(u);
    if n == 0 then None
    else
      var magnitude: int := DigitsValue(u[..n]);
      Some(if negative then -magnitude else magnitude)
  }

  /** Without a digit right after the optional sign there is no number. */
  lemma ParseIntNaN(s: string)
    requires var t := TrimStart(s);
             var u := if t != [] && (t[0] == '-' || t[0] == '+') then t[1..] else t;
             u == [] || !IsDigit(u[0])
    ensures ParseInt(s) == None
  {
  }

  /** A string that starts with digits parses as the value of that leading run; the rest is ignored. */
  lemma ParseIntLeadingDigits(digits: string, rest: string)
    requires digits != [] && AllDigits(digits)
    requires rest == [] || !IsDigit(rest[0])
    ensures ParseInt(digits + rest) == Some(DigitsValue(digits))
  {
    var s := digits + rest;
    assert s[0] == digits[0];
    NoSpaceToTrim(s);
    LeadingDigitsOfDigits(digits, rest);
    assert s[..|digits|] == digits;
  }

  lemma NoSpaceToTrim(s: string)
    requires s != [] && IsDigit(s[0])
    ensures TrimStart(s) == s
  {
  }

  lemma {:induction false} LeadingDigitsOfDigits(digits: string, rest: string)
    requires AllDigits(digits)
    requires rest == [] || !IsDigit(rest[0])
    ensures LeadingDigits(digits + rest) == |digits|
  {
    if digits != [] {
      assert (digits + rest)[1..] == digits[1..] + rest;
      LeadingDigitsOfDigits(digits[1..], rest);
    } else {
      assert digits + rest == rest;
    }
  }

  /** Any run of white space, the Unicode space separators included, is skipped before the digits. */
  lemma {:induction false} ParseIntSkipsSpace(spaces: string, digits: string)
    requires forall i :: 0 <= i < |spaces| ==> IsSpace(spaces[i])
    requires digits != [] && AllDigits(digits)
    ensures ParseInt(spaces + digits) == Some(DigitsValue(digits))
  {
    TrimSpaces(spaces, digits);
    ParseIntLeadingDigits(digits, []);
    assert digits + [] == digits;
    assert TrimStart(digits) == digits;
  }

  lemma {:induction false} TrimSpaces(spaces: string, rest: string)
    requires forall i :: 0 <= i < |spaces| ==> IsSpace(spaces[i])
    requires rest == [] || !IsSpace(rest[0])
    ensures TrimStart(spaces + rest) == rest
  {
    if spaces != [] {
      assert (spaces + rest)[1..] == spaces[1..] + rest;
      TrimSpaces(spaces[1..], rest);
    } else {
      assert spaces + rest == rest;
    }
  }

  /** An ideographic space before the digits is skipped: `parseInt("\u30005") == 5`. */
  lemma ParseIntIdeographicSpace()
    ensures ParseInt("\U{3000}5") == Some(5)
  {
    ParseIntSkipsSpace("\U{3000}", "5");
    assert "\U{3000}" + "5" == "\U{3000}5";
  }

  /** The example of an accepted amount with trailing text: `parseInt("3abc") == 3`. */
  lemma ParseIntThreeAbc()
    ensures ParseInt("3abc") == Some(3)
  {
    var digits, rest := "3", "abc";
    assert digits + rest == "3abc" by {
      assert |digits + rest| == 4;
      assert forall i :: 0 <= i < 4 ==> (digits + rest)[i] == "3abc"[i];
    }
    ParseIntLeadingDigits(digits, rest);
    assert DigitsValue(digits) == 3;
  }

  // --------------------------------------------------- Number.prototype.toString

  function DigitChar(d: nat): (c: char)
    requires d < 10
    ensures IsDigit(c) && DigitValue(c) == d
  {
    (d + '0' as int) as char
  }

  /** The decimal representation of `n`, as `String(n)` or `n.toString()` gives it. */
  function DecimalString(n: nat): (r: string)
    ensures r != [] && AllDigits(r)
    ensures |r| > 1 ==> r[0] != '0'
  {
    if n < 10 then [DigitChar(n)] else DecimalString(n / 10) + [DigitChar(n % 10)]
  }

  /** Printing then reading the digits gives the number back. */
  lemma {:induction false} DecimalStringValue(n: nat)
    ensures DigitsValue(DecimalString(n)) == n
  {
    if n >= 10 {
      DecimalStringValue(n / 10);
      var s := DecimalString(n);
      assert s[..|s| - 1] == DecimalString(n / 10);
    }
  }

  /** `parseInt(String(n)) == n` for every non-negative integer `n`. */
  lemma ParseIntDecimalString(n: nat)
    ensures ParseInt(DecimalString(n)) == Some(n)
  {
    DecimalStringValue(n);
    ParseIntLeadingDigits(DecimalString(n), "");
    assert DecimalString(n) + "" == DecimalString(n);
  }
}
