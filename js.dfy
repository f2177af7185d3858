/**
 * The JavaScript primitives the application code leans on, stated on Dafny values:
 * truthiness, `Number(..)`, `parseInt`, `toString`, `padStart`, `%` on numbers,
 * `startsWith`, `includes`, `replace` with a string pattern, `split(c)[0]`, `trim`
 * and `toLowerCase`. Strings are sequences of Unicode scalar values.
 */
module Js {

  datatype Option<+T> = None | Some(value: T)

  /** A JavaScript number as this code meets it: an integer, or NaN. */
  datatype Number = Int(i: int) | NaN {
    /** `if (x)`: NaN and 0 are falsy. */
    predicate Truthy() { Int? && i != 0 }
  }

  /** `if (x)` on an optional number field (`undefined` and 0 are falsy; NaN is not modelled). */
  predicate TruthyReal(x: Option<real>) { x.Some? && x.value != 0.0 }

  // ---------------------------------------------------------------- digits

  predicate IsDigit(c: char) { '0' <= c <= '9' }

  predicate AllDigits(s: string) { forall i | 0 <= i < |s| :: IsDigit(s[i]) }

  function DigitChar(d: nat): (c: char)
    requires d < 10
    ensures IsDigit(c) && c as int - '0' as int == d
  {
    ('0' as int + d) as char
  }

  /** The value of a string of decimal digits, most significant digit first. */
  function DigitsValue(s: string): nat
    requires AllDigits(s)
  {
    if s == [] then 0 else DigitsValue(s[..|s| - 1]) * 10 + (s[|s| - 1] as int - '0' as int)
  }

  /** `n.toString()` for a non-negative integer: its decimal digits, no leading zero. */
  function NatToString(n: nat): (s: string)
    ensures 1 <= |s| && AllDigits(s)
    ensures s[0] == '0' ==> n == 0
  {
    if n < 10 then [DigitChar(n)] else NatToString(n / 10) + [DigitChar(n % 10)]
  }

  /** Reading the decimal digits of `n` back gives `n`. */
  lemma {:induction false} NatToStringValue(n: nat)
    ensures DigitsValue(NatToString(n)) == n
  {
    if n >= 10 {
      var s := NatToString(n);
      assert s[..|s| - 1] == NatToString(n / 10);
      NatToStringValue(n / 10);
    }
  }

  lemma NatToStringInjective(a: nat, b: nat)
    ensures NatToString(a) == NatToString(b) <==> a == b
  {
    NatToStringValue(a);
    NatToStringValue(b);
  }

  /** A leading zero does not change the value of a digit string. */
  lemma {:induction false} LeadingZeroValue(s: string)
    requires AllDigits(s)
    ensures AllDigits("0" + s) && DigitsValue("0" + s) == DigitsValue(s)
  {
    var t := "0" + s;
    assert AllDigits(t);
    if s != [] {
      assert t[..|t| - 1] == "0" + s[..|s| - 1];
      LeadingZeroValue(s[..|s| - 1]);
    }
  }

  /** `x.toString()`. */
  function NumberToString(x: Number): string
  {
    match x
    case NaN => "NaN"
    case Int(i) => if i < 0 then "-" + NatToString(-i) else NatToString(i)
  }

  /** Decimal integer text: digits with an optional leading sign, or nothing at all. */
  predicate IsIntegerLiteral(t: string)
  {
    AllDigits(t) || (|t| >= 2 && (t[0] == '-' || t[0] == '+') && AllDigits(t[1..]))
  }

  /**
   * `Number(s)` on integer text: white space around it is ignored, a sign may lead the
   * digits, and blank text gives 0. Any other text is NaN here.
   */
  function ToNumber(s: string): (x: Number)
    ensures x.Int? <==> IsIntegerLiteral(Trim(s))
    ensures AllDigits(s) ==> x == Int(DigitsValue(s))
    ensures x.Int? && x.i < 0 ==> Trim(s) != [] && Trim(s)[0] == '-'
  {
    TrimOfDigits(s);
    var t := Trim(s);
    if AllDigits(t) then Int(DigitsValue(t))
    else if IsIntegerLiteral(t) then Int(if t[0] == '-' then -(DigitsValue(t[1..]) as int) else DigitsValue(t[1..]))
    else NaN
  }

  /** Text that neither starts nor ends with white space is its own trim. */
  lemma TrimKeeps(s: string)
    requires s != [] ==> !IsSpace(s[0]) && !IsSpace(s[|s| - 1])
    ensures Trim(s) == s
  {
  }

  /** Digit text is its own trim. */
  lemma TrimOfDigits(s: string)
    ensures AllDigits(s) ==> Trim(s) == s
  {
    if AllDigits(s) {
      TrimKeeps(s);
    }
  }

  /** `Number(x.toString())` gives every integer back. */
  lemma ToNumberOfNumberToString(i: int)
    ensures ToNumber(NumberToString(Int(i))) == Int(i)
  {
    NatToStringValue(if i < 0 then -i else i);
    if i < 0 {
      var s := NumberToString(Int(i));
      assert s[1..] == NatToString(-i);
      TrimKeeps(s);
    }
  }

  /** The longest prefix of `s` made of digits. */
  function LeadingDigits(s: string): (p: string)
    ensures AllDigits(p) && p <= s
    ensures |p| < |s| ==> !IsDigit(s[|p|])
  {
    if s == [] || !IsDigit(s[0]) then [] else [s[0]] + LeadingDigits(s[1..])
  }

  /** `parseInt(s)`: the value of the leading digits, NaN when there are none. */
  function ParseInt(s: string): (x: Number)
    ensures x.NaN? <==> (s == [] || !IsDigit(s[0]))
  {
    var p := LeadingDigits(s);
    if p == [] then NaN else Int(DigitsValue(p))
  }

  lemma ParseIntOfNatToString(n: nat)
    ensures ParseInt(NatToString(n)) == Int(n)
  {
    var s := NatToString(n);
    assert LeadingDigits(s) == s by { AllDigitsLeading(s); }
    NatToStringValue(n);
  }

  lemma {:induction false} AllDigitsLeading(s: string)
    requires AllDigits(s)
    ensures LeadingDigits(s) == s
  {
    if s != [] {
      AllDigitsLeading(s[1..]);
    }
  }

  // ---------------------------------------------------------------- padding

  function Repeat(c: char, n: nat): (r: string)
    ensures |r| == n && forall i | 0 <= i < n :: r[i] == c
  {
    if n == 0 then [] else [c] + Repeat(c, n - 1)
  }

  /** `s.padStart(n, c)` with a one-character filler. */
  function PadStart(s: string, n: nat, c: char): (r: string)
    ensures |r| == if |s| >= n then |s| else n
    ensures r[|r| - |s|..] == s
    ensures forall i | 0 <= i < |r| - |s| :: r[i] == c
  {
    if |s| >= n then s else Repeat(c, n - |s|) + s
  }

  /** Left-padding a digit string with zeros keeps it a digit string of the same value. */
  lemma {:induction false} ZeroPadValue(s: string, n: nat)
    requires AllDigits(s)
    ensures AllDigits(PadStart(s, n, '0')) && DigitsValue(PadStart(s, n, '0')) == DigitsValue(s)
  {
    if |s| < n {
      var r := PadStart(s, n, '0');
      var shorter := PadStart(s, n - 1, '0');
      assert r == "0" + shorter;
      ZeroPadValue(s, n - 1);
      LeadingZeroValue(shorter);
    }
  }

  // ---------------------------------------------------------------- numbers

  /**
   * `x % 360` on numbers: the quotient truncates toward zero, so the remainder has the
   * sign of `x`; on [0, 720) it subtracts 360 at most once.
   */
  function Rem360(x: real): (r: real)
    ensures 0.0 <= x ==> 0.0 <= r < 360.0
    ensures x <= 0.0 ==> -360.0 < r <= 0.0
    ensures 0.0 <= x < 360.0 ==> r == x
    ensures 360.0 <= x < 720.0 ==> r == x - 360.0
  {
    var q := x / 360.0;
    var t := if q >= 0.0 then q.Floor else -((-q).Floor);
    x - 360.0 * t as real
  }

  // ---------------------------------------------------------------- arrays

  /**
   * `a` is `b` with some elements left out and the rest in their original order: what
   * `b.filter(...)` returns.
   */
  predicate IsSubsequence<T(==)>(a: seq<T>, b: seq<T>)
    decreases |b|
  {
    || a == []
    || (b != [] && ((a[0] == b[0] && IsSubsequence(a[1..], b[1..])) || IsSubsequence(a, b[1..])))
  }

  // ---------------------------------------------------------------- strings

  predicate StartsWith(s: string, p: string) { p <= s }

  /** `s.includes(p)`. */
  predicate Includes(s: string, p: string)
  {
    p <= s || (s != [] && Includes(s[1..], p))
  }

  /** `s.indexOf(p)`, None for -1. */
  function IndexOf(s: string, p: string): (r: Option<nat>)
    ensures r.Some? ==> r.value + |p| <= |s| && s[r.value..r.value + |p|] == p
    ensures r.Some? ==> forall j | 0 <= j < r.value :: !(p <= s[j..])
    ensures r.None? ==> forall j | 0 <= j <= |s| :: !(p <= s[j..])
  {
    if p <= s then Some(0)
    else if s == [] then None
    else
      assert forall j | 1 <= j <= |s| :: s[j..] == s[1..][j - 1..];
      match IndexOf(s[1..], p)
      case None => None
      case Some(k) => Some(k + 1)
  }

  /** `s.replace(p, r)` with a string pattern: only the first occurrence is replaced. */
  function ReplaceFirst(s: string, p: string, r: string): string
  {
    match IndexOf(s, p)
    case None => s
    case Some(i) => s[..i] + r + s[i + |p|..]
  }

  /** `s.split(c)[0]`: everything before the first `c`, or all of `s`. */
  function BeforeFirst(s: string, c: char): (r: string)
    ensures r <= s && c !in r
    ensures |r| < |s| ==> s[|r|] == c
  {
    if s == [] || s[0] == c then [] else [s[0]] + BeforeFirst(s[1..], c)
  }

  /** What follows the first `c` in `s` (only meaningful when `c in s`). */
  function AfterFirst(s: string, c: char): string
  {
    var b := BeforeFirst(s, c);
    if |b| < |s| then s[|b| + 1..] else []
  }

  /** The characters `String.prototype.trim` removes (white space and line terminators). */
  predicate IsSpace(c: char)
  {
    c == ' ' || c == '\t' || c == '\n' || c == '\r' || c == '\U{000B}' || c == '\U{000C}'
    || c == '\U{00A0}' || c == '\U{1680}' || ('\U{2000}' <= c <= '\U{200A}')
    || c == '\U{2028}' || c == '\U{2029}' || c == '\U{202F}' || c == '\U{205F}'
    || c == '\U{3000}' || c == '\U{FEFF}'
  }

  function TrimStart(s: string): (r: string)
    ensures |r| <= |s| && r == s[|s| - |r|..]
    ensures r == [] || !IsSpace(r[0])
    ensures forall i | 0 <= i < |s| - |r| :: IsSpace(s[i])
  {
    if s != [] && IsSpace(s[0]) then TrimStart(s[1..]) else s
  }

  function TrimEnd(s: string): (r: string)
    ensures r <= s
    ensures r == [] || !IsSpace(r[|r| - 1])
    ensures forall i | |r| <= i < |s| :: IsSpace(s[i])
  {
    if s != [] && IsSpace(s[|s| - 1]) then TrimEnd(s[..|s| - 1]) else s
  }

  /** `s.trim()`. */
  function Trim(s: string): string { TrimEnd(TrimStart(s)) }

  /**
   * `s.length`: JavaScript counts UTF-16 code units, so a character outside the Basic
   * Multilingual Plane (an emoji, say) counts twice.
   */
  function Utf16Length(s: string): (n: nat)
    ensures |s| <= n <= 2 * |s|
    ensures n == |s| <==> forall i | 0 <= i < |s| :: s[i] <= '\U{FFFF}'
  {
    if s == [] then 0 else (if s[0] <= '\U{FFFF}' then 1 else 2) + Utf16Length(s[1..])
  }

  /** `s.toLowerCase()` restricted to the ASCII letters. */
  function ToLower(s: string): (r: string)
    ensures |r| == |s|
  {
    if s == [] then []
    else [if 'A' <= s[0] <= 'Z' then (s[0] as int + 32) as char else s[0]] + ToLower(s[1..])
  }
}
