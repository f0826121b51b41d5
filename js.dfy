/**
 * A small model of the JavaScript values and built-ins the admin screens rely on:
 * loosely typed values, truthiness, String(...), Number(...), and the string
 * methods includes, indexOf, replace (first occurrence), split, trim and
 * endsWith.
 */
module Js {

  datatype Option<T> = None | Some(value: T)

  /** The outcome of an operation that may throw: a value, or the error it throws. */
  datatype Result<T, E> = Ok(value: T) | Err(error: E)

  /** A loosely typed value as it arrives from the REST API or a form field. */
  datatype Value = Num(n: int) | Str(s: string) | Bool(b: bool) | Null | Undefined

  /** JavaScript truthiness (`!!v`); `NaN` has no representative here. */
  predicate Truthy(v: Value) {
    match v
    case Num(n) => n != 0
    case Str(s) => s != ""
    case Bool(b) => b
    case Null => false
    case Undefined => false
  }

  /** `a || b` on values. */
  function Or(a: Value, b: Value): (r: Value)
    ensures Truthy(a) ==> r == a
    ensures !Truthy(a) ==> r == b
  {
    if Truthy(a) then a else b
  }

  // ---------------------------------------------------------------------------
  // Decimal rendering and parsing
  // ---------------------------------------------------------------------------

  predicate IsDigit(c: char) { '0' <= c <= '9' }

  function DigitChar(d: nat): (c: char)
    requires d < 10
    ensures IsDigit(c) && (c as int) - ('0' as int) == d
  {
    (('0' as int) + d) as char
  }

  function DigitValue(c: char): nat
    requires IsDigit(c)
  {
    (c as int) - ('0' as int)
  }

  /** The decimal digits of `n`, most significant first, without leading zeros. */
  function DecimalDigits(n: nat): (s: string)
    ensures |s| >= 1
    ensures forall i :: 0 <= i < |s| ==> IsDigit(s[i])
    ensures (s[0] == '0') <==> (n == 0)
  {
    if n < 10 then [DigitChar(n)] else DecimalDigits(n / 10) + [DigitChar(n % 10)]
  }

  predicate AllDigits(s: string) {
    forall i :: 0 <= i < |s| ==> IsDigit(s[i])
  }

  /** The value of a run of decimal digits (Horner's rule from the right). */
  function DigitsValue(s: string): nat
    requires AllDigits(s)
  {
    if s == [] then 0 else DigitsValue(s[..|s| - 1]) * 10 + DigitValue(s[|s| - 1])
  }

  /** `String(n)` for an integer. */
  function IntToString(n: int): (s: string)
    ensures |s| >= 1
    ensures (s[0] == '-') <==> (n < 0)
  {
    if n < 0 then "-" + DecimalDigits(-n) else DecimalDigits(n)
  }

  /** `String(v)`. */
  function ToStr(v: Value): string {
    match v
    case Num(n) => IntToString(n)
    case Str(s) => s
    case Bool(b) => if b then "true" else "false"
    case Null => "null"
    case Undefined => "undefined"
  }

  /** `v?.toString()`: undefined when `v` is null or undefined. */
  function OptToStr(v: Value): (r: Option<string>)
    ensures r.None? <==> (v.Null? || v.Undefined?)
    ensures r.Some? ==> r.value == ToStr(v)
  {
    if v.Null? || v.Undefined? then None else Some(ToStr(v))
  }

  predicate IsSpace(c: char) {
    c == ' ' || c == '\t' || c == '\n' || c == '\r' || c == '\U{000B}' || c == '\U{000C}'
    || c == '\U{00A0}' || c == '\U{FEFF}'
  }

  function TrimStart(s: string): (r: string)
    ensures |r| <= |s| && r == s[|s| - |r|..]
    ensures r != [] ==> !IsSpace(r[0])
  {
    if s != [] && IsSpace(s[0]) then TrimStart(s[1..]) else s
  }

  function TrimEnd(s: string): (r: string)
    ensures |r| <= |s| && r == s[..|r|]
    ensures r != [] ==> !IsSpace(r[|r| - 1])
  {
    if s != [] && IsSpace(s[|s| - 1]) then TrimEnd(s[..|s| - 1]) else s
  }

  /** `s.trim()`. */
  function Trim(s: string): (r: string)
    ensures r != [] ==> !IsSpace(r[0]) && !IsSpace(r[|r| - 1])
  {
    TrimEnd(TrimStart(s))
  }

  /** The integer part of `[-]digits[.digits]`; None when `s` has another shape. */
  function ParseDecimal(s: string): Option<int> {
    if s != [] && s[0] == '-' then
      match ParseUnsigned(s[1..])
      case Some(v) => Some(-(v as int))
      case None => None
    else
      match ParseUnsigned(s)
      case Some(v) => Some(v)
      case None => None
  }

  function ParseUnsigned(s: string): Option<nat> {
    var dot := IndexOfChar(s, '.');
    var whole := if dot.Some? then s[..dot.value] else s;
    var frac := if dot.Some? then s[dot.value + 1..] else "";
    if whole != [] && AllDigits(whole) && AllDigits(frac) then Some(DigitsValue(whole)) else None
  }

  /**
   * `Number(s)` on a string, for the plain decimals the screens receive, with
   * money taken as whole units: surrounding white space (as `IsSpace` lists it)
   * is ignored, the empty string is 0, and `[-]digits[.digits]` reads as its
   * integer part. Every other string is `NaN` (None) here, including forms
   * JavaScript reads as numbers: a leading `+`, `.5`, exponents, hexadecimal,
   * binary and octal literals, and `Infinity`.
   */
  function ParseNumber(s: string): Option<int> {
    var t := Trim(s);
    if t == "" then Some(0) else ParseDecimal(t)
  }

  /** `Number(v)`; None stands for `NaN`. */
  function NumberOf(v: Value): Option<int> {
    match v
    case Num(n) => Some(n)
    case Str(s) => ParseNumber(s)
    case Bool(b) => Some(if b then 1 else 0)
    case Null => Some(0)
    case Undefined => None
  }

  /** `Number(v) || 0`: the parse-or-zero coercion, `NaN` and missing become 0. */
  function NumberOrZero(v: Value): int {
    match NumberOf(v)
    case Some(n) => n
    case None => 0
  }

  lemma {:induction false} DigitsValueAppend(s: string, c: char)
    requires AllDigits(s) && IsDigit(c)
    ensures AllDigits(s + [c]) && DigitsValue(s + [c]) == DigitsValue(s) * 10 + DigitValue(c)
  {
    assert (s + [c])[..|s + [c]| - 1] == s;
  }

  /** Rendering a natural number and reading it back gives the number. */
  lemma {:induction false} DigitsRoundTrip(n: nat)
    ensures AllDigits(DecimalDigits(n)) && DigitsValue(DecimalDigits(n)) == n
  {
    if n >= 10 {
      DigitsRoundTrip(n / 10);
      DigitsValueAppend(DecimalDigits(n / 10), DigitChar(n % 10));
    } else {
      assert DecimalDigits(n)[..0] == [];
    }
  }

  lemma NoSpaceInDigits(s: string)
    requires AllDigits(s)
    ensures TrimStart(s) == s && TrimEnd(s) == s && Trim(s) == s
  {
    if s != [] {
      assert !IsSpace(s[0]) && !IsSpace(s[|s| - 1]);
    }
  }

  lemma NoDotInDigits(s: string)
    requires AllDigits(s)
    ensures IndexOfChar(s, '.') == None
  {
    if s != [] {
      assert s[0] != '.';
      assert AllDigits(s[1..]);
      NoDotInDigits(s[1..]);
    }
  }

  lemma ParseUnsignedDigits(d: string)
    requires d != [] && AllDigits(d)
    ensures ParseUnsigned(d) == Some(DigitsValue(d))
  {
    NoDotInDigits(d);
  }

  /** `Number(String(n)) == n` for every integer. */
  lemma NumberOfIntToString(n: int)
    ensures ParseNumber(IntToString(n)) == Some(n)
  {
    if n < 0 {
      NumberOfNegative(-n, IntToString(n));
    } else {
      DigitsRoundTrip(n);
      NumberOfDigits(IntToString(n));
    }
  }

  /** A plain run of digits reads as its value. */
  lemma NumberOfDigits(s: string)
    requires s != [] && AllDigits(s)
    ensures ParseNumber(s) == Some(DigitsValue(s) as int)
  {
    assert Trim(s) == s by { NoSpaceInDigits(s); }
    assert ParseDecimal(s) == Some(DigitsValue(s) as int) by {
      ParseUnsignedDigits(s);
      assert s[0] != '-';
    }
  }

  lemma NumberOfNegative(m: nat, s: string)
    requires m > 0 && s == "-" + DecimalDigits(m)
    ensures ParseNumber(s) == Some(-(m as int))
  {
    var d := DecimalDigits(m);
    assert ParseDecimal(s) == Some(-(m as int)) by {
      assert s[0] == '-' && s[1..] == d;
      DigitsRoundTrip(m);
      ParseUnsignedDigits(d);
    }
    assert Trim(s) == s by {
      assert TrimStart(s) == s by { assert !IsSpace(s[0]); }
      assert TrimEnd(s) == s by { assert !IsSpace(s[|s| - 1]); }
    }
  }

  /** Appending a digit to a positive number appends its character. */
  lemma DigitsShift(n: nat, d: nat)
    requires n >= 1 && d < 10
    ensures DecimalDigits(n * 10 + d) == DecimalDigits(n) + [DigitChar(d)]
  {
    assert (n * 10 + d) / 10 == n && (n * 10 + d) % 10 == d;
  }

  /** The API's money strings: `Number(String(n) + ".00") == n`. */
  lemma {:induction false} NumberOfMoneyString(n: nat)
    ensures ParseNumber(DecimalDigits(n) + ".00") == Some(n)
  {
    var d := DecimalDigits(n);
    var s := d + ".00";
    assert ParseDecimal(s) == Some(n) by {
      DigitsRoundTrip(n);
      NoDotInDigits(d);
      IndexOfCharAppend(d, ".00", '.');
      assert s[..|d|] == d && s[|d| + 1..] == "00";
      assert s[0] != '-';
    }
    assert Trim(s) == s by {
      assert TrimStart(s) == s by { assert !IsSpace(s[0]); }
      assert TrimEnd(s) == s by { assert !IsSpace(s[|s| - 1]); }
    }
  }

  // ---------------------------------------------------------------------------
  // String search
  // ---------------------------------------------------------------------------

  function IndexOfChar(s: string, c: char): (r: Option<nat>)
    ensures r.Some? ==> (r.value < |s| && s[r.value] == c
                         && forall j :: 0 <= j < r.value ==> s[j] != c)
    ensures r.None? ==> forall j :: 0 <= j < |s| ==> s[j] != c
  {
    if s == [] then None
    else if s[0] == c then Some(0)
    else match IndexOfChar(s[1..], c)
      case Some(k) => Some(k + 1)
      case None => None
  }

  lemma IndexOfCharAppend(a: string, b: string, c: char)
    requires IndexOfChar(a, c) == None
    requires b != [] && b[0] == c
    ensures IndexOfChar(a + b, c) == Some(|a|)
  {
    assert (a + b)[|a|] == c;
  }

  /** Whether `sub` occurs in `s` at position `i`. */
  predicate OccursAt(s: string, sub: string, i: nat) {
    i + |sub| <= |s| && s[i..i + |sub|] == sub
  }

  function IndexOfFrom(s: string, sub: string, i: nat): (r: Option<nat>)
    requires i <= |s|
    ensures r.Some? ==> (i <= r.value && OccursAt(s, sub, r.value)
                         && forall j :: i <= j < r.value ==> !OccursAt(s, sub, j))
    ensures r.None? ==> forall j :: i <= j ==> !OccursAt(s, sub, j)
    decreases |s| - i
  {
    if OccursAt(s, sub, i) then Some(i)
    else if i + |sub| >= |s| then None
    else IndexOfFrom(s, sub, i + 1)
  }

  /** `s.indexOf(sub)`: the first position where `sub` occurs. */
  function IndexOf(s: string, sub: string): (r: Option<nat>)
    ensures r.Some? ==> (OccursAt(s, sub, r.value)
                         && forall j :: 0 <= j < r.value ==> !OccursAt(s, sub, j))
    ensures r.None? ==> forall j :: !OccursAt(s, sub, j)
  {
    IndexOfFrom(s, sub, 0)
  }

  /** `s.includes(sub)`. */
  predicate Includes(s: string, sub: string) {
    IndexOf(s, sub).Some?
  }

  lemma IncludesIff(s: string, sub: string)
    ensures Includes(s, sub) <==> exists i :: OccursAt(s, sub, i)
  {
    if !Includes(s, sub) {
      assert forall j :: !OccursAt(s, sub, j);
    }
  }

  /** `s.replace(pat, rep)` with a string pattern: only the first occurrence. */
  function ReplaceFirst(s: string, pat: string, rep: string): (r: string)
    ensures IndexOf(s, pat).None? ==> r == s
    ensures IndexOf(s, pat).Some? ==>
      r == s[..IndexOf(s, pat).value] + rep + s[IndexOf(s, pat).value + |pat|..]
  {
    match IndexOf(s, pat)
    case None => s
    case Some(i) => s[..i] + rep + s[i + |pat|..]
  }

  /** `s.endsWith(suffix)`. */
  predicate EndsWith(s: string, suffix: string) {
    |suffix| <= |s| && s[|s| - |suffix|..] == suffix
  }

  /** `s.startsWith(prefix)`. */
  predicate StartsWith(s: string, prefix: string) {
    |prefix| <= |s| && s[..|prefix|] == prefix
  }

  /** The first two pieces of `s.split(sep)`, the destructuring `[a, b] = s.split(sep)`. */
  function SplitFirstTwo(s: string, sep: char): (r: (string, Option<string>))
    ensures IndexOfChar(s, sep).None? ==> r == (s, None)
    ensures IndexOfChar(s, sep).Some? ==>
              (r.1.Some? && StartsWith(s, r.0 + [sep] + r.1.value)
               && forall j :: 0 <= j < |r.1.value| ==> r.1.value[j] != sep)
  {
    match IndexOfChar(s, sep)
    case None => (s, None)
    case Some(i) =>
      var rest := s[i + 1..];
      match IndexOfChar(rest, sep)
      case None =>
        assert s == s[..i] + [sep] + rest;
        (s[..i], Some(rest))
      case Some(k) =>
        assert s[..i + 1 + k] == s[..i] + [sep] + rest[..k];
        (s[..i], Some(rest[..k]))
  }
}
