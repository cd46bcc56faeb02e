/**
 * Character classes and string operations used by the extractors: Python's `str.strip()`,
 * `str.replace`, `str.lower()` on ASCII letters, and the few regular expressions that are
 * simple enough to state directly (a digit run, a decimal, a leading currency token).
 */
module Strings {
  import opened Values

  /** Python's `str.isspace()` for one character. */
  predicate IsSpace(c: char)
  {
    ('\U{0009}' <= c <= '\U{000D}') || ('\U{001C}' <= c <= ' ') || c == '\U{0085}' || c == '\U{00A0}'
    || c == '\U{1680}' || ('\U{2000}' <= c <= '\U{200A}') || c == '\U{2028}' || c == '\U{2029}'
    || c == '\U{202F}' || c == '\U{205F}' || c == '\U{3000}'
  }

  /** `\d`, restricted to ASCII digits. */
  predicate IsDigit(c: char) { '0' <= c <= '9' }

  predicate IsUpper(c: char) { 'A' <= c <= 'Z' }

  predicate IsAsciiLetter(c: char) { ('a' <= c <= 'z') || ('A' <= c <= 'Z') }

  predicate AllDigits(s: string) { forall k :: 0 <= k < |s| ==> IsDigit(s[k]) }

  function TrimStart(s: string): (r: string)
    ensures |r| <= |s| && r == s[|s| - |r|..]
    ensures r == [] || !IsSpace(r[0])
    ensures forall k :: 0 <= k < |s| - |r| ==> IsSpace(s[k])
  {
    if s != [] && IsSpace(s[0]) then TrimStart(s[1..]) else s
  }

  function TrimEnd(s: string): (r: string)
    ensures |r| <= |s| && r == s[..|r|]
    ensures r == [] || !IsSpace(r[|r| - 1])
    ensures forall k :: |r| <= k < |s| ==> IsSpace(s[k])
  {
    if s != [] && IsSpace(s[|s| - 1]) then TrimEnd(s[..|s| - 1]) else s
  }

  /** Python's `str.strip()`: leading and trailing whitespace removed. */
  function Strip(s: string): (r: string)
    ensures |r| <= |s|
    ensures r == [] || (!IsSpace(r[0]) && !IsSpace(r[|r| - 1]))
  {
    TrimEnd(TrimStart(s))
  }

  predicate StartsWith(s: string, prefix: string) { prefix <= s }

  /** `sub in s` for strings. */
  predicate Contains(s: string, sub: string)
    decreases |s|
  {
    sub <= s || (s != [] && Contains(s[1..], sub))
  }

  /** `sub in s` holds exactly when `sub` starts at some position of `s`. */
  lemma {:induction false} ContainsSpec(s: string, sub: string)
    ensures Contains(s, sub) <==> exists i :: 0 <= i <= |s| && sub <= s[i..]
    decreases |s|
  {
    if s == [] {
      assert s[0..] == s;
    } else {
      ContainsSpec(s[1..], sub);
      if sub <= s {
        assert s[0..] == s;
      } else if Contains(s[1..], sub) {
        var i :| 0 <= i <= |s[1..]| && sub <= s[1..][i..];
        assert s[1..][i..] == s[i + 1..];
      }
      if exists i :: 0 <= i <= |s| && sub <= s[i..] {
        var i :| 0 <= i <= |s| && sub <= s[i..];
        if i != 0 {
          assert s[i..] == s[1..][i - 1..];
        } else {
          assert s[0..] == s;
        }
      }
    }
  }

  /** A string containing `w` contains every tail of `w`. */
  lemma ContainsTail(s: string, w: string, k: nat)
    requires k <= |w| && Contains(s, w)
    ensures Contains(s, w[k..])
  {
    ContainsSpec(s, w);
    var i :| 0 <= i <= |s| && w <= s[i..];
    assert w[k..] <= s[i + k..];
    ContainsSpec(s, w[k..]);
  }

  /** Python's `s.replace(pat, rep)`: every non-overlapping occurrence, scanning left to right. */
  function ReplaceAll(s: string, pat: string, rep: string): string
    requires pat != []
    decreases |s|
  {
    if s == [] then []
    else if pat <= s then rep + ReplaceAll(s[|pat|..], pat, rep)
    else [s[0]] + ReplaceAll(s[1..], pat, rep)
  }

  /** Replacing one character leaves no occurrence of it, unless the replacement brings one. */
  lemma {:induction false} ReplaceCharRemoves(s: string, c: char, rep: string)
    requires c !in rep
    ensures c !in ReplaceAll(s, [c], rep)
    ensures forall d :: d in ReplaceAll(s, [c], rep) ==> d in s || d in rep
    decreases |s|
  {
    if s != [] {
      if [c] <= s {
        ReplaceCharRemoves(s[1..], c, rep);
      } else {
        ReplaceCharRemoves(s[1..], c, rep);
      }
    }
  }

  function LowerChar(c: char): char
  {
    if 'A' <= c <= 'Z' then (c as int + 32) as char else c
  }

  /** `str.lower()` on ASCII letters; other characters are kept. */
  function Lower(s: string): (r: string)
    ensures |r| == |s|
    ensures forall k :: 0 <= k < |s| ==> r[k] == LowerChar(s[k])
  {
    seq(|s|, k requires 0 <= k < |s| => LowerChar(s[k]))
  }

  /** End of the maximal run of digits that starts at `i`. */
  function DigitRunEnd(s: string, i: nat): (j: nat)
    requires i <= |s|
    ensures i <= j <= |s|
    ensures forall k :: i <= k < j ==> IsDigit(s[k])
    ensures j == |s| || !IsDigit(s[j])
    decreases |s| - i
  {
    if i < |s| && IsDigit(s[i]) then DigitRunEnd(s, i + 1) else i
  }

  /** Leftmost match of `\d+` at or after `from`, as its start and end. */
  function FirstDigitRun(s: string, from: nat): (r: Option<(nat, nat)>)
    requires from <= |s|
    ensures r.None? <==> forall k :: from <= k < |s| ==> !IsDigit(s[k])
    ensures r.Some? ==>
      && from <= r.value.0 < r.value.1 <= |s|
      && (forall k :: from <= k < r.value.0 ==> !IsDigit(s[k]))
      && (forall k :: r.value.0 <= k < r.value.1 ==> IsDigit(s[k]))
      && (r.value.1 == |s| || !IsDigit(s[r.value.1]))
    decreases |s| - from
  {
    if from == |s| then None
    else if IsDigit(s[from]) then Some((from, DigitRunEnd(s, from)))
    else FirstDigitRun(s, from + 1)
  }

  /** `re.search(r'(\d+)', s).group(1)`: the first run of digits, whole. */
  function FirstDigits(s: string): (r: Option<string>)
    ensures r.None? <==> forall k :: 0 <= k < |s| ==> !IsDigit(s[k])
    ensures r.Some? ==> r.value != [] && AllDigits(r.value)
  {
    match FirstDigitRun(s, 0)
    case None => None
    case Some((i, j)) =>
      DigitSlice(s, i, j);
      Some(s[i..j])
  }

  /** Decimal value of a string of digits (Python's `int` on it). */
  function DigitsValue(d: string): nat
    requires AllDigits(d)
  {
    if d == [] then 0 else DigitsValue(d[..|d| - 1]) * 10 + (d[|d| - 1] as int - '0' as int)
  }

  /** A run of digits, cut out of the string, is all digits. */
  lemma DigitSlice(s: string, i: nat, j: nat)
    requires i <= j <= |s|
    requires forall k :: i <= k < j ==> IsDigit(s[k])
    ensures AllDigits(s[i..j])
  {
    assert forall k :: 0 <= k < j - i ==> s[i..j][k] == s[i + k];
  }

  /** A quotient of a non-negative by a positive real is non-negative. */
  lemma QuotientNonNegative(a: real, b: real)
    requires a >= 0.0 && b > 0.0
    ensures a / b >= 0.0
  {
  }

  function Pow10(n: nat): (r: nat)
    ensures r >= 1
  {
    if n == 0 then 1 else 10 * Pow10(n - 1)
  }

  /** Value of `digits` or `digits.digits` (either side may be empty), as Python's `float` reads it, exactly. */
  function DecimalValue(whole: string, fraction: string): (r: real)
    requires AllDigits(whole) && AllDigits(fraction)
    ensures r >= DigitsValue(whole) as real
  {
    var f := DigitsValue(fraction) as real / Pow10(|fraction|) as real;
    assert f >= 0.0 by { QuotientNonNegative(DigitsValue(fraction) as real, Pow10(|fraction|) as real); }
    DigitsValue(whole) as real + f
  }

  /**
   * Leftmost match of `\d+\.\d+` at or after `from`, where `from` is not strictly inside a digit
   * run.  Every position inside one digit run ends that run at the same place, so only run
   * starts are tried.
   */
  function FirstDecimalFrom(s: string, from: nat): (r: Option<(nat, nat, nat)>)
    requires from <= |s|
    requires from == 0 || from == |s| || !IsDigit(s[from - 1]) || !IsDigit(s[from])
    ensures r.Some? ==>
      && from <= r.value.0 < r.value.1 < r.value.2 <= |s|
      && AllDigits(s[r.value.0..r.value.1]) && s[r.value.1] == '.'
      && r.value.1 + 1 < r.value.2 && AllDigits(s[r.value.1 + 1..r.value.2])
    decreases |s| - from
  {
    if from == |s| then None
    else if !IsDigit(s[from]) then FirstDecimalFrom(s, from + 1)
    else
      var j := DigitRunEnd(s, from);
      if j + 1 < |s| && s[j] == '.' && IsDigit(s[j + 1]) then
        var e := DigitRunEnd(s, j + 1);
        DigitSlice(s, from, j);
        DigitSlice(s, j + 1, e);
        Some((from, j, e))
      else FirstDecimalFrom(s, j)
  }

  /** `float(re.search(r'(\d+\.\d+)', s).group(1))`, or None when there is no match. */
  function FirstDecimal(s: string): (r: Option<real>)
  {
    match FirstDecimalFrom(s, 0)
    case None => None
    case Some((i, dot, j)) => Some(DecimalValue(s[i..dot], s[dot + 1..j]))
  }

  /** `float(re.search(r'(\d+(?:\.\d+)?)', s).group(1))`, or None when there is no match. */
  function FirstNumber(s: string): (r: Option<real>)
    ensures r.None? <==> FirstDigits(s).None?
    ensures r.Some? ==> r.value >= 0.0
  {
    match FirstDigitRun(s, 0)
    case None => None
    case Some((i, j)) =>
      DigitSlice(s, i, j);
      if j + 1 < |s| && s[j] == '.' && IsDigit(s[j + 1]) then
        var e := DigitRunEnd(s, j + 1);
        DigitSlice(s, j + 1, e);
        Some(DecimalValue(s[i..j], s[j + 1..e]))
      else Some(DigitsValue(s[i..j]) as real)
  }

  /** `int(re.search(r'(\d+)', s).group(1))`, or None when there is no match. */
  function FirstInteger(s: string): (r: Option<int>)
    ensures r.None? <==> FirstDigits(s).None?
    ensures r.Some? ==> r.value >= 0
  {
    match FirstDigits(s)
    case None => None
    case Some(d) => Some(DigitsValue(d))
  }

  /** Digits with single underscores between them, as Python's `int()` accepts. */
  predicate IsGroupedDigits(d: string)
  {
    && d != [] && IsDigit(d[0]) && IsDigit(d[|d| - 1])
    && (forall k :: 0 <= k < |d| ==> IsDigit(d[k]) || d[k] == '_')
    && (forall k :: 0 <= k < |d| - 1 ==> !(d[k] == '_' && d[k + 1] == '_'))
  }

  function RemoveUnderscores(d: string): (r: string)
    requires forall k :: 0 <= k < |d| ==> IsDigit(d[k]) || d[k] == '_'
    ensures AllDigits(r)
  {
    if d == [] then []
    else (if d[0] == '_' then [] else [d[0]]) + RemoveUnderscores(d[1..])
  }

  /**
   * Python's `int(s)` on a string: surrounding whitespace, an optional sign, then decimal digits
   * grouped by single underscores.  None stands for the ValueError it raises otherwise.
   */
  function PyInt(s: string): (r: Option<int>)
    ensures r.Some? ==> exists k :: 0 <= k < |s| && IsDigit(s[k])
  {
    var t := Strip(s);
    var signed := t != [] && (t[0] == '+' || t[0] == '-');
    var d := if signed then t[1..] else t;
    if !IsGroupedDigits(d) then None
    else
      assert IsDigit(d[0]);
      assert exists k :: 0 <= k < |s| && IsDigit(s[k]) by { StripIsInside(s); }
      var n: int := DigitsValue(RemoveUnderscores(d));
      Some(if signed && t[0] == '-' then -n else n)
  }

  /** Stripping only removes characters. */
  lemma StripIsInside(s: string)
    ensures forall c :: c in Strip(s) ==> c in s
  {
    var a := TrimStart(s);
    assert a == s[|s| - |a|..];
    assert forall c :: c in TrimEnd(a) ==> c in a;
  }
}
