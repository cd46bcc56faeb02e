/**
 * The analyzer's `_extract_number_from_text`: a count written as text ("1,234", "12.5k",
 * "3M sold") read as an integer.  Every character but digits, `.`, `K`, `M`, `k` and `m` is
 * dropped; one trailing `k`/`K` or `m`/`M` multiplies by a thousand or a million; what is left
 * must read as a decimal; the product is truncated.  Arithmetic is exact (see README).
 */
module NumberText {
  import opened Values
  import opened Strings

  /** The characters `re.sub(r'[^\d.KMkm]', '', s)` keeps. */
  predicate Kept(c: char)
  {
    IsDigit(c) || c == '.' || c == 'K' || c == 'M' || c == 'k' || c == 'm'
  }

  /** `re.sub(r'[^\d.KMkm]', '', s)`. */
  function Clean(s: string): (r: string)
    ensures |r| <= |s|
    ensures forall k :: 0 <= k < |r| ==> Kept(r[k])
  {
    if s == [] then [] else (if Kept(s[0]) then [s[0]] else []) + Clean(s[1..])
  }

  /** Index of the first `.`, or the length when there is none. */
  function DotIndex(t: string): (i: nat)
    ensures i <= |t|
    ensures i < |t| ==> t[i] == '.'
    ensures forall k :: 0 <= k < i ==> t[k] != '.'
  {
    if t == [] || t[0] == '.' then 0 else 1 + DotIndex(t[1..])
  }

  /**
   * Python's `float()` on what is left of the cleaned text: digits with at most one `.` and at
   * least one digit (`"12"`, `"12."`, `".5"`, `"12.5"`); None stands for the ValueError it
   * raises on anything else, the empty string included.
   */
  function ParseDecimal(t: string): (r: Option<real>)
    ensures r.Some? ==> r.value >= 0.0
  {
    var i := DotIndex(t);
    var whole := t[..i];
    var fraction := if i < |t| then t[i + 1..] else [];
    if AllDigits(whole) && AllDigits(fraction) && whole + fraction != [] then Some(DecimalValue(whole, fraction))
    else None
  }

  /** The multiplier one trailing `k`/`K` or `m`/`M` stands for, and the text without that letter. */
  function SplitSuffix(c: string): (r: (nat, string))
    ensures r.0 >= 1 && |r.1| <= |c|
  {
    if c != [] && LowerChar(c[|c| - 1]) == 'k' then (1000, c[..|c| - 1])
    else if c != [] && LowerChar(c[|c| - 1]) == 'm' then (1000000, c[..|c| - 1])
    else (1, c)
  }

  /** The number the filtered text stands for: its suffix applied to what `float()` reads, truncated. */
  function ReadCleaned(c: string): (r: Option<int>)
    ensures r.Some? ==> r.value >= 0
  {
    var split := SplitSuffix(c);
    match ParseDecimal(split.1)
    case None => None
    case Some(x) => Some((x * split.0 as real).Floor)
  }

  /** `_extract_number_from_text` on a string; None for falsy input and where `float()` raises. */
  function NumberFromText(text: string): (r: Option<int>)
    ensures text == [] ==> r.None?
    ensures r.Some? ==> r.value >= 0
  {
    if text == [] then None else ReadCleaned(Clean(text))
  }

  // ---------------------------------------------------------------------------------------------
  // The character filter

  lemma {:induction false} CleanAppend(a: string, b: string)
    ensures Clean(a + b) == Clean(a) + Clean(b)
  {
    if a == [] {
      assert a + b == b;
    } else {
      assert (a + b)[0] == a[0] && (a + b)[1..] == a[1..] + b;
      CleanAppend(a[1..], b);
    }
  }

  /** Text made only of kept characters passes the filter unchanged. */
  lemma {:induction false} CleanKeepsKept(s: string)
    requires forall k :: 0 <= k < |s| ==> Kept(s[k])
    ensures Clean(s) == s
  {
    if s != [] {
      CleanKeepsKept(s[1..]);
    }
  }

  /** Text without a kept character filters to nothing. */
  lemma {:induction false} CleanDropsRest(s: string)
    requires forall k :: 0 <= k < |s| ==> !Kept(s[k])
    ensures Clean(s) == []
  {
    if s != [] {
      CleanDropsRest(s[1..]);
    }
  }

  /** Filtering twice is filtering once. */
  lemma CleanIdempotent(s: string)
    ensures Clean(Clean(s)) == Clean(s)
  {
    CleanKeepsKept(Clean(s));
  }

  /** Every character the filter keeps comes from the text. */
  lemma {:induction false} CleanInside(s: string)
    ensures forall c :: c in Clean(s) ==> c in s
  {
    if s != [] {
      CleanInside(s[1..]);
    }
  }

  /** Only the filtered text matters: dropping any character that is not kept changes nothing. */
  lemma IgnoresNoise(a: string, c: char, b: string)
    requires !Kept(c)
    ensures NumberFromText(a + [c] + b) == NumberFromText(a + b)
  {
    CleanAppend(a + [c], b);
    CleanAppend(a, [c]);
    CleanAppend(a, b);
    assert Clean([c]) == [];
    assert Clean(a + [c] + b) == Clean(a + b);
    if a + b == [] {
      assert Clean(a + [c] + b) == [];
      assert SplitSuffix([]) == (1, []);
      assert ParseDecimal([]).None?;
    }
  }

  // ---------------------------------------------------------------------------------------------
  // What reads as a number

  /** Text without a `.` has its first dot at its end. */
  lemma NoDotIndex(t: string)
    requires forall k :: 0 <= k < |t| ==> t[k] != '.'
    ensures DotIndex(t) == |t|
  {
  }

  /** Only digits and dots, no two dots, and some digit. */
  predicate DecimalShape(t: string)
  {
    && (forall k :: 0 <= k < |t| ==> IsDigit(t[k]) || t[k] == '.')
    && (forall i, j :: 0 <= i < j < |t| && t[i] == '.' ==> t[j] != '.')
    && (exists k :: 0 <= k < |t| && IsDigit(t[k]))
  }

  /**
   * What `float()` accepts here: only digits and dots, at most one dot, and at least one digit.
   */
  lemma ParseDecimalSpec(t: string)
    ensures ParseDecimal(t).Some? <==>
      && (forall k :: 0 <= k < |t| ==> IsDigit(t[k]) || t[k] == '.')
      && (forall i, j :: 0 <= i < j < |t| && t[i] == '.' ==> t[j] != '.')
      && (exists k :: 0 <= k < |t| && IsDigit(t[k]))
  {
    if ParseDecimal(t).Some? {
      ParsedHasShape(t);
    }
    if DecimalShape(t) {
      ShapeParses(t);
    }
  }

  lemma ParsedHasShape(t: string)
    requires ParseDecimal(t).Some?
    ensures DecimalShape(t)
  {
    var i := DotIndex(t);
    var whole := t[..i];
    var fraction := if i < |t| then t[i + 1..] else [];
    assert AllDigits(whole) && AllDigits(fraction) && whole + fraction != [];
    forall k | 0 <= k < |t| && k != i
      ensures IsDigit(t[k])
    {
      if k < i {
        assert t[k] == whole[k];
      } else {
        assert t[k] == fraction[k - i - 1];
      }
    }
    if whole != [] {
      assert IsDigit(t[0]) by { assert t[0] == whole[0]; }
    } else {
      assert IsDigit(t[i + 1]) by { assert t[i + 1] == fraction[0]; }
    }
  }

  lemma ShapeParses(t: string)
    requires DecimalShape(t)
    ensures ParseDecimal(t).Some?
  {
    var i := DotIndex(t);
    var whole := t[..i];
    var fraction := if i < |t| then t[i + 1..] else [];
    forall k | 0 <= k < |whole|
      ensures IsDigit(whole[k])
    {
      assert whole[k] == t[k];
    }
    if i < |t| {
      forall k | 0 <= k < |fraction|
        ensures IsDigit(fraction[k])
      {
        assert fraction[k] == t[i + 1 + k];
      }
    }
    var d :| 0 <= d < |t| && IsDigit(t[d]);
    if d < i {
      assert whole != [];
    } else {
      assert fraction != [] by { assert d > i; assert fraction[d - i - 1] == t[d]; }
    }
  }

  /** A non-empty run of digits reads as its value. */
  lemma DigitsParse(d: string)
    requires d != [] && AllDigits(d)
    ensures ParseDecimal(d) == Some(DigitsValue(d) as real)
  {
    NoDotIndex(d);
    assert d[..|d|] == d;
    NoFraction(d);
  }

  /** A decimal with an empty fraction is the value of its whole digits. */
  lemma NoFraction(whole: string)
    requires AllDigits(whole)
    ensures DecimalValue(whole, []) == DigitsValue(whole) as real
  {
    assert DigitsValue([]) == 0;
    assert Pow10(0) == 1;
    assert (0 as real) / (1 as real) == 0.0;
  }

  lemma FloorOfScaled(n: nat, m: nat)
    ensures (n as real * m as real).Floor == n * m
  {
  }

  /** Non-empty text reads as its filtered text does. */
  lemma NumberFromCleaned(text: string)
    requires text != []
    ensures NumberFromText(text) == ReadCleaned(Clean(text))
  {
  }

  /** Filtered text ending in a suffix letter after digits reads as their value times the multiplier. */
  lemma SuffixRead(c: string, d: string, multiplier: nat)
    requires d != [] && AllDigits(d) && SplitSuffix(c) == (multiplier, d)
    ensures ReadCleaned(c) == Some(multiplier * DigitsValue(d))
  {
    DigitsParse(d);
    var n := DigitsValue(d);
    FloorOfScaled(n, multiplier);
    assert ParseDecimal(SplitSuffix(c).1) == Some(n as real);
  }

  /** A plain run of digits reads as its value. */
  lemma DigitsRead(d: string)
    requires d != [] && AllDigits(d)
    ensures NumberFromText(d) == Some(DigitsValue(d))
  {
    NumberFromCleaned(d);
    CleanKeepsKept(d);
    assert SplitSuffix(d) == (1, d);
    SuffixRead(d, d, 1);
  }

  /** A run of digits with one trailing `k` or `K` reads as a thousand times its value. */
  lemma ThousandsRead(d: string, suffix: char)
    requires d != [] && AllDigits(d) && (suffix == 'k' || suffix == 'K')
    ensures NumberFromText(d + [suffix]) == Some(1000 * DigitsValue(d))
  {
    var t := d + [suffix];
    NumberFromCleaned(t);
    CleanKeepsKept(t);
    assert t[..|d|] == d;
    assert SplitSuffix(t) == (1000, d);
    SuffixRead(t, d, 1000);
  }

  /** A run of digits with one trailing `m` or `M` reads as a million times its value. */
  lemma MillionsRead(d: string, suffix: char)
    requires d != [] && AllDigits(d) && (suffix == 'm' || suffix == 'M')
    ensures NumberFromText(d + [suffix]) == Some(1000000 * DigitsValue(d))
  {
    var t := d + [suffix];
    NumberFromCleaned(t);
    CleanKeepsKept(t);
    assert t[..|d|] == d;
    assert SplitSuffix(t) == (1000000, d);
    SuffixRead(t, d, 1000000);
  }

  /** Text without a digit reads as nothing. */
  lemma NoDigitNone(text: string)
    requires forall k :: 0 <= k < |text| ==> !IsDigit(text[k])
    ensures NumberFromText(text).None?
  {
    if text != [] {
      var c := Clean(text);
      CleanInside(text);
      var body := SplitSuffix(c).1;
      assert forall k :: 0 <= k < |body| ==> body[k] in c;
      ParseDecimalSpec(body);
    }
  }

  // ---------------------------------------------------------------------------------------------
  // Worked cases

  /** A separator between two runs of digits is dropped, whatever it is. */
  lemma SeparatorDropped(a: string, c: char, b: string)
    requires AllDigits(a) && AllDigits(b) && a + b != [] && !Kept(c)
    ensures NumberFromText(a + [c] + b) == Some(DigitsValue(a + b))
  {
    IgnoresNoise(a, c, b);
    DigitsRead(a + b);
  }

  /** A thousands separator is dropped: `"1,234"` reads as 1234. */
  lemma ThousandsSeparator()
    ensures NumberFromText("1,234") == Some(1234)
  {
    var a, b := "1", "234";
    assert "1,234" == a + [','] + b;
    assert a + b == "1234";
    SeparatorDropped(a, ',', b);
    DigitsOf1234();
  }

  lemma DigitsOf1234()
    ensures DigitsValue("1234") == 1234
  {
    var d := "1234";
    assert d[..3] == "123" && d[..2] == "12" && d[..1] == "1" && d[..0] == "";
    assert d[..3][..2] == d[..2] && d[..2][..1] == d[..1] && d[..1][..0] == d[..0];
    assert DigitsValue(d[..1]) == 1;
    assert DigitsValue(d[..2]) == 12;
    assert DigitsValue(d[..3]) == 123;
  }

  /** The fraction counts before truncation: `"12.5k"` reads as 12500. */
  lemma FractionWithSuffix()
    ensures NumberFromText("12.5k") == Some(12500)
  {
    var t := "12.5k";
    CleanKeepsKept(t);
    assert t[..4] == "12.5";
    assert SplitSuffix(t) == (1000, "12.5");
    TwelveAndAHalf();
    assert (12.5 * 1000.0).Floor == 12500;
  }

  lemma TwelveAndAHalf()
    ensures ParseDecimal("12.5") == Some(12.5)
  {
    var b := "12.5";
    assert DotIndex(b) == 2 by {
      assert b[0] != '.' && b[1] != '.' && b[2] == '.' && b[3] != '.';
    }
    assert b[..2] == "12" && b[3..] == "5";
    assert "12"[..1] == "1" && "12"[..1][..0] == "";
    assert DigitsValue("12") == 12 && DigitsValue("5") == 5;
    assert DecimalValue("12", "5") == 12.5;
  }

  /** Only one suffix letter is removed: in `"5km"` the `k` is left and the text does not read. */
  lemma OneSuffixOnly()
    ensures NumberFromText("5km") == None
  {
    var t := "5km";
    CleanKeepsKept(t);
    assert t[..2] == "5k";
    assert SplitSuffix(t) == (1000000, "5k");
    NoDotIndex("5k");
    assert !AllDigits("5k"[..2]) by { assert "5k"[..2][1] == 'k'; }
  }

  /** `"N/A"` filters to the empty text, which does not read. */
  lemma NotAvailable()
    ensures NumberFromText("N/A") == None
  {
    NoDigitNone("N/A");
  }

  // ---------------------------------------------------------------------------------------------
  // Integers given as numbers: `str()` first

  function DigitChar(d: nat): (c: char)
    requires d < 10
    ensures IsDigit(c) && c as int - '0' as int == d
  {
    ('0' as int + d) as char
  }

  /** Decimal digits of a natural number, as `str()` writes it. */
  function NatText(n: nat): (r: string)
    ensures r != [] && AllDigits(r)
    ensures DigitsValue(r) == n
  {
    if n < 10 then [DigitChar(n)]
    else
      var r := NatText(n / 10) + [DigitChar(n % 10)];
      assert r[..|r| - 1] == NatText(n / 10);
      r
  }

  /** `str(n)` of a Python int: a minus sign before the digits of a negative number. */
  function IntText(n: int): string
  {
    if n < 0 then "-" + NatText(-n) else NatText(n)
  }

  /** An int passed in place of text reads back as its magnitude: the filter drops the sign. */
  lemma IntTextRead(n: int)
    requires n != 0
    ensures NumberFromText(IntText(n)) == Some(if n < 0 then -n else n)
  {
    if n < 0 {
      SignDropped(NatText(-n));
      DigitsRead(NatText(-n));
    } else {
      DigitsRead(NatText(n));
    }
  }

  /** A leading minus sign is filtered out. */
  lemma SignDropped(t: string)
    requires t != []
    ensures NumberFromText("-" + t) == NumberFromText(t)
  {
    IgnoresNoise([], '-', t);
    assert [] + ['-'] + t == "-" + t;
    assert [] + t == t;
  }
}
