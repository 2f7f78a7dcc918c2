/**
 * Decimal text of integers as .NET renders them, the approximation of
 * `int.TryParse` used throughout the model, and small string helpers.
 * `int.TryParse` is modelled as: an optional '+' or '-', then one or more
 * ASCII digits, and the value must fit in a 32-bit `int`.
 */
module Text {
  import opened Wrappers

  const MinInt32: int := -0x8000_0000
  const MaxInt32: int := 0x7fff_ffff

  /** The values of a C# `int`. */
  predicate IsInt32(n: int) {
    MinInt32 <= n <= MaxInt32
  }

  predicate IsDigit(c: char) {
    '0' <= c <= '9'
  }

  predicate AllDigits(s: string) {
    forall i :: 0 <= i < |s| ==> IsDigit(s[i])
  }

  function DigitValue(c: char): nat
    requires IsDigit(c)
  {
    c as int - '0' as int
  }

  function DigitChar(d: nat): (c: char)
    requires d < 10
    ensures IsDigit(c) && DigitValue(c) == d
  {
    ('0' as int + d) as char
  }

  /** The number a string of decimal digits denotes, most significant digit first. */
  function DigitsValue(s: string): nat
    requires AllDigits(s)
  {
    if s == [] then 0 else DigitsValue(s[..|s| - 1]) * 10 + DigitValue(s[|s| - 1])
  }

  /** The shortest decimal numeral of `n`; reading it back gives `n`. */
  function NatToString(n: nat): (s: string)
    ensures 1 <= |s| && AllDigits(s)
    ensures DigitsValue(s) == n
  {
    if n < 10 then
      [DigitChar(n)]
    else
      var s := NatToString(n / 10) + [DigitChar(n % 10)];
      assert s[..|s| - 1] == NatToString(n / 10);
      s
  }

  /** `n.ToString()` for an integer: a '-' sign for negative values, then the digits. */
  function IntToString(n: int): (s: string)
    ensures 1 <= |s|
    ensures n >= 0 ==> AllDigits(s)
    ensures n < 0 ==> s[0] == '-' && AllDigits(s[1..])
  {
    if n < 0 then "-" + NatToString(-n) else NatToString(n)
  }

  /** The value of `s` under the `int.TryParse` approximation, or None when it fails. */
  function ParseInt32(s: string): (r: Option<int>)
    ensures r.Some? ==> IsInt32(r.value) && 1 <= |s|
  {
    var signed := 0 < |s| && (s[0] == '-' || s[0] == '+');
    var digits := if signed then s[1..] else s;
    if |digits| == 0 || !AllDigits(digits) then
      None
    else
      var magnitude: int := DigitsValue(digits);
      var v := if signed && s[0] == '-' then -magnitude else magnitude;
      if IsInt32(v) then Some(v) else None
  }

  /** Every C# `int` survives rendering followed by parsing. */
  lemma ParseIntToString(n: int)
    requires IsInt32(n)
    ensures ParseInt32(IntToString(n)) == Some(n)
  {
    var s := IntToString(n);
    if n < 0 {
      assert s[1..] == NatToString(-n);
    } else {
      assert !(s[0] == '-' || s[0] == '+');
    }
  }

  /** A rendered integer contains no character other than digits and a leading '-'. */
  lemma IntToStringHasNo(n: int, c: char)
    requires !IsDigit(c) && c != '-'
    ensures c !in IntToString(n)
  {
    var s := IntToString(n);
    if n < 0 {
      forall i | 0 <= i < |s| ensures s[i] != c {
        if i > 0 {
          assert s[i] == s[1..][i - 1];
        }
      }
    }
  }

  /** The text before the first occurrence of `c` (all of `s` when there is none): `s.Split(c)[0]`. */
  function BeforeFirst(s: string, c: char): (r: string)
    ensures c !in r
    ensures r <= s
    ensures r == s || s[|r|] == c
  {
    if s == [] || s[0] == c then [] else [s[0]] + BeforeFirst(s[1..], c)
  }

  /** Splitting on `c` recovers a prefix that does not contain `c`. */
  lemma BeforeFirstOfJoin(a: string, c: char, b: string)
    requires c !in a
    ensures BeforeFirst(a + [c] + b, c) == a
  {
    if a != [] {
      assert (a + [c] + b)[1..] == a[1..] + [c] + b;
      BeforeFirstOfJoin(a[1..], c, b);
    }
  }

  /** A 32-bit integer rendered after `caption` and before `". "` parses back from the text between the two. */
  lemma ParseLabelledField(caption: string, n: int, rest: string)
    requires IsInt32(n)
    ensures var line := caption + (IntToString(n) + ". " + rest);
      |line| >= |caption| && line[..|caption|] == caption && ParseInt32(BeforeFirst(line[|caption|..], '.')) == Some(n)
  {
    var tail := IntToString(n) + ". " + rest;
    assert (caption + tail)[|caption|..] == tail;
    IntToStringHasNo(n, '.');
    assert tail == IntToString(n) + ['.'] + (" " + rest);
    BeforeFirstOfJoin(IntToString(n), '.', " " + rest);
    ParseIntToString(n);
  }

  /**
   * `line` is `caption`, then a number, then `unit`, and when `n` is a 32-bit integer the text
   * between caption and unit parses back to `n`.
   */
  predicate Shows(line: string, caption: string, n: int, unit: string)
  {
    |line| >= |caption| + |unit| && line[..|caption|] == caption && line[|line| - |unit|..] == unit
    && (IsInt32(n) ==> ParseInt32(line[|caption|..|line| - |unit|]) == Some(n))
  }

  /** A rendered integer between a caption and a unit can be read back. */
  lemma ShowsRendered(caption: string, n: int, unit: string)
    ensures Shows(caption + IntToString(n) + unit, caption, n, unit)
  {
    var line := caption + IntToString(n) + unit;
    assert line[..|caption|] == caption;
    assert line[|line| - |unit|..] == unit;
    assert line[|caption|..|line| - |unit|] == IntToString(n);
    if IsInt32(n) {
      ParseIntToString(n);
    }
  }

  /** A rendered integer after a caption, with nothing after it, can be read back. */
  lemma ShowsRenderedAtEnd(caption: string, n: int)
    ensures Shows(caption + IntToString(n), caption, n, "")
  {
    ShowsRendered(caption, n, "");
    assert caption + IntToString(n) + "" == caption + IntToString(n);
  }

  /** A 32-bit integer rendered in front of a `"; "`-separated record parses back from the record's first field. */
  lemma ParseFirstField(n: int, rest: string)
    requires IsInt32(n)
    ensures ParseInt32(BeforeFirst(IntToString(n) + "; " + rest, ';')) == Some(n)
  {
    IntToStringHasNo(n, ';');
    assert IntToString(n) + "; " + rest == IntToString(n) + [';'] + (" " + rest);
    BeforeFirstOfJoin(IntToString(n), ';', " " + rest);
    ParseIntToString(n);
  }

  /** ASCII `ToLower`: 'A'..'Z' become 'a'..'z', every other character is kept. */
  function ToLower(s: string): (r: string)
    ensures |r| == |s|
    ensures forall i :: 0 <= i < |s| ==> (if 'A' <= s[i] <= 'Z' then r[i] as int == s[i] as int + 32 else r[i] == s[i])
  {
    if s == [] then []
    else
      var c := s[0];
      [if 'A' <= c <= 'Z' then (c as int + 32) as char else c] + ToLower(s[1..])
  }
}
