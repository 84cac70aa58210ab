/**
  The few pieces of Python's `str` behaviour that the modelled code relies on:
  `isspace`, `strip`, `lower`/`upper` (ASCII letters only), `in` on strings,
  `startswith`, `join`, `str(int)`, `float(str)` and `len(s.split())`.
 */
module PyStr {
  import opened Wrappers

  /** The characters for which Python's `str.isspace()` holds (also what `\s` matches). */
  predicate IsSpace(c: char) {
    || ('\t' <= c <= '\r')
    || ('\U{1C}' <= c <= ' ')
    || c == '\U{85}' || c == '\U{A0}' || c == '\U{1680}'
    || ('\U{2000}' <= c <= '\U{200A}')
    || c == '\U{2028}' || c == '\U{2029}' || c == '\U{202F}' || c == '\U{205F}' || c == '\U{3000}'
  }

  predicate AllSpace(s: string) {
    forall i :: 0 <= i < |s| ==> IsSpace(s[i])
  }

  /** Length of the leading run of whitespace (what a greedy `\s*` takes). */
  function SpaceRun(s: string): (n: nat)
    ensures n <= |s|
    ensures AllSpace(s[..n])
    ensures n < |s| ==> !IsSpace(s[n])
  {
    if s != [] && IsSpace(s[0]) then
      var k := SpaceRun(s[1..]);
      assert s[..k + 1] == [s[0]] + s[1..][..k];
      1 + k
    else 0
  }

  /** Length of the trailing run of whitespace. */
  function TrailingSpaceRun(s: string): (n: nat)
    ensures n <= |s|
    ensures AllSpace(s[|s| - n..])
    ensures n < |s| ==> !IsSpace(s[|s| - n - 1])
  {
    if s != [] && IsSpace(s[|s| - 1]) then
      var p := s[..|s| - 1];
      var k := TrailingSpaceRun(p);
      assert s[|s| - (k + 1)..] == p[|p| - k..] + [s[|s| - 1]];
      1 + k
    else 0
  }

  /** `s.lstrip()`: the suffix of `s` left after dropping leading whitespace. */
  function LStrip(s: string): (r: string)
    ensures |r| <= |s| && r == s[|s| - |r|..]
    ensures AllSpace(s[..|s| - |r|])
    ensures r == [] || !IsSpace(r[0])
  {
    s[SpaceRun(s)..]
  }

  /** `s.rstrip()`: the prefix of `s` left after dropping trailing whitespace. */
  function RStrip(s: string): (r: string)
    ensures |r| <= |s| && r == s[..|r|]
    ensures AllSpace(s[|r|..])
    ensures r == [] || !IsSpace(r[|r| - 1])
  {
    s[..|s| - TrailingSpaceRun(s)]
  }

  /** `s.strip()` */
  function Strip(s: string): (r: string)
    ensures |r| <= |s|
    ensures r == [] || (!IsSpace(r[0]) && !IsSpace(r[|r| - 1]))
  {
    RStrip(LStrip(s))
  }

  lemma StripEmptyIffAllSpace(s: string)
    ensures Strip(s) == [] <==> AllSpace(s)
  {
    var l := LStrip(s);
    if Strip(s) == [] {
      assert AllSpace(l[0..]);
      assert l == [];
      assert s[..|s|] == s;
    }
  }

  lemma StripSpaceFree(s: string)
    requires forall i :: 0 <= i < |s| ==> !IsSpace(s[i])
    ensures Strip(s) == s
  {
  }

  lemma StripIdempotent(s: string)
    ensures Strip(Strip(s)) == Strip(s)
  {
    var r := Strip(s);
    if r != [] {
      assert LStrip(r) == r;
      assert RStrip(r) == r;
    }
  }

  function LowerChar(c: char): char {
    if 'A' <= c <= 'Z' then (c as int + 32) as char else c
  }

  function UpperChar(c: char): char {
    if 'a' <= c <= 'z' then (c as int - 32) as char else c
  }

  /** `s.lower()` on ASCII letters; every other character is left as it is. */
  function Lower(s: string): (r: string)
    ensures |r| == |s|
    ensures forall i {:trigger r[i]} :: 0 <= i < |s| ==> r[i] == LowerChar(s[i])
  {
    seq(|s|, i requires 0 <= i < |s| => LowerChar(s[i]))
  }

  /** `s.upper()` on ASCII letters; every other character is left as it is. */
  function Upper(s: string): (r: string)
    ensures |r| == |s|
    ensures forall i {:trigger r[i]} :: 0 <= i < |s| ==> r[i] == UpperChar(s[i])
    ensures forall i {:trigger r[i]} :: 0 <= i < |s| ==> !('a' <= r[i] <= 'z')
  {
    seq(|s|, i requires 0 <= i < |s| => UpperChar(s[i]))
  }

  lemma UpperIdempotent(s: string)
    ensures Upper(Upper(s)) == Upper(s)
  {
  }

  lemma UpperOfLower(s: string)
    ensures Upper(Lower(s)) == Upper(s)
  {
  }

  lemma UpperCharSpace(c: char)
    ensures IsSpace(UpperChar(c)) == IsSpace(c)
  {
  }

  lemma {:induction false} UpperSpaceRun(s: string)
    ensures SpaceRun(Upper(s)) == SpaceRun(s)
  {
    if s != [] {
      UpperCharSpace(s[0]);
      assert Upper(s)[1..] == Upper(s[1..]);
      UpperSpaceRun(s[1..]);
    }
  }

  lemma {:induction false} UpperTrailingSpaceRun(s: string)
    ensures TrailingSpaceRun(Upper(s)) == TrailingSpaceRun(s)
  {
    if s != [] {
      UpperCharSpace(s[|s| - 1]);
      assert Upper(s)[..|s| - 1] == Upper(s[..|s| - 1]);
      UpperTrailingSpaceRun(s[..|s| - 1]);
    }
  }

  lemma UpperLStrip(s: string)
    ensures LStrip(Upper(s)) == Upper(LStrip(s))
  {
    UpperSpaceRun(s);
    var n := SpaceRun(s);
    assert Upper(s)[n..] == Upper(s[n..]);
  }

  lemma UpperRStrip(s: string)
    ensures RStrip(Upper(s)) == Upper(RStrip(s))
  {
    UpperTrailingSpaceRun(s);
    var m := |s| - TrailingSpaceRun(s);
    assert Upper(s)[..m] == Upper(s[..m]);
  }

  /** Case mapping leaves whitespace where it was, so it commutes with strip. */
  lemma UpperStripCommute(s: string)
    ensures Strip(Upper(s)) == Upper(Strip(s))
  {
    UpperLStrip(s);
    UpperRStrip(LStrip(s));
  }

  /** `s.strip().upper()` is already stripped and upper-case. */
  lemma StripUpperStable(s: string)
    ensures Strip(Upper(Strip(s))) == Upper(Strip(s))
    ensures Upper(Upper(Strip(s))) == Upper(Strip(s))
  {
    UpperStripCommute(Strip(s));
    StripIdempotent(s);
    UpperIdempotent(Strip(s));
  }

  /** `sub in s` */
  predicate Contains(s: string, sub: string) {
    exists i | 0 <= i <= |s| :: OccursAt(s, sub, i)
  }

  /** `sub` occurs in `s` starting at index `i`. */
  predicate OccursAt(s: string, sub: string, i: int) {
    0 <= i && i + |sub| <= |s| && s[i..i + |sub|] == sub
  }

  /** `s.startswith(p)` */
  predicate StartsWith(s: string, p: string) {
    |p| <= |s| && s[..|p|] == p
  }

  /** `sep.join(parts)` */
  function Join(parts: seq<string>, sep: string): (r: string)
    ensures parts == [] ==> r == ""
    ensures |parts| == 1 ==> r == parts[0]
  {
    if |parts| == 0 then ""
    else if |parts| == 1 then parts[0]
    else parts[0] + sep + Join(parts[1..], sep)
  }

  predicate IsDigit(c: char) {
    '0' <= c <= '9'
  }

  function DigitChar(d: nat): char
    requires d < 10
  {
    ('0' as int + d) as char
  }

  /** `str(n)` for a non-negative integer. */
  function NatToString(n: nat): (r: string)
    ensures |r| > 0
    ensures forall i :: 0 <= i < |r| ==> IsDigit(r[i])
  {
    if n < 10 then [DigitChar(n)] else NatToString(n / 10) + [DigitChar(n % 10)]
  }

  /** `str(i)` for an integer. */
  function IntToString(i: int): string {
    if i < 0 then "-" + NatToString(-i) else NatToString(i)
  }

  /** Decimal value of a string of digits. */
  function DigitsValue(ds: string): nat
    requires forall i :: 0 <= i < |ds| ==> IsDigit(ds[i])
  {
    if ds == [] then 0
    else DigitsValue(ds[..|ds| - 1]) * 10 + DigitValue(ds[|ds| - 1])
  }

  function DigitValue(c: char): nat
    requires IsDigit(c)
  {
    c as int - '0' as int
  }

  predicate AllDigits(s: string) {
    forall i :: 0 <= i < |s| ==> IsDigit(s[i])
  }

  function Pow10(e: nat): (r: real)
    ensures r >= 1.0
  {
    if e == 0 then 1.0 else 10.0 * Pow10(e - 1)
  }

  /** Index of the first character of `s` in `cs`, or |s|. */
  function FindAny(s: string, cs: set<char>): (k: nat)
    ensures k <= |s|
    ensures forall i :: 0 <= i < k ==> s[i] !in cs
    ensures k < |s| ==> s[k] in cs
  {
    if s == [] then 0 else if s[0] in cs then 0 else 1 + FindAny(s[1..], cs)
  }

  /** A mantissa `ddd`, `ddd.`, `.ddd` or `ddd.ddd` (at least one digit). */
  function ParseMantissa(s: string): Option<real> {
    var dot := FindAny(s, {'.'});
    var whole := s[..dot];
    var frac := if dot < |s| then s[dot + 1..] else "";
    if |whole| + |frac| == 0 || !AllDigits(whole) || !AllDigits(frac) then None
    else Some(DigitsValue(whole) as real + DigitsValue(frac) as real / Pow10(|frac|))
  }

  /** An optionally signed run of digits, as in an exponent. */
  function ParseExponent(s: string): Option<int> {
    if |s| > 0 && (s[0] == '+' || s[0] == '-') then
      var rest := s[1..];
      if rest == [] || !AllDigits(rest) then None
      else if s[0] == '-' then Some(-(DigitsValue(rest) as int)) else Some(DigitsValue(rest) as int)
    else if s == [] || !AllDigits(s) then None
    else Some(DigitsValue(s) as int)
  }

  function ScaleBy10(x: real, e: int): real {
    if e >= 0 then x * Pow10(e) else x / Pow10(-e)
  }

  /** Unsigned decimal number with an optional exponent. */
  function ParseUnsigned(s: string): Option<real> {
    var e := FindAny(s, {'e', 'E'});
    var m := ParseMantissa(s[..e]);
    if m.None? then None
    else if e == |s| then m
    else
      var x := ParseExponent(s[e + 1..]);
      if x.None? then None else Some(ScaleBy10(m.value, x.value))
  }

  /**
    `float(s)` for a finite decimal text: optional sign, digits with at most
    one point, optional exponent, surrounding blanks stripped; None for every
    other text. Python's `float()` also accepts `inf`, `infinity` and `nan` in
    any case and underscores between digits (`1_000`); this function gives
    None for those too.
   */
  function ParseFloat(s: string): Option<real> {
    var t := Strip(s);
    if |t| > 0 && (t[0] == '+' || t[0] == '-') then
      var u := ParseUnsigned(t[1..]);
      if u.None? then None else if t[0] == '-' then Some(-u.value) else u
    else ParseUnsigned(t)
  }

  /**
    `ParseFloat` gives None for a text whose first non-blank character is not
    a sign, a digit or a point. Python's `float()` agrees except for the
    special names, which start with `i`, `I`, `n` or `N`.
   */
  lemma ParseFloatRejects(s: string)
    requires Strip(s) != []
    requires !IsDigit(Strip(s)[0]) && Strip(s)[0] !in {'+', '-', '.'}
    ensures ParseFloat(s).None?
  {
    var t := Strip(s);
    var e := FindAny(t, {'e', 'E'});
    var m := t[..e];
    if e > 0 {
      assert m[0] == t[0];
      assert FindAny(m, {'.'}) > 0;
      assert !AllDigits(m[..FindAny(m, {'.'})]) by {
        assert m[..FindAny(m, {'.'})][0] == t[0];
      }
    }
  }

  lemma {:induction false} DigitsValueOfNatToString(n: nat)
    ensures DigitsValue(NatToString(n)) == n
  {
    var s := NatToString(n);
    if n >= 10 {
      assert s[..|s| - 1] == NatToString(n / 10);
      DigitsValueOfNatToString(n / 10);
    }
  }

  lemma ParseUnsignedOfDigits(ds: string)
    requires ds != [] && AllDigits(ds)
    ensures ParseUnsigned(ds) == Some(DigitsValue(ds) as real)
  {
    forall k | 0 <= k < |ds| ensures ds[k] != '.' && ds[k] != 'e' && ds[k] != 'E' {
      assert IsDigit(ds[k]);
    }
    assert FindAny(ds, {'e', 'E'}) == |ds|;
    assert FindAny(ds, {'.'}) == |ds|;
    assert ds[..|ds|] == ds;
  }

  lemma ParseFloatOfNatToString(n: nat)
    ensures ParseFloat(NatToString(n)) == Some(n as real)
  {
    var ds := NatToString(n);
    DigitsValueOfNatToString(n);
    ParseUnsignedOfDigits(ds);
    forall k | 0 <= k < |ds| ensures !IsSpace(ds[k]) {
      assert IsDigit(ds[k]);
    }
    StripSpaceFree(ds);
    assert IsDigit(ds[0]);
  }

  lemma StripSignedDigits(s: string)
    requires |s| > 0 && s[0] == '-' && AllDigits(s[1..])
    ensures Strip(s) == s
  {
    forall k | 0 <= k < |s| ensures !IsSpace(s[k]) {
      if k > 0 { assert s[k] == s[1..][k - 1]; }
    }
    StripSpaceFree(s);
  }

  /** `float(str(n)) == n` for every integer. */
  lemma ParseFloatOfIntToString(i: int)
    ensures ParseFloat(IntToString(i)) == Some(i as real)
  {
    if i >= 0 {
      ParseFloatOfNatToString(i);
    } else {
      var ds := NatToString(-i);
      var s := IntToString(i);
      assert s[1..] == ds;
      DigitsValueOfNatToString(-i);
      ParseUnsignedOfDigits(ds);
      StripSignedDigits(s);
    }
  }

  /** Number of words `len(s.split())`: maximal runs of non-whitespace characters. */
  function WordCount(s: string): nat {
    if s == [] then 0
    else
      var starts := !IsSpace(s[|s| - 1]) && (|s| == 1 || IsSpace(s[|s| - 2]));
      WordCount(s[..|s| - 1]) + (if starts then 1 else 0)
  }

  lemma {:induction false} WordCountBound(s: string)
    ensures WordCount(s) <= |s|
    ensures WordCount(s) == 0 <==> AllSpace(s)
  {
    if s != [] {
      var p := s[..|s| - 1];
      WordCountBound(p);
      if !AllSpace(p) {
        var j :| 0 <= j < |p| && !IsSpace(p[j]);
        assert !IsSpace(s[j]);
      }
      if AllSpace(p) && IsSpace(s[|s| - 1]) {
        forall i | 0 <= i < |s| ensures IsSpace(s[i]) {
          if i < |p| { assert s[i] == p[i]; }
        }
      }
    }
  }
}
