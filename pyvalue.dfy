/**
  Dynamically typed values as the Python code receives them in tool results,
  plans, tool arguments, evaluator examples and JSON files: `None`, booleans,
  integers, floats (as exact reals), strings, lists and dicts. A dict is kept
  as its entries in insertion order; Python dicts never repeat a key, and the
  functions below read the first entry for a key.
 */
module PyValue {
  import opened Wrappers
  import opened PyStr

  datatype Value =
    | VNone
    | VBool(b: bool)
    | VInt(i: int)
    | VFloat(r: real)
    | VStr(s: string)
    | VList(items: seq<Value>)
    | VDict(entries: seq<(string, Value)>)

  /** `bool(v)` */
  predicate Truthy(v: Value) {
    match v
    case VNone => false
    case VBool(b) => b
    case VInt(i) => i != 0
    case VFloat(r) => r != 0.0
    case VStr(s) => s != ""
    case VList(items) => items != []
    case VDict(entries) => entries != []
  }

  /** `a or b` */
  function Or(a: Value, b: Value): (r: Value)
    ensures Truthy(a) ==> r == a
    ensures !Truthy(a) ==> r == b
  {
    if Truthy(a) then a else b
  }

  /** The value stored under `k`, if the dict has that key. */
  function Lookup(entries: seq<(string, Value)>, k: string): (r: Option<Value>)
    ensures r.None? <==> forall i :: 0 <= i < |entries| ==> entries[i].0 != k
    ensures r.Some? ==> exists i :: 0 <= i < |entries| && entries[i] == (k, r.value)
  {
    if entries == [] then None
    else if entries[0].0 == k then Some(entries[0].1)
    else
      var r := Lookup(entries[1..], k);
      assert forall i :: 1 <= i < |entries| ==> entries[i] == entries[1..][i - 1];
      r
  }

  /** `k in d` */
  predicate HasKey(entries: seq<(string, Value)>, k: string) {
    Lookup(entries, k).Some?
  }

  /** `d.get(k, default)` */
  function Get(entries: seq<(string, Value)>, k: string, default: Value): (r: Value)
    ensures HasKey(entries, k) ==> r == Lookup(entries, k).value
    ensures !HasKey(entries, k) ==> r == default
  {
    match Lookup(entries, k)
    case Some(v) => v
    case None => default
  }

  /** `v.get(k, default)` for a value that may or may not be a dict; None where Python raises. */
  function GetAttr(v: Value, k: string, default: Value): (r: Option<Value>)
    ensures r.Some? <==> v.VDict?
  {
    if v.VDict? then Some(Get(v.entries, k, default)) else None
  }

  /** `d[k] = v`: overwrites in place, or appends a new key at the end. */
  function Set(entries: seq<(string, Value)>, k: string, v: Value): (r: seq<(string, Value)>)
    ensures Lookup(r, k) == Some(v)
    ensures forall k' :: k' != k ==> Lookup(r, k') == Lookup(entries, k')
  {
    if entries == [] then [(k, v)]
    else if entries[0].0 == k then [(k, v)] + entries[1..]
    else
      var rest := Set(entries[1..], k, v);
      assert forall k' :: k' != k && k' != entries[0].0 ==> Lookup(entries, k') == Lookup(entries[1..], k');
      [entries[0]] + rest
  }

  /** The keys of a dict, in order. */
  function Keys(entries: seq<(string, Value)>): (ks: seq<string>)
    ensures |ks| == |entries|
    ensures forall i :: 0 <= i < |entries| ==> ks[i] == entries[i].0
  {
    seq(|entries|, i requires 0 <= i < |entries| => entries[i].0)
  }

  /** `float(v)`; None where Python raises TypeError or ValueError. */
  function ToFloat(v: Value): (r: Option<real>)
    ensures v.VInt? ==> r == Some(v.i as real)
    ensures v.VFloat? ==> r == Some(v.r)
    ensures (v.VNone? || v.VList? || v.VDict?) ==> r.None?
  {
    match v
    case VBool(b) => Some(if b then 1.0 else 0.0)
    case VInt(i) => Some(i as real)
    case VFloat(r) => Some(r)
    case VStr(s) => ParseFloat(s)
    case _ => None
  }

  /** Python's `==`: numbers compare by value across bool, int and float; dicts ignore order. */
  predicate PyEq(a: Value, b: Value)
    decreases a
  {
    match a
    case VNone => b.VNone?
    case VBool(_) => IsNumber(b) && NumberValue(a) == NumberValue(b)
    case VInt(_) => IsNumber(b) && NumberValue(a) == NumberValue(b)
    case VFloat(_) => IsNumber(b) && NumberValue(a) == NumberValue(b)
    case VStr(s) => b.VStr? && b.s == s
    case VList(xs) =>
      b.VList? && |b.items| == |xs| && forall i :: 0 <= i < |xs| ==> PyEq(xs[i], b.items[i])
    case VDict(es) =>
      b.VDict? && |b.entries| == |es| &&
      forall i :: 0 <= i < |es| ==>
        HasKey(b.entries, es[i].0) && PyEq(es[i].1, Lookup(b.entries, es[i].0).value)
  }

  predicate IsNumber(v: Value) {
    v.VBool? || v.VInt? || v.VFloat?
  }

  function NumberValue(v: Value): real
    requires IsNumber(v)
  {
    match v
    case VBool(b) => if b then 1.0 else 0.0
    case VInt(i) => i as real
    case VFloat(r) => r
  }

  const Quote: char := '\''
  const DoubleQuote: char := '"'
  const Backslash: char := '\\'

  /** No ASCII control character and no DEL: the text reads on one line. */
  predicate NoControl(t: string) {
    forall i :: 0 <= i < |t| ==> ' ' <= t[i] && t[i] as int != 0x7F
  }

  lemma NoControlConcat(a: string, b: string)
    requires NoControl(a) && NoControl(b)
    ensures NoControl(a + b)
  {
    forall i | 0 <= i < |a + b|
      ensures ' ' <= (a + b)[i] && (a + b)[i] as int != 0x7F
    {
      if i >= |a| {
        assert (a + b)[i] == b[i - |a|];
      }
    }
  }

  /** The quote `repr` puts around a string: a double quote when the text holds a single quote and no double quote, a single quote otherwise. */
  function ReprQuote(s: string): (q: char)
    ensures q == Quote || q == DoubleQuote
    ensures q !in s || (Quote in s && DoubleQuote in s && q == Quote)
  {
    if Quote in s && DoubleQuote !in s then DoubleQuote else Quote
  }

  /** The characters `repr` writes as `\xhh`: ASCII controls other than tab, newline and carriage return, and DEL. */
  predicate HexEscaped(c: char) {
    (c < ' ' && c != '\t' && c != '\n' && c != '\r') || c as int == 0x7F
  }

  function HexDigit(d: nat): (c: char)
    requires d < 16
    ensures '0' <= c <= 'f'
  {
    if d < 10 then DigitChar(d) else ('a' as int + d - 10) as char
  }

  predicate IsHexDigit(c: char) {
    IsDigit(c) || 'a' <= c <= 'f'
  }

  function HexValue(c: char): (d: nat)
    requires IsHexDigit(c)
    ensures d < 16
  {
    if IsDigit(c) then DigitValue(c) else c as int - 'a' as int + 10
  }

  lemma HexDigitValue(d: nat)
    requires d < 16
    ensures IsHexDigit(HexDigit(d)) && HexValue(HexDigit(d)) == d
  {
  }

  /** How `repr` writes one character of a string it quotes with `q`. */
  function CharRepr(c: char, q: char): (r: string)
    requires q == Quote || q == DoubleQuote
    ensures 1 <= |r| <= 4
    ensures NoControl(r)
    ensures r != [c] ==> r[0] == Backslash
  {
    if c == q || c == Backslash then [Backslash, c]
    else if c == '\t' then [Backslash, 't']
    else if c == '\n' then [Backslash, 'n']
    else if c == '\r' then [Backslash, 'r']
    else if HexEscaped(c) then [Backslash, 'x', HexDigit(c as int / 16), HexDigit(c as int % 16)]
    else [c]
  }

  /** The characters of `s` as `repr` writes them between quotes `q`. */
  function Escape(s: string, q: char): (r: string)
    requires q == Quote || q == DoubleQuote
    ensures |r| >= |s|
    ensures NoControl(r)
  {
    if s == [] then ""
    else
      var head := CharRepr(s[0], q);
      var tail := Escape(s[1..], q);
      NoControlConcat(head, tail);
      head + tail
  }

  /** `repr(s)` for a string: the quote `ReprQuote(s)`, the escaped text, the same quote. */
  function StrRepr(s: string): (r: string)
    ensures |r| >= |s| + 2
    ensures r[0] == r[|r| - 1] == ReprQuote(s)
    ensures NoControl(r)
  {
    var q := ReprQuote(s);
    [q] + Escape(s, q) + [q]
  }

  /** The character a backslash escape other than `\x` stands for. */
  function EscapedChar(c: char): char {
    if c == 't' then '\t' else if c == 'n' then '\n' else if c == 'r' then '\r' else c
  }

  /**
    Reads the inside of a string literal back: `\t`, `\n`, `\r`, `\xhh`,
    and a backslash before a quote or a backslash; any other backslash is
    itself.
   */
  function Unescape(t: string): string
    decreases |t|
  {
    if t == [] then ""
    else if t[0] != Backslash || |t| == 1 then [t[0]] + Unescape(t[1..])
    else if t[1] == 'x' && |t| >= 4 && IsHexDigit(t[2]) && IsHexDigit(t[3]) then
      [(HexValue(t[2]) * 16 + HexValue(t[3])) as char] + Unescape(t[4..])
    else if t[1] in {'t', 'n', 'r', Quote, DoubleQuote, Backslash} then [EscapedChar(t[1])] + Unescape(t[2..])
    else [Backslash] + Unescape(t[1..])
  }

  lemma CharReprReadsBack(c: char, q: char, rest: string)
    requires q == Quote || q == DoubleQuote
    ensures Unescape(CharRepr(c, q) + rest) == [c] + Unescape(rest)
  {
    var t := CharRepr(c, q) + rest;
    if c == q || c == Backslash || c == '\t' || c == '\n' || c == '\r' {
      assert t[2..] == rest;
    } else if HexEscaped(c) {
      HexDigitValue(c as int / 16);
      HexDigitValue(c as int % 16);
      assert t[4..] == rest;
    } else {
      assert t[1..] == rest;
    }
  }

  /** Reading the escaped text back gives the string again. */
  lemma {:induction false} EscapeRoundTrip(s: string, q: char)
    requires q == Quote || q == DoubleQuote
    ensures Unescape(Escape(s, q)) == s
    decreases |s|
  {
    if s != [] {
      CharReprReadsBack(s[0], q, Escape(s[1..], q));
      EscapeRoundTrip(s[1..], q);
    }
  }

  /** The text between the quotes of `repr(s)` reads back as `s`. */
  lemma StrReprRoundTrip(s: string)
    ensures var r := StrRepr(s); Unescape(r[1..|r| - 1]) == s
  {
    var q := ReprQuote(s);
    var r := StrRepr(s);
    assert r[1..|r| - 1] == Escape(s, q);
    EscapeRoundTrip(s, q);
  }

  /** Printable ASCII without a backslash or the quote is written unchanged. */
  lemma {:induction false} EscapePlain(s: string, q: char)
    requires q == Quote || q == DoubleQuote
    requires forall i :: 0 <= i < |s| ==> ' ' <= s[i] && s[i] as int < 0x7F && s[i] != Backslash && s[i] != q
    ensures Escape(s, q) == s
    decreases |s|
  {
    if s != [] {
      EscapePlain(s[1..], q);
      assert s == [s[0]] + s[1..];
    }
  }

  /** Printable ASCII text without a backslash, holding at most one kind of quote, is `repr`'d as itself in quotes. */
  lemma StrReprPlain(s: string)
    requires forall i :: 0 <= i < |s| ==> ' ' <= s[i] && s[i] as int < 0x7F && s[i] != Backslash
    requires !(Quote in s && DoubleQuote in s)
    ensures StrRepr(s) == [ReprQuote(s)] + s + [ReprQuote(s)]
  {
    EscapePlain(s, ReprQuote(s));
  }

  /** The decimal digits of a fraction in [0, 1), at most `n` of them, stopping when it runs out. */
  function FractionDigits(f: real, n: nat): (r: string)
    requires 0.0 <= f < 1.0
    ensures |r| <= n
    ensures forall i :: 0 <= i < |r| ==> IsDigit(r[i])
    decreases n
  {
    if f == 0.0 || n == 0 then ""
    else
      var d := (f * 10.0).Floor;
      [DigitChar(d)] + FractionDigits(f * 10.0 - d as real, n - 1)
  }

  /** `f` times 10^z. */
  function Scale(f: real, z: nat): (r: real)
    ensures f > 0.0 ==> r >= f
  {
    if z == 0 then f else 10.0 * Scale(f, z - 1)
  }

  lemma {:induction false} ScaleTenfold(f: real, z: nat)
    ensures Scale(f * 10.0, z) == Scale(f, z + 1)
  {
    if z > 0 {
      ScaleTenfold(f, z - 1);
    }
  }

  lemma {:induction false} ScaleMonotone(f: real, i: nat, j: nat)
    requires f > 0.0 && i <= j
    ensures Scale(f, i) <= Scale(f, j)
    decreases j
  {
    if i < j {
      ScaleMonotone(f, i, j - 1);
    }
  }

  lemma ScaleFour(f: real)
    ensures Scale(f, 4) == 10000.0 * f
  {
    assert Scale(f, 1) == 10.0 * f;
    assert Scale(f, 2) == 100.0 * f;
    assert Scale(f, 3) == 1000.0 * f;
  }

  lemma {:induction false} Pow10Monotone(i: nat, j: nat)
    requires i <= j
    ensures Pow10(i) <= Pow10(j)
    decreases j
  {
    if i < j {
      Pow10Monotone(i, j - 1);
    }
  }

  /** `Pow10` takes whole values. */
  function Pow10Nat(e: nat): (r: nat)
    ensures r as real == Pow10(e)
  {
    if e == 0 then 1 else 10 * Pow10Nat(e - 1)
  }

  lemma TenfoldShrinksInverse(f: real)
    requires 0.0 < f && f * 10.0 < 1.0
    ensures 0 <= (1.0 / (f * 10.0)).Floor < (1.0 / f).Floor
  {
    var g := 1.0 / f;
    assert g * f == 1.0;
    assert g > 10.0 by {
      assert g * (f * 10.0) == 10.0;
    }
    assert 1.0 / (f * 10.0) == g / 10.0;
    assert g / 10.0 < g - 1.0;
  }

  /** `f` has `z` zeros between the point and its first significant digit. */
  predicate ZerosFit(f: real, z: nat) {
    Scale(f, z) < 1.0 <= Scale(f, z + 1)
  }

  /** The number of zeros between the point and the first significant digit of a fraction in (0, 1). */
  function LeadingZeros(f: real): (z: nat)
    requires 0.0 < f < 1.0
    ensures ZerosFit(f, z)
    decreases (1.0 / f).Floor
  {
    if f * 10.0 >= 1.0 then 0
    else
      TenfoldShrinksInverse(f);
      var z := LeadingZeros(f * 10.0);
      LeadingZerosStep(f, z);
      1 + z
  }

  lemma LeadingZerosStep(f: real, z: nat)
    requires ZerosFit(f * 10.0, z)
    ensures ZerosFit(f, z + 1)
  {
    ScaleTenfold(f, z);
    ScaleTenfold(f, z + 1);
  }

  /** A fraction moved past its leading zeros lies in [1, 10). */
  lemma ScaledBounds(f: real)
    requires 0.0 < f < 1.0
    ensures 1.0 <= Scale(f, LeadingZeros(f) + 1) < 10.0
  {
    assert ZerosFit(f, LeadingZeros(f));
  }

  lemma {:induction false} NatToStringBounds(n: nat)
    requires n >= 1
    ensures Pow10Nat(|NatToString(n)| - 1) <= n < Pow10Nat(|NatToString(n)|)
    ensures NatToString(n)[0] != '0'
  {
    if n >= 10 {
      NatToStringBounds(n / 10);
    }
  }

  /**
    The decimal exponent of a positive real, the `e` of its scientific
    notation: the number of digits before the point less one, or minus one
    more than the zeros after it.
   */
  function DecimalExponent(a: real): int
    requires a > 0.0
  {
    if a >= 1.0 then |NatToString(a.Floor)| - 1 else -(LeadingZeros(a) + 1)
  }

  /** The decimal exponent `e` is the one with 10^e <= a < 10^(e+1). */
  lemma DecimalExponentBounds(a: real)
    requires a > 0.0
    ensures var e := DecimalExponent(a);
      (e >= 0 ==> Pow10(e) <= a < Pow10(e + 1)) &&
      (e < 0 ==> Scale(a, -e - 1) < 1.0 <= Scale(a, -e))
  {
    if a >= 1.0 {
      var n: nat := a.Floor;
      var k := |NatToString(n)|;
      NatToStringBounds(n);
      var e := DecimalExponent(a);
      assert e == k - 1 && e + 1 == k;
      assert Pow10Nat(e) as real == Pow10(e);
      assert Pow10Nat(e + 1) as real == Pow10(e + 1);
      assert (n + 1) as real <= Pow10(e + 1);
    } else {
      var z := LeadingZeros(a);
      var e := DecimalExponent(a);
      assert e == -(z as int + 1) && -e - 1 == z && -e == z + 1;
      assert ZerosFit(a, z);
    }
  }

  /** Python's float `repr` switches to scientific notation for a decimal exponent below -4 or from 16 up. */
  predicate UsesExponent(a: real)
    requires a > 0.0
  {
    var e := DecimalExponent(a);
    e < -4 || e >= 16
  }

  /** Scientific notation is used exactly below 0.0001 and from 10^16 up. */
  lemma UsesExponentRange(a: real)
    requires a > 0.0
    ensures UsesExponent(a) <==> a < 0.0001 || Pow10(16) <= a
  {
    var e := DecimalExponent(a);
    DecimalExponentBounds(a);
    ScaleFour(a);
    if e >= 16 {
      Pow10Monotone(16, e);
    } else if e >= 0 {
      Pow10Monotone(e + 1, 16);
    } else {
      assert a < 1.0;
      Pow10Monotone(0, 16);
      if e < -4 {
        ScaleMonotone(a, 4, -e - 1);
      } else {
        ScaleMonotone(a, -e, 4);
      }
    }
  }

  /** `s` without its trailing zeros. */
  function StripTrailingZeros(s: string): (r: string)
    ensures |r| <= |s| && r == s[..|r|]
    ensures r != [] ==> r[|r| - 1] != '0'
    ensures s != [] && s[0] != '0' ==> r != [] && r[0] == s[0]
  {
    if s != [] && s[|s| - 1] == '0' then StripTrailingZeros(s[..|s| - 1]) else s
  }

  /** The first 17 digits of a real from 1 up, without trailing zeros. */
  function WholeDigits(a: real): (ds: string)
    requires a >= 1.0
    ensures 1 <= |ds| <= 17 && ds[0] != '0' && ds[|ds| - 1] != '0'
    ensures forall i :: 0 <= i < |ds| ==> IsDigit(ds[i])
  {
    var whole: nat := a.Floor;
    NatToStringBounds(whole);
    var all := NatToString(whole) + FractionDigits(a - whole as real, 17);
    StripTrailingZeros(if |all| <= 17 then all else all[..17])
  }

  /** The first 17 significant digits of a fraction in (0, 1), without trailing zeros. */
  function FractionSignificantDigits(a: real): (ds: string)
    requires 0.0 < a < 1.0
    ensures 1 <= |ds| <= 17 && ds[0] != '0' && ds[|ds| - 1] != '0'
    ensures forall i :: 0 <= i < |ds| ==> IsDigit(ds[i])
  {
    ScaledBounds(a);
    ScaledDigits(Scale(a, LeadingZeros(a) + 1))
  }

  /** The first 17 digits of a real in [1, 10), without trailing zeros. */
  function ScaledDigits(x: real): (ds: string)
    requires 1.0 <= x < 10.0
    ensures 1 <= |ds| <= 17 && ds[0] != '0' && ds[|ds| - 1] != '0'
    ensures forall i :: 0 <= i < |ds| ==> IsDigit(ds[i])
  {
    var first: nat := x.Floor;
    StripTrailingZeros([DigitChar(first)] + FractionDigits(x - first as real, 16))
  }

  /** The significant digits of a positive real, at most 17, first digit non-zero, no trailing zero. */
  function SignificantDigits(a: real): (ds: string)
    requires a > 0.0
    ensures 1 <= |ds| <= 17 && ds[0] != '0' && ds[|ds| - 1] != '0'
    ensures forall i :: 0 <= i < |ds| ==> IsDigit(ds[i])
  {
    if a >= 1.0 then WholeDigits(a) else FractionSignificantDigits(a)
  }

  /** The exponent as `repr` writes it: a sign and at least two digits. */
  function ExponentText(e: int): (r: string)
    ensures |r| >= 3 && (r[0] == '+' || r[0] == '-')
    ensures forall i :: 1 <= i < |r| ==> IsDigit(r[i])
  {
    (if e < 0 then "-" else "+") + (if -10 < e < 10 then "0" else "") + NatToString(if e < 0 then -e else e)
  }

  /** Scientific notation of a positive real: the significant digits with a point after the first when there are more, then `e` and the exponent. */
  function Scientific(a: real): (r: string)
    requires a > 0.0
    ensures 'e' in r
  {
    var ds := SignificantDigits(a);
    var m := if |ds| == 1 then ds else [ds[0]] + "." + ds[1..];
    var r := m + "e" + ExponentText(DecimalExponent(a));
    assert r[|m|] == 'e';
    r
  }

  /** Positional notation of a non-negative real: the whole part, a point, the fraction digits or `0`. */
  function Positional(a: real): (r: string)
    requires a >= 0.0
    ensures forall i :: 0 <= i < |r| ==> r[i] == '.' || IsDigit(r[i])
  {
    var whole := a.Floor;
    var digits := FractionDigits(a - whole as real, 17);
    NatToString(whole) + "." + (if digits == "" then "0" else digits)
  }

  /** `repr(x)` for a float: positional (`3.0`, `-0.25`), or scientific (`1e-05`, `1.5e+16`) for a decimal exponent below -4 or from 16 up. */
  function FloatRepr(x: real): string {
    var a := if x < 0.0 then -x else x;
    (if x < 0.0 then "-" else "") + (if a > 0.0 && UsesExponent(a) then Scientific(a) else Positional(a))
  }

  /** A whole float below 10^16 is its integer text with `.0`. */
  lemma FloatReprWhole(x: real)
    requires x.Floor as real == x && 0.0 <= x < Pow10(16)
    ensures FloatRepr(x) == NatToString(x.Floor) + ".0"
  {
    if x > 0.0 {
      UsesExponentRange(x);
      assert !UsesExponent(x);
    }
    assert FloatRepr(x) == Positional(x);
    PositionalWhole(x);
  }

  lemma PositionalWhole(x: real)
    requires x.Floor as real == x && 0.0 <= x
    ensures Positional(x) == NatToString(x.Floor) + ".0"
  {
    assert FractionDigits(x - x.Floor as real, 17) == "";
  }

  lemma PositionalHasNoE(sign: string, a: real)
    requires a >= 0.0 && (sign == "" || sign == "-")
    ensures 'e' !in sign + Positional(a)
  {
    var t := sign + Positional(a);
    forall i | 0 <= i < |t|
      ensures t[i] != 'e'
    {
      if i >= |sign| {
        assert t[i] == Positional(a)[i - |sign|];
      }
    }
  }

  lemma ScientificHasE(sign: string, a: real)
    requires a > 0.0
    ensures 'e' in sign + Scientific(a)
  {
    var t := Scientific(a);
    var k :| 0 <= k < |t| && t[k] == 'e';
    assert (sign + t)[|sign| + k] == 'e';
  }

  /** The text holds an `e` exactly when the float is non-zero and below 0.0001 or from 10^16 up in magnitude. */
  lemma FloatReprNotation(x: real)
    ensures var a := if x < 0.0 then -x else x;
      'e' in FloatRepr(x) <==> a > 0.0 && (a < 0.0001 || Pow10(16) <= a)
  {
    var a := if x < 0.0 then -x else x;
    var sign := if x < 0.0 then "-" else "";
    if a > 0.0 {
      UsesExponentRange(a);
    }
    if a > 0.0 && UsesExponent(a) {
      assert FloatRepr(x) == sign + Scientific(a);
      ScientificHasE(sign, a);
    } else {
      assert FloatRepr(x) == sign + Positional(a);
      PositionalHasNoE(sign, a);
    }
  }

  /** `repr(v)` */
  function Repr(v: Value): string
    decreases v
  {
    match v
    case VNone => "None"
    case VBool(b) => if b then "True" else "False"
    case VInt(i) => IntToString(i)
    case VFloat(x) => FloatRepr(x)
    case VStr(s) => StrRepr(s)
    case VList(xs) =>
      "[" + Join(seq(|xs|, i requires 0 <= i < |xs| => Repr(xs[i])), ", ") + "]"
    case VDict(es) =>
      "{" + Join(seq(|es|, i requires 0 <= i < |es| => StrRepr(es[i].0) + ": " + Repr(es[i].1)), ", ") + "}"
  }

  /** `str(v)`: a string is itself, everything else its repr. */
  function Str(v: Value): (r: string)
    ensures v.VStr? ==> r == v.s
    ensures v.VInt? ==> r == IntToString(v.i)
    ensures v.VNone? ==> r == "None"
  {
    if v.VStr? then v.s else Repr(v)
  }

  /** An optional attribute as the value it puts in a result dict. */
  function OptStr(o: Option<string>): (v: Value)
    ensures o.None? ==> v == VNone
    ensures o.Some? ==> v == VStr(o.value)
  {
    if o.Some? then VStr(o.value) else VNone
  }

  function OptReal(o: Option<real>): (v: Value)
    ensures o.None? ==> v == VNone
    ensures o.Some? ==> v == VFloat(o.value)
  {
    if o.Some? then VFloat(o.value) else VNone
  }

  /** A present string is truthy iff it is non-empty, as `if name and ...` reads it. */
  predicate OptTruthy(o: Option<string>) {
    o.Some? && o.value != ""
  }

  /** `float(str(n)) == n` as Python values: the text of an int parses back to it. */
  lemma ToFloatOfIntText(i: int)
    ensures ToFloat(VStr(Str(VInt(i)))) == ToFloat(VInt(i))
  {
    ParseFloatOfIntToString(i);
  }
}
