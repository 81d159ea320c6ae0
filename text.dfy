/** The string and number primitives of the .NET base library that the
    gateway relies on: `char.IsWhiteSpace`, `string.Trim`, `IndexOf`,
    `Split`, `Regex.Split(s, @"\s+")`, `ulong`/`int`/`double` parsing and the
    fixed-point renderings `F0`, `F1` and `0.##`. Each is written as a
    function whose contract says what the result is. */
module Text {
  import opened Wrappers

  const U64_LIMIT: int := 0x1_0000_0000_0000_0000
  const INT32_MIN: int := -0x8000_0000
  const INT32_MAX: int := 0x7FFF_FFFF

  /** The values of a C# `ulong`. */
  type u64 = x: int | 0 <= x < U64_LIMIT

  /** A C# `int`. */
  type i32 = x: int | INT32_MIN <= x <= INT32_MAX

  // ---------------------------------------------------------------------
  // Characters

  /** `char.IsWhiteSpace`: what `string.Trim()` removes and what the
      regular-expression class `\s` matches. */
  predicate IsWhiteSpace(c: char) {
    || ('\t' <= c <= '\r') || c == ' ' || c == '\U{0085}' || c == '\U{00A0}'
    || c == '\U{1680}' || ('\U{2000}' <= c <= '\U{200A}') || c == '\U{2028}'
    || c == '\U{2029}' || c == '\U{202F}' || c == '\U{205F}' || c == '\U{3000}'
  }

  /** The white space `NumberStyles.Integer` and `NumberStyles.Float`
      allow around a number: U+0009 to U+000D and U+0020. */
  predicate IsNumberWhite(c: char) {
    ('\t' <= c <= '\r') || c == ' '
  }

  predicate IsDigit(c: char) {
    '0' <= c <= '9'
  }

  predicate AllDigits(s: string) {
    forall i :: 0 <= i < |s| ==> IsDigit(s[i])
  }

  predicate IsDigitString(s: string) {
    |s| > 0 && AllDigits(s)
  }

  /** Upper-casing as `StringComparison.OrdinalIgnoreCase` does it, for
      the ASCII letters. */
  function UpperAscii(c: char): (u: char)
    ensures 'a' <= c <= 'z' ==> u as int == c as int - 32
    ensures !('a' <= c <= 'z') ==> u == c
  {
    if 'a' <= c <= 'z' then (c as int - 32) as char else c
  }

  /** `string.ToLower()`, for the ASCII letters. */
  function LowerAscii(s: string): (r: string)
    ensures |r| == |s|
    ensures forall i :: 0 <= i < |s| ==> ('A' <= s[i] <= 'Z' ==> r[i] as int == s[i] as int + 32)
    ensures forall i :: 0 <= i < |s| ==> (!('A' <= s[i] <= 'Z') ==> r[i] == s[i])
  {
    seq(|s|, i requires 0 <= i < |s| => if 'A' <= s[i] <= 'Z' then (s[i] as int + 32) as char else s[i])
  }

  // ---------------------------------------------------------------------
  // Prefixes, trimming and searching

  /** `s.StartsWith(p)` for the ASCII prefixes the gateway uses. */
  predicate StartsWith(s: string, p: string) {
    p <= s
  }

  /** `s.StartsWith(p, StringComparison.OrdinalIgnoreCase)`. */
  predicate StartsWithIgnoreCase(s: string, p: string) {
    |p| <= |s| && forall i :: 0 <= i < |p| ==> UpperAscii(s[i]) == UpperAscii(p[i])
  }

  /** `s.TrimStart()`: drops the leading white space. */
  function TrimStart(s: string): (r: string)
    ensures |r| <= |s|
    ensures r == [] || !IsWhiteSpace(r[0])
  {
    if s != [] && IsWhiteSpace(s[0]) then TrimStart(s[1..]) else s
  }

  /** `s.TrimEnd()`: drops the trailing white space. */
  function TrimEnd(s: string): (r: string)
    ensures |r| <= |s|
    ensures r == [] || !IsWhiteSpace(r[|r| - 1])
  {
    if s != [] && IsWhiteSpace(s[|s| - 1]) then TrimEnd(s[..|s| - 1]) else s
  }

  /** What `TrimStart` keeps is a suffix of its input. */
  lemma {:induction false} TrimStartIsSuffix(s: string)
    ensures TrimStart(s) == s[|s| - |TrimStart(s)|..]
  {
    if s != [] && IsWhiteSpace(s[0]) {
      TrimStartIsSuffix(s[1..]);
    }
  }

  /** What `TrimEnd` keeps is a prefix of its input. */
  lemma {:induction false} TrimEndIsPrefix(s: string)
    ensures TrimEnd(s) == s[..|TrimEnd(s)|]
  {
    if s != [] && IsWhiteSpace(s[|s| - 1]) {
      TrimEndIsPrefix(s[..|s| - 1]);
    }
  }

  /** `string.Trim()`. */
  function Trim(s: string): (r: string)
    ensures |r| <= |s|
    ensures r == [] || (!IsWhiteSpace(r[0]) && !IsWhiteSpace(r[|r| - 1]))
  {
    TrimEndIsPrefix(TrimStart(s));
    TrimEnd(TrimStart(s))
  }

  /** A string with no white space at either end is its own trim. */
  lemma TrimUnchanged(s: string)
    requires s == [] || (!IsWhiteSpace(s[0]) && !IsWhiteSpace(s[|s| - 1]))
    ensures Trim(s) == s
  {
  }

  /** A value followed by the newline a pseudo-file ends with trims back to
      the value. */
  lemma TrimNewline(s: string)
    requires s != [] && !IsWhiteSpace(s[0]) && !IsWhiteSpace(s[|s| - 1])
    ensures Trim(s + "\n") == s
  {
    var t := s + "\n";
    assert TrimStart(t) == t;
    assert t[..|t| - 1] == s;
    assert TrimEnd(t) == TrimEnd(s);
  }

  /** A decimal rendering has no white space in it. */
  lemma DigitsHaveNoWhiteSpace(s: string)
    requires AllDigits(s)
    ensures forall i :: 0 <= i < |s| ==> !IsWhiteSpace(s[i])
    ensures ' ' !in s
  {
  }

  /** Drops the white space `NumberStyles` allows before a number. */
  function TrimStartNumber(s: string): (r: string)
  {
    if s != [] && IsNumberWhite(s[0]) then TrimStartNumber(s[1..]) else s
  }

  /** Drops the white space `NumberStyles` allows after a number. */
  function TrimEndNumber(s: string): (r: string)
  {
    if s != [] && IsNumberWhite(s[|s| - 1]) then TrimEndNumber(s[..|s| - 1]) else s
  }

  /** The characters of a number, without the white space around it. */
  function NumberBody(s: string): string {
    TrimEndNumber(TrimStartNumber(s))
  }

  /** Drops trailing `'0'` characters. */
  function TrimTrailingZeros(s: string): (r: string)
  {
    if s != [] && s[|s| - 1] == '0' then TrimTrailingZeros(s[..|s| - 1]) else s
  }

  /** `s.IndexOf(c)`, with `None` for -1. */
  function IndexOf(s: string, c: char): (r: Option<nat>)
    ensures r.None? <==> c !in s
    ensures r.Some? ==> r.value < |s| && s[r.value] == c && c !in s[..r.value]
  {
    if s == [] then None
    else if s[0] == c then Some(0)
    else
      match IndexOf(s[1..], c)
      case None => None
      case Some(i) =>
        assert s[..i + 1] == [s[0]] + s[1..][..i];
        Some(i + 1)
  }

  /** The index of the first white-space character, or `|s|` without one. */
  function FirstWhite(s: string): (r: nat)
    ensures r <= |s|
    ensures forall j :: 0 <= j < r ==> !IsWhiteSpace(s[j])
    ensures r < |s| ==> IsWhiteSpace(s[r])
  {
    if s == [] || IsWhiteSpace(s[0]) then 0 else FirstWhite(s[1..]) + 1
  }

  // ---------------------------------------------------------------------
  // Splitting

  /** The parts joined back with `sep` between them. */
  function Join(parts: seq<string>, sep: char): string
    requires |parts| >= 1
  {
    if |parts| == 1 then parts[0] else parts[0] + [sep] + Join(parts[1..], sep)
  }

  /** `s.Split(sep)`: the maximal pieces between occurrences of `sep`,
      empty pieces included. */
  function Split(s: string, sep: char): (parts: seq<string>)
    ensures |parts| >= 1
    ensures forall i :: 0 <= i < |parts| ==> sep !in parts[i]
    decreases |s|
  {
    match IndexOf(s, sep)
    case None => [s]
    case Some(i) => [s[..i]] + Split(s[i + 1..], sep)
  }

  /** Joining the pieces with the separator gives back the string. */
  lemma {:induction false} SplitJoin(s: string, sep: char)
    ensures Join(Split(s, sep), sep) == s
    decreases |s|
  {
    match IndexOf(s, sep)
    case None =>
    case Some(i) =>
      SplitJoin(s[i + 1..], sep);
      var parts := Split(s, sep);
      assert parts[1..] == Split(s[i + 1..], sep);
      assert s == s[..i] + [sep] + s[i + 1..];
  }

  /** Two fields without the separator split back into those two fields. */
  lemma SplitTwoFields(a: string, b: string, sep: char)
    requires sep !in a && sep !in b
    ensures Split(a + [sep] + b, sep) == [a, b]
  {
    var s := a + [sep] + b;
    assert s[|a|] == sep;
    var i := IndexOf(s, sep).value;
    assert s[..|a|] == a;
    assert s[i + 1..] == b;
  }

  /** Keeps the non-empty strings, in order (`StringSplitOptions.RemoveEmptyEntries`). */
  function NonEmpty(parts: seq<string>): (r: seq<string>)
    ensures |r| <= |parts|
    ensures forall i :: 0 <= i < |r| ==> r[i] != [] && r[i] in parts
    ensures forall i :: 0 <= i < |parts| && parts[i] != [] ==> parts[i] in r
  {
    if parts == [] then []
    else if parts[0] == [] then NonEmpty(parts[1..])
    else [parts[0]] + NonEmpty(parts[1..])
  }

  /** `s.Split(sep, StringSplitOptions.RemoveEmptyEntries)`. */
  function SplitRemoveEmpty(s: string, sep: char): (parts: seq<string>)
    ensures forall i :: 0 <= i < |parts| ==> parts[i] != [] && sep !in parts[i]
  {
    NonEmpty(Split(s, sep))
  }

  /** `Regex.Split(s, @"\s+")`: the pieces between maximal runs of white
      space, with an empty first (last) piece when `s` starts (ends) with
      white space. */
  function SplitOnWhiteRuns(s: string): (parts: seq<string>)
    ensures |parts| >= 1
    ensures forall i, j :: 0 <= i < |parts| && 0 <= j < |parts[i]| ==> !IsWhiteSpace(parts[i][j])
    ensures FirstWhite(s) == |s| ==> parts == [s]
    ensures FirstWhite(s) < |s| ==> parts[0] == s[..FirstWhite(s)] && |parts| >= 2
    decreases |s|
  {
    var i := FirstWhite(s);
    if i == |s| then [s]
    else
      var rest := TrimStart(s[i..]);
      [s[..i]] + SplitOnWhiteRuns(rest)
  }

  // ---------------------------------------------------------------------
  // Decimal digits

  function DigitValue(c: char): (d: nat)
    requires IsDigit(c)
    ensures d < 10
  {
    c as int - '0' as int
  }

  function DigitChar(d: nat): (c: char)
    requires d < 10
    ensures IsDigit(c) && DigitValue(c) == d
  {
    ('0' as int + d) as char
  }

  /** The value of a string of decimal digits; 0 for the empty string. */
  function DigitsValue(s: string): nat
    requires AllDigits(s)
  {
    if s == [] then 0 else DigitsValue(s[..|s| - 1]) * 10 + DigitValue(s[|s| - 1])
  }

  function Pow10(k: nat): (p: nat)
    ensures p >= 1
  {
    if k == 0 then 1 else 10 * Pow10(k - 1)
  }

  /** The decimal rendering of `n` that `ToString()` gives: no leading zeros. */
  function NatToString(n: nat): (s: string)
    ensures IsDigitString(s) && DigitsValue(s) == n
    ensures |s| > 1 ==> s[0] != '0'
  {
    var s := if n < 10 then [DigitChar(n)] else NatToString(n / 10) + [DigitChar(n % 10)];
    assert n >= 10 ==> s[..|s| - 1] == NatToString(n / 10);
    s
  }

  /** `v % 10^width` as exactly `width` digits, with leading zeros. */
  function PadDigits(v: nat, width: nat): (s: string)
    ensures |s| == width && AllDigits(s)
    ensures DigitsValue(s) == v % Pow10(width)
  {
    if width == 0 then ""
    else
      var s := PadDigits(v / 10, width - 1) + [DigitChar(v % 10)];
      assert s[..|s| - 1] == PadDigits(v / 10, width - 1);
      ModPow10Step(v, width);
      s
  }

  lemma ModPow10Step(v: nat, width: nat)
    requires width >= 1
    ensures v % Pow10(width) == (v / 10) % Pow10(width - 1) * 10 + v % 10
  {
    var p := Pow10(width - 1);
    var q, r := (v / 10) / p, (v / 10) % p;
    assert v / 10 == q * p + r;
    assert v == q * (10 * p) + (r * 10 + v % 10);
    ModUnique(v, 10 * p, q, r * 10 + v % 10);
  }

  /** The remainder of `v` by `m` is the `r` of any `v == k * m + r` with `0 <= r < m`. */
  lemma ModUnique(v: nat, m: nat, k: nat, r: nat)
    requires m > 0 && r < m && v == k * m + r
    ensures v % m == r
  {
    var k', r' := v / m, v % m;
    assert v == k' * m + r';
    if k < k' {
      MulMonotone(k + 1, k', m);
    } else if k' < k {
      MulMonotone(k' + 1, k, m);
    }
  }

  lemma MulMonotone(a: nat, b: nat, m: nat)
    requires a <= b
    ensures a * m <= b * m
  {
  }

  /** Reducing the left operand first does not change the wrapped sum. */
  lemma WrapAddLeft(a: nat, b: nat)
    ensures (a % U64_LIMIT + b) % U64_LIMIT == (a + b) % U64_LIMIT
  {
    var q := a / U64_LIMIT;
    assert a == q * U64_LIMIT + a % U64_LIMIT;
    ShiftByMultiple(a % U64_LIMIT + b, q);
  }

  lemma ShiftByMultiple(x: nat, q: nat)
    ensures (x + q * U64_LIMIT) % U64_LIMIT == x % U64_LIMIT
  {
    var k, r := x / U64_LIMIT, x % U64_LIMIT;
    assert x + q * U64_LIMIT == (k + q) * U64_LIMIT + r;
    ModUnique(x + q * U64_LIMIT, U64_LIMIT, k + q, r);
  }

  // ---------------------------------------------------------------------
  // Number parsing

  /** `[sign]digits`, the body of an integer without surrounding white space. */
  function SignedDigits(t: string): (r: Option<int>)
    ensures r.Some? && |t| > 0 && t[0] == '-' ==> r.value <= 0
    ensures r.Some? && (|t| == 0 || t[0] != '-') ==> r.value >= 0
  {
    if |t| > 0 && (t[0] == '+' || t[0] == '-') then
      if IsDigitString(t[1..]) then
        var magnitude: int := DigitsValue(t[1..]);
        Some(if t[0] == '-' then -magnitude else magnitude)
      else None
    else if IsDigitString(t) then Some(DigitsValue(t))
    else None
  }

  /** The integer `NumberStyles.Integer` reads: white space, an optional
      sign, decimal digits, white space. */
  function ParseInteger(s: string): Option<int> {
    SignedDigits(NumberBody(s))
  }

  /** `ulong.TryParse(s, out v)`: `Some(v)` when it returns true. */
  function ParseU64(s: string): (r: Option<u64>)
    ensures r.Some? <==> ParseInteger(s).Some? && 0 <= ParseInteger(s).value < U64_LIMIT
    ensures r.Some? ==> r.value == ParseInteger(s).value
  {
    match ParseInteger(s)
    case Some(v) => if 0 <= v < U64_LIMIT then Some(v) else None
    case None => None
  }

  /** `int.TryParse(s, out v)`; a missing (null) string never parses. */
  function ParseI32(s: Option<string>): (r: Option<i32>)
    ensures r.Some? <==> s.Some? && ParseInteger(s.value).Some? && INT32_MIN <= ParseInteger(s.value).value <= INT32_MAX
    ensures r.Some? ==> r.value == ParseInteger(s.value).value
  {
    match s
    case None => None
    case Some(str) =>
      match ParseInteger(str)
      case Some(v) => if INT32_MIN <= v <= INT32_MAX then Some(v) else None
      case None => None
  }

  /** `[digits][.digits]` with at least one digit. */
  function UnsignedDecimal(t: string): (r: Option<real>)
    ensures r.Some? ==> r.value >= 0.0
  {
    match IndexOf(t, '.')
    case None => if IsDigitString(t) then Some(DigitsValue(t) as real) else None
    case Some(i) =>
      var whole, frac := t[..i], t[i + 1..];
      if AllDigits(whole) && AllDigits(frac) && |whole| + |frac| > 0 then
        Some(DigitsValue(whole) as real + DigitsValue(frac) as real / Pow10(|frac|) as real)
      else None
  }

  /** `double.TryParse(s, out v)` on plain decimal notation: white space,
      an optional sign, `[digits][.digits]`, white space. */
  function ParseReal(s: string): (r: Option<real>)
  {
    var t := NumberBody(s);
    if |t| > 0 && (t[0] == '+' || t[0] == '-') then
      match UnsignedDecimal(t[1..])
      case None => None
      case Some(v) => Some(if t[0] == '-' then -v else v)
    else UnsignedDecimal(t)
  }

  lemma {:induction false} DigitsNotNumberWhite(s: string)
    requires AllDigits(s)
    ensures NumberBody(s) == s
  {
    assert s != [] ==> !IsNumberWhite(s[0]) && !IsNumberWhite(s[|s| - 1]);
  }

  /** A string of digits parses to its value when that fits a `ulong`. */
  lemma ParseU64OfDigits(s: string)
    requires IsDigitString(s) && DigitsValue(s) < U64_LIMIT
    ensures ParseU64(s) == Some(DigitsValue(s))
  {
    DigitsNotNumberWhite(s);
  }

  /** A string of digits is read as its value by `NumberStyles.Integer`. */
  lemma ParseIntegerOfDigits(s: string)
    requires IsDigitString(s)
    ensures ParseInteger(s) == Some(DigitsValue(s) as int)
  {
    DigitsNotNumberWhite(s);
  }

  /** Rendering a count and parsing it back gives the count. */
  lemma ParseU64OfNatToString(n: nat)
    requires n < U64_LIMIT
    ensures ParseU64(NatToString(n)) == Some(n)
  {
    DigitsNotNumberWhite(NatToString(n));
  }

  /** Decimal renderings of counts read back as the same real number. */
  lemma ParseRealOfNatToString(n: nat)
    ensures ParseReal(NatToString(n)) == Some(n as real)
  {
    var s := NatToString(n);
    DigitsNotNumberWhite(s);
    assert forall k :: 0 <= k < |s| ==> s[k] != '.';
  }

  /** `ParseI32` accepts exactly the rendering of an `int`, with a minus
      sign for the negative ones. */
  lemma ParseI32OfRendering(v: i32)
    ensures ParseI32(Some(if v < 0 then "-" + NatToString(-(v as int)) else NatToString(v))) == Some(v)
  {
    if v < 0 {
      var digits := NatToString(-(v as int));
      var s := "-" + digits;
      assert s[1..] == digits;
      assert TrimStartNumber(s) == s;
      assert s[|s| - 1] == digits[|digits| - 1];
      assert TrimEndNumber(s) == s;
      assert SignedDigits(s) == Some(v as int);
    } else {
      DigitsNotNumberWhite(NatToString(v));
    }
  }

  // ---------------------------------------------------------------------
  // Fixed-point rendering of non-negative quantities

  /** `y` to the nearest whole number, halves away from zero. */
  function RoundHalfAway(y: real): (n: nat)
    requires y >= 0.0
    ensures (n as real) - 0.5 <= y < n as real + 0.5
  {
    (y + 0.5).Floor
  }

  /** `x` to the nearest multiple of 10^-d, halves away from zero, as the
      count of those multiples. */
  function RoundScaled(x: real, d: nat): nat
    requires x >= 0.0
  {
    var scaled := x * Pow10(d) as real;
    assert scaled >= 0.0 by { NonNegativeProduct(x, Pow10(d) as real); }
    RoundHalfAway(scaled)
  }

  /** `Math.Round(x, d)` counted in multiples of 10^-d: the nearest
      multiple, a tie going to the even one (.NET's default
      `MidpointRounding.ToEven`). */
  function RoundEvenCount(x: real, d: nat): (k: int)
    ensures x * Pow10(d) as real - 0.5 <= k as real <= x * Pow10(d) as real + 0.5
    ensures (k as real - x * Pow10(d) as real == 0.5 || x * Pow10(d) as real - k as real == 0.5) ==> k % 2 == 0
  {
    var y := x * Pow10(d) as real;
    var n := y.Floor;
    var f := y - n as real;
    if f > 0.5 || (f == 0.5 && n % 2 != 0) then n + 1 else n
  }

  /** `Math.Round(x, d)`: `x` to `d` decimals, ties to even. */
  function RoundHalfEven(x: real, d: nat): (r: real)
    ensures r * Pow10(d) as real == RoundEvenCount(x, d) as real
  {
    RoundEvenCount(x, d) as real / Pow10(d) as real
  }

  /** A value that already has at most `d` decimals is left as it is. */
  lemma RoundHalfEvenOfMultiple(k: int, d: nat)
    ensures RoundHalfEven(k as real / Pow10(d) as real, d) == k as real / Pow10(d) as real
  {
    var p := Pow10(d) as real;
    var x := k as real / p;
    assert x * p == k as real;
    assert RoundEvenCount(x, d) == k;
  }

  /** Ties go to the even neighbour: 0.125 becomes 0.12, 0.135 becomes 0.14. */
  lemma RoundHalfEvenTies()
    ensures RoundHalfEven(0.125, 2) == 0.12 && RoundHalfEven(0.135, 2) == 0.14
  {
    assert Pow10(2) == 100;
    assert (12.5).Floor == 12 && (13.5).Floor == 13;
  }

  /** A non-negative quotient of a number by a larger one is at most one. */
  lemma RatioInUnitInterval(a: real, b: real)
    requires 0.0 <= a <= b && b > 0.0
    ensures 0.0 <= a / b <= 1.0
  {
    var q := a / b;
    assert q * b == a;
  }

  lemma RatioAboveOne(a: real, b: real)
    requires a > b > 0.0
    ensures a / b > 1.0
  {
    var q := a / b;
    assert q * b == a;
  }

  lemma NegativeRatio(a: real, b: real)
    requires a < 0.0 && b > 0.0
    ensures a / b < 0.0
  {
    var q := a / b;
    assert q * b == a;
  }

  lemma ProductPositive(a: real, b: real)
    requires a > 0.0 && b > 0.0
    ensures a * b > 0.0
  {
  }

  lemma NonNegativeProduct(a: real, b: real)
    requires a >= 0.0 && b >= 0.0
    ensures a * b >= 0.0
  {
  }

  /** The digits before the decimal point of `n` multiples of 10^-d. */
  function WholeDigits(n: nat, d: nat): string {
    var p := Pow10(d);
    QuotientOfNat(n, p);
    NatToString(n / p)
  }

  /** Dividing a natural number by a positive one gives a natural number. */
  lemma QuotientOfNat(n: nat, p: nat)
    requires p >= 1
    ensures 0 <= n / p <= n
  {
    var q := n / p;
    assert n == p * q + n % p;
    if q < 0 {
      assert p * q <= -(p as int) by { MulMonotoneNeg(p, q); }
    }
  }

  lemma MulMonotoneNeg(p: nat, q: int)
    requires p >= 1 && q < 0
    ensures p * q <= -(p as int)
  {
  }

  /** The `d` digits after the decimal point of `n` multiples of 10^-d. */
  function FractionDigits(n: nat, d: nat): string {
    PadDigits(n % Pow10(d), d)
  }

  /** `x.ToString("F" + d)`: exactly `d` decimals. */
  function FormatFixed(x: real, d: nat): string
    requires x >= 0.0
  {
    var n := RoundScaled(x, d);
    WholeDigits(n, d) + (if d == 0 then "" else "." + FractionDigits(n, d))
  }

  /** `x.ToString("0." + "#" * d)`: at most `d` decimals, trailing zeros
      and a bare decimal point dropped. */
  function FormatTrimmed(x: real, d: nat): string
    requires x >= 0.0
  {
    var n := RoundScaled(x, d);
    var frac := TrimTrailingZeros(FractionDigits(n, d));
    WholeDigits(n, d) + (if frac == "" then "" else "." + frac)
  }
}
