/** Value types shared by every module of the storefront model, and the few
    JavaScript string and number primitives its code relies on
    (`Number.prototype.toString`, `parseInt`, `toFixed(2)`, `trim`,
    `toLowerCase`, `startsWith`, `includes`, `Array.prototype.filter`). */
module Common {

  datatype Option<+T> = None | Some(value: T) {
    function GetOr(default: T): T {
      if Some? then value else default
    }
  }

  datatype Result<+T, +E> = Ok(value: T) | Err(error: E)

  /** A property of a JavaScript object that may be absent (`undefined`).
      `Field<Option<string>>` then distinguishes absent, `null` and a string. */
  datatype Field<+T> = Undefined | Defined(value: T)

  // ----------------------------------------------------------------------
  // Sequences

  /** `Array.prototype.filter`: the elements that `keep` accepts, in order. */
  function Filter<T>(s: seq<T>, keep: T -> bool): (r: seq<T>)
    ensures |r| <= |s|
    ensures forall i :: 0 <= i < |r| ==> r[i] in s && keep(r[i])
    ensures forall i :: 0 <= i < |s| && keep(s[i]) ==> s[i] in r
    ensures multiset(r) <= multiset(s)
    ensures forall i :: 0 <= i < |s| && keep(s[i]) ==> multiset(r)[s[i]] == multiset(s)[s[i]]
  {
    if s == [] then []
    else
      assert s == [s[0]] + s[1..];
      if keep(s[0]) then [s[0]] + Filter(s[1..], keep)
      else Filter(s[1..], keep)
  }

  lemma {:induction false} FilterConcat<T>(a: seq<T>, b: seq<T>, keep: T -> bool)
    ensures Filter(a + b, keep) == Filter(a, keep) + Filter(b, keep)
  {
    if a == [] {
      assert a + b == b;
    } else {
      assert (a + b)[1..] == a[1..] + b;
      FilterConcat(a[1..], b, keep);
    }
  }

  /** `Array.prototype.find`, and a query with `limit(1)`: the first element
      that `p` accepts, if any. */
  function Find<T>(s: seq<T>, p: T -> bool): (r: Option<T>)
    ensures r.None? <==> forall i :: 0 <= i < |s| ==> !p(s[i])
    ensures r.Some? ==> p(r.value) && exists i :: (0 <= i < |s| && s[i] == r.value
                        && forall j :: 0 <= j < i ==> !p(s[j]))
  {
    if s == [] then None
    else if p(s[0]) then Some(s[0])
    else
      var r := Find(s[1..], p);
      assert r.Some? ==> exists i :: (1 <= i < |s| && s[i] == r.value && forall j :: 0 <= j < i ==> !p(s[j])) by {
        if r.Some? {
          var k :| 0 <= k < |s| - 1 && s[1..][k] == r.value && forall j :: 0 <= j < k ==> !p(s[1..][j]);
          assert s[k + 1] == r.value;
          forall j | 0 <= j < k + 1 ensures !p(s[j]) {
            if j > 0 { assert s[j] == s[1..][j - 1]; }
          }
        }
      }
      r
  }

  /** When exactly one element is accepted, `Find` returns it. */
  lemma {:induction false} FindUnique<T>(s: seq<T>, p: T -> bool, k: nat)
    requires k < |s| && p(s[k])
    requires forall i :: 0 <= i < |s| && i != k ==> !p(s[i])
    ensures Find(s, p) == Some(s[k])
  {
    if k > 0 {
      FindUnique(s[1..], p, k - 1);
    }
  }

  /** `a` is obtained from `b` by deleting elements, keeping the order. */
  predicate IsSubsequence<T(==)>(a: seq<T>, b: seq<T>)
    decreases |b|
  {
    if b == [] then a == []
    else if a != [] && a[0] == b[0] then IsSubsequence(a[1..], b[1..]) || IsSubsequence(a, b[1..])
    else IsSubsequence(a, b[1..])
  }

  lemma {:induction false} FilterIsSubsequence<T>(s: seq<T>, keep: T -> bool)
    ensures IsSubsequence(Filter(s, keep), s)
  {
    if s != [] {
      FilterIsSubsequence(s[1..], keep);
    }
  }

  /** Filtering with a predicate that accepts everything returns the input. */
  lemma {:induction false} FilterAll<T>(s: seq<T>, keep: T -> bool)
    requires forall x :: x in s ==> keep(x)
    ensures Filter(s, keep) == s
  {
    if s != [] {
      FilterAll(s[1..], keep);
    }
  }

  // ----------------------------------------------------------------------
  // Optional strings

  /** `a || b` on an optional string: an absent or empty `a` gives `b`. */
  function OrElse(a: Option<string>, b: Option<string>): Option<string> {
    if a.Some? && a.value != "" then a else b
  }

  /** `a || "default"`. */
  function OrDefault(a: Option<string>, default: string): (r: string)
    ensures a.Some? && a.value != "" ==> r == a.value
    ensures a.None? || a.value == "" ==> r == default
  {
    if a.Some? && a.value != "" then a.value else default
  }

  function Lookup(m: map<string, string>, key: string): Option<string> {
    if key in m then Some(m[key]) else None
  }

  /** A possibly absent string as a template literal renders it. */
  function Rendered(s: Option<string>): string {
    if s.Some? then s.value else "undefined"
  }

  // ----------------------------------------------------------------------
  // Digits and numerals

  predicate IsDigit(c: char) {
    '0' <= c <= '9'
  }

  predicate IsHexDigit(c: char) {
    IsDigit(c) || 'a' <= c <= 'f' || 'A' <= c <= 'F'
  }

  /** The value of a hexadecimal digit character (also covers decimal digits). */
  function CharValue(c: char): (d: nat)
    requires IsHexDigit(c)
    ensures d < 16
    ensures IsDigit(c) ==> d < 10
  {
    if IsDigit(c) then c as int - '0' as int
    else if 'a' <= c <= 'f' then c as int - 'a' as int + 10
    else c as int - 'A' as int + 10
  }

  /** A digit of the given radix (10 or 16), as `parseInt` reads them. */
  predicate IsRadixDigit(c: char, radix: nat) {
    IsHexDigit(c) && CharValue(c) < radix
  }

  predicate AllDigits(s: string) {
    forall i :: 0 <= i < |s| ==> IsDigit(s[i])
  }

  function DigitChar(d: nat): (c: char)
    requires d < 10
    ensures IsDigit(c) && CharValue(c) == d
  {
    ('0' as int + d) as char
  }

  /** A product of natural numbers is a natural number. */
  lemma ProductOfNats(a: nat, b: nat)
    ensures a * b >= 0
  {
  }

  /** The value of a numeral, most significant digit first. */
  function NumeralValue(s: string, radix: nat): nat
    requires forall i :: 0 <= i < |s| ==> IsRadixDigit(s[i], radix)
    decreases |s|
  {
    if s == [] then 0
    else
      var init, last := s[..|s| - 1], s[|s| - 1];
      assert forall i :: 0 <= i < |init| ==> init[i] == s[i];
      assert IsRadixDigit(last, radix);
      var v: nat := NumeralValue(init, radix);
      ProductOfNats(v, radix);
      v * radix + CharValue(last)
  }

  /** `n.toString()` for a non-negative integer: decimal, no leading zeros. */
  function NatToString(n: nat): (s: string)
    ensures s != [] && AllDigits(s)
    ensures s[0] == '0' ==> n == 0
    decreases n
  {
    if n < 10 then [DigitChar(n)] else NatToString(n / 10) + [DigitChar(n % 10)]
  }

  /** `n.toString()` for an integer. */
  function IntToString(n: int): (s: string)
    ensures s != []
    ensures n < 0 <==> s[0] == '-'
  {
    if n < 0 then "-" + NatToString(-n) else NatToString(n)
  }

  lemma {:induction false} NatToStringValue(n: nat)
    ensures NumeralValue(NatToString(n), 10) == n
  {
    if n >= 10 {
      NatToStringValue(n / 10);
      var s := NatToString(n);
      assert s[..|s| - 1] == NatToString(n / 10);
    }
  }

  // ----------------------------------------------------------------------
  // Whitespace and trimming

  /** The characters `String.prototype.trim` and `parseInt` skip: the
      ECMAScript WhiteSpace and LineTerminator productions. */
  predicate IsWhitespace(c: char) {
    || c == ' ' || c == '\t' || c == '\n' || c == '\r'
    || c == '\U{000B}' || c == '\U{000C}' || c == '\U{00A0}' || c == '\U{FEFF}'
    || c == '\U{1680}' || ('\U{2000}' <= c <= '\U{200A}')
    || c == '\U{2028}' || c == '\U{2029}' || c == '\U{202F}' || c == '\U{205F}' || c == '\U{3000}'
  }

  predicate AllWhitespace(s: string) {
    forall i :: 0 <= i < |s| ==> IsWhitespace(s[i])
  }

  function TrimStart(s: string): (r: string)
    ensures |r| <= |s| && r == s[|s| - |r|..]
    ensures r == [] || !IsWhitespace(r[0])
  {
    if s != [] && IsWhitespace(s[0]) then TrimStart(s[1..]) else s
  }

  function TrimEnd(s: string): (r: string)
    ensures |r| <= |s| && r == s[..|r|]
    ensures r == [] || !IsWhitespace(r[|r| - 1])
  {
    if s != [] && IsWhitespace(s[|s| - 1]) then TrimEnd(s[..|s| - 1]) else s
  }

  /** `String.prototype.trim`. */
  function Trim(s: string): string {
    TrimEnd(TrimStart(s))
  }

  lemma {:induction false} TrimStartPadded(pad: string, rest: string)
    requires AllWhitespace(pad)
    requires rest == [] || !IsWhitespace(rest[0])
    ensures TrimStart(pad + rest) == rest
  {
    if pad == [] {
      assert pad + rest == rest;
    } else {
      assert (pad + rest)[1..] == pad[1..] + rest;
      TrimStartPadded(pad[1..], rest);
    }
  }

  lemma {:induction false} TrimEndPadded(rest: string, pad: string)
    requires AllWhitespace(pad)
    requires rest == [] || !IsWhitespace(rest[|rest| - 1])
    ensures TrimEnd(rest + pad) == rest
  {
    if pad == [] {
      assert rest + pad == rest;
    } else {
      var s := rest + pad;
      assert s[..|s| - 1] == rest + pad[..|pad| - 1];
      TrimEndPadded(rest, pad[..|pad| - 1]);
    }
  }

  /** Trimming a text padded with whitespace on both sides yields exactly the
      text, once the text itself begins and ends with a visible character. */
  lemma TrimPadded(lead: string, core: string, trail: string)
    requires AllWhitespace(lead) && AllWhitespace(trail)
    requires core != [] && !IsWhitespace(core[0]) && !IsWhitespace(core[|core| - 1])
    ensures Trim(lead + core + trail) == core
  {
    assert lead + core + trail == lead + (core + trail);
    TrimStartPadded(lead, core + trail);
    TrimEndPadded(core, trail);
  }

  // ----------------------------------------------------------------------
  // parseInt

  /** The longest prefix of `s` made of digits of the radix. */
  function LeadingDigits(s: string, radix: nat): (p: string)
    ensures |p| <= |s| && p == s[..|p|]
    ensures forall i :: 0 <= i < |p| ==> IsRadixDigit(p[i], radix)
    ensures |p| < |s| ==> !IsRadixDigit(s[|p|], radix)
  {
    if s == [] || !IsRadixDigit(s[0], radix) then []
    else [s[0]] + LeadingDigits(s[1..], radix)
  }

  /** `parseInt(s)` with no radix argument, on a string; `None` is NaN.
      Leading whitespace is skipped, one sign is read, a `0x`/`0X` prefix
      selects radix 16, and the longest run of digits that follows is read. */
  function ParseInt(s: string): Option<int> {
    var t := TrimStart(s);
    if |t| > 0 && t[0] == '-' then
      match ParseUnsigned(t[1..])
      case None => None
      case Some(v) => Some(-v)
    else if |t| > 0 && t[0] == '+' then ParseUnsigned(t[1..])
    else ParseUnsigned(t)
  }

  function ParseUnsigned(u: string): Option<int> {
    if |u| >= 2 && u[0] == '0' && (u[1] == 'x' || u[1] == 'X') then ParseDigits(u[2..], 16)
    else ParseDigits(u, 10)
  }

  function ParseDigits(u: string, radix: nat): Option<int> {
    var digits := LeadingDigits(u, radix);
    if digits == [] then None else Some(NumeralValue(digits, radix))
  }

  lemma {:induction false} LeadingDigitsOfNumeral(s: string, radix: nat)
    requires forall i :: 0 <= i < |s| ==> IsRadixDigit(s[i], radix)
    ensures LeadingDigits(s, radix) == s
  {
    if s != [] {
      LeadingDigitsOfNumeral(s[1..], radix);
    }
  }

  lemma TrimStartOfVisible(s: string)
    requires s != [] && !IsWhitespace(s[0])
    ensures TrimStart(s) == s
  {
  }

  /** `parseInt` of a decimal numeral with no leading zero, after an optional `-`. */
  lemma ParseUnsignedOfNumeral(d: string)
    requires d != [] && AllDigits(d) && (d[0] == '0' ==> |d| == 1)
    ensures ParseUnsigned(d) == Some(NumeralValue(d, 10))
  {
    assert forall i :: 0 <= i < |d| ==> IsRadixDigit(d[i], 10);
    LeadingDigitsOfNumeral(d, 10);
  }

  /** `parseInt(String(n))` recovers every integer `n`. */
  lemma ParseIntOfIntToString(n: int)
    ensures ParseInt(IntToString(n)) == Some(n)
  {
    var m: nat := if n < 0 then -n else n;
    var d := NatToString(m);
    var s := IntToString(n);
    TrimStartOfVisible(s);
    assert (if n < 0 then s[1..] else s) == d;
    ParseUnsignedOfNumeral(d);
    NatToStringValue(m);
  }

  // ----------------------------------------------------------------------
  // Two-decimal amounts

  /** `(c / 100).toFixed(2)` for an amount of `c` hundredths, computed exactly. */
  function FormatCents(c: int): string {
    var m := if c < 0 then -c else c;
    (if c < 0 then "-" else "") + NatToString(m / 100) + "." + [DigitChar(m % 100 / 10), DigitChar(m % 10)]
  }

  /** Reads a decimal string with exactly two fraction digits (the form in
      which a `decimal(p, 2)` column is returned) as a number of hundredths. */
  function ParseCents(s: string): Option<int> {
    if |s| > 0 && s[0] == '-' then
      match ParseUnsignedCents(s[1..])
      case None => None
      case Some(v) => Some(-v)
    else ParseUnsignedCents(s)
  }

  function ParseUnsignedCents(u: string): Option<int> {
    if |u| >= 4 && u[|u| - 3] == '.' && AllDigits(u[..|u| - 3]) && IsDigit(u[|u| - 2]) && IsDigit(u[|u| - 1]) then
      Some(CentsValue(u[..|u| - 3], u[|u| - 2], u[|u| - 1]))
    else None
  }

  /** The number of hundredths written `whole.d1d2`. */
  function CentsValue(whole: string, d1: char, d2: char): nat
    requires AllDigits(whole) && IsDigit(d1) && IsDigit(d2)
  {
    assert forall i :: 0 <= i < |whole| ==> IsRadixDigit(whole[i], 10);
    NumeralValue(whole, 10) * 100 + CharValue(d1) * 10 + CharValue(d2)
  }

  /** The string has exactly two digits after its decimal point. */
  lemma FormatCentsShape(c: int)
    ensures var s := FormatCents(c);
      && |s| >= 4 && s[|s| - 3] == '.' && IsDigit(s[|s| - 2]) && IsDigit(s[|s| - 1])
      && (c < 0 <==> s[0] == '-')
  {
  }

  lemma DigitsOfHundredths(m: nat)
    ensures m / 100 * 100 + m % 100 / 10 * 10 + m % 10 == m
  {
    var r := m % 100;
    assert r / 10 * 10 + r % 10 == r;
    assert r % 10 == m % 10;
  }

  lemma ParseUnsignedCentsOfDigits(w: string, d1: char, d2: char)
    requires w != [] && AllDigits(w) && IsDigit(d1) && IsDigit(d2)
    ensures ParseUnsignedCents(w + "." + [d1, d2]) == Some(CentsValue(w, d1, d2))
  {
    var u := w + "." + [d1, d2];
    assert u[..|u| - 3] == w;
    assert u[|u| - 3] == '.' && u[|u| - 2] == d1 && u[|u| - 1] == d2;
  }

  lemma ParseUnsignedCentsOfParts(m: nat)
    ensures ParseUnsignedCents(NatToString(m / 100) + "." + [DigitChar(m % 100 / 10), DigitChar(m % 10)]) == Some(m)
  {
    var w, a, b := NatToString(m / 100), DigitChar(m % 100 / 10), DigitChar(m % 10);
    ParseUnsignedCentsOfDigits(w, a, b);
    assert CentsValue(w, a, b) == m by {
      assert forall i :: 0 <= i < |w| ==> IsRadixDigit(w[i], 10);
      NatToStringValue(m / 100);
      DigitsOfHundredths(m);
    }
  }

  /** Converting the two-decimal string back to hundredths is exact. */
  lemma ParseCentsOfFormatCents(c: int)
    ensures ParseCents(FormatCents(c)) == Some(c)
  {
    var m: nat := if c < 0 then -c else c;
    var u := NatToString(m / 100) + "." + [DigitChar(m % 100 / 10), DigitChar(m % 10)];
    var s := FormatCents(c);
    assert s == (if c < 0 then "-" else "") + u;
    assert (|s| > 0 && s[0] == '-') <==> c < 0;
    assert (if c < 0 then s[1..] else s) == u;
    ParseUnsignedCentsOfParts(m);
  }

  // ----------------------------------------------------------------------
  // Other string primitives

  function LowerChar(c: char): char {
    if 'A' <= c <= 'Z' then (c as int - 'A' as int + 'a' as int) as char else c
  }

  /** `String.prototype.toLowerCase`, restricted to the ASCII letters. */
  function ToLower(s: string): (r: string)
    ensures |r| == |s| && forall i :: 0 <= i < |s| ==> r[i] == LowerChar(s[i])
  {
    seq(|s|, i requires 0 <= i < |s| => LowerChar(s[i]))
  }

  /** `String.prototype.startsWith`. */
  predicate StartsWith(s: string, prefix: string) {
    |prefix| <= |s| && s[..|prefix|] == prefix
  }

  /** `String.prototype.includes`. */
  predicate Contains(s: string, part: string)
    decreases |s|
  {
    StartsWith(s, part) || (s != [] && Contains(s[1..], part))
  }
}
