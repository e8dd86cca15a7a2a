/** The few pieces of the .NET base library whose behaviour the kiosk scripts rely on:
    character classes, null-or-blank tests on (nullable) strings, `int.TryParse`,
    `string.Join` and single-character `string.Replace`. */
module DotNet {

  /** A C# reference that may be null; used for nullable strings. */
  datatype Option<+T> = None | Some(value: T)

  newtype byte = b: int | 0 <= b < 256

  const Int32Min: int := -0x8000_0000
  const Int32Max: int := 0x7FFF_FFFF

  /** `char.IsDigit`, restricted to the ASCII decimal digits. */
  predicate IsDigit(c: char)
    ensures IsDigit(c) <==> c in "0123456789"
  {
    '0' <= c <= '9'
  }

  function DigitValue(c: char): (d: nat)
    requires IsDigit(c)
    ensures d < 10
  {
    (c as int) - ('0' as int)
  }

  /** `char.IsWhiteSpace`: the Unicode space, line and paragraph separators,
      the C0 controls U+0009..U+000D and U+0085. */
  predicate IsWhiteSpace(c: char)
    ensures IsWhiteSpace(c) ==> !IsDigit(c)
    ensures c == ' ' || c == '\t' || c == '\n' || c == '\r' ==> IsWhiteSpace(c)
  {
    || c == ' ' || ('\t' <= c <= '\r') || c == '\U{0085}' || c == '\U{00A0}'
    || c == '\U{1680}' || ('\U{2000}' <= c <= '\U{200A}') || c == '\U{2028}'
    || c == '\U{2029}' || c == '\U{202F}' || c == '\U{205F}' || c == '\U{3000}'
  }

  predicate AllWhiteSpace(s: string) {
    forall i :: 0 <= i < |s| ==> IsWhiteSpace(s[i])
  }

  /** `string.IsNullOrWhiteSpace`. */
  predicate IsNullOrWhiteSpace(s: Option<string>)
    ensures IsNullOrEmpty(s) ==> IsNullOrWhiteSpace(s)
    ensures IsNullOrWhiteSpace(s) && s.Some? ==> forall i :: 0 <= i < |s.value| ==> !IsDigit(s.value[i])
  {
    s.None? || AllWhiteSpace(s.value)
  }

  /** `string.IsNullOrEmpty`. */
  predicate IsNullOrEmpty(s: Option<string>)
    ensures !IsNullOrEmpty(s) ==> s.Some? && |s.value| > 0
  {
    s.None? || s.value == []
  }

  predicate AllDigits(s: string) {
    forall i :: 0 <= i < |s| ==> IsDigit(s[i])
  }

  /** The digit characters of `s`, in their original order. */
  function DigitsOf(s: string): (r: string)
    ensures AllDigits(r)
    ensures |r| <= |s|
    ensures AllDigits(s) ==> r == s
  {
    if s == [] then []
    else if IsDigit(s[0]) then [s[0]] + DigitsOf(s[1..])
    else DigitsOf(s[1..])
  }

  lemma {:induction false} DigitsOfAppend(a: string, b: string)
    ensures DigitsOf(a + b) == DigitsOf(a) + DigitsOf(b)
  {
    if a == [] {
      assert a + b == b;
    } else {
      assert (a + b)[0] == a[0] && (a + b)[1..] == a[1..] + b;
      DigitsOfAppend(a[1..], b);
    }
  }

  /** A digit anywhere in `s` survives into `DigitsOf(s)`. */
  lemma {:induction false} DigitInDigitsOf(s: string, i: nat)
    requires i < |s| && IsDigit(s[i])
    ensures DigitsOf(s) != []
  {
    if i > 0 && !IsDigit(s[0]) {
      DigitInDigitsOf(s[1..], i - 1);
    }
  }

  /** The value of a string of decimal digits, most significant first. */
  function DecimalValue(s: string): (v: nat)
    requires AllDigits(s)
    ensures v < Pow10(|s|)
  {
    if s == [] then 0
    else DecimalValue(s[..|s| - 1]) * 10 + DigitValue(s[|s| - 1])
  }

  function Pow10(n: nat): (p: nat)
    ensures p >= 1
  {
    if n == 0 then 1 else 10 * Pow10(n - 1)
  }

  lemma {:induction false} Pow10Monotone(m: nat, n: nat)
    requires m <= n
    ensures Pow10(m) <= Pow10(n)
  {
    if m < n {
      Pow10Monotone(m, n - 1);
    }
  }

  /** At most nine digits always fit in 32 bits: 10^9 - 1 <= Int32Max. */
  lemma NineDigitsFit(s: string)
    requires AllDigits(s) && |s| <= 9
    ensures DecimalValue(s) <= Int32Max
  {
    Pow10Monotone(|s|, 9);
    assert Pow10(9) == 1_000_000_000;
  }

  /** The white space `int.TryParse` skips around a number: U+0009..U+000D and U+0020. */
  predicate IsNumberWhite(c: char) {
    c == ' ' || ('\t' <= c <= '\r')
  }

  /** Index of the first character at or after `i` that is not number white space. */
  function SkipWhite(s: string, i: nat): (j: nat)
    requires i <= |s|
    ensures i <= j <= |s|
    ensures forall k :: i <= k < j ==> IsNumberWhite(s[k])
    ensures j < |s| ==> !IsNumberWhite(s[j])
    decreases |s| - i
  {
    if i < |s| && IsNumberWhite(s[i]) then SkipWhite(s, i + 1) else i
  }

  /** Index just past the last character before `j` (and at or after `lo`) that is not number white space. */
  function SkipWhiteBack(s: string, lo: nat, j: nat): (k: nat)
    requires lo <= j <= |s|
    ensures lo <= k <= j
    ensures forall m :: k <= m < j ==> IsNumberWhite(s[m])
    ensures k > lo ==> !IsNumberWhite(s[k - 1])
  {
    if j > lo && IsNumberWhite(s[j - 1]) then SkipWhiteBack(s, lo, j - 1) else j
  }

  /** `int.TryParse(s, out int v)` with the default number style: optional
      surrounding white space, an optional leading sign, at least one decimal
      digit, and a value that fits in 32 bits. */
  function TryParseInt32(s: string): (r: Option<int>)
    ensures r.Some? ==> Int32Min <= r.value <= Int32Max
    ensures r.Some? ==> DigitsOf(s) != []
  {
    var lo := SkipWhite(s, 0);
    var hi := SkipWhiteBack(s, lo, |s|);
    if lo == hi then None else ParseSigned(s, lo, hi)
  }

  /** The number written in `s[lo..hi]`, which starts with no white space. */
  function ParseSigned(s: string, lo: nat, hi: nat): (r: Option<int>)
    requires lo < hi <= |s|
    ensures r.Some? ==> Int32Min <= r.value <= Int32Max
    ensures r.Some? ==> DigitsOf(s) != []
  {
    var start := if s[lo] == '-' || s[lo] == '+' then lo + 1 else lo;
    if start == hi || !AllDigits(s[start..hi]) then None
    else
      assert IsDigit(s[start]) by { assert s[start..hi][0] == s[start]; }
      DigitInDigitsOf(s, start);
      var v: int := if s[lo] == '-' then 0 - DecimalValue(s[start..hi]) as int else DecimalValue(s[start..hi]);
      if Int32Min <= v <= Int32Max then Some(v) else None
  }

  /** A non-empty string of digits parses exactly when its value fits in 32 bits. */
  lemma TryParseDigits(s: string)
    requires s != [] && AllDigits(s)
    ensures TryParseInt32(s) == if DecimalValue(s) <= Int32Max then Some(DecimalValue(s)) else None
  {
    assert SkipWhite(s, 0) == 0;
    assert SkipWhiteBack(s, 0, |s|) == |s|;
    assert s[0..|s|] == s;
  }

  /** `string.Join(sep, parts)`: a null part contributes the empty string. */
  function Join(sep: string, parts: seq<Option<string>>): (r: string)
    ensures |parts| == 1 ==> r == OrEmpty(parts[0])
    ensures |parts| > 0 ==> |r| >= (|parts| - 1) * |sep|
  {
    if parts == [] then []
    else if |parts| == 1 then OrEmpty(parts[0])
    else Join(sep, parts[..|parts| - 1]) + sep + OrEmpty(parts[|parts| - 1])
  }

  /** Three parts are joined as `a + sep + b + sep + c`. */
  lemma JoinThree(sep: string, a: Option<string>, b: Option<string>, c: Option<string>)
    ensures Join(sep, [a, b, c]) == OrEmpty(a) + sep + OrEmpty(b) + sep + OrEmpty(c)
  {
    assert [a, b, c][..2] == [a, b];
    assert [a, b][..1] == [a];
  }

  function OrEmpty(s: Option<string>): string {
    if s.Some? then s.value else []
  }

  /** `Path.Combine(dir, name)` with '/' as the directory separator: a rooted
      `name` replaces `dir`, and a separator is inserted only when `dir` lacks one. */
  function Combine(dir: string, name: string): (r: string)
    ensures name != [] && name[0] != '/' ==> |r| >= |name| && r[|r| - |name|..] == name
  {
    if dir == [] || (name != [] && name[0] == '/') then name
    else if dir[|dir| - 1] == '/' then dir + name
    else dir + "/" + name
  }

  /** Within one directory, distinct relative names of one length give distinct paths. */
  lemma CombineInjective(dir: string, a: string, b: string)
    requires a != [] && a[0] != '/' && b != [] && b[0] != '/' && |a| == |b|
    ensures Combine(dir, a) == Combine(dir, b) ==> a == b
  {
  }

  /** `s.Replace(c.ToString(), rep)`: every occurrence of `c`, scanned left to
      right, is replaced by `rep`; nothing else changes. */
  function ReplaceChar(s: string, c: char, rep: string): (r: string)
    ensures c !in rep ==> c !in r
    ensures forall d :: d !in s && d !in rep ==> d !in r
  {
    if s == [] then []
    else (if s[0] == c then rep else [s[0]]) + ReplaceChar(s[1..], c, rep)
  }

  lemma {:induction false} ReplaceCharAppend(a: string, b: string, c: char, rep: string)
    ensures ReplaceChar(a + b, c, rep) == ReplaceChar(a, c, rep) + ReplaceChar(b, c, rep)
  {
    if a == [] {
      assert a + b == b;
    } else {
      assert (a + b)[0] == a[0] && (a + b)[1..] == a[1..] + b;
      ReplaceCharAppend(a[1..], b, c, rep);
    }
  }
}
