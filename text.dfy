/**
 * The few JavaScript string primitives the core relies on, written out over
 * `seq<char>`: `String.prototype.trim`, the regular-expression class `\s`,
 * `Array.prototype.join`, `Number.prototype.toString` on integers and
 * `parseInt` with its default radix.
 */
module Text {
  import opened Wrappers

  /** The white space and line terminators that both `trim` and `\s` recognise. */
  predicate IsWhitespace(c: char) {
    || c == ' ' || c == '\t' || c == '\n' || c == '\r' || c == '\U{B}' || c == '\U{C}'
    || c == '\U{A0}' || c == '\U{1680}' || ('\U{2000}' <= c <= '\U{200A}')
    || c == '\U{2028}' || c == '\U{2029}' || c == '\U{202F}' || c == '\U{205F}'
    || c == '\U{3000}' || c == '\U{FEFF}'
  }

  /** Every character is white space (the empty string included). */
  predicate IsBlank(s: string) {
    forall i :: 0 <= i < |s| ==> IsWhitespace(s[i])
  }

  /** The first index at or after `i` that is not white space (or `|s|`). */
  function SkipWhitespace(s: string, i: nat): (j: nat)
    requires i <= |s|
    ensures i <= j <= |s|
    ensures forall k :: i <= k < j ==> IsWhitespace(s[k])
    ensures j == |s| || !IsWhitespace(s[j])
    decreases |s| - i
  {
    if i < |s| && IsWhitespace(s[i]) then SkipWhitespace(s, i + 1) else i
  }

  /** The index just past the last character before `j` that is not white
      space (or 0). */
  function SkipTrailingWhitespace(s: string, j: nat): (i: nat)
    requires j <= |s|
    ensures i <= j
    ensures forall k :: i <= k < j ==> IsWhitespace(s[k])
    ensures i == 0 || !IsWhitespace(s[i - 1])
  {
    if j > 0 && IsWhitespace(s[j - 1]) then SkipTrailingWhitespace(s, j - 1) else j
  }

  /** Drops the leading white space. */
  function TrimStart(s: string): (r: string)
    ensures |r| <= |s| && r == s[|s| - |r|..]
    ensures IsBlank(s[..|s| - |r|])
    ensures r == [] || !IsWhitespace(r[0])
  {
    var n := SkipWhitespace(s, 0);
    assert forall k :: 0 <= k < n ==> s[..n][k] == s[k];
    s[n..]
  }

  /** Drops the trailing white space. */
  function TrimEnd(s: string): (r: string)
    ensures |r| <= |s| && r == s[..|r|]
    ensures IsBlank(s[|r|..])
    ensures r == [] || !IsWhitespace(r[|r| - 1])
  {
    var n := SkipTrailingWhitespace(s, |s|);
    assert forall k :: 0 <= k < |s| - n ==> s[n..][k] == s[n + k];
    s[..n]
  }

  /** `s.trim()`. The result is empty exactly when `s` is blank, and
      otherwise starts and ends with a character that is not white space. */
  function Trim(s: string): (r: string)
    ensures |r| <= |s|
    ensures r == [] <==> IsBlank(s)
    ensures r == [] || (!IsWhitespace(r[0]) && !IsWhitespace(r[|r| - 1]))
  {
    var t := TrimStart(s);
    var r := TrimEnd(t);
    assert r == [] ==> IsBlank(t) by {
      if r == [] { assert t[|r|..] == t; }
    }
    assert IsBlank(s) ==> t == [];
    assert IsBlank(t) ==> IsBlank(s) by {
      if IsBlank(t) {
        assert t == [];
        assert s[..|s| - |t|] == s;
      }
    }
    r
  }

  /** `s.trim()` is `s` with its leading and trailing white space removed: a
      slice of `s` with only white space on either side of it. */
  lemma TrimCutsOnlyWhitespace(s: string)
    ensures exists a, b :: 0 <= a <= b <= |s| && Trim(s) == s[a..b] && IsBlank(s[..a]) && IsBlank(s[b..])
  {
    var t := TrimStart(s);
    var r := TrimEnd(t);
    var a := |s| - |t|;
    SplitSuffix(s, a, |r|);
    assert Trim(s) == s[a..a + |r|];
  }

  /** Cutting the suffix `s[a..]` at `m` cuts `s` at `a + m`. */
  lemma SplitSuffix(s: string, a: nat, m: nat)
    requires a + m <= |s|
    ensures s[a..][..m] == s[a..a + m] && s[a..][m..] == s[a + m..]
  {
  }

  /** `Array.prototype.join(sep)` on a list of strings. */
  function Join(parts: seq<string>, sep: string): string
  {
    if |parts| == 0 then ""
    else if |parts| == 1 then parts[0]
    else parts[0] + sep + Join(parts[1..], sep)
  }

  predicate IsDigit(c: char) {
    '0' <= c <= '9'
  }

  function DigitChar(d: nat): (c: char)
    requires d < 10
    ensures IsDigit(c)
  {
    ('0' as int + d) as char
  }

  function DigitValue(c: char): (d: nat)
    requires IsDigit(c)
    ensures d < 10 && DigitChar(d) == c
  {
    c as int - '0' as int
  }

  predicate AllDigits(s: string) {
    forall i :: 0 <= i < |s| ==> IsDigit(s[i])
  }

  /** The value of a string of decimal digits, most significant first. */
  function DigitsValue(ds: string): nat
    requires AllDigits(ds)
  {
    if ds == [] then 0 else DigitsValue(ds[..|ds| - 1]) * 10 + DigitValue(ds[|ds| - 1])
  }

  /** The decimal text of a natural number, with no leading zeros. */
  function NatToString(n: nat): (r: string)
    ensures |r| > 0 && AllDigits(r)
    ensures |r| > 1 ==> r[0] != '0'
  {
    if n < 10 then [DigitChar(n)] else NatToString(n / 10) + [DigitChar(n % 10)]
  }

  /** `String(n)` for an integer `n`. */
  function IntToString(n: int): (r: string)
    ensures |r| > 0
  {
    if n < 0 then "-" + NatToString(-n) else NatToString(n)
  }

  /** The longest prefix made only of decimal digits. */
  function LeadingDigits(s: string): (r: string)
    ensures |r| <= |s| && r == s[..|r|] && AllDigits(r)
    ensures |r| == |s| || !IsDigit(s[|r|])
  {
    if |s| > 0 && IsDigit(s[0]) then [s[0]] + LeadingDigits(s[1..]) else []
  }

  /** `parseInt(s)` with the default radix: leading white space is skipped, one
      optional sign is read, then the longest run of decimal digits; `None`
      stands for `NaN`, when there is no digit to read. */
  function ParseInt(s: string): Option<int>
  {
    var t := TrimStart(s);
    var negative := |t| > 0 && t[0] == '-';
    var body := if |t| > 0 && (t[0] == '-' || t[0] == '+') then t[1..] else t;
    var ds := LeadingDigits(body);
    var magnitude: int := if ds == [] then 0 else DigitsValue(ds);
    if ds == [] then None
    else if negative then Some(-magnitude)
    else Some(magnitude)
  }

  lemma {:induction false} NatToStringValue(n: nat)
    ensures DigitsValue(NatToString(n)) == n
  {
    var s := NatToString(n);
    if n >= 10 {
      NatToStringValue(n / 10);
      assert s[..|s| - 1] == NatToString(n / 10);
    }
  }

  lemma {:induction false} LeadingDigitsOfDigits(s: string)
    requires AllDigits(s)
    ensures LeadingDigits(s) == s
  {
    if |s| > 0 {
      LeadingDigitsOfDigits(s[1..]);
    }
  }

  /** A text that does not start with white space is its own `trimStart`. */
  lemma TrimStartOfUnpadded(s: string)
    requires |s| > 0 && !IsWhitespace(s[0])
    ensures TrimStart(s) == s
  {
    assert SkipWhitespace(s, 0) == 0;
    assert s[0..] == s;
  }

  lemma DigitOrSignNotWhitespace(c: char)
    requires IsDigit(c) || c == '-'
    ensures !IsWhitespace(c)
  {
  }

  /** `parseInt` of a text with no leading white space and no sign reads its
      leading digits. */
  lemma ParseIntOfUnsigned(s: string)
    requires |s| > 0 && !IsWhitespace(s[0]) && s[0] != '-' && s[0] != '+'
    ensures ParseInt(s) == if LeadingDigits(s) == [] then None else Some(DigitsValue(LeadingDigits(s)))
  {
    TrimStartOfUnpadded(s);
  }

  /** A text that starts with a digit parses as the value of its leading digits. */
  lemma ParseIntOfDigitPrefix(s: string)
    requires |s| > 0 && IsDigit(s[0])
    ensures LeadingDigits(s) != [] && ParseInt(s) == Some(DigitsValue(LeadingDigits(s)))
  {
    DigitOrSignNotWhitespace(s[0]);
    ParseIntOfUnsigned(s);
    assert LeadingDigits(s) == [s[0]] + LeadingDigits(s[1..]);
  }

  /** `parseInt` reads back what `String` writes for every integer. */
  lemma ParseIntOfIntToString(n: int)
    ensures ParseInt(IntToString(n)) == Some(n)
  {
    var m: nat := if n < 0 then -n else n;
    var digits := NatToString(m);
    NatToStringValue(m);
    LeadingDigitsOfDigits(digits);
    var s := IntToString(n);
    DigitOrSignNotWhitespace(s[0]);
    TrimStartOfUnpadded(s);
    if n < 0 {
      assert s[1..] == digits;
    } else {
      assert s[0] != '-' && s[0] != '+';
    }
  }

  /** Different integers have different decimal texts. */
  lemma IntToStringInjective(m: int, n: int)
    ensures IntToString(m) == IntToString(n) <==> m == n
  {
    ParseIntOfIntToString(m);
    ParseIntOfIntToString(n);
  }

  /** The four digits of a number below 10000, as written out. */
  function FourDigits(n: nat): string
    requires n < 10000
  {
    [DigitChar(n / 1000), DigitChar(n / 100 % 10), DigitChar(n / 10 % 10), DigitChar(n % 10)]
  }

  /** The decimal text of a four-digit number is its four digits. */
  lemma FourDigitText(n: nat)
    requires 1000 <= n < 10000
    ensures IntToString(n) == FourDigits(n)
  {
    assert NatToString(n / 100) == NatToString(n / 1000) + [DigitChar(n / 100 % 10)];
    assert NatToString(n / 10) == NatToString(n / 100) + [DigitChar(n / 10 % 10)];
  }
}
