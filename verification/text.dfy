/** String helpers used across the client and the server: whitespace trimming,
    substring search, decimal rendering of ids and `parseInt`, and a code-point
    order standing for the order `sort` and `localeCompare` put strings in. */
module Text {
  import opened Wrappers

  /** The characters JavaScript's `String.prototype.trim` removes: the white space and line
      terminators of ECMAScript, that is tab, vertical tab, form feed, space, no-break space,
      the byte order mark, the Unicode space separators, and the four line terminators. */
  predicate IsSpace(c: char) {
    c == ' ' || c == '\t' || c == '\n' || c == '\r' || c == '\U{000B}' || c == '\U{000C}'
    || c == '\U{00A0}' || c == '\U{FEFF}' || c == '\U{2028}' || c == '\U{2029}'
    || c == '\U{1680}' || ('\U{2000}' <= c <= '\U{200A}') || c == '\U{202F}' || c == '\U{205F}'
    || c == '\U{3000}'
  }

  predicate IsBlank(s: string) {
    forall i :: 0 <= i < |s| ==> IsSpace(s[i])
  }

  /** `s` without its leading whitespace. */
  function TrimStart(s: string): (r: string)
    ensures |r| <= |s| && r == s[|s| - |r|..]
    ensures r == [] || !IsSpace(r[0])
    ensures forall i :: 0 <= i < |s| - |r| ==> IsSpace(s[i])
  {
    if s != [] && IsSpace(s[0]) then
      var r := TrimStart(s[1..]);
      assert forall i :: 1 <= i < |s| - |r| ==> s[i] == s[1..][i - 1];
      r
    else s
  }

  /** `s` without its trailing whitespace. */
  function TrimEnd(s: string): (r: string)
    ensures |r| <= |s| && r == s[..|r|]
    ensures r == [] || !IsSpace(r[|r| - 1])
    ensures forall i :: |r| <= i < |s| ==> IsSpace(s[i])
  {
    if s != [] && IsSpace(s[|s| - 1]) then
      var r := TrimEnd(s[..|s| - 1]);
      assert forall i :: |r| <= i < |s| - 1 ==> s[i] == s[..|s| - 1][i];
      r
    else s
  }

  /** `String.prototype.trim`: the longest slice of `s` that neither starts nor ends with whitespace,
      empty exactly when `s` is blank. */
  function Trim(s: string): (r: string)
    ensures r == [] || (!IsSpace(r[0]) && !IsSpace(r[|r| - 1]))
    ensures exists i :: OccursAt(s, r, i)
    ensures r == [] <==> IsBlank(s)
  {
    var t := TrimStart(s);
    var r := TrimEnd(t);
    assert r == s[|s| - |t|..|s| - |t| + |r|];
    assert OccursAt(s, r, |s| - |t|);
    if r == [] then
      assert t == [];
      r
    else
      assert !IsSpace(t[0]);
      r
  }

  /** `a` occurs in `s` starting at position `i`. */
  predicate OccursAt(s: string, a: string, i: int) {
    0 <= i && i + |a| <= |s| && s[i..i + |a|] == a
  }

  /** `String.prototype.includes`. */
  predicate Contains(s: string, a: string) {
    exists i :: 0 <= i <= |s| - |a| && OccursAt(s, a, i)
  }

  predicate IsDigit(c: char) { '0' <= c <= '9' }

  function DigitValue(c: char): nat requires IsDigit(c) { (c as int - '0' as int) as nat }

  function DigitChar(d: nat): (c: char)
    requires d < 10
    ensures IsDigit(c) && DigitValue(c) == d
  {
    ('0' as int + d) as char
  }

  /** The decimal rendering of a non-negative id, as `${id}` produces it. */
  function IdText(n: nat): (r: string)
    ensures |r| >= 1
    ensures forall i :: 0 <= i < |r| ==> IsDigit(r[i])
    decreases n
  {
    if n < 10 then [DigitChar(n)] else IdText(n / 10) + [DigitChar(n % 10)]
  }

  /** The longest prefix of `s` made of decimal digits. */
  function DigitPrefix(s: string): (r: string)
    ensures |r| <= |s| && r == s[..|r|]
    ensures forall i :: 0 <= i < |r| ==> IsDigit(r[i])
    ensures |r| < |s| ==> !IsDigit(s[|r|])
  {
    if s == [] || !IsDigit(s[0]) then [] else [s[0]] + DigitPrefix(s[1..])
  }

  /** The number a string of decimal digits denotes. */
  function DecimalValue(ds: string): nat
    requires forall i :: 0 <= i < |ds| ==> IsDigit(ds[i])
  {
    if ds == [] then 0 else DecimalValue(ds[..|ds| - 1]) * 10 + DigitValue(ds[|ds| - 1])
  }

  /** JavaScript's `parseInt(s)` in base 10: leading whitespace and one sign are skipped and the
      longest run of digits that follows is read; `None` stands for `NaN`. The `0x` prefix that
      `parseInt` without a radix reads as hexadecimal is not modelled: `"0x1A"` reads as 0. */
  function ParseInt(s: string): (r: Option<int>)
    ensures r.None? <==> DigitPrefix(SkipSign(TrimStart(s))) == []
  {
    var u := SkipSign(TrimStart(s));
    var ds := DigitPrefix(u);
    if ds == [] then None
    else if TrimStart(s) != [] && TrimStart(s)[0] == '-' then Some(-(DecimalValue(ds) as int))
    else Some(DecimalValue(ds))
  }

  function SkipSign(s: string): string {
    if s != [] && (s[0] == '-' || s[0] == '+') then s[1..] else s
  }

  lemma {:induction false} DigitPrefixOfDigits(s: string)
    requires forall i :: 0 <= i < |s| ==> IsDigit(s[i])
    ensures DigitPrefix(s) == s
  {
    if s != [] { DigitPrefixOfDigits(s[1..]); }
  }

  lemma {:induction false} DecimalValueOfIdText(n: nat)
    ensures DecimalValue(IdText(n)) == n
    decreases n
  {
    if n >= 10 {
      DecimalValueOfIdText(n / 10);
      var r := IdText(n);
      assert r[..|r| - 1] == IdText(n / 10);
    }
  }

  /** Reading back the rendering of an id gives the id: the `value={id}` of a select option
      and the `parseInt` of that value agree. */
  lemma ParseIntIdText(n: nat)
    ensures ParseInt(IdText(n)) == Some(n)
  {
    var s := IdText(n);
    assert TrimStart(s) == s by { assert !IsSpace(s[0]); }
    assert SkipSign(s) == s by { assert IsDigit(s[0]); }
    DigitPrefixOfDigits(s);
    DecimalValueOfIdText(n);
  }

  /** A minus sign before the rendering of a positive number reads back as its negation. */
  lemma ParseIntNegIdText(n: nat)
    ensures ParseInt("-" + IdText(n)) == Some(-(n as int))
  {
    var ds := IdText(n);
    var s := "-" + ds;
    assert s[0] == '-' && s[1..] == ds;
    TrimStartNoSpace(s);
    assert SkipSign(TrimStart(s)) == ds;
    DigitPrefixOfDigits(ds);
    DecimalValueOfIdText(n);
    assert DigitPrefix(ds) == ds && ds != [] && DecimalValue(ds) == n;
    assert TrimStart(s)[0] == '-';
  }

  lemma TrimStartNoSpace(s: string)
    requires s != [] && !IsSpace(s[0])
    ensures TrimStart(s) == s
  {
  }

  /** Distinct ids have distinct renderings. */
  lemma IdTextInjective(m: nat, n: nat)
    ensures IdText(m) == IdText(n) <==> m == n
  {
    ParseIntIdText(m);
    ParseIntIdText(n);
  }

  /** Lexicographic order on Unicode code points. It agrees with the UTF-16 code-unit order that
      `Array.prototype.sort` uses by default when no character lies above U+FFFF. */
  predicate LessEq(a: string, b: string)
    decreases |a|
  {
    if a == [] then true
    else if b == [] then false
    else if a[0] != b[0] then a[0] < b[0]
    else LessEq(a[1..], b[1..])
  }

  predicate Less(a: string, b: string) { LessEq(a, b) && a != b }

  lemma {:induction false} LessEqTotal(a: string, b: string)
    ensures LessEq(a, b) || LessEq(b, a)
    decreases |a|
  {
    if a != [] && b != [] && a[0] == b[0] { LessEqTotal(a[1..], b[1..]); }
  }

  lemma {:induction false} LessEqAntisymmetric(a: string, b: string)
    requires LessEq(a, b) && LessEq(b, a)
    ensures a == b
    decreases |a|
  {
    if a != [] && b != [] {
      LessEqAntisymmetric(a[1..], b[1..]);
      assert a == [a[0]] + a[1..] && b == [b[0]] + b[1..];
    }
  }

  lemma {:induction false} LessEqTransitive(a: string, b: string, c: string)
    requires LessEq(a, b) && LessEq(b, c)
    ensures LessEq(a, c)
    decreases |a|
  {
    if a != [] && b != [] && c != [] && a[0] == b[0] && b[0] == c[0] {
      LessEqTransitive(a[1..], b[1..], c[1..]);
    }
  }
}
