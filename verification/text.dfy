/** The pieces of java.lang.String this model relies on, restricted to what the
    dashboard does with them: trim, ASCII case mapping, equalsIgnoreCase and
    decimal rendering of an int. */
module Text {
  import opened Common

  /** Java's trim treats every character up to U+0020 as removable. */
  predicate IsTrimmable(c: char) {
    c <= ' '
  }

  /** Every character of s is removed by trim. */
  predicate IsBlank(s: string) {
    forall i :: 0 <= i < |s| ==> IsTrimmable(s[i])
  }

  /** Drops the leading trimmable characters. */
  function TrimStart(s: string): (r: string)
    ensures |r| <= |s| && r == s[|s| - |r|..]
    ensures IsBlank(s[..|s| - |r|])
    ensures r == [] || !IsTrimmable(r[0])
    decreases |s|
  {
    if |s| > 0 && IsTrimmable(s[0]) then
      var r := TrimStart(s[1..]);
      assert s[..|s| - |r|] == [s[0]] + s[1..][..|s| - 1 - |r|];
      r
    else
      s
  }

  /** Drops the trailing trimmable characters. */
  function TrimEnd(s: string): (r: string)
    ensures |r| <= |s| && r == s[..|r|]
    ensures IsBlank(s[|r|..])
    ensures r == [] || !IsTrimmable(r[|r| - 1])
    decreases |s|
  {
    if |s| > 0 && IsTrimmable(s[|s| - 1]) then
      var r := TrimEnd(s[..|s| - 1]);
      assert s[|r|..] == s[..|s| - 1][|r|..] + [s[|s| - 1]];
      r
    else
      s
  }

  /** Java's String.trim. */
  function Trim(s: string): string {
    TrimEnd(TrimStart(s))
  }

  lemma TrimStartEmptyIffBlank(s: string)
    ensures TrimStart(s) == [] <==> IsBlank(s)
  {
    var t := TrimStart(s);
    if t != [] {
      assert t[0] == s[|s| - |t|];
    } else {
      assert s[..|s|] == s;
    }
  }

  /** trim yields the empty string exactly when every character is trimmable;
      otherwise it keeps a slice of s with a non-trimmable character at both ends. */
  lemma TrimEmptyIffBlank(s: string)
    ensures Trim(s) == [] <==> IsBlank(s)
    ensures Trim(s) != [] ==> !IsTrimmable(Trim(s)[0]) && !IsTrimmable(Trim(s)[|Trim(s)| - 1])
    ensures exists a, b :: 0 <= a <= b <= |s| && Trim(s) == s[a..b]
  {
    var t := TrimStart(s);
    var r := TrimEnd(t);
    TrimStartEmptyIffBlank(s);
    if t != [] {
      assert r != [];
      assert r[0] == t[0];
    }
    var a := |s| - |t|;
    assert t == s[a..];
    assert r == t[..|r|];
    assert r == s[a..a + |r|];
  }

  /** Java's `s == null || s.trim().isEmpty()` on a nullable string. */
  predicate IsNullOrBlank(s: Option<string>) {
    s.None? || Trim(s.value) == []
  }

  /** Character.toUpperCase restricted to ASCII letters. */
  function ToUpper(c: char): char {
    if 'a' <= c <= 'z' then (c as int - 32) as char else c
  }

  /** Character.toLowerCase restricted to ASCII letters. */
  function ToLower(c: char): char {
    if 'A' <= c <= 'Z' then (c as int + 32) as char else c
  }

  function UpperString(s: string): (r: string)
    ensures |r| == |s|
  {
    seq(|s|, i requires 0 <= i < |s| => ToUpper(s[i]))
  }

  function LowerString(s: string): (r: string)
    ensures |r| == |s|
  {
    seq(|s|, i requires 0 <= i < |s| => ToLower(s[i]))
  }

  /** The per-character test of String.regionMatches with ignoreCase set. */
  predicate CharEqualsIgnoreCase(c1: char, c2: char) {
    || c1 == c2
    || ToUpper(c1) == ToUpper(c2)
    || ToLower(ToUpper(c1)) == ToLower(ToUpper(c2))
  }

  /** String.equalsIgnoreCase on a non-null argument. */
  predicate EqualsIgnoreCase(a: string, b: string) {
    |a| == |b| && forall i :: 0 <= i < |a| ==> CharEqualsIgnoreCase(a[i], b[i])
  }

  /** Under ASCII case mapping the three-way character test of
      equalsIgnoreCase is plain equality of the upper-cased characters. */
  lemma CharEqualsIgnoreCaseIsUpperEquality(c1: char, c2: char)
    ensures CharEqualsIgnoreCase(c1, c2) <==> ToUpper(c1) == ToUpper(c2)
  {
    var u1, u2 := ToUpper(c1), ToUpper(c2);
    if ToLower(u1) == ToLower(u2) {
      assert !('a' <= u1 <= 'z') && !('a' <= u2 <= 'z');
      if 'A' <= u1 <= 'Z' {
        assert 'A' <= u2 <= 'Z';
      } else {
        assert !('A' <= u2 <= 'Z');
      }
    }
  }

  /** equalsIgnoreCase holds exactly when both strings upper-case to the same string. */
  lemma EqualsIgnoreCaseIsUpperEquality(a: string, b: string)
    ensures EqualsIgnoreCase(a, b) <==> UpperString(a) == UpperString(b)
  {
    forall i | 0 <= i < |a| && i < |b| {
      CharEqualsIgnoreCaseIsUpperEquality(a[i], b[i]);
    }
    if UpperString(a) == UpperString(b) {
      forall i | 0 <= i < |a| ensures CharEqualsIgnoreCase(a[i], b[i]) {
        assert UpperString(a)[i] == UpperString(b)[i];
      }
    }
  }

  /** The digit character of a value below ten. */
  function DigitChar(d: int): (c: char)
    requires 0 <= d < 10
    ensures '0' <= c <= '9'
  {
    ('0' as int + d) as char
  }

  predicate IsDigits(s: string) {
    forall i :: 0 <= i < |s| ==> '0' <= s[i] <= '9'
  }

  /** Integer.toString of a non-negative value: the shortest decimal numeral. */
  function DecimalString(n: nat): (r: string)
    ensures |r| >= 1 && IsDigits(r)
    ensures r[0] == '0' ==> n == 0
  {
    if n < 10 then [DigitChar(n)] else DecimalString(n / 10) + [DigitChar(n % 10)]
  }

  /** Reads a decimal numeral back; the independent partner of DecimalString. */
  function ParseDecimal(s: string): nat
    requires IsDigits(s)
  {
    if |s| == 0 then 0 else ParseDecimal(s[..|s| - 1]) * 10 + (s[|s| - 1] as int - '0' as int)
  }

  lemma {:induction false} DecimalRoundTrip(n: nat)
    ensures ParseDecimal(DecimalString(n)) == n
  {
    if n >= 10 {
      var s := DecimalString(n);
      assert s[..|s| - 1] == DecimalString(n / 10);
      DecimalRoundTrip(n / 10);
    }
  }

  /** Integer.toString, as used by string concatenation with an int. */
  function IntString(i: int): (r: string)
    ensures |r| >= 1
    ensures i < 0 ==> r[0] == '-'
    ensures i >= 0 <==> IsDigits(r)
  {
    if i < 0 then "-" + DecimalString(-i) else DecimalString(i)
  }
}
