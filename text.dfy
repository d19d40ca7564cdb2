/**
 * Character and string helpers. Strings are `seq<char>` and every case-folding
 * or whitespace test is the ASCII one (Java and Python agree on ASCII).
 */
module Text {
  /** Java `Character.isWhitespace` / Python `str.isspace` on ASCII. */
  predicate IsSpace(c: char) {
    c == ' ' || c == '\t' || c == '\n' || c == '\r' || c == '\U{B}' || c == '\U{C}'
    || ('\U{1C}' <= c <= '\U{1F}')
  }

  predicate IsUpper(c: char) { 'A' <= c <= 'Z' }
  predicate IsLowerLetter(c: char) { 'a' <= c <= 'z' }
  predicate IsLetter(c: char) { IsUpper(c) || IsLowerLetter(c) }
  predicate IsDigit(c: char) { '0' <= c <= '9' }

  function LowerChar(c: char): (r: char)
    ensures !IsUpper(r)
    ensures IsUpper(c) || r == c
  {
    if IsUpper(c) then (c as int + 32) as char else c
  }

  function UpperChar(c: char): (r: char)
    ensures !IsLowerLetter(r)
    ensures IsLowerLetter(c) || r == c
  {
    if IsLowerLetter(c) then (c as int - 32) as char else c
  }

  /** `toLowerCase()` / `lower()`. */
  function Lower(s: string): (r: string)
    ensures |r| == |s|
    ensures forall i :: 0 <= i < |s| ==> r[i] == LowerChar(s[i])
  {
    if s == [] then [] else [LowerChar(s[0])] + Lower(s[1..])
  }

  function Upper(s: string): (r: string)
    ensures |r| == |s|
    ensures forall i :: 0 <= i < |s| ==> r[i] == UpperChar(s[i])
  {
    if s == [] then [] else [UpperChar(s[0])] + Upper(s[1..])
  }

  lemma LowerIdempotent(s: string)
    ensures Lower(Lower(s)) == Lower(s)
  {
  }

  /** Java `equalsIgnoreCase`. */
  predicate EqualsIgnoreCase(a: string, b: string) {
    Lower(a) == Lower(b)
  }

  /** Java `isBlank` / Python `not s.strip()`: every character is whitespace. */
  predicate IsBlank(s: string) {
    forall i :: 0 <= i < |s| ==> IsSpace(s[i])
  }

  predicate StartsWith(s: string, p: string) {
    |p| <= |s| && s[..|p|] == p
  }

  predicate EndsWith(s: string, p: string) {
    |p| <= |s| && s[|s| - |p|..] == p
  }

  /** `s.contains(p)` / `p in s`. */
  predicate Contains(s: string, p: string) {
    exists i :: 0 <= i <= |s| - |p| && OccursAt(s, p, i)
  }

  predicate OccursAt(s: string, p: string, i: int) {
    0 <= i <= |s| - |p| && s[i..i + |p|] == p
  }

  /** Drops leading characters satisfying the whitespace test. */
  function StripLeft(s: string): (r: string)
    ensures |r| <= |s| && r == s[|s| - |r|..]
    ensures r == [] || !IsSpace(r[0])
    ensures IsBlank(s[..|s| - |r|])
    ensures IsBlank(s) <==> r == []
  {
    if s == [] || !IsSpace(s[0]) then s
    else
      var t := StripLeft(s[1..]);
      assert s[1..][|s| - 1 - |t|..] == s[|s| - |t|..];
      BlankCons(s, |s| - |t|);
      assert IsBlank(s) ==> IsBlank(s[1..]);
      assert t == [] ==> s[..|s| - |t|] == s;
      t
  }

  lemma BlankCons(s: string, n: nat)
    requires 1 <= n <= |s| && IsSpace(s[0]) && IsBlank(s[1..][..n - 1])
    ensures IsBlank(s[..n])
  {
    forall k | 1 <= k < n ensures IsSpace(s[..n][k]) {
      assert s[..n][k] == s[1..][..n - 1][k - 1];
    }
  }

  function StripRight(s: string): (r: string)
    ensures |r| <= |s| && r == s[..|r|]
    ensures r == [] || !IsSpace(r[|r| - 1])
    ensures IsBlank(s[|r|..])
    ensures IsBlank(s) <==> r == []
  {
    if s == [] || !IsSpace(s[|s| - 1]) then s
    else
      var init := s[..|s| - 1];
      var t := StripRight(init);
      assert init[..|t|] == s[..|t|];
      assert s[|t|..] == init[|t|..] + [s[|s| - 1]];
      BlankSnoc(init[|t|..], s[|s| - 1]);
      assert s == init + [s[|s| - 1]];
      BlankSnoc(init, s[|s| - 1]);
      t
  }

  lemma BlankSnoc(a: string, c: char)
    requires IsSpace(c)
    ensures IsBlank(a + [c]) <==> IsBlank(a)
  {
    assert forall k :: 0 <= k < |a| ==> (a + [c])[k] == a[k];
  }

  /** Python `str.strip()` and Java `String.strip()` on ASCII. */
  function Strip(s: string): (r: string)
    ensures r == [] || (!IsSpace(r[0]) && !IsSpace(r[|r| - 1]))
    ensures IsBlank(s) <==> r == []
    ensures |r| <= |s|
    ensures StrippedAt(s, r, |s| - |StripLeft(s)|)
  {
    var l := StripLeft(s);
    var r := StripRight(l);
    StripFacts(s, l, r);
    r
  }

  /** Stripping the left end and then the right leaves a text framed by whitespace. */
  lemma StripFacts(s: string, l: string, r: string)
    requires |l| <= |s| && l == s[|s| - |l|..] && (l == [] || !IsSpace(l[0]))
    requires IsBlank(s[..|s| - |l|]) && (IsBlank(s) <==> l == [])
    requires |r| <= |l| && r == l[..|r|] && (r == [] || !IsSpace(r[|r| - 1]))
    requires IsBlank(l[|r|..]) && (IsBlank(l) <==> r == [])
    ensures r == [] || (!IsSpace(r[0]) && !IsSpace(r[|r| - 1]))
    ensures IsBlank(s) <==> r == []
    ensures StrippedAt(s, r, |s| - |l|)
  {
    BlankStart(l);
    StrippedParts(s, l, r, |s| - |l|);
    if r != [] {
      assert r[0] == l[0];
    }
  }

  /** `r` sits at position `i` of `s` with only whitespace before and after it. */
  predicate StrippedAt(s: string, r: string, i: int) {
    0 <= i <= |s| - |r| && s[i..i + |r|] == r && IsBlank(s[..i]) && IsBlank(s[i + |r|..])
  }

  /** `r` is `s` with some whitespace removed at each end and nothing else. */
  ghost predicate StrippedFrom(s: string, r: string) {
    exists i :: StrippedAt(s, r, i)
  }

  lemma StrippedParts(s: string, l: string, r: string, i: nat)
    requires i <= |s| && l == s[i..] && IsBlank(s[..i])
    requires |r| <= |l| && r == l[..|r|] && IsBlank(l[|r|..])
    ensures StrippedAt(s, r, i)
  {
    assert s[i..i + |r|] == l[..|r|];
    assert s[i + |r|..] == l[|r|..];
  }

  /** The stripped text is the only one with whitespace around it and none at its ends. */
  lemma StrippedUnique(s: string, r: string, i: int)
    requires StrippedAt(s, r, i)
    requires r == [] || (!IsSpace(r[0]) && !IsSpace(r[|r| - 1]))
    ensures r == Strip(s)
  {
    StrippedTwice(s, r, i, Strip(s), |s| - |StripLeft(s)|);
  }

  lemma StrippedTwice(s: string, r: string, i: int, t: string, j: int)
    requires StrippedAt(s, r, i) && StrippedAt(s, t, j)
    requires r == [] || (!IsSpace(r[0]) && !IsSpace(r[|r| - 1]))
    requires t == [] || (!IsSpace(t[0]) && !IsSpace(t[|t| - 1]))
    ensures r == t
  {
    SpaceAround(s, r, i);
    SpaceAround(s, t, j);
    SpaceFramedUnique(s, r, i, t, j);
  }

  lemma SpaceFramedUnique(s: string, r: string, i: int, t: string, j: int)
    requires 0 <= i <= |s| - |r| && s[i..i + |r|] == r
    requires 0 <= j <= |s| - |t| && s[j..j + |t|] == t
    requires forall k :: 0 <= k < i ==> IsSpace(s[k])
    requires forall k :: i + |r| <= k < |s| ==> IsSpace(s[k])
    requires forall k :: 0 <= k < j ==> IsSpace(s[k])
    requires forall k :: j + |t| <= k < |s| ==> IsSpace(s[k])
    requires r == [] || (!IsSpace(r[0]) && !IsSpace(r[|r| - 1]))
    requires t == [] || (!IsSpace(t[0]) && !IsSpace(t[|t| - 1]))
    ensures r == t
  {
    if r != [] {
      assert s[i] == r[0] && s[i + |r| - 1] == r[|r| - 1];
    }
    if t != [] {
      assert s[j] == t[0] && s[j + |t| - 1] == t[|t| - 1];
    }
  }

  /** The whitespace around a stripped-at text, character by character. */
  lemma SpaceAround(s: string, r: string, i: int)
    requires StrippedAt(s, r, i)
    ensures forall k :: 0 <= k < i ==> IsSpace(s[k])
    ensures forall k :: i + |r| <= k < |s| ==> IsSpace(s[k])
  {
    forall k | 0 <= k < i ensures IsSpace(s[k]) {
      assert s[..i][k] == s[k];
    }
    forall k | i + |r| <= k < |s| ensures IsSpace(s[k]) {
      assert s[i + |r|..][k - i - |r|] == s[k];
    }
  }

  /** A string that does not start with whitespace is blank only when empty. */
  lemma BlankStart(l: string)
    requires l == [] || !IsSpace(l[0])
    ensures IsBlank(l) <==> l == []
  {
  }

  /** Java `String.trim()`: removes leading and trailing characters <= U+0020. */
  predicate IsTrimmed(c: char) { c <= ' ' }

  /** How many leading characters `trim` drops. */
  function TrimStart(s: string): (n: nat)
    ensures n <= |s|
    ensures forall i :: 0 <= i < n ==> IsTrimmed(s[i])
    ensures n == |s| || !IsTrimmed(s[n])
  {
    if s == [] || !IsTrimmed(s[0]) then 0 else 1 + TrimStart(s[1..])
  }

  /** Where the characters `trim` drops at the end begin. */
  function TrimEnd(s: string): (n: nat)
    ensures n <= |s|
    ensures forall i :: n <= i < |s| ==> IsTrimmed(s[i])
    ensures n == 0 || !IsTrimmed(s[n - 1])
  {
    if s == [] || !IsTrimmed(s[|s| - 1]) then |s| else TrimEnd(s[..|s| - 1])
  }

  function Trim(s: string): (r: string)
    ensures |r| <= |s|
    ensures r == [] || (!IsTrimmed(r[0]) && !IsTrimmed(r[|r| - 1]))
  {
    var a, b := TrimStart(s), TrimEnd(s);
    if a < b then s[a..b] else []
  }

  /** Index of the first occurrence of `c`, or -1. */
  function IndexOf(s: string, c: char): (r: int)
    ensures -1 <= r < |s|
    ensures r == -1 <==> c !in s
    ensures r >= 0 ==> s[r] == c && c !in s[..r]
  {
    if s == [] then -1
    else if s[0] == c then 0
    else
      var k := IndexOf(s[1..], c);
      if k == -1 then -1 else k + 1
  }

  /** Decimal rendering of a natural number, as `String.valueOf` / `str` give it. */
  function NatToString(n: nat): (r: string)
    ensures |r| >= 1
    ensures forall i :: 0 <= i < |r| ==> IsDigit(r[i])
    decreases n
  {
    if n < 10 then [DigitChar(n)] else NatToString(n / 10) + [DigitChar(n % 10)]
  }

  function DigitChar(d: nat): (c: char)
    requires d < 10
    ensures IsDigit(c)
  {
    ('0' as int + d) as char
  }

  /** Decimal rendering of any integer: a leading '-' for negatives. */
  function IntToString(n: int): (r: string)
    ensures |r| >= 1
    ensures r[0] == '-' <==> n < 0
  {
    if n < 0 then "-" + NatToString(-n) else NatToString(n)
  }

  /** Reads back a non-empty digit string. */
  function DigitsValue(s: string): nat
    requires forall i :: 0 <= i < |s| ==> IsDigit(s[i])
  {
    if s == [] then 0
    else
      assert IsDigit(s[|s| - 1]);
      10 * DigitsValue(s[..|s| - 1]) + (s[|s| - 1] as int - '0' as int)
  }

  lemma {:induction false} NatToStringRoundTrip(n: nat)
    ensures DigitsValue(NatToString(n)) == n
    decreases n
  {
    if n >= 10 {
      NatToStringRoundTrip(n / 10);
      var s := NatToString(n);
      assert s[..|s| - 1] == NatToString(n / 10);
    }
  }

  lemma IntToStringInjective(a: int, b: int)
    requires IntToString(a) == IntToString(b)
    ensures a == b
  {
    if a < 0 {
      assert b < 0;
      assert NatToString(-a) == IntToString(a)[1..] == IntToString(b)[1..] == NatToString(-b);
      NatToStringRoundTrip(-a);
      NatToStringRoundTrip(-b);
    } else {
      assert b >= 0;
      assert NatToString(a) == NatToString(b);
      NatToStringRoundTrip(a);
      NatToStringRoundTrip(b);
    }
  }

  /** The text of an integer has no colon and is not blank. */
  lemma IntTextDigits(n: int)
    ensures ':' !in IntToString(n)
    ensures !IsBlank(IntToString(n))
  {
    var t := IntToString(n);
    var d := NatToString(if n < 0 then -n else n);
    if n < 0 {
      assert t == "-" + d;
    }
    assert !IsSpace(t[0]);
    forall k | 0 <= k < |t| ensures t[k] != ':' {
      if n < 0 && k > 0 {
        assert t[k] == d[k - 1];
      }
    }
  }
}
