/**
 * MerchantNormalizer: turns a raw merchant description from a bank
 * statement into a short title-cased name, or nothing.
 *
 * Each regular expression of the normaliser is written out as a function
 * on strings; `(?i)` is ASCII case-insensitivity, as Java applies it
 * without UNICODE_CASE.
 */
module Merchants {
  import opened Wrappers
  import opened Text

  /** The `\s` class of java.util.regex: space, tab, newline, VT, FF, CR. */
  predicate RegexSpace(c: char) {
    c == ' ' || c == '\t' || c == '\n' || c == '\U{B}' || c == '\U{C}' || c == '\r'
  }

  function SkipSpaces(s: string): (r: string)
    ensures |r| <= |s| && r == s[|s| - |r|..]
    ensures r == [] || !RegexSpace(r[0])
  {
    if s == [] || !RegexSpace(s[0]) then s else SkipSpaces(s[1..])
  }

  /**
   * `MULTI_SPACE.matcher(s).replaceAll(" ")`: every run of `\s` becomes one
   * space, so no `\s` other than ' ' survives and no two spaces are adjacent.
   */
  function Collapse(s: string): (r: string)
    ensures |r| <= |s|
    ensures r == [] <==> s == []
    ensures r != [] ==> (r[0] == ' ' <==> RegexSpace(s[0]))
    ensures forall i :: 0 <= i < |r| && RegexSpace(r[i]) ==> r[i] == ' '
    ensures NoDoubleSpace(r)
  {
    if s == [] then []
    else if RegexSpace(s[0]) then
      var t := SkipSpaces(s[1..]);
      [' '] + Collapse(t)
    else
      [s[0]] + Collapse(s[1..])
  }

  /** No two spaces side by side. */
  predicate NoDoubleSpace(s: string) {
    forall i :: 0 <= i < |s| - 1 ==> !(s[i] == ' ' && s[i + 1] == ' ')
  }

  /** The separators `[#*\n\r\t -]` that may precede a trailing number. */
  predicate IsSeparator(c: char) {
    c == '#' || c == '*' || c == '\n' || c == '\r' || c == '\t' || c == ' ' || c == '-'
  }

  /** The characters `.` does not match without DOTALL. */
  predicate IsLineTerminator(c: char) {
    c == '\n' || c == '\r' || c == '\U{85}' || c == '\U{2028}' || c == '\U{2029}'
  }

  /** Length of the run of digits at the end of `s`. */
  function TrailingDigits(s: string): (n: nat)
    ensures n <= |s|
    ensures forall i :: |s| - n <= i < |s| ==> IsDigit(s[i])
    ensures n == |s| || !IsDigit(s[|s| - n - 1])
  {
    if s == [] || !IsDigit(s[|s| - 1]) then 0 else TrailingDigits(s[..|s| - 1]) + 1
  }

  /** Length of the run of separators at the end of `s`. */
  function TrailingSeparators(s: string): (n: nat)
    ensures n <= |s|
    ensures forall i :: |s| - n <= i < |s| ==> IsSeparator(s[i])
    ensures n == |s| || !IsSeparator(s[|s| - n - 1])
  {
    if s == [] || !IsSeparator(s[|s| - 1]) then 0 else TrailingSeparators(s[..|s| - 1]) + 1
  }

  /**
   * `TRAILING_NUM`, `^(.*?)(?:[#*\n\r\t -]*[0-9]{2,}|[0-9]{4,})$`, with
   * `matches()`: the second alternative is covered by the first, and the lazy
   * group is the shortest prefix after which only separators and at least two
   * digits remain. The group is `None` when the pattern does not match.
   */
  function NumberPrefix(s: string): (g: Option<string>)
    ensures g.Some? ==> |g.value| <= |s| - 2 && g.value == s[..|g.value|]
    ensures g.Some? ==> forall i :: |g.value| <= i < |s| ==> IsSeparator(s[i]) || IsDigit(s[i])
  {
    var d := TrailingDigits(s);
    var k := |s| - d - TrailingSeparators(s[..|s| - d]);
    if d >= 2 && forall i :: 0 <= i < k ==> !IsLineTerminator(s[i]) then Some(s[..k]) else None
  }

  /** Drops a long numeric suffix when what remains, trimmed, is longer than three characters. */
  function DropNumber(s: string): string {
    match NumberPrefix(s)
    case Some(g) => if |Trim(g)| > 3 then Trim(g) else s
    case None => s
  }

  /** Does `w` (lower case) occur at the start of `s`, ignoring ASCII case? */
  predicate WordAtStart(s: string, w: string) {
    |w| <= |s| && Lower(s[..|w|]) == w
  }

  /** The first of `words` that starts `s`, ignoring case: its length. */
  function FirstWord(s: string, words: seq<string>): (n: Option<nat>)
    ensures n.Some? ==> exists w :: w in words && WordAtStart(s, w) && n.value == |w|
    ensures n.None? ==> forall w :: w in words ==> !WordAtStart(s, w)
  {
    if words == [] then None
    else if WordAtStart(s, words[0]) then Some(|words[0]|)
    else FirstWord(s, words[1..])
  }

  const Markers: seq<string> := ["pos", "atm", "online", "web", "purchase", "debit", "credit"]

  predicate IsMarkerSeparator(c: char) { c == ':' || c == ' ' || c == '-' }

  function MarkerSeparators(s: string): (n: nat)
    ensures n <= |s|
    ensures forall i :: 0 <= i < n ==> IsMarkerSeparator(s[i])
    ensures n == |s| || !IsMarkerSeparator(s[n])
  {
    if s == [] || !IsMarkerSeparator(s[0]) then 0 else MarkerSeparators(s[1..]) + 1
  }

  /** The first marker that starts `s` and is followed by at least one of `[: -]`. */
  function FirstMarker(s: string, words: seq<string>): (n: Option<nat>)
    ensures n.Some? ==> n.value < |s| && IsMarkerSeparator(s[n.value])
  {
    if words == [] then None
    else if WordAtStart(s, words[0]) && |words[0]| < |s| && IsMarkerSeparator(s[|words[0]|]) then Some(|words[0]|)
    else FirstMarker(s, words[1..])
  }

  /**
   * `replaceFirst("(?i)^(pos|atm|online|web|purchase|debit|credit)[: -]+", " ")`:
   * a leading marker and all the separators after it become one space.
   */
  function DropMarker(s: string): (r: string)
    ensures FirstMarker(s, Markers).None? ==> r == s
    ensures FirstMarker(s, Markers).Some? ==> 0 < |r| <= |s| && r[0] == ' ' && r[1..] == s[|s| - (|r| - 1)..]
  {
    match FirstMarker(s, Markers)
    case None => s
    case Some(n) => [' '] + s[n + MarkerSeparators(s[n..])..]
  }

  const CardWords: seq<string> := ["visa", "mastercard", "amex", "debit", "credit"]

  /** `CARD_SUFFIX.matcher(s).replaceAll("")`: every card word is removed, wherever it occurs. */
  function DropCardWords(s: string): (r: string)
    ensures |r| <= |s|
    decreases |s|
  {
    if s == [] then []
    else match FirstWord(s, CardWords)
      case Some(n) => if n == 0 then [s[0]] + DropCardWords(s[1..]) else DropCardWords(s[n..])
      case None => [s[0]] + DropCardWords(s[1..])
  }

  /** The characters SPECIALS keeps: `[A-Za-z0-9&'+ ]`. */
  predicate Allowed(c: char) {
    IsLetter(c) || IsDigit(c) || c == '&' || c == '\'' || c == '+' || c == ' '
  }

  predicate AllAllowed(s: string) {
    forall i :: 0 <= i < |s| ==> Allowed(s[i])
  }

  /** `SPECIALS.matcher(s).replaceAll(" ")`. */
  function KeepAllowed(s: string): (r: string)
    ensures |r| == |s| && AllAllowed(r)
    ensures forall i :: 0 <= i < |s| ==> r[i] == if Allowed(s[i]) then s[i] else ' '
  {
    if s == [] then [] else [if Allowed(s[0]) then s[0] else ' '] + KeepAllowed(s[1..])
  }

  /** A word character for `\b`; after SPECIALS only ASCII letters and digits are. */
  predicate IsWordChar(c: char) { IsLetter(c) || IsDigit(c) || c == '_' }

  const SuffixWords: seq<string> := ["inc", "llc", "ltd", "co", "corp", "company", "store", "shop"]

  /**
   * The first corporate word that starts `s` and ends at a word boundary.
   * "co" is tried before "corp" and "company", as in the alternation.
   */
  function FirstSuffixWord(s: string, words: seq<string>): (n: Option<nat>)
    ensures n.Some? ==> 0 < n.value <= |s|
  {
    if words == [] then None
    else if words[0] != [] && WordAtStart(s, words[0]) && (|words[0]| == |s| || !IsWordChar(s[|words[0]|]))
    then Some(|words[0]|)
    else FirstSuffixWord(s, words[1..])
  }

  /**
   * `COMMON_SUFFIX.matcher(s).replaceAll("")` for `\b(inc|llc|...)\b`: a
   * corporate word is removed when it stands alone as a word; `afterWord`
   * says whether the character before `s` is a word character.
   */
  function DropSuffixWords(s: string, afterWord: bool): (r: string)
    ensures |r| <= |s|
    ensures AllAllowed(s) ==> AllAllowed(r)
    decreases |s|
  {
    if s == [] then []
    else
      var m := if afterWord then None else FirstSuffixWord(s, SuffixWords);
      match m
      case Some(n) => DropSuffixWords(s[n..], true)
      case None => [s[0]] + DropSuffixWords(s[1..], IsWordChar(s[0]))
  }

  /** `toTitleCase`: the character at `i`, upper case at a word start and lower case elsewhere. */
  function TitleChar(s: string, i: nat): char
    requires i < |s|
  {
    if IsSpace(s[i]) then s[i]
    else if i == 0 || IsSpace(s[i - 1]) then UpperChar(s[i])
    else LowerChar(s[i])
  }

  function TitleCaseOf(s: string): (r: string)
    ensures |r| == |s|
  {
    seq(|s|, i requires 0 <= i < |s| => TitleChar(s, i))
  }

  /** Title-cases keeping the length and every whitespace character where it was. */
  lemma TitleCaseShape(s: string)
    ensures var r := TitleCaseOf(s);
      |r| == |s|
      && (forall i :: 0 <= i < |s| ==> (IsSpace(r[i]) <==> IsSpace(s[i])))
      && (forall i :: 0 <= i < |s| && IsSpace(s[i]) ==> r[i] == s[i])
      && (forall i :: 0 <= i < |s| && !IsSpace(s[i]) && (i == 0 || IsSpace(s[i - 1])) ==> r[i] == UpperChar(s[i]))
      && (forall i :: 0 < i < |s| && !IsSpace(s[i]) && !IsSpace(s[i - 1]) ==> r[i] == LowerChar(s[i]))
  {
    var r := TitleCaseOf(s);
    forall i | 0 <= i < |s|
      ensures IsSpace(r[i]) <==> IsSpace(s[i])
    {
      assert r[i] == TitleChar(s, i);
      if !IsSpace(s[i]) {
        assert !IsSpace(UpperChar(s[i])) && !IsSpace(LowerChar(s[i]));
      }
    }
  }

  /** `toTitleCase`: one pass with a flag that is set after whitespace. */
  method TitleCase(s: string) returns (r: string)
    ensures r == TitleCaseOf(s)
  {
    r := [];
    var cap := true;
    for i := 0 to |s|
      invariant |r| == i
      invariant forall k :: 0 <= k < i ==> r[k] == TitleChar(s, k)
      invariant cap <==> i == 0 || IsSpace(s[i - 1])
    {
      var c := s[i];
      if IsSpace(c) {
        r := r + [c];
        cap := true;
      } else {
        r := r + [if cap then UpperChar(c) else LowerChar(c)];
        cap := false;
      }
    }
  }

  /** Everything `normalize` does before the length cap. */
  function Cleaned(t: string): string {
    var s1 := DropNumber(Collapse(t));
    var s2 := Collapse(KeepAllowed(DropCardWords(DropMarker(s1))));
    Trim(Collapse(DropSuffixWords(s2, false)))
  }

  /** At most 64 characters, trimmed again after cutting. */
  function Capped(s: string): string {
    if |s| > 64 then Trim(s[..64]) else s
  }

  /** `normalize(raw)`. */
  function NormalizeOf(raw: Option<string>): Option<string> {
    if raw.None? || Trim(raw.value) == [] then None
    else
      var s := Capped(Cleaned(Trim(raw.value)));
      if IsBlank(s) then None else Some(TitleCaseOf(s))
  }

  /** `normalize`: the same chain of reassignments. */
  method Normalize(raw: Option<string>) returns (r: Option<string>)
    ensures r == NormalizeOf(raw)
  {
    if raw.None? {
      return None;
    }
    var s := Trim(raw.value);
    if s == [] {
      return None;
    }
    s := Collapse(s);
    s := DropNumber(s);
    s := DropMarker(s);
    s := DropCardWords(s);
    s := KeepAllowed(s);
    s := Collapse(s);
    s := DropSuffixWords(s, false);
    s := Collapse(s);
    s := Trim(s);
    if |s| > 64 {
      s := Trim(s[..64]);
    }
    if IsBlank(s) {
      return None;
    }
    var t := TitleCase(s);
    r := Some(t);
  }

  /** Every character is one SPECIALS keeps, spaces are single and none is at either end. */
  predicate Clean(s: string) {
    AllAllowed(s) && NoDoubleSpace(s) && (s == [] || (s[0] != ' ' && s[|s| - 1] != ' '))
  }

  lemma SkipSpacesAllowed(s: string)
    requires AllAllowed(s)
    ensures AllAllowed(SkipSpaces(s))
  {
    var r := SkipSpaces(s);
    forall i | 0 <= i < |r| ensures Allowed(r[i]) {
      assert r[i] == s[|s| - |r| + i];
    }
  }

  /** Collapsing spaces keeps the allowed characters allowed. */
  lemma {:induction false} CollapseAllowed(s: string)
    requires AllAllowed(s)
    ensures AllAllowed(Collapse(s))
  {
    if s != [] {
      if RegexSpace(s[0]) {
        SkipSpacesAllowed(s[1..]);
        CollapseAllowed(SkipSpaces(s[1..]));
      } else {
        CollapseAllowed(s[1..]);
      }
    }
  }

  lemma SliceClean(s: string, a: nat, b: nat)
    requires a <= b <= |s|
    requires AllAllowed(s) && NoDoubleSpace(s)
    ensures AllAllowed(s[a..b]) && NoDoubleSpace(s[a..b])
  {
    var t := s[a..b];
    assert forall i :: 0 <= i < |t| ==> t[i] == s[a + i];
  }

  lemma TrimClean(s: string)
    requires AllAllowed(s) && NoDoubleSpace(s)
    ensures Clean(Trim(s))
  {
    var a, b := TrimStart(s), TrimEnd(s);
    if a < b {
      SliceClean(s, a, b);
    }
  }

  lemma CleanedIsClean(t: string)
    ensures Clean(Cleaned(t))
  {
    var s1 := DropNumber(Collapse(t));
    var k := KeepAllowed(DropCardWords(DropMarker(s1)));
    CollapseAllowed(k);
    var s3 := DropSuffixWords(Collapse(k), false);
    CollapseAllowed(s3);
    TrimClean(Collapse(s3));
  }

  lemma CappedIsClean(s: string)
    requires Clean(s)
    ensures Clean(Capped(s)) && |Capped(s)| <= 64
  {
    if |s| > 64 {
      SliceClean(s, 0, 64);
      TrimClean(s[..64]);
    }
  }

  /** Every whitespace character is trimmed by `String.trim()`. */
  lemma {:induction false} TrimStartBlank(s: string)
    requires IsBlank(s)
    ensures TrimStart(s) == |s|
  {
    if s != [] {
      assert IsBlank(s[1..]) by {
        forall i | 0 <= i < |s| - 1 ensures IsSpace(s[1..][i]) {
          assert s[1..][i] == s[i + 1];
        }
      }
      TrimStartBlank(s[1..]);
    }
  }

  /** One character of a clean name, title-cased. */
  lemma TitleCharClean(s: string, i: nat)
    requires AllAllowed(s) && i < |s|
    ensures var c := TitleChar(s, i);
      Allowed(c) && (c == ' ' <==> s[i] == ' ') && (IsSpace(c) <==> IsSpace(s[i]))
      && ((i == 0 || s[i - 1] == ' ') ==> !IsLowerLetter(c))
      && (i > 0 && s[i - 1] != ' ' ==> !IsUpper(c))
  {
    assert Allowed(s[i]);
    assert i > 0 ==> Allowed(s[i - 1]);
  }

  /** Title-casing a clean, non-blank name keeps it clean and non-blank. */
  lemma TitleCaseClean(s: string)
    requires Clean(s) && !IsBlank(s)
    ensures var r := TitleCaseOf(s);
      !IsBlank(r) && Clean(r)
      && !IsLowerLetter(r[0])
      && (forall i :: 0 < i < |r| && r[i - 1] != ' ' ==> !IsUpper(r[i]))
  {
    var r := TitleCaseOf(s);
    forall i | 0 <= i < |r|
      ensures Allowed(r[i]) && (r[i] == ' ' <==> s[i] == ' ') && (IsSpace(r[i]) <==> IsSpace(s[i]))
      ensures (i == 0 || s[i - 1] == ' ') ==> !IsLowerLetter(r[i])
      ensures i > 0 && s[i - 1] != ' ' ==> !IsUpper(r[i])
    {
      TitleCharClean(s, i);
    }
  }

  /**
   * A normalised name has at most 64 characters and is not blank; it is
   * made of letters, digits, '&', '\'', '+' and single spaces, neither
   * starting nor ending with a space; each word starts in upper case and
   * continues in lower case.
   */
  lemma NormalizedShape(raw: Option<string>)
    ensures NormalizeOf(raw).Some? ==>
      var r := NormalizeOf(raw).value;
      0 < |r| <= 64 && !IsBlank(r) && Clean(r)
      && !IsLowerLetter(r[0])
      && (forall i :: 0 < i < |r| && r[i - 1] != ' ' ==> !IsUpper(r[i]))
  {
    if NormalizeOf(raw).Some? {
      var t := Trim(raw.value);
      CleanedIsClean(t);
      CappedIsClean(Cleaned(t));
      TitleCaseClean(Capped(Cleaned(t)));
    }
  }

  /** A missing or blank description has no merchant name. */
  lemma BlankIsNone(raw: Option<string>)
    requires raw.None? || IsBlank(raw.value)
    ensures NormalizeOf(raw).None?
  {
    if raw.Some? {
      TrimStartBlank(raw.value);
    }
  }
}
