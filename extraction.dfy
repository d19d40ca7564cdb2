/**
 * The statement-extraction script: text chunking, header-row detection, the
 * cleaning and unwrapping of the language model's reply with its retry policy,
 * and the post-processor that gives every extracted record a signed amount.
 * The model call, PDF text extraction and OCR are inputs.
 */
module Extraction {
  import opened Wrappers
  import opened Text
  import opened Numbers
  import opened Json
  import opened Seqs

  // ---------------------------------------------------------------- chunk_text

  const DefaultChunkSize: nat := 1000

  function Concat(pieces: seq<string>): string {
    if pieces == [] then [] else pieces[0] + Concat(pieces[1..])
  }

  /** The pieces `text[i:i+size]` for i = 0, size, 2*size, … below len(text). */
  function Chunks(text: string, size: nat): (r: seq<string>)
    requires size > 0
    ensures forall k :: 0 <= k < |r| ==> 0 < |r[k]| <= size
    decreases |text|
  {
    if text == [] then []
    else if |text| <= size then [text]
    else [text[..size]] + Chunks(text[size..], size)
  }

  lemma {:induction false} ChunksConcat(text: string, size: nat)
    requires size > 0
    ensures Concat(Chunks(text, size)) == text
    decreases |text|
  {
    if |text| > size {
      var r := Chunks(text, size);
      assert r[1..] == Chunks(text[size..], size);
      ChunksConcat(text[size..], size);
      assert text == text[..size] + text[size..];
    } else if text != [] {
      assert Concat([text]) == text + Concat([]);
    }
  }

  /** There are ceil(len(text) / size) pieces: the fewest pieces of `size` that cover the text. */
  lemma {:induction false} ChunksCount(text: string, size: nat)
    requires size > 0
    ensures |text| <= |Chunks(text, size)| * size
    ensures text != [] ==> (|Chunks(text, size)| - 1) * size < |text|
    ensures Chunks(text, size) == [] <==> text == []
    decreases |text|
  {
    if |text| > size {
      var k := |Chunks(text[size..], size)|;
      ChunksCount(text[size..], size);
      assert (k + 1) * size == k * size + size;
    }
  }

  /** Piece k is exactly `text[k*size : (k+1)*size]`, clipped to the text. */
  lemma ChunkAt(text: string, size: nat, k: nat)
    requires size > 0
    requires k < |Chunks(text, size)|
    ensures k * size < |text|
    ensures Chunks(text, size)[k] == text[k * size .. Min(k * size + size, |text|)]
  {
    ChunkFrom(text, size, k, k * size);
  }

  /** ChunkAt with the start offset `k * size` named, so the induction stays linear. */
  lemma {:induction false} ChunkFrom(text: string, size: nat, k: nat, start: nat)
    requires size > 0
    requires k < |Chunks(text, size)|
    requires start == k * size
    ensures start < |text|
    ensures Chunks(text, size)[k] == text[start .. Min(start + size, |text|)]
    decreases k
  {
    if k > 0 {
      var rest := text[size..];
      assert Chunks(text, size) == [text[..size]] + Chunks(rest, size);
      var c := Chunks(rest, size);
      StepMul(k, size);
      ChunkFrom(rest, size, k - 1, start - size);
      var hi := Min(start + size, |text|);
      assert Min(start, |rest|) == hi - size;
      assert c[k - 1] == rest[start - size .. hi - size];
      assert rest[start - size .. hi - size] == text[start .. hi];
    }
  }

  /** `k * size` is one `size` more than `(k - 1) * size`. */
  lemma StepMul(k: nat, size: nat)
    requires k > 0
    ensures (k - 1) * size + size == k * size
  {
  }

  /**
   * `chunk_text(text, chunk_size)`: a zero size is Python's ValueError from
   * `range`, a negative size gives no chunks.
   */
  function ChunkText(text: string, size: int): (r: Result<seq<string>, string>)
    ensures r.Err? <==> size == 0
    ensures size < 0 ==> r == Ok([])
    ensures size > 0 ==> (r.Ok? && Concat(r.value) == text
                          && |text| <= |r.value| * size
                          && (text != [] ==> (|r.value| - 1) * size < |text|)
                          && forall k :: 0 <= k < |r.value| ==> 0 < |r.value[k]| <= size)
  {
    if size == 0 then Err("ValueError")
    else if size < 0 then Ok([])
    else
      ChunksConcat(text, size);
      ChunksCount(text, size);
      Ok(Chunks(text, size))
  }

  // ---------------------------------------------------------- header detection

  const HeaderKeywords: seq<string> := ["date", "desc", "debit", "credit", "amount", "balance", "type"]

  predicate HasKeyword(line: string) {
    exists k :: k in HeaderKeywords && Contains(Lower(line), k)
  }

  /** A line holding a keyword has a letter in it, so it is not blank. */
  lemma KeywordLineNotBlank(line: string)
    requires HasKeyword(line)
    ensures !IsBlank(line)
  {
    var k :| k in HeaderKeywords && Contains(Lower(line), k);
    KeywordStartsWithLetter(k);
    var i :| 0 <= i <= |Lower(line)| - |k| && OccursAt(Lower(line), k, i);
    assert Lower(line)[i] == k[0];
    assert LowerChar(line[i]) == k[0];
    assert !IsSpace(line[i]);
  }

  lemma KeywordStartsWithLetter(k: string)
    requires k in HeaderKeywords
    ensures |k| > 0 && IsLowerLetter(k[0])
  {
  }

  /** The index of the first line holding a header keyword, or |lines| when there is none. */
  function FirstHeaderIndex(lines: seq<string>): (i: nat)
    ensures i <= |lines|
    ensures i < |lines| ==> HasKeyword(lines[i])
    ensures forall j :: 0 <= j < i ==> !HasKeyword(lines[j])
  {
    if lines == [] || HasKeyword(lines[0]) then 0
    else
      var k := FirstHeaderIndex(lines[1..]);
      assert forall j :: 1 <= j < 1 + k ==> lines[j] == lines[1..][j - 1];
      1 + k
  }

  /** The first line that holds a header keyword, stripped; "" when there is none. */
  function FirstHeaderRow(lines: seq<string>): (r: string)
    ensures r == [] <==> forall i :: 0 <= i < |lines| ==> !HasKeyword(lines[i])
    ensures r != [] ==> FirstHeaderIndex(lines) < |lines| && r == Strip(lines[FirstHeaderIndex(lines)])
  {
    var i := FirstHeaderIndex(lines);
    if i < |lines| then
      KeywordLineNotBlank(lines[i]);
      Strip(lines[i])
    else []
  }

  /** Python's line boundaries (`str.splitlines`). */
  predicate IsLineBreak(c: char) {
    c == '\n' || c == '\r' || c == '\U{B}' || c == '\U{C}' || c == '\U{1C}' || c == '\U{1D}'
    || c == '\U{1E}' || c == '\U{85}' || c == '\U{2028}' || c == '\U{2029}'
  }

  function FirstBreak(s: string): (i: nat)
    ensures i <= |s|
    ensures i < |s| ==> IsLineBreak(s[i])
    ensures forall j :: 0 <= j < i ==> !IsLineBreak(s[j])
  {
    if s == [] || IsLineBreak(s[0]) then 0 else 1 + FirstBreak(s[1..])
  }

  /** `text.splitlines()`: "\r\n" is one boundary and a final boundary adds no empty line. */
  function SplitLines(s: string): (lines: seq<string>)
    ensures forall k, j :: 0 <= k < |lines| && 0 <= j < |lines[k]| ==> !IsLineBreak(lines[k][j])
    decreases |s|
  {
    var i := FirstBreak(s);
    if i == |s| then (if s == [] then [] else [s])
    else
      var w := if s[i] == '\r' && i + 1 < |s| && s[i + 1] == '\n' then 2 else 1;
      [s[..i]] + SplitLines(s[i + w..])
  }

  /**
   * The header row of a statement: searched only on the first page, and only
   * when that page has text once OCR has been tried; "" otherwise.
   */
  function DetectHeader(pages: seq<string>): (r: string)
    ensures pages == [] || IsBlank(pages[0]) ==> r == []
    ensures r != [] ==> var lines := SplitLines(pages[0]);
      FirstHeaderIndex(lines) < |lines| && r == Strip(lines[FirstHeaderIndex(lines)])
  {
    if pages != [] && !IsBlank(pages[0]) then FirstHeaderRow(SplitLines(pages[0])) else []
  }

  /** Whitespace-separated words (`str.split()` with no argument). */
  function Words(s: string): seq<string>
    decreases |s|
  {
    var t := StripLeft(s);
    if t == [] then []
    else
      var n := WordLength(t);
      [t[..n]] + Words(t[n..])
  }

  /** `split()` yields only non-empty words, none holding whitespace. */
  lemma {:induction false} WordsSpec(s: string)
    ensures forall k :: 0 <= k < |Words(s)| ==> Words(s)[k] != [] && NoSpace(Words(s)[k])
    decreases |s|
  {
    var t := StripLeft(s);
    if t != [] {
      var n := WordLength(t);
      WordLengthSpec(t);
      WordsSpec(t[n..]);
      var rest := Words(t[n..]);
      var ws := [t[..n]] + rest;
      assert Words(s) == ws;
      forall k | 0 <= k < |ws|
        ensures ws[k] != [] && NoSpace(ws[k])
      {
        if k > 0 {
          assert ws[k] == rest[k - 1];
        }
      }
    } else {
      assert Words(s) == [];
    }
  }

  predicate NoSpace(w: string) {
    forall i :: 0 <= i < |w| ==> !IsSpace(w[i])
  }

  function WordLength(t: string): (n: nat)
    requires t != []
    ensures 0 < n <= |t|
  {
    if |t| == 1 || IsSpace(t[1]) then 1 else 1 + WordLength(t[1..])
  }

  /** A word runs from a non-space up to the next space. */
  lemma {:induction false} WordLengthSpec(t: string)
    requires t != [] && !IsSpace(t[0])
    ensures NoSpace(t[..WordLength(t)])
  {
    if !(|t| == 1 || IsSpace(t[1])) {
      WordLengthSpec(t[1..]);
      assert t[..WordLength(t)] == [t[0]] + t[1..][..WordLength(t[1..])];
    }
  }

  /** Python `str.title()`: a letter is upper-cased after a non-letter and lower-cased after a letter. */
  function TitleFrom(s: string, afterLetter: bool): (r: string)
    ensures |r| == |s|
  {
    if s == [] then []
    else [if afterLetter then LowerChar(s[0]) else UpperChar(s[0])] + TitleFrom(s[1..], IsLetter(s[0]))
  }

  function Title(s: string): string { TitleFrom(s, false) }

  /** `[h.strip().title() for h in header_row.split() if h.strip()]`. */
  function HeaderColumns(headerRow: string): seq<string> {
    Titles(Words(headerRow))
  }

  function Titles(ws: seq<string>): (r: seq<string>)
    ensures |r| == |ws| && forall k :: 0 <= k < |ws| ==> r[k] == Title(ws[k])
  {
    if ws == [] then [] else [Title(ws[0])] + Titles(ws[1..])
  }

  lemma {:induction false} TitleFromLetters(s: string)
    requires forall i :: 0 <= i < |s| ==> IsLetter(s[i])
    ensures TitleFrom(s, true) == Lower(s)
  {
    if s != [] {
      TitleFromLetters(s[1..]);
    }
  }

  lemma {:induction false} LowerTitleFrom(s: string, f: bool)
    ensures Lower(TitleFrom(s, f)) == Lower(s)
  {
    if s != [] {
      LowerTitleFrom(s[1..], IsLetter(s[0]));
    }
  }

  /** A capitalised word such as "Debit" is the title form of exactly its case variants. */
  lemma TitleMatches(w: string, col: string)
    requires |col| > 0 && IsUpper(col[0])
    requires forall i :: 1 <= i < |col| ==> IsLowerLetter(col[i])
    ensures Title(w) == col <==> Lower(w) == Lower(col)
  {
    if Title(w) == col {
      LowerTitleFrom(w, false);
    }
    if Lower(w) == Lower(col) {
      TitleOfCaseVariant(w, col);
    }
  }

  /** A case variant of a capitalised word has that word as its title form. */
  lemma TitleOfCaseVariant(w: string, col: string)
    requires |col| > 0 && IsUpper(col[0])
    requires forall i :: 1 <= i < |col| ==> IsLowerLetter(col[i])
    requires Lower(w) == Lower(col)
    ensures Title(w) == col
  {
    assert |w| == |col|;
    assert LowerChar(w[0]) == LowerChar(col[0]);
    assert UpperChar(w[0]) == col[0];
    forall i | 0 <= i < |w[1..]| ensures IsLetter(w[1..][i]) && LowerChar(w[1..][i]) == col[1..][i] {
      assert LowerChar(w[i + 1]) == LowerChar(col[i + 1]);
    }
    TitleFromLetters(w[1..]);
    assert Lower(w[1..]) == col[1..];
    assert Title(w) == [UpperChar(w[0])] + TitleFrom(w[1..], true);
    assert col == [col[0]] + col[1..];
  }

  /**
   * A capitalised column name such as "Debit" is among the header columns
   * exactly when some word of the header row equals it ignoring case.
   */
  lemma HeaderHasColumn(ws: seq<string>, col: string)
    requires |col| > 0 && IsUpper(col[0])
    requires forall i :: 1 <= i < |col| ==> IsLowerLetter(col[i])
    ensures col in Titles(ws) <==> exists w :: w in ws && Lower(w) == Lower(col)
  {
    var cols := Titles(ws);
    if col in cols {
      var k :| 0 <= k < |cols| && cols[k] == col;
      TitleMatches(ws[k], col);
      assert ws[k] in ws;
    }
    if w :| w in ws && Lower(w) == Lower(col) {
      var k :| 0 <= k < |ws| && ws[k] == w;
      TitleMatches(w, col);
      assert cols[k] == col;
    }
  }

  // ----------------------------------------------------- the model's reply

  /** What one attempt of the model call gives: the reply's text, or an exception's message. */
  datatype Reply = Content(text: string) | Failure(message: string)

  const MaxRetries: nat := 5

  /** `"rate limit" in str(e).lower() or "rate_limit_exceeded" in str(e).lower()`. */
  predicate IsRateLimit(message: string) {
    Occurs(Lower(message), "rate limit") || Occurs(Lower(message), "rate_limit_exceeded")
  }

  /** Python's `p in s`, scanned from the left one position at a time. */
  predicate Occurs(s: string, p: string)
    decreases |s|
  {
    StartsWith(s, p) || (s != [] && Occurs(s[1..], p))
  }

  /** The scan finds `p` exactly when `p` occurs somewhere in `s`. */
  lemma {:induction false} OccursIsContains(s: string, p: string)
    ensures Occurs(s, p) <==> Contains(s, p)
    decreases |s|
  {
    if StartsWith(s, p) {
      assert OccursAt(s, p, 0);
    } else if s != [] {
      OccursIsContains(s[1..], p);
      if Contains(s[1..], p) {
        var i :| 0 <= i <= |s[1..]| - |p| && OccursAt(s[1..], p, i);
        OccursInTail(s, p, i);
      }
      if Contains(s, p) {
        var i :| 0 <= i <= |s| - |p| && OccursAt(s, p, i);
        assert i != 0;
        OccursInTail(s, p, i - 1);
      }
    }
  }

  /** An occurrence in the tail is one position further on in the whole string. */
  lemma OccursInTail(s: string, p: string, i: nat)
    requires s != []
    ensures OccursAt(s[1..], p, i) <==> OccursAt(s, p, i + 1)
  {
    if i + 1 + |p| <= |s| {
      assert s[1..][i..i + |p|] == s[i + 1..i + 1 + |p|];
    }
  }

  /** A failure counts as rate limiting when either phrase occurs in its lower-cased message. */
  lemma RateLimitMeaning(message: string)
    ensures IsRateLimit(message)
      <==> Contains(Lower(message), "rate limit") || Contains(Lower(message), "rate_limit_exceeded")
  {
    OccursIsContains(Lower(message), "rate limit");
    OccursIsContains(Lower(message), "rate_limit_exceeded");
  }

  /** `s.lstrip(c)`: the suffix left after every leading `c` is removed. */
  function StripCharLeft(s: string, c: char): (r: string)
    ensures |r| <= |s| && r == s[|s| - |r|..]
    ensures forall i :: 0 <= i < |s| - |r| ==> s[i] == c
    ensures r == [] || r[0] != c
  {
    if s != [] && s[0] == c then
      var r := StripCharLeft(s[1..], c);
      assert forall i :: 1 <= i < |s| - |r| ==> s[i] == s[1..][i - 1];
      r
    else s
  }

  /** `s.rstrip(c)`: the prefix left after every trailing `c` is removed. */
  function StripCharRight(s: string, c: char): (r: string)
    ensures |r| <= |s| && r == s[..|r|]
    ensures forall i :: |r| <= i < |s| ==> s[i] == c
    ensures r == [] || r[|r| - 1] != c
  {
    if s != [] && s[|s| - 1] == c then StripCharRight(s[..|s| - 1], c) else s
  }

  /** `r` sits at position `i` of `s` with nothing but `c` before and after it. */
  predicate FencedAt(s: string, r: string, i: int, c: char) {
    && 0 <= i <= |s| - |r| && s[i..i + |r|] == r
    && (forall k :: 0 <= k < i ==> s[k] == c)
    && (forall k :: i + |r| <= k < |s| ==> s[k] == c)
  }

  /** `s.strip("`")`: only backticks are removed, at both ends, until neither end is one. */
  function StripBackticks(s: string): (r: string)
    ensures exists i :: FencedAt(s, r, i, '`')
    ensures r == [] || (r[0] != '`' && r[|r| - 1] != '`')
  {
    var l := StripCharLeft(s, '`');
    var r := StripCharRight(l, '`');
    BackticksFenced(s, l, r);
    r
  }

  lemma BackticksFenced(s: string, l: string, r: string)
    requires |l| <= |s| && l == s[|s| - |l|..] && forall k :: 0 <= k < |s| - |l| ==> s[k] == '`'
    requires l == [] || l[0] != '`'
    requires |r| <= |l| && r == l[..|r|] && forall k :: |r| <= k < |l| ==> l[k] == '`'
    requires r == [] || r[|r| - 1] != '`'
    ensures FencedAt(s, r, |s| - |l|, '`')
    ensures r == [] || (r[0] != '`' && r[|r| - 1] != '`')
  {
    var i := |s| - |l|;
    assert r != [] ==> r[0] == l[0];
    forall k | 0 <= k < |r| ensures s[i..i + |r|][k] == r[k] {
      assert r[k] == l[k] == s[i + k];
    }
    assert s[i..i + |r|] == r;
    forall k | 0 <= k < i ensures s[k] == '`' {
    }
    forall k | i + |r| <= k < |s| ensures s[k] == '`' {
      assert s[k] == l[k - i];
    }
  }

  /** Only one text sits between backticks in `s` with none at its ends: the stripped one. */
  lemma StripBackticksUnique(s: string, r: string, i: int)
    requires FencedAt(s, r, i, '`')
    requires r == [] || (r[0] != '`' && r[|r| - 1] != '`')
    ensures r == StripBackticks(s)
  {
    var t := StripBackticks(s);
    var j :| FencedAt(s, t, j, '`');
    if r != [] {
      assert s[i] == r[0] && s[i + |r| - 1] == r[|r| - 1];
    }
    if t != [] {
      assert s[j] == t[0] && s[j + |t| - 1] == t[|t| - 1];
    }
  }

  /**
   * The reply text with a Markdown code fence removed: a reply that starts with
   * ``` loses its surrounding backticks and then a leading "json" tag.
   */
  function CleanFence(raw: string): (r: string)
    ensures !StartsWith(Strip(raw), "```") ==> r == Strip(raw)
    ensures StartsWith(Strip(raw), "```") && !StartsWith(Lower(StripBackticks(Strip(raw))), "json")
      ==> r == StripBackticks(Strip(raw)) && (r == [] || (r[0] != '`' && r[|r| - 1] != '`'))
    ensures StartsWith(Strip(raw), "```") && StartsWith(Lower(StripBackticks(Strip(raw))), "json")
      ==> var t := StripBackticks(Strip(raw));
          && 4 <= |t| && (exists i :: StrippedAt(t[4..], r, i))
          && (r == [] || (!IsSpace(r[0]) && !IsSpace(r[|r| - 1])))
  {
    var s := Strip(raw);
    if StartsWith(s, "```") then
      var t := StripBackticks(s);
      if StartsWith(Lower(t), "json") then
        var r := Strip(t[4..]);
        TagStripped(t);
        assert r == [] || (!IsSpace(r[0]) && !IsSpace(r[|r| - 1]));
        r
      else t
    else s
  }

  /** What follows a four-character tag, stripped, sits in the text with only whitespace around it. */
  lemma TagStripped(t: string)
    requires 4 <= |t|
    ensures exists i :: StrippedAt(t[4..], Strip(t[4..]), i)
  {
    assert StrippedAt(t[4..], Strip(t[4..]), |t[4..]| - |StripLeft(t[4..])|);
  }

  /** The transaction list in a decoded reply: the reply itself, or its "value" or "data" list. */
  function Unwrap(data: Json): (r: seq<Json>)
    ensures data.JArr? ==> r == data.items
    ensures data.JObj? && "value" in data.fields && data.fields["value"].JArr? ==> r == data.fields["value"].items
    ensures (data.JObj? && !("value" in data.fields && data.fields["value"].JArr?)
             && "data" in data.fields && data.fields["data"].JArr?) ==> r == data.fields["data"].items
    ensures !data.JArr? && !data.JObj? ==> r == []
  {
    match data
    case JArr(xs) => xs
    case JObj(m) =>
      if "value" in m && m["value"].JArr? then m["value"].items
      else if "data" in m && m["data"].JArr? then m["data"].items
      else []
    case _ => []
  }

  /** A reply's transactions; `parse` is `json.loads`, None for a JSONDecodeError. */
  function ParseReply(raw: string, parse: string -> Option<Json>): seq<Json> {
    match parse(CleanFence(raw))
    case None => []
    case Some(d) => Unwrap(d)
  }

  /**
   * The retry loop from attempt `attempt` on: the transactions returned and the
   * number of the last attempt made.
   */
  function RetryFrom(reply: nat -> Reply, parse: string -> Option<Json>, attempt: nat): (r: (seq<Json>, nat))
    requires 1 <= attempt <= MaxRetries
    ensures attempt <= r.1 <= MaxRetries
    decreases MaxRetries - attempt
  {
    match reply(attempt)
    case Content(text) => (ParseReply(text, parse), attempt)
    case Failure(msg) =>
      if attempt < MaxRetries && IsRateLimit(msg) then RetryFrom(reply, parse, attempt + 1)
      else ([], attempt)
  }

  /**
   * Every attempt before the last ended in a rate-limit failure, and the last one
   * either returned a reply, or failed otherwise, or was the fifth.
   */
  lemma {:induction false} RetryCharacterised(reply: nat -> Reply, parse: string -> Option<Json>, attempt: nat)
    requires 1 <= attempt <= MaxRetries
    ensures forall a :: (attempt <= a < RetryFrom(reply, parse, attempt).1
                         ==> reply(a).Failure? && IsRateLimit(reply(a).message))
    ensures reply(RetryFrom(reply, parse, attempt).1).Content?
      ==> RetryFrom(reply, parse, attempt).0 == ParseReply(reply(RetryFrom(reply, parse, attempt).1).text, parse)
    ensures reply(RetryFrom(reply, parse, attempt).1).Failure?
      ==> RetryFrom(reply, parse, attempt).0 == []
          && (RetryFrom(reply, parse, attempt).1 == MaxRetries
              || !IsRateLimit(reply(RetryFrom(reply, parse, attempt).1).message))
    decreases MaxRetries - attempt
  {
    var r := RetryFrom(reply, parse, attempt);
    if reply(attempt).Failure? && attempt < MaxRetries && IsRateLimit(reply(attempt).message) {
      assert r == RetryFrom(reply, parse, attempt + 1);
      RetryCharacterised(reply, parse, attempt + 1);
    } else {
      assert r.1 == attempt;
    }
  }

  /** A rate-limited attempt before the fifth hands over to the next one. */
  lemma RetryStep(reply: nat -> Reply, parse: string -> Option<Json>, attempt: nat)
    requires 1 <= attempt < MaxRetries
    requires reply(attempt).Failure? && IsRateLimit(reply(attempt).message)
    ensures RetryFrom(reply, parse, attempt) == RetryFrom(reply, parse, attempt + 1)
  {
  }

  /** An attempt that is not a rate-limited one before the fifth is the last. */
  lemma RetryStops(reply: nat -> Reply, parse: string -> Option<Json>, attempt: nat)
    requires 1 <= attempt <= MaxRetries
    requires reply(attempt).Content? || attempt == MaxRetries || !IsRateLimit(reply(attempt).message)
    ensures RetryFrom(reply, parse, attempt)
      == (if reply(attempt).Content? then ParseReply(reply(attempt).text, parse) else [], attempt)
  {
  }

  /** The waits in seconds before attempts 2..last: 5, 10, 15, … */
  function Backoff(last: nat): (waits: seq<nat>)
    ensures |waits| == if last == 0 then 0 else last - 1
    ensures forall i :: 0 <= i < |waits| ==> waits[i] == 5 * (i + 1)
  {
    if last <= 1 then [] else Backoff(last - 1) + [5 * (last - 1)]
  }

  lemma BackoffNext(a: nat)
    requires a >= 1
    ensures Backoff(a + 1) == Backoff(a) + [5 * a]
  {
  }

  /**
   * `call_groq_text_vision`: tries up to five times, waiting 5*attempt seconds
   * after each rate-limited attempt; `reply(a)` is what attempt `a` gives.
   */
  method CallWithRetry(reply: nat -> Reply, parse: string -> Option<Json>)
    returns (data: seq<Json>, attempts: nat, waits: seq<nat>)
    ensures (data, attempts) == RetryFrom(reply, parse, 1)
    ensures 1 <= attempts <= MaxRetries
    ensures waits == Backoff(attempts)
  {
    var attempt := 1;
    waits := [];
    while true
      invariant 1 <= attempt <= MaxRetries
      invariant RetryFrom(reply, parse, 1) == RetryFrom(reply, parse, attempt)
      invariant waits == Backoff(attempt)
      decreases MaxRetries - attempt
    {
      var done;
      done, data := Attempt(reply, parse, attempt);
      if done {
        attempts := attempt;
        return;
      }
      BackoffNext(attempt);
      waits := waits + [5 * attempt];
      attempt := attempt + 1;
    }
  }

  /**
   * One pass of the retry loop's body: a reply ends the loop with its parsed
   * transactions, a rate-limit failure before the fifth attempt goes on to the
   * next attempt, and any other failure ends it with nothing.
   */
  method Attempt(reply: nat -> Reply, parse: string -> Option<Json>, attempt: nat) returns (done: bool, data: seq<Json>)
    requires 1 <= attempt <= MaxRetries
    ensures done ==> RetryFrom(reply, parse, attempt) == (data, attempt)
    ensures !done ==> attempt < MaxRetries && RetryFrom(reply, parse, attempt) == RetryFrom(reply, parse, attempt + 1)
  {
    var r := reply(attempt);
    if r.Content? {
      RetryStops(reply, parse, attempt);
      return true, ParseReply(r.text, parse);
    } else if attempt < MaxRetries && IsRateLimit(r.message) {
      RetryStep(reply, parse, attempt);
      return false, [];
    } else {
      RetryStops(reply, parse, attempt);
      return true, [];
    }
  }

  // ------------------------------------------------- postprocess_transactions

  type Record = map<string, Json>

  /** `v not in [None, '', 0, '0']`, where Python also has False == 0 == 0.0. */
  predicate Usable(v: Json) {
    v != JNull && v != JStr("") && v != JNum(0.0) && v != JBool(false) && v != JStr("0")
  }

  /** Python `float(v)`; `parseFloat` is `float` on strings, None for a ValueError. */
  function ToFloat(v: Json, parseFloat: string -> Option<real>): Option<real> {
    match v
    case JNum(n) => Some(n)
    case JBool(b) => Some(if b then 1.0 else 0.0)
    case JStr(s) => parseFloat(s)
    case _ => None
  }

  /**
   * `str(txn.get('type', '')).strip().lower()` is one of `words`; the text of a
   * non-string value ("None", "True", a number) is none of the words asked about.
   */
  predicate TypeIs(m: Record, words: seq<string>) {
    "type" in m && m["type"].JStr? && Lower(Strip(m["type"].s)) in words
  }

  datatype Amount = NoAmount | Raised | Signed(value: real)

  function Lift(v: Option<real>, negate: bool, abs: bool): Amount {
    match v
    case None => Raised
    case Some(x) =>
      var a := if abs then AbsReal(x) else x;
      Signed(if negate then -a else a)
  }

  predicate DebitColumn(m: Record, header: seq<string>) { "Debit" in header && Usable(Get(m, "debit")) }
  predicate CreditColumn(m: Record, header: seq<string>) { "Credit" in header && Usable(Get(m, "credit")) }

  /** The signed amount of one record, from the first usable column in precedence order. */
  function ResolveAmount(m: Record, header: seq<string>, parseFloat: string -> Option<real>): Amount
  {
    if DebitColumn(m, header) then Lift(ToFloat(m["debit"], parseFloat), true, true)
    else if CreditColumn(m, header) then Lift(ToFloat(m["credit"], parseFloat), false, true)
    else if "Type" in header && Usable(Get(m, "amount")) then
      var v := ToFloat(m["amount"], parseFloat);
      if TypeIs(m, ["dr", "debit"]) then Lift(v, true, true)
      else if TypeIs(m, ["cr", "credit"]) then Lift(v, false, true)
      else Lift(v, false, false)
    else if "Amount" in header && Usable(Get(m, "amount")) then Lift(ToFloat(m["amount"], parseFloat), false, false)
    else if Usable(Get(m, "amount")) then Lift(ToFloat(m["amount"], parseFloat), false, false)
    else NoAmount
  }

  /**
   * The precedence of the amount columns: a usable Debit column gives minus its
   * magnitude, then a usable Credit column its magnitude, then the amount,
   * signed by a dr/debit or cr/credit type; no usable column gives no amount,
   * and a value that does not convert raises.
   */
  lemma ResolveAmountSpec(m: Record, header: seq<string>, parseFloat: string -> Option<real>)
    ensures var r := ResolveAmount(m, header, parseFloat);
      r.NoAmount? <==> !DebitColumn(m, header) && !CreditColumn(m, header) && !Usable(Get(m, "amount"))
    ensures var r := ResolveAmount(m, header, parseFloat);
      DebitColumn(m, header) ==>
        (r.Signed? <==> ToFloat(m["debit"], parseFloat).Some?)
        && (r.Signed? ==> r.value == -AbsReal(ToFloat(m["debit"], parseFloat).value))
    ensures var r := ResolveAmount(m, header, parseFloat);
      !DebitColumn(m, header) && CreditColumn(m, header) ==>
        (r.Signed? <==> ToFloat(m["credit"], parseFloat).Some?)
        && (r.Signed? ==> r.value == AbsReal(ToFloat(m["credit"], parseFloat).value))
    ensures var r := ResolveAmount(m, header, parseFloat);
      !DebitColumn(m, header) && !CreditColumn(m, header) && Usable(Get(m, "amount")) ==>
        (r.Signed? <==> ToFloat(m["amount"], parseFloat).Some?)
        && (r.Signed? ==> var x := ToFloat(m["amount"], parseFloat).value;
             if "Type" in header && TypeIs(m, ["dr", "debit"]) then r.value == -AbsReal(x)
             else if "Type" in header && TypeIs(m, ["cr", "credit"]) then r.value == AbsReal(x)
             else r.value == x)
  {
  }

  /**
   * One iteration of the post-processing loop: the cleaned record, or None when
   * the record is skipped or a conversion raises.
   */
  function ProcessRecord(txn: Json, header: seq<string>, bankName: Json, parseFloat: string -> Option<real>): Option<Record>
  {
    match txn
    case JObj(m) =>
      (match ResolveAmount(m, header, parseFloat)
       case Signed(a) =>
         var m1 := m["amount" := JNum(a)];
         var bal := if "balance" in m then ToFloat(m["balance"], parseFloat) else Some(0.0);
         if bal.None? then None
         else
           var m2 := if "balance" in m then m1["balance" := JNum(bal.value)] else m1;
           Some(if Truthy(bankName) then m2["bankName" := bankName] else m2)
       case _ => None)
    case _ => None
  }

  /**
   * A kept record is a dict whose amount is the resolved signed amount and whose
   * balance is a number, with the bank name when one is given and every other
   * field as it was; a dict with a resolvable amount and a convertible balance is kept.
   */
  lemma ProcessRecordSpec(txn: Json, header: seq<string>, bankName: Json, parseFloat: string -> Option<real>)
    ensures var r := ProcessRecord(txn, header, bankName, parseFloat);
      r.Some? ==>
        && txn.JObj? && ResolveAmount(txn.fields, header, parseFloat).Signed?
        && "amount" in r.value && r.value["amount"] == JNum(ResolveAmount(txn.fields, header, parseFloat).value)
        && (Truthy(bankName) ==> "bankName" in r.value && r.value["bankName"] == bankName)
        && (forall k :: k in txn.fields ==> k in r.value)
        && (forall k :: (k in txn.fields && k != "amount" && k != "balance"
                         && (k != "bankName" || !Truthy(bankName))) ==> r.value[k] == txn.fields[k])
        && ("balance" in txn.fields ==> r.value["balance"].JNum?)
    ensures (txn.JObj? && ResolveAmount(txn.fields, header, parseFloat).Signed?
             && ("balance" !in txn.fields || ToFloat(txn.fields["balance"], parseFloat).Some?))
      ==> ProcessRecord(txn, header, bankName, parseFloat).Some?
  {
  }

  /** The records `postprocess_transactions` returns. */
  function Postprocessed(txns: seq<Json>, header: seq<string>, bankName: Json, parseFloat: string -> Option<real>): seq<Record>
  {
    ConcatMap(txns, (txn: Json) => Kept(txn, header, bankName, parseFloat))
  }

  /** What one record contributes to the output: itself cleaned, or nothing. */
  function Kept(txn: Json, header: seq<string>, bankName: Json, parseFloat: string -> Option<real>): seq<Record> {
    match ProcessRecord(txn, header, bankName, parseFloat)
    case Some(r) => [r]
    case None => []
  }

  /** A dropped record affects nothing after it: the post-processor works record by record. */
  lemma PostprocessedAppend(a: seq<Json>, b: seq<Json>, header: seq<string>, bankName: Json, parseFloat: string -> Option<real>)
    ensures Postprocessed(a + b, header, bankName, parseFloat)
        == Postprocessed(a, header, bankName, parseFloat) + Postprocessed(b, header, bankName, parseFloat)
  {
    ConcatMapAppend(a, b, (txn: Json) => Kept(txn, header, bankName, parseFloat));
  }

  /** The output is no longer than the input, and it carries the statement's bank name when there is one. */
  lemma {:induction false} PostprocessedShape(txns: seq<Json>, header: seq<string>, bankName: Json, parseFloat: string -> Option<real>)
    ensures |Postprocessed(txns, header, bankName, parseFloat)| <= |txns|
    ensures Truthy(bankName) ==> forall r: Record :: (r in Postprocessed(txns, header, bankName, parseFloat)
                                                 ==> "bankName" in r && r["bankName"] == bankName)
    ensures forall r: Record :: r in Postprocessed(txns, header, bankName, parseFloat) ==> "amount" in r && r["amount"].JNum?
  {
    if txns != [] {
      PostprocessedShape(txns[1..], header, bankName, parseFloat);
      ProcessRecordSpec(txns[0], header, bankName, parseFloat);
    }
  }

  /** `postprocess_transactions(transactions, header, bank_name)`. */
  method Postprocess(txns: seq<Json>, header: seq<string>, bankName: Json, parseFloat: string -> Option<real>)
    returns (cleaned: seq<Record>)
    ensures cleaned == Postprocessed(txns, header, bankName, parseFloat)
  {
    cleaned := [];
    var i := 0;
    while i < |txns|
      invariant 0 <= i <= |txns|
      invariant cleaned == Postprocessed(txns[..i], header, bankName, parseFloat)
    {
      assert txns[..i + 1] == txns[..i] + [txns[i]];
      PostprocessedAppend(txns[..i], [txns[i]], header, bankName, parseFloat);
      assert [txns[i]][1..] == [];
      assert Postprocessed([txns[i]], header, bankName, parseFloat) == Kept(txns[i], header, bankName, parseFloat) + [];
      var r := ProcessRecord(txns[i], header, bankName, parseFloat);
      if r.Some? {
        cleaned := cleaned + [r.value];
      }
      i := i + 1;
    }
    assert txns[..|txns|] == txns;
  }
}
