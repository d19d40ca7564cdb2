/**
 * What RequestResponseLoggingAspect writes about a request: argument and
 * result summaries (capped collections and maps, masked and truncated
 * JSON), the masking of sensitive values, and the correlation id.
 *
 * Jackson's serialisation and the masking pattern's matcher are not
 * modelled: a plain value arrives already cut by the pattern into the
 * text between matches and the matched `"key" : "value"` pairs.
 */
module Logging {
  import opened Wrappers
  import opened Numbers
  import opened Text

  // ---------------------------------------------------------------------
  // Sensitive keys and masking
  // ---------------------------------------------------------------------

  const SensitiveKeys: seq<string> := ["password", "pass", "pwd", "token", "accessToken", "refreshToken",
                                       "authorization", "auth", "secret", "apiKey", "api_key", "email"]

  /** Some key of `keys` equals `key` ignoring case. */
  predicate AnyMatch(key: string, keys: seq<string>) {
    keys != [] && (Lower(key) == Lower(keys[0]) || AnyMatch(key, keys[1..]))
  }

  /** `isSensitive(key)`: a null key never is. */
  predicate IsSensitive(key: Option<string>) {
    key.Some? && AnyMatch(key.value, SensitiveKeys)
  }

  lemma {:induction false} AnyMatchSpec(key: string, keys: seq<string>)
    ensures AnyMatch(key, keys) <==> exists i :: 0 <= i < |keys| && EqualsIgnoreCase(key, keys[i])
  {
    if keys != [] {
      AnyMatchSpec(key, keys[1..]);
      if AnyMatch(key, keys[1..]) {
        var i :| 0 <= i < |keys[1..]| && EqualsIgnoreCase(key, keys[1..][i]);
        assert EqualsIgnoreCase(key, keys[i + 1]);
      }
      if exists i :: 0 <= i < |keys| && EqualsIgnoreCase(key, keys[i]) {
        var i :| 0 <= i < |keys| && EqualsIgnoreCase(key, keys[i]);
        if i > 0 {
          assert EqualsIgnoreCase(key, keys[1..][i - 1]);
        }
      }
    }
  }

  /** A key is sensitive iff it equals one of the listed keys ignoring case. */
  lemma SensitiveIff(key: string)
    ensures IsSensitive(Some(key)) <==> exists i :: 0 <= i < |SensitiveKeys| && EqualsIgnoreCase(key, SensitiveKeys[i])
    ensures !IsSensitive(None)
  {
    AnyMatchSpec(key, SensitiveKeys);
  }

  /** `maskValue(key, value)` for a value the pattern matched (never null). */
  function MaskValue(key: string, value: string): string {
    if EqualsIgnoreCase(key, "email") then
      var at := IndexOf(value, '@');
      if at > 2 then value[..2] + "***" + value[at..]
      else "***" + (if at >= 0 then value[at..] else "")
    else if |value| <= 4 then "****"
    else value[..2] + "***" + value[|value| - 2..]
  }

  /**
   * What a mask keeps: of an email, at most the first two characters and
   * the part from the '@'; of anything else, at most the first and last two
   * characters, and nothing at all of a value of four characters or fewer.
   */
  lemma MaskKeeps(key: string, value: string)
    ensures var r, at := MaskValue(key, value), IndexOf(value, '@');
      if EqualsIgnoreCase(key, "email") then
        (at > 2 ==> r == value[..2] + "***" + value[at..])
        && (0 <= at <= 2 ==> r == "***" + value[at..])
        && (at < 0 ==> r == "***")
      else
        (|value| <= 4 ==> r == "****")
        && (|value| > 4 ==> r == value[..2] + "***" + value[|value| - 2..] && |r| == 7)
  {
  }

  /** The first '@' of `s` is at `k`. */
  lemma IndexOfAt(s: string, c: char, k: nat)
    requires k < |s| && s[k] == c && c !in s[..k]
    ensures IndexOf(s, c) == k
  {
    assert c in s by { assert s[k] == c; }
  }

  /** An email masked once keeps its first two characters, the stars and the part from the '@'. */
  lemma EmailMaskStable(value: string)
    requires IndexOf(value, '@') > 2
    ensures var at := IndexOf(value, '@'); var r := value[..2] + "***" + value[at..];
      IndexOf(r, '@') == 5 && r[..2] == value[..2] && r[5..] == value[at..]
  {
    var at := IndexOf(value, '@');
    var r := value[..2] + "***" + value[at..];
    assert r[5] == '@';
    assert '@' !in r[..5] by {
      assert r[..5] == value[..2] + "***";
      assert value[..2] == value[..at][..2];
    }
    IndexOfAt(r, '@', 5);
  }

  /** Masking a masked value again changes nothing, except an email whose '@' came within the first three characters. */
  lemma MaskIdempotent(key: string, value: string)
    requires !EqualsIgnoreCase(key, "email") || IndexOf(value, '@') > 2
    ensures MaskValue(key, MaskValue(key, value)) == MaskValue(key, value)
  {
    var r := MaskValue(key, value);
    if EqualsIgnoreCase(key, "email") {
      EmailMaskStable(value);
    } else if |value| > 4 {
      assert r[..2] == value[..2];
      assert r[|r| - 2..] == value[|value| - 2..];
    }
  }

  /** A short-local email is not stable under masking: "ab@x" masks to "***@x", which masks to "*****@x". */
  lemma EmailMaskGrows()
    ensures MaskValue("email", "ab@x") == "***@x"
    ensures MaskValue("email", "***@x") == "*****@x"
  {
    EmailMaskParts("ab", "@x");
    assert "ab" + "@x" == "ab@x";
    EmailMaskParts("***", "@x");
    assert "***" + "@x" == "***@x";
    assert "***"[..2] + "***" + "@x" == "*****@x";
  }

  /** The mask of an email made of a local part without '@' and a rest starting at the '@'. */
  lemma EmailMaskParts(local: string, rest: string)
    requires '@' !in local && rest != [] && rest[0] == '@'
    ensures MaskValue("email", local + rest) == if |local| > 2 then local[..2] + "***" + rest else "***" + rest
  {
    var value := local + rest;
    assert value[|local|] == '@' && value[..|local|] == local && value[|local|..] == rest;
    IndexOfAt(value, '@', |local|);
  }

  /** What the masking pattern cuts a JSON text into. */
  datatype Segment = Gap(text: string) | Pair(key: string, sep: string, value: string)

  function Quoted(s: string): string { "\"" + s + "\"" }

  /** The text a segment was cut from. */
  function Original(segs: seq<Segment>): string {
    if segs == [] then ""
    else
      var last := segs[|segs| - 1];
      Original(segs[..|segs| - 1])
        + match last
          case Gap(t) => t
          case Pair(k, sep, v) => Quoted(k) + sep + Quoted(v)
  }

  /** `maskJson`: every sensitive pair rewritten as `"key":"masked"`, everything else as it was. */
  function MaskJson(segs: seq<Segment>): string {
    if segs == [] then ""
    else
      var last := segs[|segs| - 1];
      MaskJson(segs[..|segs| - 1])
        + match last
          case Gap(t) => t
          case Pair(k, sep, v) =>
            if IsSensitive(Some(k)) then Quoted(k) + ":" + Quoted(MaskValue(k, v)) else Quoted(k) + sep + Quoted(v)
  }

  /** Without a sensitive pair, masking leaves the JSON text as it was. */
  lemma {:induction false} MaskJsonKeepsPlain(segs: seq<Segment>)
    requires forall i :: 0 <= i < |segs| && segs[i].Pair? ==> !IsSensitive(Some(segs[i].key))
    ensures MaskJson(segs) == Original(segs)
  {
    if segs != [] {
      MaskJsonKeepsPlain(segs[..|segs| - 1]);
    }
  }

  /** A JSON summary is cut to its first 1000 characters followed by "...". */
  function Truncate(json: string): (r: string)
    ensures |r| <= 1003
    ensures |json| <= 1000 ==> r == json
    ensures |json| > 1000 ==> |r| == 1003 && r[..1000] == json[..1000] && r[1000..] == "..."
  {
    if |json| > 1000 then json[..1000] + "..." else json
  }

  // ---------------------------------------------------------------------
  // Summaries
  // ---------------------------------------------------------------------

  /**
   * An argument or result, as `summarize` tells them apart. A Servlet value
   * is one whose class name mentions the servlet or server-http packages;
   * an Entity's summary is what reflection finds; a Plain value is its JSON.
   * A map's entries have distinct keys and come in its iteration order.
   */
  datatype Value =
    | Null
    | Bytes(length: nat)
    | Servlet(className: string)
    | Entity(fields: seq<(string, string)>)
    | Collection(items: seq<Value>)
    | MapValue(entries: seq<(string, Value)>)
    | ArrayValue(items: seq<Value>)
    | Plain(json: seq<Segment>)

  datatype Summary = SNull | SText(text: string) | SList(items: seq<Summary>)
                   | SMap(entries: seq<(string, Summary)>) | SEntity(fields: seq<(string, string)>)

  const Cap: nat := 10

  /** The "...N more" marker closing a capped list. */
  function More(n: nat): string { "..." + NatToString(n) + " more" }

  /** `summarize(v)`. */
  function Summarize(v: Value): Summary
    decreases v, 1
  {
    match v
    case Null => SNull
    case Bytes(n) => SText("byte[" + NatToString(n) + "]")
    case Servlet(c) => SText(c)
    case Entity(f) => SEntity(f)
    case Collection(items) => SList(CappedList(items))
    case MapValue(entries) => SMap(CappedEntries(entries))
    case ArrayValue(items) => SList(CappedList(items))
    case Plain(segs) => SText(Truncate(MaskJson(segs)))
  }

  /** The first ten elements summarised, then a marker counting the rest. */
  function CappedList(items: seq<Value>): seq<Summary>
    decreases items, 0
  {
    var max := Min(|items|, Cap);
    seq(max, i requires 0 <= i < max => Summarize(items[i]))
      + (if |items| > max then [SText(More(|items| - max))] else [])
  }

  /** LinkedHashMap `put`: replaces the value of a present key in place, else appends. */
  function Put(out: seq<(string, Summary)>, k: string, s: Summary): (r: seq<(string, Summary)>)
    ensures |out| <= |r| <= |out| + 1
  {
    if out == [] then [(k, s)]
    else if out[0].0 == k then [(k, s)] + out[1..]
    else [out[0]] + Put(out[1..], k, s)
  }

  /** The first ten entries put in order with summarised values. */
  function PutAll(entries: seq<(string, Value)>, n: nat): seq<(string, Summary)>
    requires n <= |entries|
    decreases entries, 0, n
  {
    if n == 0 then []
    else
      var e := entries[n - 1];
      assert e.1 < e;
      Put(PutAll(entries, n - 1), e.0, Summarize(e.1))
  }

  /** The first ten entries, then a `_truncated` entry counting the rest. */
  function CappedEntries(entries: seq<(string, Value)>): seq<(string, Summary)>
    decreases entries, 1
  {
    var max := Min(|entries|, Cap);
    var out := PutAll(entries, max);
    if |entries| > max then Put(out, "_truncated", SText(NatToString(|entries| - max) + " more entries")) else out
  }

  /**
   * A collection's summary has at most eleven entries: the first ten
   * elements' summaries in order, and a marker counting the rest exactly
   * when there are more than ten.
   */
  lemma CappedListShape(items: seq<Value>)
    ensures var r := CappedList(items);
      |r| <= Cap + 1
      && (forall i :: 0 <= i < Min(|items|, Cap) ==> r[i] == Summarize(items[i]))
      && (|items| <= Cap ==> |r| == |items|)
      && (|items| > Cap ==> |r| == Cap + 1 && r[Cap] == SText(More(|items| - Cap)))
  {
  }

  /** Different counts give different markers, so the marker tells how many elements were left out. */
  lemma MoreInjective(n: nat, m: nat)
    requires More(n) == More(m)
    ensures n == m
  {
    var a, b := NatToString(n), NatToString(m);
    assert |a| == |b|;
    assert a == More(n)[3..3 + |a|];
    assert b == More(m)[3..3 + |b|];
    IntToStringInjective(n, m);
  }

  /** `put` keeps the new entry and every entry with another key; a new key is appended. */
  lemma {:induction false} PutKeys(out: seq<(string, Summary)>, k: string, s: Summary)
    ensures var r := Put(out, k, s);
      (exists i :: 0 <= i < |r| && r[i] == (k, s))
      && (forall i :: 0 <= i < |out| && out[i].0 != k ==> out[i] in r)
      && ((forall i :: 0 <= i < |out| ==> out[i].0 != k) ==> r == out + [(k, s)])
  {
    if out != [] && out[0].0 != k {
      PutKeys(out[1..], k, s);
      var r := Put(out, k, s);
      var t := Put(out[1..], k, s);
      var i :| 0 <= i < |t| && t[i] == (k, s);
      assert r[i + 1] == (k, s);
      forall j | 0 <= j < |out| && out[j].0 != k
        ensures out[j] in r
      {
        if j > 0 {
          assert out[1..][j - 1] == out[j];
        }
      }
      if forall j :: 0 <= j < |out| ==> out[j].0 != k {
        assert forall j :: 0 <= j < |out[1..]| ==> out[1..][j].0 != k by {
          forall j | 0 <= j < |out[1..]| ensures out[1..][j].0 != k { assert out[1..][j] == out[j + 1]; }
        }
        assert [out[0]] + (out[1..] + [(k, s)]) == out + [(k, s)];
      }
    } else if out != [] {
      var r := Put(out, k, s);
      assert r[0] == (k, s);
      assert out[0].0 == k;
      forall j | 0 <= j < |out| && out[j].0 != k
        ensures out[j] in r
      {
        assert r[j] == out[j];
      }
    } else {
      assert Put(out, k, s)[0] == (k, s);
    }
  }

  /** A map summary has at most eleven entries. */
  lemma {:induction false} PutAllLength(entries: seq<(string, Value)>, n: nat)
    requires n <= |entries|
    ensures |PutAll(entries, n)| <= n
  {
    if n > 0 {
      PutAllLength(entries, n - 1);
    }
  }

  lemma CappedEntriesLength(entries: seq<(string, Value)>)
    ensures |CappedEntries(entries)| <= Cap + 1
    ensures |entries| <= Cap ==> |CappedEntries(entries)| <= |entries|
  {
    PutAllLength(entries, Min(|entries|, Cap));
  }

  /** The collection branch's loop: add summaries until ten are in, then the marker. */
  method SummarizeCollection(col: seq<Value>) returns (list: seq<Summary>)
    ensures list == CappedList(col)
  {
    var max := Min(|col|, Cap);
    list := [];
    var i := 0;
    var k := 0;
    while k < |col|
      invariant 0 <= k <= |col| && i == k <= max
      invariant list == seq(k, j requires 0 <= j < k => Summarize(col[j]))
    {
      var o := col[k];
      if i >= max {
        break;
      }
      i := i + 1;
      list := list + [Summarize(o)];
      k := k + 1;
    }
    if |col| > max {
      list := list + [SText(More(|col| - max))];
    }
  }

  /** The map branch's loop: put entries until ten are in, then the `_truncated` entry. */
  method SummarizeMap(entries: seq<(string, Value)>) returns (out: seq<(string, Summary)>)
    ensures out == CappedEntries(entries)
  {
    out := [];
    var i := 0;
    var k := 0;
    while k < |entries|
      invariant 0 <= k <= |entries| && i == k <= Cap
      invariant out == PutAll(entries, k)
    {
      var e := entries[k];
      if i >= Cap {
        break;
      }
      i := i + 1;
      out := Put(out, e.0, Summarize(e.1));
      k := k + 1;
    }
    if |entries| > Cap {
      out := Put(out, "_truncated", SText(NatToString(|entries| - Cap) + " more entries"));
    }
  }

  /**
   * What each kind of value is summarised as: null stays null, a byte array
   * becomes its length, a servlet object its class name, a collection or an
   * array a capped list, and a plain value its masked JSON cut at 1000
   * characters.
   */
  lemma SummarizeKinds(v: Value)
    ensures v.Null? <==> Summarize(v) == SNull
    ensures v.Bytes? ==> Summarize(v) == SText("byte[" + NatToString(v.length) + "]")
    ensures v.Servlet? ==> Summarize(v) == SText(v.className)
    ensures v.Collection? || v.ArrayValue? ==> Summarize(v).SList? && |Summarize(v).items| <= Cap + 1
    ensures v.Plain? ==> Summarize(v).SText? && |Summarize(v).text| <= 1003
    ensures v.Plain? && |MaskJson(v.json)| <= 1000 ==> Summarize(v).text == MaskJson(v.json)
  {
    if v.Collection? || v.ArrayValue? {
      CappedListShape(v.items);
    }
  }

  /** `argsMap(names, values)`: each name to the summary of its value, null past the end of `values`. */
  function ArgsMap(names: Option<seq<string>>, values: seq<Value>): map<string, Summary> {
    if names.None? then map[] else NamedArgs(names.value, values)
  }

  function NamedArgs(names: seq<string>, values: seq<Value>): map<string, Summary> {
    if names == [] then map[]
    else
      var i := |names| - 1;
      NamedArgs(names[..i], values)[names[i] := Summarize(if i < |values| then values[i] else Null)]
  }

  /** Every parameter name is a key; with distinct names each maps to its own argument's summary. */
  lemma {:induction false} NamedArgsSpec(names: seq<string>, values: seq<Value>)
    ensures NamedArgs(names, values).Keys == set n | n in names
    ensures (forall i, j :: 0 <= i < j < |names| ==> names[i] != names[j]) ==>
      forall i :: 0 <= i < |names| ==>
        NamedArgs(names, values)[names[i]] == Summarize(if i < |values| then values[i] else Null)
  {
    if names != [] {
      var i := |names| - 1;
      NamedArgsSpec(names[..i], values);
      assert names == names[..i] + [names[i]];
    }
  }

  // ---------------------------------------------------------------------
  // Correlation id
  // ---------------------------------------------------------------------

  /**
   * `correlationId(req)`: the request's X-Correlation-Id header when it is
   * present and not blank, else a generated random id (`generated`). `header` is
   * `None` without a request, `Some(None)` without the header.
   */
  function CorrelationId(header: Option<Option<string>>, generated: string): (r: string)
    ensures r == generated || (header.Some? && header.value.Some? && r == header.value.value)
  {
    if header.None? || header.value.None? || IsBlank(header.value.value) then generated else header.value.value
  }

  /** An existing non-blank id is reused; otherwise the generated one is used. */
  lemma CorrelationReuse(header: Option<Option<string>>, generated: string)
    ensures header.Some? && header.value.Some? && !IsBlank(header.value.value) ==>
      CorrelationId(header, generated) == header.value.value
    ensures header.None? || header.value.None? || IsBlank(header.value.value) ==> CorrelationId(header, generated) == generated
  {
  }
}
