/**
 * `SpendingAlertService`: how freshly detected alerts are finished
 * (severity, title, description, reason), deduplicated by signature and
 * merged into the stored alerts during a recompute, and how a user
 * acknowledges, dismisses and summarises them.
 */
module SpendingAlerts {
  import opened Wrappers
  import opened Text
  import opened Calendar
  import opened Alerts

  const Critical := "critical"
  const Moderate := "moderate"

  /** The four alert types, in the order the rules run. */
  predicate KnownKind(kind: string) {
    kind == "large_transaction" || kind == "new_merchant" || kind == "frequency" || kind == "category_spike"
  }

  // ------------------------------------------------------------ text helpers

  /** `titleFor`: one title per known type, "Spending Alert" for any other. */
  function TitleFor(kind: string): (r: string)
    ensures r == "Spending Alert" <==> !KnownKind(kind)
    ensures r != ""
  {
    if kind == "large_transaction" then "Large Transaction Detected"
    else if kind == "new_merchant" then "New Merchant"
    else if kind == "frequency" then "Unusual Frequency"
    else if kind == "category_spike" then "Category Spending Spike"
    else "Spending Alert"
  }

  /** Java string concatenation of a possibly null String. */
  function Show(o: Option<string>): string {
    if o.Some? then o.value else "null"
  }

  /**
   * `descriptionFor`. `amountText` is the amount as `BigDecimal.toString`
   * prints it; the printing itself is not part of this model.
   */
  function DescriptionFor(kind: string, amountText: string, category: Option<string>, merchant: Option<string>): (r: string)
    ensures !KnownKind(kind) <==> r == "Unusual spending pattern"
  {
    if kind == "large_transaction" then "Transaction exceeds typical amount (" + amountText + ")"
    else if kind == "new_merchant" then "First high-value spend at " + Show(merchant)
    else if kind == "frequency" then "Multiple transactions detected in short window"
    else if kind == "category_spike" then "Spending spike in category " + Show(category)
    else "Unusual spending pattern"
  }

  /** `normalize`: a list filter that is null, blank or "all" means no filter. */
  function Normalize(v: Option<string>): (r: Option<string>)
    ensures r.None? <==> (v.None? || v.value == "all" || IsBlank(v.value))
    ensures r.Some? ==> r == v
  {
    if v.None? || v.value == "all" || IsBlank(v.value) then None else v
  }

  lemma NormalizeIdempotent(v: Option<string>)
    ensures Normalize(Normalize(v)) == Normalize(v)
  {
  }

  // --------------------------------------------------------------- severity

  /** `value instanceof Number`, and the number's value. */
  function NumberValue(v: MetaValue): Option<real> {
    match v
    case MDecimal(d) => Some(d)
    case MNumber(n) => Some(n)
    case MNull => None
  }

  function MetaNumber(meta: Option<Meta>, key: string): Option<real> {
    if meta.Some? && key in meta.value then NumberValue(meta.value[key]) else None
  }

  /** `Number.intValue()` of a Double: truncation toward zero. */
  function IntValue(x: real): (r: int)
    ensures x >= 0.0 ==> r as real <= x < r as real + 1.0
    ensures x < 0.0 ==> r as real - 1.0 < x <= r as real
  {
    if x >= 0.0 then x.Floor else -((-x).Floor)
  }

  /**
   * The metadata as `recompute` sees it: written to JSON by the rule and read
   * back into a `Map<String,Object>`. Jackson reads every JSON number back as
   * an Integer, Long or Double, never as a BigDecimal.
   */
  function Reread(v: MetaValue): (r: MetaValue)
    ensures !r.MDecimal? && NumberValue(r) == NumberValue(v)
  {
    match v
    case MDecimal(d) => MNumber(d)
    case _ => v
  }

  function RoundTrip(meta: Meta): (r: Meta)
    ensures r.Keys == meta.Keys
    ensures forall k :: k in r ==> r[k] == Reread(meta[k])
  {
    map k | k in meta :: Reread(meta[k])
  }

  /** The large-transaction rule's absolute override: critical at or above `criticalLargeAbsolute`. */
  predicate LargeAbsoluteCritical(amt: real, st: Option<Settings>) {
    st.Some? && st.value.criticalLargeAbsolute.Some? && amt >= st.value.criticalLargeAbsolute.value
  }

  predicate NewMerchantCritical(amt: real, st: Option<Settings>) {
    st.Some? && st.value.criticalNewMerchantAbsolute.Some? && amt >= st.value.criticalNewMerchantAbsolute.value
  }

  predicate SpikeCritical(meta: Option<Meta>, st: Option<Settings>) {
    && st.Some? && st.value.criticalCategorySpikeMultiplier.Some?
    && MetaNumber(meta, "multiplier").Some?
    && MetaNumber(meta, "multiplier").value >= st.value.criticalCategorySpikeMultiplier.value
  }

  predicate FrequencyCritical(meta: Option<Meta>, st: Option<Settings>) {
    && st.Some? && st.value.criticalFrequencyCount.Some?
    && MetaNumber(meta, "count").Some?
    && IntValue(MetaNumber(meta, "count").value) >= st.value.criticalFrequencyCount.value
  }

  /**
   * `suggestSeverity` as written: the 1.25 x threshold escalation of a large
   * transaction fires only when the metadata value is a BigDecimal.
   */
  function SuggestSeverityAsWritten(kind: string, amt: real, meta: Option<Meta>, st: Option<Settings>): (r: string)
    ensures r == Critical || r == Moderate
  {
    if kind == "large_transaction" then
      if LargeAbsoluteCritical(amt, st) then Critical
      else if meta.Some? && "threshold" in meta.value && meta.value["threshold"].MDecimal?
              && st.Some? && st.value.criticalLargeAbsolute.None?
              && amt > meta.value["threshold"].d * 1.25 then Critical
      else Moderate
    else if kind == "category_spike" then (if SpikeCritical(meta, st) then Critical else Moderate)
    else if kind == "frequency" then (if FrequencyCritical(meta, st) then Critical else Moderate)
    else if kind == "new_merchant" then (if NewMerchantCritical(amt, st) then Critical else Moderate)
    else Moderate
  }

  /** The 1.25 x threshold escalation, reading the threshold as any number. */
  predicate ThresholdCritical(amt: real, meta: Option<Meta>, st: Option<Settings>) {
    && MetaNumber(meta, "threshold").Some?
    && st.Some? && st.value.criticalLargeAbsolute.None?
    && amt > MetaNumber(meta, "threshold").value * 1.25
  }

  /** `suggestSeverity` with the threshold read as a number, whatever its Java class. */
  function SuggestSeverity(kind: string, amt: real, meta: Option<Meta>, st: Option<Settings>): (r: string)
    ensures r == Critical || r == Moderate
    ensures !KnownKind(kind) ==> r == Moderate
  {
    if kind == "large_transaction" then
      (if LargeAbsoluteCritical(amt, st) || ThresholdCritical(amt, meta, st) then Critical else Moderate)
    else if kind == "category_spike" then (if SpikeCritical(meta, st) then Critical else Moderate)
    else if kind == "frequency" then (if FrequencyCritical(meta, st) then Critical else Moderate)
    else if kind == "new_merchant" then (if NewMerchantCritical(amt, st) then Critical else Moderate)
    else Moderate
  }

  /**
   * A larger amount is never less severe: for the amount-driven types, a
   * critical verdict at `a1` stays critical at any `a2 >= a1`.
   */
  lemma SeverityMonotoneInAmount(kind: string, a1: real, a2: real, meta: Option<Meta>, st: Option<Settings>)
    requires a1 <= a2
    requires SuggestSeverity(kind, a1, meta, st) == Critical
    ensures SuggestSeverity(kind, a2, meta, st) == Critical
  {
  }

  /**
   * After the JSON round trip the as-written escalation is dead: a large
   * transaction is critical exactly when the absolute override says so.
   */
  lemma {:induction false} ThresholdEscalationDead(amt: real, meta: Meta, st: Option<Settings>)
    ensures SuggestSeverityAsWritten("large_transaction", amt, Some(RoundTrip(meta)), st) == Critical
        <==> LargeAbsoluteCritical(amt, st)
  {
    if "threshold" in RoundTrip(meta) {
      assert !RoundTrip(meta)["threshold"].MDecimal?;
    }
  }

  /** The two severities agree on everything but the threshold escalation. */
  lemma SeveritiesAgreeElsewhere(kind: string, amt: real, meta: Option<Meta>, st: Option<Settings>)
    requires kind != "large_transaction"
    ensures SuggestSeverityAsWritten(kind, amt, meta, st) == SuggestSeverity(kind, amt, meta, st)
  {
  }

  /**
   * A 200.00 spend in a category whose baseline is 100.00 (threshold 150.00
   * with the default multiplier 1.5) exceeds 1.25 x threshold = 187.50, yet
   * the as-written severity is moderate; read as a number, it is critical.
   */
  lemma ThresholdEscalationExample()
    ensures var t := Txn(Some(1), 0, Some(-200.0), Some("Food"), Some("Shop"));
      var a := LargeAlert(t, DefaultSettings, map["Food" := 100.0]);
      && IsLarge(t, DefaultSettings, map["Food" := 100.0], {}, {})
      && SuggestSeverityAsWritten(a.kind, a.amount, Some(RoundTrip(a.meta)), Some(DefaultSettings)) == Moderate
      && SuggestSeverity(a.kind, a.amount, Some(RoundTrip(a.meta)), Some(DefaultSettings)) == Critical
  {
    var t := Txn(Some(1), 0, Some(-200.0), Some("Food"), Some("Shop"));
    var a := LargeAlert(t, DefaultSettings, map["Food" := 100.0]);
    assert a.meta["threshold"] == MDecimal(150.0);
    assert RoundTrip(a.meta)["threshold"] == MNumber(150.0);
    ThresholdEscalationDead(a.amount, a.meta, Some(DefaultSettings));
  }

  // --------------------------------------------------------------- finishing

  /**
   * The finishing loop of `recompute`: every field a rule left unset gets
   * its default, and nothing else changes. `show` prints a BigDecimal.
   */
  function Finish(a: Alert, ruleKey: string, st: Option<Settings>, show: real -> string): (r: Alert)
    ensures r.severity.Some? && r.title.Some? && r.description.Some? && r.reason.Some?
    ensures a.severity.Some? ==> r.severity == a.severity
    ensures a.severity.None? ==> r.severity == Some(SuggestSeverity(a.kind, a.amount, Some(RoundTrip(a.meta)), st))
    ensures a.title.None? ==> r.title == Some(TitleFor(a.kind))
    ensures a.reason.None? ==> r.reason == Some("Rule: " + ruleKey)
    ensures r.(severity := a.severity, title := a.title, description := a.description, reason := a.reason) == a
  {
    a.(severity := if a.severity.None? then Some(SuggestSeverity(a.kind, a.amount, Some(RoundTrip(a.meta)), st)) else a.severity,
       title := if a.title.None? then Some(TitleFor(a.kind)) else a.title,
       description := if a.description.None? then Some(DescriptionFor(a.kind, show(a.amount), a.category, a.merchant)) else a.description,
       reason := if a.reason.None? then Some("Rule: " + ruleKey) else a.reason)
  }

  function FinishAll(alerts: seq<Alert>, ruleKey: string, st: Option<Settings>, show: real -> string): (r: seq<Alert>)
    ensures |r| == |alerts|
    ensures forall i :: 0 <= i < |alerts| ==> r[i] == Finish(alerts[i], ruleKey, st, show)
  {
    if alerts == [] then []
    else FinishAll(alerts[..|alerts| - 1], ruleKey, st, show) + [Finish(alerts[|alerts| - 1], ruleKey, st, show)]
  }

  /** All alerts the four rules produce, finished, in rule order. */
  function Produced(txns: seq<Txn>, st: Settings, baselines: map<string, real>, whitelist: set<string>,
                    muted: set<string>, to: Day, show: real -> string): seq<Alert>
  {
    FinishAll(LargeAlerts(txns, st, baselines, whitelist, muted), "large_transaction", Some(st), show)
      + FinishAll(FrequencyAlerts(txns, st, whitelist), "frequency", Some(st), show)
      + FinishAll(SpikeAlerts(txns, st, baselines, muted, to), "category_spike", Some(st), show)
      + FinishAll(NewMerchantAlerts(txns, st, whitelist), "new_merchant", Some(st), show)
  }

  // ---------------------------------------------------------------- dedup

  /**
   * The signature `type|merchant|category|ref` as the recompute joins it: a
   * missing merchant or category is empty and the reference is the
   * transaction id, else the transaction date, rendered as Java's string
   * concatenation renders them (`null` when both are missing).
   */
  type Signature = string

  function Sig(a: Alert): Signature {
    a.kind + "|" + a.merchant.GetOr("") + "|" + a.category.GetOr("") + "|" + RefText(a)
  }

  /** The last part of a signature: the transaction id, else `LocalDate.toString` of the date, else "null". */
  function RefText(a: Alert): string {
    if a.txnId.Some? then IntToString(a.txnId.value)
    else if a.txnDate.Some? then DayText(a.txnDate.value)
    else "null"
  }

  /** `LocalDate.toString`: `yyyy-MM-dd`, a year beyond 9999 with a '+' and a negative year with a '-'. */
  function DayText(d: Day): string {
    var c := CivilFromDays(d);
    var year := if c.year > 9999 then "+" + IntToString(c.year)
                else if c.year < 0 then "-" + ZeroPadded(-c.year, 4)
                else ZeroPadded(c.year, 4);
    year + "-" + ZeroPadded(c.month, 2) + "-" + ZeroPadded(c.day, 2)
  }

  /** The decimal digits of `n`, with leading zeros up to `width`. */
  function ZeroPadded(n: int, width: nat): (r: string)
    ensures n >= 0 ==> |r| >= width && forall i :: 0 <= i < |r| ==> IsDigit(r[i])
  {
    if n < 0 then IntToString(n)
    else
      var digits := NatToString(n);
      if |digits| >= width then digits else seq(width - |digits|, _ => '0') + digits
  }

  /**
   * When no type, merchant or category contains '|' (the four alert types do
   * not), equal signatures mean the same type, merchant, category and
   * reference.
   */
  lemma SigFields(a: Alert, b: Alert)
    requires '|' !in a.kind && '|' !in b.kind
    requires '|' !in a.merchant.GetOr("") && '|' !in a.category.GetOr("")
    requires '|' !in b.merchant.GetOr("") && '|' !in b.category.GetOr("")
    requires Sig(a) == Sig(b)
    ensures a.kind == b.kind && a.merchant.GetOr("") == b.merchant.GetOr("")
    ensures a.category.GetOr("") == b.category.GetOr("") && RefText(a) == RefText(b)
  {
    var ma, ca := a.merchant.GetOr(""), a.category.GetOr("");
    var mb, cb := b.merchant.GetOr(""), b.category.GetOr("");
    assert Sig(a) == a.kind + "|" + (ma + "|" + (ca + "|" + RefText(a)));
    assert Sig(b) == b.kind + "|" + (mb + "|" + (cb + "|" + RefText(b)));
    SplitAtBar(a.kind, b.kind, ma + "|" + (ca + "|" + RefText(a)), mb + "|" + (cb + "|" + RefText(b)));
    SplitAtBar(ma, mb, ca + "|" + RefText(a), cb + "|" + RefText(b));
    SplitAtBar(ca, cb, RefText(a), RefText(b));
  }

  /** Two strings without '|', each followed by '|', split the same way. */
  lemma SplitAtBar(x: string, y: string, u: string, v: string)
    requires '|' !in x && '|' !in y
    requires x + "|" + u == y + "|" + v
    ensures x == y && u == v
  {
    var l := x + "|" + u;
    BarAfter(x, u);
    BarAfter(y, v);
    assert |x| == |y|;
    assert x == l[..|x|] == y;
    assert u == l[|x| + 1..] == v;
  }

  /** In `x + "|" + u` with no '|' in `x`, the first '|' is at index |x|. */
  lemma BarAfter(x: string, u: string)
    requires '|' !in x
    ensures (x + "|" + u)[|x|] == '|'
    ensures forall i :: 0 <= i < |x| ==> (x + "|" + u)[i] != '|'
  {
    forall i | 0 <= i < |x| ensures (x + "|" + u)[i] != '|' {
      assert (x + "|" + u)[i] == x[i];
    }
  }

  /** A '|' inside a merchant name lets two different alerts share a signature. */
  lemma SigCollision()
    ensures var a := NewAlert("frequency", 0.0, Some("a|b"), Some("c"), None, Some(1), map[]);
            var b := NewAlert("frequency", 0.0, Some("a"), Some("b|c"), None, Some(1), map[]);
            a != b && Sig(a) == Sig(b)
  {
    var a := NewAlert("frequency", 0.0, Some("a|b"), Some("c"), None, Some(1), map[]);
    var b := NewAlert("frequency", 0.0, Some("a"), Some("b|c"), None, Some(1), map[]);
    assert a.merchant != b.merchant;
    assert RefText(a) == RefText(b) == "1";
  }

  function SigsOf(s: seq<Alert>): set<Signature> {
    set a | a in s :: Sig(a)
  }

  lemma SigsOfSnoc(s: seq<Alert>, x: Alert)
    ensures SigsOf(s + [x]) == SigsOf(s) + {Sig(x)}
  {
    assert forall a :: a in s + [x] <==> a in s || a == x;
  }

  /** The first alert of each signature, in list order. */
  function Dedup(s: seq<Alert>): seq<Alert> {
    if s == [] then []
    else
      var d := Dedup(s[..|s| - 1]);
      if Sig(s[|s| - 1]) in SigsOf(d) then d else d + [s[|s| - 1]]
  }

  lemma DedupSnoc(s: seq<Alert>, i: nat)
    requires i < |s|
    ensures Dedup(s[..i + 1]) == if Sig(s[i]) in SigsOf(Dedup(s[..i])) then Dedup(s[..i]) else Dedup(s[..i]) + [s[i]]
  {
    assert s[..i + 1][..i] == s[..i];
  }

  /** The duplicate-suppression loop of `recompute`, with its set of signatures seen. */
  method DedupBySignature(newAlerts: seq<Alert>) returns (deduped: seq<Alert>)
    ensures deduped == Dedup(newAlerts)
  {
    var sigs: set<Signature> := {};
    deduped := [];
    var i := 0;
    while i < |newAlerts|
      invariant 0 <= i <= |newAlerts|
      invariant deduped == Dedup(newAlerts[..i])
      invariant sigs == SigsOf(deduped)
    {
      DedupSnoc(newAlerts, i);
      var a := newAlerts[i];
      var sig := Sig(a);
      if sig !in sigs {
        SigsOfSnoc(deduped, a);
        sigs := sigs + {sig};
        deduped := deduped + [a];
      }
      i := i + 1;
    }
    assert newAlerts[..|newAlerts|] == newAlerts;
  }

  /** `s[i]` is the first alert of `s` with its signature. */
  predicate FirstOfSig(s: seq<Alert>, i: int) {
    0 <= i < |s| && forall j :: 0 <= j < i ==> Sig(s[j]) != Sig(s[i])
  }

  predicate DistinctSigs(s: seq<Alert>) {
    forall i, j :: 0 <= i < j < |s| ==> Sig(s[i]) != Sig(s[j])
  }

  /** Every alert of `r` is the first alert of `s` with its signature. */
  ghost predicate FirstsOf(r: seq<Alert>, s: seq<Alert>) {
    forall a :: a in r ==> exists i :: FirstOfSig(s, i) && s[i] == a
  }

  /**
   * Dedup keeps exactly one alert per signature of its input, and the one it
   * keeps is the first alert of the input with that signature.
   */
  lemma {:induction false} DedupSpec(s: seq<Alert>)
    ensures |Dedup(s)| <= |s|
    ensures SigsOf(Dedup(s)) == SigsOf(s)
    ensures DistinctSigs(Dedup(s))
    ensures FirstsOf(Dedup(s), s)
  {
    if s != [] {
      var init, last := s[..|s| - 1], s[|s| - 1];
      DedupSpec(init);
      assert s == init + [last];
      SigsOfSnoc(init, last);
      SigsOfSnoc(Dedup(init), last);
      DedupFirstsStep(init, last);
      DedupDistinctStep(init, last);
    }
  }

  /** The alert Dedup appends, if any, is the first of its signature, and earlier firsts stay first. */
  lemma DedupFirstsStep(init: seq<Alert>, last: Alert)
    requires SigsOf(Dedup(init)) == SigsOf(init) && FirstsOf(Dedup(init), init)
    ensures FirstsOf(Dedup(init + [last]), init + [last])
  {
    var s := init + [last];
    assert s[..|s| - 1] == init;
    var r := Dedup(s);
    forall a | a in r ensures exists i :: FirstOfSig(s, i) && s[i] == a {
      if a in Dedup(init) {
        var i :| FirstOfSig(init, i) && init[i] == a;
        assert FirstOfSig(s, i) && s[i] == a;
      } else {
        assert a == last && Sig(last) !in SigsOf(init);
        forall j | 0 <= j < |s| - 1 ensures Sig(s[j]) != Sig(last) {
          assert s[j] in init;
        }
        assert FirstOfSig(s, |s| - 1);
      }
    }
  }

  /** Dedup appends only an alert of a signature it has not kept yet. */
  lemma DedupDistinctStep(init: seq<Alert>, last: Alert)
    requires DistinctSigs(Dedup(init))
    ensures DistinctSigs(Dedup(init + [last]))
  {
    var s := init + [last];
    assert s[..|s| - 1] == init;
    var r := Dedup(s);
    if Sig(last) !in SigsOf(Dedup(init)) {
      forall i, j | 0 <= i < j < |r| ensures Sig(r[i]) != Sig(r[j]) {
        assert r[i] == Dedup(init)[i] && r[i] in Dedup(init);
        if j < |r| - 1 {
          assert r[j] == Dedup(init)[j];
        }
      }
    }
  }

  /** Deduplicating twice changes nothing. */
  lemma {:induction false} DedupIdempotent(s: seq<Alert>)
    ensures Dedup(Dedup(s)) == Dedup(s)
  {
    DedupSpec(s);
    DedupDistinct(Dedup(s));
  }

  /** A list whose signatures are already distinct is its own dedup. */
  lemma {:induction false} DedupDistinct(s: seq<Alert>)
    requires DistinctSigs(s)
    ensures Dedup(s) == s
  {
    if s != [] {
      var init, last := s[..|s| - 1], s[|s| - 1];
      DistinctInit(s);
      DedupDistinct(init);
      DedupSnoc(s, |s| - 1);
      assert Sig(last) !in SigsOf(Dedup(init));
      assert s[..|s|] == s == init + [last];
    }
  }

  /** Distinct signatures stay distinct without the last alert, whose signature no earlier alert has. */
  lemma DistinctInit(s: seq<Alert>)
    requires s != [] && DistinctSigs(s)
    ensures DistinctSigs(s[..|s| - 1])
    ensures Sig(s[|s| - 1]) !in SigsOf(s[..|s| - 1])
  {
    var init := s[..|s| - 1];
    forall i, j | 0 <= i < j < |init| ensures Sig(init[i]) != Sig(init[j]) {
      assert init[i] == s[i] && init[j] == s[j];
    }
    forall a | a in init ensures Sig(a) != Sig(s[|s| - 1]) {
      var k :| 0 <= k < |init| && init[k] == a;
      assert s[k] == a;
    }
  }

  /** The alerts whose signature is not in `sigs`, in order. */
  function NotRetained(s: seq<Alert>, sigs: set<Signature>): (r: seq<Alert>)
    ensures |r| <= |s|
    ensures forall a :: a in r <==> a in s && Sig(a) !in sigs
  {
    if s == [] then []
    else
      var init := NotRetained(s[..|s| - 1], sigs);
      assert s == s[..|s| - 1] + [s[|s| - 1]];
      if Sig(s[|s| - 1]) in sigs then init else init + [s[|s| - 1]]
  }

  lemma {:induction false} NotRetainedDistinct(s: seq<Alert>, sigs: set<Signature>)
    requires DistinctSigs(s)
    ensures DistinctSigs(NotRetained(s, sigs))
  {
    if s != [] {
      var init := s[..|s| - 1];
      var head := NotRetained(init, sigs);
      NotRetainedDistinct(init, sigs);
      forall a | a in head ensures Sig(a) != Sig(s[|s| - 1]) {
        var k :| 0 <= k < |init| && init[k] == a;
        assert s[k] == a;
      }
      var r := NotRetained(s, sigs);
      if Sig(s[|s| - 1]) !in sigs {
        assert r == head + [s[|s| - 1]];
        forall i, j | 0 <= i < j < |r| ensures Sig(r[i]) != Sig(r[j]) {
          assert r[i] == head[i] && r[i] in head;
          if j < |r| - 1 {
            assert r[j] == head[j];
          }
        }
      } else {
        assert r == head;
      }
    }
  }

  // ---------------------------------------------------------------- the store

  /** A stored alert: its generated id, the owning user's id and the alert. */
  datatype Row = Row(id: int, owner: int, alert: Alert)

  /** The page size of the month search: only the 2000 newest alerts are read. */
  const SearchCap := 2000

  predicate InMonth(r: Row, user: int, from: Day, to: Day) {
    r.owner == user && r.alert.txnDate.Some? && from <= r.alert.txnDate.value <= to
  }

  /**
   * `repo.search(u, null, null, null, from, to, ...)` as written: the query
   * also demands `a.dismissed = false`.
   */
  function Search(rows: seq<Row>, user: int, from: Day, to: Day): (r: seq<Row>)
    ensures forall x :: x in r <==> x in rows && InMonth(x, user, from, to) && !x.alert.dismissed
  {
    if rows == [] then []
    else
      var x := rows[|rows| - 1];
      assert rows == rows[..|rows| - 1] + [x];
      Search(rows[..|rows| - 1], user, from, to) + (if InMonth(x, user, from, to) && !x.alert.dismissed then [x] else [])
  }

  /** The month's alerts of the user, dismissed ones included. */
  function SearchAll(rows: seq<Row>, user: int, from: Day, to: Day): (r: seq<Row>)
    ensures forall x :: x in r <==> x in rows && InMonth(x, user, from, to)
  {
    if rows == [] then []
    else
      var x := rows[|rows| - 1];
      assert rows == rows[..|rows| - 1] + [x];
      SearchAll(rows[..|rows| - 1], user, from, to) + (if InMonth(x, user, from, to) then [x] else [])
  }

  /** The newest `SearchCap` rows (rows are kept in creation order). */
  function Newest(s: seq<Row>): (r: seq<Row>)
    ensures |r| <= SearchCap && forall x :: x in r ==> x in s
    ensures |s| <= SearchCap ==> r == s
  {
    if |s| <= SearchCap then s else s[|s| - SearchCap..]
  }

  predicate UserActed(r: Row) {
    r.alert.acknowledged || r.alert.dismissed
  }

  function RetainedSigs(existing: seq<Row>): set<Signature> {
    set r | r in existing && UserActed(r) :: Sig(r.alert)
  }

  function Replaceable(existing: seq<Row>): (r: seq<Row>)
    ensures forall x :: x in r <==> x in existing && !UserActed(x)
  {
    if existing == [] then []
    else
      var x := existing[|existing| - 1];
      assert existing == existing[..|existing| - 1] + [x];
      Replaceable(existing[..|existing| - 1]) + (if UserActed(x) then [] else [x])
  }

  function IdsOf(s: seq<Row>): set<int> {
    set r | r in s :: r.id
  }

  /** The rows that survive `deleteAll`. */
  function Without(rows: seq<Row>, ids: set<int>): (r: seq<Row>)
    ensures forall x :: x in r <==> x in rows && x.id !in ids
  {
    if rows == [] then []
    else
      var x := rows[|rows| - 1];
      assert rows == rows[..|rows| - 1] + [x];
      Without(rows[..|rows| - 1], ids) + (if x.id in ids then [] else [x])
  }

  /** Deleting rows and appending freshly numbered ones keeps the ids unique and below the next id. */
  lemma ReplaceKeepsIds(rows: seq<Row>, nextId: int, ids: set<int>, alerts: seq<Alert>, user: int)
    requires UniqueIds(rows) && forall r :: r in rows ==> r.id < nextId
    ensures var all := Without(rows, ids) + Saved(alerts, user, nextId);
      UniqueIds(all) && forall r :: r in all ==> r.id < nextId + |alerts|
  {
    WithoutUnique(rows, ids);
    SavedAppend(Without(rows, ids), alerts, user, nextId);
  }

  lemma {:induction false} WithoutUnique(rows: seq<Row>, ids: set<int>)
    requires UniqueIds(rows)
    ensures UniqueIds(Without(rows, ids))
  {
    if rows != [] {
      var init, x := rows[..|rows| - 1], rows[|rows| - 1];
      WithoutUnique(init, ids);
      var head := Without(init, ids);
      if x.id !in ids {
        var r := Without(rows, ids);
        assert r == head + [x];
        forall i, j | 0 <= i < j < |r| ensures r[i].id != r[j].id {
          assert r[i] == head[i] && r[i] in init;
          if j < |r| - 1 {
            assert r[j] == head[j];
          } else {
            var k :| 0 <= k < |init| && init[k] == r[i];
            assert rows[k] == r[i];
          }
        }
      }
    }
  }

  /** The rows `saveAll` appends, numbered from `nextId`. */
  function Saved(alerts: seq<Alert>, user: int, nextId: int): (r: seq<Row>)
    ensures |r| == |alerts|
    ensures forall k :: 0 <= k < |alerts| ==> r[k] == Row(nextId + k, user, alerts[k])
  {
    if alerts == [] then []
    else Saved(alerts[..|alerts| - 1], user, nextId) + [Row(nextId + |alerts| - 1, user, alerts[|alerts| - 1])]
  }

  predicate UniqueIds(rows: seq<Row>) {
    forall i, j :: 0 <= i < j < |rows| ==> rows[i].id != rows[j].id
  }

  /** The alerts a recompute saves, given the month's existing rows. */
  function ToSave(existing: seq<Row>, produced: seq<Alert>): seq<Alert> {
    NotRetained(Dedup(produced), RetainedSigs(existing))
  }

  /**
   * The generating half of `recompute`: the four rules' alerts, finished,
   * de-duplicated by signature, and without those an existing acknowledged
   * alert already holds.
   */
  method Generate(existing: seq<Row>, txns: seq<Txn>, st: Settings, baselines: map<string, real>,
                  whitelist: set<string>, muted: set<string>, to: Day, show: real -> string)
    returns (toSave: seq<Alert>)
    ensures toSave == ToSave(existing, Produced(txns, st, baselines, whitelist, muted, to, show))
  {
    var large := DetectLarge(txns, st, baselines, whitelist, muted);
    var freq := DetectFrequency(txns, st, whitelist);
    var spike := DetectSpike(txns, st, baselines, muted, to);
    var firsts := DetectNewMerchant(txns, st, whitelist);
    var newAlerts := FinishAll(large, "large_transaction", Some(st), show)
      + FinishAll(freq, "frequency", Some(st), show)
      + FinishAll(spike, "category_spike", Some(st), show)
      + FinishAll(firsts, "new_merchant", Some(st), show);
    var deduped := DedupBySignature(newAlerts);
    toSave := NotRetained(deduped, RetainedSigs(existing));
  }

  /**
   * Finding: as written the month search leaves out dismissed alerts, so a
   * dismissed alert does not protect its signature and a recompute saves the
   * same alert again. One dismissed alert and one produced alert with its
   * signature show it.
   */
  lemma DismissedAlertComesBack(a: Alert, user: int, from: Day, to: Day)
    requires a.txnDate.Some? && from <= a.txnDate.value <= to
    ensures var stored := Row(1, user, a.(dismissed := true));
      var existing := Newest(Search([stored], user, from, to));
      && ToSave(existing, [a]) == [a]
      && Sig(a) == Sig(stored.alert)
  {
    var stored := Row(1, user, a.(dismissed := true));
    assert Search([stored], user, from, to) == [];
    assert Dedup([a]) == [a] by {
      assert [a][..0] == [];
    }
    assert NotRetained([a], {}) == [a] by {
      assert [a][..0] == [];
    }
  }

  /** No alert of `s` carries the signature of a row the user acknowledged or dismissed. */
  predicate AvoidsUserActed(s: seq<Alert>, existing: seq<Row>) {
    forall a, r :: a in s && r in existing && UserActed(r) ==> Sig(a) != Sig(r.alert)
  }

  /** Every signature of `produced` that no acted-on row holds is saved. */
  predicate CoversOpenSigs(s: seq<Alert>, existing: seq<Row>, produced: seq<Alert>) {
    forall a :: a in produced && Sig(a) !in RetainedSigs(existing) ==> exists b :: b in s && Sig(b) == Sig(a)
  }

  /**
   * The alerts a recompute saves come from the rules, have distinct
   * signatures, avoid every signature an acknowledged or dismissed row of
   * `existing` holds, and cover every other signature the rules produced.
   */
  lemma {:induction false} ToSaveSpec(existing: seq<Row>, produced: seq<Alert>)
    ensures |ToSave(existing, produced)| <= |produced|
    ensures forall a :: a in ToSave(existing, produced) ==> a in produced
    ensures DistinctSigs(ToSave(existing, produced))
    ensures AvoidsUserActed(ToSave(existing, produced), existing)
    ensures CoversOpenSigs(ToSave(existing, produced), existing, produced)
  {
    var d := Dedup(produced);
    DedupSpec(produced);
    NotRetainedDistinct(d, RetainedSigs(existing));
    var s := ToSave(existing, produced);
    forall a | a in s ensures a in produced {
      var i :| FirstOfSig(produced, i) && produced[i] == a;
    }
    forall a, r | a in s && r in existing && UserActed(r) ensures Sig(a) != Sig(r.alert) {
      assert Sig(r.alert) in RetainedSigs(existing);
    }
    forall a | a in produced && Sig(a) !in RetainedSigs(existing) ensures exists b :: b in s && Sig(b) == Sig(a) {
      assert Sig(a) in SigsOf(produced);
      var b :| b in d && Sig(b) == Sig(a);
      assert b in s;
    }
  }

  /**
   * With the corrected search every dismissed alert of the month among the
   * newest rows holds its signature, so a recompute never saves it again.
   */
  lemma DismissedStaysDismissed(rows: seq<Row>, user: int, from: Day, to: Day, produced: seq<Alert>, r: Row)
    requires r in Newest(SearchAll(rows, user, from, to)) && r.alert.dismissed
    ensures forall a :: a in ToSave(Newest(SearchAll(rows, user, from, to)), produced) ==> Sig(a) != Sig(r.alert)
  {
    ToSaveSpec(Newest(SearchAll(rows, user, from, to)), produced);
  }

  /** `SpendingAlertSummaryDto`'s counters. */
  datatype Summary = Summary(critical: nat, moderate: nat, acknowledged: nat, total: nat)

  function CountOpen(rows: seq<Row>, user: int, severity: string): (n: nat)
    ensures n <= |rows|
  {
    if rows == [] then 0
    else
      var r := rows[|rows| - 1];
      CountOpen(rows[..|rows| - 1], user, severity)
        + (if r.owner == user && r.alert.severity == Some(severity) && !r.alert.acknowledged && !r.alert.dismissed then 1 else 0)
  }

  function CountAcknowledged(rows: seq<Row>, user: int): (n: nat)
    ensures n <= |rows|
  {
    if rows == [] then 0
    else
      var r := rows[|rows| - 1];
      CountAcknowledged(rows[..|rows| - 1], user) + (if r.owner == user && r.alert.acknowledged && !r.alert.dismissed then 1 else 0)
  }

  /** The user's alerts that are not dismissed. */
  function CountVisible(rows: seq<Row>, user: int): (n: nat)
    ensures n <= |rows|
  {
    if rows == [] then 0
    else
      var r := rows[|rows| - 1];
      CountVisible(rows[..|rows| - 1], user) + (if r.owner == user && !r.alert.dismissed then 1 else 0)
  }

  /** `summary`: the counters over all of the user's alerts (the month is not consulted). */
  function SummaryOf(rows: seq<Row>, user: int): Summary {
    var c, m, a := CountOpen(rows, user, Critical), CountOpen(rows, user, Moderate), CountAcknowledged(rows, user);
    Summary(c, m, a, c + m + a)
  }

  /**
   * The total never exceeds the user's visible alerts, and equals them when
   * every open alert is critical or moderate, which `recompute` guarantees.
   */
  lemma {:induction false} SummaryTotal(rows: seq<Row>, user: int)
    ensures SummaryOf(rows, user).total <= CountVisible(rows, user)
    ensures (forall r :: r in rows && r.owner == user && !r.alert.acknowledged && !r.alert.dismissed
               ==> r.alert.severity == Some(Critical) || r.alert.severity == Some(Moderate))
            ==> SummaryOf(rows, user).total == CountVisible(rows, user)
  {
    if rows != [] {
      var init := rows[..|rows| - 1];
      SummaryTotal(init, user);
      assert forall r :: r in init ==> r in rows;
    }
  }

  /** `acknowledge`: the first call stamps the time; later calls change nothing. */
  function Acknowledged(a: Alert, now: DateTime): (r: Alert)
    ensures r.acknowledged
    ensures r.acknowledgedAt == if a.acknowledged then a.acknowledgedAt else Some(now)
    ensures r.(acknowledged := a.acknowledged, acknowledgedAt := a.acknowledgedAt) == a
  {
    if a.acknowledged then a else a.(acknowledged := true, acknowledgedAt := Some(now))
  }

  lemma AcknowledgeIdempotent(a: Alert, t1: DateTime, t2: DateTime)
    ensures Acknowledged(Acknowledged(a, t1), t2) == Acknowledged(a, t1)
  {
  }

  /** `dismiss`: dismissedAt is overwritten on every call. */
  function Dismissed(a: Alert, now: DateTime): (r: Alert)
    ensures r.dismissed && r.dismissedAt == Some(now)
    ensures r.(dismissed := a.dismissed, dismissedAt := a.dismissedAt) == a
  {
    a.(dismissed := true, dismissedAt := Some(now))
  }

  /** The index of the row with id `id`. */
  function FindRow(rows: seq<Row>, id: int): (r: Option<nat>)
    ensures r.Some? ==> r.value < |rows| && rows[r.value].id == id
    ensures r.None? ==> forall x :: x in rows ==> x.id != id
  {
    if rows == [] then None
    else if rows[|rows| - 1].id == id then Some(|rows| - 1)
    else
      assert rows == rows[..|rows| - 1] + [rows[|rows| - 1]];
      FindRow(rows[..|rows| - 1], id)
  }

  /** Why a request on one alert fails: no such id, or another user's alert ("FORBIDDEN"). */
  datatype Failure = NotFound | Forbidden

  /** `bulkAcknowledge` on one row: only the caller's unacknowledged rows named in `ids`. */
  function BulkAckRow(r: Row, ids: set<int>, user: int, now: DateTime): Row {
    if r.id in ids && r.owner == user && !r.alert.acknowledged then r.(alert := Acknowledged(r.alert, now)) else r
  }

  function BulkDismissRow(r: Row, ids: set<int>, user: int, now: DateTime): Row {
    if r.id in ids && r.owner == user && !r.alert.dismissed then r.(alert := Dismissed(r.alert, now)) else r
  }

  /** The rows `findAllById(ids)` returns, in store order. */
  function Named(rows: seq<Row>, ids: set<int>): (r: seq<Row>)
    ensures forall x :: x in r <==> x in rows && x.id in ids
  {
    if rows == [] then []
    else
      var x := rows[|rows| - 1];
      assert rows == rows[..|rows| - 1] + [x];
      Named(rows[..|rows| - 1], ids) + (if x.id in ids then [x] else [])
  }

  function AlertsOf(rows: seq<Row>): (r: seq<Alert>)
    ensures |r| == |rows| && forall i :: 0 <= i < |rows| ==> r[i] == rows[i].alert
  {
    if rows == [] then [] else AlertsOf(rows[..|rows| - 1]) + [rows[|rows| - 1].alert]
  }

  /**
   * The stored alerts of all users, with the per-user generation stats that
   * `recompute` keeps in the settings row.
   */
  class AlertStore {
    var rows: seq<Row>
    var nextId: int
    var lastGeneratedCount: map<int, nat>
    var lastGeneratedAt: map<int, DateTime>

    ghost predicate Valid()
      reads this
    {
      UniqueIds(rows) && forall r :: r in rows ==> r.id < nextId
    }

    constructor()
      ensures Valid() && rows == [] && nextId == 1
      ensures lastGeneratedCount == map[] && lastGeneratedAt == map[]
    {
      rows, nextId := [], 1;
      lastGeneratedCount, lastGeneratedAt := map[], map[];
    }

    /**
     * `recomputeForUser` for the month [from, to]: replace the user's
     * untouched alerts of the month by the deduplicated alerts of the four
     * rules, skipping any whose signature an acknowledged or dismissed alert
     * already holds. Returns (generated, replaced).
     */
    method Recompute(user: int, from: Day, to: Day, txns: seq<Txn>, st: Settings, baselines: map<string, real>,
                     whitelist: set<string>, muted: set<string>, now: DateTime, show: real -> string)
      returns (generated: nat, replaced: nat)
      requires Valid()
      modifies this
      ensures Valid()
      ensures var existing := Newest(SearchAll(old(rows), user, from, to));
        var saved := ToSave(existing, Produced(txns, st, baselines, whitelist, muted, to, show));
        && replaced == |Replaceable(existing)|
        && generated == |saved|
        && rows == Without(old(rows), IdsOf(Replaceable(existing))) + Saved(saved, user, old(nextId))
        && nextId == old(nextId) + |saved|
      ensures lastGeneratedCount == old(lastGeneratedCount)[user := generated]
      ensures lastGeneratedAt == old(lastGeneratedAt)[user := now]
    {
      var existingAll := Newest(SearchAll(rows, user, from, to));
      var untouched := Replaceable(existingAll);
      replaced := |untouched|;
      var finalFiltered := Generate(existingAll, txns, st, baselines, whitelist, muted, to, show);
      ReplaceKeepsIds(rows, nextId, IdsOf(untouched), finalFiltered, user);
      rows := Without(rows, IdsOf(untouched)) + Saved(finalFiltered, user, nextId);
      nextId := nextId + |finalFiltered|;
      generated := |finalFiltered|;
      lastGeneratedCount := lastGeneratedCount[user := generated];
      lastGeneratedAt := lastGeneratedAt[user := now];
    }

    /** `acknowledge(id)` by `user`. */
    method Acknowledge(id: int, user: int, now: DateTime) returns (res: Result<Alert, Failure>)
      requires Valid()
      modifies this
      ensures Valid()
      ensures match FindRow(old(rows), id)
        case None => res == Err(NotFound) && rows == old(rows)
        case Some(i) =>
          if old(rows)[i].owner != user then res == Err(Forbidden) && rows == old(rows)
          else res == Ok(Acknowledged(old(rows)[i].alert, now))
               && rows == old(rows)[i := old(rows)[i].(alert := Acknowledged(old(rows)[i].alert, now))]
      ensures nextId == old(nextId) && lastGeneratedCount == old(lastGeneratedCount) && lastGeneratedAt == old(lastGeneratedAt)
    {
      var found := FindRow(rows, id);
      if found.None? {
        return Err(NotFound);
      }
      var i := found.value;
      if rows[i].owner != user {
        return Err(Forbidden);
      }
      var a := Acknowledged(rows[i].alert, now);
      rows := rows[i := rows[i].(alert := a)];
      res := Ok(a);
      forall r | r in rows ensures r.id < nextId {
        if r == rows[i] { assert old(rows)[i] in old(rows); }
        else { var k :| 0 <= k < |rows| && rows[k] == r; assert old(rows)[k] == r; }
      }
    }

    /** `dismiss(id)` by `user`. */
    method Dismiss(id: int, user: int, now: DateTime) returns (res: Result<Alert, Failure>)
      requires Valid()
      modifies this
      ensures Valid()
      ensures match FindRow(old(rows), id)
        case None => res == Err(NotFound) && rows == old(rows)
        case Some(i) =>
          if old(rows)[i].owner != user then res == Err(Forbidden) && rows == old(rows)
          else res == Ok(Dismissed(old(rows)[i].alert, now))
               && rows == old(rows)[i := old(rows)[i].(alert := Dismissed(old(rows)[i].alert, now))]
      ensures nextId == old(nextId) && lastGeneratedCount == old(lastGeneratedCount) && lastGeneratedAt == old(lastGeneratedAt)
    {
      var found := FindRow(rows, id);
      if found.None? {
        return Err(NotFound);
      }
      var i := found.value;
      if rows[i].owner != user {
        return Err(Forbidden);
      }
      var a := Dismissed(rows[i].alert, now);
      rows := rows[i := rows[i].(alert := a)];
      res := Ok(a);
      forall r | r in rows ensures r.id < nextId {
        if r == rows[i] { assert old(rows)[i] in old(rows); }
        else { var k :| 0 <= k < |rows| && rows[k] == r; assert old(rows)[k] == r; }
      }
    }

    /**
     * `bulkAcknowledge(ids)`: acknowledges the caller's unacknowledged rows
     * among `ids`, and returns every row `ids` names, whoever owns it.
     */
    method BulkAcknowledge(ids: set<int>, user: int, now: DateTime) returns (list: seq<Alert>)
      requires Valid()
      modifies this
      ensures Valid()
      ensures |rows| == |old(rows)|
      ensures forall i :: 0 <= i < |rows| ==> rows[i] == BulkAckRow(old(rows)[i], ids, user, now)
      ensures list == AlertsOf(Named(rows, ids))
      ensures nextId == old(nextId) && lastGeneratedCount == old(lastGeneratedCount) && lastGeneratedAt == old(lastGeneratedAt)
    {
      var i := 0;
      while i < |rows|
        invariant 0 <= i <= |rows| == |old(rows)|
        invariant forall k :: 0 <= k < i ==> rows[k] == BulkAckRow(old(rows)[k], ids, user, now)
        invariant nextId == old(nextId) && lastGeneratedCount == old(lastGeneratedCount) && lastGeneratedAt == old(lastGeneratedAt)
        invariant forall k :: i <= k < |rows| ==> rows[k] == old(rows)[k]
      {
        var r := rows[i];
        if r.id in ids && r.owner == user && !r.alert.acknowledged {
          rows := rows[i := r.(alert := Acknowledged(r.alert, now))];
        }
        i := i + 1;
      }
      list := AlertsOf(Named(rows, ids));
      IdsPreserved(old(rows), rows, nextId);
    }

    /** `bulkDismiss(ids)`: dismisses the caller's undismissed rows among `ids`. */
    method BulkDismiss(ids: set<int>, user: int, now: DateTime)
      requires Valid()
      modifies this
      ensures Valid()
      ensures |rows| == |old(rows)|
      ensures forall i :: 0 <= i < |rows| ==> rows[i] == BulkDismissRow(old(rows)[i], ids, user, now)
      ensures nextId == old(nextId) && lastGeneratedCount == old(lastGeneratedCount) && lastGeneratedAt == old(lastGeneratedAt)
    {
      var i := 0;
      while i < |rows|
        invariant 0 <= i <= |rows| == |old(rows)|
        invariant forall k :: 0 <= k < i ==> rows[k] == BulkDismissRow(old(rows)[k], ids, user, now)
        invariant nextId == old(nextId) && lastGeneratedCount == old(lastGeneratedCount) && lastGeneratedAt == old(lastGeneratedAt)
        invariant forall k :: i <= k < |rows| ==> rows[k] == old(rows)[k]
      {
        var r := rows[i];
        if r.id in ids && r.owner == user && !r.alert.dismissed {
          rows := rows[i := r.(alert := Dismissed(r.alert, now))];
        }
        i := i + 1;
      }
      IdsPreserved(old(rows), rows, nextId);
    }
  }

  /** Rows that keep their ids position by position keep the store's id invariant. */
  lemma IdsPreserved(before: seq<Row>, after: seq<Row>, nextId: int)
    requires UniqueIds(before) && forall r :: r in before ==> r.id < nextId
    requires |after| == |before| && forall i :: 0 <= i < |after| ==> after[i].id == before[i].id
    ensures UniqueIds(after) && forall r :: r in after ==> r.id < nextId
  {
    forall r | r in after ensures r.id < nextId {
      var k :| 0 <= k < |after| && after[k] == r;
      assert before[k] in before;
    }
  }

  /** Appending freshly numbered rows keeps ids unique and below the new counter. */
  lemma SavedAppend(rows: seq<Row>, alerts: seq<Alert>, user: int, nextId: int)
    requires UniqueIds(rows) && forall r :: r in rows ==> r.id < nextId
    ensures var all := rows + Saved(alerts, user, nextId);
      UniqueIds(all) && forall r :: r in all ==> r.id < nextId + |alerts|
  {
    var all := rows + Saved(alerts, user, nextId);
    forall i, j | 0 <= i < j < |all| ensures all[i].id != all[j].id {
      if j < |rows| {
      } else if i < |rows| {
        assert rows[i] in rows;
      }
    }
  }

  /**
   * A recompute keeps every row of other users and every acknowledged or
   * dismissed row, and removes exactly the user's untouched rows of the month
   * among the newest it read.
   */
  lemma {:induction false} RecomputeKeeps(rows: seq<Row>, user: int, from: Day, to: Day)
    requires UniqueIds(rows)
    ensures var existing := Newest(SearchAll(rows, user, from, to));
      var kept := Without(rows, IdsOf(Replaceable(existing)));
      && (forall r :: r in rows && (r.owner != user || UserActed(r)) ==> r in kept)
      && (forall r :: r in rows && !(r in existing && !UserActed(r)) ==> r in kept)
      && (forall r :: r in existing && !UserActed(r) ==> r !in kept)
  {
    var existing := Newest(SearchAll(rows, user, from, to));
    forall r | r in rows && r.id in IdsOf(Replaceable(existing)) ensures r in existing && !UserActed(r) {
      var x :| x in Replaceable(existing) && x.id == r.id;
      assert x in rows;
      var i :| 0 <= i < |rows| && rows[i] == r;
      var j :| 0 <= j < |rows| && rows[j] == x;
      assert i == j;
    }
  }
}
