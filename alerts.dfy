/**
 * The four spending-alert detectors. Each one reads the month's transactions
 * with the user's settings, category baselines, merchant whitelist and muted
 * categories, and returns freshly built alerts. HashMap iteration order is
 * modelled as the order in which keys first appear; every property below is
 * stated so that it does not depend on that order.
 */
module Alerts {
  import opened Wrappers
  import opened Text
  import opened Numbers
  import opened Calendar
  import Seqs

  /** A stored transaction as the rules read it; BigDecimal amounts are exact reals. */
  datatype Txn = Txn(id: Option<int>, date: Day, amount: Option<real>, category: Option<string>, merchant: Option<string>)

  /** `SpendingAlertSettings`: the `double` thresholds are reals. */
  datatype Settings = Settings(
    largeMultiplier: real,
    largeMinAmount: real,
    freqWindowHours: int,
    freqMaxTxn: int,
    freqMinAmount: real,
    catSpikeMultiplier: real,
    catSpikeLookbackMonths: int,
    catSpikeMinAmount: real,
    newMerchantMinAmount: real,
    criticalLargeAbsolute: Option<real>,
    criticalCategorySpikeMultiplier: Option<real>,
    criticalFrequencyCount: Option<int>,
    criticalNewMerchantAbsolute: Option<real>)

  /** A settings row as it is created: the entity's field initialisers. */
  const DefaultSettings := Settings(1.5, 0.0, 48, 4, 0.0, 2.0, 3, 0.0, 0.0, None, None, None, None)

  /**
   * A value of the alert's metadata map: a BigDecimal, another Number
   * (Integer, Long, Double) or null.
   */
  datatype MetaValue = MDecimal(d: real) | MNumber(n: real) | MNull
  type Meta = map<string, MetaValue>

  /** A `SpendingAlert` entity; the fields the rules leave unset are None. */
  datatype Alert = Alert(
    kind: string,
    severity: Option<string>,
    title: Option<string>,
    description: Option<string>,
    amount: real,
    merchant: Option<string>,
    category: Option<string>,
    txnDate: Option<Day>,
    txnId: Option<int>,
    reason: Option<string>,
    meta: Meta,
    acknowledged: bool,
    acknowledgedAt: Option<DateTime>,
    dismissed: bool,
    dismissedAt: Option<DateTime>)

  function NewAlert(kind: string, amount: real, merchant: Option<string>, category: Option<string>,
                    txnDate: Option<Day>, txnId: Option<int>, meta: Meta): Alert
  {
    Alert(kind, None, None, None, amount, merchant, category, txnDate, txnId, None, meta, false, None, false, None)
  }

  function IdMeta(id: Option<int>): MetaValue {
    if id.Some? then MNumber(id.value as real) else MNull
  }

  /** `map.getOrDefault(key, BigDecimal.ZERO)`. */
  function Baseline(baselines: map<string, real>, key: string): real {
    if key in baselines then baselines[key] else 0.0
  }

  // --------------------------------------------------- LargeTransactionRule

  /** A transaction the large-transaction rule alerts on. */
  predicate IsLarge(t: Txn, s: Settings, baselines: map<string, real>, whitelist: set<string>, muted: set<string>) {
    && t.amount.Some? && t.amount.value < 0.0
    && Lower(t.category.GetOr("")) !in muted
    && Lower(t.merchant.GetOr("")) !in whitelist
    && AbsReal(t.amount.value) > MaxReal(Baseline(baselines, t.category.GetOr("")) * s.largeMultiplier, s.largeMinAmount)
  }

  function LargeAlert(t: Txn, s: Settings, baselines: map<string, real>): Alert
    requires t.amount.Some?
  {
    var cat := t.category.GetOr("");
    var baseline := Baseline(baselines, cat);
    NewAlert("large_transaction", AbsReal(t.amount.value), Some(t.merchant.GetOr("")), Some(cat), Some(t.date), t.id,
             map["baselineAvg" := MDecimal(baseline), "threshold" := MDecimal(baseline * s.largeMultiplier),
                 "multiplier" := MNumber(s.largeMultiplier), "txnId" := IdMeta(t.id)])
  }

  /** The alerts of the large-transaction rule, one per large transaction, in list order. */
  function LargeAlerts(txns: seq<Txn>, s: Settings, baselines: map<string, real>, whitelist: set<string>, muted: set<string>): seq<Alert> {
    if txns == [] then []
    else
      var t := txns[|txns| - 1];
      LargeAlerts(txns[..|txns| - 1], s, baselines, whitelist, muted)
        + (if IsLarge(t, s, baselines, whitelist, muted) then [LargeAlert(t, s, baselines)] else [])
  }

  /** The loop body's tests, in order: a spend, a category not muted, a merchant not whitelisted, above the threshold. */
  method CheckLarge(t: Txn, s: Settings, baselines: map<string, real>, whitelist: set<string>, muted: set<string>)
    returns (large: bool)
    ensures large == IsLarge(t, s, baselines, whitelist, muted)
  {
    large := false;
    if t.amount.Some? && t.amount.value < 0.0 {
      var cat := t.category.GetOr("");
      if Lower(cat) !in muted {
        var merchant := t.merchant.GetOr("");
        if Lower(merchant) !in whitelist {
          var amtAbs := AbsReal(t.amount.value);
          var threshold := Baseline(baselines, cat) * s.largeMultiplier;
          large := amtAbs > MaxReal(threshold, s.largeMinAmount);
        }
      }
    }
  }

  lemma LargeSnoc(txns: seq<Txn>, i: nat, s: Settings, baselines: map<string, real>, whitelist: set<string>, muted: set<string>)
    requires i < |txns|
    ensures LargeAlerts(txns[..i + 1], s, baselines, whitelist, muted)
      == LargeAlerts(txns[..i], s, baselines, whitelist, muted)
         + (if IsLarge(txns[i], s, baselines, whitelist, muted) then [LargeAlert(txns[i], s, baselines)] else [])
  {
    assert txns[..i + 1][..i] == txns[..i];
  }

  /** `LargeTransactionRule.detect`. */
  method DetectLarge(txns: seq<Txn>, s: Settings, baselines: map<string, real>, whitelist: set<string>, muted: set<string>)
    returns (alerts: seq<Alert>)
    ensures alerts == LargeAlerts(txns, s, baselines, whitelist, muted)
  {
    alerts := [];
    var i := 0;
    while i < |txns|
      invariant 0 <= i <= |txns|
      invariant alerts == LargeAlerts(txns[..i], s, baselines, whitelist, muted)
    {
      LargeSnoc(txns, i, s, baselines, whitelist, muted);
      var t := txns[i];
      var large := CheckLarge(t, s, baselines, whitelist, muted);
      if large {
        alerts := alerts + [LargeAlert(t, s, baselines)];
      }
      i := i + 1;
    }
    assert txns[..|txns|] == txns;
  }

  /**
   * Every alert is the alert of a large transaction of the list (a spend, not
   * muted, not whitelisted, strictly above the larger of baseline*multiplier
   * and the minimum) with amount |amount| and its id; every large transaction
   * gets one; there are never more alerts than transactions.
   */
  lemma {:induction false} LargeAlertsSpec(txns: seq<Txn>, s: Settings, baselines: map<string, real>, whitelist: set<string>, muted: set<string>)
    ensures var r := LargeAlerts(txns, s, baselines, whitelist, muted);
      && |r| <= |txns|
      && (forall a :: a in r ==> exists t :: t in txns && IsLarge(t, s, baselines, whitelist, muted) && a == LargeAlert(t, s, baselines))
      && (forall t :: t in txns && IsLarge(t, s, baselines, whitelist, muted) ==> LargeAlert(t, s, baselines) in r)
      && (forall a :: a in r ==> a.kind == "large_transaction" && a.amount > 0.0 && a.severity.None?)
  {
    if txns != [] {
      var init := txns[..|txns| - 1];
      LargeAlertsSpec(init, s, baselines, whitelist, muted);
      assert txns == init + [txns[|txns| - 1]];
    }
  }

  // ------------------------------------------------------------ FrequencyRule

  /** The grouping key of a transaction: its lower-cased merchant, None when it is skipped. */
  function FreqKey(t: Txn): Option<string> {
    if t.amount.None? || IsBlank(t.merchant.GetOr("")) then None else Some(Lower(t.merchant.GetOr("")))
  }

  /** The distinct keys of `txns`, in the order they first appear. */
  function KeysOf(keys: seq<Option<string>>): seq<string> {
    if keys == [] then []
    else
      var init := KeysOf(keys[..|keys| - 1]);
      var last := keys[|keys| - 1];
      if last.Some? && last.value !in init then init + [last.value] else init
  }

  /** Every present key is listed, nothing else is, and none twice. */
  lemma {:induction false} KeysOfSpec(keys: seq<Option<string>>)
    ensures forall k :: k in KeysOf(keys) <==> Some(k) in keys
    ensures forall i, j :: 0 <= i < j < |KeysOf(keys)| ==> KeysOf(keys)[i] != KeysOf(keys)[j]
  {
    if keys != [] {
      KeysOfSpec(keys[..|keys| - 1]);
      assert keys == keys[..|keys| - 1] + [keys[|keys| - 1]];
    }
  }

  lemma KeysOfSnoc(keys: seq<Option<string>>, x: Option<string>)
    ensures KeysOf(keys + [x]) == if x.Some? && x.value !in KeysOf(keys) then KeysOf(keys) + [x.value] else KeysOf(keys)
  {
    assert (keys + [x])[..|keys|] == keys;
  }

  function FreqKeys(txns: seq<Txn>): seq<Option<string>> {
    if txns == [] then [] else FreqKeys(txns[..|txns| - 1]) + [FreqKey(txns[|txns| - 1])]
  }

  lemma {:induction false} FreqKeysIndex(txns: seq<Txn>)
    ensures |FreqKeys(txns)| == |txns|
    ensures forall i :: 0 <= i < |txns| ==> FreqKeys(txns)[i] == FreqKey(txns[i])
  {
    if txns != [] {
      FreqKeysIndex(txns[..|txns| - 1]);
    }
  }

  /** The transactions grouped under merchant key `k`, in list order. */
  function Group(txns: seq<Txn>, k: string): seq<Txn> {
    if txns == [] then []
    else
      var t := txns[|txns| - 1];
      Group(txns[..|txns| - 1], k) + (if FreqKey(t) == Some(k) then [t] else [])
  }

  /** The group's transactions of at least `freqMinAmount` in absolute value. */
  function Candidates(g: seq<Txn>, s: Settings): (r: seq<Txn>)
    ensures forall t :: t in r ==> t in g && t.amount.Some? && AbsReal(t.amount.value) >= s.freqMinAmount
  {
    if g == [] then []
    else
      var t := g[|g| - 1];
      Candidates(g[..|g| - 1], s) + (if t.amount.Some? && AbsReal(t.amount.value) >= s.freqMinAmount then [t] else [])
  }

  function DateKey(t: Txn): int { t.date }

  /** `Duration.between(a.atStartOfDay(), b.atStartOfDay()).toHours() <= windowHours`. */
  predicate Within(base: Txn, other: Txn, windowHours: int) {
    24 * (other.date - base.date) <= windowHours
  }

  /** How many transactions from `j` on lie, one after the other, within the window of `list[b]`. */
  function Run(list: seq<Txn>, b: nat, j: nat, windowHours: int): (n: nat)
    requires b < |list|
    ensures j + n <= |list| || n == 0
    decreases |list| - j
  {
    if j >= |list| || !Within(list[b], list[j], windowHours) then 0 else 1 + Run(list, b, j + 1, windowHours)
  }

  /** The count the rule computes from base `b`: the base and the run after it. */
  function WindowCount(list: seq<Txn>, b: nat, windowHours: int): nat
    requires b < |list|
  {
    1 + Run(list, b, b + 1, windowHours)
  }

  /**
   * A run of n from j covers exactly list[j..j+n], each within the window of
   * the base, and stops at the end of the list or at the first one outside it.
   */
  lemma {:induction false} RunMeaning(list: seq<Txn>, b: nat, j: nat, w: int)
    requires b < |list|
    ensures var n := Run(list, b, j, w);
      && (forall m :: j <= m < j + n ==> m < |list| && Within(list[b], list[m], w))
      && (j + n < |list| ==> !Within(list[b], list[j + n], w))
    decreases |list| - j
  {
    if j < |list| && Within(list[b], list[j], w) {
      RunMeaning(list, b, j + 1, w);
    }
  }

  /** The first base from `i` on whose count exceeds freqMaxTxn. */
  function FirstBurst(list: seq<Txn>, i: nat, s: Settings): (r: Option<nat>)
    ensures r.Some? ==> i <= r.value < |list| && WindowCount(list, r.value, s.freqWindowHours) > s.freqMaxTxn
    ensures r.Some? ==> forall b :: i <= b < r.value ==> WindowCount(list, b, s.freqWindowHours) <= s.freqMaxTxn
    ensures r.None? ==> forall b :: i <= b < |list| ==> WindowCount(list, b, s.freqWindowHours) <= s.freqMaxTxn
    decreases |list| - i
  {
    if i >= |list| then None
    else if WindowCount(list, i, s.freqWindowHours) > s.freqMaxTxn then Some(i)
    else FirstBurst(list, i + 1, s)
  }

  function FrequencyAlert(base: Txn, count: nat, s: Settings): Alert
    requires base.amount.Some?
  {
    NewAlert("frequency", AbsReal(base.amount.value), base.merchant, base.category, Some(base.date), base.id,
             map["count" := MNumber(count as real), "windowHours" := MNumber(s.freqWindowHours as real),
                 "minAmount" := MNumber(s.freqMinAmount)])
  }

  /** The sorted candidates of one merchant. */
  function Burst(g: seq<Txn>, s: Settings): seq<Txn> {
    Seqs.SortBy(Candidates(g, s), DateKey)
  }

  /** The alert for one merchant key: on the first base whose window holds too many transactions. */
  function MerchantAlert(txns: seq<Txn>, k: string, s: Settings, whitelist: set<string>): seq<Alert> {
    if k in whitelist then []
    else
      var list := Burst(Group(txns, k), s);
      match FirstBurst(list, 0, s)
      case None => []
      case Some(b) =>
        BurstHasAmount(Group(txns, k), s, list[b]);
        [FrequencyAlert(list[b], WindowCount(list, b, s.freqWindowHours), s)]
  }

  lemma BurstHasAmount(g: seq<Txn>, s: Settings, t: Txn)
    requires t in Burst(g, s)
    ensures t in g && t.amount.Some? && AbsReal(t.amount.value) >= s.freqMinAmount
  {
    var c := Candidates(g, s);
    assert t in multiset(Seqs.SortBy(c, DateKey));
    assert t in multiset(c);
  }

  function AlertsForKeys(txns: seq<Txn>, keys: seq<string>, s: Settings, whitelist: set<string>): seq<Alert> {
    if keys == [] then []
    else AlertsForKeys(txns, keys[..|keys| - 1], s, whitelist) + MerchantAlert(txns, keys[|keys| - 1], s, whitelist)
  }

  /** The alerts of the frequency rule: one pass over the merchant keys. */
  function FrequencyAlerts(txns: seq<Txn>, s: Settings, whitelist: set<string>): seq<Alert> {
    AlertsForKeys(txns, KeysOf(FreqKeys(txns)), s, whitelist)
  }

  /** Adding a transaction to the prefix extends exactly its key's group. */
  lemma GroupSnoc(txns: seq<Txn>, i: nat, k: string)
    requires i < |txns|
    ensures Group(txns[..i + 1], k) == Group(txns[..i], k) + (if FreqKey(txns[i]) == Some(k) then [txns[i]] else [])
  {
    assert txns[..i + 1][..i] == txns[..i];
  }

  lemma FreqKeysSnoc(txns: seq<Txn>, i: nat)
    requires i < |txns|
    ensures FreqKeys(txns[..i + 1]) == FreqKeys(txns[..i]) + [FreqKey(txns[i])]
  {
    assert txns[..i + 1][..i] == txns[..i];
  }

  /** The HashMap the first loop builds, as a function of the transactions read so far. */
  function GroupMap(txns: seq<Txn>): map<string, seq<Txn>> {
    if txns == [] then map[]
    else
      var m, t := GroupMap(txns[..|txns| - 1]), txns[|txns| - 1];
      match FreqKey(t)
      case None => m
      case Some(k) => m[k := (if k in m then m[k] else []) + [t]]
  }

  lemma GroupMapSnoc(txns: seq<Txn>, i: nat)
    requires i < |txns|
    ensures GroupMap(txns[..i + 1]) == match FreqKey(txns[i])
      case None => GroupMap(txns[..i])
      case Some(k) => GroupMap(txns[..i])[k := (if k in GroupMap(txns[..i]) then GroupMap(txns[..i])[k] else []) + [txns[i]]]
  {
    assert txns[..i + 1][..i] == txns[..i];
  }

  /** The map holds a key for every merchant seen, with that merchant's group. */
  lemma {:induction false} GroupMapSpec(txns: seq<Txn>)
    ensures forall k :: k in GroupMap(txns) <==> Some(k) in FreqKeys(txns)
    ensures forall k :: k in GroupMap(txns) ==> GroupMap(txns)[k] == Group(txns, k)
  {
    if txns != [] {
      var init := txns[..|txns| - 1];
      GroupMapSpec(init);
      assert FreqKeys(txns) == FreqKeys(init) + [FreqKey(txns[|txns| - 1])];
      forall k | Some(k) !in FreqKeys(init) ensures Group(init, k) == [] {
        GroupEmpty(init, k);
      }
    }
  }

  /** The first loop of `FrequencyRule.detect`: the transactions grouped by merchant key. */
  method GroupByMerchant(txns: seq<Txn>) returns (byMerchant: map<string, seq<Txn>>, order: seq<string>)
    ensures order == KeysOf(FreqKeys(txns))
    ensures forall k :: k in byMerchant <==> k in order
    ensures forall k :: k in byMerchant ==> byMerchant[k] == Group(txns, k)
  {
    byMerchant, order := map[], [];
    var i := 0;
    while i < |txns|
      invariant 0 <= i <= |txns|
      invariant order == KeysOf(FreqKeys(txns[..i]))
      invariant byMerchant == GroupMap(txns[..i])
      invariant forall k :: k in byMerchant <==> k in order
    {
      var t := txns[i];
      GroupStep(txns, i, byMerchant, order);
      var fk := FreqKey(t);
      if fk.Some? {
        var key := fk.value;
        if key in byMerchant {
          byMerchant := byMerchant[key := byMerchant[key] + [t]];
        } else {
          byMerchant := byMerchant[key := [t]];
          order := order + [key];
        }
      }
      i := i + 1;
    }
    assert txns[..|txns|] == txns;
    GroupMapSpec(txns);
    KeysOfSpec(FreqKeys(txns));
  }

  /** One step of the grouping loop: the key list and the map after one more transaction. */
  lemma GroupStep(txns: seq<Txn>, i: nat, byMerchant: map<string, seq<Txn>>, order: seq<string>)
    requires i < |txns|
    requires order == KeysOf(FreqKeys(txns[..i])) && byMerchant == GroupMap(txns[..i])
    requires forall k :: k in byMerchant <==> k in order
    ensures FreqKey(txns[i]).None? ==>
      KeysOf(FreqKeys(txns[..i + 1])) == order && GroupMap(txns[..i + 1]) == byMerchant
    ensures FreqKey(txns[i]).Some? && FreqKey(txns[i]).value in byMerchant ==>
      var k := FreqKey(txns[i]).value;
      KeysOf(FreqKeys(txns[..i + 1])) == order && GroupMap(txns[..i + 1]) == byMerchant[k := byMerchant[k] + [txns[i]]]
    ensures FreqKey(txns[i]).Some? && FreqKey(txns[i]).value !in byMerchant ==>
      var k := FreqKey(txns[i]).value;
      KeysOf(FreqKeys(txns[..i + 1])) == order + [k] && GroupMap(txns[..i + 1]) == byMerchant[k := [txns[i]]]
  {
    FreqKeysSnoc(txns, i);
    KeysOfSnoc(FreqKeys(txns[..i]), FreqKey(txns[i]));
    GroupMapSnoc(txns, i);
    assert [] + [txns[i]] == [txns[i]];
  }

  /** One step of the per-merchant loop. */
  lemma ForKeysStep(txns: seq<Txn>, keys: seq<string>, e: nat, s: Settings, whitelist: set<string>)
    requires e < |keys|
    ensures AlertsForKeys(txns, keys[..e + 1], s, whitelist)
         == AlertsForKeys(txns, keys[..e], s, whitelist) + MerchantAlert(txns, keys[e], s, whitelist)
  {
    assert keys[..e + 1][..e] == keys[..e];
  }

  /** `FrequencyRule.detect`. */
  method DetectFrequency(txns: seq<Txn>, s: Settings, whitelist: set<string>) returns (alerts: seq<Alert>)
    ensures alerts == FrequencyAlerts(txns, s, whitelist)
  {
    var byMerchant, order := GroupByMerchant(txns);
    alerts := [];
    var e := 0;
    while e < |order|
      invariant 0 <= e <= |order|
      invariant alerts == AlertsForKeys(txns, order[..e], s, whitelist)
    {
      var key := order[e];
      ForKeysStep(txns, order, e, s, whitelist);
      var more := DetectForMerchant(txns, key, byMerchant[key], s, whitelist);
      alerts := alerts + more;
      e := e + 1;
    }
    assert order[..|order|] == order;
  }

  /** The body of the per-merchant loop: at most one alert, at the first burst of the merchant's group. */
  method DetectForMerchant(txns: seq<Txn>, key: string, group: seq<Txn>, s: Settings, whitelist: set<string>)
    returns (alerts: seq<Alert>)
    requires group == Group(txns, key)
    ensures alerts == MerchantAlert(txns, key, s, whitelist)
  {
    alerts := [];
    if key !in whitelist {
      var txList := Burst(group, s);
      var found := ScanBursts(txList, s);
      if found.Some? {
        BurstHasAmount(group, s, txList[found.value]);
        alerts := [FrequencyAlert(txList[found.value], WindowCount(txList, found.value, s.freqWindowHours), s)];
      }
    }
  }

  /** A key that no transaction of the prefix carries has an empty group. */
  lemma {:induction false} GroupEmpty(txns: seq<Txn>, k: string)
    requires Some(k) !in FreqKeys(txns)
    ensures Group(txns, k) == []
  {
    if txns != [] {
      var init := txns[..|txns| - 1];
      FreqKeysIndex(init);
      assert FreqKeys(txns)[|txns| - 1] == FreqKey(txns[|txns| - 1]);
      assert FreqKeys(init) == FreqKeys(txns)[..|txns| - 1];
      GroupEmpty(init, k);
    }
  }

  /** The nested index loops: the first base whose count exceeds freqMaxTxn. */
  method ScanBursts(txList: seq<Txn>, s: Settings) returns (found: Option<nat>)
    ensures found == FirstBurst(txList, 0, s)
  {
    var i := 0;
    while i < |txList|
      invariant 0 <= i <= |txList|
      invariant FirstBurst(txList, 0, s) == FirstBurst(txList, i, s)
    {
      var count := 1;
      var j := i + 1;
      while j < |txList|
        invariant i + 1 <= j <= |txList|
        invariant count + Run(txList, i, j, s.freqWindowHours) == WindowCount(txList, i, s.freqWindowHours)
      {
        if Within(txList[i], txList[j], s.freqWindowHours) {
          count := count + 1;
        } else {
          break;
        }
        j := j + 1;
      }
      if count > s.freqMaxTxn {
        return Some(i);
      }
      i := i + 1;
    }
    return None;
  }

  /**
   * The frequency rule never alerts on a whitelisted merchant, raises at most
   * one alert per merchant (compared ignoring case), and every alert is for a
   * transaction with an amount of at least freqMinAmount whose window holds
   * more than freqMaxTxn transactions.
   */
  lemma {:induction false} ForKeysSpec(txns: seq<Txn>, keys: seq<string>, s: Settings, whitelist: set<string>)
    requires forall i, j :: 0 <= i < j < |keys| ==> keys[i] != keys[j]
    ensures var r := AlertsForKeys(txns, keys, s, whitelist);
      && |r| <= |keys|
      && (forall a :: a in r ==>
            (a.kind == "frequency" && a.merchant.Some?
             && Lower(a.merchant.value) in keys && Lower(a.merchant.value) !in whitelist
             && a.amount >= s.freqMinAmount && a.amount >= 0.0
             && "count" in a.meta && a.meta["count"].MNumber? && a.meta["count"].n > s.freqMaxTxn as real))
      && (forall i, j :: 0 <= i < j < |r| ==> Lower(r[i].merchant.value) != Lower(r[j].merchant.value))
    ensures var r := AlertsForKeys(txns, keys, s, whitelist);
      forall k :: k in keys && k !in whitelist && Bursts(Burst(Group(txns, k), s), s) ==>
        exists a: Alert :: a in r && a.merchant.Some? && Lower(a.merchant.value) == k
  {
    if keys != [] {
      var init := keys[..|keys| - 1];
      var k := keys[|keys| - 1];
      ForKeysSpec(txns, init, s, whitelist);
      var head := AlertsForKeys(txns, init, s, whitelist);
      var tail := MerchantAlert(txns, k, s, whitelist);
      MerchantAlertSpec(txns, k, s, whitelist);
      assert k !in init;
      var r := head + tail;
      forall a: Alert | a in r
        ensures a.merchant.Some? && Lower(a.merchant.value) in keys
      {
        if a in head { assert Lower(a.merchant.value) in init; }
      }
    }
    ForKeysComplete(txns, keys, s, whitelist);
  }

  /** Every listed key that is not whitelisted and whose candidates burst gets an alert. */
  lemma {:induction false} ForKeysComplete(txns: seq<Txn>, keys: seq<string>, s: Settings, whitelist: set<string>)
    ensures var r := AlertsForKeys(txns, keys, s, whitelist);
      forall k :: k in keys && k !in whitelist && Bursts(Burst(Group(txns, k), s), s) ==>
        exists a: Alert :: a in r && a.merchant.Some? && Lower(a.merchant.value) == k
  {
    if keys != [] {
      var init := keys[..|keys| - 1];
      var k := keys[|keys| - 1];
      ForKeysComplete(txns, init, s, whitelist);
      var head := AlertsForKeys(txns, init, s, whitelist);
      var tail := MerchantAlert(txns, k, s, whitelist);
      var r := head + tail;
      assert AlertsForKeys(txns, keys, s, whitelist) == r;
      forall k' | k' in keys && k' !in whitelist && Bursts(Burst(Group(txns, k'), s), s)
        ensures exists a: Alert :: a in r && a.merchant.Some? && Lower(a.merchant.value) == k'
      {
        if k' == k {
          MerchantAlertSpec(txns, k, s, whitelist);
          assert tail[0] in r;
        } else {
          assert k' in init;
          var a: Alert :| a in head && a.merchant.Some? && Lower(a.merchant.value) == k';
          assert a in r;
        }
      }
    }
  }

  /** Some base of the date-sorted candidates has more than freqMaxTxn transactions in its window. */
  predicate Bursts(list: seq<Txn>, s: Settings) {
    exists b :: 0 <= b < |list| && WindowCount(list, b, s.freqWindowHours) > s.freqMaxTxn
  }

  /**
   * One merchant's part of the frequency alerts: exactly one alert when the
   * merchant is not whitelisted and its candidates burst, none otherwise; the
   * alert is about that merchant and sits on the first bursting base.
   */
  lemma MerchantAlertSpec(txns: seq<Txn>, k: string, s: Settings, whitelist: set<string>)
    ensures var tail := MerchantAlert(txns, k, s, whitelist);
      && |tail| <= 1
      && (|tail| == 1 <==> k !in whitelist && Bursts(Burst(Group(txns, k), s), s))
      && (forall a :: a in tail ==>
            (a.kind == "frequency" && a.merchant.Some? && Lower(a.merchant.value) == k && k !in whitelist
             && a.amount >= s.freqMinAmount && a.amount >= 0.0
             && "count" in a.meta && a.meta["count"].MNumber? && a.meta["count"].n > s.freqMaxTxn as real))
    ensures var tail := MerchantAlert(txns, k, s, whitelist);
      var list := Burst(Group(txns, k), s);
      |tail| == 1 ==> exists b :: FirstBurst(list, 0, s) == Some(b)
                                  && tail[0].txnDate == Some(list[b].date) && tail[0].txnId == list[b].id
                                  && tail[0].meta["count"] == MNumber(WindowCount(list, b, s.freqWindowHours) as real)
  {
    var tail := MerchantAlert(txns, k, s, whitelist);
    var list := Burst(Group(txns, k), s);
    if tail != [] {
      var b := FirstBurst(list, 0, s).value;
      BurstHasAmount(Group(txns, k), s, list[b]);
      GroupKey(txns, k, list[b]);
    }
  }

  /** A grouped transaction has a merchant whose lower case is the key. */
  lemma {:induction false} GroupKey(txns: seq<Txn>, k: string, t: Txn)
    requires t in Group(txns, k)
    ensures FreqKey(t) == Some(k) && t.merchant.Some? && Lower(t.merchant.value) == k
  {
    if txns != [] {
      var init := txns[..|txns| - 1];
      if t in Group(init, k) {
        GroupKey(init, k, t);
      }
    }
  }

  /**
   * The frequency alerts: every alert is for a present, non-whitelisted
   * merchant with an amount of at least freqMinAmount and a window holding
   * more than freqMaxTxn transactions; no two share a merchant ignoring case;
   * and every present, non-whitelisted merchant whose candidates burst gets one.
   */
  lemma FrequencyAlertsSpec(txns: seq<Txn>, s: Settings, whitelist: set<string>)
    ensures var r := FrequencyAlerts(txns, s, whitelist);
      && (forall a :: a in r ==>
            (a.kind == "frequency" && a.merchant.Some?
             && Lower(a.merchant.value) !in whitelist
             && (exists t :: t in txns && FreqKey(t) == Some(Lower(a.merchant.value)))
             && a.amount >= s.freqMinAmount
             && "count" in a.meta && a.meta["count"].MNumber? && a.meta["count"].n > s.freqMaxTxn as real))
      && (forall i, j :: 0 <= i < j < |r| ==> Lower(r[i].merchant.value) != Lower(r[j].merchant.value))
    ensures var r := FrequencyAlerts(txns, s, whitelist);
      forall t :: t in txns && FreqKey(t).Some? && FreqKey(t).value !in whitelist
                  && Bursts(Burst(Group(txns, FreqKey(t).value), s), s) ==>
        exists a: Alert :: a in r && a.merchant.Some? && Lower(a.merchant.value) == FreqKey(t).value
  {
    var keys := KeysOf(FreqKeys(txns));
    KeysOfSpec(FreqKeys(txns));
    FreqKeysIndex(txns);
    ForKeysSpec(txns, keys, s, whitelist);
    forall a | a in FrequencyAlerts(txns, s, whitelist)
      ensures exists t :: t in txns && FreqKey(t) == Some(Lower(a.merchant.value))
    {
      var k := Lower(a.merchant.value);
      assert Some(k) in FreqKeys(txns);
      var i :| 0 <= i < |txns| && FreqKeys(txns)[i] == Some(k);
      assert txns[i] in txns;
    }
    forall t | t in txns && FreqKey(t).Some?
      ensures FreqKey(t).value in keys
    {
      var i :| 0 <= i < |txns| && txns[i] == t;
      assert FreqKeys(txns)[i] == FreqKey(t);
    }
  }

  // ------------------------------------------------------- CategorySpikeRule

  /** The category a transaction adds to: a spend whose category is not muted; "" for none. */
  function SpikeKey(t: Txn, muted: set<string>): Option<string> {
    if t.amount.None? || t.amount.value >= 0.0 || Lower(t.category.GetOr("")) in muted then None
    else Some(t.category.GetOr(""))
  }

  function SpikeKeys(txns: seq<Txn>, muted: set<string>): seq<Option<string>> {
    if txns == [] then [] else SpikeKeys(txns[..|txns| - 1], muted) + [SpikeKey(txns[|txns| - 1], muted)]
  }

  lemma {:induction false} SpikeKeysIndex(txns: seq<Txn>, muted: set<string>)
    ensures |SpikeKeys(txns, muted)| == |txns|
    ensures forall i :: 0 <= i < |txns| ==> SpikeKeys(txns, muted)[i] == SpikeKey(txns[i], muted)
  {
    if txns != [] {
      SpikeKeysIndex(txns[..|txns| - 1], muted);
    }
  }

  /** The sum of |amount| over the spends of category `c`. */
  function CategoryTotal(txns: seq<Txn>, c: string, muted: set<string>): (total: real)
    ensures total >= 0.0
  {
    if txns == [] then 0.0
    else
      var t := txns[|txns| - 1];
      CategoryTotal(txns[..|txns| - 1], c, muted)
        + (if SpikeKey(t, muted) == Some(c) then AbsReal(t.amount.value) else 0.0)
  }

  /** `baseline.multiply(BigDecimal.valueOf(catSpikeMultiplier))`. */
  function SpikeThreshold(baseline: real, s: Settings): real {
    baseline * s.catSpikeMultiplier
  }

  /** A category total that spikes: the baseline is positive and the total exceeds max(baseline*mult, min). */
  predicate Spikes(total: real, baseline: real, s: Settings) {
    baseline > 0.0 && total > MaxReal(SpikeThreshold(baseline, s), s.catSpikeMinAmount)
  }

  function SpikeAlert(c: string, total: real, baseline: real, s: Settings, to: Day): Alert {
    NewAlert("category_spike", total, None, Some(c), Some(to), None,
             map["baselineAvg" := MDecimal(baseline), "multiplier" := MNumber(s.catSpikeMultiplier),
                 "threshold" := MDecimal(SpikeThreshold(baseline, s)),
                 "lookbackMonths" := MNumber(s.catSpikeLookbackMonths as real)])
  }

  function SpikeAlertsFor(txns: seq<Txn>, cats: seq<string>, s: Settings, baselines: map<string, real>, muted: set<string>, to: Day): seq<Alert> {
    if cats == [] then []
    else
      var c := cats[|cats| - 1];
      var total := CategoryTotal(txns, c, muted);
      SpikeAlertsFor(txns, cats[..|cats| - 1], s, baselines, muted, to)
        + (if Spikes(total, Baseline(baselines, c), s) then [SpikeAlert(c, total, Baseline(baselines, c), s, to)] else [])
  }

  lemma SpikeAlertsForSnoc(txns: seq<Txn>, cats: seq<string>, e: nat, s: Settings, baselines: map<string, real>, muted: set<string>, to: Day)
    requires e < |cats|
    ensures SpikeAlertsFor(txns, cats[..e + 1], s, baselines, muted, to)
      == SpikeAlertsFor(txns, cats[..e], s, baselines, muted, to)
         + (if Spikes(CategoryTotal(txns, cats[e], muted), Baseline(baselines, cats[e]), s)
            then [SpikeAlert(cats[e], CategoryTotal(txns, cats[e], muted), Baseline(baselines, cats[e]), s, to)] else [])
  {
    assert cats[..e + 1][..e] == cats[..e];
  }

  /** The alerts of the category-spike rule. */
  function SpikeAlerts(txns: seq<Txn>, s: Settings, baselines: map<string, real>, muted: set<string>, to: Day): seq<Alert> {
    SpikeAlertsFor(txns, KeysOf(SpikeKeys(txns, muted)), s, baselines, muted, to)
  }

  lemma SpikeKeysSnoc(txns: seq<Txn>, i: nat, muted: set<string>)
    requires i < |txns|
    ensures SpikeKeys(txns[..i + 1], muted) == SpikeKeys(txns[..i], muted) + [SpikeKey(txns[i], muted)]
  {
    assert txns[..i + 1][..i] == txns[..i];
  }

  lemma {:induction false} TotalZero(txns: seq<Txn>, c: string, muted: set<string>)
    requires Some(c) !in SpikeKeys(txns, muted)
    ensures CategoryTotal(txns, c, muted) == 0.0
  {
    if txns != [] {
      var init := txns[..|txns| - 1];
      SpikeKeysIndex(init, muted);
      assert SpikeKeys(txns, muted)[|txns| - 1] == SpikeKey(txns[|txns| - 1], muted);
      assert SpikeKeys(init, muted) == SpikeKeys(txns, muted)[..|txns| - 1];
      TotalZero(init, c, muted);
    }
  }

  /** The totals map the first loop builds, as a function of the transactions read so far. */
  function TotalsMap(txns: seq<Txn>, muted: set<string>): map<string, real> {
    if txns == [] then map[]
    else
      Accumulate(TotalsMap(txns[..|txns| - 1], muted), txns[|txns| - 1], muted)
  }

  /** One transaction added to the running totals: its magnitude onto its category's total. */
  function Accumulate(m: map<string, real>, t: Txn, muted: set<string>): map<string, real> {
    match SpikeKey(t, muted)
    case None => m
    case Some(c) => m[c := (if c in m then m[c] else 0.0) + AbsReal(t.amount.value)]
  }

  lemma TotalsMapSnoc(txns: seq<Txn>, i: nat, muted: set<string>)
    requires i < |txns|
    ensures TotalsMap(txns[..i + 1], muted) == Accumulate(TotalsMap(txns[..i], muted), txns[i], muted)
  {
    assert txns[..i + 1][..i] == txns[..i];
  }

  lemma {:induction false} TotalsMapSpec(txns: seq<Txn>, muted: set<string>)
    ensures forall c :: c in TotalsMap(txns, muted) <==> Some(c) in SpikeKeys(txns, muted)
    ensures forall c :: c in TotalsMap(txns, muted) ==> TotalsMap(txns, muted)[c] == CategoryTotal(txns, c, muted)
  {
    if txns != [] {
      var init := txns[..|txns| - 1];
      TotalsMapSpec(init, muted);
      assert SpikeKeys(txns, muted) == SpikeKeys(init, muted) + [SpikeKey(txns[|txns| - 1], muted)];
      forall c | Some(c) !in SpikeKeys(init, muted) ensures CategoryTotal(init, c, muted) == 0.0 {
        TotalZero(init, c, muted);
      }
    }
  }

  /** The first loop of `CategorySpikeRule.detect`: spend totals per category. */
  method TotalsByCategory(txns: seq<Txn>, muted: set<string>) returns (totals: map<string, real>, order: seq<string>)
    ensures order == KeysOf(SpikeKeys(txns, muted))
    ensures forall c :: c in totals <==> c in order
    ensures forall c :: c in totals ==> totals[c] == CategoryTotal(txns, c, muted)
  {
    totals, order := map[], [];
    var i := 0;
    while i < |txns|
      invariant 0 <= i <= |txns|
      invariant order == KeysOf(SpikeKeys(txns[..i], muted))
      invariant totals == TotalsMap(txns[..i], muted)
      invariant forall c :: c in totals <==> c in order
    {
      var t := txns[i];
      SpikeKeysSnoc(txns, i, muted);
      KeysOfSnoc(SpikeKeys(txns[..i], muted), SpikeKey(t, muted));
      TotalsMapSnoc(txns, i, muted);
      var sk := SpikeKey(t, muted);
      if sk.Some? {
        var c := sk.value;
        if c in totals {
          totals := totals[c := totals[c] + AbsReal(t.amount.value)];
        } else {
          assert 0.0 + AbsReal(t.amount.value) == AbsReal(t.amount.value);
          totals := totals[c := AbsReal(t.amount.value)];
          order := order + [c];
        }
      }
      i := i + 1;
    }
    assert txns[..|txns|] == txns;
    TotalsMapSpec(txns, muted);
    KeysOfSpec(SpikeKeys(txns, muted));
  }

  /** `CategorySpikeRule.detect`. */
  method DetectSpike(txns: seq<Txn>, s: Settings, baselines: map<string, real>, muted: set<string>, to: Day)
    returns (alerts: seq<Alert>)
    ensures alerts == SpikeAlerts(txns, s, baselines, muted, to)
  {
    var totals, order := TotalsByCategory(txns, muted);
    alerts := [];
    var e := 0;
    while e < |order|
      invariant 0 <= e <= |order|
      invariant alerts == SpikeAlertsFor(txns, order[..e], s, baselines, muted, to)
    {
      SpikeAlertsForSnoc(txns, order, e, s, baselines, muted, to);
      var cat := order[e];
      var total := totals[cat];
      var baseline := Baseline(baselines, cat);
      if baseline > 0.0 {
        var spikeThreshold := SpikeThreshold(baseline, s);
        if total > MaxReal(spikeThreshold, s.catSpikeMinAmount) {
          alerts := alerts + [SpikeAlert(cat, total, baseline, s, to)];
        }
      }
      e := e + 1;
    }
    assert order[..|order|] == order;
  }

  /**
   * A category gets an alert exactly when some unmuted spend carries it, its
   * baseline is positive and its total spend exceeds max(baseline*mult, min);
   * the alert carries that total and the period's end date, and no category
   * gets two.
   */
  lemma {:induction false} SpikeForSpec(txns: seq<Txn>, cats: seq<string>, s: Settings, baselines: map<string, real>, muted: set<string>, to: Day)
    requires forall i, j :: 0 <= i < j < |cats| ==> cats[i] != cats[j]
    ensures var r := SpikeAlertsFor(txns, cats, s, baselines, muted, to);
      && (forall a :: a in r ==>
            (a.category.Some? && a.category.value in cats
             && a == SpikeAlert(a.category.value, CategoryTotal(txns, a.category.value, muted), Baseline(baselines, a.category.value), s, to)
             && Spikes(a.amount, Baseline(baselines, a.category.value), s)))
      && (forall c :: c in cats && Spikes(CategoryTotal(txns, c, muted), Baseline(baselines, c), s)
            ==> exists a :: a in r && a.category == Some(c))
      && (forall i, j :: 0 <= i < j < |r| ==> r[i].category != r[j].category)
  {
    if cats != [] {
      var init := cats[..|cats| - 1];
      var c := cats[|cats| - 1];
      SpikeForSpec(txns, init, s, baselines, muted, to);
      var head := SpikeAlertsFor(txns, init, s, baselines, muted, to);
      var total := CategoryTotal(txns, c, muted);
      var tail := if Spikes(total, Baseline(baselines, c), s) then [SpikeAlert(c, total, Baseline(baselines, c), s, to)] else [];
      var r := head + tail;
      assert r == SpikeAlertsFor(txns, cats, s, baselines, muted, to);
      assert forall a :: a in head ==> a.category.value in init && a.category.value != c;
      forall c' | c' in cats && Spikes(CategoryTotal(txns, c', muted), Baseline(baselines, c'), s)
        ensures exists a :: a in r && a.category == Some(c')
      {
        if c' == c {
          assert r[|head|] in r;
        } else {
          assert c' in init;
          var a :| a in head && a.category == Some(c');
          assert a in r;
        }
      }
    }
  }

  lemma SpikeAlertsSpec(txns: seq<Txn>, s: Settings, baselines: map<string, real>, muted: set<string>, to: Day)
    ensures var r := SpikeAlerts(txns, s, baselines, muted, to);
      && (forall a :: a in r ==>
            (a.txnDate == Some(to) && a.category.Some?
             && a.amount == CategoryTotal(txns, a.category.value, muted)
             && Baseline(baselines, a.category.value) > 0.0
             && a.amount > MaxReal(SpikeThreshold(Baseline(baselines, a.category.value), s), s.catSpikeMinAmount)))
      && (forall c :: (exists a :: a in r && a.category == Some(c))
            <==> (exists t :: t in txns && SpikeKey(t, muted) == Some(c))
                 && Spikes(CategoryTotal(txns, c, muted), Baseline(baselines, c), s))
      && (forall i, j :: 0 <= i < j < |r| ==> r[i].category != r[j].category)
  {
    var cats := KeysOf(SpikeKeys(txns, muted));
    KeysOfSpec(SpikeKeys(txns, muted));
    SpikeKeysIndex(txns, muted);
    SpikeForSpec(txns, cats, s, baselines, muted, to);
    forall c ensures (exists t :: t in txns && SpikeKey(t, muted) == Some(c)) <==> c in cats {
      if c in cats {
        var i :| 0 <= i < |txns| && SpikeKeys(txns, muted)[i] == Some(c);
        assert txns[i] in txns;
      }
      if t :| t in txns && SpikeKey(t, muted) == Some(c) {
        var i :| 0 <= i < |txns| && txns[i] == t;
        assert SpikeKeys(txns, muted)[i] == Some(c);
      }
    }
  }

  // --------------------------------------------------------- NewMerchantRule

  /** A spend at a named, unwhitelisted merchant of at least newMerchantMinAmount. */
  predicate NewMerchantCandidate(t: Txn, s: Settings, whitelist: set<string>) {
    && t.amount.Some? && t.amount.value < 0.0
    && !IsBlank(t.merchant.GetOr(""))
    && Lower(t.merchant.GetOr("")) !in whitelist
    && AbsReal(t.amount.value) >= s.newMerchantMinAmount
  }

  /** The lower-cased merchants of the candidates in `txns`: the rule's `seen` set. */
  function Seen(txns: seq<Txn>, s: Settings, whitelist: set<string>): set<string> {
    if txns == [] then {}
    else
      var t := txns[|txns| - 1];
      Seen(txns[..|txns| - 1], s, whitelist)
        + (if NewMerchantCandidate(t, s, whitelist) then {Lower(t.merchant.value)} else {})
  }

  function NewMerchantAlert(t: Txn, s: Settings): Alert
    requires t.amount.Some?
  {
    NewAlert("new_merchant", AbsReal(t.amount.value), t.merchant, t.category, Some(t.date), t.id,
             map["minAmount" := MNumber(s.newMerchantMinAmount)])
  }

  function NewMerchantAlerts(txns: seq<Txn>, s: Settings, whitelist: set<string>): seq<Alert> {
    if txns == [] then []
    else
      var init, t := txns[..|txns| - 1], txns[|txns| - 1];
      NewMerchantAlerts(init, s, whitelist)
        + (if NewMerchantCandidate(t, s, whitelist) && Lower(t.merchant.value) !in Seen(init, s, whitelist)
           then [NewMerchantAlert(t, s)] else [])
  }

  /** `NewMerchantRule.detect`. */
  method DetectNewMerchant(txns: seq<Txn>, s: Settings, whitelist: set<string>) returns (alerts: seq<Alert>)
    ensures alerts == NewMerchantAlerts(txns, s, whitelist)
  {
    var seen: set<string> := {};
    alerts := [];
    var i := 0;
    while i < |txns|
      invariant 0 <= i <= |txns|
      invariant seen == Seen(txns[..i], s, whitelist)
      invariant alerts == NewMerchantAlerts(txns[..i], s, whitelist)
    {
      assert txns[..i + 1][..i] == txns[..i];
      var t := txns[i];
      if t.amount.Some? && t.amount.value < 0.0 {
        var merchant := t.merchant.GetOr("");
        if !IsBlank(merchant) && Lower(merchant) !in whitelist {
          if AbsReal(t.amount.value) >= s.newMerchantMinAmount {
            if Lower(merchant) !in seen {
              seen := seen + {Lower(merchant)};
              alerts := alerts + [NewMerchantAlert(t, s)];
            }
          }
        }
      }
      i := i + 1;
    }
    assert txns[..|txns|] == txns;
  }

  /** The position of the first candidate at a merchant. */
  predicate FirstAt(txns: seq<Txn>, i: int, s: Settings, whitelist: set<string>) {
    && 0 <= i < |txns|
    && NewMerchantCandidate(txns[i], s, whitelist)
    && forall j :: 0 <= j < i && NewMerchantCandidate(txns[j], s, whitelist)
         ==> Lower(txns[j].merchant.value) != Lower(txns[i].merchant.value)
  }

  lemma {:induction false} SeenMeaning(txns: seq<Txn>, s: Settings, whitelist: set<string>, m: string)
    ensures m in Seen(txns, s, whitelist)
      <==> exists j :: 0 <= j < |txns| && NewMerchantCandidate(txns[j], s, whitelist) && Lower(txns[j].merchant.value) == m
  {
    if txns != [] {
      var init := txns[..|txns| - 1];
      SeenMeaning(init, s, whitelist, m);
      if m in Seen(init, s, whitelist) {
        var j :| 0 <= j < |init| && NewMerchantCandidate(init[j], s, whitelist) && Lower(init[j].merchant.value) == m;
        assert txns[j] == init[j];
      }
      if j :| 0 <= j < |txns| - 1 && NewMerchantCandidate(txns[j], s, whitelist) && Lower(txns[j].merchant.value) == m {
        assert init[j] == txns[j];
      }
    }
  }

  /**
   * The new-merchant alerts are exactly the alerts of the first candidate
   * transaction at each merchant (ignoring case), in list order, with
   * amount |amount| and that transaction's id and date.
   */
  lemma {:induction false} NewMerchantAlertsSpec(txns: seq<Txn>, s: Settings, whitelist: set<string>)
    ensures forall a :: (a in NewMerchantAlerts(txns, s, whitelist) <==>
                           exists i :: FirstAt(txns, i, s, whitelist) && a == NewMerchantAlert(txns[i], s))
  {
    if txns != [] {
      var init, t := txns[..|txns| - 1], txns[|txns| - 1];
      var n := |txns| - 1;
      NewMerchantAlertsSpec(init, s, whitelist);
      var head := NewMerchantAlerts(init, s, whitelist);
      FirstAtInit(txns, s, whitelist);
      FirstAtLast(txns, s, whitelist);
      var r := NewMerchantAlerts(txns, s, whitelist);
      forall a ensures a in r <==> exists i :: FirstAt(txns, i, s, whitelist) && a == NewMerchantAlert(txns[i], s) {
        if a in r && a !in head {
          assert FirstAt(txns, n, s, whitelist) && a == NewMerchantAlert(txns[n], s);
        }
        if i :| FirstAt(txns, i, s, whitelist) && a == NewMerchantAlert(txns[i], s) {
          if i < n {
            assert FirstAt(init, i, s, whitelist);
          }
        }
      }
    }
  }

  /** Before the last transaction, being first in the list is being first in its prefix. */
  lemma FirstAtInit(txns: seq<Txn>, s: Settings, whitelist: set<string>)
    requires txns != []
    ensures forall i :: 0 <= i < |txns| - 1 ==>
      (FirstAt(txns, i, s, whitelist) <==> FirstAt(txns[..|txns| - 1], i, s, whitelist))
  {
    var init := txns[..|txns| - 1];
    forall i | 0 <= i < |txns| - 1 ensures FirstAt(txns, i, s, whitelist) <==> FirstAt(init, i, s, whitelist) {
      assert txns[i] == init[i];
      assert forall j :: 0 <= j < i ==> txns[j] == init[j];
    }
  }

  /** The last transaction is first for its merchant exactly when the prefix has not seen the merchant. */
  lemma FirstAtLast(txns: seq<Txn>, s: Settings, whitelist: set<string>)
    requires txns != []
    ensures var t := txns[|txns| - 1];
      FirstAt(txns, |txns| - 1, s, whitelist)
      <==> NewMerchantCandidate(t, s, whitelist) && Lower(t.merchant.value) !in Seen(txns[..|txns| - 1], s, whitelist)
  {
    var init, t, n := txns[..|txns| - 1], txns[|txns| - 1], |txns| - 1;
    if NewMerchantCandidate(t, s, whitelist) {
      SeenMeaning(init, s, whitelist, Lower(t.merchant.value));
      if Lower(t.merchant.value) !in Seen(init, s, whitelist) {
        assert FirstAt(txns, n, s, whitelist);
      } else {
        assert !FirstAt(txns, n, s, whitelist);
      }
    }
  }

  /** The alerts' merchants, lower-cased, are distinct and among the candidates' merchants. */
  predicate DistinctMerchants(r: seq<Alert>) {
    forall i, j :: 0 <= i < j < |r| ==> r[i].merchant.Some? && r[j].merchant.Some? && Lower(r[i].merchant.value) != Lower(r[j].merchant.value)
  }

  /** One new-merchant alert per merchant, ignoring case, and only for merchants seen. */
  lemma {:induction false} NewMerchantOnePerMerchant(txns: seq<Txn>, s: Settings, whitelist: set<string>)
    ensures DistinctMerchants(NewMerchantAlerts(txns, s, whitelist))
    ensures forall a :: (a in NewMerchantAlerts(txns, s, whitelist) ==>
                           a.merchant.Some? && Lower(a.merchant.value) in Seen(txns, s, whitelist))
  {
    if txns != [] {
      var init, t := txns[..|txns| - 1], txns[|txns| - 1];
      NewMerchantOnePerMerchant(init, s, whitelist);
      var head := NewMerchantAlerts(init, s, whitelist);
      var r := NewMerchantAlerts(txns, s, whitelist);
      if NewMerchantCandidate(t, s, whitelist) && Lower(t.merchant.value) !in Seen(init, s, whitelist) {
        assert r == head + [NewMerchantAlert(t, s)];
        forall i, j | 0 <= i < j < |r|
          ensures r[i].merchant.Some? && r[j].merchant.Some? && Lower(r[i].merchant.value) != Lower(r[j].merchant.value)
        {
          assert r[i] == head[i] && r[i] in head;
          if j < |r| - 1 {
            assert r[j] == head[j];
          }
        }
      } else {
        assert r == head;
      }
    }
  }
}
