/**
 * TaxRuleService: matching a tax-deduction rule against a transaction, the
 * classification of a date range's outflows into tax records, the approval
 * and rejection of suggested records, and the rule tester.
 *
 * Regular-expression matching is not modelled: `find(pattern, text)` stands
 * for `Pattern.compile(pattern, CASE_INSENSITIVE).matcher(text).find()`,
 * `None` when the pattern does not compile.
 */
module TaxRules {
  import opened Wrappers
  import opened Text
  import opened Numbers
  import opened Calendar
  import Decimal
  import Seqs

  datatype MatchType = Category | Merchant | DescriptionRegex | AmountRange

  /** The enum constant's name. */
  function Name(mt: MatchType): string {
    match mt
    case Category => "CATEGORY"
    case Merchant => "MERCHANT"
    case DescriptionRegex => "DESCRIPTION_REGEX"
    case AmountRange => "AMOUNT_RANGE"
  }

  /** `MatchType.valueOf(name)`: exact, case-sensitive; `None` where it throws. */
  function MatchTypeOf(name: string): (r: Option<MatchType>) {
    if name == "CATEGORY" then Some(Category)
    else if name == "MERCHANT" then Some(Merchant)
    else if name == "DESCRIPTION_REGEX" then Some(DescriptionRegex)
    else if name == "AMOUNT_RANGE" then Some(AmountRange)
    else None
  }

  lemma MatchTypeNames(mt: MatchType, name: string)
    ensures MatchTypeOf(name) == Some(mt) <==> name == Name(mt)
  {
  }

  /** The two exceptions `evaluate` can raise: a bad range bound, a bad pattern. */
  datatype EvalError = BadNumber | BadPattern

  // ------------------------------------------------------------ String.split

  /** The pieces put back together with the separator between consecutive ones. */
  function JoinWith(p: seq<string>, c: char): string
    requires |p| >= 1
  {
    if |p| == 1 then p[0] else p[0] + [c] + JoinWith(p[1..], c)
  }

  /**
   * Every piece between the separators, empty pieces included: joined with the
   * separator they give the text back, and none contains the separator.
   */
  function Pieces(s: string, c: char): (r: seq<string>)
    ensures |r| >= 1
    ensures |r| == 1 <==> c !in s
    ensures JoinWith(r, c) == s
    ensures forall k :: 0 <= k < |r| ==> c !in r[k]
    decreases |s|
  {
    var i := IndexOf(s, c);
    if i < 0 then [s]
    else
      var rest := Pieces(s[i + 1..], c);
      var r := [s[..i]] + rest;
      assert r[1..] == rest;
      assert s == s[..i] + [c] + s[i + 1..];
      assert forall k :: 1 <= k < |r| ==> r[k] == rest[k - 1];
      r
  }

  /** The pieces without their trailing empty ones: only empty pieces are dropped, from the end. */
  function DropTrailingEmpty(p: seq<string>): (r: seq<string>)
    ensures |r| <= |p| && r == p[..|r|]
    ensures forall k :: |r| <= k < |p| ==> p[k] == []
    ensures r == [] || r[|r| - 1] != []
  {
    if p != [] && p[|p| - 1] == [] then DropTrailingEmpty(p[..|p| - 1]) else p
  }

  /**
   * Java `s.split(":")` for a one-character separator: the input itself when
   * the separator does not occur, otherwise the pieces with trailing empty
   * strings removed.
   */
  function Split(s: string, c: char): seq<string> {
    var p := Pieces(s, c);
    if |p| == 1 then p else DropTrailingEmpty(p)
  }

  // --------------------------------------------------------------- evaluate

  /** Bound `i` of an AMOUNT_RANGE value: absent or blank means unbounded. */
  function Bound(parts: seq<string>, i: nat): Result<Option<real>, EvalError> {
    if i < |parts| && !IsBlank(parts[i]) then
      match Decimal.Parse(parts[i])
      case Some(v) => Ok(Some(v))
      case None => Err(BadNumber)
    else Ok(None)
  }

  predicate Within(x: real, lo: Option<real>, hi: Option<real>) {
    (lo.None? || x >= lo.value) && (hi.None? || x <= hi.value)
  }

  /** `evaluate`: does a rule of this type and value match the transaction's fields? */
  function Evaluate(mt: MatchType, value: string, description: Option<string>, amount: Option<real>,
                    category: Option<string>, merchant: Option<string>,
                    find: (string, string) -> Option<bool>): Result<bool, EvalError>
  {
    match mt
    case Category => Ok(category.Some? && EqualsIgnoreCase(category.value, value))
    case Merchant => Ok(merchant.Some? && EqualsIgnoreCase(merchant.value, value))
    case DescriptionRegex =>
      if description.None? then Ok(false)
      else (match find(value, description.value)
            case Some(b) => Ok(b)
            case None => Err(BadPattern))
    case AmountRange =>
      if amount.None? then Ok(false)
      else
        var parts := Split(value, ':');
        match Bound(parts, 0)
        case Err(e) => Err(e)
        case Ok(lo) =>
          match Bound(parts, 1)
          case Err(e) => Err(e)
          case Ok(hi) => Ok(Within(AbsReal(amount.value), lo, hi))
  }

  lemma SplitTwo(a: string, b: string)
    requires ':' !in a && ':' !in b && b != []
    ensures Split(a + ":" + b, ':') == [a, b]
  {
    var s := a + ":" + b;
    assert IndexOf(s, ':') == |a| by {
      assert s[|a|] == ':';
      assert s[..|a|] == a;
    }
    assert s[..|a|] == a && s[|a| + 1..] == b;
    assert Pieces(b, ':') == [b];
    assert Pieces(s, ':') == [a, b];
  }

  lemma SplitOne(a: string)
    requires ':' !in a && a != []
    ensures Split(a, ':') == [a]
    ensures Split(a + ":", ':') == [a]
  {
    var s := a + ":";
    assert IndexOf(s, ':') == |a| by {
      assert s[|a|] == ':';
      assert s[..|a|] == a;
    }
    assert s[..|a|] == a && s[|a| + 1..] == [];
    assert Pieces(s, ':') == [a, []];
    assert DropTrailingEmpty([a, []]) == DropTrailingEmpty([a]);
  }

  /** "lo:hi" with integer bounds matches exactly the amounts whose magnitude lies in [lo, hi]. */
  lemma AmountRangeClosed(lo: int, hi: int, x: real, d: Option<string>, c: Option<string>, m: Option<string>,
                          find: (string, string) -> Option<bool>)
    ensures Evaluate(AmountRange, IntToString(lo) + ":" + IntToString(hi), d, Some(x), c, m, find)
         == Ok(lo as real <= AbsReal(x) <= hi as real)
  {
    IntTextDigits(lo);
    IntTextDigits(hi);
    SplitTwo(IntToString(lo), IntToString(hi));
    var v := IntToString(lo) + ":" + IntToString(hi);
    IntBound(Split(v, ':'), 0, lo);
    IntBound(Split(v, ':'), 1, hi);
    EvaluateRange(v, x, Some(lo as real), Some(hi as real), d, c, m, find);
  }

  /** A range text whose two bounds parse matches exactly the amounts whose magnitude lies within them. */
  lemma EvaluateRange(v: string, x: real, lo: Option<real>, hi: Option<real>, d: Option<string>, c: Option<string>,
                      m: Option<string>, find: (string, string) -> Option<bool>)
    requires Bound(Split(v, ':'), 0) == Ok(lo) && Bound(Split(v, ':'), 1) == Ok(hi)
    ensures Evaluate(AmountRange, v, d, Some(x), c, m, find) == Ok(Within(AbsReal(x), lo, hi))
  {
  }

  /** An integer's decimal text as a bound is that integer. */
  lemma IntBound(parts: seq<string>, i: nat, n: int)
    requires i < |parts| && parts[i] == IntToString(n)
    ensures Bound(parts, i) == Ok(Some(n as real))
  {
    IntTextDigits(n);
    Decimal.ParseIntText(n);
  }

  /** ":hi" has no lower bound. */
  lemma AmountRangeUpperOnly(hi: int, x: real, d: Option<string>, c: Option<string>, m: Option<string>,
                             find: (string, string) -> Option<bool>)
    ensures Evaluate(AmountRange, ":" + IntToString(hi), d, Some(x), c, m, find) == Ok(AbsReal(x) <= hi as real)
  {
    IntTextDigits(hi);
    SplitTwo("", IntToString(hi));
    assert "" + ":" + IntToString(hi) == ":" + IntToString(hi);
    Decimal.ParseIntText(hi);
  }

  /** "lo" and "lo:" have no upper bound. */
  lemma AmountRangeLowerOnly(lo: int, x: real, d: Option<string>, c: Option<string>, m: Option<string>,
                             find: (string, string) -> Option<bool>)
    ensures Evaluate(AmountRange, IntToString(lo), d, Some(x), c, m, find) == Ok(AbsReal(x) >= lo as real)
    ensures Evaluate(AmountRange, IntToString(lo) + ":", d, Some(x), c, m, find) == Ok(AbsReal(x) >= lo as real)
  {
    IntTextDigits(lo);
    SplitOne(IntToString(lo));
    Decimal.ParseIntText(lo);
  }

  /** A missing amount never matches a range, whatever the range text (even an unparsable one). */
  lemma AmountRangeNeedsAmount(value: string, d: Option<string>, c: Option<string>, m: Option<string>,
                               find: (string, string) -> Option<bool>)
    ensures Evaluate(AmountRange, value, d, None, c, m, find) == Ok(false)
  {
  }

  // ---------------------------------------------------------- classifyRange

  datatype Txn = Txn(id: int, date: Option<Day>, description: Option<string>, amount: Option<real>,
                     category: Option<string>, bankName: Option<string>)

  datatype Rule = Rule(matchType: MatchType, matchValue: string, taxCategoryCode: string, autoMarkDeductible: bool)

  /** A saved TaxTransaction; `sourceId` is the id of its source transaction. */
  datatype TaxTxn = TaxTxn(sourceId: int, rule: Rule, taxYear: int, paidDate: Option<Day>, amount: real,
                           category: string, note: Option<string>, deductible: bool, hasReceipt: bool,
                           status: string)

  const Confirmed: string := "CONFIRMED"
  const Suggested: string := "SUGGESTED"
  const Rejected: string := "REJECTED"

  /** The classifier passes the transaction's bank name where `evaluate` expects the merchant. */
  function Matches(r: Rule, t: Txn, find: (string, string) -> Option<bool>): Result<bool, EvalError> {
    Evaluate(r.matchType, r.matchValue, t.description, t.amount, t.category, t.bankName, find)
  }

  /** Index of the first matching rule in list order; an exception stops the search. */
  function FirstMatch(rules: seq<Rule>, t: Txn, find: (string, string) -> Option<bool>): (r: Result<Option<nat>, EvalError>)
    ensures r.Ok? && r.value.Some? ==> r.value.value < |rules|
  {
    if rules == [] then Ok(None)
    else
      match Matches(rules[0], t, find)
      case Err(e) => Err(e)
      case Ok(true) => Ok(Some(0))
      case Ok(false) =>
        match FirstMatch(rules[1..], t, find)
        case Err(e) => Err(e)
        case Ok(None) => Ok(None)
        case Ok(Some(i)) => Ok(Some(i + 1))
  }

  /** The rules before index `k` were all evaluated and none matched. */
  predicate NoneMatchBefore(rules: seq<Rule>, t: Txn, find: (string, string) -> Option<bool>, k: int) {
    forall j :: 0 <= j < k && j < |rules| ==> Matches(rules[j], t, find) == Ok(false)
  }

  lemma {:induction false} FirstMatchSpec(rules: seq<Rule>, t: Txn, find: (string, string) -> Option<bool>)
    ensures match FirstMatch(rules, t, find)
      case Ok(Some(i)) => i < |rules| && Matches(rules[i], t, find) == Ok(true) && NoneMatchBefore(rules, t, find, i)
      case Ok(None) => NoneMatchBefore(rules, t, find, |rules|)
      case Err(e) => exists i :: 0 <= i < |rules| && Matches(rules[i], t, find) == Err(e) && NoneMatchBefore(rules, t, find, i)
  {
    if rules != [] {
      FirstMatchSpec(rules[1..], t, find);
      if Matches(rules[0], t, find) == Ok(false) {
        match FirstMatch(rules[1..], t, find)
        case Ok(Some(i)) => {
          assert rules[1..][i] == rules[i + 1];
          forall j | 0 <= j < i + 1 ensures Matches(rules[j], t, find) == Ok(false) {
            if j > 0 { assert rules[1..][j - 1] == rules[j]; }
          }
        }
        case Ok(None) => {
          forall j | 0 <= j < |rules| ensures Matches(rules[j], t, find) == Ok(false) {
            if j > 0 { assert rules[1..][j - 1] == rules[j]; }
          }
        }
        case Err(e) => {
          var i :| 0 <= i < |rules[1..]| && Matches(rules[1..][i], t, find) == Err(e) && NoneMatchBefore(rules[1..], t, find, i);
          forall j | 0 <= j < i + 1 ensures Matches(rules[j], t, find) == Ok(false) {
            if j > 0 { assert rules[1..][j - 1] == rules[j]; }
          }
          assert Matches(rules[i + 1], t, find) == Err(e);
        }
      } else if Matches(rules[0], t, find).Err? {
        assert Matches(rules[0], t, find) == Err(Matches(rules[0], t, find).error);
      }
    }
  }

  /** The inner `for (TaxDeductionRule r : rules)` loop with its `break`. */
  method FindRule(rules: seq<Rule>, t: Txn, find: (string, string) -> Option<bool>)
    returns (r: Result<Option<nat>, EvalError>)
    ensures r == FirstMatch(rules, t, find)
  {
    var i := 0;
    while i < |rules|
      invariant 0 <= i <= |rules|
      invariant FirstMatch(rules, t, find) == Shift(FirstMatch(rules[i..], t, find), i)
    {
      var m := Matches(rules[i], t, find);
      assert rules[i..][1..] == rules[i + 1..];
      if m.Err? {
        return Err(m.error);
      }
      if m.value {
        return Ok(Some(i));
      }
      i := i + 1;
    }
    return Ok(None);
  }

  function Shift(r: Result<Option<nat>, EvalError>, k: nat): Result<Option<nat>, EvalError> {
    match r
    case Ok(Some(i)) => Ok(Some(i + k))
    case _ => r
  }

  /** An outflow not yet classified for the user and not on the ignore list. */
  predicate Qualifies(t: Txn, taxed: set<int>, ignored: set<int>) {
    t.amount.Some? && t.amount.value < 0.0 && t.id !in taxed && t.id !in ignored
  }

  /** The TaxTransaction `classifyRange` builds from a transaction and its first matching rule. */
  function Record(t: Txn, r: Rule, startYear: int): TaxTxn
    requires t.amount.Some?
  {
    TaxTxn(t.id, r, if t.date.Some? then YearOf(t.date.value) else startYear, t.date,
           AbsReal(t.amount.value), r.taxCategoryCode, t.description, r.autoMarkDeductible, false,
           if r.autoMarkDeductible then Confirmed else Suggested)
  }

  function SourcesOf(out: seq<TaxTxn>): set<int> {
    set i | 0 <= i < |out| :: out[i].sourceId
  }

  lemma SourcesOfSnoc(out: seq<TaxTxn>, x: TaxTxn)
    ensures SourcesOf(out + [x]) == SourcesOf(out) + {x.sourceId}
  {
    var s := out + [x];
    forall id | id in SourcesOf(s) ensures id in SourcesOf(out) + {x.sourceId} {
      var i :| 0 <= i < |s| && s[i].sourceId == id;
      if i < |out| { assert s[i] == out[i]; }
    }
    forall id | id in SourcesOf(out) + {x.sourceId} ensures id in SourcesOf(s) {
      if id in SourcesOf(out) {
        var i :| 0 <= i < |out| && out[i].sourceId == id;
        assert s[i] == out[i];
      } else {
        assert s[|out|] == x;
      }
    }
  }

  /** The result of one loop step on transaction `t` after `acc` was created. */
  function Step(acc: seq<TaxTxn>, t: Txn, rules: seq<Rule>, taxed: set<int>, ignored: set<int>, startYear: int,
                find: (string, string) -> Option<bool>): Result<seq<TaxTxn>, EvalError>
  {
    if !Qualifies(t, taxed + SourcesOf(acc), ignored) then Ok(acc)
    else
      match FirstMatch(rules, t, find)
      case Err(e) => Err(e)
      case Ok(None) => Ok(acc)
      case Ok(Some(i)) => Ok(acc + [Record(t, rules[i], startYear)])
  }

  /**
   * The records `classifyRange` saves for the transactions of the range, in
   * order; `taxed` holds the source ids the user already has records for.
   * The first exception aborts the whole (transactional) call.
   */
  function Classified(txns: seq<Txn>, rules: seq<Rule>, taxed: set<int>, ignored: set<int>, startYear: int,
                      find: (string, string) -> Option<bool>): Result<seq<TaxTxn>, EvalError>
  {
    if txns == [] then Ok([])
    else Then(Classified(txns[..|txns| - 1], rules, taxed, ignored, startYear, find), txns[|txns| - 1],
              rules, taxed, ignored, startYear, find)
  }

  /** One more loop step after `prev`, unless an exception already stopped the run. */
  function Then(prev: Result<seq<TaxTxn>, EvalError>, t: Txn, rules: seq<Rule>, taxed: set<int>, ignored: set<int>,
                startYear: int, find: (string, string) -> Option<bool>): Result<seq<TaxTxn>, EvalError>
  {
    match prev
    case Err(e) => Err(e)
    case Ok(acc) => Step(acc, t, rules, taxed, ignored, startYear, find)
  }

  lemma ClassifiedSnoc(txns: seq<Txn>, i: nat, rules: seq<Rule>, taxed: set<int>, ignored: set<int>, startYear: int,
                       find: (string, string) -> Option<bool>)
    requires i < |txns|
    ensures Classified(txns[..i + 1], rules, taxed, ignored, startYear, find)
         == Then(Classified(txns[..i], rules, taxed, ignored, startYear, find), txns[i], rules, taxed, ignored, startYear, find)
  {
    assert txns[..i + 1][..i] == txns[..i];
  }

  /**
   * What every created record satisfies: it is the record built from a
   * negative transaction of the range and that transaction's first matching rule.
   */
  predicate WellFormed(x: TaxTxn, txns: seq<Txn>, rules: seq<Rule>, ignored: set<int>, startYear: int,
                       find: (string, string) -> Option<bool>) {
    && x.amount > 0.0
    && (x.status == Confirmed <==> x.deductible)
    && (x.deductible <==> x.rule.autoMarkDeductible)
    && x.category == x.rule.taxCategoryCode
    && (x.status == Confirmed || x.status == Suggested)
    && !x.hasReceipt
    && x.sourceId !in ignored
    && exists k :: 0 <= k < |txns| && txns[k].id == x.sourceId && txns[k].amount.Some? && txns[k].amount.value < 0.0
         && x.amount == -txns[k].amount.value
         && FirstMatch(rules, txns[k], find).Ok? && FirstMatch(rules, txns[k], find).value.Some?
         && x.rule == rules[FirstMatch(rules, txns[k], find).value.value]
         && x == Record(txns[k], x.rule, startYear)
  }

  /**
   * Every created record comes from a negative transaction of the range whose
   * first matching rule it carries, with amount |amt| and status CONFIRMED
   * exactly when the rule auto-marks deductible; no two records share a source
   * and none has a source the user already had or ignores.
   */
  lemma {:induction false} ClassifiedSpec(txns: seq<Txn>, rules: seq<Rule>, taxed: set<int>, ignored: set<int>,
                                          startYear: int, find: (string, string) -> Option<bool>)
    requires Classified(txns, rules, taxed, ignored, startYear, find).Ok?
    ensures var out := Classified(txns, rules, taxed, ignored, startYear, find).value;
      && |out| <= |txns|
      && (forall x :: x in out ==> WellFormed(x, txns, rules, ignored, startYear, find))
      && (forall i, j :: 0 <= i < j < |out| ==> out[i].sourceId != out[j].sourceId)
      && SourcesOf(out) !! taxed
    ensures var out := Classified(txns, rules, taxed, ignored, startYear, find).value;
      forall k :: 0 <= k < |txns| && Qualifies(txns[k], taxed, ignored)
                  && FirstMatch(rules, txns[k], find).Ok? && FirstMatch(rules, txns[k], find).value.Some?
        ==> txns[k].id in SourcesOf(out)
  {
    if txns != [] {
      var init := txns[..|txns| - 1];
      var t := txns[|txns| - 1];
      ClassifiedSpec(init, rules, taxed, ignored, startYear, find);
      var acc := Classified(init, rules, taxed, ignored, startYear, find).value;
      forall x | x in acc ensures WellFormed(x, txns, rules, ignored, startYear, find) {
        assert WellFormed(x, init, rules, ignored, startYear, find);
        var k :| 0 <= k < |init| && init[k].id == x.sourceId && init[k].amount.Some? && init[k].amount.value < 0.0
          && x.amount == -init[k].amount.value
          && FirstMatch(rules, init[k], find).Ok? && FirstMatch(rules, init[k], find).value.Some?
          && x.rule == rules[FirstMatch(rules, init[k], find).value.value]
          && x == Record(init[k], x.rule, startYear);
        assert txns[k] == init[k];
      }
      if Qualifies(t, taxed + SourcesOf(acc), ignored) && FirstMatch(rules, t, find) .Ok? && FirstMatch(rules, t, find).value.Some? {
        var x := Record(t, rules[FirstMatch(rules, t, find).value.value], startYear);
        var out := acc + [x];
        assert WellFormed(x, txns, rules, ignored, startYear, find) by {
          assert txns[|txns| - 1] == t;
        }
        SourcesOfSnoc(acc, x);
        forall i, j | 0 <= i < j < |out| ensures out[i].sourceId != out[j].sourceId {
          if j == |acc| {
            assert out[i].sourceId in SourcesOf(acc) by { assert out[i] == acc[i]; }
          } else {
            assert out[i] == acc[i] && out[j] == acc[j];
          }
        }
      }
    }
    ClassifiedComplete(txns, rules, taxed, ignored, startYear, find);
  }

  /** Every qualifying transaction with a matching rule has its record, unless the run stopped on an error. */
  lemma {:induction false} ClassifiedComplete(txns: seq<Txn>, rules: seq<Rule>, taxed: set<int>, ignored: set<int>,
                                              startYear: int, find: (string, string) -> Option<bool>)
    requires Classified(txns, rules, taxed, ignored, startYear, find).Ok?
    ensures var out := Classified(txns, rules, taxed, ignored, startYear, find).value;
      forall k :: 0 <= k < |txns| && Qualifies(txns[k], taxed, ignored)
                  && FirstMatch(rules, txns[k], find).Ok? && FirstMatch(rules, txns[k], find).value.Some?
        ==> txns[k].id in SourcesOf(out)
  {
    if txns != [] {
      var init := txns[..|txns| - 1];
      var t := txns[|txns| - 1];
      ClassifiedComplete(init, rules, taxed, ignored, startYear, find);
      var acc := Classified(init, rules, taxed, ignored, startYear, find).value;
      var out := Classified(txns, rules, taxed, ignored, startYear, find).value;
      assert SourcesOf(acc) <= SourcesOf(out) by {
        if out != acc {
          SourcesOfSnoc(acc, out[|out| - 1]);
          assert out == acc + [out[|out| - 1]];
        }
      }
      forall k | 0 <= k < |txns| && Qualifies(txns[k], taxed, ignored)
                 && FirstMatch(rules, txns[k], find).Ok? && FirstMatch(rules, txns[k], find).value.Some?
        ensures txns[k].id in SourcesOf(out)
      {
        if k < |init| {
          assert txns[k] == init[k];
        } else if t.id !in SourcesOf(acc) {
          var x := Record(t, rules[FirstMatch(rules, t, find).value.value], startYear);
          assert out == acc + [x];
          SourcesOfSnoc(acc, x);
        }
      }
    }
  }

  /** Re-running the classifier over the same range after saving its records creates nothing more. */
  lemma {:induction false} ClassifyAgainCreatesNothing(txns: seq<Txn>, rules: seq<Rule>, taxed: set<int>, ignored: set<int>,
                                                       startYear: int, find: (string, string) -> Option<bool>)
    requires Classified(txns, rules, taxed, ignored, startYear, find).Ok?
    ensures Classified(txns, rules, taxed + SourcesOf(Classified(txns, rules, taxed, ignored, startYear, find).value),
                       ignored, startYear, find) == Ok([])
  {
    var out := Classified(txns, rules, taxed, ignored, startYear, find).value;
    AgainPrefix(txns, |txns|, rules, taxed, ignored, startYear, find);
    assert txns[..|txns|] == txns;
  }

  lemma {:induction false} AgainPrefix(txns: seq<Txn>, n: nat, rules: seq<Rule>, taxed: set<int>, ignored: set<int>,
                                       startYear: int, find: (string, string) -> Option<bool>)
    requires n <= |txns|
    requires Classified(txns, rules, taxed, ignored, startYear, find).Ok?
    ensures Classified(txns[..n], rules, taxed + SourcesOf(Classified(txns, rules, taxed, ignored, startYear, find).value),
                       ignored, startYear, find) == Ok([])
  {
    var all := SourcesOf(Classified(txns, rules, taxed, ignored, startYear, find).value);
    if n > 0 {
      AgainPrefix(txns, n - 1, rules, taxed, ignored, startYear, find);
      ClassifiedSnoc(txns, n - 1, rules, taxed + all, ignored, startYear, find);
      var t := txns[n - 1];
      assert SourcesOf([]) == {};
      if Qualifies(t, taxed + all, ignored) {
        // The transaction was not classified the first time round: it either had
        // no matching rule or was already taxed when reached.
        PrefixOk(txns, n, rules, taxed, ignored, startYear, find);
        var before := Classified(txns[..n - 1], rules, taxed, ignored, startYear, find);
        ClassifiedSnoc(txns, n - 1, rules, taxed, ignored, startYear, find);
        PrefixSources(txns, n - 1, rules, taxed, ignored, startYear, find);
        PrefixSources(txns, n, rules, taxed, ignored, startYear, find);
        assert Qualifies(t, taxed + SourcesOf(before.value), ignored);
        var r := FirstMatch(rules, t, find);
        if r.Ok? && r.value.Some? {
          var x := Record(t, rules[r.value.value], startYear);
          SourcesOfSnoc(before.value, x);
          assert false;
        }
      }
    }
  }

  /** An exception on a prefix is the exception of the whole run. */
  lemma {:induction false} ErrPersists(txns: seq<Txn>, n: nat, rules: seq<Rule>, taxed: set<int>, ignored: set<int>,
                                       startYear: int, find: (string, string) -> Option<bool>)
    requires n <= |txns|
    requires Classified(txns[..n], rules, taxed, ignored, startYear, find).Err?
    ensures Classified(txns, rules, taxed, ignored, startYear, find) == Classified(txns[..n], rules, taxed, ignored, startYear, find)
    decreases |txns| - n
  {
    if n < |txns| {
      ClassifiedSnoc(txns, n, rules, taxed, ignored, startYear, find);
      ErrPersists(txns, n + 1, rules, taxed, ignored, startYear, find);
    } else {
      assert txns[..n] == txns;
    }
  }

  /** Once the whole run succeeds, so does every prefix. */
  lemma {:induction false} PrefixOk(txns: seq<Txn>, n: nat, rules: seq<Rule>, taxed: set<int>, ignored: set<int>,
                                    startYear: int, find: (string, string) -> Option<bool>)
    requires n <= |txns|
    requires Classified(txns, rules, taxed, ignored, startYear, find).Ok?
    ensures Classified(txns[..n], rules, taxed, ignored, startYear, find).Ok?
    decreases |txns| - n
  {
    if n < |txns| {
      PrefixOk(txns, n + 1, rules, taxed, ignored, startYear, find);
      ClassifiedSnoc(txns, n, rules, taxed, ignored, startYear, find);
    } else {
      assert txns[..n] == txns;
    }
  }

  /** The sources created for a prefix are among those created for the whole run. */
  lemma {:induction false} PrefixSources(txns: seq<Txn>, n: nat, rules: seq<Rule>, taxed: set<int>, ignored: set<int>,
                                         startYear: int, find: (string, string) -> Option<bool>)
    requires n <= |txns|
    requires Classified(txns, rules, taxed, ignored, startYear, find).Ok?
    ensures PrefixOkFact(txns, n, rules, taxed, ignored, startYear, find)
    decreases |txns| - n
  {
    PrefixOk(txns, n, rules, taxed, ignored, startYear, find);
    if n < |txns| {
      PrefixSources(txns, n + 1, rules, taxed, ignored, startYear, find);
      PrefixOk(txns, n + 1, rules, taxed, ignored, startYear, find);
      ClassifiedSnoc(txns, n, rules, taxed, ignored, startYear, find);
      var acc := Classified(txns[..n], rules, taxed, ignored, startYear, find).value;
      var t := txns[n];
      var r := FirstMatch(rules, t, find);
      if Qualifies(t, taxed + SourcesOf(acc), ignored) && r.Ok? && r.value.Some? {
        SourcesOfSnoc(acc, Record(t, rules[r.value.value], startYear));
      }
    } else {
      assert txns[..n] == txns;
    }
  }

  predicate PrefixOkFact(txns: seq<Txn>, n: nat, rules: seq<Rule>, taxed: set<int>, ignored: set<int>,
                         startYear: int, find: (string, string) -> Option<bool>)
    requires n <= |txns|
  {
    && Classified(txns[..n], rules, taxed, ignored, startYear, find).Ok?
    && Classified(txns, rules, taxed, ignored, startYear, find).Ok?
    && SourcesOf(Classified(txns[..n], rules, taxed, ignored, startYear, find).value)
       <= SourcesOf(Classified(txns, rules, taxed, ignored, startYear, find).value)
  }

  // ------------------------------------------------------- approve / reject

  /** A stored TaxTransaction and its owner. */
  datatype TaxRow = TaxRow(id: int, owner: int, tax: TaxTxn)

  /** A row `approve`/`reject` changes: named, owned by the caller, still SUGGESTED. */
  predicate Reviewable(row: TaxRow, user: int, ids: set<int>) {
    row.id in ids && row.owner == user && row.tax.status == Suggested
  }

  function ReviewRow(row: TaxRow, user: int, ids: set<int>, to: string): TaxRow {
    if Reviewable(row, user, ids) then row.(tax := row.tax.(status := to)) else row
  }

  function Reviewed(rows: seq<TaxRow>, user: int, ids: set<int>, to: string): (r: seq<TaxRow>)
    ensures |r| == |rows|
    ensures forall i :: 0 <= i < |rows| ==> r[i] == ReviewRow(rows[i], user, ids, to)
  {
    if rows == [] then [] else Reviewed(rows[..|rows| - 1], user, ids, to) + [ReviewRow(rows[|rows| - 1], user, ids, to)]
  }

  function CountReviewable(rows: seq<TaxRow>, user: int, ids: set<int>): (n: nat)
    ensures n <= |rows|
  {
    if rows == [] then 0
    else CountReviewable(rows[..|rows| - 1], user, ids) + (if Reviewable(rows[|rows| - 1], user, ids) then 1 else 0)
  }

  lemma CountReviewableSnoc(rows: seq<TaxRow>, i: nat, user: int, ids: set<int>)
    requires i < |rows|
    ensures CountReviewable(rows[..i + 1], user, ids)
         == CountReviewable(rows[..i], user, ids) + (if Reviewable(rows[i], user, ids) then 1 else 0)
  {
    assert rows[..i + 1][..i] == rows[..i];
  }

  /**
   * Reviewing changes only the status of the caller's named SUGGESTED rows,
   * to the given status, and a second review with a non-SUGGESTED status finds
   * nothing left to change.
   */
  lemma ReviewedSpec(rows: seq<TaxRow>, user: int, ids: set<int>, to: string)
    requires to != Suggested
    ensures forall i :: 0 <= i < |rows| ==>
      (Reviewable(rows[i], user, ids) ==> Reviewed(rows, user, ids, to)[i].tax.status == to)
    ensures forall i :: 0 <= i < |rows| ==>
      (!Reviewable(rows[i], user, ids) ==> Reviewed(rows, user, ids, to)[i] == rows[i])
    ensures forall i :: 0 <= i < |rows| ==>
      Reviewed(rows, user, ids, to)[i] == rows[i].(tax := rows[i].tax.(status := Reviewed(rows, user, ids, to)[i].tax.status))
    ensures CountReviewable(Reviewed(rows, user, ids, to), user, ids) == 0
  {
    ReviewedLeavesNone(rows, user, ids, to);
  }

  lemma {:induction false} ReviewedLeavesNone(rows: seq<TaxRow>, user: int, ids: set<int>, to: string)
    requires to != Suggested
    ensures CountReviewable(Reviewed(rows, user, ids, to), user, ids) == 0
  {
    if rows != [] {
      var r := Reviewed(rows, user, ids, to);
      ReviewedLeavesNone(rows[..|rows| - 1], user, ids, to);
      assert r[..|r| - 1] == Reviewed(rows[..|rows| - 1], user, ids, to);
    }
  }

  /** The owner's tax records with the next id to hand out. */
  class TaxLedger {
    var rows: seq<TaxRow>
    var nextId: int

    constructor()
      ensures rows == [] && nextId == 1
    {
      rows, nextId := [], 1;
    }

    /** The source transaction ids `user` already has records for. */
    function TaxedSources(user: int): set<int>
      reads this
    {
      set i | 0 <= i < |rows| && rows[i].owner == user :: rows[i].tax.sourceId
    }

    /**
     * `classifyRange`: classify the user's transactions of the range against
     * the active rules, save the records and return how many were created. An
     * exception from a rule leaves the ledger as it was.
     */
    method ClassifyRange(user: int, rules: seq<Rule>, txns: seq<Txn>, ignored: set<int>, startYear: int,
                         find: (string, string) -> Option<bool>)
      returns (r: Result<nat, EvalError>)
      modifies this
      ensures var c := Classified(txns, rules, old(TaxedSources(user)), ignored, startYear, find);
        c.Ok? ==> r == Ok(|c.value|) && rows == old(rows) + Rows(c.value, user, old(nextId)) && nextId == old(nextId) + |c.value|
      ensures var c := Classified(txns, rules, old(TaxedSources(user)), ignored, startYear, find);
        c.Err? ==> r == Err(c.error) && rows == old(rows) && nextId == old(nextId)
    {
      var taxed := TaxedSources(user);
      var acc: seq<TaxTxn> := [];
      var sources: set<int> := {};
      var i := 0;
      assert SourcesOf([]) == {};
      while i < |txns|
        invariant 0 <= i <= |txns|
        invariant Classified(txns[..i], rules, taxed, ignored, startYear, find) == Ok(acc)
        invariant sources == SourcesOf(acc)
        invariant rows == old(rows) && nextId == old(nextId)
      {
        ClassifiedSnoc(txns, i, rules, taxed, ignored, startYear, find);
        var t := txns[i];
        if t.amount.None? || t.amount.value >= 0.0 || t.id in taxed + sources || t.id in ignored {
          i := i + 1;
          continue;
        }
        var m := FindRule(rules, t, find);
        if m.Err? {
          ErrPersists(txns, i + 1, rules, taxed, ignored, startYear, find);
          return Err(m.error);
        }
        if m.value.Some? {
          var x := Record(t, rules[m.value.value], startYear);
          SourcesOfSnoc(acc, x);
          acc := acc + [x];
          sources := sources + {t.id};
        }
        i := i + 1;
      }
      assert txns[..|txns|] == txns;
      rows := rows + Rows(acc, user, nextId);
      nextId := nextId + |acc|;
      return Ok(|acc|);
    }

    /** `approve` (to = CONFIRMED) and `reject` (to = REJECTED): returns the number changed. */
    method Review(user: int, ids: set<int>, to: string) returns (count: nat)
      modifies this
      ensures rows == Reviewed(old(rows), user, ids, to)
      ensures count == CountReviewable(old(rows), user, ids)
      ensures nextId == old(nextId)
    {
      var i := 0;
      count := 0;
      ghost var before := rows;
      while i < |rows|
        invariant 0 <= i <= |rows| && |rows| == |before|
        decreases |rows| - i
        invariant rows[..i] == Reviewed(before[..i], user, ids, to)
        invariant rows[i..] == before[i..]
        invariant count == CountReviewable(before[..i], user, ids)
        invariant nextId == old(nextId)
      {
        CountReviewableSnoc(before, i, user, ids);
        assert before[..i + 1][..i] == before[..i];
        assert rows[i] == before[i] by { assert rows[i..][0] == before[i..][0]; }
        if Reviewable(rows[i], user, ids) {
          rows := rows[i := rows[i].(tax := rows[i].tax.(status := to))];
          count := count + 1;
        }
        assert rows[..i + 1] == rows[..i] + [rows[i]];
        i := i + 1;
      }
      assert before[..|before|] == before;
    }
  }

  /** Rows for the created records, numbered from `firstId`. */
  function Rows(out: seq<TaxTxn>, user: int, firstId: int): (r: seq<TaxRow>)
    ensures |r| == |out|
    ensures forall i :: 0 <= i < |out| ==> r[i] == TaxRow(firstId + i, user, out[i])
  {
    if out == [] then [] else Rows(out[..|out| - 1], user, firstId) + [TaxRow(firstId + |out| - 1, user, out[|out| - 1])]
  }

  // ------------------------------------------------------------------- test

  datatype TestResult = TestResult(matches: bool, taxCategoryCode: Option<string>, autoMarkDeductible: bool,
                                   error: Option<string>)

  /**
   * `test`: evaluate a would-be rule against sample fields. An unknown match
   * type, and any IllegalArgumentException from evaluation (a bad range bound
   * or pattern), gives matches=false with the "Invalid matchType" message.
   */
  function Test(matchType: string, matchValue: string, description: Option<string>, amount: Option<real>,
                category: Option<string>, merchant: Option<string>, taxCategoryCode: Option<string>,
                autoMarkDeductible: Option<bool>, find: (string, string) -> Option<bool>): (r: TestResult)
    ensures r.taxCategoryCode == taxCategoryCode
    ensures r.autoMarkDeductible == autoMarkDeductible.GetOr(true)
    ensures MatchTypeOf(matchType).None? ==> !r.matches && r.error == Some("Invalid matchType: " + matchType)
    ensures r.error.None? <==>
      (MatchTypeOf(matchType).Some? &&
       Evaluate(MatchTypeOf(matchType).value, matchValue, description, amount, category, merchant, find).Ok?)
    ensures r.matches ==> r.error.None?
  {
    var auto := autoMarkDeductible.GetOr(true);
    match MatchTypeOf(matchType)
    case None => TestResult(false, taxCategoryCode, auto, Some("Invalid matchType: " + matchType))
    case Some(mt) =>
      match Evaluate(mt, matchValue, description, amount, category, merchant, find)
      case Ok(b) => TestResult(b, taxCategoryCode, auto, None)
      case Err(_) => TestResult(false, taxCategoryCode, auto, Some("Invalid matchType: " + matchType))
  }

  /** Testing a saved rule against a transaction's fields predicts what the classifier sees. */
  lemma TestPredictsMatch(r: Rule, t: Txn, find: (string, string) -> Option<bool>)
    ensures Test(Name(r.matchType), r.matchValue, t.description, t.amount, t.category, t.bankName,
                 Some(r.taxCategoryCode), Some(r.autoMarkDeductible), find).matches
        <==> Matches(r, t, find) == Ok(true)
  {
    MatchTypeNames(r.matchType, Name(r.matchType));
  }
}
