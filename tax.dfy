/**
 * TaxService: per-category usage of the annual deduction limits, the insights
 * built from that usage, and the create/update/toggle life-cycle of a tax
 * record's flags. BigDecimal amounts are reals; where the rounding of a
 * BigDecimal division depends on the dividend's scale, that scale is explicit.
 */
module Tax {
  import opened Wrappers
  import opened Numbers
  import Decimal

  /** A TaxCategoryUsageDto. */
  datatype Usage = Usage(code: string, description: Option<string>, annualLimit: Option<real>, used: real,
                         remaining: real, percentUsed: real, overLimit: bool, nearLimit: bool)

  /** The scale of the `amount` column (precision 19, scale 4), and so of its sums. */
  const AmountScale: nat := 4

  /**
   * `mapUsage`: `usedScale` is the BigDecimal scale of `used`, which the
   * percentage keeps when `used * 100` is divided by the limit, rounding half up.
   */
  function MapUsage(code: string, description: Option<string>, limit: Option<real>, used: real, usedScale: nat): (u: Usage)
    ensures u.code == code && u.description == description && u.annualLimit == limit && u.used == used
    ensures limit.None? ==> u.remaining == 0.0
    ensures limit.Some? ==> u.remaining + MaxReal(used, 0.0) == limit.value
    ensures limit.None? || limit.value == 0.0 ==> u.percentUsed == 0.0
    ensures limit.Some? && limit.value != 0.0 ==> u.percentUsed == Decimal.RoundHalfUp(used * 100.0 / limit.value, usedScale)
    ensures u.overLimit <==> limit.Some? && used > limit.value
    ensures u.nearLimit ==> limit.Some? && !u.overLimit && u.percentUsed >= 80.0
    ensures !(u.overLimit && u.nearLimit)
  {
    var remaining := if limit.None? then 0.0 else limit.value - MaxReal(used, 0.0);
    var percent := if limit.None? || limit.value == 0.0 then 0.0
                   else Decimal.RoundHalfUp(used * 100.0 / limit.value, usedScale);
    var over := limit.Some? && used > limit.value;
    var near := !over && limit.Some? && percent >= 80.0;
    Usage(code, description, limit, used, remaining, percent, over, near)
  }

  /** With a non-zero limit, the percentage is within half a last-place unit of used * 100 / limit. */
  lemma PercentUsedClose(code: string, description: Option<string>, limit: real, used: real, usedScale: nat)
    requires limit != 0.0
    ensures var p := MapUsage(code, description, Some(limit), used, usedScale).percentUsed;
      var h := 0.5 / Decimal.Pow10(usedScale) as real;
      used * 100.0 / limit - h <= p <= used * 100.0 / limit + h
  {
    Decimal.RoundWithinHalfUnit(used * 100.0 / limit, usedScale);
  }

  /**
   * With a positive limit, a category within its limit is flagged near exactly
   * when its usage reaches 80% of the limit, up to the rounding of the
   * percentage to the scale of `used`: reaching 80% always flags it, and a flag
   * means usage is at most half a last-place unit below 80%.
   */
  lemma NearLimitMeaning(code: string, description: Option<string>, limit: real, used: real, usedScale: nat)
    requires limit > 0.0 && used <= limit
    ensures used * 100.0 / limit >= 80.0 ==> MapUsage(code, description, Some(limit), used, usedScale).nearLimit
    ensures MapUsage(code, description, Some(limit), used, usedScale).nearLimit ==>
      (used * 100.0 / limit) * (Decimal.Pow10(usedScale) as real) + 0.5 >= (80 * Decimal.Pow10(usedScale)) as real
  {
    var x := used * 100.0 / limit;
    NearIsRounded(code, description, limit, used, usedScale);
    if x >= 80.0 {
      Decimal.RoundKeepsWholeBound(x, 80, usedScale);
    }
    if Decimal.RoundHalfUp(x, usedScale) >= 80.0 {
      if x < 0.0 {
        Decimal.RoundNegative(x, usedScale);
      } else {
        Decimal.RoundReachesWholeBound(x, 80, usedScale);
      }
    }
  }

  /** Within a positive limit, the near flag is the rounded percentage reaching 80. */
  lemma NearIsRounded(code: string, description: Option<string>, limit: real, used: real, usedScale: nat)
    requires limit > 0.0 && used <= limit
    ensures MapUsage(code, description, Some(limit), used, usedScale).nearLimit
      <==> Decimal.RoundHalfUp(used * 100.0 / limit, usedScale) >= 80.0
  {
  }

  /** A TaxCategory: its code, description and optional annual limit. */
  datatype TaxCategory = TaxCategory(code: string, description: Option<string>, annualLimit: Option<real>)

  /**
   * `buildCategoryUsage`: one usage per category, in the categories' order;
   * `totals` are the aggregated amounts by category code, and a category
   * without one uses BigDecimal.ZERO (scale 0).
   */
  function CategoryUsage(categories: seq<TaxCategory>, totals: map<string, real>): (r: seq<Usage>)
    ensures |r| == |categories|
    ensures forall i :: 0 <= i < |categories| ==> r[i].code == categories[i].code
    ensures forall i :: 0 <= i < |categories| ==>
      r[i].used == (if categories[i].code in totals then totals[categories[i].code] else 0.0)
  {
    if categories == [] then []
    else
      var c := categories[|categories| - 1];
      var used := if c.code in totals then totals[c.code] else 0.0;
      var scale := if c.code in totals then AmountScale else 0;
      CategoryUsage(categories[..|categories| - 1], totals) + [MapUsage(c.code, c.description, c.annualLimit, used, scale)]
  }

  /** A TaxSummaryDto. */
  datatype Summary = Summary(year: Option<int>, totalDeductible: real, estimatedSavings: real, missingReceipts: int,
                             categories: seq<Usage>)

  /** `summary`: the savings estimate uses a 30% bracket. */
  function Summarize(year: Option<int>, total: real, missing: int, categories: seq<TaxCategory>, totals: map<string, real>): (s: Summary)
    ensures s.estimatedSavings * 10.0 == total * 3.0
    ensures s.categories == CategoryUsage(categories, totals)
  {
    Summary(year, total, total * 0.3, missing, CategoryUsage(categories, totals))
  }

  // ---------------------------------------------------------------- insights

  /** A TaxInsightDto: id, type, severity, message and category code. */
  datatype Insight = Insight(id: string, kind: string, severity: string, message: string, category: Option<string>)

  /**
   * The insight one category contributes, if any. Only a category with a
   * limit can be over it, so the excess never reads a missing limit. `show`
   * is BigDecimal's `toString` and `format1` is `String.format("%.1f", …)`;
   * neither is modelled.
   */
  function InsightFor(u: Usage, show: real -> string, format1: real -> string): Option<Insight> {
    if u.overLimit then
      Some(Insight("OVER-" + u.code, "WARNING", "ERROR",
                   "Exceeded limit for " + u.code + " by " + show(u.used - u.annualLimit.GetOr(0.0)), Some(u.code)))
    else if u.nearLimit then
      Some(Insight("NEAR-" + u.code, "TIP", "WARN",
                   "Approaching limit for " + u.code + " (" + format1(u.percentUsed) + "%)", Some(u.code)))
    else if u.annualLimit.Some? then
      Some(Insight("REMAIN-" + u.code, "TIP", "INFO",
                   "You have " + show(u.annualLimit.value - u.used) + " remaining under " + u.code, Some(u.code)))
    else None
  }

  function MissingReceipts(missing: int, show: int -> string): Insight {
    Insight("MISSING-RECEIPTS", "ACTION", "WARN", show(missing) + " receipt(s) missing for deductible claims", None)
  }

  /** The category insights, in category order. */
  function CategoryInsights(us: seq<Usage>, show: real -> string, format1: real -> string): seq<Insight> {
    if us == [] then []
    else
      var last := InsightFor(us[|us| - 1], show, format1);
      CategoryInsights(us[..|us| - 1], show, format1) + (if last.Some? then [last.value] else [])
  }

  lemma CategoryInsightsSnoc(us: seq<Usage>, i: nat, show: real -> string, format1: real -> string)
    requires i < |us|
    ensures CategoryInsights(us[..i + 1], show, format1)
         == CategoryInsights(us[..i], show, format1)
            + (if InsightFor(us[i], show, format1).Some? then [InsightFor(us[i], show, format1).value] else [])
  {
    assert us[..i + 1][..i] == us[..i];
  }

  /** `insights`: the categories' insights, then MISSING-RECEIPTS when receipts are missing. */
  function Insights(s: Summary, show: real -> string, format1: real -> string, showCount: int -> string): seq<Insight> {
    CategoryInsights(s.categories, show, format1)
    + (if s.missingReceipts > 0 then [MissingReceipts(s.missingReceipts, showCount)] else [])
  }

  /** A usage row yields an insight iff it is over, near, or has a limit. */
  predicate Reported(u: Usage) {
    u.overLimit || u.nearLimit || u.annualLimit.Some?
  }

  function CountReported(us: seq<Usage>): nat {
    if us == [] then 0 else CountReported(us[..|us| - 1]) + (if Reported(us[|us| - 1]) then 1 else 0)
  }

  /**
   * Every insight but MISSING-RECEIPTS is the one insight of some category;
   * there is one per category that is over its limit, near it or has a limit,
   * and none from a category without a limit.
   */
  lemma {:induction false} CategoryInsightsSpec(us: seq<Usage>, show: real -> string, format1: real -> string)
    requires forall i :: 0 <= i < |us| ==> (us[i].overLimit || us[i].nearLimit ==> us[i].annualLimit.Some?)
    ensures |CategoryInsights(us, show, format1)| == CountReported(us)
    ensures forall x :: x in CategoryInsights(us, show, format1) ==>
      exists i :: 0 <= i < |us| && us[i].annualLimit.Some? && InsightFor(us[i], show, format1) == Some(x)
    ensures forall x :: x in CategoryInsights(us, show, format1) ==> x.category.Some?
  {
    if us != [] {
      var init := us[..|us| - 1];
      var u := us[|us| - 1];
      CategoryInsightsSpec(init, show, format1);
      forall x | x in CategoryInsights(us, show, format1)
        ensures exists i :: 0 <= i < |us| && us[i].annualLimit.Some? && InsightFor(us[i], show, format1) == Some(x)
      {
        if x in CategoryInsights(init, show, format1) {
          var i :| 0 <= i < |init| && init[i].annualLimit.Some? && InsightFor(init[i], show, format1) == Some(x);
          assert us[i] == init[i];
        } else {
          assert InsightFor(u, show, format1) == Some(x);
        }
      }
    }
  }

  /** MISSING-RECEIPTS is reported iff receipts are missing, and then it is last. */
  lemma MissingReceiptsLast(s: Summary, show: real -> string, format1: real -> string, showCount: int -> string)
    ensures var r := Insights(s, show, format1, showCount);
      (s.missingReceipts > 0 <==> |r| > 0 && r[|r| - 1].id == "MISSING-RECEIPTS")
  {
    var c := CategoryInsights(s.categories, show, format1);
    CategoryIdsNotMissing(s.categories, show, format1);
    if s.missingReceipts <= 0 && |c| > 0 {
      assert c[|c| - 1] in c;
    }
  }

  lemma {:induction false} CategoryIdsNotMissing(us: seq<Usage>, show: real -> string, format1: real -> string)
    ensures forall x :: x in CategoryInsights(us, show, format1) ==> x.id != "MISSING-RECEIPTS"
  {
    if us != [] {
      CategoryIdsNotMissing(us[..|us| - 1], show, format1);
      var o := InsightFor(us[|us| - 1], show, format1);
      if o.Some? {
        var x := o.value;
        assert x.id[0] == 'O' || x.id[0] == 'N' || x.id[0] == 'R';
      }
    }
  }

  /** The `forEach` that fills the insight list, then the receipt check. */
  method BuildInsights(s: Summary, show: real -> string, format1: real -> string, showCount: int -> string)
    returns (list: seq<Insight>)
    ensures list == Insights(s, show, format1, showCount)
  {
    list := [];
    var i := 0;
    while i < |s.categories|
      invariant 0 <= i <= |s.categories|
      invariant list == CategoryInsights(s.categories[..i], show, format1)
    {
      CategoryInsightsSnoc(s.categories, i, show, format1);
      var c := s.categories[i];
      if c.overLimit {
        list := list + [Insight("OVER-" + c.code, "WARNING", "ERROR",
                                "Exceeded limit for " + c.code + " by " + show(c.used - c.annualLimit.GetOr(0.0)), Some(c.code))];
      } else if c.nearLimit {
        list := list + [Insight("NEAR-" + c.code, "TIP", "WARN",
                                "Approaching limit for " + c.code + " (" + format1(c.percentUsed) + "%)", Some(c.code))];
      } else if c.annualLimit.Some? {
        var remaining := c.annualLimit.value - c.used;
        list := list + [Insight("REMAIN-" + c.code, "TIP", "INFO",
                                "You have " + show(remaining) + " remaining under " + c.code, Some(c.code))];
      }
      i := i + 1;
    }
    assert s.categories[..|s.categories|] == s.categories;
    if s.missingReceipts > 0 {
      list := list + [MissingReceipts(s.missingReceipts, showCount)];
    }
  }

  // ------------------------------------------------ the record's own flags

  /** The fields of a TaxTransactionDto that create and update copy. */
  datatype Dto = Dto(taxYear: Option<int>, category: Option<string>, amount: Option<real>, paidDate: Option<int>,
                     note: Option<string>, deductible: Option<bool>, hasReceipt: Option<bool>)

  /** `toggleDeductible`: a null flag counts as false, so it becomes true. */
  function Toggled(d: Option<bool>): (r: bool) {
    d.None? || !d.value
  }

  /** Toggling twice restores a set flag; a null flag becomes false after two toggles. */
  lemma ToggleTwice(d: Option<bool>)
    ensures Toggled(Some(Toggled(d))) == (d.Some? && d.value)
    ensures Toggled(d) != (d.Some? && d.value)
  {
  }

  /** A stored TaxTransaction's user-editable fields and its owner. */
  class TaxEntry {
    const owner: int
    var taxYear: Option<int>
    var category: Option<string>
    var amount: Option<real>
    var paidDate: Option<int>
    var note: Option<string>
    var deductible: Option<bool>
    var hasReceipt: Option<bool>

    /** `create`: deductible defaults to TRUE and hasReceipt to FALSE. */
    constructor Create(user: int, dto: Dto)
      ensures owner == user
      ensures taxYear == dto.taxYear && category == dto.category && amount == dto.amount
      ensures paidDate == dto.paidDate && note == dto.note
      ensures deductible == Some(dto.deductible.GetOr(true))
      ensures hasReceipt == Some(dto.hasReceipt.GetOr(false))
    {
      owner := user;
      taxYear, category, amount, paidDate, note := dto.taxYear, dto.category, dto.amount, dto.paidDate, dto.note;
      deductible := Some(if dto.deductible.None? then true else dto.deductible.value);
      hasReceipt := Some(if dto.hasReceipt.None? then false else dto.hasReceipt.value);
    }

    /**
     * `update`: another user's record is not found (false, nothing changes);
     * otherwise the plain fields are overwritten, nulls included, and the two
     * flags only when the DTO gives them.
     */
    method Update(user: int, dto: Dto) returns (found: bool)
      modifies this
      ensures found <==> user == owner
      ensures !found ==> unchanged(this)
      ensures found ==> (taxYear == dto.taxYear && category == dto.category && amount == dto.amount &&
                         paidDate == dto.paidDate && note == dto.note)
      ensures found ==> deductible == (if dto.deductible.Some? then dto.deductible else old(deductible))
      ensures found ==> hasReceipt == (if dto.hasReceipt.Some? then dto.hasReceipt else old(hasReceipt))
    {
      if user != owner {
        return false;
      }
      taxYear, category, amount, paidDate, note := dto.taxYear, dto.category, dto.amount, dto.paidDate, dto.note;
      if dto.deductible.Some? {
        deductible := dto.deductible;
      }
      if dto.hasReceipt.Some? {
        hasReceipt := dto.hasReceipt;
      }
      return true;
    }

    /** `toggleDeductible`: flips the owner's flag and changes nothing else. */
    method ToggleDeductible(user: int) returns (found: bool)
      modifies this
      ensures found <==> user == owner
      ensures found ==> deductible == Some(Toggled(old(deductible)))
      ensures taxYear == old(taxYear) && category == old(category) && amount == old(amount)
      ensures paidDate == old(paidDate) && note == old(note) && hasReceipt == old(hasReceipt)
      ensures !found ==> deductible == old(deductible)
    {
      if user != owner {
        return false;
      }
      deductible := Some(deductible == None || !deductible.value);
      return true;
    }
  }
}
