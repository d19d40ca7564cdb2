/**
 * BudgetService: the monthly budget summary (per-category usage lines,
 * totals, over-budget count), budget adherence for a month and its average
 * over several months, and the quick edit of a category's limit.
 *
 * BigDecimal divisions at DECIMAL64 precision and the `double` results are
 * exact reals here. The month's spending by category name comes from a
 * repository query and is an input: `breakdown(ym)`.
 */
module Budgets {
  import opened Wrappers
  import opened Numbers
  import opened Calendar
  import opened Seqs

  /** A BudgetCategory row with its owner. */
  datatype Budget = Budget(id: int, owner: int, name: string, monthlyBudget: Option<real>, spent: Option<real>,
                           icon: Option<string>, color: Option<string>)

  /** A BudgetCategoryUsageDto. */
  datatype Line = Line(id: int, name: string, budget: real, spent: real, icon: Option<string>, color: Option<string>,
                       progress: real, over: bool, near: bool, remaining: real)

  /** Spent for a budget: its category's outflow, or zero without a breakdown entry. */
  function SpentOf(b: Budget, m: map<string, real>): real {
    if b.name in m then m[b.name] else 0.0
  }

  /** A null budget counts as zero. */
  function BudgetOf(b: Budget): real {
    b.monthlyBudget.GetOr(0.0)
  }

  /** spent / budget as a percentage, zero for a zero budget. */
  function Percent(spent: real, budget: real): real {
    if budget == 0.0 then 0.0 else spent / budget * 100.0
  }

  /** One category's usage line. */
  function LineOf(b: Budget, m: map<string, real>): (l: Line)
    ensures l.budget == BudgetOf(b) && l.spent == SpentOf(b, m)
    ensures l.progress <= 100.0
    ensures l.remaining >= 0.0
    ensures !(l.over && l.near)
  {
    var spent := SpentOf(b, m);
    var budget := BudgetOf(b);
    var progress := Percent(spent, budget);
    var over := spent > budget;
    var near := !over && progress >= 80.0;
    var remaining := if budget - spent < 0.0 then 0.0 else budget - spent;
    Line(b.id, b.name, budget, spent, b.icon, b.color, MinReal(progress, 100.0), over, near, remaining)
  }

  /**
   * For a positive budget: over means spent exceeds the budget, near means
   * spent is within the budget and at least 80% of it, and what remains is
   * the unspent part, never negative.
   */
  lemma LineMeaning(b: Budget, m: map<string, real>)
    requires BudgetOf(b) > 0.0
    ensures LineOf(b, m).over <==> SpentOf(b, m) > BudgetOf(b)
    ensures LineOf(b, m).near <==> SpentOf(b, m) <= BudgetOf(b) && SpentOf(b, m) >= 0.8 * BudgetOf(b)
    ensures LineOf(b, m).remaining == MaxReal(BudgetOf(b) - SpentOf(b, m), 0.0)
    ensures LineOf(b, m).progress == MinReal(SpentOf(b, m) / BudgetOf(b) * 100.0, 100.0)
  {
    var spent, budget := SpentOf(b, m), BudgetOf(b);
    DivAtLeast(spent, budget, 0.8);
    assert spent / budget * 100.0 >= 80.0 <==> spent / budget >= 0.8;
  }

  // --------------------------------------------------------------- summary

  function Lines(bs: seq<Budget>, m: map<string, real>): (r: seq<Line>)
    ensures |r| == |bs|
    ensures forall i :: 0 <= i < |bs| ==> r[i] == LineOf(bs[i], m)
  {
    if bs == [] then [] else Lines(bs[..|bs| - 1], m) + [LineOf(bs[|bs| - 1], m)]
  }

  function TotalBudget(bs: seq<Budget>): real {
    if bs == [] then 0.0 else TotalBudget(bs[..|bs| - 1]) + BudgetOf(bs[|bs| - 1])
  }

  function TotalSpent(bs: seq<Budget>, m: map<string, real>): real {
    if bs == [] then 0.0 else TotalSpent(bs[..|bs| - 1], m) + SpentOf(bs[|bs| - 1], m)
  }

  function OverCount(bs: seq<Budget>, m: map<string, real>): (n: nat)
    ensures n <= |bs|
  {
    if bs == [] then 0 else OverCount(bs[..|bs| - 1], m) + (if SpentOf(bs[|bs| - 1], m) > BudgetOf(bs[|bs| - 1]) then 1 else 0)
  }

  /** overBudgetCount is the number of lines flagged over. */
  lemma {:induction false} OverCountIsOverLines(bs: seq<Budget>, m: map<string, real>)
    ensures OverCount(bs, m) == Count(Lines(bs, m), (l: Line) => l.over)
  {
    if bs != [] {
      var n := |bs| - 1;
      var last := LineOf(bs[n], m);
      OverCountIsOverLines(bs[..n], m);
      assert Lines(bs, m) == Lines(bs[..n], m) + [last];
      CountAppend(Lines(bs[..n], m), [last], (l: Line) => l.over);
      assert Count([last], (l: Line) => l.over) == if last.over then 1 else 0;
    }
  }

  /** The lines and running totals of `summary`. */
  datatype Tally = Tally(lines: seq<Line>, totalBudget: real, totalSpent: real, overBudgetCount: nat)

  function TallyOf(bs: seq<Budget>, m: map<string, real>): Tally {
    if bs == [] then Tally([], 0.0, 0.0, 0) else Add(TallyOf(bs[..|bs| - 1], m), LineOf(bs[|bs| - 1], m))
  }

  /** One more line in the running totals. */
  function Add(t: Tally, l: Line): Tally {
    Tally(t.lines + [l], t.totalBudget + l.budget, t.totalSpent + l.spent, t.overBudgetCount + if l.over then 1 else 0)
  }

  lemma {:induction false} TallyOfSpec(bs: seq<Budget>, m: map<string, real>)
    ensures TallyOf(bs, m) == Tally(Lines(bs, m), TotalBudget(bs), TotalSpent(bs, m), OverCount(bs, m))
  {
    if bs != [] {
      TallyOfSpec(bs[..|bs| - 1], m);
    }
  }

  lemma TallySnoc(bs: seq<Budget>, b: Budget, m: map<string, real>)
    ensures TallyOf(bs + [b], m) == Add(TallyOf(bs, m), LineOf(b, m))
  {
    assert (bs + [b])[..|bs|] == bs;
  }

  /** Users' budgets in repository order: exactly the rows the user owns. */
  function UserBudgets(rows: seq<Budget>, user: int): (r: seq<Budget>)
    ensures |r| <= |rows|
    ensures forall b :: b in r ==> b in rows && b.owner == user
  {
    if rows == [] then []
    else UserBudgets(rows[..|rows| - 1], user) + (if rows[|rows| - 1].owner == user then [rows[|rows| - 1]] else [])
  }

  /** No budget of the user is left out. */
  lemma {:induction false} UserBudgetsComplete(rows: seq<Budget>, user: int)
    ensures forall b :: b in rows && b.owner == user ==> b in UserBudgets(rows, user)
  {
    if rows != [] {
      var init := rows[..|rows| - 1];
      UserBudgetsComplete(init, user);
      assert forall x :: x in rows ==> x in init || x == rows[|rows| - 1];
    }
  }

  /**
   * The selection keeps repository order: the user's budgets among two runs of
   * rows are those of the first run followed by those of the second.
   */
  lemma {:induction false} UserBudgetsAppend(front: seq<Budget>, back: seq<Budget>, user: int)
    ensures UserBudgets(front + back, user) == UserBudgets(front, user) + UserBudgets(back, user)
    decreases |back|
  {
    if back == [] {
      assert front + back == front;
    } else {
      var init, last := back[..|back| - 1], back[|back| - 1];
      var mine := if last.owner == user then [last] else [];
      UserBudgetsAppend(front, init, user);
      assert (front + back)[..|front + back| - 1] == front + init && (front + back)[|front + back| - 1] == last;
      assert UserBudgets(front + back, user) == UserBudgets(front + init, user) + mine;
      assert UserBudgets(back, user) == UserBudgets(init, user) + mine;
    }
  }

  lemma Snoc(rows: seq<Budget>, i: nat, user: int, m: map<string, real>)
    requires i < |rows|
    ensures UserBudgets(rows[..i + 1], user) == UserBudgets(rows[..i], user) + (if rows[i].owner == user then [rows[i]] else [])
    ensures WithSpent(rows[..i + 1], user, m) == WithSpent(rows[..i], user, m) + [Cached(rows[i], user, m)]
  {
    assert rows[..i + 1][..i] == rows[..i];
  }

  /** One step of the spent-caching scan: the user's budgets, their totals and the cached rows grow together. */
  lemma CacheStep(rows: seq<Budget>, i: nat, user: int, m: map<string, real>, mine: seq<Budget>)
    requires i < |rows| && mine == UserBudgets(rows[..i], user)
    ensures UserBudgets(rows[..i + 1], user) == if rows[i].owner == user then mine + [rows[i]] else mine
    ensures TallyOf(UserBudgets(rows[..i + 1], user), m)
      == if rows[i].owner == user then Add(TallyOf(mine, m), LineOf(rows[i], m)) else TallyOf(mine, m)
    ensures WithSpent(rows[..i + 1], user, m) == WithSpent(rows[..i], user, m) + [Cached(rows[i], user, m)]
  {
    Snoc(rows, i, user, m);
    TallySnoc(mine, rows[i], m);
  }

  // ------------------------------------------------------------- adherence

  /** Only positive budgets take part in adherence. */
  predicate Counted(b: Budget) {
    b.monthlyBudget.Some? && b.monthlyBudget.value > 0.0
  }

  /** Σ min(spent, budget) over the counted budgets. */
  function Numer(bs: seq<Budget>, m: map<string, real>): real {
    if bs == [] then 0.0
    else
      var b := bs[|bs| - 1];
      Numer(bs[..|bs| - 1], m) + (if Counted(b) then MinReal(SpentOf(b, m), b.monthlyBudget.value) else 0.0)
  }

  /** Σ budget over the counted budgets. */
  function Denom(bs: seq<Budget>): real {
    if bs == [] then 0.0
    else
      var b := bs[|bs| - 1];
      Denom(bs[..|bs| - 1]) + (if Counted(b) then b.monthlyBudget.value else 0.0)
  }

  /** `adherenceForMonth`: 100 · Σmin(spent, budget) / Σbudget, zero without a positive budget. */
  function Adherence(bs: seq<Budget>, m: map<string, real>): real {
    if bs == [] || Denom(bs) == 0.0 then 0.0 else Numer(bs, m) / Denom(bs) * 100.0
  }

  predicate NonNegative(m: map<string, real>) {
    forall k :: k in m ==> m[k] >= 0.0
  }

  lemma {:induction false} NumerWithinDenom(bs: seq<Budget>, m: map<string, real>)
    requires NonNegative(m)
    ensures 0.0 <= Numer(bs, m) <= Denom(bs)
    ensures Denom(bs) >= 0.0
  {
    if bs != [] {
      NumerWithinDenom(bs[..|bs| - 1], m);
    }
  }

  /** With non-negative outflows, adherence is a percentage in [0, 100]. */
  lemma AdherenceBounds(bs: seq<Budget>, m: map<string, real>)
    requires NonNegative(m)
    ensures 0.0 <= Adherence(bs, m) <= 100.0
  {
    NumerWithinDenom(bs, m);
    if bs != [] && Denom(bs) != 0.0 {
      DivAtMost(Numer(bs, m), Denom(bs), 1.0);
      DivAtLeast(Numer(bs, m), Denom(bs), 0.0);
    }
  }

  /** A month where every counted budget is fully used or exceeded scores 100. */
  lemma {:induction false} AdherenceFull(bs: seq<Budget>, m: map<string, real>)
    requires Denom(bs) > 0.0
    requires forall b :: b in bs && Counted(b) ==> SpentOf(b, m) >= b.monthlyBudget.value
    ensures Adherence(bs, m) == 100.0
  {
    NumerEqualsDenom(bs, m);
    FullRatio(Numer(bs, m), Denom(bs));
  }

  lemma FullRatio(a: real, b: real)
    requires a == b && b != 0.0
    ensures a / b * 100.0 == 100.0
  {
  }

  lemma {:induction false} NumerEqualsDenom(bs: seq<Budget>, m: map<string, real>)
    requires forall b :: b in bs && Counted(b) ==> SpentOf(b, m) >= b.monthlyBudget.value
    ensures Numer(bs, m) == Denom(bs)
  {
    if bs != [] {
      var init := bs[..|bs| - 1];
      assert forall b :: b in init ==> b in bs;
      NumerEqualsDenom(init, m);
      assert bs[|bs| - 1] in bs;
    }
  }

  /** Σ of the adherences of the `n` months ending at `end`, going back. */
  function AdherenceSum(bs: seq<Budget>, end: YearMonth, n: nat, breakdown: YearMonth -> map<string, real>): real {
    if n == 0 then 0.0 else AdherenceSum(bs, end, n - 1, breakdown) + Adherence(bs, breakdown(end - (n - 1)))
  }

  /** `averageAdherence`: the mean of the last `months` months' adherence; zero for months <= 0. */
  function AverageAdherence(bs: seq<Budget>, end: YearMonth, months: int, breakdown: YearMonth -> map<string, real>): real {
    if months <= 0 then 0.0 else AdherenceSum(bs, end, months, breakdown) / months as real
  }

  lemma {:induction false} AdherenceSumBounds(bs: seq<Budget>, end: YearMonth, n: nat, breakdown: YearMonth -> map<string, real>)
    requires forall ym :: NonNegative(breakdown(ym))
    ensures 0.0 <= AdherenceSum(bs, end, n, breakdown) <= 100.0 * n as real
  {
    if n > 0 {
      AdherenceSumBounds(bs, end, n - 1, breakdown);
      AdherenceBounds(bs, breakdown(end - (n - 1)));
    }
  }

  /** With non-negative outflows in every month, the average is in [0, 100] too. */
  lemma AverageAdherenceBounds(bs: seq<Budget>, end: YearMonth, months: int, breakdown: YearMonth -> map<string, real>)
    requires forall ym :: NonNegative(breakdown(ym))
    ensures 0.0 <= AverageAdherence(bs, end, months, breakdown) <= 100.0
  {
    if months > 0 {
      AdherenceSumBounds(bs, end, months, breakdown);
      DivAtMost(AdherenceSum(bs, end, months, breakdown), months as real, 100.0);
      DivAtLeast(AdherenceSum(bs, end, months, breakdown), months as real, 0.0);
    }
  }

  /** The loop of `adherenceForMonth`. */
  method AdherenceForMonth(bs: seq<Budget>, m: map<string, real>) returns (a: real)
    ensures a == Adherence(bs, m)
  {
    if |bs| == 0 {
      return 0.0;
    }
    var numer, denom := 0.0, 0.0;
    var i := 0;
    while i < |bs|
      invariant 0 <= i <= |bs|
      invariant numer == Numer(bs[..i], m) && denom == Denom(bs[..i])
    {
      assert bs[..i + 1][..i] == bs[..i];
      var b := bs[i];
      if b.monthlyBudget.Some? && b.monthlyBudget.value > 0.0 {
        var spent := if b.name in m then m[b.name] else 0.0;
        denom := denom + b.monthlyBudget.value;
        numer := numer + (if spent <= b.monthlyBudget.value then spent else b.monthlyBudget.value);
      }
      i := i + 1;
    }
    assert bs[..|bs|] == bs;
    if denom == 0.0 {
      return 0.0;
    }
    return numer / denom * 100.0;
  }

  /** The loop of `averageAdherence`. */
  method AverageOverMonths(bs: seq<Budget>, end: YearMonth, months: int, breakdown: YearMonth -> map<string, real>)
    returns (avg: real)
    ensures avg == AverageAdherence(bs, end, months, breakdown)
  {
    if months <= 0 {
      return 0.0;
    }
    var sum := 0.0;
    var count := 0;
    while count < months
      invariant 0 <= count <= months
      invariant sum == AdherenceSum(bs, end, count, breakdown)
    {
      var a := AdherenceForMonth(bs, breakdown(end - count));
      sum := sum + a;
      count := count + 1;
    }
    return sum / count as real;
  }

  /** A BudgetSummaryResponse. */
  datatype Summary = Summary(month: YearMonth, categories: seq<Line>, totalBudget: real, totalSpent: real,
                             overBudgetCount: nat, overallProgress: real,
                             thisMonth: real, lastMonth: real, avg6: real)

  /** The summary of the user's budgets for month `ym`. */
  function SummaryOf(bs: seq<Budget>, ym: YearMonth, breakdown: YearMonth -> map<string, real>): Summary {
    var m := breakdown(ym);
    Summary(ym, Lines(bs, m), TotalBudget(bs), TotalSpent(bs, m), OverCount(bs, m),
            Percent(TotalSpent(bs, m), TotalBudget(bs)),
            Adherence(bs, m), Adherence(bs, breakdown(ym - 1)), AverageAdherence(bs, ym, 6, breakdown))
  }

  function Cached(b: Budget, user: int, m: map<string, real>): Budget {
    if b.owner == user then b.(spent := Some(SpentOf(b, m))) else b
  }

  /** Each of the user's rows caches the month's spent value; other rows are untouched. */
  function WithSpent(rows: seq<Budget>, user: int, m: map<string, real>): (r: seq<Budget>)
    ensures |r| == |rows|
    ensures forall i :: 0 <= i < |rows| ==>
      r[i] == Cached(rows[i], user, m)
  {
    if rows == [] then []
    else WithSpent(rows[..|rows| - 1], user, m) + [Cached(rows[|rows| - 1], user, m)]
  }

  /** Index of the row with this id owned by this user (`findByIdAndUser`). */
  function FindBudget(rows: seq<Budget>, id: int, user: int): (k: Option<nat>)
    ensures k.Some? ==> k.value < |rows| && rows[k.value].id == id && rows[k.value].owner == user
    ensures k.None? ==> forall i :: 0 <= i < |rows| ==> !(rows[i].id == id && rows[i].owner == user)
  {
    if rows == [] then None
    else if rows[0].id == id && rows[0].owner == user then Some(0)
    else
      var k := FindBudget(rows[1..], id, user);
      if k.Some? then Some(k.value + 1) else None
  }

  class BudgetBook {
    var rows: seq<Budget>

    constructor()
      ensures rows == []
    {
      rows := [];
    }

    /**
     * `summary` for month `ym`: the user's budgets in order, each line from
     * that month's breakdown, the totals, and the adherence history; the
     * user's rows cache their spent value.
     */
    method Summarize(user: int, ym: YearMonth, breakdown: YearMonth -> map<string, real>) returns (s: Summary)
      modifies this
      ensures s == SummaryOf(UserBudgets(old(rows), user), ym, breakdown)
      ensures rows == WithSpent(old(rows), user, breakdown(ym))
    {
      var m := breakdown(ym);
      var mine, t := CacheSpent(user, m);
      TallyOfSpec(mine, m);
      var overall := if t.totalBudget == 0.0 then 0.0 else t.totalSpent / t.totalBudget * 100.0;
      var thisAdh := AdherenceForMonth(mine, m);
      var lastAdh := AdherenceForMonth(mine, breakdown(ym - 1));
      var avg6 := AverageOverMonths(mine, ym, 6, breakdown);
      s := Summary(ym, t.lines, t.totalBudget, t.totalSpent, t.overBudgetCount, overall, thisAdh, lastAdh, avg6);
    }

    /** The loop of `summary`: one line per budget of the user, whose row caches its spent value. */
    method CacheSpent(user: int, m: map<string, real>) returns (mine: seq<Budget>, t: Tally)
      modifies this
      ensures mine == UserBudgets(old(rows), user)
      ensures t == TallyOf(mine, m)
      ensures rows == WithSpent(old(rows), user, m)
    {
      var all := rows;
      var cached: seq<Budget> := [];
      t := Tally([], 0.0, 0.0, 0);
      mine := [];
      var i := 0;
      while i < |all|
        invariant 0 <= i <= |all|
        invariant mine == UserBudgets(all[..i], user)
        invariant t == TallyOf(mine, m)
        invariant cached == WithSpent(all[..i], user, m)
      {
        CacheStep(all, i, user, m, mine);
        var b := all[i];
        if b.owner == user {
          cached := cached + [b.(spent := Some(SpentOf(b, m)))];
          t := Add(t, LineOf(b, m));
          mine := mine + [b];
        } else {
          cached := cached + [b];
        }
        i := i + 1;
      }
      assert all[..|all|] == all;
      rows := cached;
    }

    /**
     * `updateLimit`: sets the monthly budget of the user's row with this id
     * and changes nothing else; `None` (NoSuchElementException) when the user
     * has no such row.
     */
    method UpdateLimit(user: int, id: int, newLimit: Option<real>) returns (r: Option<Budget>)
      modifies this
      ensures var k := FindBudget(old(rows), id, user);
        k.None? ==> r.None? && rows == old(rows)
      ensures var k := FindBudget(old(rows), id, user);
        k.Some? ==> (rows == old(rows)[k.value := old(rows)[k.value].(monthlyBudget := newLimit)]
                     && r == Some(rows[k.value]))
    {
      var k := FindBudget(rows, id, user);
      if k.None? {
        return None;
      }
      rows := rows[k.value := rows[k.value].(monthlyBudget := newLimit)];
      return Some(rows[k.value]);
    }
  }
}
