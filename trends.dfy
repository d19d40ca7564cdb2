/**
 * TrendService: the monthly net series of the last few months and the
 * monthly spending series between two months, with its summary (highest
 * and lowest month, average, month-over-month change).
 *
 * Month keys are `YearMonth` indices; the source keys its maps by the
 * "yyyy-MM" text of the month, which is one-to-one on the same months.
 * Repository queries are inputs; the current month is a parameter.
 */
module Trends {
  import opened Wrappers
  import opened Numbers
  import opened Calendar
  import opened Decimal
  import opened Forecasts
  import opened CashFlow

  /** The exceptions the two operations can raise. */
  datatype Failure =
    | NullValue(ym: YearMonth)     // Collectors.toMap on a null value
    | DuplicateKey(ym: YearMonth)  // Collectors.toMap on a repeated month
    | FromAfterTo                  // IllegalArgumentException("from after to")

  // ------------------------------------------------------------ monthlyNet

  /** A TrendPointDto. */
  datatype TrendPoint = TrendPoint(month: YearMonth, net: real)

  /** A non-positive count of months means six. */
  function MonthsOrDefault(months: int): (m: int)
    ensures m >= 1 && (months > 0 ==> m == months) && (months <= 0 ==> m == 6)
  {
    if months <= 0 then 6 else months
  }

  /** `Collectors.toMap(ym, net)`: a null net or a repeated month throws. */
  function NetIndex(rows: seq<NetRow>): Result<map<YearMonth, real>, Failure> {
    if rows == [] then Ok(map[])
    else
      var last := rows[|rows| - 1];
      match NetIndex(rows[..|rows| - 1])
      case Err(e) => Err(e)
      case Ok(m) =>
        if last.net.None? then Err(NullValue(last.ym))
        else if last.ym in m then Err(DuplicateKey(last.ym))
        else Ok(m[last.ym := last.net.value])
  }

  predicate NoNullNet(rows: seq<NetRow>) {
    forall i :: 0 <= i < |rows| ==> rows[i].net.Some?
  }

  predicate DistinctMonths(rows: seq<NetRow>) {
    forall i, j :: 0 <= i < j < |rows| ==> rows[i].ym != rows[j].ym
  }

  /**
   * The index exists exactly when no net is null and no month repeats, and
   * then it maps each row's month to its net and holds no other month.
   */
  lemma {:induction false} NetIndexSpec(rows: seq<NetRow>)
    ensures NetIndex(rows).Ok? <==> NoNullNet(rows) && DistinctMonths(rows)
    ensures NetIndex(rows).Ok? ==>
      (forall i :: 0 <= i < |rows| ==> rows[i].ym in NetIndex(rows).value
                                       && NetIndex(rows).value[rows[i].ym] == rows[i].net.value)
      && (forall ym :: ym in NetIndex(rows).value ==> exists i :: 0 <= i < |rows| && rows[i].ym == ym)
  {
    if rows != [] {
      var init := rows[..|rows| - 1];
      var last := rows[|rows| - 1];
      NetIndexSpec(init);
      assert forall i :: 0 <= i < |init| ==> init[i] == rows[i];
      if NetIndex(init).Ok? && last.net.Some? && last.ym in NetIndex(init).value {
        var i :| 0 <= i < |init| && init[i].ym == last.ym;
        assert rows[i].ym == rows[|rows| - 1].ym;
      }
      if NetIndex(rows).Ok? {
        var m := NetIndex(rows).value;
        forall ym | ym in m ensures exists i :: 0 <= i < |rows| && rows[i].ym == ym {
          if ym != last.ym {
            var i :| 0 <= i < |init| && init[i].ym == ym;
            assert rows[i].ym == ym;
          }
        }
      }
    }
  }

  /** The series `monthlyNet(months)` returns for the rows of its window: zero for a month without a row. */
  function MonthlyNetOf(months: int, now: YearMonth, rows: seq<NetRow>): Result<seq<TrendPoint>, Failure> {
    var m := MonthsOrDefault(months);
    match NetIndex(rows)
    case Err(e) => Err(e)
    case Ok(index) => Ok(seq(m, i requires 0 <= i < m => TrendPoint(now - (m - 1) + i, Get(index, now - (m - 1) + i))))
  }

  /**
   * The series has exactly one point per month, in order, ending with the
   * current month; a month with a row carries its net and any other month zero.
   */
  lemma MonthlyNetShape(months: int, now: YearMonth, rows: seq<NetRow>)
    requires NoNullNet(rows) && DistinctMonths(rows)
    ensures MonthlyNetOf(months, now, rows).Ok?
    ensures var ps := MonthlyNetOf(months, now, rows).value;
      |ps| == MonthsOrDefault(months) && ps[|ps| - 1].month == now
      && (forall i :: 0 <= i < |ps| - 1 ==> ps[i + 1].month == ps[i].month + 1)
      && (forall i, k :: 0 <= i < |ps| && 0 <= k < |rows| && rows[k].ym == ps[i].month ==>
            ps[i].net == rows[k].net.value)
      && (forall i :: 0 <= i < |ps| && (forall k :: 0 <= k < |rows| ==> rows[k].ym != ps[i].month) ==>
            ps[i].net == 0.0)
  {
    NetIndexSpec(rows);
    var index := NetIndex(rows).value;
    var m := MonthsOrDefault(months);
    var ps := MonthlyNetOf(months, now, rows).value;
    forall i | 0 <= i < |ps| ensures ps[i] == TrendPoint(now - (m - 1) + i, Get(index, now - (m - 1) + i)) {
    }
    forall i, k | 0 <= i < |ps| && 0 <= k < |rows| && rows[k].ym == ps[i].month
      ensures ps[i].net == rows[k].net.value
    {
      assert index[rows[k].ym] == rows[k].net.value;
    }
    forall i | 0 <= i < |ps| && (forall k :: 0 <= k < |rows| ==> rows[k].ym != ps[i].month)
      ensures ps[i].net == 0.0
    {
      assert ps[i].month !in index;
    }
  }

  /** A null net or a repeated month makes the call throw. */
  lemma MonthlyNetThrows(months: int, now: YearMonth, rows: seq<NetRow>)
    requires !NoNullNet(rows) || !DistinctMonths(rows)
    ensures MonthlyNetOf(months, now, rows).Err?
  {
    NetIndexSpec(rows);
  }

  /** `monthlyNet(months)` over the rows the query returns for its window. */
  method MonthlyNet(months: int, now: YearMonth, aggregate: (Day, Day) -> seq<NetRow>)
    returns (r: Result<seq<TrendPoint>, Failure>)
    ensures var m := MonthsOrDefault(months);
      r == MonthlyNetOf(months, now, aggregate(FirstDay(now - (m - 1)), LastDay(now)))
  {
    var m := MonthsOrDefault(months);
    var fromYm := now - (m - 1);
    var rows := aggregate(FirstDay(fromYm), LastDay(now));
    var index := NetIndex(rows);
    if index.Err? {
      return Err(index.error);
    }
    var result: seq<TrendPoint> := [];
    var i := 0;
    while i < m
      invariant 0 <= i <= m && |result| == i
      invariant forall k :: 0 <= k < i ==> result[k] == TrendPoint(fromYm + k, Get(index.value, fromYm + k))
    {
      var ym := fromYm + i;
      var net := Get(index.value, ym);
      result := result + [TrendPoint(ym, net)];
      i := i + 1;
    }
    r := Ok(result);
    assert result == MonthlyNetOf(months, now, rows).value;
  }

  // -------------------------------------------------- monthlySpendingSeries

  /** A MonthlyCategoryOutflowProjection. */
  datatype CatRow = CatRow(ym: YearMonth, category: string, outflow: real)

  /** A MonthlyBankOutflowProjection. */
  datatype BankRow = BankRow(ym: YearMonth, bankName: string, outflow: real)

  /** A CategoryAmount: the inflow is always zero in the series. */
  datatype CategoryAmount = CategoryAmount(category: string, outflow: real, inflow: real)

  datatype BankAmount = BankAmount(bankName: string, outflow: real)

  /** A MonthlyPoint. */
  datatype Point = Point(month: YearMonth, outflow: real, inflow: real, net: real,
                         categories: seq<CategoryAmount>, banks: seq<BankAmount>,
                         prevYearOutflow: Option<real>, yoyChange: Option<real>)

  /** A month and its outflow: the highest or lowest so far. */
  datatype Stat = Stat(month: YearMonth, amount: real)

  /** A missing stat is reported as no month and a zero amount. */
  datatype SeriesSummary = SeriesSummary(highest: Option<Stat>, lowest: Option<Stat>, average: real, momChangePct: Option<real>)

  datatype Series = Series(from: YearMonth, to: YearMonth, summary: SeriesSummary, monthly: seq<Point>)

  /** The three repository queries, each given the bank filter. */
  datatype Queries = Queries(flows: (Day, Day, Option<seq<string>>) -> seq<Flow>,
                             categories: (Day, Day, Option<seq<string>>) -> seq<CatRow>,
                             banks: (Day, Day, Option<seq<string>>) -> seq<BankRow>)

  /** An empty bank filter means no filter. */
  function NormalizeFilter(filter: Option<seq<string>>): (r: Option<seq<string>>)
    ensures r.Some? ==> |r.value| > 0 && r == filter
    ensures filter.Some? && |filter.value| > 0 ==> r == filter
  {
    if filter.Some? && |filter.value| == 0 then None else filter
  }

  /** `date.minusYears(1)`: the same day a year earlier, clamped to the length of the month. */
  function YearEarlier(d: Day): Day {
    var c := CivilFromDays(d);
    DaysFromCivil(Civil(c.year - 1, c.month, Min(c.day, LengthOfMonth(c.year - 1, c.month))))
  }

  /** `Collectors.toMap(ym, p -> p)`: a repeated month throws. */
  function FlowIndex(flows: seq<Flow>): Result<map<YearMonth, Flow>, Failure> {
    if flows == [] then Ok(map[])
    else
      var last := flows[|flows| - 1];
      match FlowIndex(flows[..|flows| - 1])
      case Err(e) => Err(e)
      case Ok(m) => if last.ym in m then Err(DuplicateKey(last.ym)) else Ok(m[last.ym := last])
  }

  /** The index holds each row under its month when no month repeats. */
  lemma {:induction false} FlowIndexSpec(flows: seq<Flow>)
    ensures FlowIndex(flows).Ok? <==> forall i, j :: 0 <= i < j < |flows| ==> flows[i].ym != flows[j].ym
    ensures FlowIndex(flows).Ok? ==> forall i :: 0 <= i < |flows| ==>
      flows[i].ym in FlowIndex(flows).value && FlowIndex(flows).value[flows[i].ym] == flows[i]
  {
    if flows != [] {
      var init := flows[..|flows| - 1];
      FlowIndexSpec(init);
      assert forall i :: 0 <= i < |init| ==> init[i] == flows[i];
      if FlowIndex(init).Ok? && flows[|flows| - 1].ym in FlowIndex(init).value {
        var m := FlowIndex(init).value;
        assert exists i :: 0 <= i < |init| && init[i].ym == flows[|flows| - 1].ym by {
          FlowIndexMonths(init);
        }
      }
    }
  }

  lemma {:induction false} FlowIndexMonths(flows: seq<Flow>)
    requires FlowIndex(flows).Ok?
    ensures forall ym :: ym in FlowIndex(flows).value ==> exists i :: 0 <= i < |flows| && flows[i].ym == ym
  {
    if flows != [] {
      var init := flows[..|flows| - 1];
      FlowIndexMonths(init);
      forall ym | ym in FlowIndex(flows).value ensures exists i :: 0 <= i < |flows| && flows[i].ym == ym {
        if ym != flows[|flows| - 1].ym {
          var i :| 0 <= i < |init| && init[i].ym == ym;
          assert flows[i].ym == ym;
        }
      }
    }
  }

  /** `groupingBy(ym)`: the category rows of one month, in query order. */
  function CatsFor(cats: seq<CatRow>, ym: YearMonth): (r: seq<CatRow>)
    ensures forall i :: 0 <= i < |r| ==> r[i].ym == ym && r[i] in cats
  {
    if cats == [] then []
    else CatsFor(cats[..|cats| - 1], ym) + (if cats[|cats| - 1].ym == ym then [cats[|cats| - 1]] else [])
  }

  /** `computeIfAbsent(ym, ..).add(p)`: the bank rows of one month, in query order. */
  function BanksFor(banks: seq<BankRow>, ym: YearMonth): (r: seq<BankRow>)
    ensures forall i :: 0 <= i < |r| ==> r[i].ym == ym && r[i] in banks
  {
    if banks == [] then []
    else BanksFor(banks[..|banks| - 1], ym) + (if banks[|banks| - 1].ym == ym then [banks[|banks| - 1]] else [])
  }

  /** `bankGrouped`: each month's bank rows, built one row at a time. */
  function BankIndex(banks: seq<BankRow>): map<YearMonth, seq<BankRow>> {
    if banks == [] then map[]
    else
      var m := BankIndex(banks[..|banks| - 1]);
      var p := banks[|banks| - 1];
      m[p.ym := (if p.ym in m then m[p.ym] else []) + [p]]
  }

  /** The grouped rows of a month are that month's rows in query order; a month without rows has none. */
  lemma {:induction false} BankIndexSpec(banks: seq<BankRow>, ym: YearMonth)
    ensures (if ym in BankIndex(banks) then BankIndex(banks)[ym] else []) == BanksFor(banks, ym)
  {
    if banks != [] {
      BankIndexSpec(banks[..|banks| - 1], ym);
    }
  }

  /** `prevYearMap.put(ym, outflow)` for each row: a later row for the same month wins. */
  function PrevIndex(prev: seq<Flow>): (r: map<YearMonth, real>)
    ensures forall i :: 0 <= i < |prev| ==> prev[i].ym in r
  {
    if prev == [] then map[]
    else PrevIndex(prev[..|prev| - 1])[prev[|prev| - 1].ym := prev[|prev| - 1].outflow]
  }

  /** The previous-year outflow of a month is that of the last row for the month twelve months earlier. */
  lemma {:induction false} PrevIndexLast(prev: seq<Flow>, k: nat)
    requires k < |prev| && forall j :: k < j < |prev| ==> prev[j].ym != prev[k].ym
    ensures PrevIndex(prev)[prev[k].ym] == prev[k].outflow
  {
    if k < |prev| - 1 {
      var init := prev[..|prev| - 1];
      assert forall j :: k < j < |init| ==> init[j] == prev[j];
      PrevIndexLast(init, k);
    }
  }

  // ------------------------------------------------------- top categories

  predicate DescendingOutflow(s: seq<CatRow>) {
    forall i, j :: 0 <= i < j < |s| ==> s[i].outflow >= s[j].outflow
  }

  /** Inserts `x` before the first row with an outflow not above its own. */
  function InsertDesc(x: CatRow, s: seq<CatRow>): seq<CatRow> {
    if s == [] then [x]
    else if x.outflow >= s[0].outflow then [x] + s
    else [s[0]] + InsertDesc(x, s[1..])
  }

  /** `sorted((a, b) -> b.outflow.compareTo(a.outflow))`: descending by outflow, ties in query order. */
  function SortDesc(s: seq<CatRow>): seq<CatRow> {
    if s == [] then [] else InsertDesc(s[0], SortDesc(s[1..]))
  }

  /** Inserting adds exactly the one row, and the result starts with it or with the old first row. */
  lemma {:induction false} InsertDescPerm(x: CatRow, s: seq<CatRow>)
    ensures var r := InsertDesc(x, s);
      multiset(r) == multiset(s) + multiset{x} && |r| == |s| + 1
      && (r[0] == x || (s != [] && r[0] == s[0]))
  {
    if s != [] && x.outflow < s[0].outflow {
      InsertDescPerm(x, s[1..]);
      assert InsertDesc(x, s) == [s[0]] + InsertDesc(x, s[1..]);
      HeadTail(s);
    }
  }

  /** Inserting into a descending sequence keeps it descending. */
  lemma {:induction false} InsertDescSorted(x: CatRow, s: seq<CatRow>)
    requires DescendingOutflow(s)
    ensures DescendingOutflow(InsertDesc(x, s))
  {
    if s == [] {
    } else if x.outflow >= s[0].outflow {
      ConsDescending(x, s);
    } else {
      var t := s[1..];
      assert DescendingOutflow(t) by {
        forall i, j | 0 <= i < j < |t| ensures t[i].outflow >= t[j].outflow {
          assert t[i] == s[i + 1] && t[j] == s[j + 1];
        }
      }
      InsertDescSorted(x, t);
      InsertDescPerm(x, t);
      var r1 := InsertDesc(x, t);
      assert s[0].outflow >= r1[0].outflow;
      ConsDescending(s[0], r1);
      assert InsertDesc(x, s) == [s[0]] + r1;
    }
  }

  /** A row no smaller than the head of a descending sequence can go in front of it. */
  lemma ConsDescending(x: CatRow, s: seq<CatRow>)
    requires DescendingOutflow(s) && (s != [] ==> x.outflow >= s[0].outflow)
    ensures DescendingOutflow([x] + s)
  {
    var r := [x] + s;
    forall i, j | 0 <= i < j < |r| ensures r[i].outflow >= r[j].outflow {
      if i == 0 {
        assert r[j] == s[j - 1];
        if j > 1 {
          assert s[0].outflow >= s[j - 1].outflow;
        }
      } else {
        assert r[i] == s[i - 1] && r[j] == s[j - 1];
      }
    }
  }

  lemma HeadTail(s: seq<CatRow>)
    requires s != []
    ensures multiset(s) == multiset{s[0]} + multiset(s[1..])
  {
    assert s == [s[0]] + s[1..];
  }

  /** The sort gives a permutation of the rows. */
  lemma {:induction false} SortDescPerm(s: seq<CatRow>)
    ensures multiset(SortDesc(s)) == multiset(s) && |SortDesc(s)| == |s|
  {
    if s != [] {
      var t := SortDesc(s[1..]);
      SortDescPerm(s[1..]);
      InsertDescPerm(s[0], t);
      HeadTail(s);
    }
  }

  /** The sort gives a sequence descending by outflow. */
  lemma {:induction false} SortDescSorted(s: seq<CatRow>)
    ensures DescendingOutflow(SortDesc(s))
  {
    if s != [] {
      SortDescSorted(s[1..]);
      InsertDescSorted(s[0], SortDesc(s[1..]));
    }
  }

  /** A positive `topCategories`, else five. */
  function CategoryLimit(top: int): (k: nat)
    ensures k >= 1 && (top > 0 ==> k == top)
  {
    if top > 0 then top else 5
  }

  function Amounts(rows: seq<CatRow>): seq<CategoryAmount> {
    seq(|rows|, i requires 0 <= i < |rows| => CategoryAmount(rows[i].category, rows[i].outflow, 0.0))
  }

  /** The largest categories of a month: `limit(k)` of the sorted rows. */
  function TopCategories(rows: seq<CatRow>, top: int): seq<CategoryAmount> {
    var sorted := SortDesc(rows);
    Amounts(sorted[..Min(CategoryLimit(top), |sorted|)])
  }

  /**
   * At most `topCategories` (default five) categories are kept, as many as
   * the month has when it has fewer, and every kept one spends at least as
   * much as every dropped one.
   */
  lemma TopCategoriesAreLargest(rows: seq<CatRow>, top: int)
    ensures var t := TopCategories(rows, top);
      |t| == Min(CategoryLimit(top), |rows|)
      && (forall i :: 0 <= i < |t| - 1 ==> t[i].outflow >= t[i + 1].outflow)
      && (forall i, k :: 0 <= i < |t| && |t| <= k < |SortDesc(rows)| ==> t[i].outflow >= SortDesc(rows)[k].outflow)
      && multiset(SortDesc(rows)) == multiset(rows)
  {
    SortDescPerm(rows);
    SortDescSorted(rows);
  }

  function BankAmounts(rows: seq<BankRow>): seq<BankAmount> {
    seq(|rows|, i requires 0 <= i < |rows| => BankAmount(rows[i].bankName, rows[i].outflow))
  }

  // ------------------------------------------------------------ each month

  /** `(cur - base) * 100 / base`, to two places half up; none for a zero or missing base. */
  function ChangePct(cur: real, base: Option<real>): (r: Option<real>)
    ensures r.Some? <==> base.Some? && base.value != 0.0
  {
    if base.Some? && base.value != 0.0 then Some(RoundHalfUp((cur - base.value) * 100.0 / base.value, 2)) else None
  }

  /** What the indexes give the loop for one month. */
  datatype Context = Context(flowIndex: map<YearMonth, Flow>, cats: seq<CatRow>, includeBanks: bool,
                             bankIndex: map<YearMonth, seq<BankRow>>, prev: Option<map<YearMonth, real>>, top: int)

  function PrevOutflow(ctx: Context, ym: YearMonth): Option<real> {
    if ctx.prev.Some? && ym - 12 in ctx.prev.value then Some(ctx.prev.value[ym - 12]) else None
  }

  /** The point of one month: zeros for a month without flows. */
  function PointOf(ctx: Context, ym: YearMonth): Point {
    var inflow := if ym in ctx.flowIndex then ctx.flowIndex[ym].inflow else 0.0;
    var outflow := if ym in ctx.flowIndex then ctx.flowIndex[ym].outflow else 0.0;
    var prevOut := PrevOutflow(ctx, ym);
    Point(ym, outflow, inflow, inflow - outflow, TopCategories(CatsFor(ctx.cats, ym), ctx.top),
          if ctx.includeBanks && ym in ctx.bankIndex then BankAmounts(ctx.bankIndex[ym]) else [],
          prevOut, ChangePct(outflow, prevOut))
  }

  // --------------------------------------------------------------- summary

  /** `outflow.compareTo(highest) > 0`: only a strictly larger outflow replaces the highest. */
  function Higher(h: Option<Stat>, p: Point): Option<Stat> {
    if h.None? || p.outflow > h.value.amount then Some(Stat(p.month, p.outflow)) else h
  }

  function Lower(l: Option<Stat>, p: Point): Option<Stat> {
    if l.None? || p.outflow < l.value.amount then Some(Stat(p.month, p.outflow)) else l
  }

  function HighestOf(ps: seq<Point>): Option<Stat> {
    if ps == [] then None else Higher(HighestOf(ps[..|ps| - 1]), ps[|ps| - 1])
  }

  function LowestOf(ps: seq<Point>): Option<Stat> {
    if ps == [] then None else Lower(LowestOf(ps[..|ps| - 1]), ps[|ps| - 1])
  }

  function OutflowSum(ps: seq<Point>): real {
    if ps == [] then 0.0 else OutflowSum(ps[..|ps| - 1]) + ps[|ps| - 1].outflow
  }

  /** The index of the first month with the largest outflow. */
  function FirstMax(ps: seq<Point>): (k: nat)
    requires ps != []
    ensures k < |ps|
  {
    if |ps| == 1 then 0
    else
      var k := FirstMax(ps[..|ps| - 1]);
      if ps[|ps| - 1].outflow > ps[k].outflow then |ps| - 1 else k
  }

  /** The index of the first month with the smallest outflow. */
  function FirstMin(ps: seq<Point>): (k: nat)
    requires ps != []
    ensures k < |ps|
  {
    if |ps| == 1 then 0
    else
      var k := FirstMin(ps[..|ps| - 1]);
      if ps[|ps| - 1].outflow < ps[k].outflow then |ps| - 1 else k
  }

  /** The highest month is the first month whose outflow is the maximum. */
  lemma {:induction false} HighestIsFirstMax(ps: seq<Point>)
    ensures HighestOf(ps).None? <==> ps == []
    ensures ps != [] ==>
      var k := FirstMax(ps);
      HighestOf(ps) == Some(Stat(ps[k].month, ps[k].outflow))
      && (forall j :: 0 <= j < |ps| ==> ps[j].outflow <= ps[k].outflow)
      && (forall j :: 0 <= j < k ==> ps[j].outflow < ps[k].outflow)
  {
    if |ps| > 1 {
      var init := ps[..|ps| - 1];
      HighestIsFirstMax(init);
      assert forall j :: 0 <= j < |init| ==> init[j] == ps[j];
    }
  }

  /** The lowest month is the first month whose outflow is the minimum. */
  lemma {:induction false} LowestIsFirstMin(ps: seq<Point>)
    ensures LowestOf(ps).None? <==> ps == []
    ensures ps != [] ==>
      var k := FirstMin(ps);
      LowestOf(ps) == Some(Stat(ps[k].month, ps[k].outflow))
      && (forall j :: 0 <= j < |ps| ==> ps[j].outflow >= ps[k].outflow)
      && (forall j :: 0 <= j < k ==> ps[j].outflow > ps[k].outflow)
  {
    if |ps| > 1 {
      var init := ps[..|ps| - 1];
      LowestIsFirstMin(init);
      assert forall j :: 0 <= j < |init| ==> init[j] == ps[j];
    }
  }

  /** The change from the second-to-last month to the last one; none with fewer than two months. */
  function MomChange(ps: seq<Point>): Option<real> {
    if |ps| >= 2 then ChangePct(ps[|ps| - 1].outflow, Some(ps[|ps| - 2].outflow)) else None
  }

  /** The mean outflow to two places half up; zero without months. */
  function SummaryOf(ps: seq<Point>): SeriesSummary {
    SeriesSummary(HighestOf(ps), LowestOf(ps),
                  if ps == [] then 0.0 else RoundHalfUp(OutflowSum(ps) / |ps| as real, 2),
                  MomChange(ps))
  }

  /** The indexes the loop reads: flows by month, category rows, bank rows by month, previous-year outflows. */
  function ContextOf(index: map<YearMonth, Flow>, cats: seq<CatRow>, includeBanks: bool, banks: seq<BankRow>,
                     prev: Option<seq<Flow>>, top: int): Context
  {
    Context(index, cats, includeBanks, BankIndex(banks), if prev.Some? then Some(PrevIndex(prev.value)) else None, top)
  }

  /** The points of the `n` months from `fromYm` on. */
  function Points(ctx: Context, fromYm: YearMonth, n: nat): (ps: seq<Point>)
    ensures |ps| == n
  {
    if n == 0 then [] else Points(ctx, fromYm, n - 1) + [PointOf(ctx, fromYm + n - 1)]
  }

  /** The i-th point is that of the i-th month. */
  lemma {:induction false} PointsIndex(ctx: Context, fromYm: YearMonth, n: nat)
    ensures forall i :: 0 <= i < n ==> Points(ctx, fromYm, n)[i] == PointOf(ctx, fromYm + i)
  {
    if n > 0 {
      PointsIndex(ctx, fromYm, n - 1);
    }
  }

  /** The whole response of `monthlySpendingSeries`. */
  function SeriesOf(fromYm: YearMonth, toYm: YearMonth, flows: seq<Flow>, cats: seq<CatRow>, includeBanks: bool,
                    banks: seq<BankRow>, prev: Option<seq<Flow>>, top: int): Result<Series, Failure>
  {
    if fromYm > toYm then Err(FromAfterTo)
    else match FlowIndex(flows)
      case Err(e) => Err(e)
      case Ok(index) =>
        var ps := Points(ContextOf(index, cats, includeBanks, banks, prev, top), fromYm, toYm - fromYm + 1);
        Ok(Series(fromYm, toYm, SummaryOf(ps), ps))
  }

  /**
   * A month's point: net = inflow - outflow, at most `topCategories`
   * categories, the month's bank rows when banks are included and none
   * otherwise, and a year-over-year change exactly when the previous year's
   * outflow is known and non-zero.
   */
  lemma PointShape(index: map<YearMonth, Flow>, cats: seq<CatRow>, includeBanks: bool, banks: seq<BankRow>,
                   prev: Option<seq<Flow>>, top: int, ym: YearMonth)
    ensures var p := PointOf(ContextOf(index, cats, includeBanks, banks, prev, top), ym);
      p.month == ym && p.net == p.inflow - p.outflow
      && (ym in index ==> p.inflow == index[ym].inflow && p.outflow == index[ym].outflow)
      && (ym !in index ==> p.inflow == 0.0 && p.outflow == 0.0)
      && |p.categories| <= CategoryLimit(top)
      && (p.yoyChange.Some? <==> p.prevYearOutflow.Some? && p.prevYearOutflow.value != 0.0)
      && (includeBanks ==> p.banks == BankAmounts(BanksFor(banks, ym)))
      && (!includeBanks ==> p.banks == [])
      && (prev.None? ==> p.prevYearOutflow.None?)
  {
    TopCategoriesAreLargest(CatsFor(cats, ym), top);
    BankIndexSpec(banks, ym);
  }

  /** From after to throws; otherwise the call throws only on a repeated month, and gives one point per month in order. */
  lemma SeriesShape(fromYm: YearMonth, toYm: YearMonth, flows: seq<Flow>, cats: seq<CatRow>, includeBanks: bool,
                    banks: seq<BankRow>, prev: Option<seq<Flow>>, top: int)
    ensures fromYm > toYm ==> SeriesOf(fromYm, toYm, flows, cats, includeBanks, banks, prev, top) == Err(FromAfterTo)
    ensures fromYm <= toYm ==>
      (SeriesOf(fromYm, toYm, flows, cats, includeBanks, banks, prev, top).Ok? <==>
         forall i, j :: 0 <= i < j < |flows| ==> flows[i].ym != flows[j].ym)
    ensures SeriesOf(fromYm, toYm, flows, cats, includeBanks, banks, prev, top).Ok? ==>
      SeriesOf(fromYm, toYm, flows, cats, includeBanks, banks, prev, top).value.monthly
        == Points(ContextOf(FlowIndex(flows).value, cats, includeBanks, banks, prev, top), fromYm, toYm - fromYm + 1)
  {
    FlowIndexSpec(flows);
  }

  /**
   * The month-over-month change is there exactly when there are at least two
   * months and the second-to-last spent something, and it is then the
   * rounded percentage change between the last two months.
   */
  lemma MomDefined(ps: seq<Point>)
    ensures SummaryOf(ps).momChangePct.Some? <==> |ps| >= 2 && ps[|ps| - 2].outflow != 0.0
    ensures SummaryOf(ps).momChangePct.Some? ==>
      SummaryOf(ps).momChangePct.value
        == RoundHalfUp((ps[|ps| - 1].outflow - ps[|ps| - 2].outflow) * 100.0 / ps[|ps| - 2].outflow, 2)
  {
  }

  /** With at least one month the summary names a highest and a lowest month, the highest spending no less. */
  lemma HighestAtLeastLowest(ps: seq<Point>)
    requires ps != []
    ensures SummaryOf(ps).highest.Some? && SummaryOf(ps).lowest.Some?
    ensures SummaryOf(ps).highest.value.amount >= SummaryOf(ps).lowest.value.amount
  {
    HighestIsFirstMax(ps);
    LowestIsFirstMin(ps);
  }

  // ---------------------------------------------------------------- method

  /** The bank rows grouped by month, as the loop over the bank query builds them. */
  method GroupBanks(banks: seq<BankRow>) returns (grouped: map<YearMonth, seq<BankRow>>)
    ensures grouped == BankIndex(banks)
  {
    grouped := map[];
    var i := 0;
    while i < |banks|
      invariant 0 <= i <= |banks| && grouped == BankIndex(banks[..i])
    {
      assert banks[..i + 1][..i] == banks[..i];
      var p := banks[i];
      var list := if p.ym in grouped then grouped[p.ym] else [];
      grouped := grouped[p.ym := list + [p]];
      i := i + 1;
    }
    assert banks[..|banks|] == banks;
  }

  /** Appending a month updates the highest, the lowest and the total by that month alone. */
  lemma SummaryStep(ps: seq<Point>, p: Point)
    ensures HighestOf(ps + [p]) == Higher(HighestOf(ps), p)
    ensures LowestOf(ps + [p]) == Lower(LowestOf(ps), p)
    ensures OutflowSum(ps + [p]) == OutflowSum(ps) + p.outflow
  {
    assert (ps + [p])[..|ps|] == ps;
  }

  /** The cursor loop: one point per month, tracking the highest, lowest and total outflow. */
  method Walk(ctx: Context, fromYm: YearMonth, toYm: YearMonth)
    returns (monthly: seq<Point>, highest: Option<Stat>, lowest: Option<Stat>, sum: real)
    requires fromYm <= toYm
    ensures monthly == Points(ctx, fromYm, toYm - fromYm + 1)
    ensures highest == HighestOf(monthly) && lowest == LowestOf(monthly) && sum == OutflowSum(monthly)
  {
    monthly := [];
    highest, lowest, sum := None, None, 0.0;
    var cursor := fromYm;
    while cursor <= toYm
      invariant fromYm <= cursor <= toYm + 1 && |monthly| == cursor - fromYm
      invariant monthly == Points(ctx, fromYm, cursor - fromYm)
      invariant highest == HighestOf(monthly) && lowest == LowestOf(monthly) && sum == OutflowSum(monthly)
    {
      var p := PointOf(ctx, cursor);
      SummaryStep(monthly, p);
      monthly := monthly + [p];
      if highest.None? || p.outflow > highest.value.amount {
        highest := Some(Stat(p.month, p.outflow));
      }
      if lowest.None? || p.outflow < lowest.value.amount {
        lowest := Some(Stat(p.month, p.outflow));
      }
      sum := sum + p.outflow;
      cursor := cursor + 1;
    }
  }

  /** The summary after the loop: the average and the month-over-month change. */
  method Summarize(monthly: seq<Point>, highest: Option<Stat>, lowest: Option<Stat>, sum: real)
    returns (summary: SeriesSummary)
    requires highest == HighestOf(monthly) && lowest == LowestOf(monthly) && sum == OutflowSum(monthly)
    ensures summary == SummaryOf(monthly)
  {
    var avg := if |monthly| == 0 then 0.0 else RoundHalfUp(sum / |monthly| as real, 2);
    var mom: Option<real> := None;
    if |monthly| >= 2 {
      var last := monthly[|monthly| - 1].outflow;
      var before := monthly[|monthly| - 2].outflow;
      if before != 0.0 {
        mom := Some(RoundHalfUp((last - before) * 100.0 / before, 2));
      }
    }
    summary := SeriesSummary(highest, lowest, avg, mom);
  }

  /** `monthlySpendingSeries(from, to, bankFilter, includeBanks, includePrevYear, topCategories)`. */
  method MonthlySpendingSeries(fromYm: YearMonth, toYm: YearMonth, bankFilter: Option<seq<string>>,
                               includeBanks: bool, includePrevYear: bool, top: int, q: Queries)
    returns (r: Result<Series, Failure>)
    ensures var start, end, filter := FirstDay(fromYm), LastDay(toYm), NormalizeFilter(bankFilter);
      r == SeriesOf(fromYm, toYm, q.flows(start, end, filter), q.categories(start, end, filter), includeBanks,
                    if includeBanks then q.banks(start, end, filter) else [],
                    if includePrevYear then Some(q.flows(YearEarlier(start), YearEarlier(end), filter)) else None, top)
  {
    if fromYm > toYm {
      return Err(FromAfterTo);
    }
    var start, end := FirstDay(fromYm), LastDay(toYm);
    var filter := NormalizeFilter(bankFilter);
    var flows := q.flows(start, end, filter);
    var cats := q.categories(start, end, filter);
    var banks := if includeBanks then q.banks(start, end, filter) else [];
    var flowIndex := FlowIndex(flows);
    if flowIndex.Err? {
      return Err(flowIndex.error);
    }
    var grouped := GroupBanks(banks);
    var prev: Option<seq<Flow>> := None;
    var prevIndex: Option<map<YearMonth, real>> := None;
    if includePrevYear {
      prev := Some(q.flows(YearEarlier(start), YearEarlier(end), filter));
      prevIndex := Some(PrevIndex(prev.value));
    }
    var ctx := Context(flowIndex.value, cats, includeBanks, grouped, prevIndex, top);
    assert ctx == ContextOf(flowIndex.value, cats, includeBanks, banks, prev, top);
    var monthly, highest, lowest, sum := Walk(ctx, fromYm, toYm);
    var summary := Summarize(monthly, highest, lowest, sum);
    r := Ok(Series(fromYm, toYm, summary, monthly));
  }
}
