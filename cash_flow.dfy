/**
 * CashFlowForecastService: the mean monthly inflow and outflow over the same
 * history window the net forecast uses, repeated for each future month.
 *
 * The repository query `aggregateMonthlyFlows(start, end)` is an input;
 * the current month is a parameter and `scale` is the scale of the summed
 * flows, which BigDecimal's `divide(n, HALF_UP)` keeps.
 */
module CashFlow {
  import opened Numbers
  import opened Text
  import opened Calendar
  import opened Decimal
  import opened Seqs
  import opened Forecasts

  /** One monthly aggregate: money in and money out (as an absolute value). */
  datatype Flow = Flow(ym: YearMonth, inflow: real, outflow: real)

  /** A MonthCashFlow: the net is inflow minus outflow. */
  datatype MonthFlow = MonthFlow(month: YearMonth, inflow: real, outflow: real, net: real)

  datatype CashFlowDto = CashFlowDto(months: seq<MonthFlow>, methodName: string, currency: string, assumption: string)

  function Inflows(flows: seq<Flow>): (r: seq<real>)
    ensures |r| == |flows| && forall i :: 0 <= i < |flows| ==> r[i] == flows[i].inflow
  {
    if flows == [] then [] else Inflows(flows[..|flows| - 1]) + [flows[|flows| - 1].inflow]
  }

  function Outflows(flows: seq<Flow>): (r: seq<real>)
    ensures |r| == |flows| && forall i :: 0 <= i < |flows| ==> r[i] == flows[i].outflow
  {
    if flows == [] then [] else Outflows(flows[..|flows| - 1]) + [flows[|flows| - 1].outflow]
  }

  /** The note on the method: how many history months were averaged. */
  function Assumption(count: nat): string {
    "Based on average of last " + IntToString(count) + " months"
  }

  /** `new MonthCashFlow(ym.toString(), in, out)`. */
  function MonthOfFlows(ym: YearMonth, avgIn: real, avgOut: real): MonthFlow {
    MonthFlow(ym, avgIn, avgOut, avgIn - avgOut)
  }

  /** The forecast from the history flows: months now+1 .. now+f, each carrying both averages. */
  function CashFlowOf(now: YearMonth, f: nat, flows: seq<Flow>, currency: string, scale: nat): CashFlowDto {
    var avgIn := Average(Inflows(flows), scale);
    var avgOut := Average(Outflows(flows), scale);
    CashFlowDto(seq(f, i requires 0 <= i < f => MonthOfFlows(now + i + 1, avgIn, avgOut)),
                SimpleAverage, currency, Assumption(|flows|))
  }

  /**
   * Every forecast month is the same pair of averages, in consecutive months
   * from next month on, with the net their difference.
   */
  lemma MonthsAreAverages(now: YearMonth, f: nat, flows: seq<Flow>, currency: string, scale: nat)
    ensures var d := CashFlowOf(now, f, flows, currency, scale);
      |d.months| == f
      && forall i :: 0 <= i < f ==>
        d.months[i].month == now + i + 1
        && d.months[i].inflow == Average(Inflows(flows), scale)
        && d.months[i].outflow == Average(Outflows(flows), scale)
        && d.months[i].net == d.months[i].inflow - d.months[i].outflow
  {
    var d := CashFlowOf(now, f, flows, currency, scale);
    forall i | 0 <= i < f
      ensures d.months[i] == MonthOfFlows(now + i + 1, Average(Inflows(flows), scale), Average(Outflows(flows), scale))
    {
    }
  }

  /** Without history both averages are zero, and so is every net. */
  lemma NoHistoryIsZero(now: YearMonth, f: nat, currency: string, scale: nat)
    ensures var d := CashFlowOf(now, f, [], currency, scale);
      forall i :: 0 <= i < f ==> d.months[i] == MonthFlow(now + i + 1, 0.0, 0.0, 0.0)
  {
    MonthsAreAverages(now, f, [], currency, scale);
  }

  /** A history with the same inflow and outflow every month forecasts those amounts, rounded to the scale. */
  lemma SteadyHistory(now: YearMonth, f: nat, flows: seq<Flow>, currency: string, scale: nat, cin: real, cout: real)
    requires |flows| > 0
    requires forall i :: 0 <= i < |flows| ==> flows[i].inflow == cin && flows[i].outflow == cout
    ensures var d := CashFlowOf(now, f, flows, currency, scale);
      forall i :: 0 <= i < f ==>
        d.months[i].inflow == RoundHalfUp(cin, scale) && d.months[i].outflow == RoundHalfUp(cout, scale)
  {
    AverageOfConstant(Inflows(flows), cin, scale);
    AverageOfConstant(Outflows(flows), cout, scale);
    MonthsAreAverages(now, f, flows, currency, scale);
  }

  /** The assumption note names the number of history months, and different counts give different notes. */
  lemma AssumptionNamesCount(a: nat, b: nat)
    ensures Assumption(a) == Assumption(b) <==> a == b
  {
    var p := "Based on average of last ";
    if Assumption(a) == Assumption(b) {
      var ta, tb := IntToString(a), IntToString(b);
      var sfx := " months";
      assert Assumption(a) == p + (ta + sfx);
      assert Assumption(b) == p + (tb + sfx);
      assert ta + sfx == Assumption(a)[|p|..];
      assert tb + sfx == Assumption(b)[|p|..];
      assert |ta| == |tb|;
      assert ta == (ta + sfx)[..|ta|];
      assert tb == (tb + sfx)[..|tb|];
      IntToStringInjective(a, b);
    }
  }

  /** Sums a column of the history, left to right. */
  method SumColumn(xs: seq<real>) returns (sum: real)
    ensures sum == SumReal(xs)
  {
    sum := 0.0;
    var i := 0;
    while i < |xs|
      invariant 0 <= i <= |xs| && sum == SumReal(xs[..i])
    {
      SumRealAppend(xs[..i], [xs[i]]);
      assert xs[..i + 1] == xs[..i] + [xs[i]];
      sum := sum + xs[i];
      i := i + 1;
    }
    assert xs[..|xs|] == xs;
  }

  /** `forecast(futureMonths)` over the flows the query returns for the history window. */
  method Forecast(futureMonths: int, now: YearMonth, currency: string,
                  aggregateFlows: (Day, Day) -> seq<Flow>, scale: nat)
    returns (dto: CashFlowDto)
    ensures var f := FutureMonths(futureMonths);
      dto == CashFlowOf(now, f, aggregateFlows(HistoryStart(now, f), HistoryEnd(now)), currency, scale)
  {
    var f := FutureMonths(futureMonths);
    var flows := aggregateFlows(HistoryStart(now, f), HistoryEnd(now));
    var avgIn := SumColumn(Inflows(flows));
    var avgOut := SumColumn(Outflows(flows));
    var count := |flows|;
    if count > 0 {
      avgIn := RoundHalfUp(avgIn / count as real, scale);
      avgOut := RoundHalfUp(avgOut / count as real, scale);
    }
    var months: seq<MonthFlow> := [];
    var i := 1;
    while i <= f
      invariant 1 <= i <= f + 1
      invariant |months| == i - 1
      invariant forall k :: 0 <= k < i - 1 ==> months[k] == MonthOfFlows(now + k + 1, avgIn, avgOut)
    {
      months := months + [MonthOfFlows(now + i, avgIn, avgOut)];
      i := i + 1;
    }
    dto := CashFlowDto(months, SimpleAverage, currency, Assumption(count));
  }
}
