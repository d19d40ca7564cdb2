/**
 * MonthlyTrendService: inflow, outflow and net for each month from the
 * request's start to its end (by default the last six months), stopping
 * early once a requested limit is reached.
 *
 * The repository query is an input; the current month is a parameter.
 */
module MonthlyTrends {
  import opened Wrappers
  import opened Numbers
  import opened Calendar
  import opened CashFlow
  import opened Trends

  /** A MonthlyTrendRequestDto: each field may be null. */
  datatype Request = Request(start: Option<Day>, end: Option<Day>, limit: Option<int>)

  /** A MonthValue. */
  datatype MonthValue = MonthValue(month: YearMonth, inflow: real, outflow: real, net: real)

  /** The first day of the month five months back. */
  function StartOf(req: Request, now: YearMonth): Day {
    if req.start.Some? then req.start.value else FirstDay(now - 5)
  }

  /** The last day of the current month. */
  function EndOf(req: Request, now: YearMonth): Day {
    if req.end.Some? then req.end.value else LastDay(now)
  }

  /** A month's value: zeros for a month without flows. */
  function ValueOf(index: map<YearMonth, Flow>, ym: YearMonth): MonthValue {
    var inflow := if ym in index then index[ym].inflow else 0.0;
    var outflow := if ym in index then index[ym].outflow else 0.0;
    MonthValue(ym, inflow, outflow, inflow - outflow)
  }

  /** The values of the `n` months from `fromYm` on. */
  function Values(index: map<YearMonth, Flow>, fromYm: YearMonth, n: nat): (r: seq<MonthValue>)
    ensures |r| == n
  {
    if n == 0 then [] else Values(index, fromYm, n - 1) + [ValueOf(index, fromYm + n - 1)]
  }

  /**
   * How many months the loop emits: every month from..to, or, with a limit,
   * as many as the limit allows; the counter is checked after the first
   * month, so a limit below one still lets one month through.
   */
  function MonthCount(fromYm: YearMonth, toYm: YearMonth, limit: Option<int>): nat {
    var n := if fromYm <= toYm then toYm - fromYm + 1 else 0;
    if limit.Some? then Min(n, Max(limit.value, 1)) else n
  }

  /** What `compute(req)` returns for the flows of its window. */
  function TrendOf(req: Request, now: YearMonth, flows: seq<Flow>): Result<seq<MonthValue>, Failure> {
    match FlowIndex(flows)
    case Err(e) => Err(e)
    case Ok(index) =>
      var fromYm, toYm := MonthOf(StartOf(req, now)), MonthOf(EndOf(req, now));
      Ok(Values(index, fromYm, MonthCount(fromYm, toYm, req.limit)))
  }

  /** The i-th value is that of the i-th month, with net = inflow - outflow. */
  lemma {:induction false} ValuesIndex(index: map<YearMonth, Flow>, fromYm: YearMonth, n: nat)
    ensures forall i :: 0 <= i < n ==>
      Values(index, fromYm, n)[i].month == fromYm + i
      && Values(index, fromYm, n)[i].net == Values(index, fromYm, n)[i].inflow - Values(index, fromYm, n)[i].outflow
      && (fromYm + i in index ==> Values(index, fromYm, n)[i].inflow == index[fromYm + i].inflow
                                  && Values(index, fromYm, n)[i].outflow == index[fromYm + i].outflow)
      && (fromYm + i !in index ==> Values(index, fromYm, n)[i].inflow == 0.0 && Values(index, fromYm, n)[i].outflow == 0.0)
  {
    if n > 0 {
      ValuesIndex(index, fromYm, n - 1);
    }
  }

  /**
   * Without a limit there is one value per month from start to end (none
   * when the start is after the end); with a positive limit there are at
   * most that many, and exactly that many when the range is long enough.
   */
  lemma LimitBounds(req: Request, now: YearMonth, flows: seq<Flow>)
    requires TrendOf(req, now, flows).Ok?
    ensures var fromYm, toYm := MonthOf(StartOf(req, now)), MonthOf(EndOf(req, now));
      var r := TrendOf(req, now, flows).value;
      (req.limit.None? ==> |r| == (if fromYm <= toYm then toYm - fromYm + 1 else 0))
      && (req.limit.Some? && req.limit.value >= 1 ==> |r| <= req.limit.value)
      && (req.limit.Some? && req.limit.value >= 1 && toYm - fromYm + 1 >= req.limit.value ==> |r| == req.limit.value)
      && (req.limit.Some? && req.limit.value < 1 && fromYm <= toYm ==> |r| == 1)
  {
  }

  /** A repeated month in the flows makes the call throw; otherwise it succeeds. */
  lemma TrendThrows(req: Request, now: YearMonth, flows: seq<Flow>)
    ensures TrendOf(req, now, flows).Ok? <==> forall i, j :: 0 <= i < j < |flows| ==> flows[i].ym != flows[j].ym
  {
    FlowIndexSpec(flows);
  }

  /** The month walk: from the start month, one value per month, until the end month or the limit. */
  method Walk(index: map<YearMonth, Flow>, start: YearMonth, toYm: YearMonth, limit: Option<int>)
    returns (mv: seq<MonthValue>)
    ensures mv == Values(index, start, MonthCount(start, toYm, limit))
  {
    mv := [];
    var fromYm := start;
    var max := 0;
    while fromYm <= toYm
      invariant start <= fromYm && fromYm - start == |mv| == max
      invariant fromYm <= toYm + 1 || fromYm == start
      invariant limit.Some? && max > 0 ==> max < limit.value
      invariant mv == Values(index, start, |mv|)
      decreases toYm - fromYm
    {
      mv := mv + [ValueOf(index, fromYm)];
      fromYm := fromYm + 1;
      max := max + 1;
      if limit.Some? && max >= limit.value {
        break;
      }
    }
  }

  /** `compute(req)` over the flows the query returns for the request's window. */
  method Compute(req: Request, now: YearMonth, aggregateFlows: (Day, Day) -> seq<Flow>)
    returns (r: Result<seq<MonthValue>, Failure>)
    ensures r == TrendOf(req, now, aggregateFlows(StartOf(req, now), EndOf(req, now)))
  {
    var start := if req.start.Some? then req.start.value else FirstDay(now - 5);
    var end := if req.end.Some? then req.end.value else LastDay(now);
    var flows := aggregateFlows(start, end);
    var index := FlowIndex(flows);
    if index.Err? {
      return Err(index.error);
    }
    var mv := Walk(index.value, MonthOf(start), MonthOf(end), req.limit);
    r := Ok(mv);
  }
}
