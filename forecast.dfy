/**
 * ForecastService and ForecastCache: a simple-average forecast of the monthly
 * net, adjusted by upcoming transactions, cached per user and horizon for one
 * minute.
 *
 * The two repository queries are inputs: `aggregate(start, end)` gives the
 * monthly nets between two days, `dueBetween(start, end)` the upcoming items
 * due between two days. The current month and the clock (milliseconds) are
 * parameters. `scale` is the scale of the summed nets, which BigDecimal's
 * `divide(n, HALF_UP)` keeps.
 */
module Forecasts {
  import opened Wrappers
  import opened Numbers
  import opened Text
  import opened Calendar
  import opened Decimal
  import opened Seqs

  /** One minute, in milliseconds. */
  const TtlMs := 60000
  const SimpleAverage := "SIMPLE_AVERAGE"

  /** A MonthlyNetProjection row. */
  datatype NetRow = NetRow(ym: YearMonth, net: Option<real>)

  /** An UpcomingTransaction. */
  datatype Upcoming = Upcoming(due: Day, amount: Option<real>, recurring: Option<bool>)

  /** A MonthProjection. */
  datatype MonthNet = MonthNet(month: YearMonth, net: real)

  datatype Summary = Summary(averageNet: real, lastMonthNet: real, projectedNextMonth: real,
                             projectedPeriodTotal: real, historyMonths: nat, futureMonths: int)

  /** A ForecastDto. */
  datatype ForecastDto = ForecastDto(actuals: seq<MonthNet>, projections: seq<MonthNet>, methodName: string, summary: Summary)

  /** A non-positive horizon means three months. */
  function FutureMonths(n: int): (f: int)
    ensures f >= 1 && (n > 0 ==> f == n)
  {
    if n <= 0 then 3 else n
  }

  /** Twice the horizon, and never less than six months. */
  function HistoryMonths(f: int): (h: int)
    ensures h >= 6 && h >= 2 * f
  {
    Max(2 * f, 6)
  }

  /** The days of the history query: from the first day `h - 1` months back to the end of this month. */
  function HistoryStart(now: YearMonth, f: int): Day { FirstDay(now - (HistoryMonths(f) - 1)) }
  function HistoryEnd(now: YearMonth): Day { LastDay(now) }

  /** The days of the upcoming query: from the day after this month to the end of month `now + f`. */
  function UpcomingStart(now: YearMonth): Day { LastDay(now) + 1 }
  function UpcomingEnd(now: YearMonth, f: int): Day { LastDay(now + f) }

  // --------------------------------------------------------------- actuals

  /** The sort key of the history rows. */
  function MonthKey(r: NetRow): int {
    r.ym
  }

  /** A null net counts as zero. */
  function NetOf(r: NetRow): real {
    r.net.GetOr(0.0)
  }

  function Nets(rows: seq<NetRow>): (r: seq<real>)
    ensures |r| == |rows|
    ensures forall i :: 0 <= i < |rows| ==> r[i] == NetOf(rows[i])
  {
    if rows == [] then [] else Nets(rows[..|rows| - 1]) + [NetOf(rows[|rows| - 1])]
  }

  function Actuals(rows: seq<NetRow>): (r: seq<MonthNet>)
    ensures |r| == |rows|
    ensures forall i :: 0 <= i < |rows| ==> r[i] == MonthNet(rows[i].ym, NetOf(rows[i]))
  {
    if rows == [] then [] else Actuals(rows[..|rows| - 1]) + [MonthNet(rows[|rows| - 1].ym, NetOf(rows[|rows| - 1]))]
  }

  /** The mean net, rounded half up to `scale` places; zero without history. */
  function Average(nets: seq<real>, scale: nat): real {
    if nets == [] then 0.0 else RoundHalfUp(SumReal(nets) / |nets| as real, scale)
  }

  lemma {:induction false} SumConstant(nets: seq<real>, c: real)
    requires forall i :: 0 <= i < |nets| ==> nets[i] == c
    ensures SumReal(nets) == |nets| as real * c
  {
    if nets != [] {
      assert forall i :: 0 <= i < |nets| - 1 ==> nets[1..][i] == nets[i + 1];
      SumConstant(nets[1..], c);
    }
  }

  /** A history with the same net every month averages to that net, rounded. */
  lemma AverageOfConstant(nets: seq<real>, c: real, scale: nat)
    requires |nets| > 0
    requires forall i :: 0 <= i < |nets| ==> nets[i] == c
    ensures Average(nets, scale) == RoundHalfUp(c, scale)
  {
    SumConstant(nets, c);
    assert SumReal(nets) / |nets| as real == c;
  }

  // -------------------------------------------------------------- upcoming

  /** Only `Boolean.TRUE` counts as recurring; null does not. */
  predicate Recurring(u: Upcoming) {
    u.recurring == Some(true)
  }

  /**
   * What one upcoming item adds to month `ym`: a recurring one its amount in
   * every month from its due month through `last`, any other one only in its
   * due month.
   */
  function Contribution(u: Upcoming, ym: YearMonth, last: YearMonth): real {
    var m := MonthOf(u.due);
    var amt := u.amount.GetOr(0.0);
    if Recurring(u) then (if m <= ym <= last then amt else 0.0)
    else if m == ym then amt else 0.0
  }

  /** The total adjustment for month `ym`. */
  function Adjustment(items: seq<Upcoming>, ym: YearMonth, last: YearMonth): real {
    if items == [] then 0.0
    else Adjustment(items[..|items| - 1], ym, last) + Contribution(items[|items| - 1], ym, last)
  }

  /** `getOrDefault(ym, ZERO)`. */
  function Get(m: map<YearMonth, real>, ym: YearMonth): real {
    if ym in m then m[ym] else 0.0
  }

  /** `merge(ym, amt, BigDecimal::add)`. */
  function Merge(m: map<YearMonth, real>, ym: YearMonth, amt: real): (r: map<YearMonth, real>)
    ensures forall k :: Get(r, k) == Get(m, k) + (if k == ym then amt else 0.0)
  {
    m[ym := if ym in m then m[ym] + amt else amt]
  }

  /** A one-off item changes only the projection of its own month. */
  lemma OneOffOnlyOwnMonth(items: seq<Upcoming>, u: Upcoming, ym: YearMonth, last: YearMonth)
    requires !Recurring(u)
    ensures Adjustment(items + [u], ym, last) ==
      Adjustment(items, ym, last) + (if MonthOf(u.due) == ym then u.amount.GetOr(0.0) else 0.0)
  {
    assert (items + [u])[..|items|] == items;
  }

  /** A recurring item adds its amount to every month from its due month to the end of the window, and to no other. */
  lemma RecurringEveryMonth(items: seq<Upcoming>, u: Upcoming, ym: YearMonth, last: YearMonth)
    requires Recurring(u)
    ensures Adjustment(items + [u], ym, last) ==
      Adjustment(items, ym, last) + (if MonthOf(u.due) <= ym <= last then u.amount.GetOr(0.0) else 0.0)
  {
    assert (items + [u])[..|items|] == items;
  }

  // ----------------------------------------------------------- projections

  /** Month `now + i` for i = 1..f: the average plus that month's upcoming total. */
  function Projections(avg: real, now: YearMonth, f: nat, items: seq<Upcoming>): (r: seq<MonthNet>)
    ensures |r| == f
  {
    seq(f, i requires 0 <= i < f => MonthNet(now + i + 1, avg + Adjustment(items, now + i + 1, now + f)))
  }

  function NetTotal(ps: seq<MonthNet>): real {
    if ps == [] then 0.0 else NetTotal(ps[..|ps| - 1]) + ps[|ps| - 1].net
  }

  /** The forecast from the history rows and the upcoming items. */
  function ForecastOf(now: YearMonth, f: nat, rows: seq<NetRow>, items: seq<Upcoming>, scale: nat): ForecastDto {
    ForecastFrom(now, f, SortBy(rows, MonthKey), items, scale)
  }

  /** The forecast from the history rows in month order. */
  function ForecastFrom(now: YearMonth, f: nat, sorted: seq<NetRow>, items: seq<Upcoming>, scale: nat): ForecastDto {
    var nets := Nets(sorted);
    var avg := Average(nets, scale);
    var ps := Projections(avg, now, f, items);
    ForecastDto(Actuals(sorted), ps, SimpleAverage,
                Summary(avg, if nets == [] then 0.0 else nets[|nets| - 1], if ps == [] then 0.0 else ps[0].net,
                        NetTotal(ps), |nets|, f))
  }

  lemma {:induction false} NetTotalFlat(ps: seq<MonthNet>, avg: real)
    requires forall i :: 0 <= i < |ps| ==> ps[i].net == avg
    ensures NetTotal(ps) == |ps| as real * avg
  {
    if ps != [] {
      assert forall i :: 0 <= i < |ps| - 1 ==> ps[..|ps| - 1][i] == ps[i];
      NetTotalFlat(ps[..|ps| - 1], avg);
    }
  }

  /**
   * Without upcoming items every projection is the average, the next month is
   * the average and the period total is `f` times it.
   */
  lemma NoUpcomingIsFlat(now: YearMonth, f: nat, sorted: seq<NetRow>, scale: nat)
    ensures var d := ForecastFrom(now, f, sorted, [], scale);
      |d.projections| == f
      && (forall i :: 0 <= i < f ==> d.projections[i] == MonthNet(now + i + 1, d.summary.averageNet))
      && d.summary.projectedPeriodTotal == f as real * d.summary.averageNet
      && (f > 0 ==> d.summary.projectedNextMonth == d.summary.averageNet)
      && d.summary.averageNet == Average(Nets(sorted), scale) && |d.actuals| == |sorted|
  {
    FlatProjections(Average(Nets(sorted), scale), now, f);
  }

  /** Without upcoming items, each of the f projections is `avg` and they total `f * avg`. */
  lemma FlatProjections(avg: real, now: YearMonth, f: nat)
    ensures forall i :: 0 <= i < f ==> Projections(avg, now, f, [])[i] == MonthNet(now + i + 1, avg)
    ensures NetTotal(Projections(avg, now, f, [])) == f as real * avg
  {
    var ps := Projections(avg, now, f, []);
    forall i | 0 <= i < f
      ensures ps[i] == MonthNet(now + i + 1, avg)
    {
      assert Adjustment([], now + i + 1, now + f) == 0.0;
    }
    NetTotalFlat(ps, avg);
  }

  /** Every projection is the average plus exactly its month's upcoming adjustment, month by month in order. */
  lemma ProjectionMonths(now: YearMonth, f: nat, sorted: seq<NetRow>, items: seq<Upcoming>, scale: nat, i: nat)
    requires i < f
    ensures var d := ForecastFrom(now, f, sorted, items, scale);
      d.projections[i].month == now + i + 1
      && d.projections[i].net - d.summary.averageNet == Adjustment(items, now + i + 1, now + f)
      && d.summary.averageNet == Average(Nets(sorted), scale)
  {
  }

  /** The actuals are the history in month order, one per row. */
  lemma ActualsInOrder(now: YearMonth, f: nat, rows: seq<NetRow>, items: seq<Upcoming>, scale: nat)
    ensures var d := ForecastOf(now, f, rows, items, scale);
      |d.actuals| == |rows| == d.summary.historyMonths
      && (forall i, j :: 0 <= i < j < |d.actuals| ==> d.actuals[i].month <= d.actuals[j].month)
  {
    var sorted := SortBy(rows, MonthKey);
    assert SortedBy(sorted, MonthKey);
  }

  function SixMonths(now: YearMonth): seq<NetRow> {
    [NetRow(now - 5, Some(10.0)), NetRow(now - 4, Some(20.0)), NetRow(now - 3, Some(30.0)),
     NetRow(now - 2, Some(40.0)), NetRow(now - 1, Some(50.0)), NetRow(now, Some(60.0))]
  }

  /** History that is already in month order is used as it is. */
  lemma {:induction false} FromSorted(now: YearMonth, f: nat, rows: seq<NetRow>, items: seq<Upcoming>, scale: nat)
    requires SortedBy(rows, MonthKey)
    ensures ForecastOf(now, f, rows, items, scale) == ForecastFrom(now, f, rows, items, scale)
  {
    SortBySorted(rows, MonthKey);
  }

  /** Six months of nets 10..60 and nothing upcoming: an average of 35 and three projections of 35. */
  lemma SimpleAverageExample(now: YearMonth)
    ensures var d := ForecastOf(now, 3, SixMonths(now), [], 0);
      |d.actuals| == 6 && d.summary.averageNet == 35.0 && |d.projections| == 3
      && forall i :: 0 <= i < 3 ==> d.projections[i].net == 35.0
  {
    var rows := SixMonths(now);
    FromSorted(now, 3, rows, [], 0);
    SixMonthsAverage(now);
    NoUpcomingIsFlat(now, 3, rows, 0);
  }

  lemma SixMonthsAverage(now: YearMonth)
    ensures Average(Nets(SixMonths(now)), 0) == 35.0
  {
    var rows := SixMonths(now);
    var nets := Nets(rows);
    assert nets == [10.0, 20.0, 30.0, 40.0, 50.0, 60.0] by {
      forall i | 0 <= i < 6 ensures nets[i] == [10.0, 20.0, 30.0, 40.0, 50.0, 60.0][i] {
        assert nets[i] == NetOf(rows[i]);
      }
    }
    SumSix();
    assert Units(35.0, Pow10(0) as real) == 35;
  }

  lemma SumSix()
    ensures SumReal([10.0, 20.0, 30.0, 40.0, 50.0, 60.0]) == 210.0
  {
    var s := [10.0, 20.0, 30.0, 40.0, 50.0, 60.0];
    SumRealAppend([10.0, 20.0, 30.0], [40.0, 50.0, 60.0]);
    assert s == [10.0, 20.0, 30.0] + [40.0, 50.0, 60.0];
    assert [10.0, 20.0, 30.0][1..] == [20.0, 30.0];
    assert [20.0, 30.0][1..] == [30.0];
    assert [40.0, 50.0, 60.0][1..] == [50.0, 60.0];
    assert [50.0, 60.0][1..] == [60.0];
  }

  function FlatHundred(now: YearMonth): seq<NetRow> {
    [NetRow(now - 2, Some(100.0)), NetRow(now - 1, Some(100.0)), NetRow(now, Some(100.0))]
  }

  /** Nets of 100 and a one-off +50 due next month: 150 for next month, 100 for the one after. */
  lemma OneOffNextMonth(now: YearMonth, u: Upcoming)
    requires !Recurring(u) && u.amount == Some(50.0) && MonthOf(u.due) == now + 1
    ensures var d := ForecastOf(now, 2, FlatHundred(now), [u], 0);
      d.projections[0].net == 150.0 && d.projections[1].net == 100.0
  {
    FlatHundredAverage(now);
    FromSorted(now, 2, FlatHundred(now), [u], 0);
    OneOffOnAverage(now, FlatHundred(now), u);
  }

  /**
   * Any month-ordered history averaging 100 and a one-off +50 due next month:
   * 150 for next month, 100 for the one after.
   */
  lemma OneOffOnAverage(now: YearMonth, rows: seq<NetRow>, u: Upcoming)
    requires Average(Nets(rows), 0) == 100.0
    requires !Recurring(u) && u.amount == Some(50.0) && MonthOf(u.due) == now + 1
    ensures var d := ForecastFrom(now, 2, rows, [u], 0);
      d.projections[0].net == 150.0 && d.projections[1].net == 100.0
  {
    OneOffAdjustments(now, u);
    ProjectionMonths(now, 2, rows, [u], 0, 0);
    ProjectionMonths(now, 2, rows, [u], 0, 1);
  }

  lemma FlatHundredAverage(now: YearMonth)
    ensures Average(Nets(FlatHundred(now)), 0) == 100.0
  {
    AverageOfConstant(Nets(FlatHundred(now)), 100.0, 0);
    assert Units(100.0, Pow10(0) as real) == 100;
  }

  lemma OneOffAdjustments(now: YearMonth, u: Upcoming)
    requires !Recurring(u) && u.amount == Some(50.0) && MonthOf(u.due) == now + 1
    ensures Adjustment([u], now + 1, now + 2) == 50.0 && Adjustment([u], now + 2, now + 2) == 0.0
  {
    OneOffOnlyOwnMonth([], u, now + 1, now + 2);
    OneOffOnlyOwnMonth([], u, now + 2, now + 2);
    assert [u] == [] + [u];
  }

  // ----------------------------------------------------------------- cache

  /** A cache entry: the forecast and when it was stored. */
  datatype Entry = Entry(dto: ForecastDto, ts: int)

  /** The cache key "userId:futureMonths". */
  function Key(user: int, months: int): string {
    IntToString(user) + ":" + IntToString(months)
  }

  function UserPrefix(user: int): string {
    IntToString(user) + ":"
  }

  /** An entry older than the TTL is stale. */
  predicate Fresh(e: Entry, now: int) {
    now - e.ts <= TtlMs
  }

  /** What `get` answers from these entries at time `now`. */
  function LookupIn(entries: map<string, Entry>, user: int, months: int, now: int): Option<ForecastDto> {
    var k := Key(user, months);
    if k in entries && Fresh(entries[k], now) then Some(entries[k].dto) else None
  }

  /** The entries `invalidateUser` keeps: those whose key does not start with "userId:". */
  function WithoutUser(entries: map<string, Entry>, user: int): (r: map<string, Entry>)
    ensures forall k :: k in r <==> k in entries && !StartsWith(k, UserPrefix(user))
    ensures forall k :: k in r ==> r[k] == entries[k]
  {
    map k | k in entries && !StartsWith(k, UserPrefix(user)) :: entries[k]
  }

  /** A key starts with a user's prefix exactly when it is that user's key. */
  lemma KeyPrefix(user: int, other: int, months: int)
    ensures StartsWith(Key(other, months), UserPrefix(user)) <==> other == user
  {
    var a, b := IntToString(user), IntToString(other);
    IntTextDigits(user);
    IntTextDigits(other);
    IntTextDigits(months);
    var k := Key(other, months);
    if StartsWith(k, UserPrefix(user)) {
      assert k[|a|] == ':';
      if |b| != |a| {
        assert false;
      } else {
        assert a == k[..|a|] == b;
      }
      IntToStringInjective(user, other);
    }
  }

  /** Different horizons of one user are different keys. */
  lemma KeysDistinct(user: int, m1: int, m2: int)
    requires m1 != m2
    ensures Key(user, m1) != Key(user, m2)
  {
    var p := UserPrefix(user);
    if Key(user, m1) == Key(user, m2) {
      assert IntToString(m1) == Key(user, m1)[|p|..] == Key(user, m2)[|p|..] == IntToString(m2);
      IntToStringInjective(m1, m2);
    }
  }

  /** `get` right after `put` with the same user and horizon returns what was put. */
  lemma GetAfterPut(entries: map<string, Entry>, user: int, months: int, dto: ForecastDto, now: int)
    ensures LookupIn(entries[Key(user, months) := Entry(dto, now)], user, months, now) == Some(dto)
  {
  }

  /** A `put` for one horizon leaves the other horizons' answers alone. */
  lemma PutOtherHorizon(entries: map<string, Entry>, user: int, m1: int, m2: int, dto: ForecastDto, t: int, now: int)
    requires m1 != m2
    ensures LookupIn(entries[Key(user, m1) := Entry(dto, t)], user, m2, now) == LookupIn(entries, user, m2, now)
  {
    KeysDistinct(user, m1, m2);
  }

  /** An entry older than the TTL is never returned. */
  lemma StaleMisses(entries: map<string, Entry>, user: int, months: int, now: int)
    requires Key(user, months) in entries && now - entries[Key(user, months)].ts > TtlMs
    ensures LookupIn(entries, user, months, now).None?
  {
  }

  /** After `invalidateUser` the user has no entry left and every other user's entries answer as before. */
  lemma InvalidateUserSpec(entries: map<string, Entry>, user: int, other: int, months: int, now: int)
    ensures LookupIn(WithoutUser(entries, user), user, months, now).None?
    ensures other != user ==> LookupIn(WithoutUser(entries, user), other, months, now) == LookupIn(entries, other, months, now)
  {
    KeyPrefix(user, user, months);
    KeyPrefix(user, other, months);
  }

  class ForecastCache {
    var entries: map<string, Entry>

    constructor()
      ensures entries == map[]
    {
      entries := map[];
    }

    /** `get`: the entry's forecast while fresh; a stale entry is removed and misses. */
    method Get(user: int, months: int, now: int) returns (r: Option<ForecastDto>)
      modifies this
      ensures r == LookupIn(old(entries), user, months, now)
      ensures var k := Key(user, months);
        entries == if k in old(entries) && !Fresh(old(entries)[k], now) then old(entries) - {k} else old(entries)
    {
      var k := Key(user, months);
      if k !in entries {
        return None;
      }
      var e := entries[k];
      if now - e.ts > TtlMs {
        entries := entries - {k};
        return None;
      }
      return Some(e.dto);
    }

    /** `put`: stores the forecast stamped with the current time. */
    method Put(user: int, months: int, dto: ForecastDto, now: int)
      modifies this
      ensures entries == old(entries)[Key(user, months) := Entry(dto, now)]
    {
      entries := entries[Key(user, months) := Entry(dto, now)];
    }

    /** `invalidateUser`: drops every key with the user's prefix. */
    method InvalidateUser(user: int)
      modifies this
      ensures entries == WithoutUser(old(entries), user)
    {
      var prefix := UserPrefix(user);
      entries := map k | k in entries && !StartsWith(k, prefix) :: entries[k];
    }
  }

  // --------------------------------------------------------------- service

  /** The actuals loop: one net per row, a null net as zero. */
  method CollectActuals(sorted: seq<NetRow>) returns (actuals: seq<MonthNet>, nets: seq<real>)
    ensures actuals == Actuals(sorted) && nets == Nets(sorted)
  {
    actuals, nets := [], [];
    var i := 0;
    while i < |sorted|
      invariant 0 <= i <= |sorted|
      invariant actuals == Actuals(sorted[..i]) && nets == Nets(sorted[..i])
    {
      assert sorted[..i + 1][..i] == sorted[..i];
      var p := sorted[i];
      var net := if p.net.None? then 0.0 else p.net.value;
      nets := nets + [net];
      actuals := actuals + [MonthNet(p.ym, net)];
      i := i + 1;
    }
    assert sorted[..|sorted|] == sorted;
  }

  /** The upcoming-totals loop; a recurring item walks a month cursor up to `last`. */
  method UpcomingTotals(items: seq<Upcoming>, last: YearMonth) returns (totals: map<YearMonth, real>)
    ensures forall ym :: Get(totals, ym) == Adjustment(items, ym, last)
  {
    totals := map[];
    var i := 0;
    while i < |items|
      invariant 0 <= i <= |items|
      invariant forall ym :: Get(totals, ym) == Adjustment(items[..i], ym, last)
    {
      AdjustmentStep(items, i, last);
      var ut := items[i];
      var ym := MonthOf(ut.due);
      var amt := if ut.amount.None? then 0.0 else ut.amount.value;
      if ut.recurring == Some(true) {
        var cursor := ym;
        while cursor <= last
          invariant ym <= cursor && (cursor <= last + 1 || cursor == ym)
          invariant forall k :: Get(totals, k) == Adjustment(items[..i], k, last) + (if ym <= k < cursor then amt else 0.0)
          decreases last + 1 - cursor
        {
          totals := Merge(totals, cursor, amt);
          cursor := cursor + 1;
        }
      } else {
        totals := Merge(totals, ym, amt);
      }
      i := i + 1;
    }
    assert items[..|items|] == items;
  }

  /** Taking one more item adds exactly its contribution to every month. */
  lemma AdjustmentStep(items: seq<Upcoming>, i: nat, last: YearMonth)
    requires i < |items|
    ensures forall ym :: Adjustment(items[..i + 1], ym, last) == Adjustment(items[..i], ym, last) + Contribution(items[i], ym, last)
  {
    assert items[..i + 1][..i] == items[..i];
  }

  /** The projections loop for months now+1 .. now+f. */
  method Project(avg: real, now: YearMonth, f: nat, totals: map<YearMonth, real>, ghost items: seq<Upcoming>)
    returns (ps: seq<MonthNet>)
    requires forall ym :: Get(totals, ym) == Adjustment(items, ym, now + f)
    ensures ps == Projections(avg, now, f, items)
  {
    ps := [];
    var i := 1;
    while i <= f
      invariant 1 <= i <= f + 1 && |ps| == i - 1
      invariant forall j :: 0 <= j < i - 1 ==> ps[j] == MonthNet(now + j + 1, avg + Adjustment(items, now + j + 1, now + f))
    {
      var ym := now + i;
      ps := ps + [MonthNet(ym, avg + Get(totals, ym))];
      i := i + 1;
    }
  }

  /** The stream reduction of the projected nets. */
  method Total(ps: seq<MonthNet>) returns (total: real)
    ensures total == NetTotal(ps)
  {
    total := 0.0;
    var i := 0;
    while i < |ps|
      invariant 0 <= i <= |ps| && total == NetTotal(ps[..i])
    {
      assert ps[..i + 1][..i] == ps[..i];
      total := total + ps[i].net;
      i := i + 1;
    }
    assert ps[..|ps|] == ps;
  }

  /** The computation of `forecast` once the cache has missed. */
  method Compute(now: YearMonth, f: nat, rows: seq<NetRow>, items: seq<Upcoming>, scale: nat) returns (dto: ForecastDto)
    ensures dto == ForecastOf(now, f, rows, items, scale)
  {
    var sorted := SortBy(rows, MonthKey);
    var actuals, nets := CollectActuals(sorted);
    var avg := if |nets| == 0 then 0.0 else RoundHalfUp(SumReal(nets) / |nets| as real, scale);
    var totals := UpcomingTotals(items, now + f);
    var ps := Project(avg, now, f, totals, items);
    var lastNet := if |nets| == 0 then 0.0 else nets[|nets| - 1];
    var total := Total(ps);
    dto := ForecastDto(actuals, ps, SimpleAverage,
                       Summary(avg, lastNet, if |ps| == 0 then 0.0 else ps[0].net, total, |nets|, f));
  }

  /**
   * `forecast(futureMonths)`: a fresh cached forecast for the user and
   * horizon when there is one; otherwise the forecast over the history and
   * upcoming windows, which is then cached.
   */
  method Forecast(cache: ForecastCache, user: int, futureMonths: int, now: YearMonth, clock: int,
                  aggregate: (Day, Day) -> seq<NetRow>, dueBetween: (Day, Day) -> seq<Upcoming>, scale: nat)
    returns (dto: ForecastDto)
    modifies cache
    ensures var f := FutureMonths(futureMonths);
      var hit := LookupIn(old(cache.entries), user, f, clock);
      hit.Some? ==> dto == hit.value && cache.entries == old(cache.entries)
    ensures var f := FutureMonths(futureMonths);
      var hit := LookupIn(old(cache.entries), user, f, clock);
      hit.None? ==>
        dto == ForecastOf(now, f, aggregate(HistoryStart(now, f), HistoryEnd(now)),
                          dueBetween(UpcomingStart(now), UpcomingEnd(now, f)), scale)
        && cache.entries == old(cache.entries)[Key(user, f) := Entry(dto, clock)]
  {
    var f := FutureMonths(futureMonths);
    var cached := cache.Get(user, f, clock);
    if cached.Some? {
      return cached.value;
    }
    var rows := aggregate(HistoryStart(now, f), HistoryEnd(now));
    var items := dueBetween(UpcomingStart(now), UpcomingEnd(now, f));
    dto := Compute(now, f, rows, items, scale);
    cache.Put(user, f, dto, clock);
  }
}
