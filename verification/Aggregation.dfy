/** Cost aggregation on the desktop: range totals, dense daily series and month-end forecasts. What a grouping
    query answers is a parameter, given by what the query means. */
module Aggregation {
  import opened Wrappers
  import opened Spreads
  import opened UsageSums
  import opened TeamModel
  import opened Redaction
  import DailyColumns

  type Events = map<string, UsageEvent>

  /** SQL and bigint division drops the fraction. */
  function Div(a: int, b: int): int
    requires b > 0
  {
    if a >= 0 then a / b else -((-a) / b)
  }

  function UsageOf(e: UsageEvent): Usage {
    var t := e.tokens;
    Usage(1, t.input, t.output, t.cacheRead, t.cache5m, t.cache1h, OrElse(t.reasoning, 0), e.cost)
  }

  /** `WHERE timestamp >= start AND timestamp < end`. */
  function InRange(events: Events, start: int, end: int): map<string, Usage> {
    map id | id in events && start <= events[id].timestamp < end :: UsageOf(events[id])
  }

  ghost function RangeTotal(events: Events, start: int, end: int): Usage { Sum(InRange(events, start, end)) }

  /** Truncation toward zero, told by multiplication. */
  lemma DivTruncates(a: int, b: int)
    requires b > 0
    ensures a >= 0 ==> Div(a, b) * b <= a < (Div(a, b) + 1) * b
    ensures Div(-a, b) == -Div(a, b)
  {
    var x := if a >= 0 then a else -a;
    assert x == b * (x / b) + x % b;
  }

  function Between(events: Events, start: int, end: int): Events {
    map id | id in events && start <= events[id].timestamp && events[id].timestamp < end :: events[id]
  }

  ghost function SumOf(events: Events, field: UsageEvent -> int): int { SumInts(map id | id in events :: field(events[id])) }

  /** Each figure of a range total is the sum of its own field over the events from the start of the range up to its
      end, the end excluded. */
  lemma RangeColumns(events: Events, start: int, end: int)
    ensures var u, es := RangeTotal(events, start, end), Between(events, start, end);
            && u.count == |es| && u.cost == SumOf(es, DailyColumns.Cost)
            && u.input == SumOf(es, DailyColumns.Input) && u.output == SumOf(es, DailyColumns.Output)
            && u.cacheRead == SumOf(es, DailyColumns.CacheRead) && u.reasoning == SumOf(es, DailyColumns.Reasoning)
            && u.cache5m == SumOf(es, DailyColumns.Cache5m) && u.cache1h == SumOf(es, DailyColumns.Cache1h)
  {
    hide Sum, SumOf, RangeTotal, Between;
    CountColumn(events, start, end);
    CallColumns(events, start, end);
    CacheColumns(events, start, end);
  }

  lemma CountColumn(events: Events, start: int, end: int)
    ensures RangeTotal(events, start, end).count == |Between(events, start, end)|
  {
    var m, es := InRange(events, start, end), Between(events, start, end);
    CountIsSize(m);
    assert m.Keys == es.Keys;
    hide Sum, InRange, Between;
    assert |m| == |m.Keys| == |es.Keys| == |es|;
  }

  lemma CallColumns(events: Events, start: int, end: int)
    ensures var u, es := RangeTotal(events, start, end), Between(events, start, end);
            && u.cost == SumOf(es, DailyColumns.Cost) && u.input == SumOf(es, DailyColumns.Input)
            && u.output == SumOf(es, DailyColumns.Output) && u.reasoning == SumOf(es, DailyColumns.Reasoning)
  {
    hide SumOf, RangeTotal, Between;
    OneColumn(events, start, end, (u: Usage) => u.cost, DailyColumns.Cost);
    OneColumn(events, start, end, (u: Usage) => u.input, DailyColumns.Input);
    OneColumn(events, start, end, (u: Usage) => u.output, DailyColumns.Output);
    OneColumn(events, start, end, (u: Usage) => u.reasoning, DailyColumns.Reasoning);
  }

  lemma CacheColumns(events: Events, start: int, end: int)
    ensures var u, es := RangeTotal(events, start, end), Between(events, start, end);
            && u.cacheRead == SumOf(es, DailyColumns.CacheRead)
            && u.cache5m == SumOf(es, DailyColumns.Cache5m) && u.cache1h == SumOf(es, DailyColumns.Cache1h)
  {
    hide SumOf, RangeTotal, Between;
    OneColumn(events, start, end, (u: Usage) => u.cacheRead, DailyColumns.CacheRead);
    OneColumn(events, start, end, (u: Usage) => u.cache5m, DailyColumns.Cache5m);
    OneColumn(events, start, end, (u: Usage) => u.cache1h, DailyColumns.Cache1h);
  }

  lemma OneColumn(events: Events, start: int, end: int, get: Usage -> int, field: UsageEvent -> int)
    requires Additive(get) && forall e :: get(UsageOf(e)) == field(e)
    ensures get(RangeTotal(events, start, end)) == SumOf(Between(events, start, end), field)
  {
    var m, es := InRange(events, start, end), Between(events, start, end);
    SumOfColumn(m, get);
    assert m.Keys == es.Keys && forall id <- m :: m[id] == UsageOf(es[id]);
    hide Sum, SumInts, UsageOf, InRange, Between;
    assert Column(m, get) == map id | id in es :: field(es[id]);
  }

  function Of(events: Events, provider: string): Events { map id | id in events && events[id].provider == provider :: events[id] }

  function DayIndex(ts: int, origin: int): int { Div(ts - origin, DAY_MS) }

  function DayTags(events: Events, origin: int): map<string, int> { map id | id in events :: DayIndex(events[id].timestamp, origin) }

  datatype DayCost = DayCost(day: int, cost: int)

  ghost function RowOf(m: map<string, Usage>, tags: map<string, int>, day: int): seq<DayCost> {
    var g := Group(m, tags, day);
    if g == map[] then [] else [DayCost(day, Sum(g).cost)]
  }

  /** The grouped rows for the days from `lo` up to `hi`, in order; days without events have no row. */
  ghost function DayRows(m: map<string, Usage>, tags: map<string, int>, lo: int, hi: int): seq<DayCost>
    decreases hi - lo
  {
    if hi <= lo then [] else DayRows(m, tags, lo, hi - 1) + RowOf(m, tags, hi - 1)
  }

  /** What `perDayCost` is answered: one row for every day that has an event, in day order. */
  ghost function PerDayCost(events: Events, start: int, end: int, origin: int): seq<DayCost> {
    DayRows(InRange(events, start, end), DayTags(events, origin), DayIndex(start, origin), DayIndex(end, origin) + 1)
  }

  function Spent(rows: seq<DayCost>): int
    decreases |rows|
  {
    if rows == [] then 0 else Spent(rows[..|rows| - 1]) + rows[|rows| - 1].cost
  }

  lemma SpentMore(rows: seq<DayCost>, row: DayCost)
    ensures Spent(rows + [row]) == Spent(rows) + row.cost
  {
    assert (rows + [row])[..|rows|] == rows;
  }

  // ---- grouping by day loses nothing ---------------------------------------

  /** The events of the days from `lo` up to `hi`. */
  ghost function DaysPart(m: map<string, Usage>, tags: map<string, int>, lo: int, hi: int): map<string, Usage> {
    map id | id in m && id in tags && lo <= tags[id] < hi :: m[id]
  }

  lemma SpentRow(rows: seq<DayCost>, m: map<string, Usage>, tags: map<string, int>, day: int)
    ensures Spent(rows + RowOf(m, tags, day)) == Spent(rows) + Sum(Group(m, tags, day)).cost
  {
    if Group(m, tags, day) == map[] {
      assert rows + [] == rows;
    } else {
      SpentMore(rows, DayCost(day, Sum(Group(m, tags, day)).cost));
    }
  }

  lemma OneMoreDay(m: map<string, Usage>, tags: map<string, int>, lo: int, hi: int)
    requires lo < hi
    ensures Splits(DaysPart(m, tags, lo, hi), DaysPart(m, tags, lo, hi - 1), Group(m, tags, hi - 1))
  {}

  lemma NoDays(m: map<string, Usage>, tags: map<string, int>, lo: int)
    ensures Sum(DaysPart(m, tags, lo, lo)) == ZERO
  {
    assert DaysPart(m, tags, lo, lo) == map[];
  }

  lemma {:induction false} DayRowsAddUp(m: map<string, Usage>, tags: map<string, int>, lo: int, hi: int)
    requires lo <= hi
    ensures Spent(DayRows(m, tags, lo, hi)) == Sum(DaysPart(m, tags, lo, hi)).cost
    decreases hi - lo
  {
    hide Sum, DaysPart, Group, RowOf;
    if lo == hi {
      NoDays(m, tags, lo);
    } else {
      DayRowsAddUp(m, tags, lo, hi - 1);
      OneMoreDay(m, tags, lo, hi);
      SumSplits(DaysPart(m, tags, lo, hi), DaysPart(m, tags, lo, hi - 1), Group(m, tags, hi - 1));
      SpentRow(DayRows(m, tags, lo, hi - 1), m, tags, hi - 1);
    }
  }

  lemma DivMonotone(a: int, b: int)
    requires a <= b
    ensures Div(a, DAY_MS) <= Div(b, DAY_MS)
  {}

  /** The day costs add up to the range total, wherever the days are counted from. */
  lemma DaysAddUp(events: Events, start: int, end: int, origin: int)
    requires start <= end
    ensures Spent(PerDayCost(events, start, end, origin)) == RangeTotal(events, start, end).cost
  {
    hide Sum, DayRows;
    DivMonotone(start - origin, end - origin);
    DayRowsAddUp(InRange(events, start, end), DayTags(events, origin), DayIndex(start, origin), DayIndex(end, origin) + 1);
    AllDays(events, start, end, origin);
  }

  lemma AllDays(events: Events, start: int, end: int, origin: int)
    requires start <= end
    ensures DaysPart(InRange(events, start, end), DayTags(events, origin), DayIndex(start, origin), DayIndex(end, origin) + 1)
            == InRange(events, start, end)
  {
    forall id <- events | start <= events[id].timestamp < end
      ensures DayIndex(start, origin) <= DayIndex(events[id].timestamp, origin) <= DayIndex(end, origin)
    {
      DivMonotone(start - origin, events[id].timestamp - origin);
      DivMonotone(events[id].timestamp - origin, end - origin);
    }
  }

  // ---- the dense daily series ----------------------------------------------

  /** The cost of each of `days` whole days from `start` on. */
  ghost function Series(events: Events, start: int, days: nat): seq<int> {
    seq(days, d requires 0 <= d < days => RangeTotal(events, start + d * DAY_MS, start + (d + 1) * DAY_MS).cost)
  }

  lemma RangeSplits(events: Events, a: int, b: int, c: int)
    requires a <= b <= c
    ensures RangeTotal(events, a, c) == RangeTotal(events, a, b).Plus(RangeTotal(events, b, c))
  {
    SumSplits(InRange(events, a, c), InRange(events, a, b), InRange(events, b, c));
  }

  lemma SeriesMore(events: Events, start: int, days: nat)
    requires days > 0
    ensures Total(Series(events, start, days))
            == Total(Series(events, start, days - 1)) + RangeTotal(events, start + (days - 1) * DAY_MS, start + days * DAY_MS).cost
  {
    hide RangeTotal;
    assert Series(events, start, days)[..days - 1] == Series(events, start, days - 1);
  }

  /** The series adds up to the total of its range. */
  lemma {:induction false} SeriesAddsUp(events: Events, start: int, days: nat)
    ensures Total(Series(events, start, days)) == RangeTotal(events, start, start + days * DAY_MS).cost
    decreases days
  {
    hide Series, Total, InRange, Sum;
    if days == 0 {
      NoSeries(events, start);
    } else {
      SeriesAddsUp(events, start, days - 1);
      SeriesMore(events, start, days);
      RangeSplits(events, start, start + (days - 1) * DAY_MS, start + days * DAY_MS);
    }
  }

  lemma NoSeries(events: Events, start: int)
    ensures Total(Series(events, start, 0)) == 0 == RangeTotal(events, start, start).cost
  {
    assert InRange(events, start, start) == map[];
  }

  /** Counted from the start of the range, day `d` is the `d`-th day of it. */
  lemma DayIsRange(events: Events, start: int, end: int, d: nat)
    requires start + (d + 1) * DAY_MS <= end
    ensures Group(InRange(events, start, end), DayTags(events, start), d)
            == InRange(events, start + d * DAY_MS, start + (d + 1) * DAY_MS)
  {
    forall id <- events
      ensures start <= events[id].timestamp < end && DayIndex(events[id].timestamp, start) == d
              <==> start + d * DAY_MS <= events[id].timestamp < start + (d + 1) * DAY_MS
    {
      var x := events[id].timestamp - start;
      if x >= 0 {
        assert x / DAY_MS == d <==> d * DAY_MS <= x < (d + 1) * DAY_MS;
      }
    }
  }

  lemma {:induction false} DayRowsAre(m: map<string, Usage>, tags: map<string, int>, lo: int, hi: int)
    ensures var rows := DayRows(m, tags, lo, hi);
            && (forall i, j :: 0 <= i < j < |rows| ==> rows[i].day < rows[j].day)
            && (forall r <- rows :: lo <= r.day < hi && RowOf(m, tags, r.day) == [r])
    decreases hi - lo
  {
    hide RowOf;
    if lo >= hi {
    } else {
      DayRowsAre(m, tags, lo, hi - 1);
      RowIs(m, tags, hi - 1);
      var before := DayRows(m, tags, lo, hi - 1);
      assert forall i :: 0 <= i < |before| ==> before[i] in before;
    }
  }

  lemma RowIs(m: map<string, Usage>, tags: map<string, int>, d: int)
    ensures |RowOf(m, tags, d)| <= 1 && forall r <- RowOf(m, tags, d) :: r.day == d && RowOf(m, tags, d) == [r]
  {}

  lemma {:induction false} EveryDayHasItsRow(m: map<string, Usage>, tags: map<string, int>, lo: int, hi: int, d: int)
    requires lo <= d < hi
    ensures forall r <- RowOf(m, tags, d) :: r in DayRows(m, tags, lo, hi)
    decreases hi - lo
  {
    hide RowOf;
    if d == hi - 1 {
    } else {
      EveryDayHasItsRow(m, tags, lo, hi - 1, d);
    }
  }

  /** The cost in the row for a day, zero without one. */
  function CostAt(rows: seq<DayCost>, day: int): int
    decreases |rows|
  {
    if rows == [] then 0 else if rows[|rows| - 1].day == day then rows[|rows| - 1].cost else CostAt(rows[..|rows| - 1], day)
  }

  lemma CostAtMore(rows: seq<DayCost>, more: seq<DayCost>, day: int)
    requires |more| <= 1
    ensures CostAt(rows + more, day) == if more != [] && more[0].day == day then more[0].cost else CostAt(rows, day)
  {
    if more == [] {
      assert rows + more == rows;
    } else {
      assert (rows + more)[..|rows|] == rows;
    }
  }

  lemma {:induction false} NoCostBeyond(m: map<string, Usage>, tags: map<string, int>, lo: int, hi: int, d: int)
    requires d >= hi
    ensures CostAt(DayRows(m, tags, lo, hi), d) == 0
    decreases hi - lo
  {
    hide RowOf;
    if lo >= hi {
    } else {
      NoCostBeyond(m, tags, lo, hi - 1, d);
      RowIs(m, tags, hi - 1);
      CostAtMore(DayRows(m, tags, lo, hi - 1), RowOf(m, tags, hi - 1), d);
    }
  }

  lemma RowCost(m: map<string, Usage>, tags: map<string, int>, d: int)
    ensures Sum(Group(m, tags, d)).cost == if RowOf(m, tags, d) == [] then 0 else RowOf(m, tags, d)[0].cost
  {}

  lemma {:induction false} CostAtIs(m: map<string, Usage>, tags: map<string, int>, lo: int, hi: int, d: int)
    requires lo <= d < hi
    ensures CostAt(DayRows(m, tags, lo, hi), d) == Sum(Group(m, tags, d)).cost
    decreases hi - lo
  {
    hide RowOf, Group, Sum;
    RowIs(m, tags, hi - 1);
    CostAtMore(DayRows(m, tags, lo, hi - 1), RowOf(m, tags, hi - 1), d);
    if d < hi - 1 {
      CostAtIs(m, tags, lo, hi - 1, d);
    } else {
      NoCostBeyond(m, tags, lo, hi - 1, d);
      RowCost(m, tags, d);
    }
  }

  /** Looked up by day, the answer for whole days is the series. */
  lemma AnswerIsSeries(events: Events, start: int, days: nat, d: nat)
    requires d < days
    ensures CostAt(PerDayCost(events, start, start + days * DAY_MS, start), d) == Series(events, start, days)[d]
  {
    hide Sum, Group, InRange, DayRows, DayIndex, DayTags;
    var end := start + days * DAY_MS;
    DaysFrom(start, days, d);
    CostAtIs(InRange(events, start, end), DayTags(events, start), 0, days + 1, d);
    DayIsRange(events, start, end, d);
  }

  lemma DaysFrom(start: int, days: nat, d: nat)
    requires d < days
    ensures DayIndex(start, start) == 0 && DayIndex(start + days * DAY_MS, start) == days && (d + 1) * DAY_MS <= days * DAY_MS
  {}

  /** The dense series of the last `days` days, today last. `rows` is what `perDayCost` is answered. */
  method DailySeries(ghost events: Events, days: nat, todayStart: int, rows: seq<DayCost>) returns (out: array<int>)
    requires var start := todayStart - (days - 1) * DAY_MS;
             rows == PerDayCost(events, start, start + days * DAY_MS, start)
    ensures fresh(out) && out[..] == Series(events, todayStart - (days - 1) * DAY_MS, days)
    ensures forall d :: 0 <= d < days ==>
              out[d] == SumOf(Between(events, todayStart - (days - 1 - d) * 86400000, todayStart - (days - 2 - d) * 86400000), DailyColumns.Cost)
  {
    hide PerDayCost, RangeTotal;
    out := new int[days](_ => 0);
    for k := 0 to |rows|
      invariant forall d :: 0 <= d < days ==> out[d] == CostAt(rows[..k], d)
    {
      assert rows[..k + 1] == rows[..k] + [rows[k]];
      if 0 <= rows[k].day < days {
        out[rows[k].day] := rows[k].cost;
      }
      forall d | 0 <= d < days ensures out[d] == CostAt(rows[..k + 1], d) {
        CostAtMore(rows[..k], [rows[k]], d);
      }
    }
    assert rows[..|rows|] == rows;
    forall d | 0 <= d < days ensures out[d] == Series(events, todayStart - (days - 1) * DAY_MS, days)[d] {
      AnswerIsSeries(events, todayStart - (days - 1) * DAY_MS, days, d);
    }
    forall d | 0 <= d < days
      ensures out[d] == SumOf(Between(events, todayStart - (days - 1 - d) * 86400000, todayStart - (days - 2 - d) * 86400000), DailyColumns.Cost)
    {
      SeriesTells(events, todayStart, days, d);
    }
  }

  lemma SeriesTells(events: Events, todayStart: int, days: nat, d: nat)
    requires d < days
    ensures Series(events, todayStart - (days - 1) * DAY_MS, days)[d]
            == SumOf(Between(events, todayStart - (days - 1 - d) * 86400000, todayStart - (days - 2 - d) * 86400000), DailyColumns.Cost)
  {
    hide RangeTotal, SumOf, Between;
    var start := todayStart - (days - 1) * DAY_MS;
    RangeColumns(events, start + d * DAY_MS, start + (d + 1) * DAY_MS);
  }

  // ---- forecasts -----------------------------------------------------------

  datatype MonthlyForecast = MonthlyForecast(monthStart: int, daysElapsed: int, daysInMonth: nat, spent: int, estimate: int, band: nat)

  function Elapsed(monthStart: int, todayEnd: int): int { (todayEnd - monthStart) / DAY_MS }

  function Estimate(spent: int, dim: nat, elapsed: int): int { if elapsed > 0 then Div(spent * dim, elapsed) else 0 }

  function Remaining(dim: nat, elapsed: int): nat { Max(0, dim - elapsed) }

  /** Spend, projection and band from the day costs of a month and their sum. */
  function ForecastOf(monthStart: int, todayEnd: int, dim: nat, spent: int, perDay: seq<int>): MonthlyForecast {
    var elapsed := Elapsed(monthStart, todayEnd);
    MonthlyForecast(monthStart, elapsed, dim, spent, Estimate(spent, dim, elapsed), Band(perDay, Remaining(dim, elapsed)))
  }

  /** The forecast, told by its figures: whole days elapsed, the spend, its projection onto the month with the fraction
      dropped, and the rounded deviation of the day costs over the days that are left. */
  predicate ForecastTells(f: MonthlyForecast, monthStart: int, todayEnd: int, dim: nat, spent: int, perDay: seq<int>) {
    && f.monthStart == monthStart && f.daysInMonth == dim && f.spent == spent
    && f.daysElapsed * 86400000 <= todayEnd - monthStart < (f.daysElapsed + 1) * 86400000
    && (f.daysElapsed <= 0 ==> f.estimate == 0)
    && (f.daysElapsed > 0 && spent >= 0 ==> f.estimate * f.daysElapsed <= spent * dim < (f.estimate + 1) * f.daysElapsed)
    && (f.daysElapsed > 0 && spent < 0 ==> -f.estimate * f.daysElapsed <= -spent * dim < (-f.estimate + 1) * f.daysElapsed)
    && (perDay == [] ==> f.band == 0)
    && (perDay != [] ==>
          IsRoundRoot(f.band, Times(Variance(perDay), (if f.daysElapsed < dim then dim - f.daysElapsed else 0) as real)))
  }

  lemma EstimateTells(spent: int, dim: nat, elapsed: int)
    ensures elapsed <= 0 ==> Estimate(spent, dim, elapsed) == 0
    ensures elapsed > 0 && spent >= 0 ==>
              Estimate(spent, dim, elapsed) * elapsed <= spent * dim < (Estimate(spent, dim, elapsed) + 1) * elapsed
    ensures elapsed > 0 && spent < 0 ==>
              -Estimate(spent, dim, elapsed) * elapsed <= -spent * dim < (-Estimate(spent, dim, elapsed) + 1) * elapsed
  {
    if elapsed > 0 {
      var x := spent * dim;
      DivTruncates(x, elapsed);
      DivTruncates(-x, elapsed);
      SignOfProduct(spent, dim);
      hide Div;
      assert -spent * dim == -x;
    }
  }

  lemma SignOfProduct(a: int, b: nat)
    ensures (a >= 0 ==> a * b >= 0) && (a <= 0 ==> a * b <= 0)
  {}

  lemma ForecastIs(monthStart: int, todayEnd: int, dim: nat, spent: int, perDay: seq<int>)
    ensures ForecastTells(ForecastOf(monthStart, todayEnd, dim, spent, perDay), monthStart, todayEnd, dim, spent, perDay)
  {
    EstimateTells(spent, dim, Elapsed(monthStart, todayEnd));
    hide Estimate, Variance, RoundRoot, IsRoundRoot, Times;
  }

  /** Sums the day costs that a query returned. */
  method SumCosts(costs: seq<int>) returns (spent: int)
    ensures spent == Total(costs)
  {
    spent := 0;
    for i := 0 to |costs|
      invariant spent == Total(costs[..i])
    {
      assert costs[..i + 1][..i] == costs[..i];
      spent := spent + costs[i];
    }
    assert costs[..|costs|] == costs;
  }

  method Project(perDay: seq<int>, monthStart: int, todayEnd: int, dim: nat) returns (f: MonthlyForecast)
    requires perDay != []
    ensures f == ForecastOf(monthStart, todayEnd, dim, Total(perDay), perDay)
  {
    var daysElapsed := (todayEnd - monthStart) / DAY_MS;
    var spent := SumCosts(perDay);
    var estimate := if daysElapsed > 0 then Div(spent * dim, daysElapsed) else 0;
    var band := BandOf(perDay, spent, Max(0, dim - daysElapsed));
    f := MonthlyForecast(monthStart, daysElapsed, dim, spent, estimate, band);
  }

  function Costs(rows: seq<DayCost>): (costs: seq<int>)
    ensures |costs| == |rows|
  {
    seq(|rows|, i requires 0 <= i < |rows| => rows[i].cost)
  }

  lemma {:induction false} CostsTotal(rows: seq<DayCost>)
    ensures Total(Costs(rows)) == Spent(rows)
    decreases |rows|
  {
    if rows == [] {
    } else {
      CostsTotal(rows[..|rows| - 1]);
      assert Costs(rows)[..|rows| - 1] == Costs(rows[..|rows| - 1]);
    }
  }

  /** The forecast for the month: nothing for fewer than three days with events, days counted in UTC;
      otherwise what was spent in the range, and its projection. */
  method Forecast(ghost events: Events, monthStart: int, todayEnd: int, dim: nat, rows: seq<DayCost>) returns (f: Option<MonthlyForecast>)
    requires monthStart <= todayEnd && rows == PerDayCost(events, monthStart, todayEnd, 0)
    ensures f == if |rows| < 3 then None
                 else Some(ForecastOf(monthStart, todayEnd, dim, RangeTotal(events, monthStart, todayEnd).cost, Costs(rows)))
    ensures f.Some? ==> ForecastTells(f.value, monthStart, todayEnd, dim, SumOf(Between(events, monthStart, todayEnd), DailyColumns.Cost),
                                      Costs(rows))
  {
    RangeColumns(events, monthStart, todayEnd);
    ForecastIs(monthStart, todayEnd, dim, RangeTotal(events, monthStart, todayEnd).cost, Costs(rows));
    hide ForecastTells, ForecastOf, SumOf, Between;
    hide PerDayCost, RangeTotal;
    var perDay := Costs(rows);
    if |perDay| < 3 {
      return None;
    }
    CostsTotal(rows);
    DaysAddUp(events, monthStart, todayEnd, 0);
    var g := Project(perDay, monthStart, todayEnd, dim);
    return Some(g);
  }

  datatype ProviderDay = ProviderDay(provider: string, day: int, cost: int)

  /** The costs of one provider's rows, in row order. */
  function CostsOf(rows: seq<ProviderDay>, provider: string): seq<int>
    decreases |rows|
  {
    if rows == [] then []
    else
      var last := rows[|rows| - 1];
      CostsOf(rows[..|rows| - 1], provider) + if last.provider == provider then [last.cost] else []
  }

  /** What the query grouped by provider and day is answered: for each provider, its own day costs in day order. */
  ghost predicate AnswersByProvider(rows: seq<ProviderDay>, events: Events, start: int, end: int, origin: int) {
    forall p :: CostsOf(rows, p) == Costs(PerDayCost(Of(events, p), start, end, origin))
  }

  lemma CostsMore(rows: seq<ProviderDay>, k: nat, p: string)
    requires k < |rows|
    ensures CostsOf(rows[..k + 1], p) == CostsOf(rows[..k], p) + if rows[k].provider == p then [rows[k].cost] else []
  {
    assert rows[..k + 1][..k] == rows[..k];
  }

  /** The map of cost lists, and its keys in insertion order. */
  method PerDayCostByProvider(rows: seq<ProviderDay>) returns (out: map<string, seq<int>>, order: seq<string>)
    ensures forall p :: p in out <==> CostsOf(rows, p) != []
    ensures forall p <- out :: out[p] == CostsOf(rows, p)
    ensures forall p :: p in order <==> p in out
  {
    out, order := map[], [];
    assert rows[..0] == [];
    for k := 0 to |rows|
      invariant forall p :: p in out <==> CostsOf(rows[..k], p) != []
      invariant forall p <- out :: out[p] == CostsOf(rows[..k], p)
      invariant forall p :: p in order <==> p in out
    {
      var provider := rows[k].provider;
      forall p ensures CostsOf(rows[..k + 1], p) == CostsOf(rows[..k], p) + if provider == p then [rows[k].cost] else [] {
        CostsMore(rows, k, p);
      }
      hide CostsOf;
      if provider !in out {
        order := order + [provider];
      }
      var list := if provider in out then out[provider] else [];
      list := list + [rows[k].cost];
      out := out[provider := list];
    }
    assert rows[..|rows|] == rows;
  }

  lemma SpentByProvider(rows: seq<ProviderDay>, events: Events, start: int, end: int, p: string)
    requires start <= end && AnswersByProvider(rows, events, start, end, start)
    ensures Total(CostsOf(rows, p)) == RangeTotal(Of(events, p), start, end).cost
  {
    hide PerDayCost, RangeTotal;
    CostsTotal(PerDayCost(Of(events, p), start, end, start));
    DaysAddUp(Of(events, p), start, end, start);
  }

  /** There is a row exactly if there is an event. */
  lemma HasRowIff(events: Events, start: int, end: int, origin: int)
    requires start <= end
    ensures PerDayCost(events, start, end, origin) != [] <==> InRange(events, start, end) != map[]
  {
    var m, tags := InRange(events, start, end), DayTags(events, origin);
    var lo, hi := DayIndex(start, origin), DayIndex(end, origin) + 1;
    DayRowsAre(m, tags, lo, hi);
    AllDays(events, start, end, origin);
    if m == map[] {
      NoRows(tags, lo, hi);
    } else {
      var id :| id in m;
      assert id in DaysPart(m, tags, lo, hi) && id in Group(m, tags, tags[id]);
      EveryDayHasItsRow(m, tags, lo, hi, tags[id]);
    }
  }

  lemma {:induction false} NoRows(tags: map<string, int>, lo: int, hi: int)
    ensures DayRows(map[], tags, lo, hi) == []
    decreases hi - lo
  {
    if lo >= hi {
    } else {
      NoRows(tags, lo, hi - 1);
      assert Group(map[], tags, hi - 1) == map[];
    }
  }

  lemma RowsByProviderIff(rows: seq<ProviderDay>, events: Events, start: int, end: int, p: string)
    requires start <= end && AnswersByProvider(rows, events, start, end, start)
    ensures CostsOf(rows, p) != [] <==> InRange(Of(events, p), start, end) != map[]
  {
    hide PerDayCost;
    HasRowIff(Of(events, p), start, end, start);
  }

  /** The forecast of one provider, from its own range total and its own days. */
  ghost function ForecastFor(events: Events, p: string, monthStart: int, todayEnd: int, dim: nat): MonthlyForecast {
    ForecastOf(monthStart, todayEnd, dim, RangeTotal(Of(events, p), monthStart, todayEnd).cost,
               Costs(PerDayCost(Of(events, p), monthStart, todayEnd, monthStart)))
  }

  lemma ForecastForIs(rows: seq<ProviderDay>, events: Events, monthStart: int, todayEnd: int, dim: nat, p: string)
    requires monthStart <= todayEnd && AnswersByProvider(rows, events, monthStart, todayEnd, monthStart)
    ensures ForecastOf(monthStart, todayEnd, dim, Total(CostsOf(rows, p)), CostsOf(rows, p))
            == ForecastFor(events, p, monthStart, todayEnd, dim)
  {
    SpentByProvider(rows, events, monthStart, todayEnd, p);
    hide RangeTotal, PerDayCost, CostsOf, ForecastOf;
  }

  /** One forecast per provider with an event, days counted from the start of the month. */
  method ForecastByProvider(ghost events: Events, monthStart: int, todayEnd: int, dim: nat, rows: seq<ProviderDay>)
    returns (out: map<string, MonthlyForecast>)
    requires monthStart <= todayEnd && AnswersByProvider(rows, events, monthStart, todayEnd, monthStart)
    ensures forall p :: p in out <==> InRange(Of(events, p), monthStart, todayEnd) != map[]
    ensures forall p <- out :: out[p] == ForecastFor(events, p, monthStart, todayEnd, dim)
    ensures forall p <- out :: ForecastTells(out[p], monthStart, todayEnd, dim,
                                             SumOf(Between(Of(events, p), monthStart, todayEnd), DailyColumns.Cost),
                                             Costs(PerDayCost(Of(events, p), monthStart, todayEnd, monthStart)))
  {
    hide RangeTotal, AnswersByProvider, CostsOf, ForecastFor, ForecastOf, ForecastTells, SumOf, Between, PerDayCost;
    var byProvider, order := PerDayCostByProvider(rows);
    out := map[];
    for i := 0 to |order|
      invariant forall p :: p in out <==> p in order[..i]
      invariant forall p <- out :: out[p] == ForecastFor(events, p, monthStart, todayEnd, dim)
    {
      var f := Project(byProvider[order[i]], monthStart, todayEnd, dim);
      ForecastForIs(rows, events, monthStart, todayEnd, dim, order[i]);
      out := out[order[i] := f];
    }
    forall p ensures CostsOf(rows, p) != [] <==> InRange(Of(events, p), monthStart, todayEnd) != map[] {
      RowsByProviderIff(rows, events, monthStart, todayEnd, p);
    }
    forall p <- out ensures ForecastTells(out[p], monthStart, todayEnd, dim,
                                          SumOf(Between(Of(events, p), monthStart, todayEnd), DailyColumns.Cost),
                                          Costs(PerDayCost(Of(events, p), monthStart, todayEnd, monthStart)))
    {
      ForecastForTells(events, p, monthStart, todayEnd, dim);
    }
  }

  lemma ForecastForTells(events: Events, p: string, monthStart: int, todayEnd: int, dim: nat)
    ensures ForecastTells(ForecastFor(events, p, monthStart, todayEnd, dim), monthStart, todayEnd, dim,
                          SumOf(Between(Of(events, p), monthStart, todayEnd), DailyColumns.Cost),
                          Costs(PerDayCost(Of(events, p), monthStart, todayEnd, monthStart)))
  {
    hide RangeTotal, ForecastTells, ForecastOf, SumOf, Between, PerDayCost;
    RangeColumns(Of(events, p), monthStart, todayEnd);
    ForecastIs(monthStart, todayEnd, dim, RangeTotal(Of(events, p), monthStart, todayEnd).cost,
               Costs(PerDayCost(Of(events, p), monthStart, todayEnd, monthStart)));
  }

  // ---- the parts and the whole ---------------------------------------------

  /** The spend of each listed provider. */
  ghost function Shares(events: Events, ps: seq<string>, start: int, end: int): seq<int> {
    seq(|ps|, i requires 0 <= i < |ps| => RangeTotal(Of(events, ps[i]), start, end).cost)
  }

  function OfAny(events: Events, ps: seq<string>): Events { map id | id in events && events[id].provider in ps :: events[id] }

  lemma {:induction false} SharesOfListed(events: Events, ps: seq<string>, start: int, end: int)
    requires forall i, j :: 0 <= i < j < |ps| ==> ps[i] != ps[j]
    ensures Total(Shares(events, ps, start, end)) == RangeTotal(OfAny(events, ps), start, end).cost
    decreases |ps|
  {
    hide RangeTotal;
    if ps == [] {
      NoneListed(events, start, end);
    } else {
      var before, p := ps[..|ps| - 1], ps[|ps| - 1];
      SharesOfListed(events, before, start, end);
      assert Shares(events, ps, start, end)[..|ps| - 1] == Shares(events, before, start, end);
      OneMoreProvider(events, before, p, start, end);
      assert before + [p] == ps;
    }
  }

  lemma NoneListed(events: Events, start: int, end: int)
    ensures RangeTotal(OfAny(events, []), start, end).cost == 0
  {
    assert InRange(OfAny(events, []), start, end) == map[];
  }

  lemma OneMoreProvider(events: Events, ps: seq<string>, p: string, start: int, end: int)
    requires p !in ps
    ensures RangeTotal(OfAny(events, ps + [p]), start, end)
            == RangeTotal(OfAny(events, ps), start, end).Plus(RangeTotal(Of(events, p), start, end))
  {
    hide Sum;
    SumSplits(InRange(OfAny(events, ps + [p]), start, end), InRange(OfAny(events, ps), start, end), InRange(Of(events, p), start, end));
  }

  /** The provider spends add up to the total spend. */
  lemma SharesAddUp(events: Events, ps: seq<string>, start: int, end: int)
    requires forall i, j :: 0 <= i < j < |ps| ==> ps[i] != ps[j]
    requires forall id <- events | start <= events[id].timestamp < end :: events[id].provider in ps
    ensures Total(Shares(events, ps, start, end)) == RangeTotal(events, start, end).cost
  {
    hide Sum;
    SharesOfListed(events, ps, start, end);
    assert InRange(OfAny(events, ps), start, end) == InRange(events, start, end);
  }

  function Estimates(shares: seq<int>, dim: nat, elapsed: int): seq<int> {
    seq(|shares|, i requires 0 <= i < |shares| => Estimate(shares[i], dim, elapsed))
  }

  lemma FloorOfSum(a: nat, b: nat, d: int)
    requires d > 0
    ensures a / d + b / d <= (a + b) / d <= a / d + b / d + 1
  {
    var q, r := a / d + b / d, a % d + b % d;
    assert a + b == d * q + r && 0 <= r < 2 * d;
    if r < d {
      Quotient(a + b, d, q, r);
    } else {
      assert a + b == d * (q + 1) + (r - d);
      Quotient(a + b, d, q + 1, r - d);
    }
  }

  lemma AtLeast(d: int, k: int)
    requires d > 0 && k >= 1
    ensures d * k >= d
  {
    assert d * k == d + d * (k - 1) && d * (k - 1) >= 0;
  }

  lemma Quotient(x: int, d: int, q: int, r: int)
    requires d > 0 && x == d * q + r && 0 <= r < d
    ensures x / d == q
  {
    var k := x / d - q;
    assert d * k == d * (x / d) - d * q;
    assert d * k == r - x % d;
    assert d * -k == -(d * k);
    if k >= 1 {
      AtLeast(d, k);
    } else if k <= -1 {
      AtLeast(d, -k);
    }
  }

  lemma EstimateSplits(a: nat, b: nat, dim: nat, elapsed: int)
    ensures var parts := Estimate(a, dim, elapsed) + Estimate(b, dim, elapsed);
            parts <= Estimate(a + b, dim, elapsed) <= parts + 1
  {
    assert (a + b) * dim == a * dim + b * dim && a * dim >= 0 && b * dim >= 0;
    if elapsed > 0 {
      FloorOfSum(a * dim, b * dim, elapsed);
    }
  }

  /** Estimating part by part falls short of estimating the whole by less than one per further part. */
  lemma {:induction false} EstimatesFallShort(shares: seq<int>, dim: nat, elapsed: int)
    requires forall i :: 0 <= i < |shares| ==> shares[i] >= 0
    ensures Total(shares) >= 0
    ensures Total(Estimates(shares, dim, elapsed)) <= Estimate(Total(shares), dim, elapsed)
    ensures Estimate(Total(shares), dim, elapsed) <= Total(Estimates(shares, dim, elapsed)) + Max(0, |shares| - 1)
    decreases |shares|
  {
    hide Estimate, Estimates;
    NoEstimates(dim, elapsed);
    if shares == [] {
    } else {
      var before, last := shares[..|shares| - 1], shares[|shares| - 1];
      EstimatesFallShort(before, dim, elapsed);
      assert shares == before + [last];
      EstimateSplits(Total(before), last, dim, elapsed);
      EstimatesMore(before, last, dim, elapsed);
    }
  }

  lemma NoEstimates(dim: nat, elapsed: int)
    ensures Total(Estimates([], dim, elapsed)) == 0 == Estimate(0, dim, elapsed)
  {}

  lemma EstimatesMore(before: seq<int>, last: int, dim: nat, elapsed: int)
    ensures Total(Estimates(before + [last], dim, elapsed)) == Total(Estimates(before, dim, elapsed)) + Estimate(last, dim, elapsed)
  {
    assert Estimates(before + [last], dim, elapsed)[..|before|] == Estimates(before, dim, elapsed);
  }

  lemma ShareNonNegative(events: Events, p: string, start: int, end: int)
    requires forall id <- events :: events[id].cost >= 0
    ensures RangeTotal(Of(events, p), start, end).cost >= 0
  {
    hide Sum;
    CostNonNegative(InRange(Of(events, p), start, end));
  }

  /** The per-provider forecasts and the total one agree: spends exactly, estimates up to rounding, although the two
      count their days from different origins. */
  lemma ForecastsAgree(events: Events, ps: seq<string>, monthStart: int, todayEnd: int, dim: nat)
    requires forall i, j :: 0 <= i < j < |ps| ==> ps[i] != ps[j]
    requires forall id <- events | monthStart <= events[id].timestamp < todayEnd :: events[id].provider in ps
    requires forall id <- events :: events[id].cost >= 0
    ensures var elapsed, shares := Elapsed(monthStart, todayEnd), Shares(events, ps, monthStart, todayEnd);
            var spent := RangeTotal(events, monthStart, todayEnd).cost;
            var parts := Total(Estimates(shares, dim, elapsed));
            Total(shares) == spent && parts <= Estimate(spent, dim, elapsed) <= parts + Max(0, |ps| - 1)
  {
    hide RangeTotal;
    SharesAddUp(events, ps, monthStart, todayEnd);
    forall i | 0 <= i < |ps| ensures Shares(events, ps, monthStart, todayEnd)[i] >= 0 {
      ShareNonNegative(events, ps[i], monthStart, todayEnd);
    }
    EstimatesFallShort(Shares(events, ps, monthStart, todayEnd), dim, Elapsed(monthStart, todayEnd));
  }
}
