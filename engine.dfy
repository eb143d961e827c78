/** The financial aggregation and prediction engine of lib/utils.ts: KPI
    totals, the payment-method breakdown, the per-day time series and the
    two moving-average predictors.  The wall clock is a parameter: `now` as
    a timestamp, the weekday index and the calendar date of today. */
module Engine {
  import opened Types
  import opened Sequences

  // ------------------------------------------------------------------
  // Zero-guarded ratios
  // ------------------------------------------------------------------

  /** `part / whole * 100`, or 0 when `whole` is not positive. */
  function Percentage(part: real, whole: real): (r: real)
    ensures whole > 0.0 ==> r * whole == part * 100.0
    ensures whole <= 0.0 ==> r == 0.0
  {
    if whole > 0.0 then part / whole * 100.0 else 0.0
  }

  /** `part / whole`, or 0 when `whole` is not positive. */
  function Share(part: real, whole: real): (r: real)
    ensures whole > 0.0 ==> r * whole == part
    ensures whole <= 0.0 ==> r == 0.0
  {
    if whole > 0.0 then part / whole else 0.0
  }

  // ------------------------------------------------------------------
  // calculateKPIs
  // ------------------------------------------------------------------

  function CalculateKPIs(revenues: seq<DailyRevenue>, expenses: seq<DailyExpense>): (k: FinancialKPIs)
    ensures k.totalRevenue == Total(revenues, RevenueAmount)
    ensures k.totalExpenses == Total(expenses, ExpenseAmount)
    ensures k.netMargin == k.totalRevenue - k.totalExpenses
    ensures k.totalRevenue > 0.0 ==> k.netMarginPercentage * k.totalRevenue == k.netMargin * 100.0
    ensures k.totalRevenue <= 0.0 ==> k.netMarginPercentage == 0.0
  {
    var totalRevenue := Total(revenues, RevenueAmount);
    var totalExpenses := Total(expenses, ExpenseAmount);
    var netMargin := totalRevenue - totalExpenses;
    FinancialKPIs(totalRevenue, totalExpenses, netMargin, Percentage(netMargin, totalRevenue))
  }

  /** The totals are additive: the KPIs of two periods put together add up. */
  lemma {:induction false} KPIsOfJoinedPeriods(r1: seq<DailyRevenue>, r2: seq<DailyRevenue>,
                            e1: seq<DailyExpense>, e2: seq<DailyExpense>)
    ensures CalculateKPIs(r1 + r2, e1 + e2).totalRevenue
         == CalculateKPIs(r1, e1).totalRevenue + CalculateKPIs(r2, e2).totalRevenue
    ensures CalculateKPIs(r1 + r2, e1 + e2).totalExpenses
         == CalculateKPIs(r1, e1).totalExpenses + CalculateKPIs(r2, e2).totalExpenses
    ensures CalculateKPIs(r1 + r2, e1 + e2).netMargin
         == CalculateKPIs(r1, e1).netMargin + CalculateKPIs(r2, e2).netMargin
  {
    TotalAppend(r1, r2, RevenueAmount);
    TotalAppend(e1, e2, ExpenseAmount);
  }

  /** With non-negative expenses the margin percentage never exceeds 100, and
      it is negative exactly when expenses exceed revenue. */
  lemma {:induction false} NetMarginPercentageBounds(revenues: seq<DailyRevenue>, expenses: seq<DailyExpense>)
    requires forall i :: 0 <= i < |expenses| ==> ExpenseAmount(expenses[i]) >= 0.0
    requires Total(revenues, RevenueAmount) > 0.0
    ensures CalculateKPIs(revenues, expenses).netMarginPercentage <= 100.0
    ensures CalculateKPIs(revenues, expenses).netMarginPercentage < 0.0
        <==> Total(expenses, ExpenseAmount) > Total(revenues, RevenueAmount)
  {
    TotalNonNegative(expenses, ExpenseAmount);
    var k := CalculateKPIs(revenues, expenses);
    SignOfScaled(k.netMarginPercentage - 100.0, k.totalRevenue, -100.0 * k.totalExpenses);
    SignOfScaled(k.netMarginPercentage, k.totalRevenue, k.netMargin * 100.0);
  }

  /** `x * w == y` with `w` positive: `x` and `y` have the same sign. */
  lemma SignOfScaled(x: real, w: real, y: real)
    requires w > 0.0 && x * w == y
    ensures x <= 0.0 <==> y <= 0.0
    ensures x < 0.0 <==> y < 0.0
  {
    if x < 0.0 { assert x * w < 0.0 * w; }
    if x > 0.0 { assert x * w > 0.0 * w; }
  }

  /** One day with 1000 of cash revenue and 400 of expenses. */
  lemma KPIsExample(day: int)
    ensures CalculateKPIs(
              [DailyRevenue("r", "rest", day, 1000.0, [PaymentLine("p", Cash, 1000.0)], None, day, day)],
              [DailyExpense("e", "rest", day, 400.0, false, None, None, day, day)])
         == FinancialKPIs(1000.0, 400.0, 600.0, 60.0)
  {
    var rs := [DailyRevenue("r", "rest", day, 1000.0, [PaymentLine("p", Cash, 1000.0)], None, day, day)];
    var es := [DailyExpense("e", "rest", day, 400.0, false, None, None, day, day)];
    assert rs[..0] == [] && es[..0] == [];
    assert Total(rs, RevenueAmount) == 1000.0;
    assert Total(es, ExpenseAmount) == 400.0;
  }

  // ------------------------------------------------------------------
  // Per-method totals (the `Record<PaymentMethod, number>` accumulators)
  // ------------------------------------------------------------------

  datatype MethodTotals = MethodTotals(wave: real, orangeMoney: real, cash: real)
  {
    function Get(m: PaymentMethod): real
    {
      match m
      case Wave => wave
      case OrangeMoney => orangeMoney
      case Cash => cash
    }

    /** `totals[m] += amount` */
    function Add(m: PaymentMethod, amount: real): (t: MethodTotals)
      ensures t.Get(m) == Get(m) + amount
      ensures forall n :: n != m ==> t.Get(n) == Get(n)
    {
      match m
      case Wave => this.(wave := wave + amount)
      case OrangeMoney => this.(orangeMoney := orangeMoney + amount)
      case Cash => this.(cash := cash + amount)
    }

    /** `Object.values(totals).reduce((s, v) => s + v, 0)` */
    function Sum(): real
    {
      wave + orangeMoney + cash
    }
  }

  /** The sum of the amounts of the lines paid by `m`. */
  function MethodLineTotal(lines: seq<PaymentLine>, m: PaymentMethod): real
    decreases |lines|
  {
    if |lines| == 0 then 0.0
    else
      var last := lines[|lines| - 1];
      MethodLineTotal(lines[..|lines| - 1], m) + (if last.paymentMethod == m then last.amount else 0.0)
  }

  /** The sum of the amounts paid by `m` over all lines of all records. */
  function MethodTotal(revenues: seq<DailyRevenue>, m: PaymentMethod): real
    decreases |revenues|
  {
    if |revenues| == 0 then 0.0
    else MethodTotal(revenues[..|revenues| - 1], m) + MethodLineTotal(revenues[|revenues| - 1].paymentMethods, m)
  }

  function MethodTotalsOf(revenues: seq<DailyRevenue>): MethodTotals
  {
    MethodTotals(MethodTotal(revenues, Wave), MethodTotal(revenues, OrangeMoney), MethodTotal(revenues, Cash))
  }

  /** The sum of every payment line of every record, whatever its method. */
  function PaymentLinesTotal(revenues: seq<DailyRevenue>): real
    decreases |revenues|
  {
    if |revenues| == 0 then 0.0
    else PaymentLinesTotal(revenues[..|revenues| - 1]) + Total(revenues[|revenues| - 1].paymentMethods, PaymentLineAmount)
  }

  lemma {:induction false} MethodLineTotalsCover(lines: seq<PaymentLine>)
    ensures MethodLineTotal(lines, Wave) + MethodLineTotal(lines, OrangeMoney) + MethodLineTotal(lines, Cash)
         == Total(lines, PaymentLineAmount)
    decreases |lines|
  {
    if |lines| > 0 {
      MethodLineTotalsCover(lines[..|lines| - 1]);
    }
  }

  /** The three per-method totals account for every line: no amount is lost
      or counted twice. */
  lemma {:induction false} MethodTotalsCover(revenues: seq<DailyRevenue>)
    ensures MethodTotalsOf(revenues).Sum() == PaymentLinesTotal(revenues)
    decreases |revenues|
  {
    if |revenues| > 0 {
      MethodTotalsCover(revenues[..|revenues| - 1]);
      MethodLineTotalsCover(revenues[|revenues| - 1].paymentMethods);
    }
  }

  /** The nested `forEach` that adds every line's amount into the total of its
      method. */
  method AccumulateMethodTotals(revenues: seq<DailyRevenue>) returns (totals: MethodTotals)
    ensures totals == MethodTotalsOf(revenues)
  {
    totals := MethodTotals(0.0, 0.0, 0.0);
    var i := 0;
    while i < |revenues|
      invariant 0 <= i <= |revenues|
      invariant forall m :: totals.Get(m) == MethodTotal(revenues[..i], m)
    {
      var lines := revenues[i].paymentMethods;
      var j := 0;
      while j < |lines|
        invariant 0 <= j <= |lines|
        invariant forall m :: totals.Get(m) == MethodTotal(revenues[..i], m) + MethodLineTotal(lines[..j], m)
      {
        totals := totals.Add(lines[j].paymentMethod, lines[j].amount);
        assert lines[..j + 1][..j] == lines[..j];
        j := j + 1;
      }
      assert lines[..j] == lines;
      assert revenues[..i + 1][..i] == revenues[..i];
      i := i + 1;
    }
    assert revenues[..i] == revenues;
    assert totals.Get(Wave) == MethodTotal(revenues, Wave);
    assert totals.Get(OrangeMoney) == MethodTotal(revenues, OrangeMoney);
    assert totals.Get(Cash) == MethodTotal(revenues, Cash);
  }

  // ------------------------------------------------------------------
  // calculatePaymentMethodBreakdown
  // ------------------------------------------------------------------

  /** `Object.entries(totals).map(...)`: one row per method, in the fixed
      order, each with its share of the grand total in percent. */
  function BreakdownRows(totals: MethodTotals): (rows: seq<BreakdownRow>)
    ensures |rows| == 3
    ensures forall i :: 0 <= i < 3 ==>
              rows[i].paymentMethod == MethodOrder[i] && rows[i].amount == totals.Get(MethodOrder[i])
    ensures forall i :: 0 <= i < 3 ==> rows[i].percentage == Percentage(rows[i].amount, totals.Sum())
    ensures totals.Sum() > 0.0 ==> rows[0].percentage + rows[1].percentage + rows[2].percentage == 100.0
    ensures totals.Sum() <= 0.0 ==> forall i :: 0 <= i < 3 ==> rows[i].percentage == 0.0
  {
    var total := totals.Sum();
    var rows := [BreakdownRow(Wave, totals.wave, Percentage(totals.wave, total)),
                 BreakdownRow(OrangeMoney, totals.orangeMoney, Percentage(totals.orangeMoney, total)),
                 BreakdownRow(Cash, totals.cash, Percentage(totals.cash, total))];
    assert total > 0.0 ==> rows[0].percentage + rows[1].percentage + rows[2].percentage == 100.0 by {
      if total > 0.0 {
        calc {
          rows[0].percentage + rows[1].percentage + rows[2].percentage;
          (totals.wave / total + totals.orangeMoney / total + totals.cash / total) * 100.0;
          (totals.wave + totals.orangeMoney + totals.cash) / total * 100.0;
        }
      }
    }
    rows
  }

  method CalculatePaymentMethodBreakdown(revenues: seq<DailyRevenue>) returns (rows: seq<BreakdownRow>)
    ensures |rows| == 3
    ensures forall i :: 0 <= i < 3 ==>
              rows[i].paymentMethod == MethodOrder[i] && rows[i].amount == MethodTotal(revenues, MethodOrder[i])
    ensures rows[0].amount + rows[1].amount + rows[2].amount == PaymentLinesTotal(revenues)
    ensures forall i :: 0 <= i < 3 ==> rows[i].percentage == Percentage(rows[i].amount, PaymentLinesTotal(revenues))
    ensures PaymentLinesTotal(revenues) > 0.0 ==> rows[0].percentage + rows[1].percentage + rows[2].percentage == 100.0
    ensures PaymentLinesTotal(revenues) <= 0.0 ==> forall i :: 0 <= i < 3 ==> rows[i].percentage == 0.0
  {
    var totals := AccumulateMethodTotals(revenues);
    MethodTotalsCover(revenues);
    rows := BreakdownRows(totals);
  }

  /** With no records every row is zero. */
  lemma EmptyBreakdown()
    ensures BreakdownRows(MethodTotalsOf([])) ==
      [BreakdownRow(Wave, 0.0, 0.0), BreakdownRow(OrangeMoney, 0.0, 0.0), BreakdownRow(Cash, 0.0, 0.0)]
  {
  }

  // ------------------------------------------------------------------
  // generateRevenueTimeSeries
  // ------------------------------------------------------------------

  /** How many times the day-stepping loop runs from `startDate` while the
      current date is at most `endDate`. */
  function DaysSpanned(startDate: int, endDate: int): nat
  {
    if startDate <= endDate then (endDate - startDate) / MsPerDay + 1 else 0
  }

  /** The sum of `amount` over the records that fall on calendar day `d`. */
  function TotalOnDay<T>(xs: seq<T>, date: T -> int, amount: T -> real, d: int): real
    decreases |xs|
  {
    if |xs| == 0 then 0.0
    else
      var last := xs[|xs| - 1];
      TotalOnDay(xs[..|xs| - 1], date, amount, d) + (if DayOf(date(last)) == d then amount(last) else 0.0)
  }

  /** The test "falls on one of the `count` days from day `first`". */
  function WithinDays<T>(date: T -> int, first: int, count: int): T -> bool
  {
    x => first <= DayOf(date(x)) < first + count
  }

  /** The sum of the day totals of the `count` days from day `first`. */
  function DaysTotal<T>(xs: seq<T>, date: T -> int, amount: T -> real, first: int, count: nat): real
    decreases count
  {
    if count == 0 then 0.0
    else DaysTotal(xs, date, amount, first, count - 1) + TotalOnDay(xs, date, amount, first + count - 1)
  }

  lemma {:induction false} DaysTotalSnoc<T>(xs: seq<T>, x: T, date: T -> int, amount: T -> real, first: int, count: nat)
    ensures DaysTotal(xs + [x], date, amount, first, count)
         == DaysTotal(xs, date, amount, first, count)
            + (if first <= DayOf(date(x)) < first + count then amount(x) else 0.0)
    decreases count
  {
    if count > 0 {
      DaysTotalSnoc(xs, x, date, amount, first, count - 1);
      assert (xs + [x])[..|xs + [x]| - 1] == xs;
    }
  }

  /** Adding up the day buckets gives the total of exactly the records that
      fall inside the range: records outside it are ignored. */
  lemma {:induction false} DaysTotalIsTotalWithin<T>(xs: seq<T>, date: T -> int, amount: T -> real, first: int, count: nat)
    ensures DaysTotal(xs, date, amount, first, count)
         == Total(Filter(xs, WithinDays(date, first, count)), amount)
    decreases |xs|
  {
    var p := WithinDays(date, first, count);
    if |xs| == 0 {
      assert DaysTotal(xs, date, amount, first, count) == 0.0 by {
        DaysTotalOfNothing(date, amount, first, count);
      }
    } else {
      var init, last := xs[..|xs| - 1], xs[|xs| - 1];
      DaysTotalIsTotalWithin(init, date, amount, first, count);
      DaysTotalSnoc(init, last, date, amount, first, count);
      assert init + [last] == xs;
      TotalAppend(Filter(init, p), if p(last) then [last] else [], amount);
      assert Total([last], amount) == amount(last) by {
        assert [last][..0] == [];
      }
    }
  }

  lemma {:induction false} DaysTotalOfNothing<T>(date: T -> int, amount: T -> real, first: int, count: nat)
    ensures DaysTotal([], date, amount, first, count) == 0.0
    decreases count
  {
    if count > 0 {
      DaysTotalOfNothing(date, amount, first, count - 1);
    }
  }

  /** The sum of a selected field over points whose field holds the day
      totals is the sum of those day totals. */
  lemma {:induction false} PointsTotal<T>(series: seq<TimeSeriesPoint>, field: TimeSeriesPoint -> real,
                                          xs: seq<T>, date: T -> int, amount: T -> real, first: int)
    requires forall k :: 0 <= k < |series| ==> field(series[k]) == TotalOnDay(xs, date, amount, first + k)
    ensures Total(series, field) == DaysTotal(xs, date, amount, first, |series|)
    decreases |series|
  {
    if |series| > 0 {
      var init := series[..|series| - 1];
      PointsTotal(init, field, xs, date, amount, first);
    }
  }

  /** `q` is the floor of `x / MsPerDay` when `x` lies in the q-th day. */
  lemma QuotientOfDay(x: int, q: int)
    requires q * MsPerDay <= x < q * MsPerDay + MsPerDay
    ensures x / MsPerDay == q
  {
  }

  /** Stepping a timestamp by whole days steps its calendar day alike. */
  lemma DayOfShifted(t: int, n: int)
    ensures DayOf(t + n * MsPerDay) == DayOf(t) + n
  {
    var q := t / MsPerDay;
    assert q * MsPerDay <= t < q * MsPerDay + MsPerDay;
    assert (q + n) * MsPerDay == q * MsPerDay + n * MsPerDay;
    QuotientOfDay(t + n * MsPerDay, q + n);
  }

  datatype Bucket = Bucket(revenue: real, expenses: real)

  /** The first loop of generateRevenueTimeSeries: one empty bucket for every
      day stepped through from `startDate` while at most `endDate`. */
  method EmptyBuckets(startDate: int, endDate: int) returns (buckets: map<int, Bucket>, n: nat)
    ensures n == DaysSpanned(startDate, endDate)
    ensures forall d :: d in buckets <==> DayOf(startDate) <= d < DayOf(startDate) + n
    ensures forall d :: d in buckets ==> buckets[d] == Bucket(0.0, 0.0)
  {
    var first := DayOf(startDate);
    buckets := map[];
    var currentDate := startDate;
    n := 0;
    while currentDate <= endDate
      invariant currentDate == startDate + n * MsPerDay
      invariant n == 0 || startDate + (n - 1) * MsPerDay <= endDate
      invariant forall d :: d in buckets <==> first <= d < first + n
      invariant forall d :: d in buckets ==> buckets[d] == Bucket(0.0, 0.0)
      decreases endDate - currentDate
    {
      var key := DayOf(currentDate);
      DayOfShifted(startDate, n);
      buckets := buckets[key := Bucket(0.0, 0.0)];
      currentDate := currentDate + MsPerDay;
      n := n + 1;
    }
    if startDate <= endDate {
      assert (n - 1) * MsPerDay <= endDate - startDate < (n - 1) * MsPerDay + MsPerDay;
      QuotientOfDay(endDate - startDate, n - 1);
    }
  }

  /** The second loop: each revenue whose day has a bucket is added to that
      bucket's revenue; the others are dropped. */
  method AddRevenues(buckets0: map<int, Bucket>, revenues: seq<DailyRevenue>) returns (buckets: map<int, Bucket>)
    ensures buckets.Keys == buckets0.Keys
    ensures forall d :: d in buckets ==>
              && buckets[d].revenue == buckets0[d].revenue + TotalOnDay(revenues, RevenueDate, RevenueAmount, d)
              && buckets[d].expenses == buckets0[d].expenses
  {
    buckets := buckets0;
    var i := 0;
    while i < |revenues|
      invariant 0 <= i <= |revenues|
      invariant buckets.Keys == buckets0.Keys
      invariant forall d :: d in buckets ==>
                  && buckets[d].revenue == buckets0[d].revenue + TotalOnDay(revenues[..i], RevenueDate, RevenueAmount, d)
                  && buckets[d].expenses == buckets0[d].expenses
    {
      var key := DayOf(revenues[i].date);
      if key in buckets {
        var existing := buckets[key];
        buckets := buckets[key := existing.(revenue := existing.revenue + revenues[i].totalAmount)];
      }
      assert revenues[..i + 1][..i] == revenues[..i];
      i := i + 1;
    }
    assert revenues[..i] == revenues;
  }

  /** The third loop, the same for expenses. */
  method AddExpenses(buckets0: map<int, Bucket>, expenses: seq<DailyExpense>) returns (buckets: map<int, Bucket>)
    ensures buckets.Keys == buckets0.Keys
    ensures forall d :: d in buckets ==>
              && buckets[d].revenue == buckets0[d].revenue
              && buckets[d].expenses == buckets0[d].expenses + TotalOnDay(expenses, ExpenseDate, ExpenseAmount, d)
  {
    buckets := buckets0;
    var i := 0;
    while i < |expenses|
      invariant 0 <= i <= |expenses|
      invariant buckets.Keys == buckets0.Keys
      invariant forall d :: d in buckets ==>
                  && buckets[d].revenue == buckets0[d].revenue
                  && buckets[d].expenses == buckets0[d].expenses + TotalOnDay(expenses[..i], ExpenseDate, ExpenseAmount, d)
    {
      var key := DayOf(expenses[i].date);
      if key in buckets {
        var existing := buckets[key];
        buckets := buckets[key := existing.(expenses := existing.expenses + expenses[i].totalAmount)];
      }
      assert expenses[..i + 1][..i] == expenses[..i];
      i := i + 1;
    }
    assert expenses[..i] == expenses;
  }

  /** A series whose points hold the day totals from day `first` on adds up
      to the totals of the records within those days. */
  lemma SeriesTotals(series: seq<TimeSeriesPoint>, revenues: seq<DailyRevenue>, expenses: seq<DailyExpense>, first: int)
    requires forall k :: 0 <= k < |series| ==>
               && series[k].revenue == TotalOnDay(revenues, RevenueDate, RevenueAmount, first + k)
               && series[k].expenses == TotalOnDay(expenses, ExpenseDate, ExpenseAmount, first + k)
    ensures Total(series, PointRevenue)
         == Total(Filter(revenues, WithinDays(RevenueDate, first, |series|)), RevenueAmount)
    ensures Total(series, PointExpenses)
         == Total(Filter(expenses, WithinDays(ExpenseDate, first, |series|)), ExpenseAmount)
  {
    PointsTotal(series, PointRevenue, revenues, RevenueDate, RevenueAmount, first);
    DaysTotalIsTotalWithin(revenues, RevenueDate, RevenueAmount, first, |series|);
    PointsTotal(series, PointExpenses, expenses, ExpenseDate, ExpenseAmount, first);
    DaysTotalIsTotalWithin(expenses, ExpenseDate, ExpenseAmount, first, |series|);
  }

  /** The keys are consecutive days, so listing them in ascending order is
      listing them by offset from the first day. */
  function SeriesOf(buckets: map<int, Bucket>, first: int, n: nat): (series: seq<TimeSeriesPoint>)
    requires forall d :: first <= d < first + n ==> d in buckets
    ensures |series| == n
    ensures forall k :: 0 <= k < n ==>
              series[k] == TimeSeriesPoint(first + k, buckets[first + k].revenue, buckets[first + k].expenses,
                                           buckets[first + k].revenue - buckets[first + k].expenses)
  {
    seq(n, k requires 0 <= k < n =>
      var b := buckets[first + k];
      TimeSeriesPoint(first + k, b.revenue, b.expenses, b.revenue - b.expenses))
  }

  /** From a midnight, the days stepped through are the calendar days from
      the first to the last, both included. */
  lemma AlignedDaysSpanned(startDate: int, endDate: int)
    requires startDate <= endDate && startDate % MsPerDay == 0
    ensures DaysSpanned(startDate, endDate) == DayOf(endDate) - DayOf(startDate) + 1
  {
    DayOfShifted(endDate - startDate, DayOf(startDate));
    assert startDate == DayOf(startDate) * MsPerDay;
  }

  /** One point per day from `startDate` to `endDate`, in ascending order,
      holding the revenue and expenses recorded on that day and their
      difference. */
  method GenerateRevenueTimeSeries(revenues: seq<DailyRevenue>, expenses: seq<DailyExpense>,
                                   startDate: int, endDate: int)
    returns (series: seq<TimeSeriesPoint>)
    ensures |series| == DaysSpanned(startDate, endDate)
    ensures startDate > endDate ==> series == []
    ensures startDate <= endDate && startDate % MsPerDay == 0 ==>
              |series| == DayOf(endDate) - DayOf(startDate) + 1
    ensures forall k :: 0 <= k < |series| ==> series[k].day == DayOf(startDate) + k
    ensures forall j, k :: 0 <= j < k < |series| ==> series[j].day < series[k].day
    ensures forall k :: 0 <= k < |series| ==>
              && series[k].revenue == TotalOnDay(revenues, RevenueDate, RevenueAmount, series[k].day)
              && series[k].expenses == TotalOnDay(expenses, ExpenseDate, ExpenseAmount, series[k].day)
              && series[k].netMargin == series[k].revenue - series[k].expenses
    ensures Total(series, PointRevenue)
         == Total(Filter(revenues, WithinDays(RevenueDate, DayOf(startDate), |series|)), RevenueAmount)
    ensures Total(series, PointExpenses)
         == Total(Filter(expenses, WithinDays(ExpenseDate, DayOf(startDate), |series|)), ExpenseAmount)
  {
    var first := DayOf(startDate);
    var empty, n := EmptyBuckets(startDate, endDate);
    var withRevenues := AddRevenues(empty, revenues);
    var buckets := AddExpenses(withRevenues, expenses);
    assert forall d :: d in buckets <==> first <= d < first + n;
    assert forall d :: d in buckets ==>
             && buckets[d].revenue == TotalOnDay(revenues, RevenueDate, RevenueAmount, d)
             && buckets[d].expenses == TotalOnDay(expenses, ExpenseDate, ExpenseAmount, d);

    series := SeriesOf(buckets, first, n);
    forall k | 0 <= k < |series|
      ensures series[k].day == first + k
      ensures series[k].revenue == TotalOnDay(revenues, RevenueDate, RevenueAmount, series[k].day)
      ensures series[k].expenses == TotalOnDay(expenses, ExpenseDate, ExpenseAmount, series[k].day)
      ensures series[k].netMargin == series[k].revenue - series[k].expenses
    {
      assert first + k in buckets;
    }
    SeriesTotals(series, revenues, expenses, first);
    if startDate <= endDate && startDate % MsPerDay == 0 {
      AlignedDaysSpanned(startDate, endDate);
    }
  }

  // ------------------------------------------------------------------
  // predictWeekRevenue / predictMonthRevenue
  // ------------------------------------------------------------------

  /** The test "dated at or after `cutoff`". */
  function OnOrAfter<T>(date: T -> int, cutoff: int): T -> bool
  {
    x => date(x) >= cutoff
  }

  /** The trailing window: the records dated no earlier than `days` days
      before `now`, in input order, cut to the first `cap` of them. */
  function RecentWindow<T(!new)>(xs: seq<T>, date: T -> int, now: int, days: nat, cap: nat): (w: seq<T>)
    ensures var recent := Filter(xs, OnOrAfter(date, now - days * MsPerDay));
            && |w| == (if |recent| < cap then |recent| else cap)
            && w == recent[..|w|]
    ensures forall x :: x in w ==> x in xs && date(x) >= now - days * MsPerDay
  {
    var recent := Filter(xs, OnOrAfter(date, now - days * MsPerDay));
    FilterMultiset(xs, OnOrAfter(date, now - days * MsPerDay));
    var w := if |recent| < cap then recent else recent[..cap];
    assert forall x :: x in w ==> x in recent;
    w
  }

  /** The mean of `amount` over `xs`, or 0 for no records. */
  function Average<T>(xs: seq<T>, amount: T -> real): (r: real)
    ensures |xs| == 0 ==> r == 0.0
    ensures |xs| > 0 ==> r * |xs| as real == Total(xs, amount)
  {
    if |xs| > 0 then Total(xs, amount) / |xs| as real else 0.0
  }

  /** `predictedRevenue * share` for each method, in the fixed order. */
  function MethodPredictions(totals: MethodTotals, predictedRevenue: real): (ps: seq<MethodPrediction>)
    ensures |ps| == 3
    ensures forall i :: 0 <= i < 3 ==> ps[i].paymentMethod == MethodOrder[i]
    ensures totals.Sum() > 0.0 ==>
              forall i :: 0 <= i < 3 ==> ps[i].predictedAmount * totals.Sum() == predictedRevenue * totals.Get(MethodOrder[i])
    ensures totals.Sum() > 0.0 ==> Total(ps, PredictedAmount) == predictedRevenue
    ensures totals.Sum() <= 0.0 ==> forall i :: 0 <= i < 3 ==> ps[i].predictedAmount == 0.0
  {
    var total := totals.Sum();
    var ps := [MethodPrediction(Wave, predictedRevenue * Share(totals.wave, total)),
               MethodPrediction(OrangeMoney, predictedRevenue * Share(totals.orangeMoney, total)),
               MethodPrediction(Cash, predictedRevenue * Share(totals.cash, total))];
    TotalOfThree(ps[0], ps[1], ps[2], PredictedAmount);
    assert total > 0.0 ==> Total(ps, PredictedAmount) == predictedRevenue by {
      if total > 0.0 {
        calc {
          ps[0].predictedAmount + ps[1].predictedAmount + ps[2].predictedAmount;
          predictedRevenue * (totals.wave / total + totals.orangeMoney / total + totals.cash / total);
          predictedRevenue * ((totals.wave + totals.orangeMoney + totals.cash) / total);
        }
      }
    }
    ps
  }

  /** The prediction record built from the predicted revenue and expenses
      of the remaining days and the per-method totals of the revenue window:
      the margin, its percentage, and the predicted revenue split by each
      method's share. */
  function PredictionFrom(kind: PredictionKind, predictedRevenue: real, predictedExpenses: real,
                          totals: MethodTotals): (p: Prediction)
    ensures p.kind == kind
    ensures p.predictedRevenue == predictedRevenue && p.predictedExpenses == predictedExpenses
    ensures p.predictedNetMargin == predictedRevenue - predictedExpenses
    ensures predictedRevenue > 0.0 ==>
              p.predictedNetMarginPercentage * predictedRevenue == p.predictedNetMargin * 100.0
    ensures predictedRevenue <= 0.0 ==> p.predictedNetMarginPercentage == 0.0
    ensures |p.paymentMethodPredictions| == 3
    ensures forall i :: 0 <= i < 3 ==> p.paymentMethodPredictions[i].paymentMethod == MethodOrder[i]
    ensures totals.Sum() > 0.0 ==> Total(p.paymentMethodPredictions, PredictedAmount) == predictedRevenue
    ensures totals.Sum() <= 0.0 || predictedRevenue == 0.0 ==>
              forall i :: 0 <= i < 3 ==> p.paymentMethodPredictions[i].predictedAmount == 0.0
  {
    var predictedNetMargin := predictedRevenue - predictedExpenses;
    var ps := MethodPredictions(totals, predictedRevenue);
    assert predictedRevenue == 0.0 ==> forall i :: 0 <= i < 3 ==> ps[i].predictedAmount == 0.0 by {
      if predictedRevenue == 0.0 && totals.Sum() > 0.0 {
        forall i | 0 <= i < 3 ensures ps[i].predictedAmount == 0.0 {
          assert ps[i].predictedAmount * totals.Sum() == 0.0;
        }
      }
    }
    Prediction(kind, predictedRevenue, predictedExpenses, predictedNetMargin,
               Percentage(predictedNetMargin, predictedRevenue), ps)
  }

  /** The prediction over the remaining `remainingDays` days of the period
      from the windows of recent revenues and expenses: each daily average
      times the number of days left. */
  function Forecast(kind: PredictionKind, revenueWindow: seq<DailyRevenue>, expenseWindow: seq<DailyExpense>,
                    remainingDays: int): (p: Prediction)
    ensures p.predictedRevenue == Average(revenueWindow, RevenueAmount) * remainingDays as real
    ensures p.predictedExpenses == Average(expenseWindow, ExpenseAmount) * remainingDays as real
    ensures PaymentLinesTotal(revenueWindow) > 0.0 ==>
              Total(p.paymentMethodPredictions, PredictedAmount) == p.predictedRevenue
    ensures remainingDays == 0 ==>
              && p.predictedRevenue == 0.0 && p.predictedExpenses == 0.0
              && p.predictedNetMargin == 0.0 && p.predictedNetMarginPercentage == 0.0
              && forall i :: 0 <= i < |p.paymentMethodPredictions| ==> p.paymentMethodPredictions[i].predictedAmount == 0.0
  {
    MethodTotalsCover(revenueWindow);
    PredictionFrom(kind, Average(revenueWindow, RevenueAmount) * remainingDays as real,
                   Average(expenseWindow, ExpenseAmount) * remainingDays as real,
                   MethodTotalsOf(revenueWindow))
  }

  /** Forecast, unfolded one step. */
  lemma ForecastIs(kind: PredictionKind, revenueWindow: seq<DailyRevenue>, expenseWindow: seq<DailyExpense>,
                   remainingDays: int, predictedRevenue: real, predictedExpenses: real, totals: MethodTotals)
    requires predictedRevenue == Average(revenueWindow, RevenueAmount) * remainingDays as real
    requires predictedExpenses == Average(expenseWindow, ExpenseAmount) * remainingDays as real
    requires totals == MethodTotalsOf(revenueWindow)
    ensures Forecast(kind, revenueWindow, expenseWindow, remainingDays)
         == PredictionFrom(kind, predictedRevenue, predictedExpenses, totals)
  {
  }

  /** With no recent records every prediction is zero. */
  lemma ForecastWithoutHistory(kind: PredictionKind, remainingDays: int)
    ensures Forecast(kind, [], [], remainingDays)
         == Prediction(kind, 0.0, 0.0, 0.0, 0.0,
                       [MethodPrediction(Wave, 0.0), MethodPrediction(OrangeMoney, 0.0), MethodPrediction(Cash, 0.0)])
  {
    assert Average([], RevenueAmount) == 0.0 && Average([], ExpenseAmount) == 0.0;
    assert MethodTotalsOf([]) == MethodTotals(0.0, 0.0, 0.0);
    var p := PredictionFrom(kind, 0.0, 0.0, MethodTotals(0.0, 0.0, 0.0));
    assert p.paymentMethodPredictions
        == [MethodPrediction(Wave, 0.0), MethodPrediction(OrangeMoney, 0.0), MethodPrediction(Cash, 0.0)];
  }

  method PredictWeekRevenue(revenues: seq<DailyRevenue>, expenses: seq<DailyExpense>, now: int, weekday: int)
    returns (p: Prediction)
    requires 0 <= weekday <= 6
    ensures 1 <= 7 - weekday <= 7
    ensures p.kind == Week
    ensures p == Forecast(Week, RecentWindow(revenues, RevenueDate, now, 7, 7),
                          RecentWindow(expenses, ExpenseDate, now, 7, 7), 7 - weekday)
  {
    var last7Days := RecentWindow(revenues, RevenueDate, now, 7, 7);
    var last7DaysExpenses := RecentWindow(expenses, ExpenseDate, now, 7, 7);
    var daysRemainingInWeek := 7 - weekday;
    var predictedRevenue := Average(last7Days, RevenueAmount) * daysRemainingInWeek as real;
    var predictedExpenses := Average(last7DaysExpenses, ExpenseAmount) * daysRemainingInWeek as real;
    var paymentMethodTotals := AccumulateMethodTotals(last7Days);
    p := PredictionFrom(Week, predictedRevenue, predictedExpenses, paymentMethodTotals);
    ForecastIs(Week, last7Days, last7DaysExpenses, daysRemainingInWeek, predictedRevenue, predictedExpenses, paymentMethodTotals);
  }

  predicate IsLeapYear(year: int)
  {
    year % 4 == 0 && (year % 100 != 0 || year % 400 == 0)
  }

  /** The number of days of month `month` (1 to 12) of the Gregorian
      calendar. */
  function DaysInMonth(year: int, month: int): (n: int)
    requires 1 <= month <= 12
    ensures 28 <= n <= 31
    ensures month == 2 ==> (n == 29 <==> IsLeapYear(year))
    ensures month != 2 ==> (n == 30 <==> month in {4, 6, 9, 11})
  {
    if month == 2 then (if IsLeapYear(year) then 29 else 28)
    else if month == 4 || month == 6 || month == 9 || month == 11 then 30
    else 31
  }

  method PredictMonthRevenue(revenues: seq<DailyRevenue>, expenses: seq<DailyExpense>, now: int,
                             year: int, month: int, dayOfMonth: int)
    returns (p: Prediction)
    requires 1 <= month <= 12
    requires 1 <= dayOfMonth <= DaysInMonth(year, month)
    ensures 0 <= DaysInMonth(year, month) - dayOfMonth <= 30
    ensures p.kind == Month
    ensures p == Forecast(Month, RecentWindow(revenues, RevenueDate, now, 30, 30),
                          RecentWindow(expenses, ExpenseDate, now, 30, 30), DaysInMonth(year, month) - dayOfMonth)
    ensures dayOfMonth == DaysInMonth(year, month) ==>
              p.predictedRevenue == 0.0 && p.predictedExpenses == 0.0 && p.predictedNetMargin == 0.0
  {
    var last30Days := RecentWindow(revenues, RevenueDate, now, 30, 30);
    var last30DaysExpenses := RecentWindow(expenses, ExpenseDate, now, 30, 30);
    var daysRemainingInMonth := DaysInMonth(year, month) - dayOfMonth;
    var predictedRevenue := Average(last30Days, RevenueAmount) * daysRemainingInMonth as real;
    var predictedExpenses := Average(last30DaysExpenses, ExpenseAmount) * daysRemainingInMonth as real;
    var paymentMethodTotals := AccumulateMethodTotals(last30Days);
    p := PredictionFrom(Month, predictedRevenue, predictedExpenses, paymentMethodTotals);
    ForecastIs(Month, last30Days, last30DaysExpenses, daysRemainingInMonth, predictedRevenue, predictedExpenses, paymentMethodTotals);
  }
}
