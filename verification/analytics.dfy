/**
 * `Rapid_Pay_Analytics`: sums and counts over the reporting table. Each SQL
 * aggregate becomes a recursive function over the rows; an empty `SUM` is
 * read as 0, as `floatval(NULL)` is. Window bounds are inclusive at both
 * ends. The chart series and the per-method totals are built by loops, as
 * in the source.
 */
module Analytics {
  import opened Common
  import opened Records

  // ---------------------------------------------------------------------
  // Aggregates
  // ---------------------------------------------------------------------

  /** A completed row created within `[lo, hi]`. */
  predicate Earns(r: Record, lo: int, hi: int) {
    r.status == Completed && lo <= r.createdAt <= hi
  }

  ghost predicate NonNegativeAmounts(rows: seq<Record>) {
    forall i :: 0 <= i < |rows| ==> rows[i].amount >= 0
  }

  /** `SUM(amount) WHERE status = 'completed' AND created_at >= lo AND
      created_at <= hi`. */
  function WindowEarnings(rows: seq<Record>, lo: int, hi: int): (sum: int)
    ensures NonNegativeAmounts(rows) ==> sum >= 0
  {
    if rows == [] then 0
    else
      assert NonNegativeAmounts(rows) ==> NonNegativeAmounts(rows[1..]);
      (if Earns(rows[0], lo, hi) then rows[0].amount else 0) + WindowEarnings(rows[1..], lo, hi)
  }

  /** `SUM(amount) WHERE status = 'completed'`, whatever the date. */
  function TotalEarnings(rows: seq<Record>): (sum: int)
    ensures NonNegativeAmounts(rows) ==> sum >= 0
  {
    if rows == [] then 0
    else
      assert NonNegativeAmounts(rows) ==> NonNegativeAmounts(rows[1..]);
      (if rows[0].status == Completed then rows[0].amount else 0) + TotalEarnings(rows[1..])
  }

  /** `COUNT(*) WHERE created_at >= lo AND created_at <= hi`, any status. */
  function WindowCount(rows: seq<Record>, lo: int, hi: int): (n: nat)
    ensures n <= |rows|
  {
    if rows == [] then 0
    else (if lo <= rows[0].createdAt <= hi then 1 else 0) + WindowCount(rows[1..], lo, hi)
  }

  /** `COUNT(*) WHERE status IN statuses`. */
  function StatusCount(rows: seq<Record>, statuses: set<string>): (n: nat)
    ensures n <= |rows|
  {
    if rows == [] then 0
    else (if rows[0].status in statuses then 1 else 0) + StatusCount(rows[1..], statuses)
  }

  /** `SUM(amount) WHERE status = 'completed'` for one payment method. */
  function MethodEarnings(rows: seq<Record>, m: string): (sum: int)
    ensures NonNegativeAmounts(rows) ==> 0 <= sum <= TotalEarnings(rows)
  {
    if rows == [] then 0
    else
      assert NonNegativeAmounts(rows) ==> NonNegativeAmounts(rows[1..]);
      var own := if rows[0].status == Completed && rows[0].paymentMethod == m then rows[0].amount else 0;
      own + MethodEarnings(rows[1..], m)
  }

  /** No matching row: the sum is 0, never undefined. */
  lemma {:induction false} WindowEarningsEmpty(rows: seq<Record>, lo: int, hi: int)
    requires forall i :: 0 <= i < |rows| ==> !Earns(rows[i], lo, hi)
    ensures WindowEarnings(rows, lo, hi) == 0
  {
    if rows != [] {
      assert forall i :: 0 <= i < |rows[1..]| ==> rows[1..][i] == rows[i + 1];
      WindowEarningsEmpty(rows[1..], lo, hi);
    }
  }

  /** Adjacent windows add up: `[lo, hi]` split after `mid`. */
  lemma {:induction false} WindowEarningsSplit(rows: seq<Record>, lo: int, mid: int, hi: int)
    requires lo - 1 <= mid <= hi
    ensures WindowEarnings(rows, lo, hi) == WindowEarnings(rows, lo, mid) + WindowEarnings(rows, mid + 1, hi)
  {
    if rows != [] {
      WindowEarningsSplit(rows[1..], lo, mid, hi);
    }
  }

  /** With non-negative amounts, a wider window never earns less. */
  lemma {:induction false} WindowEarningsMonotone(rows: seq<Record>, lo: int, hi: int, lo': int, hi': int)
    requires NonNegativeAmounts(rows)
    requires lo' <= lo && hi <= hi'
    ensures WindowEarnings(rows, lo, hi) <= WindowEarnings(rows, lo', hi')
  {
    if rows != [] {
      assert NonNegativeAmounts(rows[1..]);
      WindowEarningsMonotone(rows[1..], lo, hi, lo', hi');
    }
  }

  /** With non-negative amounts, no window earns more than the total. */
  lemma {:induction false} WindowEarningsWithinTotal(rows: seq<Record>, lo: int, hi: int)
    requires NonNegativeAmounts(rows)
    ensures WindowEarnings(rows, lo, hi) <= TotalEarnings(rows)
  {
    if rows != [] {
      assert NonNegativeAmounts(rows[1..]);
      WindowEarningsWithinTotal(rows[1..], lo, hi);
    }
  }

  /** Changing the amount of one counted row changes the window's sum by
      exactly the difference. */
  lemma {:induction false} WindowEarningsAmountChange(rows: seq<Record>, i: nat, amount: int, lo: int, hi: int)
    requires i < |rows| && Earns(rows[i], lo, hi)
    ensures WindowEarnings(rows[i := rows[i].(amount := amount)], lo, hi)
      == WindowEarnings(rows, lo, hi) - rows[i].amount + amount
  {
    var rows' := rows[i := rows[i].(amount := amount)];
    if i == 0 {
      assert rows'[1..] == rows[1..];
    } else {
      assert rows'[1..] == rows[1..][i - 1 := rows[i].(amount := amount)];
      WindowEarningsAmountChange(rows[1..], i - 1, amount, lo, hi);
    }
  }

  // ---------------------------------------------------------------------
  // Fixed windows and the daily series
  // ---------------------------------------------------------------------

  /** The calendar facts `gmdate`/`strtotime` supply, as day numbers: today,
      this week's Monday and Sunday, this month's first and last day. */
  datatype Calendar = Calendar(today: int, weekFirst: int, weekLast: int, monthFirst: int, monthLast: int)

  /** Today lies in this week and in this month. */
  ghost predicate Consistent(c: Calendar) {
    c.weekFirst <= c.today <= c.weekLast && c.monthFirst <= c.today <= c.monthLast
  }

  /** Completed earnings of one calendar day. */
  function DayEarnings(rows: seq<Record>, d: int): int {
    WindowEarnings(rows, DayStart(d), DayEnd(d))
  }

  /** Day numbers `first, first + 1, ..., first + n - 1`. */
  function DayRange(first: int, n: nat): seq<int> {
    seq(n, k requires 0 <= k < n => first + k)
  }

  /** Earnings of each of the `n` days starting at day `first`. */
  function DailySeries(rows: seq<Record>, first: int, n: nat): (r: seq<int>)
    ensures |r| == n
  {
    seq(n, k requires 0 <= k < n => DayEarnings(rows, first + k))
  }

  function SumSeq(s: seq<int>): int {
    if s == [] then 0 else SumSeq(s[..|s| - 1]) + s[|s| - 1]
  }

  /** The day windows are disjoint and leave no gaps, so the series of `n`
      days sums to the earnings of the whole span. */
  lemma {:induction false} DailySeriesSum(rows: seq<Record>, first: int, n: nat)
    requires n >= 1
    ensures SumSeq(DailySeries(rows, first, n)) == WindowEarnings(rows, DayStart(first), DayEnd(first + n - 1))
  {
    var s := DailySeries(rows, first, n);
    if n == 1 {
      assert s[..0] == [];
      assert SumSeq(s) == DayEarnings(rows, first);
    } else {
      assert s[..n - 1] == DailySeries(rows, first, n - 1);
      DailySeriesSum(rows, first, n - 1);
      assert DayEnd(first + n - 2) + 1 == DayStart(first + n - 1);
      assert SumSeq(s) == SumSeq(s[..n - 1]) + DayEarnings(rows, first + n - 1);
      WindowEarningsSplit(rows, DayStart(first), DayEnd(first + n - 2), DayEnd(first + n - 1));
    }
  }

  /** `get_chart_data(days)`: for `i` from `days - 1` down to 0, append the
      day `today - i` and its completed earnings. Labels are day numbers. */
  method GetChartData(rows: seq<Record>, today: int, days: int) returns (labels: seq<int>, data: seq<int>)
    ensures var n := if days > 0 then days else 0;
      && |labels| == n
      && (forall k :: 0 <= k < n ==> labels[k] == today - n + 1 + k)
      && data == DailySeries(rows, today - n + 1, n)
    ensures days > 0 ==> labels[0] == today - days + 1 && labels[|labels| - 1] == today
  {
    labels, data := [], [];
    var i := days - 1;
    while i >= 0
      invariant days <= 0 ==> i == days - 1 && labels == [] && data == []
      invariant days > 0 ==> -1 <= i <= days - 1
      invariant days > 0 ==> |labels| == days - 1 - i
      invariant days > 0 ==> forall k :: 0 <= k < |labels| ==> labels[k] == today - days + 1 + k
      invariant days > 0 ==> data == DailySeries(rows, today - days + 1, days - 1 - i)
    {
      var day := today - i;
      labels := labels + [day];
      data := data + [DayEarnings(rows, day)];
      i := i - 1;
    }
  }

  /** The figures of the dashboard's cards and chart. */
  datatype WindowReport = WindowReport(
    today: int, week: int, month: int, total: int,
    chartLabels: seq<int>, chartData: seq<int>)

  const ChartDays: nat := 30

  /** What `get_analytics_data` reports for calendar `c`. */
  function WindowFigures(rows: seq<Record>, c: Calendar): WindowReport {
    WindowReport(
      DayEarnings(rows, c.today),
      WindowEarnings(rows, DayStart(c.weekFirst), DayEnd(c.weekLast)),
      WindowEarnings(rows, DayStart(c.monthFirst), DayEnd(c.monthLast)),
      TotalEarnings(rows),
      DayRange(c.today - ChartDays + 1, ChartDays),
      DailySeries(rows, c.today - ChartDays + 1, ChartDays))
  }

  /** `get_analytics_data`: the four window sums and the 30-day chart. */
  method GetAnalyticsData(rows: seq<Record>, c: Calendar) returns (report: WindowReport)
    ensures report == WindowFigures(rows, c)
  {
    var todayEarnings := DayEarnings(rows, c.today);
    var weekEarnings := WindowEarnings(rows, DayStart(c.weekFirst), DayEnd(c.weekLast));
    var monthEarnings := WindowEarnings(rows, DayStart(c.monthFirst), DayEnd(c.monthLast));
    var totalEarnings := TotalEarnings(rows);
    var labels, data := GetChartData(rows, c.today, ChartDays);
    assert labels == DayRange(c.today - ChartDays + 1, ChartDays);
    report := WindowReport(todayEarnings, weekEarnings, monthEarnings, totalEarnings, labels, data);
  }

  /** With non-negative amounts: today <= week <= total and
      today <= month <= total, and the chart sums to the last 30 days. */
  lemma WindowFiguresOrdered(rows: seq<Record>, c: Calendar)
    requires NonNegativeAmounts(rows) && Consistent(c)
    ensures var r := WindowFigures(rows, c);
      && 0 <= r.today <= r.week <= r.total
      && r.today <= r.month <= r.total
      && SumSeq(r.chartData) == WindowEarnings(rows, DayStart(c.today - ChartDays + 1), DayEnd(c.today))
  {
    WindowEarningsMonotone(rows, DayStart(c.today), DayEnd(c.today), DayStart(c.weekFirst), DayEnd(c.weekLast));
    WindowEarningsMonotone(rows, DayStart(c.today), DayEnd(c.today), DayStart(c.monthFirst), DayEnd(c.monthLast));
    WindowEarningsWithinTotal(rows, DayStart(c.weekFirst), DayEnd(c.weekLast));
    WindowEarningsWithinTotal(rows, DayStart(c.monthFirst), DayEnd(c.monthLast));
    DailySeriesSum(rows, c.today - ChartDays + 1, ChartDays);
  }

  // ---------------------------------------------------------------------
  // Earnings by method
  // ---------------------------------------------------------------------

  /** The payment methods `GROUP BY payment_method` yields over completed
      rows: each such method once. */
  function GroupKeys(rows: seq<Record>): (keys: seq<string>)
    ensures forall m :: m in keys <==> exists i :: 0 <= i < |rows| && rows[i].status == Completed && rows[i].paymentMethod == m
    ensures forall i, j :: 0 <= i < j < |keys| ==> keys[i] != keys[j]
  {
    if rows == [] then []
    else
      var rest := GroupKeys(rows[1..]);
      assert forall i :: 1 <= i < |rows| ==> rows[i] == rows[1..][i - 1];
      if rows[0].status == Completed && rows[0].paymentMethod !in rest
      then [rows[0].paymentMethod] + rest
      else rest
  }

  /** A method with no completed row earned nothing. */
  lemma {:induction false} MethodEarningsWithoutRows(rows: seq<Record>, m: string)
    requires m !in GroupKeys(rows)
    ensures MethodEarnings(rows, m) == 0
  {
    if rows != [] {
      assert forall i :: 0 <= i < |rows[1..]| ==> rows[1..][i] == rows[i + 1];
      MethodEarningsWithoutRows(rows[1..], m);
    }
  }

  /** The grouped result rows `(payment_method, total)`. */
  function GroupTotals(rows: seq<Record>): (groups: seq<(string, int)>)
    ensures |groups| == |GroupKeys(rows)|
  {
    var keys := GroupKeys(rows);
    seq(|keys|, i requires 0 <= i < |keys| => (keys[i], MethodEarnings(rows, keys[i])))
  }

  function MethodSet(): set<string> {
    set m | m in ValidMethods
  }

  /** `get_earnings_by_method`: start from 0 for each of the four methods,
      then copy each grouped total whose method is one of them. */
  method GetEarningsByMethod(rows: seq<Record>) returns (earnings: map<string, int>)
    ensures earnings.Keys == MethodSet()
    ensures forall m :: m in earnings ==> earnings[m] == MethodEarnings(rows, m)
  {
    earnings := map["bkash" := 0, "nagad" := 0, "rocket" := 0, "upay" := 0];
    assert earnings.Keys == MethodSet();
    var groups := GroupTotals(rows);
    ghost var keys := GroupKeys(rows);
    for j := 0 to |groups|
      invariant earnings.Keys == MethodSet()
      invariant forall m :: m in earnings ==>
        earnings[m] == if m in keys[..j] then MethodEarnings(rows, m) else 0
    {
      var (m, total) := groups[j];
      assert keys[..j + 1] == keys[..j] + [m];
      if m in earnings {
        earnings := earnings[m := total];
      }
    }
    assert keys[..|groups|] == keys;
    forall m | m in earnings && m !in keys ensures MethodEarnings(rows, m) == 0 {
      MethodEarningsWithoutRows(rows, m);
    }
  }

  // ---------------------------------------------------------------------
  // Status buckets and the custom range
  // ---------------------------------------------------------------------

  datatype Statistics = Statistics(total: nat, completed: nat, pending: nat, cancelled: nat, refunded: nat)

  /** `get_order_statistics`: "pending" merges `pending` and `on-hold`. */
  function OrderStatistics(rows: seq<Record>): (s: Statistics)
    ensures s.total == |rows|
  {
    Statistics(
      |rows|,
      StatusCount(rows, {Completed}),
      StatusCount(rows, {OnHold, Pending}),
      StatusCount(rows, {Cancelled}),
      StatusCount(rows, {Refunded}))
  }

  /** The buckets never overlap, so they add up to at most the total, and
      to exactly the total when every row has one of the five statuses. */
  lemma {:induction false} StatisticsPartition(rows: seq<Record>)
    ensures var s := OrderStatistics(rows);
      s.completed + s.pending + s.cancelled + s.refunded <= s.total
    ensures (forall i :: 0 <= i < |rows| ==> rows[i].status in KnownStatuses) ==>
      var s := OrderStatistics(rows);
      s.completed + s.pending + s.cancelled + s.refunded == s.total
  {
    if rows != [] {
      assert forall i :: 0 <= i < |rows[1..]| ==> rows[1..][i] == rows[i + 1];
      StatisticsPartition(rows[1..]);
    }
  }

  datatype RangeReport = RangeReport(earnings: int, orders: nat)

  /** `get_custom_range_analytics(from, to)`: completed earnings and the
      number of rows of any status within `[from 00:00:00, to 23:59:59]`. */
  function CustomRangeAnalytics(rows: seq<Record>, fromDay: int, toDay: int): (r: RangeReport)
    ensures r.orders <= |rows|
  {
    RangeReport(
      WindowEarnings(rows, DayStart(fromDay), DayEnd(toDay)),
      WindowCount(rows, DayStart(fromDay), DayEnd(toDay)))
  }

  /** The custom range's earnings are the sum of the chart series over the
      same days; over the single day `today` they are the "today" figure. */
  lemma CustomRangeMatchesSeries(rows: seq<Record>, c: Calendar, fromDay: int, toDay: int)
    requires fromDay <= toDay
    ensures CustomRangeAnalytics(rows, fromDay, toDay).earnings
      == SumSeq(DailySeries(rows, fromDay, toDay - fromDay + 1))
    ensures CustomRangeAnalytics(rows, c.today, c.today).earnings == WindowFigures(rows, c).today
  {
    DailySeriesSum(rows, fromDay, toDay - fromDay + 1);
  }

  /** The range counts rows of every status: changing the status of any
      one row leaves the count unchanged. */
  lemma {:induction false} CustomRangeOrdersIgnoreStatus(rows: seq<Record>, i: nat, status: string, fromDay: int, toDay: int)
    requires i < |rows|
    ensures CustomRangeAnalytics(rows[i := rows[i].(status := status)], fromDay, toDay).orders
      == CustomRangeAnalytics(rows, fromDay, toDay).orders
  {
    var rows' := rows[i := rows[i].(status := status)];
    if i == 0 {
      assert rows'[1..] == rows[1..];
    } else {
      assert rows'[1..] == rows[1..][i - 1 := rows[i].(status := status)];
      CustomRangeOrdersIgnoreStatus(rows[1..], i - 1, status, fromDay, toDay);
    }
  }

  // ---------------------------------------------------------------------
  // The AJAX dispatch
  // ---------------------------------------------------------------------

  datatype AnalyticsResponse = Windows(report: WindowReport) | Range(range: RangeReport)

  /** `ajax_get_analytics`: the custom range only when the period is
      "custom" and both dates were given (a missing date is `None`);
      otherwise the window figures. */
  method AjaxGetAnalytics(rows: seq<Record>, c: Calendar, period: string, dateFrom: Option<int>, dateTo: Option<int>)
    returns (response: AnalyticsResponse)
    ensures response.Range? <==> period == "custom" && dateFrom.Some? && dateTo.Some?
    ensures response.Range? ==> response.range == CustomRangeAnalytics(rows, dateFrom.value, dateTo.value)
    ensures response.Windows? ==> response.report == WindowFigures(rows, c)
  {
    if period == "custom" && dateFrom.Some? && dateTo.Some? {
      response := Range(CustomRangeAnalytics(rows, dateFrom.value, dateTo.value));
    } else {
      var report := GetAnalyticsData(rows, c);
      response := Windows(report);
    }
  }
}
