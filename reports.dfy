/**
 * The report endpoints of app/api/reports.py: the budget-versus-actual trend
 * over a range of months, and the monthly report.
 */
module Reports {
  import opened Wrappers
  import opened Calendar
  import opened Entities
  import opened Series
  import opened Grouping

  /** A budget's amount for one month: a yearly budget is spread evenly over twelve. */
  function MonthlyAmount(b: Budget): (m: real)
    ensures b.periodType == Yearly ==> m * 12.0 == b.amount
    ensures b.periodType == Monthly ==> m == b.amount
  {
    if b.periodType == Yearly then b.amount / 12.0 else b.amount
  }

  // ---------------------------------------------------------------------
  // GET /api/reports/trends
  // ---------------------------------------------------------------------

  /** A trend label, `strftime("%b %Y")`: the month (1 to 12) and the year. */
  datatype MonthLabel = MonthLabel(month: int, year: int)

  datatype TrendQuery = TrendQuery(
    startDate: Date,
    endDate: Date,
    categoryId: Option<int>,
    subcategoryId: Option<int>,
    currency: string)

  /** The `labels` and the "Budget" and "Actual" datasets of the response. */
  datatype TrendData = TrendData(labels: seq<MonthLabel>, budget: seq<real>, actual: seq<real>)

  /** `months_diff`: zero or negative when the end's month precedes the start's. */
  function MonthsDiff(q: TrendQuery): int {
    MonthKey(q.endDate) - MonthKey(q.startDate) + 1
  }

  /** `range(months_diff)` and `[0] * months_diff` are empty when months_diff <= 0. */
  function SeriesLength(q: TrendQuery): nat {
    if MonthsDiff(q) > 0 then MonthsDiff(q) else 0
  }

  /** The label of the month with the given key. */
  function LabelOf(key: int): MonthLabel {
    MonthLabel(key % 12 + 1, key / 12)
  }

  /** The label of a date's month names that month and year. */
  lemma LabelOfDate(d: Date)
    ensures LabelOf(MonthKey(d)) == MonthLabel(d.month, d.year)
  {
    assert FirstOfMonth(d) == MonthStart(MonthKey(d), d.second);
  }

  /**
   * Consecutive labels step as the label walk does: December is followed by
   * January of the next year, any other month by the next month of its year.
   */
  lemma LabelStep(key: int)
    ensures LabelOf(key + 1) ==
      if LabelOf(key).month == 12 then MonthLabel(1, LabelOf(key).year + 1)
      else MonthLabel(LabelOf(key).month + 1, LabelOf(key).year)
  {
    var d := MonthStart(key, 0);
    LabelOfDate(d);
    LabelOfDate(NextMonth(d));
  }

  /** Label i names the month i months after the start's, counted from the start's month and year. */
  lemma LabelAt(start: Date, i: nat)
    ensures LabelOf(MonthKey(start) + i) ==
      MonthLabel((start.month - 1 + i) % 12 + 1, start.year + (start.month - 1 + i) / 12)
  {
    var r := start.month - 1 + i;
    assert MonthKey(start) + i == start.year * 12 + r;
    assert (start.year * 12 + r) / 12 == start.year + r / 12;
    assert (start.year * 12 + r) % 12 == r % 12;
  }

  /** The filters `category_id` and `subcategory_id`, each applied only when truthy. */
  predicate MatchesFilters(q: TrendQuery, categoryId: int, subcategoryId: Option<int>) {
    (Given(q.categoryId) ==> categoryId == q.categoryId.value) &&
    (Given(q.subcategoryId) ==> subcategoryId == q.subcategoryId)
  }

  /** The budget query: same currency, window overlapping the range, filters. */
  predicate TrendBudget(q: TrendQuery, b: Budget) {
    Overlaps(b, q.currency, q.startDate, q.endDate) && MatchesFilters(q, b.categoryId, b.subcategoryId)
  }

  /** The transaction query: same currency, dated within the range, expenses only, filters. */
  predicate TrendTransaction(q: TrendQuery, t: Transaction) {
    DatedWithin(t, q.currency, q.startDate, q.endDate) && t.kind == Expense &&
    MatchesFilters(q, t.categoryId, t.subcategoryId)
  }

  function TrendBudgets(bs: seq<Budget>, q: TrendQuery): (r: seq<Budget>)
    ensures forall b :: b in r <==> b in bs && TrendBudget(q, b)
  {
    if bs == [] then []
    else TrendBudgets(bs[..|bs| - 1], q) + (if TrendBudget(q, bs[|bs| - 1]) then [bs[|bs| - 1]] else [])
  }

  function TrendTransactions(ts: seq<Transaction>, q: TrendQuery): (r: seq<Transaction>)
    ensures forall t :: t in r <==> t in ts && TrendTransaction(q, t)
  {
    if ts == [] then []
    else TrendTransactions(ts[..|ts| - 1], q) + (if TrendTransaction(q, ts[|ts| - 1]) then [ts[|ts| - 1]] else [])
  }

  /** `max(budget.start_date, start_date)`: where the budget's clipped window begins. */
  function ClipStart(q: TrendQuery, b: Budget): Date {
    Later(b.startDate, q.startDate)
  }

  /** `min(budget.end_date, end_date)`: where the budget's clipped window ends. */
  function ClipEnd(q: TrendQuery, b: Budget): Date {
    Earlier(b.endDate, q.endDate)
  }

  /**
   * Whether the month walk for budget b reaches series index k: it starts at
   * the first of the clipped start's month (keeping its time of day) and
   * continues while that moment is not after the clipped end.
   */
  predicate Visits(q: TrendQuery, b: Budget, k: int) {
    var from := ClipStart(q, b);
    var key := MonthKey(q.startDate) + k;
    MonthKey(from) <= key && AtOrBefore(MonthStart(key, from.second), ClipEnd(q, b))
  }

  /** One budget's pass: its monthly amount added once at every index its walk visits. */
  function Spread(s: seq<real>, q: TrendQuery, b: Budget): (r: seq<real>)
    ensures |r| == |s|
  {
    seq(|s|, k requires 0 <= k < |s| => s[k] + (if Visits(q, b, k) then MonthlyAmount(b) else 0.0))
  }

  /** The "Budget" dataset after processing the budgets bs in order. */
  function BudgetSeries(bs: seq<Budget>, q: TrendQuery, n: nat): (s: seq<real>)
    ensures |s| == n
  {
    if bs == [] then Zeros(n) else Spread(BudgetSeries(bs[..|bs| - 1], q, n), q, bs[|bs| - 1])
  }

  /** The "Actual" dataset after processing the transactions ts in order. */
  function ActualSeries(ts: seq<Transaction>, q: TrendQuery, n: nat): (s: seq<real>)
    ensures |s| == n
  {
    if ts == [] then Zeros(n)
    else
      var s := ActualSeries(ts[..|ts| - 1], q, n);
      var t := ts[|ts| - 1];
      var k := MonthKey(t.transactionDate) - MonthKey(q.startDate);
      if 0 <= k < n then AddAt(s, k, t.amount) else s
  }

  /**
   * The months a budget's walk visits are exactly those from the clipped
   * start's month through the clipped end's month, except that the clipped
   * end's month is skipped when the clipped end falls on the 1st earlier in
   * the day than the clipped start's time of day.
   */
  lemma VisitsExactly(q: TrendQuery, b: Budget, k: int)
    ensures var from, until, key := ClipStart(q, b), ClipEnd(q, b), MonthKey(q.startDate) + k;
      Visits(q, b, k) <==>
        MonthKey(from) <= key <= MonthKey(until) &&
        (key < MonthKey(until) || 1 < until.day || from.second <= until.second)
  {
    var from := ClipStart(q, b);
    MonthStartAtOrBefore(MonthKey(q.startDate) + k, from.second, ClipEnd(q, b));
  }

  /**
   * For a clipped window starting at midnight (every date-only input), the
   * budget reaches exactly the months from max(budget.start_date, start_date)
   * through min(budget.end_date, end_date).
   */
  lemma VisitsClippedMonths(q: TrendQuery, b: Budget, k: int)
    requires ClipStart(q, b).second == 0
    ensures Visits(q, b, k) <==>
      MonthKey(ClipStart(q, b)) <= MonthKey(q.startDate) + k <= MonthKey(ClipEnd(q, b))
  {
    VisitsExactly(q, b, k);
  }

  /**
   * Every month a budget's walk visits lies inside the series, so the
   * `0 <= month_index < months_diff` guard never drops a month.
   */
  lemma VisitsInsideSeries(q: TrendQuery, b: Budget, k: int)
    requires Visits(q, b, k)
    ensures 0 <= k < MonthsDiff(q)
  {
    var from, until := ClipStart(q, b), ClipEnd(q, b);
    MonthKeyOrder(q.startDate, from);
    VisitsExactly(q, b, k);
    MonthKeyOrder(until, q.endDate);
  }

  /**
   * The scenario of a yearly budget of 1200 for 2024 queried over March to
   * May 2024: each of the three months receives 100.
   */
  lemma YearlyBudgetScenario()
    ensures var b := Budget(1, None, 1200.0, "ZAR", DateTime(2024, 1, 1, 0), DateTime(2024, 12, 31, 0), Yearly);
      var q := TrendQuery(DateTime(2024, 3, 1, 0), DateTime(2024, 5, 31, 0), None, None, "ZAR");
      SeriesLength(q) == 3 &&
      BudgetSeries(TrendBudgets([b], q), q, SeriesLength(q)) == [100.0, 100.0, 100.0]
  {
    var b := Budget(1, None, 1200.0, "ZAR", DateTime(2024, 1, 1, 0), DateTime(2024, 12, 31, 0), Yearly);
    var q := TrendQuery(DateTime(2024, 3, 1, 0), DateTime(2024, 5, 31, 0), None, None, "ZAR");
    var s := Spread(Zeros(3), q, b);
    assert s == [100.0, 100.0, 100.0] by {
      assert ClipStart(q, b) == q.startDate && ClipEnd(q, b) == q.endDate;
      forall k | 0 <= k < 3 ensures Visits(q, b, k) {
        VisitsClippedMonths(q, b, k);
      }
      assert MonthlyAmount(b) == 100.0;
    }
    assert BudgetSeries([b], q, 3) == s by {
      assert [b][..0] == [];
    }
    assert TrendBudgets([b], q) == [b] by {
      assert [b][..0] == [];
    }
    assert SeriesLength(q) == 3;
  }

  /** The sum of the amounts of a list of transactions. */
  function AmountSum(ts: seq<Transaction>): real {
    if ts == [] then 0.0 else AmountSum(ts[..|ts| - 1]) + ts[|ts| - 1].amount
  }

  /**
   * Every transaction the query selects lands in the series: the "Actual"
   * dataset adds up to the total of the selected expense amounts.
   */
  lemma {:induction false} ActualSeriesTotal(ts: seq<Transaction>, q: TrendQuery)
    requires forall t :: t in ts ==> TrendTransaction(q, t)
    ensures Sum(ActualSeries(ts, q, SeriesLength(q))) == AmountSum(ts)
  {
    var n := SeriesLength(q);
    if ts == [] {
      SumZeros(n);
    } else {
      var prefix, t := ts[..|ts| - 1], ts[|ts| - 1];
      assert t in ts;
      assert forall u :: u in prefix ==> u in ts;
      ActualSeriesTotal(prefix, q);
      MonthKeyOrder(q.startDate, t.transactionDate);
      MonthKeyOrder(t.transactionDate, q.endDate);
      SumAddAt(ActualSeries(prefix, q, n), MonthKey(t.transactionDate) - MonthKey(q.startDate), t.amount);
    }
  }

  /** The trend's Actual dataset sums to the expenses the query selects. */
  lemma TrendActualTotal(transactions: seq<Transaction>, q: TrendQuery)
    ensures Sum(ActualSeries(TrendTransactions(transactions, q), q, SeriesLength(q))) ==
      AmountSum(TrendTransactions(transactions, q))
  {
    ActualSeriesTotal(TrendTransactions(transactions, q), q);
  }

  /** The trend labels: one per month from the start's month, `months_diff` in all. */
  method TrendLabels(q: TrendQuery) returns (labels: seq<MonthLabel>)
    ensures |labels| == SeriesLength(q)
    ensures forall i :: 0 <= i < |labels| ==> labels[i] == LabelOf(MonthKey(q.startDate) + i)
  {
    var monthsDiff := (q.endDate.year - q.startDate.year) * 12 + q.endDate.month - q.startDate.month + 1;
    labels := [];
    var current := FirstOfMonth(q.startDate);
    var i := 0;
    while i < monthsDiff
      invariant 0 <= i && (i <= monthsDiff || i == 0)
      invariant current.day == 1 && MonthKey(current) == MonthKey(q.startDate) + i
      invariant |labels| == i
      invariant forall j :: 0 <= j < i ==> labels[j] == LabelOf(MonthKey(q.startDate) + j)
    {
      LabelOfDate(current);
      labels := labels + [MonthLabel(current.month, current.year)];
      current := NextMonth(current);
      i := i + 1;
    }
  }

  /**
   * One budget's month walk over the "Budget" dataset: from the first of the
   * clipped start's month, while not after the clipped end, add the monthly
   * amount at the month's index when it lies inside the series.
   */
  method SpreadBudget(data: array<real>, q: TrendQuery, budget: Budget)
    modifies data
    ensures data[..] == Spread(old(data[..]), q, budget)
  {
    ghost var before := data[..];
    ghost var startKey := MonthKey(q.startDate);
    var monthly := if budget.periodType == Yearly then budget.amount / 12.0 else budget.amount;
    var from := Later(budget.startDate, q.startDate);
    var until := Earlier(budget.endDate, q.endDate);
    var month := FirstOfMonth(from);
    ghost var key := MonthKey(from);
    while AtOrBefore(month, until)
      invariant month == MonthStart(key, from.second) && MonthKey(from) <= key
      invariant forall k :: 0 <= k < data.Length ==>
        data[k] == before[k] + (if Visits(q, budget, k) && startKey + k < key then monthly else 0.0)
      decreases MonthKey(until) + 1 - key
    {
      MonthKeyOrder(month, until);
      var monthIndex := (month.year - q.startDate.year) * 12 + month.month - q.startDate.month;
      if 0 <= monthIndex < data.Length {
        data[monthIndex] := data[monthIndex] + monthly;
      }
      month := NextMonth(month);
      key := key + 1;
    }
    forall k | 0 <= k < data.Length && Visits(q, budget, k)
      ensures startKey + k < key
    {
      if startKey + k >= key {
        MonthStartOrder(key, startKey + k, from.second);
      }
    }
  }

  /** The "Budget" dataset: every selected budget's month walk, in order, over `[0] * months_diff`. */
  method BudgetData(q: TrendQuery, selected: seq<Budget>, n: nat) returns (s: seq<real>)
    ensures s == BudgetSeries(selected, q, n)
  {
    var data := new real[n](_ => 0.0);
    assert data[..] == Zeros(n);
    for j := 0 to |selected|
      invariant data[..] == BudgetSeries(selected[..j], q, n)
    {
      SpreadBudget(data, q, selected[j]);
      assert selected[..j + 1][..j] == selected[..j];
    }
    assert selected[..|selected|] == selected;
    s := data[..];
  }

  /** The "Actual" dataset: each selected transaction's amount added at its month's index. */
  method ActualData(q: TrendQuery, selected: seq<Transaction>, n: nat) returns (s: seq<real>)
    ensures s == ActualSeries(selected, q, n)
  {
    var data := new real[n](_ => 0.0);
    assert data[..] == Zeros(n);
    for j := 0 to |selected|
      invariant data[..] == ActualSeries(selected[..j], q, n)
    {
      var t := selected[j];
      var monthIndex := (t.transactionDate.year - q.startDate.year) * 12 + t.transactionDate.month - q.startDate.month;
      if 0 <= monthIndex < n {
        data[monthIndex] := data[monthIndex] + t.amount;
      }
      assert selected[..j + 1][..j] == selected[..j];
    }
    assert selected[..|selected|] == selected;
    s := data[..];
  }

  /**
   * get_budget_trends: one label per month from the start's month through
   * the end's month, the selected budgets spread over the months of their
   * clipped windows, and the selected expenses bucketed by month.
   */
  method BudgetTrends(q: TrendQuery, budgets: seq<Budget>, transactions: seq<Transaction>)
    returns (trend: TrendData)
    ensures |trend.labels| == SeriesLength(q)
    ensures forall i :: 0 <= i < |trend.labels| ==> trend.labels[i] == LabelOf(MonthKey(q.startDate) + i)
    ensures trend.budget == BudgetSeries(TrendBudgets(budgets, q), q, SeriesLength(q))
    ensures trend.actual == ActualSeries(TrendTransactions(transactions, q), q, SeriesLength(q))
  {
    var labels := TrendLabels(q);
    var budget := BudgetData(q, TrendBudgets(budgets, q), |labels|);
    var actual := ActualData(q, TrendTransactions(transactions, q), |labels|);
    trend := TrendData(labels, budget, actual);
  }

  // ---------------------------------------------------------------------
  // GET /api/reports/monthly/{year}/{month}
  // ---------------------------------------------------------------------

  /** One slice of a by-category chart. */
  datatype DataPoint = DataPoint(name: string, value: real)

  /**
   * The monthly report: the income and expense charts by category, the
   * budget-versus-actual chart by category name, the daily chart (labels are
   * the day numbers) and the three amounts of the net chart.
   */
  datatype MonthlyReportData = MonthlyReportData(
    incomeByCategory: seq<DataPoint>,
    expenseByCategory: seq<DataPoint>,
    comparisonLabels: seq<string>,
    comparisonBudget: seq<real>,
    comparisonActual: seq<real>,
    dailyLabels: seq<int>,
    dailyIncome: seq<real>,
    dailyExpense: seq<real>,
    totalIncome: real,
    totalExpense: real,
    net: real)

  /** `datetime(year, month, 1)`. */
  function MonthFirst(year: int, month: int): Date
    requires 1 <= month <= 12
  {
    DateTime(year, month, 1, 0)
  }

  /** `datetime(year, month, last_day, 23, 59, 59)`. */
  function MonthLast(year: int, month: int): Date
    requires 1 <= month <= 12
  {
    DateTime(year, month, DaysInMonth(year, month), 86399)
  }

  /** The report's window holds exactly the moments of that calendar month. */
  lemma MonthWindow(year: int, month: int, d: Date)
    requires 1 <= month <= 12
    ensures AtOrBefore(MonthFirst(year, month), d) && AtOrBefore(d, MonthLast(year, month)) <==>
      d.year == year && d.month == month
  {
  }

  /** The transactions of the month in the currency. */
  function MonthTransactions(ts: seq<Transaction>, year: int, month: int, currency: string): seq<Transaction>
    requires 1 <= month <= 12
  {
    TransactionsWithin(ts, currency, MonthFirst(year, month), MonthLast(year, month))
  }

  /** The budgets in the currency whose windows overlap the month. */
  function MonthBudgets(bs: seq<Budget>, year: int, month: int, currency: string): seq<Budget>
    requires 1 <= month <= 12
  {
    BudgetsOverlapping(bs, currency, MonthFirst(year, month), MonthLast(year, month))
  }

  /**
   * The (category name, amount) pairs the by-category loop of one kind
   * visits: the transactions of that kind, named by their category or
   * "Unknown".
   */
  function KindPairs(ts: seq<Transaction>, categories: map<int, Category>, kind: CategoryType): seq<(string, real)> {
    if ts == [] then []
    else
      var t := ts[|ts| - 1];
      KindPairs(ts[..|ts| - 1], categories, kind) +
      (if t.kind == kind then [(CategoryName(categories, t.categoryId), t.amount)] else [])
  }

  /**
   * The names the by-category chart of one kind shows: a stored category's
   * name for each of its transactions of that kind, and "Unknown" exactly
   * when such a transaction names a category that is not stored.
   */
  lemma {:induction false} KindPairsNames(ts: seq<Transaction>, categories: map<int, Category>,
                                          kind: CategoryType, name: string)
    ensures HasKey(KindPairs(ts, categories, kind), name) <==>
      exists t :: t in ts && t.kind == kind && CategoryName(categories, t.categoryId) == name
  {
    if ts != [] {
      var prefix := ts[..|ts| - 1];
      var last := ts[|ts| - 1];
      var ps := KindPairs(ts, categories, kind);
      var rest := KindPairs(prefix, categories, kind);
      KindPairsNames(prefix, categories, kind, name);
      assert forall t :: t in ts <==> t in prefix || t == last;
      if HasKey(ps, name) {
        var i :| 0 <= i < |ps| && ps[i].0 == name;
        if i < |rest| { assert rest[i].0 == name; }
      }
      if HasKey(rest, name) {
        var i :| 0 <= i < |rest| && rest[i].0 == name;
        assert ps[i].0 == name;
      }
      if last.kind == kind && CategoryName(categories, last.categoryId) == name {
        assert ps[|rest|].0 == name;
      }
    }
  }

  /**
   * The (category name, monthly amount) pairs of the budget loop: only
   * budgets whose category exists and is an expense category.
   */
  function BudgetPairs(bs: seq<Budget>, categories: map<int, Category>): seq<(string, real)> {
    if bs == [] then []
    else
      var b := bs[|bs| - 1];
      BudgetPairs(bs[..|bs| - 1], categories) +
      (if b.categoryId in categories && categories[b.categoryId].kind == Expense
       then [(categories[b.categoryId].name, MonthlyAmount(b))] else [])
  }

  /** The chart of a grouped dict: each distinct name, in first-seen order, with its total. */
  function DataPoints(ps: seq<(string, real)>): (points: seq<DataPoint>)
    ensures |points| == |Keys(ps)|
    ensures forall i :: 0 <= i < |points| ==> points[i].name == Keys(ps)[i]
    ensures forall i :: 0 <= i < |points| ==> points[i].value == Total(ps, points[i].name)
    ensures forall i, j :: 0 <= i < j < |points| ==> points[i].name != points[j].name
    ensures forall n :: HasKey(ps, n) <==> exists i :: 0 <= i < |points| && points[i].name == n
  {
    var ks := Keys(ps);
    seq(|ks|, i requires 0 <= i < |ks| => DataPoint(ks[i], Total(ps, ks[i])))
  }

  /** The sum of a chart's values. */
  function PointsTotal(points: seq<DataPoint>): real {
    if points == [] then 0.0 else PointsTotal(points[..|points| - 1]) + points[|points| - 1].value
  }

  /**
   * A daily series of n days: each transaction of the kind adds its amount at
   * index day - 1. The source's else branch takes every non-income
   * transaction, which is every expense.
   */
  function DailySeries(ts: seq<Transaction>, kind: CategoryType, n: nat): (s: seq<real>)
    ensures |s| == n
  {
    if ts == [] then Zeros(n)
    else
      var s := DailySeries(ts[..|ts| - 1], kind, n);
      var t := ts[|ts| - 1];
      if t.kind == kind && 0 <= t.transactionDate.day - 1 < n then AddAt(s, t.transactionDate.day - 1, t.amount) else s
  }

  lemma {:induction false} PointsTotalAppend(points: seq<DataPoint>, p: DataPoint)
    ensures PointsTotal(points + [p]) == PointsTotal(points) + p.value
  {
    assert (points + [p])[..|points|] == points;
  }

  /** A chart's values add up to the totals of its names. */
  lemma {:induction false} PointsTotalIsSumTotals(ps: seq<(string, real)>, ks: seq<string>)
    ensures PointsTotal(seq(|ks|, i requires 0 <= i < |ks| => DataPoint(ks[i], Total(ps, ks[i])))) == SumTotals(ks, ps)
  {
    var points := seq(|ks|, i requires 0 <= i < |ks| => DataPoint(ks[i], Total(ps, ks[i])));
    if ks != [] {
      var prefix := ks[..|ks| - 1];
      var shorter := seq(|prefix|, i requires 0 <= i < |prefix| => DataPoint(prefix[i], Total(ps, prefix[i])));
      assert points == shorter + [points[|ks| - 1]];
      PointsTotalIsSumTotals(ps, prefix);
      PointsTotalAppend(shorter, points[|ks| - 1]);
    }
  }

  /** Conservation for a chart: its values add up to the sum of all the pairs' amounts. */
  lemma DataPointsTotal(ps: seq<(string, real)>)
    ensures PointsTotal(DataPoints(ps)) == SumAmounts(ps)
  {
    PointsTotalIsSumTotals(ps, Keys(ps));
    Conservation(ps);
  }

  /** The by-category pairs of one kind carry exactly that kind's total. */
  lemma {:induction false} KindPairsTotal(ts: seq<Transaction>, categories: map<int, Category>, kind: CategoryType)
    ensures SumAmounts(KindPairs(ts, categories, kind)) == KindTotal(ts, kind)
  {
    if ts != [] {
      var prefix, t := ts[..|ts| - 1], ts[|ts| - 1];
      KindPairsTotal(prefix, categories, kind);
      var front := KindPairs(prefix, categories, kind);
      if t.kind == kind {
        var p := (CategoryName(categories, t.categoryId), t.amount);
        assert (front + [p])[..|front|] == front;
      } else {
        assert KindPairs(ts, categories, kind) == front;
      }
    }
  }

  /** When every day lies in 1..n, the daily series adds up to the kind's total. */
  lemma {:induction false} DailySeriesTotal(ts: seq<Transaction>, kind: CategoryType, n: nat)
    requires forall t :: t in ts ==> 1 <= t.transactionDate.day <= n
    ensures Sum(DailySeries(ts, kind, n)) == KindTotal(ts, kind)
  {
    if ts == [] {
      SumZeros(n);
    } else {
      var prefix, t := ts[..|ts| - 1], ts[|ts| - 1];
      assert t in ts;
      assert forall u :: u in prefix ==> u in ts;
      DailySeriesTotal(prefix, kind, n);
      if t.kind == kind {
        SumAddAt(DailySeries(prefix, kind, n), t.transactionDate.day - 1, t.amount);
      }
    }
  }

  /** Every transaction of the month falls on a day of the month. */
  lemma MonthDays(ts: seq<Transaction>, year: int, month: int, currency: string)
    requires 1 <= month <= 12
    ensures forall t :: t in MonthTransactions(ts, year, month, currency) ==>
      1 <= t.transactionDate.day <= DaysInMonth(year, month)
  {
    forall t | t in MonthTransactions(ts, year, month, currency)
      ensures 1 <= t.transactionDate.day <= DaysInMonth(year, month)
    {
      MonthWindow(year, month, t.transactionDate);
    }
  }

  /** What a monthly report for the given month holds. */
  ghost predicate IsMonthlyReport(data: MonthlyReportData, year: int, month: int, currency: string,
                                  transactions: seq<Transaction>, budgets: seq<Budget>, categories: map<int, Category>)
    requires 1 <= month <= 12
  {
    var selected := MonthTransactions(transactions, year, month, currency);
    var expenses := KindPairs(selected, categories, Expense);
    var planned := BudgetPairs(MonthBudgets(budgets, year, month, currency), categories);
    var n := DaysInMonth(year, month);
    && data.incomeByCategory == DataPoints(KindPairs(selected, categories, Income))
    && data.expenseByCategory == DataPoints(expenses)
    // budget_vs_actual: every category name of either dict once, each with
    // its budgeted and its spent amount, 0 where a dict lacks the name
    && Distinct(data.comparisonLabels)
    && (forall name :: name in data.comparisonLabels <==> HasKey(planned, name) || HasKey(expenses, name))
    && |data.comparisonBudget| == |data.comparisonLabels| == |data.comparisonActual|
    && (forall i :: 0 <= i < |data.comparisonLabels| ==>
          data.comparisonBudget[i] == Total(planned, data.comparisonLabels[i]) &&
          data.comparisonActual[i] == Total(expenses, data.comparisonLabels[i]))
    // daily_transactions
    && |data.dailyLabels| == n && (forall i :: 0 <= i < n ==> data.dailyLabels[i] == i + 1)
    && data.dailyIncome == DailySeries(selected, Income, n)
    && data.dailyExpense == DailySeries(selected, Expense, n)
    // net_income_expense
    && data.totalIncome == KindTotal(selected, Income)
    && data.totalExpense == KindTotal(selected, Expense)
    && data.net == data.totalIncome - data.totalExpense
  }

  /**
   * The charts of a report agree: the income and expense charts add up to
   * the net chart's totals, and so do the daily series.
   */
  lemma ReportAgrees(data: MonthlyReportData, year: int, month: int, currency: string,
                     transactions: seq<Transaction>, budgets: seq<Budget>, categories: map<int, Category>)
    requires 1 <= month <= 12
    requires IsMonthlyReport(data, year, month, currency, transactions, budgets, categories)
    ensures PointsTotal(data.incomeByCategory) == data.totalIncome
    ensures PointsTotal(data.expenseByCategory) == data.totalExpense
    ensures Sum(data.dailyIncome) == data.totalIncome && Sum(data.dailyExpense) == data.totalExpense
  {
    var selected := MonthTransactions(transactions, year, month, currency);
    DataPointsTotal(KindPairs(selected, categories, Income));
    KindPairsTotal(selected, categories, Income);
    DataPointsTotal(KindPairs(selected, categories, Expense));
    KindPairsTotal(selected, categories, Expense);
    MonthDays(transactions, year, month, currency);
    DailySeriesTotal(selected, Income, DaysInMonth(year, month));
    DailySeriesTotal(selected, Expense, DaysInMonth(year, month));
  }

  /** `[DataPoint(label=k, value=v) for k, v in d.items()]`. */
  function ItemsOf(keys: seq<string>, totals: map<string, real>): (points: seq<DataPoint>)
    requires forall k :: k in keys ==> k in totals
    ensures |points| == |keys|
    ensures forall i :: 0 <= i < |points| ==> points[i].name == keys[i] && points[i].value == totals[keys[i]]
  {
    seq(|keys|, i requires 0 <= i < |keys| => DataPoint(keys[i], totals[keys[i]]))
  }

  /**
   * The budget-versus-actual labels and datasets: the union of both dicts'
   * names, each once, and `d.get(label, 0)` from each dict.
   */
  method CompareBudgetActual(budgetKeys: seq<string>, budgetTotals: map<string, real>,
                             expenseKeys: seq<string>, expenseTotals: map<string, real>)
    returns (labels: seq<string>, budget: seq<real>, actual: seq<real>)
    requires forall k :: k in budgetTotals <==> k in budgetKeys
    requires forall k :: k in expenseTotals <==> k in expenseKeys
    ensures Distinct(labels)
    ensures forall k :: k in labels <==> k in budgetTotals || k in expenseTotals
    ensures |budget| == |labels| == |actual|
    ensures forall i :: 0 <= i < |labels| ==>
      budget[i] == (if labels[i] in budgetTotals then budgetTotals[labels[i]] else 0.0) &&
      actual[i] == (if labels[i] in expenseTotals then expenseTotals[labels[i]] else 0.0)
  {
    var names := budgetKeys + expenseKeys;
    labels := [];
    for i := 0 to |names|
      invariant Distinct(labels)
      invariant forall k :: k in labels <==> k in names[..i]
    {
      if names[i] !in labels {
        labels := labels + [names[i]];
      }
      assert names[..i + 1] == names[..i] + [names[i]];
    }
    assert names[..|names|] == names;
    budget := seq(|labels|, i requires 0 <= i < |labels| =>
      if labels[i] in budgetTotals then budgetTotals[labels[i]] else 0.0);
    actual := seq(|labels|, i requires 0 <= i < |labels| =>
      if labels[i] in expenseTotals then expenseTotals[labels[i]] else 0.0);
  }

  /** The daily income and expense series: each transaction's amount at index day - 1. */
  method DailyTotals(transactions: seq<Transaction>, lastDay: nat) returns (income: seq<real>, expense: seq<real>)
    requires forall t :: t in transactions ==> 1 <= t.transactionDate.day <= lastDay
    ensures income == DailySeries(transactions, Income, lastDay)
    ensures expense == DailySeries(transactions, Expense, lastDay)
  {
    var dailyIncome := new real[lastDay](_ => 0.0);
    var dailyExpense := new real[lastDay](_ => 0.0);
    assert dailyIncome[..] == Zeros(lastDay) && dailyExpense[..] == Zeros(lastDay);
    for j := 0 to |transactions|
      invariant dailyIncome[..] == DailySeries(transactions[..j], Income, lastDay)
      invariant dailyExpense[..] == DailySeries(transactions[..j], Expense, lastDay)
    {
      var t := transactions[j];
      assert t in transactions;
      var dayIndex := t.transactionDate.day - 1;
      if t.kind == Income {
        dailyIncome[dayIndex] := dailyIncome[dayIndex] + t.amount;
      } else {
        dailyExpense[dayIndex] := dailyExpense[dayIndex] + t.amount;
      }
      assert transactions[..j + 1][..j] == transactions[..j];
    }
    assert transactions[..|transactions|] == transactions;
    income, expense := dailyIncome[..], dailyExpense[..];
  }

  /** get_monthly_report: a month outside 1..12 is rejected; otherwise the report of that month. */
  method MonthlyReport(year: int, month: int, currency: string, transactions: seq<Transaction>,
                       budgets: seq<Budget>, categories: map<int, Category>)
    returns (r: Result<MonthlyReportData>)
    ensures r.Err? <==> month < 1 || month > 12
    ensures r.Err? ==> r.error == InvalidMonth
    ensures r.Ok? ==>
      1 <= month <= 12 && IsMonthlyReport(r.value, year, month, currency, transactions, budgets, categories)
  {
    if month < 1 || month > 12 {
      return Err(InvalidMonth);
    }
    var lastDay := DaysInMonth(year, month);
    var selected := MonthTransactions(transactions, year, month, currency);
    var overlapping := MonthBudgets(budgets, year, month, currency);

    var incomePairs := KindPairs(selected, categories, Income);
    var incomeKeys, incomeTotals, _, _ := Tally(incomePairs);
    var incomeData := ItemsOf(incomeKeys, incomeTotals);

    var expensePairs := KindPairs(selected, categories, Expense);
    var expenseKeys, expenseTotals, _, _ := Tally(expensePairs);
    var expenseData := ItemsOf(expenseKeys, expenseTotals);

    var budgetPairs := BudgetPairs(overlapping, categories);
    var budgetKeys, budgetTotals, _, _ := Tally(budgetPairs);

    var labels, budgetData, actualData := CompareBudgetActual(budgetKeys, budgetTotals, expenseKeys, expenseTotals);
    forall i | 0 <= i < |labels|
      ensures budgetData[i] == Total(budgetPairs, labels[i]) && actualData[i] == Total(expensePairs, labels[i])
    {
      if labels[i] !in budgetTotals { AbsentKey(budgetPairs, labels[i]); }
      if labels[i] !in expenseTotals { AbsentKey(expensePairs, labels[i]); }
    }

    MonthDays(transactions, year, month, currency);
    var dailyIncome, dailyExpense := DailyTotals(selected, lastDay);
    var dailyLabels := seq(lastDay, i => i + 1);

    DailySeriesTotal(selected, Income, lastDay);
    DailySeriesTotal(selected, Expense, lastDay);
    var totalIncome := Sum(dailyIncome);
    var totalExpense := Sum(dailyExpense);

    r := Ok(MonthlyReportData(incomeData, expenseData, labels, budgetData, actualData,
                              dailyLabels, dailyIncome, dailyExpense,
                              totalIncome, totalExpense, totalIncome - totalExpense));
  }
}
