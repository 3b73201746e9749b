/**
 * The reports screen: the spending of each of the last 30 days, the spending
 * of each of the last 6 calendar months, this month's total and the daily
 * average derived from it.  "Now" is an explicit parameter.
 */
module Reports {
  import opened Calendar
  import opened Model
  import opened Ledger
  import opened Home

  /** The bucket a transaction falls in, by day ordinal. */
  function DayOf(): Transaction -> int
  {
    (t: Transaction) => t.date.day
  }

  /** The bucket a transaction falls in, by month index. */
  function MonthOf(): Transaction -> int
  {
    (t: Transaction) => MonthIndex(t.date.day)
  }

  /** Expenses whose bucket is `b`. */
  function ExpenseIn(key: Transaction -> int, b: int): Transaction -> bool
  {
    (t: Transaction) => IsExpense(t) && key(t) == b
  }

  /** Expenses whose bucket lies in `[lo, hi)`. */
  function ExpenseInRange(key: Transaction -> int, lo: int, hi: int): Transaction -> bool
  {
    (t: Transaction) => IsExpense(t) && lo <= key(t) < hi
  }

  /** The spending of one bucket. */
  function BucketTotal(txs: seq<Transaction>, key: Transaction -> int, b: int): real
  {
    Sum(Filter(txs, ExpenseIn(key, b)))
  }

  /** The spending of `n` consecutive buckets starting at `lo`, oldest first. */
  function Buckets(txs: seq<Transaction>, key: Transaction -> int, lo: int, n: nat): (r: seq<real>)
    ensures |r| == n
  {
    seq(n, i requires 0 <= i < n => BucketTotal(txs, key, lo + i))
  }

  function SumReals(xs: seq<real>): real
  {
    if xs == [] then 0.0 else SumReals(xs[..|xs| - 1]) + xs[|xs| - 1]
  }

  /**
   * Consecutive buckets are a partition of the range they cover: no
   * expense is counted twice, and every expense in the range is counted.
   */
  lemma {:induction false} BucketsPartitionRange(txs: seq<Transaction>, key: Transaction -> int, lo: int, n: nat)
    ensures SumReals(Buckets(txs, key, lo, n)) == Sum(Filter(txs, ExpenseInRange(key, lo, lo + n)))
  {
    if n == 0 {
      FilterKeepsNone(txs, ExpenseInRange(key, lo, lo));
    } else {
      BucketsPartitionRange(txs, key, lo, n - 1);
      var b := Buckets(txs, key, lo, n);
      assert b[..n - 1] == Buckets(txs, key, lo, n - 1);
      assert SumReals(b) == SumReals(b[..n - 1]) + BucketTotal(txs, key, lo + n - 1);
      SumFilterSplit(txs, ExpenseInRange(key, lo, lo + n), ExpenseInRange(key, lo, lo + n - 1), ExpenseIn(key, lo + n - 1));
    }
  }

  /** One point of the 30-day trend: a day ordinal and that day's spending. */
  datatype DayPoint = DayPoint(day: int, amount: real)

  /** One bar of the 6-month chart: a month index, its spending, and whether it is the month of `now`. */
  datatype MonthPoint = MonthPoint(month: int, amount: real, isCurrent: bool)

  /** The 30 days ending on the day of `now`, oldest first, each with its expense total. */
  function TrendData(txs: seq<Transaction>, now: Instant): (r: seq<DayPoint>)
    ensures |r| == 30 && r[29].day == now.day
    ensures forall i :: 0 < i < 30 ==> r[i].day == r[i - 1].day + 1
  {
    seq(30, i requires 0 <= i < 30 => DayPoint(now.day - 29 + i, BucketTotal(txs, DayOf(), now.day - 29 + i)))
  }

  /** The 6 calendar months ending with the month of `now`, oldest first, each with its expense total. */
  function MonthlyData(txs: seq<Transaction>, now: Instant): (r: seq<MonthPoint>)
    ensures |r| == 6 && r[5].month == MonthIndex(now.day)
    ensures forall i :: 0 < i < 6 ==> r[i].month == r[i - 1].month + 1
  {
    var k := MonthIndex(now.day);
    seq(6, i requires 0 <= i < 6 => MonthPoint(k - 5 + i, BucketTotal(txs, MonthOf(), k - 5 + i), k - 5 + i == k))
  }

  /** This month's spending, as the reports screen computes it. */
  function TotalMonthly(txs: seq<Transaction>, now: Instant): real
  {
    Sum(Filter(txs, ExpenseThisMonth(now)))
  }

  /** The "Daily Avg" figure: the month's spending over a fixed 30 days. */
  function DailyAverage(txs: seq<Transaction>, now: Instant): real
  {
    TotalMonthly(txs, now) / 30.0
  }

  /** One field of every point of a chart series, in order. */
  function Column<P>(points: seq<P>, field: P -> real): (r: seq<real>)
    ensures |r| == |points|
  {
    seq(|points|, i requires 0 <= i < |points| => field(points[i]))
  }

  /** Each day's point is the spending dated that day; income never counts. */
  lemma TrendPointIsDaySpending(txs: seq<Transaction>, now: Instant, i: int)
    requires 0 <= i < 30
    ensures TrendData(txs, now)[i].amount == Sum(Filter(txs, ExpenseToday(Instant(TrendData(txs, now)[i].day, 0))))
  {
    var d := now.day - 29 + i;
    assert TrendData(txs, now)[i] == DayPoint(d, BucketTotal(txs, DayOf(), d));
    forall t | t in txs ensures ExpenseIn(DayOf(), d)(t) <==> ExpenseToday(Instant(d, 0))(t) {
      assert SameDay(t.date, Instant(d, 0)) <==> t.date.day == d;
    }
    FilterAgree(txs, ExpenseIn(DayOf(), d), ExpenseToday(Instant(d, 0)));
  }

  /** A day without expenses has a zero point. */
  lemma TrendDayWithoutExpensesIsZero(txs: seq<Transaction>, now: Instant, i: int)
    requires 0 <= i < 30
    requires forall t :: t in txs && IsExpense(t) ==> t.date.day != now.day - 29 + i
    ensures TrendData(txs, now)[i].amount == 0.0
  {
    var d := now.day - 29 + i;
    assert TrendData(txs, now)[i] == DayPoint(d, BucketTotal(txs, DayOf(), d));
    FilterKeepsNone(txs, ExpenseIn(DayOf(), d));
  }

  /** Dropping income changes no bucket. */
  lemma BucketIgnoresIncome(txs: seq<Transaction>, key: Transaction -> int, b: int)
    ensures BucketTotal(txs, key, b) == BucketTotal(Filter(txs, Expenses()), key, b)
  {
    FilterOfFilter(txs, Expenses(), ExpenseIn(key, b), ExpenseIn(key, b));
  }

  /** Income never changes either series. */
  lemma ReportsIgnoreIncome(txs: seq<Transaction>, now: Instant)
    ensures TrendData(txs, now) == TrendData(Filter(txs, Expenses()), now)
    ensures MonthlyData(txs, now) == MonthlyData(Filter(txs, Expenses()), now)
  {
    var expenses := Filter(txs, Expenses());
    forall b: int ensures BucketTotal(txs, DayOf(), b) == BucketTotal(expenses, DayOf(), b) {
      BucketIgnoresIncome(txs, DayOf(), b);
    }
    forall b: int ensures BucketTotal(txs, MonthOf(), b) == BucketTotal(expenses, MonthOf(), b) {
      BucketIgnoresIncome(txs, MonthOf(), b);
    }
  }

  /**
   * The 30 daily points add up to the spending of the 30-day window ending
   * today: every expense in the window is counted in exactly one point.
   */
  lemma TrendCoversWindow(txs: seq<Transaction>, now: Instant)
    ensures SumReals(Column(TrendData(txs, now), (p: DayPoint) => p.amount)) ==
            Sum(Filter(txs, ExpenseInRange(DayOf(), now.day - 29, now.day + 1)))
  {
    assert Column(TrendData(txs, now), (p: DayPoint) => p.amount) == Buckets(txs, DayOf(), now.day - 29, 30);
    BucketsPartitionRange(txs, DayOf(), now.day - 29, 30);
  }

  /** The 6 monthly bars add up to the spending of those 6 calendar months. */
  lemma MonthlyCoversWindow(txs: seq<Transaction>, now: Instant)
    ensures SumReals(Column(MonthlyData(txs, now), (p: MonthPoint) => p.amount)) ==
            Sum(Filter(txs, ExpenseInRange(MonthOf(), MonthIndex(now.day) - 5, MonthIndex(now.day) + 1)))
  {
    assert Column(MonthlyData(txs, now), (p: MonthPoint) => p.amount) == Buckets(txs, MonthOf(), MonthIndex(now.day) - 5, 6);
    BucketsPartitionRange(txs, MonthOf(), MonthIndex(now.day) - 5, 6);
  }

  /** Only the last bar is marked as the current month. */
  lemma OnlyLastMonthIsCurrent(txs: seq<Transaction>, now: Instant, i: int)
    requires 0 <= i < 6
    ensures MonthlyData(txs, now)[i].isCurrent <==> i == 5
  {
  }

  /** The current month's bar shows the same figure as "Total Spent", which is the home screen's month total. */
  lemma CurrentMonthBarIsTotalMonthly(txs: seq<Transaction>, now: Instant)
    ensures MonthlyData(txs, now)[5].amount == TotalMonthly(txs, now)
    ensures TotalMonthly(txs, now) == HeadlineTotals(txs, now).month
  {
    var k := MonthIndex(now.day);
    assert MonthlyData(txs, now)[5].amount == BucketTotal(txs, MonthOf(), k);
    forall t | t in txs ensures ExpenseIn(MonthOf(), k)(t) <==> ExpenseThisMonth(now)(t) {
      SameMonthIffMonthIndex(t.date, now);
    }
    FilterAgree(txs, ExpenseIn(MonthOf(), k), ExpenseThisMonth(now));
  }

  /**
   * The bar before the current one is the whole previous calendar month:
   * the home screen's corrected last-month figure, including the expenses
   * of the last day after midnight.
   */
  lemma PreviousMonthBarIsLastMonthTotal(txs: seq<Transaction>, now: Instant)
    ensures MonthlyData(txs, now)[4].amount == LastMonthTotal(txs, now)
  {
    var k := MonthIndex(now.day) - 1;
    assert MonthlyData(txs, now)[4].amount == BucketTotal(txs, MonthOf(), k);
    FilterAgree(txs, ExpenseIn(MonthOf(), k), ExpenseLastMonth(now));
  }

  /**
   * The daily average is a fixed thirtieth of the month's spending, so it is
   * the same on every day of a month, whatever the month's length.
   */
  lemma DailyAverageIgnoresDayOfMonth(txs: seq<Transaction>, now: Instant, other: Instant)
    requires SameMonth(now, other)
    ensures DailyAverage(txs, now) * 30.0 == TotalMonthly(txs, now)
    ensures DailyAverage(txs, now) == DailyAverage(txs, other)
  {
    forall t | t in txs ensures ExpenseThisMonth(now)(t) <==> ExpenseThisMonth(other)(t) {
      assert SameMonth(t.date, now) <==> SameMonth(t.date, other);
    }
    FilterAgree(txs, ExpenseThisMonth(now), ExpenseThisMonth(other));
  }
}
