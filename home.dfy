/**
 * The home screen's figures: the headline expense totals for today, this
 * month and this year, the this-month breakdown by category, and the
 * month-over-month insight.  "Now" is an explicit parameter.
 */
module Home {
  import opened Calendar
  import opened Model
  import opened Ledger

  /** Expenses dated on the same local day as `now`. */
  function ExpenseToday(now: Instant): Transaction -> bool
  {
    (t: Transaction) => IsExpense(t) && SameDay(t.date, now)
  }

  /** Expenses dated in the same local month as `now`. */
  function ExpenseThisMonth(now: Instant): Transaction -> bool
  {
    (t: Transaction) => IsExpense(t) && SameMonth(t.date, now)
  }

  /** Expenses dated in the same local year as `now`. */
  function ExpenseThisYear(now: Instant): Transaction -> bool
  {
    (t: Transaction) => IsExpense(t) && SameYear(t.date, now)
  }

  /** Every expense, whatever its date. */
  function Expenses(): Transaction -> bool
  {
    (t: Transaction) => IsExpense(t)
  }

  datatype Totals = Totals(today: real, month: real, year: real)

  /** The three headline totals. */
  function HeadlineTotals(txs: seq<Transaction>, now: Instant): Totals
  {
    Totals(
      Sum(Filter(txs, ExpenseToday(now))),
      Sum(Filter(txs, ExpenseThisMonth(now))),
      Sum(Filter(txs, ExpenseThisYear(now))))
  }

  /** Income never counts: the totals of a list are those of its expenses alone. */
  lemma TotalsIgnoreIncome(txs: seq<Transaction>, now: Instant)
    ensures HeadlineTotals(txs, now) == HeadlineTotals(Filter(txs, Expenses()), now)
  {
    FilterOfFilter(txs, Expenses(), ExpenseToday(now), ExpenseToday(now));
    FilterOfFilter(txs, Expenses(), ExpenseThisMonth(now), ExpenseThisMonth(now));
    FilterOfFilter(txs, Expenses(), ExpenseThisYear(now), ExpenseThisYear(now));
  }

  /** With non-negative amounts, today <= this month <= this year. */
  lemma TotalsNest(txs: seq<Transaction>, now: Instant)
    requires NonNegative(txs)
    ensures HeadlineTotals(txs, now).today <= HeadlineTotals(txs, now).month <= HeadlineTotals(txs, now).year
  {
    forall t: Transaction ensures SameDay(t.date, now) ==> SameMonth(t.date, now)
      ensures SameMonth(t.date, now) ==> SameYear(t.date, now)
    {
      PeriodsNest(t.date, now);
    }
    SumFilterMonotone(txs, ExpenseToday(now), ExpenseThisMonth(now));
    SumFilterMonotone(txs, ExpenseThisMonth(now), ExpenseThisYear(now));
  }

  /** One slice of the breakdown chart. */
  datatype Slice = Slice(name: string, value: real, color: string)

  /** `grouped`: this month's expenses tallied by category id. */
  function MonthTally(txs: seq<Transaction>, now: Instant): seq<Entry>
  {
    Tally(Filter(txs, ExpenseThisMonth(now)))
  }

  /** The categories mapped to their tallied value, keeping those whose value is positive. */
  function Slices(cats: seq<Category>, grouped: seq<Entry>): seq<Slice>
  {
    if cats == [] then []
    else
      var c := cats[0];
      var v := Lookup(grouped, c.id);
      (if v > 0.0 then [Slice(c.name, v, c.color)] else []) + Slices(cats[1..], grouped)
  }

  function CategoryBreakdown(txs: seq<Transaction>, cats: seq<Category>, now: Instant): seq<Slice>
  {
    Slices(cats, MonthTally(txs, now))
  }

  /** This month's expenses filed under category id `id`. */
  function ExpenseThisMonthIn(now: Instant, id: string): Transaction -> bool
  {
    (t: Transaction) => IsExpense(t) && SameMonth(t.date, now) && t.categoryId == id
  }

  /** The reference figure: this month's spending in category `id`. */
  function MonthSpend(txs: seq<Transaction>, now: Instant, id: string): real
  {
    Sum(Filter(txs, ExpenseThisMonthIn(now, id)))
  }

  /** The tally's value for a category is that category's spending this month. */
  lemma MonthTallyLookup(txs: seq<Transaction>, now: Instant, id: string)
    ensures Lookup(MonthTally(txs, now), id) == MonthSpend(txs, now, id)
  {
    TallyLookup(Filter(txs, ExpenseThisMonth(now)), id);
    FilterOfFilter(txs, ExpenseThisMonth(now), InCategory(id), ExpenseThisMonthIn(now, id));
  }

  /** The categories of `cats`, in order, that have positive spending this month. */
  function SpendingCategories(txs: seq<Transaction>, cats: seq<Category>, now: Instant): (r: seq<Category>)
    ensures forall c :: c in r <==> c in cats && MonthSpend(txs, now, c.id) > 0.0
  {
    if cats == [] then []
    else
      (if MonthSpend(txs, now, cats[0].id) > 0.0 then [cats[0]] else [])
      + SpendingCategories(txs, cats[1..], now)
  }

  /**
   * The breakdown lists exactly the categories with positive spending this
   * month, in the configured order, each valued at that spending.
   */
  lemma {:induction false} BreakdownIsSpendingPerCategory(txs: seq<Transaction>, cats: seq<Category>, now: Instant)
    ensures var b, s := CategoryBreakdown(txs, cats, now), SpendingCategories(txs, cats, now);
            |b| == |s| &&
            forall i :: 0 <= i < |b| ==> b[i] == Slice(s[i].name, MonthSpend(txs, now, s[i].id), s[i].color)
  {
    if cats != [] {
      MonthTallyLookup(txs, now, cats[0].id);
      BreakdownIsSpendingPerCategory(txs, cats[1..], now);
    }
  }

  /** The sum of the values of a breakdown. */
  function SumSlices(slices: seq<Slice>): real
  {
    if slices == [] then 0.0 else slices[0].value + SumSlices(slices[1..])
  }

  lemma {:induction false} SlicesSum(txs: seq<Transaction>, cats: seq<Category>, now: Instant)
    requires NonNegative(txs)
    ensures SumSlices(Slices(cats, MonthTally(txs, now))) == SumPerCategory(Filter(txs, ExpenseThisMonth(now)), cats)
  {
    if cats != [] {
      var c := cats[0];
      var month := Filter(txs, ExpenseThisMonth(now));
      TallyLookup(month, c.id);
      FilterMembers(txs, ExpenseThisMonth(now));
      FilterMembers(month, InCategory(c.id));
      SumNonNegative(Filter(month, InCategory(c.id)));
      SlicesSum(txs, cats[1..], now);
      var head := if Lookup(MonthTally(txs, now), c.id) > 0.0 then [Slice(c.name, Lookup(MonthTally(txs, now), c.id), c.color)] else [];
      assert Slices(cats, MonthTally(txs, now)) == head + Slices(cats[1..], MonthTally(txs, now));
      var rest := Slices(cats[1..], MonthTally(txs, now));
      if head != [] {
        assert (head + rest)[1..] == rest;
      } else {
        assert head + rest == rest;
      }
    }
  }

  /**
   * With distinct category ids and non-negative amounts the breakdown never
   * exceeds the month total; expenses filed under an unknown id count in
   * the month total only.
   */
  lemma BreakdownAtMostMonthTotal(txs: seq<Transaction>, cats: seq<Category>, now: Instant)
    requires NonNegative(txs)
    requires DistinctIds(cats)
    ensures SumSlices(CategoryBreakdown(txs, cats, now)) <= HeadlineTotals(txs, now).month
  {
    var month := Filter(txs, ExpenseThisMonth(now));
    SlicesSum(txs, cats, now);
    SumPerCategoryIsSumOverUnion(month, cats);
    FilterMembers(txs, ExpenseThisMonth(now));
    SumFilterAtMostSum(month, InAnyCategory(cats));
  }

  /** The month-over-month insight. */
  datatype Insight =
    | KeepTracking             // no spending last month: nothing to compare with
    | LessSpending(percent: real)
    | MoreSpending(percent: real)
  {
    predicate IsGood()
    {
      !MoreSpending?
    }
  }

  function Abs(x: real): real
  {
    if x < 0.0 then -x else x
  }

  /** Compare this month's total with last month's. */
  function CompareMonths(current: real, last: real): (r: Insight)
    ensures last == 0.0 ==> r == KeepTracking
    ensures last != 0.0 ==> (r.IsGood() <==> last > current)
    ensures last != 0.0 ==> !r.KeepTracking? && r.percent * Abs(last) == Abs(last - current) * 100.0
  {
    if last == 0.0 then KeepTracking
    else
      var diff := last - current;
      var percent := Abs((diff / last) * 100.0);
      if diff > 0.0 then LessSpending(percent) else MoreSpending(percent)
  }

  /** Expenses of the calendar month before the month of `now`. */
  function ExpenseLastMonth(now: Instant): Transaction -> bool
  {
    (t: Transaction) => IsExpense(t) && MonthIndex(t.date.day) == MonthIndex(now.day) - 1
  }

  /**
   * Expenses inside the interval the home screen uses for last month: from
   * 00:00 on its first day to 00:00 on its last day, both ends included.
   */
  function ExpenseLastMonthAsWritten(now: Instant): Transaction -> bool
  {
    var k := MonthIndex(now.day) - 1;
    var start := Instant(FirstDayOfMonth(k), 0);
    var end := Instant(FirstDayOfMonth(k + 1) - 1, 0);
    (t: Transaction) => IsExpense(t) && AtOrBefore(start, t.date) && AtOrBefore(t.date, end)
  }

  /** Last month's spending: every expense of the previous calendar month. */
  function LastMonthTotal(txs: seq<Transaction>, now: Instant): real
  {
    Sum(Filter(txs, ExpenseLastMonth(now)))
  }

  /** Last month's spending as the home screen computes it. */
  function LastMonthTotalAsWritten(txs: seq<Transaction>, now: Instant): real
  {
    Sum(Filter(txs, ExpenseLastMonthAsWritten(now)))
  }

  /** The insight, comparing with the whole previous month. */
  function MonthInsight(txs: seq<Transaction>, now: Instant): Insight
  {
    CompareMonths(HeadlineTotals(txs, now).month, LastMonthTotal(txs, now))
  }

  /** The insight as the home screen computes it. */
  function MonthInsightAsWritten(txs: seq<Transaction>, now: Instant): Insight
  {
    CompareMonths(HeadlineTotals(txs, now).month, LastMonthTotalAsWritten(txs, now))
  }

  /**
   * Last month is a whole calendar month: an expense counts exactly when it
   * shares the calendar month of any moment of the previous month, so the
   * time of day never matters.
   */
  lemma LastMonthIsWholeCalendarMonth(now: Instant, p: Instant, t: Transaction, ms: TimeOfDay)
    requires MonthIndex(p.day) == MonthIndex(now.day) - 1
    ensures ExpenseLastMonth(now)(t) <==> IsExpense(t) && SameMonth(t.date, p)
    ensures ExpenseLastMonth(now)(t) <==> ExpenseLastMonth(now)(t.(date := Instant(t.date.day, ms)))
  {
    SameMonthIffMonthIndex(t.date, p);
  }

  /**
   * The interval as written ends at midnight: the day before the first of
   * this month is the last day of last month, and an expense later than
   * 00:00 on that day belongs to last month yet lies outside the interval.
   */
  lemma AsWrittenWindowEndsAtMidnight(t: Transaction, now: Instant)
    requires t.date.day == FirstDayOfMonth(MonthIndex(now.day)) - 1
    requires t.date.ms > 0
    ensures MonthIndex(t.date.day) == MonthIndex(now.day) - 1
    ensures MonthIndex(t.date.day + 1) == MonthIndex(now.day)
    ensures IsExpense(t) ==> ExpenseLastMonth(now)(t)
    ensures !ExpenseLastMonthAsWritten(now)(t)
  {
    MonthStartsAtFirstDay(MonthIndex(now.day));
  }

  /**
   * An expense of 50 at 10:00 on 31 July 2024 belongs to the month before
   * 15 August 2024, yet the window as written leaves it out.
   */
  lemma AsWrittenMissesLastDay()
    ensures var t := Transaction("a", 50.0, Expense, "2", Instant(19935, 36_000_000), Cash, "", false, None);
            var now := Instant(19950, 0);
            LastMonthTotal([t], now) == 50.0 &&
            LastMonthTotalAsWritten([t], now) == 0.0 &&
            MonthInsight([t], now) == LessSpending(100.0) &&
            MonthInsightAsWritten([t], now) == KeepTracking
  {
    var t := Transaction("a", 50.0, Expense, "2", Instant(19935, 36_000_000), Cash, "", false, None);
    var now := Instant(19950, 0);
    July31Of2024();
    August15Of2024();
    July2024Bounds();
    assert MonthIndex(19935) == 24294 && MonthIndex(19950) == 24295;
    assert ExpenseLastMonth(now)(t);
    assert !ExpenseLastMonthAsWritten(now)(t);
    assert !ExpenseThisMonth(now)(t);
    assert [t][..0] == [];
    assert Filter([t], ExpenseLastMonth(now)) == [t];
    assert Filter([t], ExpenseLastMonthAsWritten(now)) == [];
    assert Filter([t], ExpenseThisMonth(now)) == [];
  }
}
