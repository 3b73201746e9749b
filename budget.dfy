/**
 * The budget screen: this month's spending per category against each
 * category's limit, with a percentage and a Safe / Near Limit / Over Budget
 * status, and the overall spent-versus-budget figures.
 */
module Budget {
  import opened Calendar
  import opened Model
  import opened Ledger
  import opened Home

  /** The sum of all category limits. */
  function TotalBudget(cats: seq<Category>): real
  {
    SumLimits(cats)
  }

  /** The sum of every group of this month's tally, known category or not. */
  function TotalSpent(txs: seq<Transaction>, now: Instant): real
  {
    SumTotals(MonthTally(txs, now))
  }

  /**
   * The spent figure is the whole of this month's expenses, including those
   * filed under an id that no category has.
   */
  lemma TotalSpentIsMonthTotal(txs: seq<Transaction>, now: Instant)
    ensures TotalSpent(txs, now) == HeadlineTotals(txs, now).month
  {
    TallySumTotals(Filter(txs, ExpenseThisMonth(now)));
  }

  /** A JavaScript number: a finite value, or one of the results division by zero can give. */
  datatype Num = Finite(v: real) | NaN | PosInfinity | NegInfinity

  /** `a / b` on numbers: dividing by zero gives an infinity, or NaN for 0 / 0. */
  function JsDivide(a: real, b: real): Num
  {
    if b != 0.0 then Finite(a / b)
    else if a > 0.0 then PosInfinity
    else if a < 0.0 then NegInfinity
    else NaN
  }

  /** `x * 100` on numbers. */
  function JsTimes100(x: Num): Num
  {
    match x
    case Finite(v) => Finite(v * 100.0)
    case _ => x
  }

  /** `Math.min(x, cap)`: NaN stays NaN. */
  function JsMin(x: Num, cap: real): Num
  {
    match x
    case Finite(v) => Finite(if v < cap then v else cap)
    case PosInfinity => Finite(cap)
    case _ => x
  }

  /** The capped overall percentage as the budget screen computes it, without a zero-budget guard. */
  function TotalPercentAsWritten(spent: real, budget: real): Num
  {
    JsMin(JsTimes100(JsDivide(spent, budget)), 100.0)
  }

  /** The capped overall percentage, 0 when there is no budget. */
  function TotalPercent(spent: real, budget: real): (r: real)
    ensures r <= 100.0
    ensures spent >= 0.0 ==> r >= 0.0
    ensures budget > 0.0 ==> TotalPercentAsWritten(spent, budget) == Finite(r)
    ensures budget > 0.0 && spent < budget ==> r * budget == spent * 100.0
  {
    if budget > 0.0 then
      var p := (spent / budget) * 100.0;
      if p < 100.0 then p else 100.0
    else 0.0
  }

  /**
   * With no budget, the figure as written is NaN when nothing is spent and
   * the full 100 as soon as anything is.
   */
  lemma AsWrittenZeroBudgetIsNaN(spent: real)
    requires spent >= 0.0
    ensures TotalPercentAsWritten(spent, 0.0) == NaN <==> spent == 0.0
    ensures spent > 0.0 ==> TotalPercentAsWritten(spent, 0.0) == Finite(100.0)
    ensures TotalPercent(spent, 0.0) == 0.0
  {
  }

  /** The overall percentage the budget screen shows, with the zero-budget guard. */
  function OverallPercent(txs: seq<Transaction>, cats: seq<Category>, now: Instant): (r: real)
    ensures r <= 100.0
    ensures TotalBudget(cats) > 0.0 ==> TotalPercentAsWritten(TotalSpent(txs, now), TotalBudget(cats)) == Finite(r)
  {
    TotalPercent(TotalSpent(txs, now), TotalBudget(cats))
  }

  /** From the budget on, the guarded percentage is the full 100. */
  lemma TotalPercentCapped(spent: real, budget: real)
    requires 0.0 < budget <= spent
    ensures TotalPercent(spent, budget) == 100.0
  {
    ScalePositive(spent / budget, 1.0, budget);
    assert (spent / budget) * budget == spent;
  }

  /** With non-negative amounts, this month's expense total is non-negative. */
  lemma MonthTotalNonNegative(txs: seq<Transaction>, now: Instant)
    requires NonNegative(txs)
    ensures HeadlineTotals(txs, now).month >= 0.0
  {
    FilterMembers(txs, ExpenseThisMonth(now));
    SumNonNegative(Filter(txs, ExpenseThisMonth(now)));
  }

  /**
   * The overall percentage is this month's expense total as a share of the
   * summed limits: exact under budget, capped at 100 from the limit on, and 0
   * with no budget. With non-negative amounts it is never negative.
   */
  lemma OverallPercentIsMonthShare(txs: seq<Transaction>, cats: seq<Category>, now: Instant)
    ensures var month, budget := HeadlineTotals(txs, now).month, TotalBudget(cats);
            (budget > 0.0 && month < budget ==> OverallPercent(txs, cats, now) * budget == month * 100.0) &&
            (budget > 0.0 && month >= budget ==> OverallPercent(txs, cats, now) == 100.0) &&
            (budget <= 0.0 ==> OverallPercent(txs, cats, now) == 0.0) &&
            (NonNegative(txs) ==> OverallPercent(txs, cats, now) >= 0.0)
  {
    TotalSpentIsMonthTotal(txs, now);
    var month, budget := HeadlineTotals(txs, now).month, TotalBudget(cats);
    if budget > 0.0 && month >= budget {
      TotalPercentCapped(month, budget);
    }
    if NonNegative(txs) {
      MonthTotalNonNegative(txs, now);
    }
  }

  /** Multiplying by a positive factor keeps the order. */
  lemma ScalePositive(a: real, b: real, c: real)
    requires c > 0.0
    ensures a < b <==> a * c < b * c
  {
    if a < b {
      assert (b - a) * c > 0.0;
    } else {
      assert (a - b) * c >= 0.0;
    }
  }

  datatype Status = Safe | NearLimit | OverBudget

  /** One category's row on the budget screen. */
  datatype BudgetLine = BudgetLine(
    categoryId: string,
    spent: real,
    limit: real,
    percent: real,
    isOver: bool,
    isNear: bool,
    status: Status,
    shown: real,       // the amount shown as "over" or "left"
    barWidth: real)    // min(percent, 100)

  /** `(spent / limit) * 100`, guarded to 0 when the limit is not positive. */
  function PercentUsed(spent: real, limit: real): (p: real)
    ensures limit > 0.0 ==> p * limit == spent * 100.0
    ensures limit > 0.0 ==> (p > 85.0 <==> 100.0 * spent > 85.0 * limit)
    ensures limit > 0.0 ==> (p <= 100.0 <==> spent <= limit)
    ensures limit <= 0.0 ==> p == 0.0
  {
    if limit > 0.0 then
      var p := (spent / limit) * 100.0;
      assert p * limit == spent * 100.0;
      ScalePositive(85.0, p, limit);
      ScalePositive(100.0, p, limit);
      assert 100.0 < p <==> 100.0 * limit < 100.0 * spent;
      p
    else 0.0
  }

  /** A category's spending against its limit. */
  function EvaluateCategory(cat: Category, grouped: seq<Entry>): (r: BudgetLine)
    ensures r.categoryId == cat.id && r.spent == Lookup(grouped, cat.id) && r.limit == cat.limit
    ensures r.status == OverBudget <==> r.spent > r.limit
    ensures r.status == NearLimit <==> r.limit > 0.0 && 85.0 * r.limit < 100.0 * r.spent <= 100.0 * r.limit
    ensures !(r.isOver && r.isNear)
    ensures r.limit == 0.0 ==> (r.status == OverBudget <==> r.spent > 0.0)
    ensures r.limit == 0.0 && r.spent == 0.0 ==> r.status == Safe
    ensures r.percent == PercentUsed(r.spent, r.limit)
    ensures r.isOver <==> r.spent > r.limit
    ensures r.shown == (if r.isOver then r.spent - r.limit else r.limit - r.spent)
    ensures r.barWidth == (if r.percent < 100.0 then r.percent else 100.0)
    ensures r.shown >= 0.0 && r.barWidth <= 100.0
  {
    var spent := Lookup(grouped, cat.id);
    var limit := cat.limit;
    var percent := PercentUsed(spent, limit);
    var isOver := spent > limit;
    var isNear := percent > 85.0 && percent <= 100.0;
    var status := if isOver then OverBudget else if isNear then NearLimit else Safe;
    BudgetLine(cat.id, spent, limit, percent, isOver, isNear, status,
      if isOver then spent - limit else limit - spent,
      if percent < 100.0 then percent else 100.0)
  }

  /** One row per category, in the configured order. */
  function BudgetLines(txs: seq<Transaction>, cats: seq<Category>, now: Instant): (r: seq<BudgetLine>)
    ensures |r| == |cats|
  {
    var grouped := MonthTally(txs, now);
    seq(|cats|, i requires 0 <= i < |cats| => EvaluateCategory(cats[i], grouped))
  }

  /** Each row's spent figure is that category's spending this month. */
  lemma BudgetLinesSpent(txs: seq<Transaction>, cats: seq<Category>, now: Instant)
    ensures forall i :: 0 <= i < |cats| ==>
      BudgetLines(txs, cats, now)[i].categoryId == cats[i].id &&
      BudgetLines(txs, cats, now)[i].spent == MonthSpend(txs, now, cats[i].id)
  {
    forall i | 0 <= i < |cats|
      ensures BudgetLines(txs, cats, now)[i].spent == MonthSpend(txs, now, cats[i].id)
    {
      MonthTallyLookup(txs, now, cats[i].id);
    }
  }
}
