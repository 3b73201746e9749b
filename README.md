# Household expense manager: a verified model of its spending logic

The application records expenses and incomes, each in a category that has a
monthly limit. Its screens summarise them as follows:

- **Home**: today's, this month's and this year's spending; a per-category breakdown for the month; and a month-over-month comparison.
- **Budget**: each category's spending against its limit, with a Safe / Near Limit / Over Budget status and an overall percentage.
- **History**: a searchable list, newest first, grouped by day. Each group carries a signed total.
- **Reports**: a 30-day trend, a 6-month chart, this month's total and a daily average.
- **Entry form**: adds or edits an expense.
- **State owner**: appends new transactions with defaults, merges edits by id, and merges settings.

This project models that logic in Dafny and proves what the code promises:

- one module per source file, all of whose computations take an explicit "now";
- amounts are exact `real`s;
- a moment is a local day ordinal (day 0 is 1970-01-01) plus the milliseconds since local midnight (`Calendar.Instant`);
- the civil date of a day is computed by the proleptic Gregorian days-to-civil conversion, which stands in for date-fns' `isSameDay`, `isThisMonth` and `isThisYear`.

Modules:

| module | file | models |
|---|---|---|
| `Calendar` | calendar.dfy | local dates, same day / month / year |
| `Model` | model.dfy | types.ts; `Partial<Transaction>` as `TxPatch` |
| `Constants` | constants.dfy | constants.tsx, and the default state of utils/storage.ts |
| `Ledger` | ledger.dfy | the filter / `reduce` sum / keyed tally that all views share |
| `Home` | home.dfy | components/HomeView.tsx |
| `Budget` | budget.dfy | components/BudgetView.tsx |
| `History` | history.dfy | components/HistoryView.tsx |
| `Reports` | reports.dfy | components/ReportsView.tsx |
| `Store` | store.dfy | App.tsx |
| `Form` | form.dfy | components/AddExpenseView.tsx |

The model follows the code, including these behaviours of it:

- The overall budget percentage has no zero-budget guard. With a total budget of 0 it is NaN when nothing is spent, and 100 when anything is (see Findings).
- New ids are random strings that are never checked against existing ids. Uniqueness is therefore a precondition on the fresh id (`Store.FreshIdKeepsIdsUnique`), not a guarantee of the store.
- An invalid amount (not a number, or ≤ 0) makes the form's save return silently. No `InvalidAmount` error exists.
- The store itself coerces a missing amount to 0 on an add.
- The budget's total spent sums every tallied category id, including ids that no category has. It does not sum over the configured categories.
- A transaction's category id is never checked against the category list.

For the two defects listed under Findings, the model keeps both versions:

- `Budget.TotalPercentAsWritten` computes the overall percentage as the code writes it. `Budget.TotalPercent` is the corrected, guarded figure. `Budget.OverallPercent` applies it to the screen's total spent and total budget.
- `Home.ExpenseLastMonthAsWritten`, `Home.LastMonthTotalAsWritten` and `Home.MonthInsightAsWritten` use last month's interval as the code writes it. `Home.ExpenseLastMonth`, `Home.LastMonthTotal` and `Home.MonthInsight` are the corrected versions, which count the whole previous calendar month.

## Model

| member | source | states |
|---|---|---|
| Constants.InitialCategoriesFacts | constants.tsx:4-13 | there are 8 seed categories, their ids are pairwise distinct, every limit is > 0, and the first is id "1", Housing |
| Constants.InitialLimitsTotal | constants.tsx:4-13 | the seed categories' monthly limits sum to 2750 |
| Constants.PaymentMethodsFacts | constants.tsx:15-20 | each of the four payment methods occurs exactly once, with Cash first |
| Calendar.CivilFromDays | components/HomeView.tsx:18-24 | the civil date of a day ordinal has a month in 1..12 and a day of month in 1..31 |
| Calendar.PeriodsNest | components/HomeView.tsx:17-25 | the same day implies the same month, which implies the same year |
| Calendar.FirstDayInverse | components/HomeView.tsx:49 | the day ordinal of the first of a month converts back to that same civil date |
| Calendar.MonthStartsAtFirstDay | components/HomeView.tsx:49-50 | the first day of month k lies in month k, and the day before it lies in month k − 1, so `new Date(y, m + 1, 0)` is the last day of month m |
| Calendar.SameMonthIffMonthIndex | components/ReportsView.tsx:43 | two moments share a calendar month exactly when their month indices are equal |
| Ledger.Sum | components/HomeView.tsx:19 | defines the `reduce((sum, t) => sum + t.amount, 0)` sum, first to last; no contract of its own, its properties are the `Ledger.SumAppend`, `Ledger.SumNonNegative` and `Ledger.SumFilterAtMostSum` rows |
| Ledger.Filter | components/HomeView.tsx:30 | the result is no longer than the input |
| Ledger.FilterMembers | components/HomeView.tsx:30 | a transaction is kept exactly when it is in the list and satisfies the predicate |
| Ledger.SumAppend | components/HomeView.tsx:19 | the `reduce` sum of a concatenation is the sum of the parts |
| Ledger.FilterAppend | components/HistoryView.tsx:17-21 | filtering distributes over concatenation |
| Ledger.FilterAgree | components/HomeView.tsx:44 | two predicates that agree on the list select the same transactions |
| Ledger.FilterKeepsAll | components/HistoryView.tsx:18-20 | a predicate that holds everywhere keeps the whole list |
| Ledger.FilterKeepsNone | components/ReportsView.tsx:24-26 | a predicate that holds nowhere keeps nothing |
| Ledger.SumFilterMonotone | components/HomeView.tsx:17-25 | with non-negative amounts, a filter that keeps more transactions gives a sum at least as large |
| Ledger.SumFilterSplit | components/ReportsView.tsx:23-26 | a filter that is the disjoint union of two filters has the sum of their sums |
| Ledger.FilterOfFilter | components/HomeView.tsx:30-34 | filtering twice is filtering once by the conjunction |
| Ledger.SumNonNegative | components/BudgetView.tsx:23 | non-negative amounts give a non-negative sum |
| Ledger.SumFilterAtMostSum | components/HomeView.tsx:21 | with non-negative amounts, a filtered sum is at most the whole sum |
| Ledger.Bump | components/HomeView.tsx:32 | defines one accumulator step, `acc[id] = (acc[id] \|\| 0) + amount`, on an insertion-ordered dictionary; no contract of its own, see the `Ledger.BumpLookup` and `Ledger.BumpSumTotals` rows |
| Ledger.Lookup | components/HomeView.tsx:38 | defines `acc[id] \|\| 0`: the running total under a key, or 0; no contract of its own, see `Ledger.BumpLookup` and `Ledger.TallyLookup` |
| Ledger.Tally | components/HomeView.tsx:31-34 | defines the `reduce` that builds the per-category accumulator, first to last; no contract of its own, see the `Ledger.TallyLookup`, `Ledger.TallySumTotals` and `Ledger.TallyKeys` rows |
| Ledger.BumpLookup | components/HomeView.tsx:32 | `acc[id] = (acc[id] \|\| 0) + amount` adds the amount to that key and leaves every other key's total alone |
| Ledger.BumpSumTotals | components/BudgetView.tsx:16 | one accumulator step raises the total over all keys by the amount |
| Ledger.TallyLookup | components/BudgetView.tsx:13-18 | the tally's value for an id is the sum of that id's transactions (0 for an absent key) |
| Ledger.TallySumTotals | components/BudgetView.tsx:23 | the tally's values add up to the sum of all the transactions tallied |
| Ledger.TallyKeys | components/HomeView.tsx:31-34 | the tally's keys are distinct and are exactly the category ids that occur |
| Ledger.SumPerCategoryIsSumOverUnion | components/HomeView.tsx:36-40 | with distinct category ids, the per-category sums add up to the sum over transactions in any listed category |
| Home.HeadlineTotals | components/HomeView.tsx:15-27 | defines the today / month / year expense totals; no contract of its own, see the `Home.TotalsIgnoreIncome` and `Home.TotalsNest` rows |
| Home.TotalsIgnoreIncome | components/HomeView.tsx:17-25 | dropping all income leaves the today, month and year totals unchanged |
| Home.TotalsNest | components/HomeView.tsx:17-25 | with non-negative amounts, today ≤ month ≤ year |
| Home.MonthTallyLookup | components/HomeView.tsx:30-34 | the month tally's value for a category is that category's spending this month |
| Home.Slices | components/HomeView.tsx:36-40 | defines the map over the categories with `grouped[cat.id] \|\| 0` and the `value > 0` filter; no contract of its own, see the `Home.SpendingCategories`, `Home.BreakdownIsSpendingPerCategory` and `Home.SlicesSum` rows |
| Home.CategoryBreakdown | components/HomeView.tsx:29-41 | defines the breakdown: the slices of this month's tally; no contract of its own, see the `Home.MonthTallyLookup` and `Home.BreakdownIsSpendingPerCategory` rows |
| Home.SpendingCategories | components/HomeView.tsx:36-40 | a category is listed exactly when it is configured and its spending this month is positive |
| Home.BreakdownIsSpendingPerCategory | components/HomeView.tsx:36-40 | the breakdown lists the positive-spending categories in configured order, each valued at its month spending with its name and colour |
| Home.SlicesSum | components/HomeView.tsx:36-40 | for non-negative amounts, the breakdown's values add up to the per-category sums of this month's expenses |
| Home.BreakdownAtMostMonthTotal | components/HomeView.tsx:21 | with distinct ids and non-negative amounts, the breakdown sum is at most the month total; unknown-id expenses count in the total only |
| Home.CompareMonths | components/HomeView.tsx:54-66 | a previous total of 0 gives "keep tracking" (good); otherwise the result is good iff last > current (a tie is not good), and percent·\|last\| = \|last − current\|·100 |
| Home.ExpenseLastMonth | components/HomeView.tsx:45-52 | defines the corrected filter: an expense in the calendar month before now; no contract of its own, see `Home.LastMonthIsWholeCalendarMonth` |
| Home.ExpenseLastMonthAsWritten | components/HomeView.tsx:46-52 | defines the filter as written: an expense from 00:00 on last month's first day up to 00:00 on its last day, both ends included; no contract of its own, see `Home.AsWrittenWindowEndsAtMidnight` |
| Home.LastMonthTotal | components/HomeView.tsx:55 | defines the corrected `lastTotal`; no contract of its own, see `Home.LastMonthIsWholeCalendarMonth` and `Reports.PreviousMonthBarIsLastMonthTotal` |
| Home.LastMonthTotalAsWritten | components/HomeView.tsx:55 | defines `lastTotal` as written; no contract of its own, see `Home.AsWrittenMissesLastDay` |
| Home.MonthInsight | components/HomeView.tsx:43-67 | defines the corrected insight, `CompareMonths` of this month's and last month's totals; no contract of its own, see `Home.CompareMonths` and `Home.AsWrittenMissesLastDay` |
| Home.MonthInsightAsWritten | components/HomeView.tsx:43-67 | defines the insight as written; no contract of its own, see `Home.AsWrittenMissesLastDay` |
| Home.LastMonthIsWholeCalendarMonth | components/HomeView.tsx:45-52 | the corrected last-month filter keeps an expense exactly when it shares the calendar month of any moment of the previous month, whatever its time of day |
| Home.AsWrittenWindowEndsAtMidnight | components/HomeView.tsx:48-51 | the day before this month's first is the last day of the previous month; an expense after 00:00 on it belongs to the previous month, yet the interval as written leaves it out |
| Home.AsWrittenMissesLastDay | components/HomeView.tsx:43-66 | an expense of 50 at 10:00 on 31 July 2024 counts for August 15 in the corrected figure (50, "100% less") but not as written (0, "keep tracking") |
| Budget.TotalBudget | components/BudgetView.tsx:22 | defines `totalBudget`, the sum of the limits; no contract of its own, see `Constants.InitialLimitsTotal` and `Budget.OverallPercentIsMonthShare` |
| Budget.TotalSpent | components/BudgetView.tsx:23 | defines `totalSpent`, the sum of the tally's values; no contract of its own, see `Budget.TotalSpentIsMonthTotal` |
| Budget.TotalPercentAsWritten | components/BudgetView.tsx:24 | defines `Math.min((spent / budget) * 100, 100)` on JavaScript numbers, NaN and infinities included; no contract of its own, see `Budget.TotalPercent` and `Budget.AsWrittenZeroBudgetIsNaN` |
| Budget.TotalSpentIsMonthTotal | components/BudgetView.tsx:23 | total spent, summed over every tally group, equals this month's expense total, unknown ids included |
| Budget.TotalPercent | components/BudgetView.tsx:24 | the capped percentage is ≤ 100 and ≥ 0 for non-negative spending; with a positive budget it equals the code's `min(spent/budget·100, 100)`, and below the cap it is spent·100/budget |
| Budget.AsWrittenZeroBudgetIsNaN | components/BudgetView.tsx:24 | with a zero budget, the code's figure is NaN exactly when nothing is spent and 100 when anything is; the guarded one is 0 |
| Budget.OverallPercent | components/BudgetView.tsx:22-24 | the overall figure is ≤ 100 and, for a positive total budget, equals the code's value on the screen's totals |
| Budget.OverallPercentIsMonthShare | components/BudgetView.tsx:13-24 | the overall figure is this month's expense total ·100 / the summed limits while under budget, 100 from the limit on, 0 with no budget, and ≥ 0 for non-negative amounts |
| Budget.PercentUsed | components/BudgetView.tsx:70-71 | with a positive limit, percent·limit = spent·100, percent > 85 iff 100·spent > 85·limit, and percent ≤ 100 iff spent ≤ limit; otherwise the percent is 0 |
| Budget.EvaluateCategory | components/BudgetView.tsx:69-87 | Over Budget iff spent > limit; Near Limit iff 85% < spent/limit ≤ 100%; never both; with limit 0 any positive spend is over and zero spend is Safe; the percent is spent/limit·100 (0 with limit 0); the shown amount is spent − limit when over and limit − spent otherwise, and is ≥ 0; the bar width is the percent capped at 100 |
| Budget.BudgetLines | components/BudgetView.tsx:68 | one row per configured category |
| Budget.BudgetLinesSpent | components/BudgetView.tsx:69 | each row carries its category's id and that category's spending this month |
| History.ContainsAt | components/HistoryView.tsx:19 | `includes` holds exactly when the term occurs at some position |
| History.FindCategory | components/HistoryView.tsx:20 | `find` returns the first listed category with the id, and returns nothing exactly when no category has it |
| History.MatchesSearch | components/HistoryView.tsx:18-21 | defines the search predicate: the lower-cased notes, or the name of the category found for the id, contain the lower-cased term; no contract of its own, see `History.EmptySearchKeepsAll` and `History.UnknownCategoryMatchesByNotes` |
| History.Search | components/HistoryView.tsx:17-21 | defines the filtered list; no contract of its own, see `History.EmptySearchKeepsAll` and `History.GroupedTransactions` |
| History.EmptySearchKeepsAll | components/HistoryView.tsx:17-21 | an empty search term keeps every transaction in order |
| History.UnknownCategoryMatchesByNotes | components/HistoryView.tsx:20 | a transaction whose category id resolves to no category is kept exactly when its notes contain the term |
| History.SortNewestFirst | components/HistoryView.tsx:22 | the sort is a permutation of its input |
| History.SortIsNewestFirst | components/HistoryView.tsx:22 | the sorted list is ordered by date, newest first |
| History.SortIsStable | components/HistoryView.tsx:22 | transactions with equal dates keep their input order |
| History.LabelOf | components/HistoryView.tsx:28-30 | the group key names the transaction's day |
| History.LabelsNameDays | components/HistoryView.tsx:28-30 | two transactions share a key exactly when they fall on the same day |
| History.IndexOf | components/HistoryView.tsx:32 | the lookup of `groups[label]` finds the first group with the key, or reports that there is none |
| History.Place | components/HistoryView.tsx:26-36 | defines one `forEach` step: file the transaction under its key, opening a group for a new key, and add its signed amount; no contract of its own, see `History.PlaceItems` |
| History.GroupsOf | components/HistoryView.tsx:24-37 | defines the groups after visiting a prefix of the list; no contract of its own, see `History.GroupsWellFormed`, `History.GroupsItemsAreThatDay` and `History.GroupByDay` |
| History.PlaceItems | components/HistoryView.tsx:32-35 | one loop step appends the transaction to its own key's items and changes no other key's items |
| History.GroupsItemsAreThatDay | components/HistoryView.tsx:26-37 | each key's group holds exactly the visited transactions of that day, in visiting order; a day with none has no group |
| History.GroupsWellFormed | components/HistoryView.tsx:32-36 | group keys are distinct, no group is empty, and each total is the sum of +amount for income and −amount for expense |
| History.GroupsOfSortedList | components/HistoryView.tsx:26-39 | over a list whose days never increase, the groups come newest day first and their items, read in order, give back the list |
| History.GroupByDay | components/HistoryView.tsx:24-37 | the `forEach` loop builds exactly the groups of the specification fold |
| History.GroupedTransactions | components/HistoryView.tsx:16-40 | the groups' items, read in order, are the sorted search result, which is a permutation of the matches; the groups come newest day first, have distinct keys, are non-empty, carry signed totals, and each holds exactly its day's matches |
| Reports.BucketsPartitionRange | components/ReportsView.tsx:21-26 | consecutive buckets partition their range: their sums add up to the spending over the whole range |
| Reports.TrendData | components/ReportsView.tsx:18-23 | 30 points for consecutive days, oldest first, the last on the day of "now" |
| Reports.TrendPointIsDaySpending | components/ReportsView.tsx:24-26 | each day's point is the sum of the expenses on that day |
| Reports.TrendDayWithoutExpensesIsZero | components/ReportsView.tsx:24-26 | a day with no expenses has a point of 0 |
| Reports.ReportsIgnoreIncome | components/ReportsView.tsx:25 | dropping all income leaves both series unchanged |
| Reports.TrendCoversWindow | components/ReportsView.tsx:21-26 | the 30 points add up to the spending of the 30-day window, so no expense counts in two points |
| Reports.MonthlyData | components/ReportsView.tsx:36-41 | 6 bars for consecutive months, oldest first, the last for the month of "now" |
| Reports.MonthlyCoversWindow | components/ReportsView.tsx:42-44 | the 6 bars add up to the spending of those 6 calendar months |
| Reports.OnlyLastMonthIsCurrent | components/ReportsView.tsx:49 | only the last bar is marked current |
| Reports.TotalMonthly | components/ReportsView.tsx:54-58 | defines `totalMonthly`; no contract of its own, see `Reports.CurrentMonthBarIsTotalMonthly` |
| Reports.DailyAverage | components/ReportsView.tsx:89 | defines `totalMonthly / 30`; no contract of its own, see `Reports.DailyAverageIgnoresDayOfMonth` |
| Reports.CurrentMonthBarIsTotalMonthly | components/ReportsView.tsx:54-58 | the last bar equals "Total Spent", which equals the home screen's month total |
| Reports.PreviousMonthBarIsLastMonthTotal | components/ReportsView.tsx:42-44 | the bar before last is the whole previous calendar month, which is the corrected home-screen last-month figure |
| Reports.DailyAverageIgnoresDayOfMonth | components/ReportsView.tsx:89 | the daily average is the month total over 30, the same on every day of the month |
| Store.Merge | App.tsx:29 | defines `{ ...t, ...tx }` on a record and a patch; no contract of its own, see `Store.MergeTakesGivenFields` |
| Store.NewTransaction | App.tsx:31-41 | defines the record an add creates; no contract of its own, see `Store.AddFillsDefaults` |
| Store.EditById | App.tsx:29 | an edit keeps the list's length; see also `Store.EditUpdatesMatchedOnly` |
| Store.AddOrUpdate | App.tsx:25-43 | defines the add-or-edit on the list; no contract of its own, see the `Store.AddAppendsOne` and `Store.EditUpdatesMatchedOnly` rows |
| Store.ApplyTransaction | App.tsx:23-46 | defines `addOrUpdateTransaction` on the whole state; no contract of its own, see `Store.ApplyTransactionFrame` |
| Store.MergeSettings | App.tsx:54 | defines `{ ...prev.settings, ...newSettings }`; no contract of its own, see `Store.ApplySettingsFrame` |
| Store.ApplySettings | App.tsx:51-56 | defines `updateSettings` on the whole state; no contract of its own, see `Store.ApplySettingsFrame` |
| Store.MergeTakesGivenFields | App.tsx:29 | a merge takes each field the patch gives and keeps the others; merging again changes nothing; an empty patch changes nothing |
| Store.AddAppendsOne | App.tsx:26-42 | an add appends exactly one record, with the fresh id, after the unchanged earlier records |
| Store.AddFillsDefaults | App.tsx:31-41 | the added record takes the patch's present fields (amount, type, truthy category, payment method, notes, date, recurring flag) and otherwise 0, expense, the first category, Cash, "", now, not recurring; its photo is the patch's |
| Store.EditUpdatesMatchedOnly | App.tsx:28-29 | an edit keeps the length, leaves records with another id identical, and merges the matched ones, keeping their id |
| Store.EditMissingIdIsNoOp | App.tsx:29 | editing an id no record carries returns the list unchanged |
| Store.EditIsIdempotent | App.tsx:29 | applying the same edit twice equals applying it once |
| Store.ApplyTransactionFrame | App.tsx:45 | adding or editing never changes categories or settings |
| Store.ApplySettingsFrame | App.tsx:51-56 | a settings update overrides exactly the given fields and leaves transactions and categories untouched |
| Store.FreshIdKeepsIdsUnique | App.tsx:33 | when the new id is fresh, unique ids stay unique after an add or an edit |
| Store.PositiveAmountsPreserved | App.tsx:23-46 | positive amounts stay positive under a patch whose amount is positive |
| Store.AppStore.constructor | utils/storage.ts:20-28 | the initial state is the default: no transactions, the seed categories, USD, dark mode, month start 1 |
| Store.AppStore.AddOrUpdateTransaction | App.tsx:23-49 | the new state is the add-or-edit transition of the old one, with categories and settings unchanged |
| Store.AppStore.UpdateSettings | App.tsx:51-56 | the new state is the settings merge of the old one, with transactions and categories unchanged |
| Form.Submit | components/AddExpenseView.tsx:33-47 | a patch is produced exactly when the amount is a number > 0 and the date input is not empty; it carries that amount, type expense and the chosen day at 00:00, and it carries an id exactly when editing (the edited id) |
| Form.SavedNewExpenseIsAppended | components/AddExpenseView.tsx:37-46 | a new expense saved from the form reaches the list as exactly the record shown, under the fresh id, with no photo |
| Form.SavedEditUpdatesRecord | components/AddExpenseView.tsx:37-46 | a saved edit rewrites every shown field of the edited record, keeps its id and photo, and leaves other records alone |
| Form.FreshFormCannotSave | components/AddExpenseView.tsx:15 | a freshly opened form (amount '0.00') cannot be saved |
| Form.ExpenseForm.constructor | components/AddExpenseView.tsx:15-20 | initial state: amount 0, the first category's id (or "" with no categories), Cash, no notes, today, not recurring |
| Form.ExpenseForm.SetEditing | components/AddExpenseView.tsx:22-31 | a transaction loads amount, category, payment method, notes, day and recurring flag; none changes no field |
| Form.ExpenseForm.SetAmount | components/AddExpenseView.tsx:69 | sets the amount only |
| Form.ExpenseForm.SelectCategory | components/AddExpenseView.tsx:82 | sets the category only |
| Form.ExpenseForm.SetPaymentMethod | components/AddExpenseView.tsx:134 | sets the payment method only |
| Form.ExpenseForm.SetNotes | components/AddExpenseView.tsx:153 | sets the notes only |
| Form.ExpenseForm.SetDate | components/AddExpenseView.tsx:108 | sets the date only; an emptied date input is none |
| Form.ExpenseForm.SetRecurring | components/AddExpenseView.tsx:121 | sets the recurring flag only |
| Form.ExpenseForm.Reset | components/AddExpenseView.tsx:54 | sets amount to 0 and notes to "", and keeps every other field |
| Form.ExpenseForm.Save | components/AddExpenseView.tsx:33-47 | changes nothing; returns the patch `Submit` builds from the form's fields, which exists exactly when the amount is a number > 0 and the date is set |

## Left out

- Persistence is not modelled: `saveState`, `loadState`, JSON and localStorage in utils/storage.ts, and the save effect in App.tsx. Only the default state is kept, as `Constants.DefaultState`.
- The settings screen is not modelled. components/SettingsView.tsx is I/O only: it exports a file, shows a confirm dialog and erases data.
- Rendering and navigation are not modelled: JSX, charts, icons, tabs and the hard-coded display strings.
- Date parsing, time zones and formatting stay abstract:
  - dates are local instants, and parsing ISO-8601 strings is not modelled;
  - the form's `split('T')[0]` and `new Date(date)` both work in UTC; the model uses the local day at 00:00;
  - label texts are not modelled: a history group key is its day with a Today / Yesterday / date kind;
  - a reports bar is identified by its month index, not by a `Date`.
- Number formatting is not modelled: `toFixed`, `toLocaleString`, and the rounding of the insight percentage.
- Amounts are exact reals. Floating-point rounding and NaN amounts are not modelled.
- `parseFloat` is not modelled. The form holds the number it reads: None for text that is not a number, and Some(0) for '0.00'. An edited amount is loaded as the exact number, which stands in for `toString` followed by `parseFloat`.
- `Math.random` is not modelled. A new id is a parameter.
- A key set to `undefined` in a partial record is not distinguished from an absent key. In JavaScript such a key would override the old field with `undefined` when merging.
- Case folding covers ASCII letters only. Unicode `toLowerCase` is not modelled.
- `currency`, `isDarkMode` and `monthStartDay` are merged but never read by any computation.
- `History.GroupsOfSortedList`: newest-day-first order and read-back equality are proved for input whose days never increase, which is the only input the screen passes. First-occurrence order for arbitrary input is not stated.
- `Form.Submit`: an emptied date input makes `new Date('').toISOString()` throw inside the save handler. The model produces no patch in that case; the uncaught error itself is not modelled.
- `Store.AppStore.AddOrUpdateTransaction`: an add whose patch has no truthy category id requires a non-empty category list. The code reads `prev.categories[0].id`, which throws when the list is empty.

## Findings

| source | as written | input that shows it | evidently intended | confidence | as-written member | corrected member |
|---|---|---|---|---|---|---|
| components/HomeView.tsx:48-51 | last month's interval ends at `new Date(y, m + 1, 0)`, i.e. 00:00 on the month's last day, so that day's expenses after midnight are left out of "last month" | an expense of 50 at 10:00 on 2024-07-31, viewed on 2024-08-15: last month's total is 0 and the insight is "keep tracking" | the whole previous calendar month counts: total 50, "100% less spending" | medium, not executed | Home.AsWrittenMissesLastDay | Home.LastMonthIsWholeCalendarMonth |
| components/BudgetView.tsx:24 | `Math.min((totalSpent / totalBudget) * 100, 100)` has no guard, so a zero total budget gives NaN (or 100 for positive spending) | no categories (or all limits 0) and no spending: the percentage is NaN and renders as "NaN% Used" | 0 when there is no budget, as the per-category percent does at components/BudgetView.tsx:71 | low, not executed | Budget.AsWrittenZeroBudgetIsNaN | Budget.TotalPercent |
