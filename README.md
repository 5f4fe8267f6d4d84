# budget-tracker — a Dafny model of the aggregation engine, the validation rules and the entity store

budget-tracker is a FastAPI service for categories, subcategories, budgets,
transactions and currency rates. This project models its three pieces of
sequential logic and proves what they promise.

- **The aggregation engine.** This covers four reports:
  - the budget trend (`get_budget_trends`);
  - the monthly report (`get_monthly_report`);
  - the budget summary (`get_budget_summary`);
  - the transaction summary (`get_transaction_summary`).

  Each works over the records the handler would fetch. The SQL filters are
  written out as predicates.
- **The validation and partial-update rules.** These are the create and
  update handlers for budgets, transactions, categories, subcategories,
  currency rates and user preferences. Each is a function that returns
  either the first error kind the handler raises or the record it stores.
  An update payload is a record of `Option` fields, one per field that may
  be supplied.
- **The entity store.** The class `Store.Store` holds the four related
  tables as maps, the currency-rate table as a sequence and an id counter.
  - Its methods are the write paths of the handlers, including the ORM's
    cascading deletes.
  - Every method keeps `Valid()`:
    - no record names a missing category or subcategory;
    - stored budgets and transactions carry allowed currencies;
    - stored budgets start before they end;
    - stored rates are distinct on (from, to, effective date).

## Modules

Each module follows one source file:
- `Calendar` covers Python's `datetime`. It provides:
  - the Gregorian month lengths of `calendar.monthrange`;
  - ordering of dates;
  - `replace(day=1)` and the month step that wraps December to January. The step keeps the time of day.
- `Entities` covers app/models and the shared SQL filters. It contains:
  - the records;
  - the error kinds, one per HTTP error the handlers raise;
  - Python truthiness of optional ids (`Given`);
  - SQLite row order and OFFSET/LIMIT (`Rows`, `Page`).
- `Grouping` covers a Python dict accumulated in a loop:
  - keys in first-insertion order;
  - per-key sums and counts;
  - `get(k, 0)`;
  - conservation of the grand total.
- `Series` covers a list of amounts updated by index.
- `Reports` covers app/api/reports.py.
- `Budgets` covers app/api/budgets.py.
- `Transactions` covers app/api/transactions.py.
- `Settings` covers app/api/settings.py.
- `Categories` covers app/api/categories.py.
- `Subcategories` covers app/api/subcategories.py.
- `Store` brings them together.

The loops of the source are methods with loop invariants. Each is proved
equal to a specification function, and each function carries lemmas:
- `Reports.SpreadBudget` runs the month walk of one budget over an
  `array<real>`.
- `Reports.DailyTotals` fills the daily arrays.
- `Grouping.Tally` does the dict accumulation.
- `Transactions.KindTotals` computes the running totals.

## `total_actual` counts unbudgeted spending

In the budget summary, `total_actual` includes transactions whose
(category, subcategory) has no budget. The loop at
app/api/budgets.py:310-315 adds every selected transaction to it,
budgeted or not, while items exist only for budgeted keys. The model
follows the code:
- `Budgets.Summary` states `totalActual` as the sum of all selected
  transactions.
- `Budgets.UnbudgetedSpendingCountsInTotal` exhibits a summary whose
  `totalActual` exceeds the sum of its items' actual amounts.

## Model

| member | source | states |
|---|---|---|
| Calendar.DaysInMonth | app/api/reports.py:169 | The days of a month are 28 to 31: 31 for the long months, 30 for April, June, September and November, and 29 exactly for February of a Gregorian leap year. |
| Calendar.YearLength | app/api/reports.py:169 | The month lengths add up to 366 in a leap year and 365 otherwise. |
| Calendar.Later | app/api/reports.py:93 | `max` of two dates is one of them and is at or after both. |
| Calendar.Earlier | app/api/reports.py:94 | `min` of two dates is one of them and is at or before both. |
| Calendar.FirstOfMonth | app/api/reports.py:53 | `replace(day=1)` gives day 1 of the same month and keeps the time of day. |
| Calendar.NextMonth | app/api/reports.py:57-60 | The month step gives day 1 of the following month, December wrapping to January of the next year, with the time of day kept. |
| Calendar.MonthStartOrder | app/api/reports.py:97 | Month starts are ordered as their months are, so the walk `current_month <= budget_end` advances monotonically. |
| Entities.TransactionsWithin | app/api/reports.py:173-181 | Exactly the transactions in the currency dated within [start, end]. |
| Entities.BudgetsOverlapping | app/api/reports.py:185-193 | Exactly the budgets in the currency whose window meets [start, end]. |
| Entities.Rows | app/api/categories.py:65 | A table read without ORDER BY lists every stored row with an id below the bound, once each, by ascending id. |
| Entities.Page | app/api/categories.py:70 | `offset(skip).limit(limit)`: a contiguous slice of the rows starting at the clamped offset. It has exactly `limit` rows when that many remain, and all remaining rows otherwise; a negative limit means no limit. |
| Entities.PageSplit | app/api/categories.py:70 | A page followed by everything after it is everything from the page's start. A page is shorter than `limit` only when nothing follows it. |
| Entities.PageAscending | app/api/categories.py:65-70 | A page of rows in ascending id order is in ascending id order. |
| Grouping.Keys | app/api/budgets.py:300-305 | Dict keys in first-insertion order: duplicate-free, and exactly the keys that occur. |
| Grouping.AbsentKey | app/api/budgets.py:329 | `get(k, 0)`: a key that never occurs has total 0 and count 0. |
| Grouping.Conservation | app/api/transactions.py:298-309 | The per-key totals add up to the sum of all amounts, and the per-key counts add up to the number of records. |
| Grouping.Tally | app/api/transactions.py:298-309 | The accumulation loop yields the keys in insertion order, for each key its total and count, and the running sum. |
| Reports.MonthlyAmount | app/api/reports.py:87-90 | A yearly budget contributes a twelfth of its amount per month, a monthly budget its whole amount. |
| Reports.LabelOfDate | app/api/reports.py:55 | The label of a date's month key is that date's (month, year). |
| Reports.LabelStep | app/api/reports.py:57-60 | The label after (m, y) is (m+1, y), and after (12, y) it is (1, y+1). |
| Reports.LabelAt | app/api/reports.py:53-60 | Label i names the month i steps after the start month. |
| Reports.TrendBudgets | app/api/reports.py:67-82 | Exactly the budgets in the currency that overlap the range and pass the truthy category and subcategory filters. |
| Reports.TrendTransactions | app/api/reports.py:109-125 | Exactly the expense transactions in the currency dated within the range that pass the truthy filters. |
| Reports.Spread | app/api/reports.py:96-106 | One budget's pass keeps the series length; Reports.VisitsExactly says which indices receive the monthly amount. |
| Reports.BudgetSeries | app/api/reports.py:84-106 | The Budget series has the requested length. |
| Reports.ActualSeries | app/api/reports.py:127-131 | The Actual series has the requested length. |
| Reports.VisitsExactly | app/api/reports.py:93-106 | The walk visits a month exactly when it lies from the first of the clipped start's month up to the clipped end. |
| Reports.VisitsClippedMonths | app/api/reports.py:93-106 | With a midnight clipped start, the months visited are exactly those from the clipped start's month through the clipped end's month. |
| Reports.VisitsInsideSeries | app/api/reports.py:98-100 | Every visited month lies in [0, months_diff), so the guard never drops one. |
| Reports.YearlyBudgetScenario | app/api/reports.py:85-106 | A 1200 yearly budget for 2024 over a March–May query gives 100 for each of the three months. |
| Reports.ActualSeriesTotal | app/api/reports.py:128-131 | For transactions within the range, the Actual series sums to their total amount. |
| Reports.TrendActualTotal | app/api/reports.py:109-131 | The Actual series sums to the total of the selected expense transactions. |
| Reports.TrendLabels | app/api/reports.py:49-60 | The label walk makes months_diff labels, label i being the month i steps after the start. |
| Reports.SpreadBudget | app/api/reports.py:93-106 | The in-place walk over the array adds one budget's monthly amount exactly as the Spread specification says. |
| Reports.BudgetData | app/api/reports.py:84-106 | The in-place budget loop produces the Budget series of the selected budgets. |
| Reports.ActualData | app/api/reports.py:127-131 | The in-place bucketing loop produces the Actual series of the selected transactions. |
| Reports.BudgetTrends | app/api/reports.py:37-151 | The trend has months_diff labels with label i the i-th month; the Budget and Actual series are those of the selected budgets and expense transactions. |
| Reports.MonthWindow | app/api/reports.py:168-170 | A date lies within [first day 00:00, last day 23:59:59] exactly when it has the report's year and month. |
| Reports.DataPoints | app/api/reports.py:209-212 | One point per distinct name, the names being exactly those that occur, in the order of `Grouping.Keys`, each carrying its name's total. |
| Reports.KindPairsNames | app/api/reports.py:196-207 | A chart of one kind shows a name exactly when some transaction of that kind has a category of that name, or names a missing category and the name is "Unknown". |
| Reports.DataPointsTotal | app/api/reports.py:196-212 | The data points add up to the sum of the accumulated amounts. |
| Reports.KindPairsTotal | app/api/reports.py:196-207 | The per-name amounts of one kind add up to the total of that kind, "Unknown" names included. |
| Reports.DailySeries | app/api/reports.py:278-279 | A daily series has one entry per day. |
| Reports.DailySeriesTotal | app/api/reports.py:281-286 | When every day is in 1..n, a daily series sums to the total of its kind. |
| Reports.MonthDays | app/api/reports.py:168-182 | Every selected transaction's day is in 1..days-in-month, so the `day - 1` index at line 282 is valid. |
| Reports.ReportAgrees | app/api/reports.py:196-318 | In a report, the income and expense charts and the daily series each add up to the net chart's totals. |
| Reports.CompareBudgetActual | app/api/reports.py:253-255 | The labels are the duplicate-free union of budget and expense names, each with its budgeted and spent amount, 0 for a missing side. |
| Reports.DailyTotals | app/api/reports.py:278-286 | The in-place daily loop puts income at `day - 1` of the income series and every other transaction in the expense series. |
| Reports.MonthlyReport | app/api/reports.py:154-340 | A month outside 1..12 is rejected with InvalidMonth and nothing else. Otherwise the report holds the charts listed below the table. |
| Budgets.CreateBudget | app/api/budgets.py:81-117 | The checks fail in this order: the category is missing (NotFound); a truthy subcategory is outside the category (NotFound); the currency is not allowed (InvalidCurrency); start is not before end (InvalidDateRange). Each fails exactly under its condition. Success stores the input unchanged. |
| Budgets.ApplyBudgetUpdate | app/api/budgets.py:192-237 | Supplied fields take the supplied values, and only supplied fields differ from the old record. |
| Budgets.ApplyBudgetUpdateIdempotent | app/api/budgets.py:236-237 | Applying the same update twice equals applying it once. |
| Budgets.UpdateBudget | app/api/budgets.py:192-237 | The checks run in the order listed below the table, and each error is returned exactly when its check is the first to fail. Success happens exactly when all pass, and the result is then the record with the supplied fields applied. |
| Budgets.UpdateKeepsBudgetStored | app/api/budgets.py:195-224 | An accepted update of a stored budget keeps its references stored and its currency allowed. |
| Budgets.OneDateCanBeRejected | app/api/budgets.py:227-234 | An update supplying only an end date before the stored start date is rejected. |
| Budgets.Percentage | app/api/budgets.py:332 | For a positive budget the percentage times the budget equals actual x 100. Otherwise it is 0. The same guard serves the overall percentage at line 348. |
| Budgets.ItemsBudgetIsSumTotals | app/api/budgets.py:318-345 | The items' budget amounts add up to the group totals of their keys. |
| Budgets.SummaryItems | app/api/budgets.py:318-345 | One item per budget key, in order, carrying the details listed below the table. |
| Budgets.Summary | app/api/budgets.py:271-356 | The items are one per distinct budget key, as listed below the table. |
| Budgets.SummaryKeys | app/api/budgets.py:300-318 | A key gets an item exactly when some selected budget has it. |
| Budgets.UnbudgetedSpendingCountsInTotal | app/api/budgets.py:310-329 | Spending under a key with no budget is in `total_actual` but in no item. |
| Transactions.CreateTransaction | app/api/transactions.py:81-120 | The checks fail in this order: the category is missing (NotFound); the category's type differs (TypeMismatch); a truthy subcategory is outside the category (NotFound); the currency is not allowed (InvalidCurrency). Each fails exactly under its condition. Success stores the input unchanged. |
| Transactions.ApplyTransactionUpdate | app/api/transactions.py:196-239 | Supplied fields take the supplied values, and only supplied fields differ from the old record. |
| Transactions.UpdateTransaction | app/api/transactions.py:196-239 | The checks run in the order listed below the table, and each error is returned exactly when its check is the first to fail. Success happens exactly when all pass, and the result is then the record with the supplied fields applied. |
| Transactions.UpdateKeepsTransactionStored | app/api/transactions.py:198-236 | An accepted update keeps references stored and the currency allowed, and keeps a type match that held before. |
| Transactions.TypeCheckedOnlyWhenSupplied | app/api/transactions.py:202 | An update supplying neither category nor type skips the type check, even for a mismatched stored record. |
| Transactions.ParseGroupByRoundTrip | app/api/transactions.py:274-278 | Each grouping mode is selected by exactly one `group_by` value, its name; Transactions.Summary rejects every other value with InvalidGroupBy. |
| Transactions.GroupsKeys | app/api/transactions.py:301-309 | By category there is one group per category some transaction names, whatever its subcategories. By subcategory there is one group per (category, subcategory) pair some transaction has. |
| Transactions.ItemsAddUp | app/api/transactions.py:317-338 | The items' amounts and counts add up to the group totals and counts of their keys. |
| Transactions.GroupsTotal | app/api/transactions.py:308-314 | The grouped amounts add up to total income plus total expense. |
| Transactions.KindTotals | app/api/transactions.py:311-314 | The loop's totals are the income total and the total of all other transactions. |
| Transactions.SummaryItems | app/api/transactions.py:317-338 | One item per key in insertion order, with the key's total and count, its names and type. |
| Transactions.Summary | app/api/transactions.py:273-349 | A bad `group_by` is InvalidGroupBy with no result. Otherwise it gives the results listed below the table. |
| Settings.CheckRate | app/api/settings.py:85-101 | In order: InvalidFromCurrency, InvalidToCurrency, then SameCurrency, each exactly under its condition. |
| Settings.FindRate | app/api/settings.py:104-113 | The first stored rate with the key, or none exactly when no rate has it. |
| Settings.Upsert | app/api/settings.py:115-127 | A rate with the same key has only its `rate` overwritten, the others are untouched and it is returned. Otherwise the new rate is appended and returned. |
| Settings.UpsertKeepsKeysUnique | app/models/currency.py:19-20 | The upsert preserves the unique (from, to, effective_date) constraint. |
| Settings.UpsertThenFind | app/api/settings.py:104-127 | After the upsert, looking the key up finds the returned record, which carries the submitted rate. |
| Settings.UpsertGrowsOnlyForNewKey | app/api/settings.py:115-127 | The table grows by one exactly when no stored rate had the key. Otherwise its size is unchanged. |
| Settings.CreateCurrencyRate | app/api/settings.py:84-127 | When a check fails, that check's error is returned; otherwise the result of the upsert. |
| Settings.MatchingRates | app/api/settings.py:62-68 | Exactly the stored rates passing the truthy from and to filters. |
| Settings.InsertByDateElements | app/api/settings.py:71 | Inserting into the ordering keeps exactly the same elements. |
| Settings.InsertByDateOrdered | app/api/settings.py:71 | Inserting into a newest-first list keeps it newest first. |
| Settings.NewestFirstOrderSorts | app/api/settings.py:71 | The ordering is newest first and a permutation of its input. |
| Settings.ListRates | app/api/settings.py:62-74 | The listing is newest first, and holds exactly the matching rates with their multiplicities. |
| Settings.NewDefaultCurrency | app/api/settings.py:147-159 | No key leaves the default as it was. An allowed currency becomes the default. Any other value is InvalidCurrency. |
| Settings.UserAccount.UpdatePreferences | app/api/settings.py:147-159 | Sets the user's default currency as NewDefaultCurrency says, leaves it unchanged on an error, and returns the current default. |
| Categories.ApplyCategoryUpdate | app/api/categories.py:105-107 | Supplied name and type take the supplied values. Unsupplied ones stay. |
| Categories.UpdateCategory | app/api/categories.py:99-107 | An unknown id gives NotFound, exactly. Otherwise it returns the record with the update applied. |
| Categories.ReadCategory | app/api/categories.py:82-88 | An unknown id gives NotFound, exactly. Otherwise it returns the stored record. |
| Categories.DeleteCategory | app/models/category.py:24-41 | The delete removes the category and its subcategories. It also removes every budget and transaction that names either of them. All other records stay unchanged, and no orphan reference results. |
| Categories.DeleteCategoryLeavesNoTrace | app/models/category.py:24-26 | Afterwards no subcategory, budget or transaction names the category. |
| Categories.OfKind | app/api/categories.py:67-68 | The type filter keeps exactly the rows of that type, when one is given, and keeps ascending id order. |
| Categories.ReadCategories | app/api/categories.py:65-72 | Only stored categories of the filtered type are returned, by ascending id and at most `limit` of them. Without skip and limit, every such category is returned. |
| Categories.ReadCategoriesPaging | app/api/categories.py:65-72 | Consecutive pages concatenate to the listing from the first page's start, and a page is short only when it is the last. |
| Categories.WithParent | app/api/categories.py:144-146 | Exactly the subcategory rows whose category matches. |
| Categories.CategorySubcategories | app/api/categories.py:138-147 | An unknown category gives NotFound, exactly. Otherwise exactly its stored subcategories are returned. |
| Subcategories.CreateSubcategory | app/api/subcategories.py:46-56 | A missing parent gives NotFound, exactly. Otherwise the input is stored unchanged. |
| Subcategories.ReadSubcategory | app/api/subcategories.py:85-91 | An unknown id gives NotFound, exactly. Otherwise it returns the stored record. |
| Subcategories.ApplySubcategoryUpdate | app/api/subcategories.py:118-119 | Supplied name and category take the supplied values. Unsupplied ones stay. |
| Subcategories.UpdateSubcategory | app/api/subcategories.py:102-119 | The error cases are listed below the table. The success case checks that a supplied category exists. |
| Subcategories.DeleteSubcategory | app/models/category.py:40-41 | The delete removes the subcategory and the budgets and transactions naming it. All other records stay unchanged, and no orphan reference results. |
| Subcategories.UnderCategory | app/api/subcategories.py:70-71 | The category filter keeps exactly the rows of that category, when it is truthy, and keeps ascending id order. |
| Subcategories.ReadSubcategories | app/api/subcategories.py:68-75 | Only stored subcategories under the truthy category filter are returned, by ascending id and at most `limit` of them. Without skip and limit, every such subcategory is returned. |
| Subcategories.ReadSubcategoriesPaging | app/api/subcategories.py:68-75 | Consecutive pages concatenate to the listing from the first page's start, and a page is short only when it is the last. |
| Store.Store.CreateCategory | app/api/categories.py:49-53 | The category is stored as given under a fresh id. Nothing else changes, and `Valid()` is kept. |
| Store.Store.UpdateCategory | app/api/categories.py:99-111 | The outcome is that of Categories.UpdateCategory. On success only that record is replaced; on an error nothing changes. |
| Store.Store.DeleteCategory | app/api/categories.py:121-128 | An unknown id gives NotFound and changes nothing. Otherwise the tables become the cascade of Categories.DeleteCategory, and `Valid()` is kept. |
| Store.Store.CreateSubcategory | app/api/subcategories.py:46-56 | A missing parent gives NotFound and changes nothing. Otherwise the subcategory is stored under a fresh id. |
| Store.Store.UpdateSubcategory | app/api/subcategories.py:102-123 | The outcome is that of Subcategories.UpdateSubcategory. On success only that record is replaced, and `Valid()` is kept. |
| Store.Store.DeleteSubcategory | app/api/subcategories.py:133-139 | An unknown id gives NotFound and changes nothing. Otherwise the tables become the cascade of Subcategories.DeleteSubcategory. |
| Store.Store.CreateBudget | app/api/budgets.py:81-121 | On an error, it returns the error of Budgets.CreateBudget and changes nothing. Otherwise it stores the budget under a fresh id. |
| Store.Store.UpdateBudget | app/api/budgets.py:186-241 | An unknown id gives NotFound. Otherwise the outcome is that of Budgets.UpdateBudget. Only that record is replaced, and `Valid()` is kept. |
| Store.Store.DeleteBudget | app/api/budgets.py:251-258 | An unknown id gives NotFound and changes nothing. Otherwise exactly that budget is removed. |
| Store.Store.CreateTransaction | app/api/transactions.py:81-120 | On an error, it returns the error of Transactions.CreateTransaction and changes nothing. Otherwise it stores the transaction under a fresh id. |
| Store.Store.UpdateTransaction | app/api/transactions.py:190-243 | An unknown id gives NotFound. Otherwise the outcome is that of Transactions.UpdateTransaction. Only that record is replaced, and `Valid()` is kept. |
| Store.Store.DeleteTransaction | app/api/transactions.py:253-260 | An unknown id gives NotFound and changes nothing. Otherwise exactly that transaction is removed. |
| Store.Store.CreateCurrencyRate | app/api/settings.py:84-127 | A failed check returns its error and changes nothing. Otherwise the rate table becomes the upsert, and unique keys are kept. |

Details for the rows that point here:
- `Reports.MonthlyReport`, the report's charts:
  - the income and expense points by category;
  - budget-vs-actual over the union of names, where only budgets of existing expense categories contribute;
  - days-in-month daily series, labelled 1..n;
  - income, expense and net totals.
- `Budgets.UpdateBudget`:
  - the checks are:
    - a supplied category must exist;
    - a supplied non-null subcategory must belong to the supplied category, else to the stored one;
    - a supplied currency must be allowed;
    - the merged dates must satisfy start < end;
  - NotFound(category), NotFound(subcategory), InvalidCurrency and InvalidDateRange each hold exactly when their check is the first to fail.
- `Budgets.SummaryItems`:
  - the budget total;
  - the key's spending, or 0 when it has none;
  - the names;
  - the percentage.
- `Budgets.Summary`:
  - each item holds its group sums;
  - `totalBudget` is the sum of the selected budgets, and the items add up to it;
  - `totalActual` is the sum of all selected transactions;
  - `overallPercentage` is the guarded percentage.
- `Transactions.UpdateTransaction`:
  - the checks are:
    - when the category or the type is supplied, the merged category must exist and have the merged type;
    - a supplied non-null subcategory must belong to the merged category;
    - a supplied currency must be allowed;
  - the first check gives NotFound(category) when the category is missing and TypeMismatch when its type differs;
  - NotFound(category), TypeMismatch, NotFound(subcategory) and InvalidCurrency each hold exactly when their check is the first to fail.
- `Transactions.Summary`:
  - the items are one per key;
  - the counts add up to the number of selected transactions;
  - the amounts add up to income plus expense;
  - net is income minus expense.
- `Subcategories.UpdateSubcategory`:
  - an unknown id gives NotFound(subcategory), exactly;
  - a supplied unknown category gives NotFound(category), exactly;
  - otherwise the update is applied, and a stored parent stays stored.

## Left out

- Authentication, sessions, commits and the FastAPI wiring are not modelled. Every operation is treated as already authorised, and each `db.execute` lookup is a lookup in a map or a filter over a sequence.
- Queries are taken over the tables as sequences of records. The configuration values are parameters:
  - the currency allow-list (app/config.py:23);
  - the default currency.
- HTTP status codes and messages are not modelled; each becomes an `Error` kind.
- Chart colours, the "Budget"/"Actual" dataset wrappers and `strftime` text are not modelled. A month label is a (month, year) pair, a daily label is the day number, and a summary's period is its two dates.
- Amounts are exact `real`s; floating-point rounding is not modelled.
- Dates have whole seconds as their finest unit, so microseconds are not modelled. Years are unbounded, so Python's 1..9999 range is not modelled.
- Update payloads cannot express an explicit null for a non-nullable field (name, amount, dates, type). Only `subcategory_id` can be nulled, as `Some(None)`.
- `read_budgets`, `read_budget`, `read_transactions` and `read_transaction` are not modelled, and neither are `get_available_currencies` and `get_user_preferences`. They are plain reads, and the same filter, slice and lookup shapes are modelled for categories and subcategories.
- The `active_only` filter and `Budget.is_active` are not modelled: both read the clock.
- Route dispatch order is not modelled: `/summary` is declared after `/{id}`. Only the handler bodies are modelled.
- The server timestamps `created_at` and `updated_at` are not modelled.
- Store.Store.CreateCategory: ids come from one counter that only grows. SQLite instead assigns max(rowid) + 1 per table and can reuse the id of a deleted last row, which is not modelled. The same applies to every other create method of `Store.Store`.
- Reports.CompareBudgetActual: the source's label order comes from a Python `set` and is unspecified. The contract states the label set, not an order.
- Settings.ListRates: the order among rates with the same effective date is unspecified. The contract states newest first and a permutation, and the tie order is not modelled.
- Reports.VisitsClippedMonths: the statement "from start's month through end's month" holds only when the clipped start is at midnight. The general case is stated by Reports.VisitsExactly. The end month is skipped only when the clipped end falls on day 1 at a time of day earlier than the clipped start's, as the source does.
- Store.Store.UpdateBudget and Store.Store.UpdateTransaction: `Valid()` requires only that referenced records exist. The source lets an update that changes only `category_id` keep a subcategory of another category, so "the subcategory belongs to the category" is not an invariant of the store.
- Store.Store.UpdateCategory: `update_category` may change a category's type. So "a transaction's type equals its category's type" is not an invariant of the store.
