/**
 * app/api/budgets.py: the checks of create_budget and update_budget, the
 * partial update they apply, and get_budget_summary.
 */
module Budgets {
  import opened Wrappers
  import opened Calendar
  import opened Entities
  import opened Grouping

  // ---------------------------------------------------------------------
  // create_budget, update_budget
  // ---------------------------------------------------------------------

  /** What a stored budget must satisfy when create_budget accepts it. */
  predicate AcceptableBudget(categories: map<int, Category>, subcategories: map<int, Subcategory>,
                             currencies: seq<string>, b: Budget) {
    && b.categoryId in categories
    && (Given(b.subcategoryId) ==> BelongsTo(subcategories, b.subcategoryId.value, b.categoryId))
    && b.currency in currencies
    && Before(b.startDate, b.endDate)
  }

  /**
   * create_budget: a missing category, then a truthy subcategory outside the
   * category, then a currency outside the allow-list, then a start not
   * before the end; otherwise the budget is stored as given.
   */
  function CreateBudget(categories: map<int, Category>, subcategories: map<int, Subcategory>,
                        currencies: seq<string>, b: Budget): (r: Result<Budget>)
    ensures r.Ok? <==> AcceptableBudget(categories, subcategories, currencies, b)
    ensures r.Ok? ==> r.value == b
    ensures r == Err(NotFound(CategoryTable)) <==> b.categoryId !in categories
    ensures r == Err(NotFound(SubcategoryTable)) <==>
      b.categoryId in categories && Given(b.subcategoryId) &&
      !BelongsTo(subcategories, b.subcategoryId.value, b.categoryId)
    ensures r == Err(InvalidCurrency) <==>
      b.categoryId in categories &&
      (Given(b.subcategoryId) ==> BelongsTo(subcategories, b.subcategoryId.value, b.categoryId)) &&
      b.currency !in currencies
    ensures r == Err(InvalidDateRange) <==>
      b.categoryId in categories &&
      (Given(b.subcategoryId) ==> BelongsTo(subcategories, b.subcategoryId.value, b.categoryId)) &&
      b.currency in currencies && !Before(b.startDate, b.endDate)
  {
    if b.categoryId !in categories then Err(NotFound(CategoryTable))
    else if Given(b.subcategoryId) && !BelongsTo(subcategories, b.subcategoryId.value, b.categoryId) then
      Err(NotFound(SubcategoryTable))
    else if b.currency !in currencies then Err(InvalidCurrency)
    else if !Before(b.startDate, b.endDate) then Err(InvalidDateRange)
    else Ok(b)
  }

  /**
   * The `BudgetUpdate` payload: each field is None when not supplied. A
   * supplied subcategory is Some(None) for an explicit null.
   */
  datatype BudgetUpdate = BudgetUpdate(
    categoryId: Option<int>,
    subcategoryId: Option<Option<int>>,
    amount: Option<real>,
    currency: Option<string>,
    startDate: Option<Date>,
    endDate: Option<Date>,
    periodType: Option<PeriodType>)

  datatype BudgetField = CategoryField | SubcategoryField | AmountField | CurrencyField
                       | StartField | EndField | PeriodField

  /** The fields an update supplies: the keys of `dict(exclude_unset=True)`. */
  function Supplied(u: BudgetUpdate): set<BudgetField> {
    (if u.categoryId.Some? then {CategoryField} else {}) +
    (if u.subcategoryId.Some? then {SubcategoryField} else {}) +
    (if u.amount.Some? then {AmountField} else {}) +
    (if u.currency.Some? then {CurrencyField} else {}) +
    (if u.startDate.Some? then {StartField} else {}) +
    (if u.endDate.Some? then {EndField} else {}) +
    (if u.periodType.Some? then {PeriodField} else {})
  }

  /** The fields in which two budgets differ. */
  function Differences(a: Budget, b: Budget): set<BudgetField> {
    (if a.categoryId != b.categoryId then {CategoryField} else {}) +
    (if a.subcategoryId != b.subcategoryId then {SubcategoryField} else {}) +
    (if a.amount != b.amount then {AmountField} else {}) +
    (if a.currency != b.currency then {CurrencyField} else {}) +
    (if a.startDate != b.startDate then {StartField} else {}) +
    (if a.endDate != b.endDate then {EndField} else {}) +
    (if a.periodType != b.periodType then {PeriodField} else {})
  }

  /**
   * The `setattr` loop over the supplied fields: those take the supplied
   * values and no other field changes.
   */
  function ApplyBudgetUpdate(b: Budget, u: BudgetUpdate): (r: Budget)
    ensures Differences(b, r) <= Supplied(u)
    ensures u.categoryId.Some? ==> r.categoryId == u.categoryId.value
    ensures u.subcategoryId.Some? ==> r.subcategoryId == u.subcategoryId.value
    ensures u.amount.Some? ==> r.amount == u.amount.value
    ensures u.currency.Some? ==> r.currency == u.currency.value
    ensures u.startDate.Some? ==> r.startDate == u.startDate.value
    ensures u.endDate.Some? ==> r.endDate == u.endDate.value
    ensures u.periodType.Some? ==> r.periodType == u.periodType.value
  {
    Budget(
      u.categoryId.GetOr(b.categoryId),
      u.subcategoryId.GetOr(b.subcategoryId),
      u.amount.GetOr(b.amount),
      u.currency.GetOr(b.currency),
      u.startDate.GetOr(b.startDate),
      u.endDate.GetOr(b.endDate),
      u.periodType.GetOr(b.periodType))
  }

  /** Applying the same update twice changes nothing more. */
  lemma ApplyBudgetUpdateIdempotent(b: Budget, u: BudgetUpdate)
    ensures ApplyBudgetUpdate(ApplyBudgetUpdate(b, u), u) == ApplyBudgetUpdate(b, u)
  {
  }

  /** The category a supplied subcategory is checked against: the supplied one, else the stored one. */
  function TargetCategory(current: Budget, u: BudgetUpdate): int {
    u.categoryId.GetOr(current.categoryId)
  }

  /** The first check of update_budget: a supplied category exists. */
  predicate CategoryChecked(categories: map<int, Category>, u: BudgetUpdate) {
    u.categoryId.Some? ==> u.categoryId.value in categories
  }

  /** The second check: a supplied non-null subcategory belongs to the target category. */
  predicate SubcategoryChecked(subcategories: map<int, Subcategory>, current: Budget, u: BudgetUpdate) {
    u.subcategoryId.Some? && u.subcategoryId.value.Some? ==>
      BelongsTo(subcategories, u.subcategoryId.value.value, TargetCategory(current, u))
  }

  /** The third check: a supplied currency is allowed. */
  predicate CurrencyChecked(currencies: seq<string>, u: BudgetUpdate) {
    u.currency.Some? ==> u.currency.value in currencies
  }

  /** The checks of update_budget, all of which must pass. */
  predicate AcceptableUpdate(categories: map<int, Category>, subcategories: map<int, Subcategory>,
                             currencies: seq<string>, current: Budget, u: BudgetUpdate) {
    && CategoryChecked(categories, u)
    && SubcategoryChecked(subcategories, current, u)
    && CurrencyChecked(currencies, u)
    && Before(u.startDate.GetOr(current.startDate), u.endDate.GetOr(current.endDate))
  }

  /**
   * update_budget on a stored budget. The checks run in order and the first
   * that fails names the error: a supplied category must exist; a supplied
   * non-null subcategory must belong to the target category; a supplied
   * currency must be allowed; the merged dates must satisfy start < end.
   * On success the supplied fields are applied.
   */
  function UpdateBudget(categories: map<int, Category>, subcategories: map<int, Subcategory>,
                        currencies: seq<string>, current: Budget, u: BudgetUpdate): (r: Result<Budget>)
    ensures r.Ok? <==> AcceptableUpdate(categories, subcategories, currencies, current, u)
    ensures r.Ok? ==> r.value == ApplyBudgetUpdate(current, u) && Before(r.value.startDate, r.value.endDate)
    ensures r == Err(NotFound(CategoryTable)) <==> !CategoryChecked(categories, u)
    ensures r == Err(NotFound(SubcategoryTable)) <==>
      CategoryChecked(categories, u) && !SubcategoryChecked(subcategories, current, u)
    ensures r == Err(InvalidCurrency) <==>
      CategoryChecked(categories, u) && SubcategoryChecked(subcategories, current, u) &&
      !CurrencyChecked(currencies, u)
    ensures r == Err(InvalidDateRange) <==>
      CategoryChecked(categories, u) && SubcategoryChecked(subcategories, current, u) &&
      CurrencyChecked(currencies, u) &&
      !Before(u.startDate.GetOr(current.startDate), u.endDate.GetOr(current.endDate))
    ensures r.Err? ==> r.error in {NotFound(CategoryTable), NotFound(SubcategoryTable), InvalidCurrency, InvalidDateRange}
  {
    if u.categoryId.Some? && u.categoryId.value !in categories then Err(NotFound(CategoryTable))
    else if u.subcategoryId.Some? && u.subcategoryId.value.Some? &&
            !BelongsTo(subcategories, u.subcategoryId.value.value, TargetCategory(current, u)) then
      Err(NotFound(SubcategoryTable))
    else if u.currency.Some? && u.currency.value !in currencies then Err(InvalidCurrency)
    else if !Before(u.startDate.GetOr(current.startDate), u.endDate.GetOr(current.endDate)) then
      Err(InvalidDateRange)
    else Ok(ApplyBudgetUpdate(current, u))
  }

  /**
   * An accepted update keeps a stored budget's references pointing at
   * stored records and its currency in the allow-list.
   */
  lemma UpdateKeepsBudgetStored(tables: Tables, currencies: seq<string>, current: Budget, u: BudgetUpdate)
    requires tables.RefersToStored(current.categoryId, current.subcategoryId)
    requires current.currency in currencies
    ensures var r := UpdateBudget(tables.categories, tables.subcategories, currencies, current, u);
      r.Ok? ==> tables.RefersToStored(r.value.categoryId, r.value.subcategoryId) && r.value.currency in currencies
  {
  }

  /**
   * The date check uses the merged values, so an update that supplies only
   * an end date before the stored start date is rejected.
   */
  lemma OneDateCanBeRejected()
    ensures var current := Budget(1, None, 500.0, "ZAR", DateTime(2024, 6, 1, 0), DateTime(2024, 6, 30, 0), Monthly);
      var u := BudgetUpdate(None, None, None, None, None, Some(DateTime(2024, 5, 31, 0)), None);
      UpdateBudget(map[1 := Category("Food", Expense)], map[], ["ZAR", "INR"], current, u) == Err(InvalidDateRange)
  {
  }

  // ---------------------------------------------------------------------
  // get_budget_summary
  // ---------------------------------------------------------------------

  datatype SummaryItem = SummaryItem(
    categoryId: int,
    categoryName: string,
    subcategoryId: Option<int>,
    subcategoryName: Option<string>,
    budgetAmount: real,
    actualAmount: real,
    currency: string,
    percentageUsed: real)

  /** The summary; the period text is left as the two dates it formats. */
  datatype BudgetSummary = BudgetSummary(
    items: seq<SummaryItem>,
    totalBudget: real,
    totalActual: real,
    overallPercentage: real,
    currency: string,
    periodStart: Date,
    periodEnd: Date)

  /** `actual / budget * 100 if budget > 0 else 0`. */
  function Percentage(actual: real, budget: real): (p: real)
    ensures budget > 0.0 ==> p * budget == actual * 100.0
    ensures budget <= 0.0 ==> p == 0.0
  {
    if budget > 0.0 then actual / budget * 100.0 else 0.0
  }

  /** The (key, amount) pairs the budget loop visits. */
  function BudgetGroups(bs: seq<Budget>): (ps: seq<(GroupKey, real)>)
    ensures |ps| == |bs|
    ensures forall i :: 0 <= i < |bs| ==> ps[i] == ((bs[i].categoryId, bs[i].subcategoryId), bs[i].amount)
  {
    seq(|bs|, i requires 0 <= i < |bs| => ((bs[i].categoryId, bs[i].subcategoryId), bs[i].amount))
  }

  /** The (key, amount) pairs the transaction loop visits. */
  function TransactionGroups(ts: seq<Transaction>): (ps: seq<(GroupKey, real)>)
    ensures |ps| == |ts|
    ensures forall i :: 0 <= i < |ts| ==> ps[i] == ((ts[i].categoryId, ts[i].subcategoryId), ts[i].amount)
  {
    seq(|ts|, i requires 0 <= i < |ts| => ((ts[i].categoryId, ts[i].subcategoryId), ts[i].amount))
  }

  /** The sum of the items' budget amounts. */
  function ItemsBudget(items: seq<SummaryItem>): real {
    if items == [] then 0.0 else ItemsBudget(items[..|items| - 1]) + items[|items| - 1].budgetAmount
  }

  /** The item of one group: its names, its two sums and its percentage. */
  function ItemOf(key: GroupKey, budgeted: real, spent: real, currency: string,
                  categories: map<int, Category>, subcategories: map<int, Subcategory>): SummaryItem {
    SummaryItem(key.0, CategoryName(categories, key.0), key.1, SubcategoryName(subcategories, key.1),
                budgeted, spent, currency, Percentage(spent, budgeted))
  }

  lemma {:induction false} ItemsBudgetIsSumTotals(items: seq<SummaryItem>, keys: seq<GroupKey>, ps: seq<(GroupKey, real)>)
    requires |items| == |keys|
    requires forall i :: 0 <= i < |keys| ==> items[i].budgetAmount == Total(ps, keys[i])
    ensures ItemsBudget(items) == SumTotals(keys, ps)
  {
    if items != [] {
      ItemsBudgetIsSumTotals(items[..|items| - 1], keys[..|keys| - 1], ps);
    }
  }

  /**
   * The item loop over `budget_dict.items()`: each key's budget sum, the
   * same key's transaction sum (`transaction_dict.get(key, 0)`), the names
   * and the guarded percentage.
   */
  method SummaryItems(planned: seq<(GroupKey, real)>, spent: seq<(GroupKey, real)>, keys: seq<GroupKey>,
                      budgetTotals: map<GroupKey, real>, spentTotals: map<GroupKey, real>, currency: string,
                      categories: map<int, Category>, subcategories: map<int, Subcategory>)
    returns (items: seq<SummaryItem>)
    requires forall k :: k in keys ==> k in budgetTotals && budgetTotals[k] == Total(planned, k)
    requires forall k :: k in spentTotals <==> k in Keys(spent)
    requires forall k :: k in spentTotals ==> spentTotals[k] == Total(spent, k)
    ensures |items| == |keys|
    ensures forall i :: 0 <= i < |keys| ==>
      items[i] == ItemOf(keys[i], Total(planned, keys[i]), Total(spent, keys[i]), currency, categories, subcategories)
  {
    items := [];
    for i := 0 to |keys|
      invariant |items| == i
      invariant forall j :: 0 <= j < i ==>
        items[j] == ItemOf(keys[j], Total(planned, keys[j]), Total(spent, keys[j]), currency, categories, subcategories)
    {
      var key := keys[i];
      var actual := if key in spentTotals then spentTotals[key] else 0.0;
      if key !in spentTotals {
        AbsentKey(spent, key);
      }
      var percentageUsed := if budgetTotals[key] > 0.0 then actual / budgetTotals[key] * 100.0 else 0.0;
      var subcategoryName := None;
      if Given(key.1) && key.1.value in subcategories {
        subcategoryName := Some(subcategories[key.1.value].name);
      }
      items := items + [SummaryItem(key.0, CategoryName(categories, key.0), key.1, subcategoryName,
                                    budgetTotals[key], actual, currency, percentageUsed)];
    }
  }

  /**
   * get_budget_summary over the budgets overlapping [start, end] and the
   * transactions dated within it, both in the currency: one item per
   * distinct (category, subcategory) of the budgets, in first-seen order,
   * with the group's budget sum, the same key's transaction sum (0 when
   * none) and the guarded percentage. The item budgets add up to
   * total_budget; total_actual sums every selected transaction, whether or
   * not its key has a budget.
   */
  method Summary(start: Date, end: Date, currency: string, budgets: seq<Budget>, transactions: seq<Transaction>,
                 categories: map<int, Category>, subcategories: map<int, Subcategory>)
    returns (summary: BudgetSummary)
    ensures var planned := BudgetGroups(BudgetsOverlapping(budgets, currency, start, end));
      var spent := TransactionGroups(TransactionsWithin(transactions, currency, start, end));
      var keys := Keys(planned);
      && |summary.items| == |keys|
      && (forall i :: 0 <= i < |keys| ==>
            summary.items[i] == ItemOf(keys[i], Total(planned, keys[i]), Total(spent, keys[i]), currency,
                                       categories, subcategories))
      && summary.totalBudget == SumAmounts(planned)
      && summary.totalActual == SumAmounts(spent)
      && summary.overallPercentage == Percentage(summary.totalActual, summary.totalBudget)
    ensures ItemsBudget(summary.items) == summary.totalBudget
    ensures summary.currency == currency && summary.periodStart == start && summary.periodEnd == end
  {
    var planned := BudgetGroups(BudgetsOverlapping(budgets, currency, start, end));
    var spent := TransactionGroups(TransactionsWithin(transactions, currency, start, end));
    var budgetKeys, budgetTotals, _, totalBudget := Tally(planned);
    var spentKeys, spentTotals, _, totalActual := Tally(spent);

    var items := SummaryItems(planned, spent, budgetKeys, budgetTotals, spentTotals, currency,
                              categories, subcategories);
    ItemsBudgetIsSumTotals(items, budgetKeys, planned);
    Conservation(planned);
    var overall := if totalBudget > 0.0 then totalActual / totalBudget * 100.0 else 0.0;
    summary := BudgetSummary(items, totalBudget, totalActual, overall, currency, start, end);
  }

  /** Item keys are exactly the distinct keys among the selected budgets. */
  lemma SummaryKeys(budgets: seq<Budget>, key: GroupKey)
    ensures key in Keys(BudgetGroups(budgets)) <==> exists b :: b in budgets && (b.categoryId, b.subcategoryId) == key
  {
    var ps := BudgetGroups(budgets);
    if key in Keys(ps) {
      var i :| 0 <= i < |ps| && ps[i].0 == key;
      assert budgets[i] in budgets;
    }
    if b :| b in budgets && (b.categoryId, b.subcategoryId) == key {
      var i :| 0 <= i < |budgets| && budgets[i] == b;
      assert ps[i].0 == key;
    }
  }

  /**
   * Spending under a key without a budget still counts in total_actual but
   * in no item: with one budget for category 1 and one 80.0 expense in
   * category 2, the only item's actual amount is 0 while total_actual is 80.
   */
  lemma UnbudgetedSpendingCountsInTotal()
    ensures var day := DateTime(2024, 6, 1, 0);
      var planned := BudgetGroups([Budget(1, None, 100.0, "ZAR", day, DateTime(2024, 6, 30, 0), Monthly)]);
      var spent := TransactionGroups([Transaction(2, None, 80.0, "ZAR", day, "rent", Expense)]);
      Keys(planned) == [(1, None)] && Total(spent, (1, None)) == 0.0 && SumAmounts(spent) == 80.0
  {
    var day := DateTime(2024, 6, 1, 0);
    var planned := BudgetGroups([Budget(1, None, 100.0, "ZAR", day, DateTime(2024, 6, 30, 0), Monthly)]);
    var spent := TransactionGroups([Transaction(2, None, 80.0, "ZAR", day, "rent", Expense)]);
    assert planned[..0] == [] && spent[..0] == [];
  }
}
