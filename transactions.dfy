/**
 * app/api/transactions.py: the checks of create_transaction and
 * update_transaction, the partial update they apply, and
 * get_transaction_summary.
 */
module Transactions {
  import opened Wrappers
  import opened Calendar
  import opened Entities
  import opened Grouping

  // ---------------------------------------------------------------------
  // create_transaction, update_transaction
  // ---------------------------------------------------------------------

  /** What a transaction must satisfy when create_transaction accepts it. */
  predicate AcceptableTransaction(categories: map<int, Category>, subcategories: map<int, Subcategory>,
                                  currencies: seq<string>, t: Transaction) {
    && t.categoryId in categories
    && categories[t.categoryId].kind == t.kind
    && (Given(t.subcategoryId) ==> BelongsTo(subcategories, t.subcategoryId.value, t.categoryId))
    && t.currency in currencies
  }

  /**
   * create_transaction: a missing category, then a category of the other
   * type, then a truthy subcategory outside the category, then a currency
   * outside the allow-list; otherwise the transaction is stored as given.
   */
  function CreateTransaction(categories: map<int, Category>, subcategories: map<int, Subcategory>,
                             currencies: seq<string>, t: Transaction): (r: Result<Transaction>)
    ensures r.Ok? <==> AcceptableTransaction(categories, subcategories, currencies, t)
    ensures r.Ok? ==> r.value == t
    ensures r == Err(NotFound(CategoryTable)) <==> t.categoryId !in categories
    ensures r == Err(TypeMismatch) <==> t.categoryId in categories && categories[t.categoryId].kind != t.kind
    ensures r == Err(NotFound(SubcategoryTable)) <==>
      t.categoryId in categories && categories[t.categoryId].kind == t.kind &&
      Given(t.subcategoryId) && !BelongsTo(subcategories, t.subcategoryId.value, t.categoryId)
    ensures r == Err(InvalidCurrency) <==>
      t.categoryId in categories && categories[t.categoryId].kind == t.kind &&
      (Given(t.subcategoryId) ==> BelongsTo(subcategories, t.subcategoryId.value, t.categoryId)) &&
      t.currency !in currencies
  {
    if t.categoryId !in categories then Err(NotFound(CategoryTable))
    else if categories[t.categoryId].kind != t.kind then Err(TypeMismatch)
    else if Given(t.subcategoryId) && !BelongsTo(subcategories, t.subcategoryId.value, t.categoryId) then
      Err(NotFound(SubcategoryTable))
    else if t.currency !in currencies then Err(InvalidCurrency)
    else Ok(t)
  }

  /**
   * The `TransactionUpdate` payload: each field is None when not supplied.
   * A supplied subcategory is Some(None) for an explicit null.
   */
  datatype TransactionUpdate = TransactionUpdate(
    categoryId: Option<int>,
    subcategoryId: Option<Option<int>>,
    amount: Option<real>,
    currency: Option<string>,
    transactionDate: Option<Date>,
    description: Option<string>,
    kind: Option<CategoryType>)

  datatype TransactionField = CategoryField | SubcategoryField | AmountField | CurrencyField
                            | DateField | DescriptionField | KindField

  /** The fields an update supplies: the keys of `dict(exclude_unset=True)`. */
  function Supplied(u: TransactionUpdate): set<TransactionField> {
    (if u.categoryId.Some? then {CategoryField} else {}) +
    (if u.subcategoryId.Some? then {SubcategoryField} else {}) +
    (if u.amount.Some? then {AmountField} else {}) +
    (if u.currency.Some? then {CurrencyField} else {}) +
    (if u.transactionDate.Some? then {DateField} else {}) +
    (if u.description.Some? then {DescriptionField} else {}) +
    (if u.kind.Some? then {KindField} else {})
  }

  /** The fields in which two transactions differ. */
  function Differences(a: Transaction, b: Transaction): set<TransactionField> {
    (if a.categoryId != b.categoryId then {CategoryField} else {}) +
    (if a.subcategoryId != b.subcategoryId then {SubcategoryField} else {}) +
    (if a.amount != b.amount then {AmountField} else {}) +
    (if a.currency != b.currency then {CurrencyField} else {}) +
    (if a.transactionDate != b.transactionDate then {DateField} else {}) +
    (if a.description != b.description then {DescriptionField} else {}) +
    (if a.kind != b.kind then {KindField} else {})
  }

  /**
   * The `setattr` loop over the supplied fields: those take the supplied
   * values and no other field changes.
   */
  function ApplyTransactionUpdate(t: Transaction, u: TransactionUpdate): (r: Transaction)
    ensures Differences(t, r) <= Supplied(u)
    ensures u.categoryId.Some? ==> r.categoryId == u.categoryId.value
    ensures u.subcategoryId.Some? ==> r.subcategoryId == u.subcategoryId.value
    ensures u.amount.Some? ==> r.amount == u.amount.value
    ensures u.currency.Some? ==> r.currency == u.currency.value
    ensures u.transactionDate.Some? ==> r.transactionDate == u.transactionDate.value
    ensures u.description.Some? ==> r.description == u.description.value
    ensures u.kind.Some? ==> r.kind == u.kind.value
  {
    Transaction(
      u.categoryId.GetOr(t.categoryId),
      u.subcategoryId.GetOr(t.subcategoryId),
      u.amount.GetOr(t.amount),
      u.currency.GetOr(t.currency),
      u.transactionDate.GetOr(t.transactionDate),
      u.description.GetOr(t.description),
      u.kind.GetOr(t.kind))
  }

  /**
   * The first check of update_transaction: when the category or the type is
   * supplied, the merged category exists and has the merged type.
   */
  predicate KindChecked(categories: map<int, Category>, current: Transaction, u: TransactionUpdate) {
    var category := u.categoryId.GetOr(current.categoryId);
    u.categoryId.Some? || u.kind.Some? ==>
      category in categories && categories[category].kind == u.kind.GetOr(current.kind)
  }

  /** The second check: a supplied non-null subcategory belongs to the merged category. */
  predicate SubcategoryChecked(subcategories: map<int, Subcategory>, current: Transaction, u: TransactionUpdate) {
    u.subcategoryId.Some? && u.subcategoryId.value.Some? ==>
      BelongsTo(subcategories, u.subcategoryId.value.value, u.categoryId.GetOr(current.categoryId))
  }

  /** The checks of update_transaction, all of which must pass. */
  predicate AcceptableUpdate(categories: map<int, Category>, subcategories: map<int, Subcategory>,
                             currencies: seq<string>, current: Transaction, u: TransactionUpdate) {
    && KindChecked(categories, current, u)
    && SubcategoryChecked(subcategories, current, u)
    && (u.currency.Some? ==> u.currency.value in currencies)
  }

  /**
   * update_transaction on a stored transaction. The checks run in order and
   * the first that fails names the error: the merged category must exist
   * and have the merged type when either is supplied; a supplied non-null
   * subcategory must belong to the merged category; a supplied currency
   * must be allowed. On success the supplied fields are applied.
   */
  function UpdateTransaction(categories: map<int, Category>, subcategories: map<int, Subcategory>,
                             currencies: seq<string>, current: Transaction, u: TransactionUpdate)
    : (r: Result<Transaction>)
    ensures r.Ok? <==> AcceptableUpdate(categories, subcategories, currencies, current, u)
    ensures r.Ok? ==> r.value == ApplyTransactionUpdate(current, u)
    ensures r == Err(NotFound(CategoryTable)) <==>
      (u.categoryId.Some? || u.kind.Some?) && u.categoryId.GetOr(current.categoryId) !in categories
    ensures r == Err(TypeMismatch) <==>
      (u.categoryId.Some? || u.kind.Some?) && u.categoryId.GetOr(current.categoryId) in categories &&
      categories[u.categoryId.GetOr(current.categoryId)].kind != u.kind.GetOr(current.kind)
    ensures r == Err(NotFound(SubcategoryTable)) <==>
      KindChecked(categories, current, u) && !SubcategoryChecked(subcategories, current, u)
    ensures r == Err(InvalidCurrency) <==>
      KindChecked(categories, current, u) && SubcategoryChecked(subcategories, current, u) &&
      u.currency.Some? && u.currency.value !in currencies
    ensures r.Err? ==> r.error in {NotFound(CategoryTable), TypeMismatch, NotFound(SubcategoryTable), InvalidCurrency}
  {
    var category := u.categoryId.GetOr(current.categoryId);
    var kind := u.kind.GetOr(current.kind);
    if (u.categoryId.Some? || u.kind.Some?) && category !in categories then Err(NotFound(CategoryTable))
    else if (u.categoryId.Some? || u.kind.Some?) && categories[category].kind != kind then Err(TypeMismatch)
    else if u.subcategoryId.Some? && u.subcategoryId.value.Some? &&
            !BelongsTo(subcategories, u.subcategoryId.value.value, category) then
      Err(NotFound(SubcategoryTable))
    else if u.currency.Some? && u.currency.value !in currencies then Err(InvalidCurrency)
    else Ok(ApplyTransactionUpdate(current, u))
  }

  /**
   * An accepted update keeps a stored transaction's references pointing at
   * stored records, its currency allowed and, when its type matched its
   * category before, the match.
   */
  lemma UpdateKeepsTransactionStored(tables: Tables, currencies: seq<string>, current: Transaction, u: TransactionUpdate)
    requires tables.RefersToStored(current.categoryId, current.subcategoryId)
    requires current.currency in currencies
    ensures var r := UpdateTransaction(tables.categories, tables.subcategories, currencies, current, u);
      r.Ok? ==>
        && tables.RefersToStored(r.value.categoryId, r.value.subcategoryId)
        && r.value.currency in currencies
        && (tables.categories[current.categoryId].kind == current.kind ==>
              tables.categories[r.value.categoryId].kind == r.value.kind)
  {
  }

  /**
   * An update that supplies neither the category nor the type is not
   * checked against the category at all: a stored transaction whose type no
   * longer matches its category accepts a new description.
   */
  lemma TypeCheckedOnlyWhenSupplied()
    ensures var current := Transaction(1, None, 25.0, "ZAR", DateTime(2024, 6, 3, 0), "lunch", Income);
      var u := TransactionUpdate(None, None, None, None, None, Some("dinner"), None);
      UpdateTransaction(map[1 := Category("Food", Expense)], map[], ["ZAR", "INR"], current, u) ==
        Ok(current.(description := "dinner"))
  {
  }

  // ---------------------------------------------------------------------
  // get_transaction_summary
  // ---------------------------------------------------------------------

  datatype GroupBy = ByCategory | BySubcategory

  /** The `group_by` check: only "category" and "subcategory" are accepted. */
  function ParseGroupBy(groupBy: string): (r: Result<GroupBy>)
    ensures r == Ok(ByCategory) <==> groupBy == "category"
    ensures r == Ok(BySubcategory) <==> groupBy == "subcategory"
    ensures r.Err? <==> groupBy != "category" && groupBy != "subcategory"
    ensures r.Err? ==> r.error == InvalidGroupBy
  {
    if groupBy == "category" then Ok(ByCategory)
    else if groupBy == "subcategory" then Ok(BySubcategory)
    else Err(InvalidGroupBy)
  }

  /** The `group_by` value that selects a mode. */
  function GroupByName(mode: GroupBy): string {
    match mode
    case ByCategory => "category"
    case BySubcategory => "subcategory"
  }

  /** Each mode is selected by exactly one `group_by` value, its name. */
  lemma ParseGroupByRoundTrip(mode: GroupBy, groupBy: string)
    ensures ParseGroupBy(GroupByName(mode)) == Ok(mode)
    ensures ParseGroupBy(groupBy) == Ok(mode) <==> groupBy == GroupByName(mode)
  {
  }

  /** The grouping key: the subcategory is part of it only when grouping by subcategory. */
  function KeyOf(t: Transaction, mode: GroupBy): (key: GroupKey)
    ensures key.0 == t.categoryId
    ensures mode == ByCategory ==> key.1 == None
    ensures mode == BySubcategory ==> key.1 == t.subcategoryId
  {
    (t.categoryId, if mode == BySubcategory then t.subcategoryId else None)
  }

  /** The (key, amount) pairs the summary loop visits. */
  function Groups(ts: seq<Transaction>, mode: GroupBy): (ps: seq<(GroupKey, real)>)
    ensures |ps| == |ts|
    ensures forall i :: 0 <= i < |ts| ==> ps[i] == (KeyOf(ts[i], mode), ts[i].amount)
  {
    seq(|ts|, i requires 0 <= i < |ts| => (KeyOf(ts[i], mode), ts[i].amount))
  }

  /**
   * The groups of each mode: by category, one group per category that some
   * transaction names, whatever its subcategories; by subcategory, one group
   * per (category, subcategory) pair that some transaction has.
   */
  lemma GroupsKeys(ts: seq<Transaction>, key: GroupKey)
    ensures HasKey(Groups(ts, ByCategory), key) <==>
      key.1 == None && exists t :: t in ts && t.categoryId == key.0
    ensures HasKey(Groups(ts, BySubcategory), key) <==>
      exists t :: t in ts && (t.categoryId, t.subcategoryId) == key
  {
    forall mode: GroupBy ensures HasKey(Groups(ts, mode), key) <==> exists t :: t in ts && KeyOf(t, mode) == key {
      var ps := Groups(ts, mode);
      if HasKey(ps, key) {
        var i :| 0 <= i < |ps| && ps[i].0 == key;
        assert ts[i] in ts;
      }
      if t :| t in ts && KeyOf(t, mode) == key {
        var i :| 0 <= i < |ts| && ts[i] == t;
        assert ps[i].0 == key;
      }
    }
  }

  datatype SummaryItem = SummaryItem(
    categoryId: int,
    categoryName: string,
    subcategoryId: Option<int>,
    subcategoryName: Option<string>,
    totalAmount: real,
    transactionCount: nat,
    currency: string,
    kind: CategoryType)

  /** The summary; the period text is left as the two dates it formats. */
  datatype TransactionSummary = TransactionSummary(
    items: seq<SummaryItem>,
    totalIncome: real,
    totalExpense: real,
    netAmount: real,
    currency: string,
    periodStart: Date,
    periodEnd: Date)

  /** The item of one group; its type is its category's, or expense for a missing category. */
  function ItemOf(key: GroupKey, total: real, count: nat, currency: string,
                  categories: map<int, Category>, subcategories: map<int, Subcategory>): (item: SummaryItem)
    ensures item.kind == if key.0 in categories then categories[key.0].kind else Expense
  {
    SummaryItem(key.0, CategoryName(categories, key.0), key.1, SubcategoryName(subcategories, key.1),
                total, count, currency, if key.0 in categories then categories[key.0].kind else Expense)
  }

  function ItemsAmount(items: seq<SummaryItem>): real {
    if items == [] then 0.0 else ItemsAmount(items[..|items| - 1]) + items[|items| - 1].totalAmount
  }

  function ItemsCount(items: seq<SummaryItem>): nat {
    if items == [] then 0 else ItemsCount(items[..|items| - 1]) + items[|items| - 1].transactionCount
  }

  lemma {:induction false} ItemsAddUp(items: seq<SummaryItem>, keys: seq<GroupKey>, ps: seq<(GroupKey, real)>)
    requires |items| == |keys|
    requires forall i :: 0 <= i < |keys| ==>
      items[i].totalAmount == Total(ps, keys[i]) && items[i].transactionCount == Count(ps, keys[i])
    ensures ItemsAmount(items) == SumTotals(keys, ps)
    ensures ItemsCount(items) == SumCounts(keys, ps)
  {
    if items != [] {
      ItemsAddUp(items[..|items| - 1], keys[..|keys| - 1], ps);
    }
  }

  /** Every transaction is income or expense, so the grouped amounts add up to both totals. */
  lemma {:induction false} GroupsTotal(ts: seq<Transaction>, mode: GroupBy)
    ensures SumAmounts(Groups(ts, mode)) == KindTotal(ts, Income) + KindTotal(ts, Expense)
  {
    if ts != [] {
      var prefix := ts[..|ts| - 1];
      assert Groups(ts, mode)[..|ts| - 1] == Groups(prefix, mode);
      GroupsTotal(prefix, mode);
    }
  }

  /** The running totals: income transactions into one, every other transaction into the other. */
  method KindTotals(ts: seq<Transaction>) returns (income: real, expense: real)
    ensures income == KindTotal(ts, Income) && expense == KindTotal(ts, Expense)
  {
    income, expense := 0.0, 0.0;
    for i := 0 to |ts|
      invariant income == KindTotal(ts[..i], Income) && expense == KindTotal(ts[..i], Expense)
    {
      assert ts[..i + 1][..i] == ts[..i];
      if ts[i].kind == Income {
        income := income + ts[i].amount;
      } else {
        expense := expense + ts[i].amount;
      }
    }
    assert ts[..|ts|] == ts;
  }

  /** The item loop over `transaction_dict.items()`, with `count_dict[key]`. */
  method SummaryItems(ps: seq<(GroupKey, real)>, keys: seq<GroupKey>, totals: map<GroupKey, real>,
                      counts: map<GroupKey, nat>, currency: string,
                      categories: map<int, Category>, subcategories: map<int, Subcategory>)
    returns (items: seq<SummaryItem>)
    requires forall k :: k in keys ==> k in totals && totals[k] == Total(ps, k)
    requires forall k :: k in keys ==> k in counts && counts[k] == Count(ps, k)
    ensures |items| == |keys|
    ensures forall i :: 0 <= i < |keys| ==>
      items[i] == ItemOf(keys[i], Total(ps, keys[i]), Count(ps, keys[i]), currency, categories, subcategories)
  {
    items := [];
    for i := 0 to |keys|
      invariant |items| == i
      invariant forall j :: 0 <= j < i ==>
        items[j] == ItemOf(keys[j], Total(ps, keys[j]), Count(ps, keys[j]), currency, categories, subcategories)
    {
      var key := keys[i];
      var subcategoryName := None;
      if Given(key.1) && key.1.value in subcategories {
        subcategoryName := Some(subcategories[key.1.value].name);
      }
      var kind := if key.0 in categories then categories[key.0].kind else Expense;
      items := items + [SummaryItem(key.0, CategoryName(categories, key.0), key.1, subcategoryName,
                                    totals[key], counts[key], currency, kind)];
    }
  }

  /**
   * get_transaction_summary over the transactions dated within [start, end]
   * in the currency: a `group_by` other than "category" or "subcategory" is
   * rejected; otherwise one item per distinct key, in first-seen order, with
   * the key's total and count. The counts add up to the number of selected
   * transactions, the totals to total_income + total_expense, and
   * net_amount is their difference.
   */
  method Summary(start: Date, end: Date, currency: string, groupBy: string, transactions: seq<Transaction>,
                 categories: map<int, Category>, subcategories: map<int, Subcategory>)
    returns (r: Result<TransactionSummary>)
    ensures r.Err? <==> groupBy != "category" && groupBy != "subcategory"
    ensures r.Err? ==> r.error == InvalidGroupBy
    ensures r.Ok? ==>
      var selected := TransactionsWithin(transactions, currency, start, end);
      var ps := Groups(selected, if groupBy == "subcategory" then BySubcategory else ByCategory);
      var keys := Keys(ps);
      var s := r.value;
      && |s.items| == |keys|
      && (forall i :: 0 <= i < |keys| ==>
            s.items[i] == ItemOf(keys[i], Total(ps, keys[i]), Count(ps, keys[i]), currency, categories, subcategories))
      && s.totalIncome == KindTotal(selected, Income)
      && s.totalExpense == KindTotal(selected, Expense)
      && s.netAmount == s.totalIncome - s.totalExpense
      && ItemsCount(s.items) == |selected|
      && ItemsAmount(s.items) == s.totalIncome + s.totalExpense
      && s.currency == currency && s.periodStart == start && s.periodEnd == end
  {
    var mode := ParseGroupBy(groupBy);
    if mode.Err? {
      return Err(mode.error);
    }
    var selected := TransactionsWithin(transactions, currency, start, end);
    var ps := Groups(selected, mode.value);
    var keys, totals, counts, _ := Tally(ps);
    var totalIncome, totalExpense := KindTotals(selected);
    var items := SummaryItems(ps, keys, totals, counts, currency, categories, subcategories);
    ItemsAddUp(items, keys, ps);
    Conservation(ps);
    GroupsTotal(selected, mode.value);
    r := Ok(TransactionSummary(items, totalIncome, totalExpense, totalIncome - totalExpense, currency, start, end));
  }
}
