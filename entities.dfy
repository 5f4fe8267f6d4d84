/**
 * The records of the budget tracker (the files under app/models) as values, the error
 * kinds its handlers raise, and the small lookups and listing rules they share.
 * Record ids are the keys of the maps that hold the records.
 */
module Entities {
  import opened Wrappers
  import opened Calendar

  /** `CategoryType` (app/models/category.py:9-11). */
  datatype CategoryType = Income | Expense

  /** `PeriodType` (app/models/budget.py:10-12). */
  datatype PeriodType = Monthly | Yearly

  datatype Category = Category(name: string, kind: CategoryType)

  datatype Subcategory = Subcategory(name: string, categoryId: int)

  datatype Budget = Budget(
    categoryId: int,
    subcategoryId: Option<int>,
    amount: real,
    currency: string,
    startDate: Date,
    endDate: Date,
    periodType: PeriodType)

  datatype Transaction = Transaction(
    categoryId: int,
    subcategoryId: Option<int>,
    amount: real,
    currency: string,
    transactionDate: Date,
    description: string,
    kind: CategoryType)

  datatype CurrencyRate = CurrencyRate(
    fromCurrency: string,
    toCurrency: string,
    rate: real,
    effectiveDate: Date)

  /** The table a NotFound error is about. */
  datatype Table = CategoryTable | SubcategoryTable | BudgetTable | TransactionTable

  /**
   * The HTTP errors the handlers raise, by kind; the status code and the
   * message text are not modelled.
   */
  datatype Error =
    | NotFound(table: Table)
    | InvalidCurrency
    | InvalidFromCurrency
    | InvalidToCurrency
    | SameCurrency
    | InvalidDateRange
    | InvalidMonth
    | TypeMismatch
    | InvalidGroupBy

  datatype Result<+T> = Ok(value: T) | Err(error: Error)

  /**
   * Python truthiness of an optional id, as in `if budget.subcategory_id:`:
   * present and non-zero.
   */
  predicate Given(id: Option<int>) {
    id.Some? && id.value != 0
  }

  /** Python truthiness of an optional string filter: present and non-empty. */
  predicate GivenText(s: Option<string>) {
    s.Some? && s.value != ""
  }

  /** The lookup `Subcategory.id == sub AND Subcategory.category_id == cat`. */
  predicate BelongsTo(subcategories: map<int, Subcategory>, sub: int, cat: int) {
    sub in subcategories && subcategories[sub].categoryId == cat
  }

  /** `category.name if category else "Unknown"`. */
  function CategoryName(categories: map<int, Category>, id: int): (name: string)
    ensures id in categories ==> name == categories[id].name
    ensures id !in categories ==> name == "Unknown"
  {
    if id in categories then categories[id].name else "Unknown"
  }

  /** `subcategory.name if subcategory else None`, looked up only for a truthy id. */
  function SubcategoryName(subcategories: map<int, Subcategory>, id: Option<int>): (name: Option<string>)
    ensures name.Some? <==> Given(id) && id.value in subcategories
    ensures name.Some? ==> name.value == subcategories[id.value].name
  {
    if Given(id) && id.value in subcategories then Some(subcategories[id.value].name) else None
  }

  /** The grouping key of the summaries: (category_id, subcategory_id). */
  type GroupKey = (int, Option<int>)

  /** The transaction query of the summaries and reports: same currency, dated within [start, end]. */
  predicate DatedWithin(t: Transaction, currency: string, start: DateTime, end: DateTime) {
    t.currency == currency && AtOrBefore(start, t.transactionDate) && AtOrBefore(t.transactionDate, end)
  }

  /** The budget query of the summaries and reports: same currency, window overlapping [start, end]. */
  predicate Overlaps(b: Budget, currency: string, start: DateTime, end: DateTime) {
    b.currency == currency && AtOrBefore(b.startDate, end) && AtOrBefore(start, b.endDate)
  }

  function TransactionsWithin(ts: seq<Transaction>, currency: string, start: DateTime, end: DateTime)
    : (r: seq<Transaction>)
    ensures forall t :: t in r <==> t in ts && DatedWithin(t, currency, start, end)
  {
    if ts == [] then []
    else
      TransactionsWithin(ts[..|ts| - 1], currency, start, end) +
      (if DatedWithin(ts[|ts| - 1], currency, start, end) then [ts[|ts| - 1]] else [])
  }

  function BudgetsOverlapping(bs: seq<Budget>, currency: string, start: DateTime, end: DateTime)
    : (r: seq<Budget>)
    ensures forall b :: b in r <==> b in bs && Overlaps(b, currency, start, end)
  {
    if bs == [] then []
    else
      BudgetsOverlapping(bs[..|bs| - 1], currency, start, end) +
      (if Overlaps(bs[|bs| - 1], currency, start, end) then [bs[|bs| - 1]] else [])
  }

  /** The sum of the amounts of the transactions of one kind. */
  function KindTotal(ts: seq<Transaction>, kind: CategoryType): real {
    if ts == [] then 0.0
    else KindTotal(ts[..|ts| - 1], kind) + (if ts[|ts| - 1].kind == kind then ts[|ts| - 1].amount else 0.0)
  }

  /** All four tables that reference one another. */
  datatype Tables = Tables(
    categories: map<int, Category>,
    subcategories: map<int, Subcategory>,
    budgets: map<int, Budget>,
    transactions: map<int, Transaction>)
  {
    /** A budget's or transaction's references point at stored records. */
    predicate RefersToStored(categoryId: int, subcategoryId: Option<int>) {
      categoryId in categories && (Given(subcategoryId) ==> subcategoryId.value in subcategories)
    }

    /**
     * Referential integrity: no subcategory, budget or transaction names a
     * category or subcategory that is not stored.
     */
    predicate NoOrphans() {
      && (forall s :: s in subcategories ==> subcategories[s].categoryId in categories)
      && (forall b :: b in budgets ==> RefersToStored(budgets[b].categoryId, budgets[b].subcategoryId))
      && (forall t :: t in transactions ==>
            RefersToStored(transactions[t].categoryId, transactions[t].subcategoryId))
    }
  }

  /**
   * The rows of a table in ascending id order, for ids in [0, bound): the
   * order in which SQLite returns rows of a query without ORDER BY.
   */
  function Rows<T>(m: map<int, T>, bound: int): (rows: seq<(int, T)>)
    ensures forall j :: 0 <= j < |rows| ==> rows[j].0 in m && m[rows[j].0] == rows[j].1 && 0 <= rows[j].0 < bound
    ensures forall i, j :: 0 <= i < j < |rows| ==> rows[i].0 < rows[j].0
    ensures forall id :: 0 <= id < bound && id in m ==> (id, m[id]) in rows
    decreases bound
  {
    if bound <= 0 then []
    else Rows(m, bound - 1) + (if bound - 1 in m then [(bound - 1, m[bound - 1])] else [])
  }

  /** Rows in strictly ascending id order. */
  predicate Ascending<T>(rows: seq<(int, T)>) {
    forall i, j :: 0 <= i < j < |rows| ==> rows[i].0 < rows[j].0
  }

  /**
   * `query.offset(skip).limit(limit)` under SQLite's rules: a negative
   * offset counts as zero and a negative limit means no limit.
   */
  function Page<T>(rows: seq<T>, skip: int, limit: int): (page: seq<T>)
    ensures limit >= 0 ==> |page| <= limit
    ensures var from := if skip < 0 then 0 else if skip > |rows| then |rows| else skip;
      from + |page| <= |rows| && page == rows[from..from + |page|]
    ensures var from := if skip < 0 then 0 else skip;
      (limit < 0 || from + limit >= |rows|) ==> |page| == if from >= |rows| then 0 else |rows| - from
    ensures var from := if skip < 0 then 0 else skip;
      limit >= 0 && from + limit <= |rows| ==> |page| == limit
    ensures skip <= 0 && limit < 0 ==> page == rows
    ensures forall x :: x in page ==> x in rows
  {
    var from := if skip < 0 then 0 else if skip > |rows| then |rows| else skip;
    var until := if limit < 0 || from + limit > |rows| then |rows| else from + limit;
    rows[from..until]
  }

  /** A page of rows in ascending id order is in ascending id order. */
  lemma PageAscending<T>(rows: seq<(int, T)>, skip: int, limit: int)
    requires Ascending(rows)
    ensures Ascending(Page(rows, skip, limit))
  {
  }

  /**
   * Consecutive pages: the page at `skip` of size `limit` followed by
   * everything from `skip + limit` on is everything from `skip` on, and
   * a page comes out shorter than `limit` only when nothing is left after it.
   */
  lemma PageSplit<T>(rows: seq<T>, skip: nat, limit: nat)
    ensures Page(rows, skip, limit) + Page(rows, skip + limit, -1) == Page(rows, skip, -1)
    ensures |Page(rows, skip, limit)| == limit || Page(rows, skip + limit, -1) == []
  {
    var from := if skip > |rows| then |rows| else skip;
    var until := if from + limit > |rows| then |rows| else from + limit;
    assert rows[from..] == rows[from..until] + rows[until..];
  }
}
