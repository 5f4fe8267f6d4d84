/**
 * The database behind the API handlers: the four related tables, the
 * currency-rate table and the id counter. Each method is one handler's
 * write path (app/api/categories.py, subcategories.py, budgets.py,
 * transactions.py, settings.py): it runs the handler's checks, which are
 * the functions of the other modules, and then adds, replaces or deletes
 * records. Every method keeps `Valid`: references point at stored records
 * (with the ORM's cascades on delete), stored budgets and transactions
 * carry allowed currencies, budgets have start before end, and stored
 * rates are distinct on their unique key.
 */
module Store {
  import opened Wrappers
  import opened Calendar
  import opened Entities
  import Categories
  import Subcategories
  import Budgets
  import Transactions
  import Settings

  class Store {
    /** The currency allow-list (app/config.py: ZAR and INR in the shipped settings). */
    const currencies: seq<string>
    var categories: map<int, Category>
    var subcategories: map<int, Subcategory>
    var budgets: map<int, Budget>
    var transactions: map<int, Transaction>
    var rates: seq<CurrencyRate>
    /** The id the next inserted record receives; every stored id is below it. */
    var nextId: int

    function Snapshot(): Tables
      reads this
    {
      Tables(categories, subcategories, budgets, transactions)
    }

    ghost predicate Valid()
      reads this
    {
      && 1 <= nextId
      && (forall id :: id in categories ==> 1 <= id < nextId)
      && (forall id :: id in subcategories ==> 1 <= id < nextId)
      && (forall id :: id in budgets ==> 1 <= id < nextId)
      && (forall id :: id in transactions ==> 1 <= id < nextId)
      && Snapshot().NoOrphans()
      && (forall b :: b in budgets ==> budgets[b].currency in currencies && Before(budgets[b].startDate, budgets[b].endDate))
      && (forall x :: x in transactions ==> transactions[x].currency in currencies)
      && Settings.UniqueKeys(rates)
      && (forall i :: 0 <= i < |rates| ==>
            rates[i].fromCurrency in currencies && rates[i].toCurrency in currencies &&
            rates[i].fromCurrency != rates[i].toCurrency)
    }

    constructor(currencies: seq<string>)
      ensures Valid()
      ensures this.currencies == currencies
      ensures Snapshot() == Tables(map[], map[], map[], map[]) && rates == [] && nextId == 1
    {
      this.currencies := currencies;
      categories, subcategories, budgets, transactions := map[], map[], map[], map[];
      rates := [];
      nextId := 1;
    }

    // -------------------------------------------------------------------
    // categories
    // -------------------------------------------------------------------

    /** create_category: every category is accepted and gets a fresh id. */
    method CreateCategory(c: Category) returns (id: int)
      requires Valid()
      modifies this
      ensures Valid()
      ensures id == old(nextId) && id !in old(categories) && nextId == old(nextId) + 1
      ensures Snapshot() == old(Snapshot()).(categories := old(categories)[id := c]) && rates == old(rates)
    {
      id := nextId;
      categories := categories[id := c];
      nextId := nextId + 1;
    }

    /** update_category. */
    method UpdateCategory(id: int, u: Categories.CategoryUpdate) returns (r: Result<Category>)
      requires Valid()
      modifies this
      ensures Valid()
      ensures r == Categories.UpdateCategory(old(categories), id, u)
      ensures r.Err? ==> unchanged(this)
      ensures r.Ok? ==>
        Snapshot() == old(Snapshot()).(categories := old(categories)[id := r.value]) &&
        rates == old(rates) && nextId == old(nextId)
    {
      r := Categories.UpdateCategory(categories, id, u);
      if r.Ok? {
        categories := categories[id := r.value];
      }
    }

    /** delete_category, with the cascades of app/models/category.py. */
    method DeleteCategory(id: int) returns (r: Result<()>)
      requires Valid()
      modifies this
      ensures Valid()
      ensures r.Err? <==> id !in old(categories)
      ensures r.Err? ==> r.error == NotFound(CategoryTable) && unchanged(this)
      ensures r.Ok? ==>
        Snapshot() == Categories.DeleteCategory(old(Snapshot()), id) && rates == old(rates) && nextId == old(nextId)
    {
      if id !in categories {
        return Err(NotFound(CategoryTable));
      }
      var t := Categories.DeleteCategory(Snapshot(), id);
      categories, subcategories, budgets, transactions := t.categories, t.subcategories, t.budgets, t.transactions;
      r := Ok(());
    }

    // -------------------------------------------------------------------
    // subcategories
    // -------------------------------------------------------------------

    /** create_subcategory. */
    method CreateSubcategory(s: Subcategory) returns (r: Result<int>)
      requires Valid()
      modifies this
      ensures Valid()
      ensures r.Err? <==> Subcategories.CreateSubcategory(old(categories), s).Err?
      ensures r.Err? ==> r.error == NotFound(CategoryTable) && unchanged(this)
      ensures r.Ok? ==>
        && r.value == old(nextId) && r.value !in old(subcategories) && nextId == old(nextId) + 1
        && Snapshot() == old(Snapshot()).(subcategories := old(subcategories)[r.value := s])
        && rates == old(rates)
    {
      var checked := Subcategories.CreateSubcategory(categories, s);
      if checked.Err? {
        return Err(checked.error);
      }
      r := Ok(nextId);
      subcategories := subcategories[nextId := s];
      nextId := nextId + 1;
    }

    /** update_subcategory. */
    method UpdateSubcategory(id: int, u: Subcategories.SubcategoryUpdate) returns (r: Result<Subcategory>)
      requires Valid()
      modifies this
      ensures Valid()
      ensures r == Subcategories.UpdateSubcategory(old(categories), old(subcategories), id, u)
      ensures r.Err? ==> unchanged(this)
      ensures r.Ok? ==>
        Snapshot() == old(Snapshot()).(subcategories := old(subcategories)[id := r.value]) &&
        rates == old(rates) && nextId == old(nextId)
    {
      r := Subcategories.UpdateSubcategory(categories, subcategories, id, u);
      if r.Ok? {
        subcategories := subcategories[id := r.value];
      }
    }

    /** delete_subcategory, with the cascades of app/models/category.py. */
    method DeleteSubcategory(id: int) returns (r: Result<()>)
      requires Valid()
      modifies this
      ensures Valid()
      ensures r.Err? <==> id !in old(subcategories)
      ensures r.Err? ==> r.error == NotFound(SubcategoryTable) && unchanged(this)
      ensures r.Ok? ==>
        Snapshot() == Subcategories.DeleteSubcategory(old(Snapshot()), id) && rates == old(rates) && nextId == old(nextId)
    {
      if id !in subcategories {
        return Err(NotFound(SubcategoryTable));
      }
      var t := Subcategories.DeleteSubcategory(Snapshot(), id);
      subcategories, budgets, transactions := t.subcategories, t.budgets, t.transactions;
      r := Ok(());
    }

    // -------------------------------------------------------------------
    // budgets
    // -------------------------------------------------------------------

    /** create_budget. */
    method CreateBudget(b: Budget) returns (r: Result<int>)
      requires Valid()
      modifies this
      ensures Valid()
      ensures r.Err? <==> Budgets.CreateBudget(old(categories), old(subcategories), currencies, b).Err?
      ensures r.Err? ==> r.error == Budgets.CreateBudget(old(categories), old(subcategories), currencies, b).error
      ensures r.Err? ==> unchanged(this)
      ensures r.Ok? ==>
        && r.value == old(nextId) && r.value !in old(budgets) && nextId == old(nextId) + 1
        && Snapshot() == old(Snapshot()).(budgets := old(budgets)[r.value := b])
        && rates == old(rates)
    {
      var checked := Budgets.CreateBudget(categories, subcategories, currencies, b);
      if checked.Err? {
        return Err(checked.error);
      }
      r := Ok(nextId);
      budgets := budgets[nextId := b];
      nextId := nextId + 1;
    }

    /** update_budget: NotFound for an unknown id, then the checks of Budgets.UpdateBudget. */
    method UpdateBudget(id: int, u: Budgets.BudgetUpdate) returns (r: Result<Budget>)
      requires Valid()
      modifies this
      ensures Valid()
      ensures id !in old(budgets) ==> r == Err(NotFound(BudgetTable))
      ensures id in old(budgets) ==>
        r == Budgets.UpdateBudget(old(categories), old(subcategories), currencies, old(budgets)[id], u)
      ensures r.Err? ==> unchanged(this)
      ensures r.Ok? ==>
        Snapshot() == old(Snapshot()).(budgets := old(budgets)[id := r.value]) &&
        rates == old(rates) && nextId == old(nextId)
    {
      if id !in budgets {
        return Err(NotFound(BudgetTable));
      }
      r := Budgets.UpdateBudget(categories, subcategories, currencies, budgets[id], u);
      if r.Ok? {
        Budgets.UpdateKeepsBudgetStored(Snapshot(), currencies, budgets[id], u);
        budgets := budgets[id := r.value];
      }
    }

    /** delete_budget. */
    method DeleteBudget(id: int) returns (r: Result<()>)
      requires Valid()
      modifies this
      ensures Valid()
      ensures r.Err? <==> id !in old(budgets)
      ensures r.Err? ==> r.error == NotFound(BudgetTable) && unchanged(this)
      ensures r.Ok? ==>
        Snapshot() == old(Snapshot()).(budgets := old(budgets) - {id}) && rates == old(rates) && nextId == old(nextId)
    {
      if id !in budgets {
        return Err(NotFound(BudgetTable));
      }
      budgets := budgets - {id};
      r := Ok(());
    }

    // -------------------------------------------------------------------
    // transactions
    // -------------------------------------------------------------------

    /** create_transaction. */
    method CreateTransaction(x: Transaction) returns (r: Result<int>)
      requires Valid()
      modifies this
      ensures Valid()
      ensures r.Err? <==> Transactions.CreateTransaction(old(categories), old(subcategories), currencies, x).Err?
      ensures r.Err? ==> r.error == Transactions.CreateTransaction(old(categories), old(subcategories), currencies, x).error
      ensures r.Err? ==> unchanged(this)
      ensures r.Ok? ==>
        && r.value == old(nextId) && r.value !in old(transactions) && nextId == old(nextId) + 1
        && Snapshot() == old(Snapshot()).(transactions := old(transactions)[r.value := x])
        && rates == old(rates)
    {
      var checked := Transactions.CreateTransaction(categories, subcategories, currencies, x);
      if checked.Err? {
        return Err(checked.error);
      }
      r := Ok(nextId);
      transactions := transactions[nextId := x];
      nextId := nextId + 1;
    }

    /** update_transaction: NotFound for an unknown id, then the checks of Transactions.UpdateTransaction. */
    method UpdateTransaction(id: int, u: Transactions.TransactionUpdate) returns (r: Result<Transaction>)
      requires Valid()
      modifies this
      ensures Valid()
      ensures id !in old(transactions) ==> r == Err(NotFound(TransactionTable))
      ensures id in old(transactions) ==>
        r == Transactions.UpdateTransaction(old(categories), old(subcategories), currencies, old(transactions)[id], u)
      ensures r.Err? ==> unchanged(this)
      ensures r.Ok? ==>
        Snapshot() == old(Snapshot()).(transactions := old(transactions)[id := r.value]) &&
        rates == old(rates) && nextId == old(nextId)
    {
      if id !in transactions {
        return Err(NotFound(TransactionTable));
      }
      r := Transactions.UpdateTransaction(categories, subcategories, currencies, transactions[id], u);
      if r.Ok? {
        Transactions.UpdateKeepsTransactionStored(Snapshot(), currencies, transactions[id], u);
        transactions := transactions[id := r.value];
      }
    }

    /** delete_transaction. */
    method DeleteTransaction(id: int) returns (r: Result<()>)
      requires Valid()
      modifies this
      ensures Valid()
      ensures r.Err? <==> id !in old(transactions)
      ensures r.Err? ==> r.error == NotFound(TransactionTable) && unchanged(this)
      ensures r.Ok? ==>
        Snapshot() == old(Snapshot()).(transactions := old(transactions) - {id}) &&
        rates == old(rates) && nextId == old(nextId)
    {
      if id !in transactions {
        return Err(NotFound(TransactionTable));
      }
      transactions := transactions - {id};
      r := Ok(());
    }

    // -------------------------------------------------------------------
    // currency rates
    // -------------------------------------------------------------------

    /** create_currency_rate: the checks, then the upsert on the unique key. */
    method CreateCurrencyRate(rate: CurrencyRate) returns (r: Result<CurrencyRate>)
      requires Valid()
      modifies this
      ensures Valid()
      ensures r.Err? <==> Settings.CheckRate(currencies, rate).Err?
      ensures r.Err? ==> r.error == Settings.CheckRate(currencies, rate).error && unchanged(this)
      ensures r.Ok? ==>
        && (rates, r.value) == Settings.Upsert(old(rates), rate)
        && Snapshot() == old(Snapshot()) && nextId == old(nextId)
    {
      var result := Settings.CreateCurrencyRate(currencies, rates, rate);
      if result.Err? {
        return Err(result.error);
      }
      Settings.UpsertKeepsKeysUnique(rates, rate);
      ghost var before := rates;
      rates := result.value.0;
      r := Ok(result.value.1);
      assert forall i :: 0 <= i < |rates| ==>
        rates[i] == rate || (rates[i].fromCurrency == before[i].fromCurrency && rates[i].toCurrency == before[i].toCurrency);
    }
  }
}
