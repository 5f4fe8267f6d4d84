/**
 * app/api/settings.py: the currency-rate checks and upsert, the rate
 * listing, and the user's default-currency preference.
 */
module Settings {
  import opened Wrappers
  import opened Calendar
  import opened Entities

  // ---------------------------------------------------------------------
  // create_currency_rate
  // ---------------------------------------------------------------------

  /**
   * The checks of create_currency_rate: the source currency, then the
   * target currency must be allowed, and they must differ.
   */
  function CheckRate(currencies: seq<string>, r: CurrencyRate): (result: Result<CurrencyRate>)
    ensures result.Ok? <==> r.fromCurrency in currencies && r.toCurrency in currencies && r.fromCurrency != r.toCurrency
    ensures result.Ok? ==> result.value == r
    ensures result == Err(InvalidFromCurrency) <==> r.fromCurrency !in currencies
    ensures result == Err(InvalidToCurrency) <==> r.fromCurrency in currencies && r.toCurrency !in currencies
    ensures result == Err(SameCurrency) <==>
      r.fromCurrency in currencies && r.toCurrency in currencies && r.fromCurrency == r.toCurrency
  {
    if r.fromCurrency !in currencies then Err(InvalidFromCurrency)
    else if r.toCurrency !in currencies then Err(InvalidToCurrency)
    else if r.fromCurrency == r.toCurrency then Err(SameCurrency)
    else Ok(r)
  }

  /** The unique key of app/models/currency.py: (from_currency, to_currency, effective_date). */
  datatype RateKey = RateKey(fromCurrency: string, toCurrency: string, effectiveDate: Date)

  function KeyOf(r: CurrencyRate): RateKey {
    RateKey(r.fromCurrency, r.toCurrency, r.effectiveDate)
  }

  /** The unique constraint: no two stored rates share a key. */
  predicate UniqueKeys(rates: seq<CurrencyRate>) {
    forall i, j :: 0 <= i < j < |rates| ==> KeyOf(rates[i]) != KeyOf(rates[j])
  }

  /**
   * The first stored rate with the key, in storage order: what the lookup
   * `.first()` returns.
   */
  function FindRate(rates: seq<CurrencyRate>, key: RateKey): (found: Option<nat>)
    ensures found.Some? ==> found.value < |rates| && KeyOf(rates[found.value]) == key
    ensures found.Some? ==> forall j :: 0 <= j < found.value ==> KeyOf(rates[j]) != key
    ensures found.None? <==> forall j :: 0 <= j < |rates| ==> KeyOf(rates[j]) != key
  {
    if rates == [] then None
    else if KeyOf(rates[0]) == key then Some(0)
    else
      var rest := FindRate(rates[1..], key);
      if rest.Some? then Some(rest.value + 1) else None
  }

  /**
   * The upsert: a stored rate with the same key gets the new `rate` and
   * nothing else changes; otherwise the rate is appended. Returns the new
   * table and the record the handler returns.
   */
  function Upsert(rates: seq<CurrencyRate>, r: CurrencyRate): (result: (seq<CurrencyRate>, CurrencyRate))
    ensures var (updated, stored) := result;
      match FindRate(rates, KeyOf(r))
      case Some(i) =>
        && |updated| == |rates|
        && updated[i] == rates[i].(rate := r.rate)
        && (forall j :: 0 <= j < |rates| && j != i ==> updated[j] == rates[j])
        && stored == updated[i]
      case None => updated == rates + [r] && stored == r
  {
    match FindRate(rates, KeyOf(r))
    case Some(i) => (rates[i := rates[i].(rate := r.rate)], rates[i].(rate := r.rate))
    case None => (rates + [r], r)
  }

  /** The upsert keeps keys unique. */
  lemma UpsertKeepsKeysUnique(rates: seq<CurrencyRate>, r: CurrencyRate)
    requires UniqueKeys(rates)
    ensures UniqueKeys(Upsert(rates, r).0)
  {
    var updated := Upsert(rates, r).0;
    match FindRate(rates, KeyOf(r))
    case Some(i) =>
      forall a, b | 0 <= a < b < |updated| ensures KeyOf(updated[a]) != KeyOf(updated[b]) {
        assert KeyOf(updated[a]) == KeyOf(rates[a]) && KeyOf(updated[b]) == KeyOf(rates[b]);
      }
    case None =>
      forall a, b | 0 <= a < b < |updated| ensures KeyOf(updated[a]) != KeyOf(updated[b]) {
        if b == |rates| {
          assert KeyOf(updated[a]) == KeyOf(rates[a]);
        }
      }
  }

  /** After the upsert, looking the key up finds the submitted rate; the record returned is the one stored. */
  lemma UpsertThenFind(rates: seq<CurrencyRate>, r: CurrencyRate)
    ensures var (updated, stored) := Upsert(rates, r);
      var found := FindRate(updated, KeyOf(r));
      found.Some? && updated[found.value] == stored && stored.rate == r.rate && KeyOf(stored) == KeyOf(r)
  {
    var updated := Upsert(rates, r).0;
    match FindRate(rates, KeyOf(r))
    case Some(i) =>
      assert KeyOf(updated[i]) == KeyOf(r);
    case None =>
      assert KeyOf(updated[|rates|]) == KeyOf(r);
  }

  /** An upsert adds a record exactly when no stored rate had the key. */
  lemma UpsertGrowsOnlyForNewKey(rates: seq<CurrencyRate>, r: CurrencyRate)
    ensures |Upsert(rates, r).0| == if exists j :: 0 <= j < |rates| && KeyOf(rates[j]) == KeyOf(r) then |rates| else |rates| + 1
  {
    if FindRate(rates, KeyOf(r)).Some? {
      var i := FindRate(rates, KeyOf(r)).value;
      assert 0 <= i < |rates| && KeyOf(rates[i]) == KeyOf(r);
    }
  }

  /** create_currency_rate: the checks, then the upsert. */
  function CreateCurrencyRate(currencies: seq<string>, rates: seq<CurrencyRate>, r: CurrencyRate)
    : (result: Result<(seq<CurrencyRate>, CurrencyRate)>)
    ensures result.Err? <==> CheckRate(currencies, r).Err?
    ensures result.Err? ==> result.error == CheckRate(currencies, r).error
    ensures result.Ok? ==> result.value == Upsert(rates, r)
  {
    match CheckRate(currencies, r)
    case Err(e) => Err(e)
    case Ok(_) => Ok(Upsert(rates, r))
  }

  // ---------------------------------------------------------------------
  // get_currency_rates
  // ---------------------------------------------------------------------

  /** The filters `from_currency` and `to_currency`, each applied only when truthy. */
  predicate MatchesRate(r: CurrencyRate, fromCurrency: Option<string>, toCurrency: Option<string>) {
    (GivenText(fromCurrency) ==> r.fromCurrency == fromCurrency.value) &&
    (GivenText(toCurrency) ==> r.toCurrency == toCurrency.value)
  }

  function MatchingRates(rates: seq<CurrencyRate>, fromCurrency: Option<string>, toCurrency: Option<string>)
    : (matching: seq<CurrencyRate>)
    ensures forall r :: r in matching <==> r in rates && MatchesRate(r, fromCurrency, toCurrency)
    ensures multiset(matching) <= multiset(rates)
  {
    if rates == [] then []
    else
      var prefix := rates[..|rates| - 1];
      assert rates == prefix + [rates[|rates| - 1]];
      MatchingRates(prefix, fromCurrency, toCurrency) +
      (if MatchesRate(rates[|rates| - 1], fromCurrency, toCurrency) then [rates[|rates| - 1]] else [])
  }

  /** Newest first: effective dates never increase along the list. */
  predicate NewestFirst(rs: seq<CurrencyRate>) {
    forall i, j :: 0 <= i < j < |rs| ==> AtOrBefore(rs[j].effectiveDate, rs[i].effectiveDate)
  }

  /** Inserting a rate into a newest-first list, ahead of the first rate not newer than it. */
  function InsertByDate(r: CurrencyRate, rs: seq<CurrencyRate>): seq<CurrencyRate> {
    if rs == [] then [r]
    else if AtOrBefore(rs[0].effectiveDate, r.effectiveDate) then [r] + rs
    else [rs[0]] + InsertByDate(r, rs[1..])
  }

  lemma {:induction false} InsertByDateElements(r: CurrencyRate, rs: seq<CurrencyRate>)
    ensures multiset(InsertByDate(r, rs)) == multiset(rs) + multiset{r}
  {
    if rs != [] && !AtOrBefore(rs[0].effectiveDate, r.effectiveDate) {
      InsertByDateElements(r, rs[1..]);
      assert rs == [rs[0]] + rs[1..];
    }
  }

  lemma {:induction false} InsertByDateOrdered(r: CurrencyRate, rs: seq<CurrencyRate>)
    requires NewestFirst(rs)
    ensures NewestFirst(InsertByDate(r, rs))
  {
    if rs == [] {
    } else if AtOrBefore(rs[0].effectiveDate, r.effectiveDate) {
      var result := [r] + rs;
      forall i, j | 0 <= i < j < |result|
        ensures AtOrBefore(result[j].effectiveDate, result[i].effectiveDate)
      {
        if i == 0 {
          AtOrBeforeTransitive(result[j].effectiveDate, rs[0].effectiveDate, r.effectiveDate);
        }
      }
    } else {
      var rest := InsertByDate(r, rs[1..]);
      InsertByDateOrdered(r, rs[1..]);
      InsertByDateElements(r, rs[1..]);
      var result := [rs[0]] + rest;
      forall j | 0 <= j < |rest|
        ensures AtOrBefore(rest[j].effectiveDate, rs[0].effectiveDate)
      {
        assert rest[j] in multiset(rest);
        if rest[j] != r {
          assert rest[j] in multiset(rs[1..]);
          var k :| 0 <= k < |rs[1..]| && rs[1..][k] == rest[j];
          assert rs[k + 1] == rest[j];
        }
      }
      forall i, j | 0 <= i < j < |result|
        ensures AtOrBefore(result[j].effectiveDate, result[i].effectiveDate)
      {
        if i == 0 {
          assert result[j] == rest[j - 1];
        } else {
          assert result[i] == rest[i - 1] && result[j] == rest[j - 1];
        }
      }
    }
  }

  /** `ORDER BY effective_date DESC`; the order of rates with equal dates is left open. */
  function NewestFirstOrder(rs: seq<CurrencyRate>): seq<CurrencyRate> {
    if rs == [] then [] else InsertByDate(rs[|rs| - 1], NewestFirstOrder(rs[..|rs| - 1]))
  }

  /** The ordering is a permutation that puts the newest rates first. */
  lemma {:induction false} NewestFirstOrderSorts(rs: seq<CurrencyRate>)
    ensures NewestFirst(NewestFirstOrder(rs))
    ensures multiset(NewestFirstOrder(rs)) == multiset(rs)
  {
    if rs != [] {
      var prefix := rs[..|rs| - 1];
      NewestFirstOrderSorts(prefix);
      InsertByDateOrdered(rs[|rs| - 1], NewestFirstOrder(prefix));
      InsertByDateElements(rs[|rs| - 1], NewestFirstOrder(prefix));
      assert rs == prefix + [rs[|rs| - 1]];
    }
  }

  /**
   * get_currency_rates: exactly the stored rates that match the truthy
   * filters, each as often as it is stored, newest first.
   */
  function ListRates(rates: seq<CurrencyRate>, fromCurrency: Option<string>, toCurrency: Option<string>)
    : (listed: seq<CurrencyRate>)
    ensures NewestFirst(listed)
    ensures multiset(listed) == multiset(MatchingRates(rates, fromCurrency, toCurrency))
    ensures forall r :: r in listed <==> r in rates && MatchesRate(r, fromCurrency, toCurrency)
  {
    var listed := NewestFirstOrder(MatchingRates(rates, fromCurrency, toCurrency));
    NewestFirstOrderSorts(MatchingRates(rates, fromCurrency, toCurrency));
    assert forall r :: r in listed <==> r in multiset(listed);
    listed
  }

  // ---------------------------------------------------------------------
  // update_user_preferences
  // ---------------------------------------------------------------------

  /** The preference key the handler reads. */
  const DefaultCurrencyKey: string := "default_currency"

  /**
   * The outcome of update_user_preferences for a user whose default is
   * `current`: an allowed new default replaces it, a disallowed one is
   * rejected, and without the key the default stays.
   */
  function NewDefaultCurrency(current: string, currencies: seq<string>, preferences: map<string, string>)
    : (r: Result<string>)
    ensures DefaultCurrencyKey !in preferences ==> r == Ok(current)
    ensures DefaultCurrencyKey in preferences && preferences[DefaultCurrencyKey] in currencies ==>
      r == Ok(preferences[DefaultCurrencyKey])
    ensures DefaultCurrencyKey in preferences && preferences[DefaultCurrencyKey] !in currencies ==>
      r == Err(InvalidCurrency)
  {
    if DefaultCurrencyKey in preferences then
      if preferences[DefaultCurrencyKey] !in currencies then Err(InvalidCurrency)
      else Ok(preferences[DefaultCurrencyKey])
    else Ok(current)
  }

  /** The user record of app/models/user.py, as far as preferences go. */
  class UserAccount {
    var defaultCurrency: string

    constructor (defaultCurrency: string)
      ensures this.defaultCurrency == defaultCurrency
    {
      this.defaultCurrency := defaultCurrency;
    }

    /**
     * update_user_preferences: on success the user's default is the
     * outcome's and the response reports the current default; on a
     * rejected currency the user is unchanged.
     */
    method UpdatePreferences(currencies: seq<string>, preferences: map<string, string>)
      returns (r: Result<map<string, string>>)
      modifies this
      ensures var outcome := NewDefaultCurrency(old(defaultCurrency), currencies, preferences);
        && (outcome.Ok? ==> defaultCurrency == outcome.value && r == Ok(map[DefaultCurrencyKey := defaultCurrency]))
        && (outcome.Err? ==> defaultCurrency == old(defaultCurrency) && r == Err(outcome.error))
    {
      if DefaultCurrencyKey in preferences {
        if preferences[DefaultCurrencyKey] !in currencies {
          return Err(InvalidCurrency);
        }
        defaultCurrency := preferences[DefaultCurrencyKey];
      }
      r := Ok(map[DefaultCurrencyKey := defaultCurrency]);
    }
  }
}
