/**
 * Gregorian dates with a time of day at one-second resolution: the `datetime`
 * values the application compares, clips to months and walks month by month.
 */
module Calendar {

  /** A calendar date and the number of seconds since midnight. */
  datatype DateTime = DateTime(year: int, month: int, day: int, second: int)

  /** The Gregorian leap-year rule, as `calendar.isleap` applies it. */
  predicate IsLeapYear(year: int) {
    year % 4 == 0 && (year % 100 != 0 || year % 400 == 0)
  }

  /** The number of days in a month: the second component of `calendar.monthrange`. */
  function DaysInMonth(year: int, month: int): (days: int)
    requires 1 <= month <= 12
    ensures 28 <= days <= 31
    ensures days == 31 <==> month in {1, 3, 5, 7, 8, 10, 12}
    ensures days == 30 <==> month in {4, 6, 9, 11}
    ensures days == 29 <==> month == 2 && IsLeapYear(year)
  {
    if month == 2 then (if IsLeapYear(year) then 29 else 28)
    else if month == 4 || month == 6 || month == 9 || month == 11 then 30
    else 31
  }

  /** Days from the start of the year to the end of month `upTo`. */
  function DaysBeforeEndOf(year: int, upTo: int): int
    requires 0 <= upTo <= 12
  {
    if upTo == 0 then 0 else DaysBeforeEndOf(year, upTo - 1) + DaysInMonth(year, upTo)
  }

  /** The twelve month lengths add up to the length of the Gregorian year. */
  lemma {:induction false} YearLength(year: int)
    ensures DaysBeforeEndOf(year, 12) == if IsLeapYear(year) then 366 else 365
  {
    var february := DaysInMonth(year, 2);
    assert DaysBeforeEndOf(year, 1) == 31;
    assert DaysBeforeEndOf(year, 2) == 31 + february;
    assert DaysBeforeEndOf(year, 3) == 62 + february;
    assert DaysBeforeEndOf(year, 4) == 92 + february;
    assert DaysBeforeEndOf(year, 5) == 123 + february;
    assert DaysBeforeEndOf(year, 6) == 153 + february;
    assert DaysBeforeEndOf(year, 7) == 184 + february;
    assert DaysBeforeEndOf(year, 8) == 215 + february;
    assert DaysBeforeEndOf(year, 9) == 245 + february;
    assert DaysBeforeEndOf(year, 10) == 276 + february;
    assert DaysBeforeEndOf(year, 11) == 306 + february;
  }

  predicate ValidDateTime(d: DateTime) {
    1 <= d.month <= 12 && 1 <= d.day <= DaysInMonth(d.year, d.month) && 0 <= d.second < 86400
  }

  /** Every `datetime` the application handles names an existing day. */
  type Date = d: DateTime | ValidDateTime(d) witness DateTime(1970, 1, 1, 0)

  /** Chronological order, `a < b` on datetimes. */
  predicate Before(a: DateTime, b: DateTime) {
    a.year < b.year ||
    (a.year == b.year && (a.month < b.month ||
    (a.month == b.month && (a.day < b.day ||
    (a.day == b.day && a.second < b.second)))))
  }

  /** `a <= b` on datetimes. */
  predicate AtOrBefore(a: DateTime, b: DateTime) {
    !Before(b, a)
  }

  lemma AtOrBeforeTransitive(a: DateTime, b: DateTime, c: DateTime)
    requires AtOrBefore(a, b) && AtOrBefore(b, c)
    ensures AtOrBefore(a, c)
  {
  }

  /** Python's `max(a, b)`. */
  function Later(a: Date, b: Date): (m: Date)
    ensures AtOrBefore(a, m) && AtOrBefore(b, m)
    ensures m == a || m == b
  {
    if Before(a, b) then b else a
  }

  /** Python's `min(a, b)`. */
  function Earlier(a: Date, b: Date): (m: Date)
    ensures AtOrBefore(m, a) && AtOrBefore(m, b)
    ensures m == a || m == b
  {
    if Before(b, a) then b else a
  }

  /** The number of whole months from year 0, January, to the month of `d`. */
  function MonthKey(d: DateTime): int {
    d.year * 12 + d.month - 1
  }

  /** The first day of the month with the given key, at the given time of day. */
  function MonthStart(key: int, second: int): (d: Date)
    requires 0 <= second < 86400
    ensures MonthKey(d) == key && d.day == 1 && d.second == second
  {
    DateTime(key / 12, key % 12 + 1, 1, second)
  }

  /** `d.replace(day=1)`: the first of d's month, keeping the time of day. */
  function FirstOfMonth(d: Date): (f: Date)
    ensures f == MonthStart(MonthKey(d), d.second)
  {
    assert (d.year * 12 + d.month - 1) / 12 == d.year;
    assert (d.year * 12 + d.month - 1) % 12 == d.month - 1;
    d.(day := 1)
  }

  /**
   * One step of the month walks in reports.py: December goes to January of
   * the next year, every other month to the next month of the same year.
   */
  function NextMonth(d: Date): (n: Date)
    requires d.day == 1
    ensures n == MonthStart(MonthKey(d) + 1, d.second)
  {
    assert (d.year * 12 + d.month) / 12 == if d.month == 12 then d.year + 1 else d.year;
    assert (d.year * 12 + d.month) % 12 == if d.month == 12 then 0 else d.month;
    if d.month == 12 then d.(year := d.year + 1, month := 1) else d.(month := d.month + 1)
  }

  /** A date never precedes a date of an earlier month. */
  lemma MonthKeyOrder(a: Date, b: Date)
    requires AtOrBefore(a, b)
    ensures MonthKey(a) <= MonthKey(b)
  {
    if a.year < b.year {
      assert a.year * 12 <= b.year * 12 - 12;
    }
  }

  /** Month starts at a fixed time of day are ordered like their keys. */
  lemma MonthStartOrder(k1: int, k2: int, second: int)
    requires 0 <= second < 86400
    requires k1 <= k2
    ensures AtOrBefore(MonthStart(k1, second), MonthStart(k2, second))
  {
    var a, b := MonthStart(k1, second), MonthStart(k2, second);
    if Before(b, a) {
      MonthKeyOrder(b, a);
      assert false;
    }
  }

  /**
   * By how the month start at `key` compares with `limit`: it is no later
   * exactly when its month precedes limit's month, or is limit's month and
   * the first of that month at the given time is not after limit.
   */
  lemma MonthStartAtOrBefore(key: int, second: int, limit: Date)
    requires 0 <= second < 86400
    ensures AtOrBefore(MonthStart(key, second), limit) <==>
      key < MonthKey(limit) ||
      (key == MonthKey(limit) && (1 < limit.day || second <= limit.second))
  {
    var m := MonthStart(key, second);
    if key < MonthKey(limit) {
      if Before(limit, m) {
        MonthKeyOrder(limit, m);
      }
    } else if key > MonthKey(limit) {
      assert Before(limit, m) by {
        if !Before(limit, m) {
          MonthKeyOrder(m, limit);
        }
      }
    } else {
      assert m.year * 12 + m.month == limit.year * 12 + limit.month;
      assert m.year == limit.year && m.month == limit.month;
    }
  }
}
