/**
 * The part of `Foundation.Date`/`Calendar` the reports rely on. A date is a Gregorian year
 * and month plus how far into that month it lies (day and time of day together, in any fixed
 * unit); dates compare chronologically, which is lexicographically on these three fields.
 * The `"yyyy-MM"` text key of a month is modelled by the month itself.
 */
module Calendar {

  type MonthNumber = m: int | 1 <= m <= 12 witness 1

  datatype Date = Date(year: int, month: MonthNumber, offset: nat)

  /** A month of a year; the value the `"yyyy-MM"` formatter prints. */
  datatype YearMonth = YearMonth(year: int, month: MonthNumber)

  /** `a <= b` on dates. */
  predicate Le(a: Date, b: Date)
  {
    a.year < b.year
    || (a.year == b.year && (a.month < b.month || (a.month == b.month && a.offset <= b.offset)))
  }

  lemma LeTotalOrder(a: Date, b: Date, c: Date)
    ensures Le(a, a)
    ensures Le(a, b) || Le(b, a)
    ensures Le(a, b) && Le(b, a) ==> a == b
    ensures Le(a, b) && Le(b, c) ==> Le(a, c)
  {
  }

  /** `calendar.component(.year/.month, from: d)`. */
  function MonthOf(d: Date): YearMonth
  {
    YearMonth(d.year, d.month)
  }

  /** Months counted from January of year 0, so that consecutive months differ by one. */
  function Ordinal(m: YearMonth): int
  {
    m.year * 12 + m.month - 1
  }

  /** The month with a given ordinal (Euclidean division, so negative years work too). */
  function FromOrdinal(n: int): (r: YearMonth)
    ensures Ordinal(r) == n
  {
    YearMonth(n / 12, n % 12 + 1)
  }

  /** Months and their ordinals are in one-to-one correspondence. */
  lemma OrdinalInjective(m: YearMonth, k: YearMonth)
    ensures Ordinal(m) == Ordinal(k) ==> m == k
    ensures FromOrdinal(Ordinal(m)) == m
  {
  }

  /** Later dates never fall in earlier months. */
  lemma MonthOfMonotone(a: Date, b: Date)
    requires Le(a, b)
    ensures Ordinal(MonthOf(a)) <= Ordinal(MonthOf(b))
  {
  }

  /** `startOfMonth()` / `startOfMonthForExpenses()`: the first instant of the same month. */
  function StartOfMonth(d: Date): (r: Date)
    ensures MonthOf(r) == MonthOf(d) && r.offset == 0
    ensures Le(r, d) && forall e :: MonthOf(e) == MonthOf(d) ==> Le(r, e)
  {
    Date(d.year, d.month, 0)
  }

  /** The first instant of a month. */
  function MonthStart(m: YearMonth): Date
  {
    Date(m.year, m.month, 0)
  }

  /** Taking the start of the month twice gives the same date as once. */
  lemma StartOfMonthIdempotent(d: Date)
    ensures StartOfMonth(StartOfMonth(d)) == StartOfMonth(d)
  {
  }

  /**
   * `calendar.date(byAdding: .month, value: 1, to: current)` for the first instant of a
   * month, which is all the reports ever pass: the first instant of the following month.
   */
  function NextMonthStart(d: Date): (r: Date)
  {
    MonthStart(FromOrdinal(Ordinal(MonthOf(d)) + 1))
  }

  /** Between first instants of months, date order is month order, and stepping adds one month. */
  lemma MonthStartOrder(a: Date, b: Date)
    requires a.offset == 0 && b.offset == 0
    ensures Le(a, b) <==> Ordinal(MonthOf(a)) <= Ordinal(MonthOf(b))
    ensures Ordinal(MonthOf(NextMonthStart(a))) == Ordinal(MonthOf(a)) + 1
    ensures NextMonthStart(a).offset == 0
  {
  }
}
