/**
 * The period report shared by the invoice report and the two expense screens: keep the
 * records whose date text parses into `[start, end]`, add up an amount over them, bucket the
 * amounts by `"yyyy-MM"` month, and list every month from the start month to the end month
 * with its bucket or 0.
 *
 * A record is seen through `dateOf` (its date text) and an amount function; the
 * `"dd/MM/yyyy"` formatter is the parameter `parse`, which may reject a text.
 */
module Reports {
  import opened Wrappers
  import opened Seqs
  import opened Calendar

  /** The filter closure: the date parses and `d >= start && d <= end`. */
  predicate InPeriod<T>(x: T, dateOf: T -> string, parse: string -> Option<Date>, start: Date, end: Date)
  {
    match parse(dateOf(x))
    case None => false
    case Some(d) => Le(start, d) && Le(d, end)
  }

  /** `records.filter { ... }`: the records in the period, in their original order. */
  function InPeriodOnly<T>(xs: seq<T>, dateOf: T -> string, parse: string -> Option<Date>, start: Date, end: Date): seq<T>
  {
    Filter(xs, x => InPeriod(x, dateOf, parse, start, end))
  }

  /** The filter keeps a record exactly when it is one of the input records and its date is in the period. */
  lemma InPeriodOnlySpec<T>(xs: seq<T>, dateOf: T -> string, parse: string -> Option<Date>, start: Date, end: Date, x: T)
    ensures x in InPeriodOnly(xs, dateOf, parse, start, end) <==> x in xs && InPeriod(x, dateOf, parse, start, end)
  {
    FilterKeeps(xs, y => InPeriod(y, dateOf, parse, start, end), x);
  }

  /** Order is kept: filtering a concatenation concatenates the filtered parts. */
  lemma InPeriodOnlyAppend<T>(xs: seq<T>, ys: seq<T>, dateOf: T -> string, parse: string -> Option<Date>, start: Date, end: Date)
    ensures InPeriodOnly(xs + ys, dateOf, parse, start, end)
         == InPeriodOnly(xs, dateOf, parse, start, end) + InPeriodOnly(ys, dateOf, parse, start, end)
  {
    FilterAppend(xs, ys, x => InPeriod(x, dateOf, parse, start, end));
  }

  /** The month a record's date text parses into, if it parses. */
  function MonthOfRecord<T>(x: T, dateOf: T -> string, parse: string -> Option<Date>): Option<YearMonth>
  {
    match parse(dateOf(x))
    case None => None
    case Some(d) => Some(MonthOf(d))
  }

  /** The amounts of the records whose date falls in month `k`. */
  function MonthSum<T>(xs: seq<T>, dateOf: T -> string, parse: string -> Option<Date>, amountOf: T -> real, k: YearMonth): real
  {
    if xs == [] then 0.0
    else
      var last := xs[|xs| - 1];
      MonthSum(xs[..|xs| - 1], dateOf, parse, amountOf, k)
        + (if MonthOfRecord(last, dateOf, parse) == Some(k) then amountOf(last) else 0.0)
  }

  /** `monthlyTotals[key, default: 0] += amount`. */
  function AddToBucket(totals: map<YearMonth, real>, k: YearMonth, amount: real): map<YearMonth, real>
  {
    totals[k := (if k in totals then totals[k] else 0.0) + amount]
  }

  /** The dictionary the accumulation loop builds, one record after the other. */
  function Buckets<T>(xs: seq<T>, dateOf: T -> string, parse: string -> Option<Date>, amountOf: T -> real): map<YearMonth, real>
  {
    if xs == [] then map[]
    else
      var last := xs[|xs| - 1];
      var before := Buckets(xs[..|xs| - 1], dateOf, parse, amountOf);
      match MonthOfRecord(last, dateOf, parse)
      case None => before
      case Some(k) => AddToBucket(before, k, amountOf(last))
  }

  /** `monthlyTotals[key] ?? 0`. */
  function TotalOr(totals: map<YearMonth, real>, k: YearMonth): real
  {
    if k in totals then totals[k] else 0.0
  }

  /** Some record is dated in month `k`. */
  ghost predicate HasMonth<T>(xs: seq<T>, dateOf: T -> string, parse: string -> Option<Date>, k: YearMonth)
  {
    exists i :: 0 <= i < |xs| && MonthOfRecord(xs[i], dateOf, parse) == Some(k)
  }

  /**
   * A month has a bucket exactly when some record is dated in it, and every month's bucket
   * (0 when there is none) is the sum of the amounts dated in that month.
   */
  lemma {:induction false} BucketsSpec<T>(xs: seq<T>, dateOf: T -> string, parse: string -> Option<Date>, amountOf: T -> real, k: YearMonth)
    ensures k in Buckets(xs, dateOf, parse, amountOf) <==> HasMonth(xs, dateOf, parse, k)
    ensures TotalOr(Buckets(xs, dateOf, parse, amountOf), k) == MonthSum(xs, dateOf, parse, amountOf, k)
  {
    if xs != [] {
      var init := xs[..|xs| - 1];
      BucketsSpec(init, dateOf, parse, amountOf, k);
      if HasMonth(xs, dateOf, parse, k) && MonthOfRecord(xs[|xs| - 1], dateOf, parse) != Some(k) {
        var i :| 0 <= i < |xs| && MonthOfRecord(xs[i], dateOf, parse) == Some(k);
        assert init[i] == xs[i];
      }
      if HasMonth(init, dateOf, parse, k) {
        var i :| 0 <= i < |init| && MonthOfRecord(init[i], dateOf, parse) == Some(k);
        assert xs[i] == init[i];
      }
      assert MonthOfRecord(xs[|xs| - 1], dateOf, parse) == Some(k) ==> HasMonth(xs, dateOf, parse, k);
    }
  }

  /** The `for` loop that fills the month dictionary. */
  method BucketByMonth<T>(xs: seq<T>, dateOf: T -> string, parse: string -> Option<Date>, amountOf: T -> real)
    returns (totals: map<YearMonth, real>)
    ensures forall k :: k in totals <==> HasMonth(xs, dateOf, parse, k)
    ensures forall k :: TotalOr(totals, k) == MonthSum(xs, dateOf, parse, amountOf, k)
  {
    totals := map[];
    for i := 0 to |xs|
      invariant totals == Buckets(xs[..i], dateOf, parse, amountOf)
    {
      assert xs[..i + 1][..i] == xs[..i];
      match parse(dateOf(xs[i])) {
        case Some(d) =>
          var key := MonthOf(d);
          totals := totals[key := TotalOr(totals, key) + amountOf(xs[i])];
        case None =>
      }
    }
    assert xs[..|xs|] == xs;
    forall k ensures (k in totals <==> HasMonth(xs, dateOf, parse, k))
      && TotalOr(totals, k) == MonthSum(xs, dateOf, parse, amountOf, k)
    {
      BucketsSpec(xs, dateOf, parse, amountOf, k);
    }
  }

  /** One point of a chart: a month and its total. */
  datatype MonthlyEntry = MonthlyEntry(month: YearMonth, total: real)

  /** The number of months from the month of `start` to the month of `end`, both included. */
  function MonthsBetween(start: Date, end: Date): (r: nat)
    ensures r == 0 <==> Ordinal(MonthOf(end)) < Ordinal(MonthOf(start))
    ensures r > 0 ==> Ordinal(MonthOf(start)) + r - 1 == Ordinal(MonthOf(end))
  {
    var n := Ordinal(MonthOf(end)) - Ordinal(MonthOf(start)) + 1;
    if n < 0 then 0 else n
  }

  /** The `while current <= endOfMonth` loop: one key per month, from the start month to the end month. */
  method MonthKeys(start: Date, end: Date) returns (keys: seq<YearMonth>)
    ensures |keys| == MonthsBetween(start, end)
    ensures forall i :: 0 <= i < |keys| ==> keys[i] == FromOrdinal(Ordinal(MonthOf(start)) + i)
  {
    var current := StartOfMonth(start);
    var last := StartOfMonth(end);
    keys := [];
    MonthStartOrder(current, last);
    while Le(current, last)
      invariant current.offset == 0
      invariant Ordinal(MonthOf(current)) == Ordinal(MonthOf(start)) + |keys|
      invariant |keys| <= MonthsBetween(start, end)
      invariant forall i :: 0 <= i < |keys| ==> keys[i] == FromOrdinal(Ordinal(MonthOf(start)) + i)
      decreases Ordinal(MonthOf(last)) - Ordinal(MonthOf(current))
    {
      MonthStartOrder(current, last);
      OrdinalInjective(MonthOf(current), FromOrdinal(Ordinal(MonthOf(current))));
      keys := keys + [MonthOf(current)];
      current := NextMonthStart(current);
      MonthStartOrder(current, last);
    }
    MonthStartOrder(current, last);
  }

  /** The `while current <= lastMonth` loop of the expense screens: keys and totals in one pass. */
  method MonthlySeries(totals: map<YearMonth, real>, start: Date, end: Date) returns (series: seq<MonthlyEntry>)
    ensures |series| == MonthsBetween(start, end)
    ensures forall i :: 0 <= i < |series| ==>
      series[i].month == FromOrdinal(Ordinal(MonthOf(start)) + i) && series[i].total == TotalOr(totals, series[i].month)
  {
    var current := StartOfMonth(start);
    var last := StartOfMonth(end);
    series := [];
    MonthStartOrder(current, last);
    while Le(current, last)
      invariant current.offset == 0
      invariant Ordinal(MonthOf(current)) == Ordinal(MonthOf(start)) + |series|
      invariant |series| <= MonthsBetween(start, end)
      invariant forall i :: 0 <= i < |series| ==>
        series[i].month == FromOrdinal(Ordinal(MonthOf(start)) + i) && series[i].total == TotalOr(totals, series[i].month)
      decreases Ordinal(MonthOf(last)) - Ordinal(MonthOf(current))
    {
      MonthStartOrder(current, last);
      OrdinalInjective(MonthOf(current), FromOrdinal(Ordinal(MonthOf(current))));
      var key := MonthOf(current);
      series := series + [MonthlyEntry(key, TotalOr(totals, key))];
      current := NextMonthStart(current);
      MonthStartOrder(current, last);
    }
    MonthStartOrder(current, last);
  }

  /**
   * Steps 3 and 4 of the expense screens' `generateReport`: the filtered amounts bucketed by
   * month, then walked month by month from the start month to the end month.
   */
  method PeriodSeries<T>(xs: seq<T>, dateOf: T -> string, parse: string -> Option<Date>, amountOf: T -> real,
                         start: Date, end: Date) returns (series: seq<MonthlyEntry>)
    ensures |series| == MonthsBetween(start, end)
    ensures forall i :: 0 <= i < |series| ==>
      && series[i].month == FromOrdinal(Ordinal(MonthOf(start)) + i)
      && series[i].total == MonthSum(InPeriodOnly(xs, dateOf, parse, start, end), dateOf, parse, amountOf, series[i].month)
    ensures SeriesTotal(series) == Sum(InPeriodOnly(xs, dateOf, parse, start, end), amountOf)
  {
    var filtered := InPeriodOnly(xs, dateOf, parse, start, end);
    var monthlyTotals := BucketByMonth(filtered, dateOf, parse, amountOf);
    series := MonthlySeries(monthlyTotals, start, end);
    SeriesAddsUpToPeriodTotal(xs, dateOf, parse, amountOf, start, end, monthlyTotals, series);
  }

  /** The `for key in allMonthKeys` loop of the invoice report: each key with its total or 0. */
  method EntriesFor(totals: map<YearMonth, real>, keys: seq<YearMonth>) returns (series: seq<MonthlyEntry>)
    ensures |series| == |keys|
    ensures forall i :: 0 <= i < |series| ==> series[i] == MonthlyEntry(keys[i], TotalOr(totals, keys[i]))
  {
    series := [];
    for i := 0 to |keys|
      invariant |series| == i
      invariant forall j :: 0 <= j < i ==> series[j] == MonthlyEntry(keys[j], TotalOr(totals, keys[j]))
    {
      series := series + [MonthlyEntry(keys[i], TotalOr(totals, keys[i]))];
    }
  }

  /** The chart's total: the entries added up in order. */
  function SeriesTotal(series: seq<MonthlyEntry>): real
  {
    if series == [] then 0.0 else SeriesTotal(series[..|series| - 1]) + series[|series| - 1].total
  }

  /** Month sums over `n` consecutive months starting at ordinal `a`. */
  function MonthSums<T>(xs: seq<T>, dateOf: T -> string, parse: string -> Option<Date>, amountOf: T -> real, a: int, n: nat): real
  {
    if n == 0 then 0.0
    else MonthSums(xs, dateOf, parse, amountOf, a, n - 1) + MonthSum(xs, dateOf, parse, amountOf, FromOrdinal(a + n - 1))
  }

  /** Adding one record adds its amount to the month sums exactly when its month is in the window. */
  lemma {:induction false} MonthSumsSnoc<T>(xs: seq<T>, x: T, dateOf: T -> string, parse: string -> Option<Date>, amountOf: T -> real, a: int, n: nat)
    ensures MonthSums(xs + [x], dateOf, parse, amountOf, a, n)
         == MonthSums(xs, dateOf, parse, amountOf, a, n)
            + (match MonthOfRecord(x, dateOf, parse)
               case Some(m) => if a <= Ordinal(m) < a + n then amountOf(x) else 0.0
               case None => 0.0)
  {
    assert (xs + [x])[..|xs + [x]| - 1] == xs;
    if n > 0 {
      MonthSumsSnoc(xs, x, dateOf, parse, amountOf, a, n - 1);
      match MonthOfRecord(x, dateOf, parse) {
        case Some(m) =>
          OrdinalInjective(m, FromOrdinal(a + n - 1));
        case None =>
      }
    }
  }

  /** When every record is dated inside the window, the month sums add up to the grand total. */
  lemma {:induction false} MonthSumsCoverAll<T>(xs: seq<T>, dateOf: T -> string, parse: string -> Option<Date>, amountOf: T -> real, a: int, n: nat)
    requires forall i :: 0 <= i < |xs| ==>
      (MonthOfRecord(xs[i], dateOf, parse).Some? && a <= Ordinal(MonthOfRecord(xs[i], dateOf, parse).value) < a + n)
    ensures MonthSums(xs, dateOf, parse, amountOf, a, n) == Sum(xs, amountOf)
  {
    if xs == [] {
      MonthSumsEmpty(dateOf, parse, amountOf, a, n);
    } else {
      var init := xs[..|xs| - 1];
      MonthSumsCoverAll(init, dateOf, parse, amountOf, a, n);
      MonthSumsSnoc(init, xs[|xs| - 1], dateOf, parse, amountOf, a, n);
      assert init + [xs[|xs| - 1]] == xs;
    }
  }

  lemma {:induction false} MonthSumsEmpty<T>(dateOf: T -> string, parse: string -> Option<Date>, amountOf: T -> real, a: int, n: nat)
    ensures MonthSums([], dateOf, parse, amountOf, a, n) == 0.0
  {
    if n > 0 {
      MonthSumsEmpty(dateOf, parse, amountOf, a, n - 1);
    }
  }

  /** A series built as the loops build it adds up to the month sums over its window. */
  lemma {:induction false} SeriesTotalIsMonthSums<T>(series: seq<MonthlyEntry>, xs: seq<T>, dateOf: T -> string, parse: string -> Option<Date>, amountOf: T -> real, a: int)
    requires forall i :: 0 <= i < |series| ==>
      series[i].month == FromOrdinal(a + i) && series[i].total == MonthSum(xs, dateOf, parse, amountOf, series[i].month)
    ensures SeriesTotal(series) == MonthSums(xs, dateOf, parse, amountOf, a, |series|)
  {
    if series != [] {
      SeriesTotalIsMonthSums(series[..|series| - 1], xs, dateOf, parse, amountOf, a);
    }
  }

  /**
   * The chart adds up to the period total: every record kept by the filter is dated between
   * the start and end dates, hence in a month of the series, and each month's entry is its
   * bucket.
   */
  lemma SeriesAddsUpToPeriodTotal<T>(xs: seq<T>, dateOf: T -> string, parse: string -> Option<Date>, amountOf: T -> real,
                                     start: Date, end: Date, totals: map<YearMonth, real>, series: seq<MonthlyEntry>)
    requires forall k :: TotalOr(totals, k) == MonthSum(InPeriodOnly(xs, dateOf, parse, start, end), dateOf, parse, amountOf, k)
    requires |series| == MonthsBetween(start, end)
    requires forall i :: 0 <= i < |series| ==>
      series[i].month == FromOrdinal(Ordinal(MonthOf(start)) + i) && series[i].total == TotalOr(totals, series[i].month)
    ensures SeriesTotal(series) == Sum(InPeriodOnly(xs, dateOf, parse, start, end), amountOf)
  {
    var kept := InPeriodOnly(xs, dateOf, parse, start, end);
    var a := Ordinal(MonthOf(start));
    SeriesTotalIsMonthSums(series, kept, dateOf, parse, amountOf, a);
    forall i | 0 <= i < |kept|
      ensures MonthOfRecord(kept[i], dateOf, parse).Some?
        && a <= Ordinal(MonthOfRecord(kept[i], dateOf, parse).value) < a + |series|
    {
      InPeriodOnlySpec(xs, dateOf, parse, start, end, kept[i]);
      var d := parse(dateOf(kept[i])).value;
      MonthOfMonotone(start, d);
      MonthOfMonotone(d, end);
    }
    MonthSumsCoverAll(kept, dateOf, parse, amountOf, a, |series|);
  }

  /** The months of a series strictly increase, so no month appears twice. */
  lemma SeriesMonthsIncrease(series: seq<MonthlyEntry>, a: int)
    requires forall i :: 0 <= i < |series| ==> series[i].month == FromOrdinal(a + i)
    ensures forall i, j :: 0 <= i < j < |series| ==> Ordinal(series[i].month) < Ordinal(series[j].month)
  {
  }
}
