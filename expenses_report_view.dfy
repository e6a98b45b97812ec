/**
 * The monthly expenses report (`ExpensesReportView`): unlike the expenses screen it fetches
 * the expenses itself each time it generates the report.
 *
 * The `"dd/MM/yyyy"` formatter is the parameter `parse`; the initial dates of the two pickers
 * (two months ago and now) come from the clock and are constructor parameters.
 */
module ExpensesReport {
  import opened Wrappers
  import opened Seqs
  import opened Records
  import opened Calendar
  import opened Reports
  import Database
  import opened Manager

  class ExpensesReportView {
    const db: DatabaseManager
    var startDate: Date
    var endDate: Date
    var filteredExpenses: seq<Expense>
    var totalExpenses: real
    var monthlyData: seq<MonthlyEntry>

    constructor(db: DatabaseManager, startDate: Date, endDate: Date)
      ensures this.db == db && this.startDate == startDate && this.endDate == endDate
      ensures filteredExpenses == [] && totalExpenses == 0.0 && monthlyData == []
    {
      this.db := db;
      this.startDate := startDate;
      this.endDate := endDate;
      filteredExpenses := [];
      totalExpenses := 0.0;
      monthlyData := [];
    }

    /**
     * `generateReport`: the stored expenses whose date parses into the period, in listing
     * order; their total; and the month-by-month series from the start month to the end month,
     * which adds up to the total.
     */
    method GenerateReport(parse: string -> Option<Date>)
      requires db.Valid()
      modifies this`filteredExpenses, this`totalExpenses, this`monthlyData
      ensures filteredExpenses == InPeriodOnly(Database.ExpenseListing(db.File()), ExpenseDateOf, parse, startDate, endDate)
      ensures totalExpenses == Sum(filteredExpenses, ExpenseAmount)
      ensures |monthlyData| == MonthsBetween(startDate, endDate)
      ensures forall i :: 0 <= i < |monthlyData| ==>
        && monthlyData[i].month == FromOrdinal(Ordinal(MonthOf(startDate)) + i)
        && monthlyData[i].total == MonthSum(filteredExpenses, ExpenseDateOf, parse, ExpenseAmount, monthlyData[i].month)
      ensures SeriesTotal(monthlyData) == totalExpenses
    {
      var all := db.FetchAllExpenses();
      var filtered := InPeriodOnly(all, ExpenseDateOf, parse, startDate, endDate);
      filteredExpenses := filtered;
      totalExpenses := Sum(filtered, ExpenseAmount);
      monthlyData := PeriodSeries(all, ExpenseDateOf, parse, ExpenseAmount, startDate, endDate);
    }
  }
}
