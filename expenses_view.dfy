/**
 * The expenses screen (`ExpensesView`): the loaded expenses, and the report over the chosen
 * period with its total and month-by-month series.
 *
 * The `"dd/MM/yyyy"` formatter is the parameter `parse`; the initial dates of the two pickers
 * come from the clock and are constructor parameters.
 */
module ExpensesScreen {
  import opened Wrappers
  import opened Seqs
  import opened Records
  import opened Calendar
  import opened Reports
  import Database
  import opened Manager

  class ExpensesView {
    const db: DatabaseManager
    var expenses: seq<Expense>
    var startDate: Date
    var endDate: Date
    var filteredExpenses: seq<Expense>
    var totalFilteredExpenses: real
    var monthlyData: seq<MonthlyEntry>

    constructor(db: DatabaseManager, startDate: Date, endDate: Date)
      ensures this.db == db && this.startDate == startDate && this.endDate == endDate
      ensures expenses == [] && filteredExpenses == [] && totalFilteredExpenses == 0.0 && monthlyData == []
    {
      this.db := db;
      this.startDate := startDate;
      this.endDate := endDate;
      expenses := [];
      filteredExpenses := [];
      totalFilteredExpenses := 0.0;
      monthlyData := [];
    }

    /** `loadExpenses`: the stored expenses, newest date string first. */
    method LoadExpenses()
      requires db.Valid()
      modifies this`expenses
      ensures expenses == Database.ExpenseListing(db.File())
    {
      expenses := db.FetchAllExpenses();
    }

    /**
     * `generateReport`: the loaded expenses whose date parses into the period, in their loaded
     * order; their total; and one entry per month from the start month to the end month with
     * that month's spending, so that the series adds up to the total.
     */
    method GenerateReport(parse: string -> Option<Date>)
      modifies this`filteredExpenses, this`totalFilteredExpenses, this`monthlyData
      ensures filteredExpenses == InPeriodOnly(expenses, ExpenseDateOf, parse, startDate, endDate)
      ensures totalFilteredExpenses == Sum(filteredExpenses, ExpenseAmount)
      ensures |monthlyData| == MonthsBetween(startDate, endDate)
      ensures forall i :: 0 <= i < |monthlyData| ==>
        && monthlyData[i].month == FromOrdinal(Ordinal(MonthOf(startDate)) + i)
        && monthlyData[i].total == MonthSum(filteredExpenses, ExpenseDateOf, parse, ExpenseAmount, monthlyData[i].month)
      ensures SeriesTotal(monthlyData) == totalFilteredExpenses
    {
      var filtered := InPeriodOnly(expenses, ExpenseDateOf, parse, startDate, endDate);
      filteredExpenses := filtered;
      totalFilteredExpenses := Sum(filtered, ExpenseAmount);
      monthlyData := PeriodSeries(expenses, ExpenseDateOf, parse, ExpenseAmount, startDate, endDate);
    }
  }
}
