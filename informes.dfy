/**
 * The invoice report (`InformesView.generarInforme`): the published invoices dated in the
 * chosen period, their four totals, and a chart with one entry per month of the period.
 *
 * The `"dd/MM/yyyy"` formatter is the parameter `parse`; the two date pickers are the fields
 * `startDate` and `endDate`, whose initial values come from the clock and are constructor
 * parameters.
 */
module Informes {
  import opened Wrappers
  import opened Seqs
  import opened Records
  import opened Calendar
  import opened Reports
  import opened Manager

  function InvoiceDateOf(inv: Invoice): string { inv.invoiceDate }
  function BaseOf(inv: Invoice): real { inv.baseImponible }
  function IvaOf(inv: Invoice): real { inv.totalIVA }
  function IrpfOf(inv: Invoice): real { inv.totalIRPF }
  function TotalOf(inv: Invoice): real { inv.totalFactura }

  /**
   * The chart part of `generarInforme`: the invoiced totals of the period bucketed by month,
   * then one entry per month key from the start month to the end month, absent months at zero.
   */
  method MonthlyChart(invoices: seq<Invoice>, parse: string -> Option<Date>, start: Date, end: Date)
    returns (chart: seq<MonthlyEntry>)
    ensures |chart| == MonthsBetween(start, end)
    ensures forall i :: 0 <= i < |chart| ==>
      && chart[i].month == FromOrdinal(Ordinal(MonthOf(start)) + i)
      && chart[i].total == MonthSum(InPeriodOnly(invoices, InvoiceDateOf, parse, start, end), InvoiceDateOf, parse, TotalOf, chart[i].month)
    ensures SeriesTotal(chart) == Sum(InPeriodOnly(invoices, InvoiceDateOf, parse, start, end), TotalOf)
  {
    var filtered := InPeriodOnly(invoices, InvoiceDateOf, parse, start, end);
    var monthlyTotals := BucketByMonth(filtered, InvoiceDateOf, parse, TotalOf);
    var allMonthKeys := MonthKeys(start, end);
    chart := EntriesFor(monthlyTotals, allMonthKeys);
    SeriesAddsUpToPeriodTotal(invoices, InvoiceDateOf, parse, TotalOf, start, end, monthlyTotals, chart);
  }

  class InformesView {
    const db: DatabaseManager
    var startDate: Date
    var endDate: Date
    var filteredInvoices: seq<Invoice>
    var totalBaseImponible: real
    var totalIVA: real
    var totalIRPF: real
    var totalFactura: real
    var monthlyChartData: seq<MonthlyEntry>

    constructor(db: DatabaseManager, startDate: Date, endDate: Date)
      ensures this.db == db && this.startDate == startDate && this.endDate == endDate
      ensures filteredInvoices == [] && monthlyChartData == []
      ensures totalBaseImponible == 0.0 && totalIVA == 0.0 && totalIRPF == 0.0 && totalFactura == 0.0
    {
      this.db := db;
      this.startDate := startDate;
      this.endDate := endDate;
      filteredInvoices := [];
      totalBaseImponible := 0.0;
      totalIVA := 0.0;
      totalIRPF := 0.0;
      totalFactura := 0.0;
      monthlyChartData := [];
    }

    /**
     * `generarInforme`: the invoices whose date parses into the period, in the published order;
     * the four sums over them; and one chart entry per month from the start month to the end
     * month, each holding the invoiced total of that month, so that the chart adds up to the
     * period's total.
     */
    method GenerarInforme(parse: string -> Option<Date>)
      modifies this`filteredInvoices, this`totalBaseImponible, this`totalIVA, this`totalIRPF,
        this`totalFactura, this`monthlyChartData
      ensures filteredInvoices == InPeriodOnly(db.invoices, InvoiceDateOf, parse, startDate, endDate)
      ensures totalBaseImponible == Sum(filteredInvoices, BaseOf) && totalIVA == Sum(filteredInvoices, IvaOf)
      ensures totalIRPF == Sum(filteredInvoices, IrpfOf) && totalFactura == Sum(filteredInvoices, TotalOf)
      ensures |monthlyChartData| == MonthsBetween(startDate, endDate)
      ensures forall i :: 0 <= i < |monthlyChartData| ==>
        && monthlyChartData[i].month == FromOrdinal(Ordinal(MonthOf(startDate)) + i)
        && monthlyChartData[i].total == MonthSum(filteredInvoices, InvoiceDateOf, parse, TotalOf, monthlyChartData[i].month)
      ensures SeriesTotal(monthlyChartData) == totalFactura
    {
      var invoices := InPeriodOnly(db.invoices, InvoiceDateOf, parse, startDate, endDate);
      filteredInvoices := invoices;
      SetTotals(invoices);
      monthlyChartData := MonthlyChart(db.invoices, parse, startDate, endDate);
    }

    /** The four sums of `generarInforme` over the filtered invoices. */
    method SetTotals(invoices: seq<Invoice>)
      modifies this`totalBaseImponible, this`totalIVA, this`totalIRPF, this`totalFactura
      ensures totalBaseImponible == Sum(invoices, BaseOf) && totalIVA == Sum(invoices, IvaOf)
      ensures totalIRPF == Sum(invoices, IrpfOf) && totalFactura == Sum(invoices, TotalOf)
    {
      totalBaseImponible := Sum(invoices, BaseOf);
      totalIVA := Sum(invoices, IvaOf);
      totalIRPF := Sum(invoices, IrpfOf);
      totalFactura := Sum(invoices, TotalOf);
    }
  }
}
