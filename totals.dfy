/**
 * The totals block shared by invoices and budgets (`recalcTotals` of both editors): the
 * taxable base is the sum of the line amounts, VAT and the income-tax withholding (IRPF) are
 * percentages of that base, and the total adds the VAT and subtracts the withholding.
 */
module Totals {
  import opened Seqs

  datatype Breakdown = Breakdown(base: real, iva: real, irpf: real, total: real)

  /** The figures for a base and the two percentages. */
  function Compute(base: real, ivaPercentage: real, irpfPercentage: real): (r: Breakdown)
    ensures r.base == base
    ensures r.total == r.base + r.iva - r.irpf
    ensures r.total == base * (1.0 + (ivaPercentage - irpfPercentage) / 100.0)
    ensures base >= 0.0 && ivaPercentage >= 0.0 ==> r.iva >= 0.0
    ensures base >= 0.0 && irpfPercentage >= 0.0 ==> r.irpf >= 0.0
  {
    var iva := base * (ivaPercentage / 100.0);
    var irpf := base * (irpfPercentage / 100.0);
    Breakdown(base, iva, irpf, base + iva - irpf)
  }

  /** A non-negative base with at most 100% withheld never gives a negative total. */
  lemma TotalNonNegative(base: real, ivaPercentage: real, irpfPercentage: real)
    requires base >= 0.0 && ivaPercentage >= 0.0 && irpfPercentage <= 100.0
    ensures Compute(base, ivaPercentage, irpfPercentage).total >= 0.0
  {
    var f := 1.0 + (ivaPercentage - irpfPercentage) / 100.0;
    assert f >= 0.0;
    assert base * f >= 0.0;
  }

  /** Every figure is linear in the base: the totals of two groups of lines add up. */
  lemma ComputeAdditive(b1: real, b2: real, ivaPercentage: real, irpfPercentage: real)
    ensures var a := Compute(b1, ivaPercentage, irpfPercentage);
            var b := Compute(b2, ivaPercentage, irpfPercentage);
            var c := Compute(b1 + b2, ivaPercentage, irpfPercentage);
            c.iva == a.iva + b.iva && c.irpf == a.irpf + b.irpf && c.total == a.total + b.total
  {
  }

  /** The figures of some lines whose amounts are read by `amountOf`. */
  function LinesTotals<T>(items: seq<T>, amountOf: T -> real, ivaPercentage: real, irpfPercentage: real): (r: Breakdown)
    ensures r.base == Sum(items, amountOf)
  {
    Compute(Sum(items, amountOf), ivaPercentage, irpfPercentage)
  }

  /** A new line of amount 0 ("Añadir Fila" / "Añadir línea") leaves every figure as it was. */
  lemma AppendZeroLine<T>(items: seq<T>, x: T, amountOf: T -> real, ivaPercentage: real, irpfPercentage: real)
    requires amountOf(x) == 0.0
    ensures LinesTotals(items + [x], amountOf, ivaPercentage, irpfPercentage)
         == LinesTotals(items, amountOf, ivaPercentage, irpfPercentage)
  {
    SumAppend(items, [x], amountOf);
    assert [x][..0] == [];
  }

  /** Removing a line takes exactly that line's own figures off the totals. */
  lemma RemoveLine<T>(items: seq<T>, i: nat, amountOf: T -> real, ivaPercentage: real, irpfPercentage: real)
    requires i < |items|
    ensures var before := LinesTotals(items, amountOf, ivaPercentage, irpfPercentage);
            var after := LinesTotals(RemoveAt(items, i), amountOf, ivaPercentage, irpfPercentage);
            var line := Compute(amountOf(items[i]), ivaPercentage, irpfPercentage);
            after.base == before.base - line.base && after.iva == before.iva - line.iva
            && after.irpf == before.irpf - line.irpf && after.total == before.total - line.total
  {
    SumRemoveAt(items, i, amountOf);
    ComputeAdditive(Sum(RemoveAt(items, i), amountOf), amountOf(items[i]), ivaPercentage, irpfPercentage);
  }
}
