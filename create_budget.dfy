/**
 * The budget editor (`CreateBudgetView`). Its form differs from the invoice editor's in three
 * ways: issuer and client are picked by id, and a budget stores "no issuer"/"no client" as 0;
 * `setupView` always ends by recomputing the totals; and a line is removed by its database
 * `id`, which every unsaved line shares as `nil`.
 *
 * The clock is not modelled: today's date text is a parameter of `SetupView`.
 */
module CreateBudget {
  import opened Wrappers
  import opened Seqs
  import opened Records
  import opened Labels
  import opened Totals
  import Database
  import opened Manager

  function LineAmount(it: BudgetItem): real { it.amount }

  /** The line "Añadir línea" appends: no id, empty texts, amount 0. */
  function BlankLine(): BudgetItem
  {
    BudgetItem(None, "", "", "", "", 0.0)
  }

  /** `b.issuerId == 0 ? nil : b.issuerId`, and the same for the client. */
  function IdFromStored(v: int): Option<int>
  {
    if v == 0 then None else Some(v)
  }

  /** `issuerId ?? 0`, and the same for the client. */
  function IdToStored(o: Option<int>): int
  {
    o.GetOr(0)
  }

  /**
   * Loading and saving give back every stored id, and a picked id survives a save and a load
   * exactly when it is not 0.
   */
  lemma StoredIdRoundTrip(v: int, o: Option<int>)
    ensures IdToStored(IdFromStored(v)) == v
    ensures IdFromStored(IdToStored(o)) == o <==> o != Some(0)
    ensures IdFromStored(v).None? <==> v == 0
  {
  }

  /** The `firstIndex(where:)` test of `removeItem`: the same database id. */
  function HasId(id: Option<int>): BudgetItem -> bool
  {
    (it: BudgetItem) => it.id == id
  }

  /** The lines after `removeItem` of a line with id `id`. */
  function WithoutId(items: seq<BudgetItem>, id: Option<int>): seq<BudgetItem>
  {
    RemoveFirst(items, HasId(id))
  }

  /** When line `i` is the first with that id, exactly that line goes and the base drops by its amount. */
  lemma WithoutFirstId(items: seq<BudgetItem>, id: Option<int>, i: nat)
    requires i < |items| && items[i].id == id
    requires forall j :: 0 <= j < i ==> items[j].id != id
    ensures WithoutId(items, id) == items[..i] + items[i + 1..]
    ensures Sum(WithoutId(items, id), LineAmount) == Sum(items, LineAmount) - items[i].amount
  {
    RemoveFirstAt(items, HasId(id), i);
    SumRemoveAt(items, i, LineAmount);
  }

  /** No line has that id: nothing is removed. */
  lemma WithoutAbsentId(items: seq<BudgetItem>, id: Option<int>)
    requires forall j :: 0 <= j < |items| ==> items[j].id != id
    ensures WithoutId(items, id) == items
  {
    RemoveFirstNone(items, HasId(id));
  }

  /**
   * Unsaved lines all have id `nil`, so removing any of them removes the first unsaved line:
   * with two unsaved lines, the delete button of the second one removes the first.
   */
  lemma UnsavedLineRemovesFirst(items: seq<BudgetItem>, target: BudgetItem, i: nat)
    requires target.id.None?
    requires i < |items| && items[i].id.None?
    requires forall j :: 0 <= j < i ==> items[j].id.Some?
    ensures WithoutId(items, target.id) == items[..i] + items[i + 1..]
  {
    WithoutFirstId(items, target.id, i);
  }

  /** A blank line never changes the totals. */
  lemma BlankLineKeepsTotals(items: seq<BudgetItem>, ivaPercentage: real, irpfPercentage: real)
    ensures LinesTotals(items + [BlankLine()], LineAmount, ivaPercentage, irpfPercentage)
         == LinesTotals(items, LineAmount, ivaPercentage, irpfPercentage)
  {
    AppendZeroLine(items, BlankLine(), LineAmount, ivaPercentage, irpfPercentage);
  }

  class CreateBudgetView {
    const db: DatabaseManager
    const budgetToEdit: Option<Budget>

    var budgetNumber: int
    var budgetDate: string
    var issuerId: Option<int>
    var clientId: Option<int>
    var observaciones: string
    var items: seq<BudgetItem>
    var ivaPercentage: real
    var irpfPercentage: real
    var baseImponible: real
    var totalIVA: real
    var totalIRPF: real
    var totalBudget: real
    /** The five `label...` states. */
    var labels: ColumnLabels

    function Figures(): Breakdown
      reads this`baseImponible, this`totalIVA, this`totalIRPF, this`totalBudget
    {
      Breakdown(baseImponible, totalIVA, totalIRPF, totalBudget)
    }

    ghost predicate TotalsInSync()
      reads this`items, this`ivaPercentage, this`irpfPercentage,
        this`baseImponible, this`totalIVA, this`totalIRPF, this`totalBudget
    {
      Figures() == LinesTotals(items, LineAmount, ivaPercentage, irpfPercentage)
    }

    /** The budget `saveBudget` builds from the form. */
    function Draft(): Budget
      reads this`budgetNumber, this`budgetDate, this`issuerId, this`clientId, this`observaciones, this`items,
        this`ivaPercentage, this`irpfPercentage, this`baseImponible, this`totalIVA, this`totalIRPF, this`totalBudget
    {
      Budget(if budgetToEdit.Some? then budgetToEdit.value.id else None, budgetNumber, budgetDate,
        IdToStored(issuerId), IdToStored(clientId), observaciones, items, ivaPercentage, irpfPercentage,
        baseImponible, totalIVA, totalIRPF, totalBudget)
    }

    /** The view as created, before `onAppear`: the initial values of its state properties. */
    constructor(db: DatabaseManager, budgetToEdit: Option<Budget>)
      ensures this.db == db && this.budgetToEdit == budgetToEdit
      ensures budgetNumber == 0 && budgetDate == "" && issuerId.None? && clientId.None? && observaciones == ""
      ensures items == [] && ivaPercentage == 21.0 && irpfPercentage == 0.0
      ensures Figures() == Breakdown(0.0, 0.0, 0.0, 0.0) && TotalsInSync()
      ensures labels == InitialLabels
    {
      this.db := db;
      this.budgetToEdit := budgetToEdit;
      budgetNumber := 0;
      budgetDate := "";
      issuerId := None;
      clientId := None;
      observaciones := "";
      items := [];
      ivaPercentage := 21.0;
      irpfPercentage := 0.0;
      baseImponible := 0.0;
      totalIVA := 0.0;
      totalIRPF := 0.0;
      totalBudget := 0.0;
      labels := InitialLabels;
    }

    /** `recalcTotals`. */
    method RecalcTotals()
      modifies this`baseImponible, this`totalIVA, this`totalIRPF, this`totalBudget
      ensures TotalsInSync()
      ensures baseImponible == Sum(items, LineAmount)
      ensures totalBudget == baseImponible + totalIVA - totalIRPF
    {
      var base := Sum(items, LineAmount);
      baseImponible := base;
      var iva := base * (ivaPercentage / 100.0);
      totalIVA := iva;
      var irpf := base * (irpfPercentage / 100.0);
      totalIRPF := irpf;
      totalBudget := base + iva - irpf;
    }

    /**
     * `setupView`: an edited budget is copied into the form, its stored 0 ids read as "none";
     * a new one gets today's date. Either way the totals are then recomputed from the lines.
     */
    method SetupView(today: string)
      modifies this`budgetNumber, this`budgetDate, this`issuerId, this`clientId, this`observaciones,
        this`items, this`ivaPercentage, this`irpfPercentage,
        this`baseImponible, this`totalIVA, this`totalIRPF, this`totalBudget
      ensures TotalsInSync()
      ensures budgetToEdit.Some? ==>
        var b := budgetToEdit.value;
        && budgetNumber == b.budgetNumber && budgetDate == b.budgetDate && observaciones == b.observaciones
        && issuerId == IdFromStored(b.issuerId) && clientId == IdFromStored(b.clientId)
        && items == b.items && ivaPercentage == b.ivaPercentage && irpfPercentage == b.irpfPercentage
      ensures budgetToEdit.None? ==>
        && budgetDate == today && budgetNumber == old(budgetNumber)
        && issuerId == old(issuerId) && clientId == old(clientId) && observaciones == old(observaciones)
        && items == old(items) && ivaPercentage == old(ivaPercentage) && irpfPercentage == old(irpfPercentage)
    {
      if budgetToEdit.Some? {
        CopyBudget(budgetToEdit.value);
      } else {
        budgetDate := today;
      }
      RecalcTotals();
    }

    /** The edit branch of `setupView`; the stored totals it also copies are overwritten straight after. */
    method CopyBudget(b: Budget)
      modifies this`budgetNumber, this`budgetDate, this`issuerId, this`clientId, this`observaciones,
        this`items, this`ivaPercentage, this`irpfPercentage,
        this`baseImponible, this`totalIVA, this`totalIRPF, this`totalBudget
      ensures budgetNumber == b.budgetNumber && budgetDate == b.budgetDate && observaciones == b.observaciones
      ensures issuerId == IdFromStored(b.issuerId) && clientId == IdFromStored(b.clientId)
      ensures items == b.items && ivaPercentage == b.ivaPercentage && irpfPercentage == b.irpfPercentage
      ensures Figures() == Breakdown(b.baseImponible, b.totalIVA, b.totalIRPF, b.totalBudget)
    {
      budgetNumber := b.budgetNumber;
      budgetDate := b.budgetDate;
      issuerId := IdFromStored(b.issuerId);
      clientId := IdFromStored(b.clientId);
      observaciones := b.observaciones;
      items := b.items;
      ivaPercentage := b.ivaPercentage;
      irpfPercentage := b.irpfPercentage;
      baseImponible := b.baseImponible;
      totalIVA := b.totalIVA;
      totalIRPF := b.totalIRPF;
      totalBudget := b.totalBudget;
    }

    /** `loadColumnLabels`: the five stored headings, each replaced by its default when empty. */
    method LoadColumnLabels()
      modifies this`labels
      ensures labels == Resolve(Database.SettingValue(db.File(), ConceptKey), Database.SettingValue(db.File(), ModelKey),
        Database.SettingValue(db.File(), BastidorKey), Database.SettingValue(db.File(), DateKey),
        Database.SettingValue(db.File(), AmountKey))
    {
      var c1 := db.GetSettingValue(ConceptKey);
      var c2 := db.GetSettingValue(ModelKey);
      var c3 := db.GetSettingValue(BastidorKey);
      var c4 := db.GetSettingValue(DateKey);
      var c5 := db.GetSettingValue(AmountKey);
      labels := Resolve(c1, c2, c3, c4, c5);
    }

    /** `removeItem(_:)`: the first line with the target's id goes, and only then are the totals recomputed. */
    method RemoveItem(target: BudgetItem)
      modifies this`items, this`baseImponible, this`totalIVA, this`totalIRPF, this`totalBudget
      ensures items == WithoutId(old(items), target.id)
      ensures (exists j :: 0 <= j < |old(items)| && old(items)[j].id == target.id) ==> TotalsInSync()
      ensures (forall j :: 0 <= j < |old(items)| ==> old(items)[j].id != target.id) ==>
        items == old(items) && Figures() == old(Figures())
    {
      var idx := FirstIndex(items, HasId(target.id));
      if idx.Some? {
        items := RemoveAt(items, idx.value);
        RecalcTotals();
      }
    }

    /** "Añadir línea". */
    method AddLine()
      modifies this`items
      ensures items == old(items) + [BlankLine()]
      ensures old(TotalsInSync()) ==> TotalsInSync()
    {
      BlankLineKeepsTotals(items, ivaPercentage, irpfPercentage);
      items := items + [BlankLine()];
    }

    /**
     * `saveBudget`: the totals are recomputed, "none" is stored as 0, and the form goes to
     * `insertBudget` for a new budget and to `updateBudget`, under the edited budget's id, otherwise.
     */
    method SaveBudget()
      requires db.Valid()
      modifies this`baseImponible, this`totalIVA, this`totalIRPF, this`totalBudget
      modifies db`budgetTable, db`budgetItemTable
      ensures db.Valid() && TotalsInSync()
      ensures budgetToEdit.None? ==> db.File() == Database.InsertBudget(old(db.File()), Draft())
      ensures budgetToEdit.Some? ==> db.File() == Database.UpdateBudget(old(db.File()), Draft())
    {
      RecalcTotals();
      var b := Draft();
      if budgetToEdit.None? {
        db.InsertBudget(b);
      } else {
        db.UpdateBudget(b);
      }
    }
  }
}
