/**
 * What the database manager stores for each record, column by column, and how it reads a
 * stored row back. A TEXT column may hold NULL (rows written by other programs, or columns
 * added by `ALTER TABLE` to existing rows), so text columns are `Option<string>`; the
 * manager itself always binds text. `issuerId` of `invoices` is `Option<int>` because the
 * column is added with `DEFAULT NULL`.
 */
module Rows {
  import opened Wrappers
  import opened Records
  import opened Tables

  datatype InvoiceRow = InvoiceRow(
    invoiceNumber: int,
    invoiceDate: Option<string>,
    issuerName: Option<string>,
    issuerAddress: Option<string>,
    issuerNIF: Option<string>,
    clientName: Option<string>,
    clientAddress: Option<string>,
    clientNIF: Option<string>,
    observaciones: Option<string>,
    ivaPercentage: real,
    irpfPercentage: real,
    baseImponible: real,
    totalIVA: real,
    totalIRPF: real,
    totalFactura: real,
    issuerId: Option<int>)

  /** A row of `invoice_items` (parent column `invoiceId`) or `budget_items` (parent column `budgetId`). */
  datatype ItemRow = ItemRow(
    parentId: int,
    concept: Option<string>,
    model: Option<string>,
    bastidor: Option<string>,
    itemDate: Option<string>,
    amount: real)

  datatype BudgetRow = BudgetRow(
    budgetNumber: int,
    budgetDate: Option<string>,
    issuerId: int,
    clientId: int,
    observaciones: Option<string>,
    ivaPercentage: real,
    irpfPercentage: real,
    baseImponible: real,
    totalIVA: real,
    totalIRPF: real,
    totalBudget: real)

  datatype ClientRow = ClientRow(name: Option<string>, address: Option<string>, nif: Option<string>, nick: Option<string>)

  datatype IssuerRow = IssuerRow(name: Option<string>, address: Option<string>, nif: Option<string>, phone: Option<string>)

  datatype ServiceRow = ServiceRow(serviceName: Option<string>, serviceDescription: Option<string>, servicePrice: real)

  datatype ExpenseRow = ExpenseRow(concept: Option<string>, expenseDate: Option<string>, amount: real)

  function ParentOf(r: ItemRow): int { r.parentId }

  /** `sqlite3_column_text` turned into a Swift string, NULL read as `""`. */
  function TextOr(t: Option<string>): string { t.GetOr("") }

  // ---------------------------------------------------------------------------------------
  // Writing: the values bound by the INSERT and UPDATE statements.
  // ---------------------------------------------------------------------------------------

  /** The invoice columns; a nil `issuerId` is bound as 0. */
  function EncodeInvoice(inv: Invoice): InvoiceRow
  {
    InvoiceRow(inv.invoiceNumber, Some(inv.invoiceDate), Some(inv.issuerName), Some(inv.issuerAddress),
      Some(inv.issuerNIF), Some(inv.clientName), Some(inv.clientAddress), Some(inv.clientNIF),
      Some(inv.observaciones), inv.ivaPercentage, inv.irpfPercentage, inv.baseImponible,
      inv.totalIVA, inv.totalIRPF, inv.totalFactura, Some(inv.issuerId.GetOr(0)))
  }

  function EncodeInvoiceItem(item: InvoiceItem, invoiceId: int): ItemRow
  {
    ItemRow(invoiceId, Some(item.concept), Some(item.model), Some(item.bastidor), Some(item.date), item.amount)
  }

  function EncodeInvoiceItems(items: seq<InvoiceItem>, invoiceId: int): (r: seq<ItemRow>)
    ensures |r| == |items|
    ensures forall i :: 0 <= i < |r| ==> r[i] == EncodeInvoiceItem(items[i], invoiceId)
  {
    seq(|items|, i requires 0 <= i < |items| => EncodeInvoiceItem(items[i], invoiceId))
  }

  function EncodeBudget(b: Budget): BudgetRow
  {
    BudgetRow(b.budgetNumber, Some(b.budgetDate), b.issuerId, b.clientId, Some(b.observaciones),
      b.ivaPercentage, b.irpfPercentage, b.baseImponible, b.totalIVA, b.totalIRPF, b.totalBudget)
  }

  function EncodeBudgetItem(item: BudgetItem, budgetId: int): ItemRow
  {
    ItemRow(budgetId, Some(item.concept), Some(item.model), Some(item.bastidor), Some(item.itemDate), item.amount)
  }

  function EncodeBudgetItems(items: seq<BudgetItem>, budgetId: int): (r: seq<ItemRow>)
    ensures |r| == |items|
    ensures forall i :: 0 <= i < |r| ==> r[i] == EncodeBudgetItem(items[i], budgetId)
  {
    seq(|items|, i requires 0 <= i < |items| => EncodeBudgetItem(items[i], budgetId))
  }

  function EncodeClient(c: Client): ClientRow
  {
    ClientRow(Some(c.name), Some(c.address), Some(c.nif), Some(c.nick))
  }

  function EncodeIssuer(name: string, address: string, nif: string, phone: string): IssuerRow
  {
    IssuerRow(Some(name), Some(address), Some(nif), Some(phone))
  }

  function EncodeService(s: Service): ServiceRow
  {
    ServiceRow(Some(s.serviceName), Some(s.serviceDescription), s.servicePrice)
  }

  function EncodeExpense(concept: string, expenseDate: string, amount: real): ExpenseRow
  {
    ExpenseRow(Some(concept), Some(expenseDate), amount)
  }

  // ---------------------------------------------------------------------------------------
  // Reading: what the fetches build from one stored row.
  // ---------------------------------------------------------------------------------------

  /** The `guard let` of `fetchAllInvoices`: text columns 2 to 8 must be non-NULL. */
  predicate InvoiceComplete(r: InvoiceRow)
  {
    r.invoiceDate.Some? && r.issuerName.Some? && r.issuerAddress.Some? && r.issuerNIF.Some?
    && r.clientName.Some? && r.clientAddress.Some? && r.clientNIF.Some?
  }

  /** Stored issuer id 0 (or NULL, which reads as 0) means "no issuer". */
  function IssuerIdFromColumn(raw: Option<int>): Option<int>
  {
    var v := raw.GetOr(0);
    if v == 0 then None else Some(v)
  }

  /** The invoice built from a complete row, with the items fetched for it. */
  function DecodeInvoice(row: Row<InvoiceRow>, items: seq<InvoiceItem>): Option<Invoice>
  {
    var r := row.value;
    if !InvoiceComplete(r) then None
    else Some(Invoice(Some(row.id), IssuerIdFromColumn(r.issuerId), r.invoiceNumber,
      r.invoiceDate.value, r.issuerName.value, r.issuerAddress.value, r.issuerNIF.value,
      r.clientName.value, r.clientAddress.value, r.clientNIF.value, TextOr(r.observaciones),
      items, r.ivaPercentage, r.irpfPercentage, r.baseImponible, r.totalIVA, r.totalIRPF, r.totalFactura))
  }

  /** The `guard let` of `fetchItems`: concept, model, bastidor and date must be non-NULL. */
  predicate InvoiceItemComplete(r: ItemRow)
  {
    r.concept.Some? && r.model.Some? && r.bastidor.Some? && r.itemDate.Some?
  }

  function DecodeInvoiceItem(row: Row<ItemRow>, uuid: Uuid): Option<InvoiceItem>
  {
    var r := row.value;
    if !InvoiceItemComplete(r) then None
    else Some(InvoiceItem(Some(row.id), uuid, r.concept.value, r.model.value, r.bastidor.value, r.itemDate.value, r.amount))
  }

  /** `fetchAllBudgets` skips only rows whose date is NULL. */
  function DecodeBudget(row: Row<BudgetRow>, items: seq<BudgetItem>): Option<Budget>
  {
    var r := row.value;
    if r.budgetDate.None? then None
    else Some(Budget(Some(row.id), r.budgetNumber, r.budgetDate.value, r.issuerId, r.clientId,
      TextOr(r.observaciones), items, r.ivaPercentage, r.irpfPercentage, r.baseImponible,
      r.totalIVA, r.totalIRPF, r.totalBudget))
  }

  /** `fetchBudgetItems` reads every row, NULL text as `""`. */
  function DecodeBudgetItem(row: Row<ItemRow>): BudgetItem
  {
    var r := row.value;
    BudgetItem(Some(row.id), TextOr(r.concept), TextOr(r.model), TextOr(r.bastidor), TextOr(r.itemDate), r.amount)
  }

  function DecodeClient(row: Row<ClientRow>): Client
  {
    var r := row.value;
    Client(Some(row.id), TextOr(r.name), TextOr(r.address), TextOr(r.nif), TextOr(r.nick))
  }

  function DecodeIssuer(row: Row<IssuerRow>): Issuer
  {
    var r := row.value;
    Issuer(Some(row.id), TextOr(r.name), TextOr(r.address), TextOr(r.nif), TextOr(r.phone))
  }

  function DecodeService(row: Row<ServiceRow>): Service
  {
    var r := row.value;
    Service(Some(row.id), TextOr(r.serviceName), TextOr(r.serviceDescription), r.servicePrice)
  }

  function DecodeExpense(row: Row<ExpenseRow>): Expense
  {
    var r := row.value;
    Expense(Some(row.id), TextOr(r.concept), TextOr(r.expenseDate), r.amount)
  }

  // ---------------------------------------------------------------------------------------
  // Round trips: a record written by the manager reads back as itself, except for what the
  // row id, the 0 <-> nil issuer mapping and the fetched children replace.
  // ---------------------------------------------------------------------------------------

  /** An invoice reads back as written, with its row id, its issuer 0 read as nil, and the items fetched. */
  lemma InvoiceRoundTrip(inv: Invoice, id: int, items: seq<InvoiceItem>)
    ensures DecodeInvoice(Row(id, EncodeInvoice(inv)), items)
         == Some(inv.(id := Some(id), issuerId := IssuerIdFromColumn(Some(inv.issuerId.GetOr(0))), items := items))
    ensures inv.issuerId != Some(0) ==>
      DecodeInvoice(Row(id, EncodeInvoice(inv)), items) == Some(inv.(id := Some(id), items := items))
  {
  }

  lemma InvoiceItemRoundTrip(item: InvoiceItem, invoiceId: int, id: int, uuid: Uuid)
    ensures DecodeInvoiceItem(Row(id, EncodeInvoiceItem(item, invoiceId)), uuid)
         == Some(item.(id := Some(id), localUUID := uuid))
  {
  }

  lemma BudgetRoundTrip(b: Budget, id: int, items: seq<BudgetItem>)
    ensures DecodeBudget(Row(id, EncodeBudget(b)), items) == Some(b.(id := Some(id), items := items))
  {
  }

  lemma BudgetItemRoundTrip(item: BudgetItem, budgetId: int, id: int)
    ensures DecodeBudgetItem(Row(id, EncodeBudgetItem(item, budgetId))) == item.(id := Some(id))
  {
  }

  lemma ClientRoundTrip(c: Client, id: int)
    ensures DecodeClient(Row(id, EncodeClient(c))) == c.(id := Some(id))
  {
  }

  lemma IssuerRoundTrip(name: string, address: string, nif: string, phone: string, id: int)
    ensures DecodeIssuer(Row(id, EncodeIssuer(name, address, nif, phone))) == Issuer(Some(id), name, address, nif, phone)
  {
  }

  lemma ServiceRoundTrip(s: Service, id: int)
    ensures DecodeService(Row(id, EncodeService(s))) == s.(id := Some(id))
  {
  }

  lemma ExpenseRoundTrip(concept: string, expenseDate: string, amount: real, id: int)
    ensures DecodeExpense(Row(id, EncodeExpense(concept, expenseDate, amount))) == Expense(Some(id), concept, expenseDate, amount)
  {
  }
}
