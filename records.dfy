/**
 * The value types of the Model directory (Invoice.swift, Budget.swift and the rest). Swift `Double` becomes `real`, `Int` becomes `int`,
 * `Int?` becomes `Option<int>`. `UUID` becomes an opaque integer key.
 */
module Records {
  import opened Wrappers

  /** `UUID()`: only equality between keys matters. */
  type Uuid = int

  datatype InvoiceItem = InvoiceItem(
    id: Option<int>,
    localUUID: Uuid,
    concept: string,
    model: string,
    bastidor: string,
    date: string,
    amount: real)

  datatype Invoice = Invoice(
    id: Option<int>,
    issuerId: Option<int>,
    invoiceNumber: int,
    invoiceDate: string,
    issuerName: string,
    issuerAddress: string,
    issuerNIF: string,
    clientName: string,
    clientAddress: string,
    clientNIF: string,
    observaciones: string,
    items: seq<InvoiceItem>,
    ivaPercentage: real,
    irpfPercentage: real,
    baseImponible: real,
    totalIVA: real,
    totalIRPF: real,
    totalFactura: real)

  datatype BudgetItem = BudgetItem(
    id: Option<int>,
    concept: string,
    model: string,
    bastidor: string,
    itemDate: string,
    amount: real)

  /** Unlike an invoice, a budget keeps `issuerId`/`clientId` as plain integers, 0 meaning "none". */
  datatype Budget = Budget(
    id: Option<int>,
    budgetNumber: int,
    budgetDate: string,
    issuerId: int,
    clientId: int,
    observaciones: string,
    items: seq<BudgetItem>,
    ivaPercentage: real,
    irpfPercentage: real,
    baseImponible: real,
    totalIVA: real,
    totalIRPF: real,
    totalBudget: real)

  datatype Client = Client(id: Option<int>, name: string, address: string, nif: string, nick: string)

  datatype Issuer = Issuer(id: Option<int>, name: string, address: string, nif: string, phone: string)

  datatype Service = Service(id: Option<int>, serviceName: string, serviceDescription: string, servicePrice: real)

  datatype Expense = Expense(id: Option<int>, concept: string, expenseDate: string, amount: real)

  /** The `expenseDate` and `amount` accessors the expense reports filter, bucket and sum by. */
  function ExpenseDateOf(e: Expense): string { e.expenseDate }
  function ExpenseAmount(e: Expense): real { e.amount }
}
