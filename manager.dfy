/**
 * `DatabaseManager`: the object the views share. It holds the open database file (one field
 * per table, plus the schema, the version marker and the settings rows) and the two published
 * lists `invoices` and `clients`, which it refreshes after its own invoice and client writes.
 * `UUID()` is a counter, `uuidSource`, that hands out one fresh value per fetched invoice item.
 */
module Manager {
  import opened Wrappers
  import opened Sorting
  import opened Records
  import opened Tables
  import opened Rows
  import opened Schema
  import opened Labels
  import opened Database

  /** Items compared without their `localUUID`. */
  function EraseItems(items: seq<InvoiceItem>): (r: seq<InvoiceItem>)
    ensures |r| == |items|
    ensures forall i :: 0 <= i < |items| ==> r[i] == items[i].(localUUID := 0)
  {
    seq(|items|, i requires 0 <= i < |items| => items[i].(localUUID := 0))
  }

  function EraseInvoice(inv: Invoice): Invoice
  {
    inv.(items := EraseItems(inv.items))
  }

  /** Invoices compared without their items' `localUUID`. */
  function EraseInvoices(invoices: seq<Invoice>): (r: seq<Invoice>)
    ensures |r| == |invoices|
    ensures forall i :: 0 <= i < |invoices| ==> r[i] == EraseInvoice(invoices[i])
  {
    seq(|invoices|, i requires 0 <= i < |invoices| => EraseInvoice(invoices[i]))
  }

  lemma EraseInvoicesSnoc(invoices: seq<Invoice>, inv: Invoice)
    ensures EraseInvoices(invoices + [inv]) == EraseInvoices(invoices) + [EraseInvoice(inv)]
  {
    assert forall i :: 0 <= i < |invoices| ==> (invoices + [inv])[i] == invoices[i];
  }

  /**
   * One step of the invoice fetch: appending the invoice built from row `i` (with items that
   * read as that row's stored items) extends the listing of the first `i` rows to `i + 1`.
   */
  lemma InvoiceFetchStep(rows: seq<Row<InvoiceRow>>, i: nat, itemRows: seq<Row<ItemRow>>,
                         invoices: seq<Invoice>, items: seq<InvoiceItem>)
    requires i < |rows|
    requires EraseInvoices(invoices) == DecodeRows(rows[..i], InvoiceDecoder(itemRows))
    requires InvoiceComplete(rows[i].value) ==> EraseItems(items) == InvoiceItemsOf(itemRows, rows[i].id)
    ensures InvoiceComplete(rows[i].value) ==>
      EraseInvoices(invoices + [DecodeInvoice(rows[i], items).value]) == DecodeRows(rows[..i + 1], InvoiceDecoder(itemRows))
    ensures !InvoiceComplete(rows[i].value) ==>
      EraseInvoices(invoices) == DecodeRows(rows[..i + 1], InvoiceDecoder(itemRows))
  {
    assert rows[..i + 1][..i] == rows[..i];
    if InvoiceComplete(rows[i].value) {
      EraseInvoicesSnoc(invoices, DecodeInvoice(rows[i], items).value);
    }
  }

  /** One step of the budget fetch: a dated row adds its budget, an undated one adds nothing. */
  lemma BudgetFetchStep(rows: seq<Row<BudgetRow>>, i: nat, itemRows: seq<Row<ItemRow>>,
                        budgets: seq<Budget>, items: seq<BudgetItem>)
    requires i < |rows|
    requires budgets == DecodeRows(rows[..i], BudgetDecoder(itemRows))
    requires items == BudgetItemsOf(itemRows, rows[i].id)
    ensures rows[i].value.budgetDate.Some? ==>
      budgets + [DecodeBudget(rows[i], items).value] == DecodeRows(rows[..i + 1], BudgetDecoder(itemRows))
    ensures rows[i].value.budgetDate.None? ==> budgets == DecodeRows(rows[..i + 1], BudgetDecoder(itemRows))
  {
    assert rows[..i + 1][..i] == rows[..i];
  }

  /** One step of the budget item fetch: every row adds its item. */
  lemma BudgetItemFetchStep(rows: seq<Row<ItemRow>>, i: nat, items: seq<BudgetItem>)
    requires i < |rows|
    requires items == DecodeRows(rows[..i], BudgetItemDecoder)
    ensures items + [DecodeBudgetItem(rows[i])] == DecodeRows(rows[..i + 1], BudgetItemDecoder)
  {
    assert rows[..i + 1][..i] == rows[..i];
  }

  /**
   * One step of the item fetch: appending the item built from row `i`, whatever local UUID it
   * gets, extends the items of the first `i` rows to `i + 1`.
   */
  lemma ItemFetchStep(rows: seq<Row<ItemRow>>, i: nat, results: seq<InvoiceItem>, uuid: Uuid)
    requires i < |rows|
    requires EraseItems(results) == DecodeRows(rows[..i], InvoiceItemDecoder)
    ensures InvoiceItemComplete(rows[i].value) ==>
      EraseItems(results + [DecodeInvoiceItem(rows[i], uuid).value]) == DecodeRows(rows[..i + 1], InvoiceItemDecoder)
    ensures !InvoiceItemComplete(rows[i].value) ==>
      EraseItems(results) == DecodeRows(rows[..i + 1], InvoiceItemDecoder)
  {
    assert rows[..i + 1][..i] == rows[..i];
    if InvoiceItemComplete(rows[i].value) {
      var item := DecodeInvoiceItem(rows[i], uuid).value;
      assert EraseItems(results + [item]) == EraseItems(results) + [InvoiceItemDecoder(rows[i]).value];
    }
  }

  class DatabaseManager {
    var version: int
    var schema: set<SchemaObject>
    var settings: map<string, string>
    var invoiceTable: Table<InvoiceRow>
    var invoiceItemTable: Table<ItemRow>
    var clientTable: Table<ClientRow>
    var issuerTable: Table<IssuerRow>
    var serviceTable: Table<ServiceRow>
    var expenseTable: Table<ExpenseRow>
    var budgetTable: Table<BudgetRow>
    var budgetItemTable: Table<ItemRow>

    /** The published `invoices` and `clients` lists. */
    var invoices: seq<Invoice>
    var clients: seq<Client>

    var uuidSource: int

    /** The database file as it stands. */
    function File(): DbFile
      reads this`version, this`schema, this`settings, this`invoiceTable, this`invoiceItemTable, this`clientTable,
        this`issuerTable, this`serviceTable, this`expenseTable, this`budgetTable, this`budgetItemTable
    {
      DbFile(version, schema, settings, invoiceTable, invoiceItemTable, clientTable, issuerTable,
        serviceTable, expenseTable, budgetTable, budgetItemTable)
    }

    ghost predicate Valid()
      reads this`version, this`schema, this`settings, this`invoiceTable, this`invoiceItemTable, this`clientTable,
        this`issuerTable, this`serviceTable, this`expenseTable, this`budgetTable, this`budgetItemTable
    {
      Database.Valid(File())
    }

    /** `init()`: opens the file `disk`, migrates it, and loads the invoice and client lists. */
    constructor(disk: DbFile, firstUuid: int)
      requires Database.Valid(disk)
      ensures Valid()
      ensures File() == MigrateFile(disk)
      ensures EraseInvoices(invoices) == InvoiceListing(File())
      ensures clients == ClientListing(File())
    {
      version := disk.version;
      schema := disk.schema;
      settings := disk.settings;
      invoiceTable := disk.invoices;
      invoiceItemTable := disk.invoiceItems;
      clientTable := disk.clients;
      issuerTable := disk.issuers;
      serviceTable := disk.services;
      expenseTable := disk.expenses;
      budgetTable := disk.budgets;
      budgetItemTable := disk.budgetItems;
      invoices := [];
      clients := [];
      uuidSource := firstUuid;
      new;
      assert File() == disk;
      CheckAndPerformMigrations();
      LoadMainData();
    }

    /** The "load main data" part of `init()`: both published lists, read from the file as it is. */
    method LoadMainData()
      modifies this`invoices, this`clients, this`uuidSource
      ensures File() == old(File())
      ensures EraseInvoices(invoices) == InvoiceListing(File())
      ensures clients == ClientListing(File())
    {
      FetchAllInvoices();
      FetchAllClients();
    }

    // -------------------------------------------------------------------------------------
    // Migrations and settings
    // -------------------------------------------------------------------------------------

    /** `checkAndPerformMigrations`: the marker is read once, and every step tests that value. */
    method CheckAndPerformMigrations()
      requires Valid()
      modifies this`version, this`schema, this`settings
      ensures Valid()
      ensures File() == MigrateFile(old(File()))
    {
      ghost var f0 := File();
      ghost var s0 := Store(version, schema, settings);
      var currentVersion := version;
      if currentVersion < 1 {
        schema := schema + Version1Tables;
        schema := AddColumn(schema, ClientsTable, ClientsNickColumn);
        version := 1;
      }
      ghost var s1 := Store(version, schema, settings);
      assert s1 == if currentVersion < 1 then Step1(s0) else s0;
      if currentVersion < 2 {
        schema := schema + Version2Tables;
        version := 2;
      }
      ghost var s2 := Store(version, schema, settings);
      assert s2 == if currentVersion < 2 then Step2(s1) else s1;
      if currentVersion < 3 {
        schema := schema + {SettingsTable};
        SeedDefaultLabels();
        version := 3;
      }
      ghost var s3 := Store(version, schema, settings);
      assert s3 == if currentVersion < 3 then Step3(s2) else s2;
      if currentVersion < 4 {
        schema := AddColumn(schema, InvoicesTable, InvoicesIssuerIdColumn);
        version := 4;
      }
      ghost var s4 := Store(version, schema, settings);
      assert s4 == if currentVersion < 4 then Step4(s3) else s3;
      if currentVersion < 5 {
        schema := schema + {SettingsTable};
        SeedDefaultLabels();
        version := 5;
      }
      assert Store(version, schema, settings) == Migrate(s0);
      assert File() == MigrateFile(f0);
    }

    /** The `for (key, val) in defaultLabels` loop of `INSERT OR IGNORE` statements. */
    method SeedDefaultLabels()
      requires SettingsTable in schema
      modifies this`settings
      ensures settings == SeedDefaults(old(settings))
    {
      for i := 0 to |DefaultLabels|
        invariant settings == SeedAll(old(settings), DefaultLabels[..i])
      {
        var (key, val) := DefaultLabels[i];
        assert DefaultLabels[..i + 1][..i] == DefaultLabels[..i];
        settings := InsertOrIgnore(settings, key, val);
      }
      assert DefaultLabels[..|DefaultLabels|] == DefaultLabels;
    }

    /** `getSettingValue(forKey:)`. */
    method GetSettingValue(key: string) returns (result: string)
      ensures result == SettingValue(File(), key)
      ensures result != "" ==> SettingsTable in schema && key in settings && settings[key] == result
    {
      result := "";
      if SettingsTable in schema && key in settings {
        result := settings[key];
      }
    }

    /** `setSettingValue(_:forKey:)`. */
    method SetSettingValue(value: string, key: string)
      requires Valid()
      modifies this`settings
      ensures Valid()
      ensures File() == SetSetting(old(File()), value, key)
    {
      if SettingsTable in schema {
        settings := settings[key := value];
      }
    }

    // -------------------------------------------------------------------------------------
    // Invoices
    // -------------------------------------------------------------------------------------

    /** `insertInvoiceItem(_:invoiceId:)`. */
    method InsertInvoiceItem(item: InvoiceItem, invoiceId: int)
      requires Valid()
      modifies this`invoiceItemTable
      ensures Valid()
      ensures invoiceItemTable == if InvoiceItemsTable in schema
        then Insert(old(invoiceItemTable), EncodeInvoiceItem(item, invoiceId)) else old(invoiceItemTable)
    {
      if InvoiceItemsTable in schema {
        invoiceItemTable := Insert(invoiceItemTable, EncodeInvoiceItem(item, invoiceId));
      }
    }

    /** The `for item in invoice.items` loop of `insertInvoice` and `updateInvoice`. */
    method InsertInvoiceItems(items: seq<InvoiceItem>, invoiceId: int)
      requires Valid()
      modifies this`invoiceItemTable
      ensures Valid()
      ensures invoiceItemTable == if InvoiceItemsTable in schema
        then InsertAll(old(invoiceItemTable), EncodeInvoiceItems(items, invoiceId)) else old(invoiceItemTable)
    {
      for i := 0 to |items|
        invariant Valid()
        invariant invoiceItemTable == if InvoiceItemsTable in schema
          then InsertAll(old(invoiceItemTable), EncodeInvoiceItems(items[..i], invoiceId)) else old(invoiceItemTable)
      {
        var done := EncodeInvoiceItems(items[..i + 1], invoiceId);
        assert done[..i] == EncodeInvoiceItems(items[..i], invoiceId);
        InsertInvoiceItem(items[i], invoiceId);
      }
      assert items[..|items|] == items;
    }

    /** `insertInvoice`: the row, its items when the row went in, then a refresh of `invoices`. */
    method InsertInvoice(inv: Invoice)
      requires Valid()
      modifies this`invoiceTable, this`invoiceItemTable, this`invoices, this`uuidSource
      ensures Valid()
      ensures File() == Database.InsertInvoice(old(File()), inv)
      ensures EraseInvoices(invoices) == InvoiceListing(File())
    {
      WriteNewInvoice(inv);
      ghost var f1 := File();
      FetchAllInvoices();
      assert File() == f1;
    }

    /** The statements of `insertInvoice` before the refresh: the row, then its items under the new id. */
    method WriteNewInvoice(inv: Invoice)
      requires Valid()
      modifies this`invoiceTable, this`invoiceItemTable
      ensures Valid()
      ensures File() == Database.InsertInvoice(old(File()), inv)
    {
      if InvoicesTable in schema && InvoicesIssuerIdColumn in schema {
        invoiceTable := Insert(invoiceTable, EncodeInvoice(inv));
        var newId := invoiceTable.lastId;
        ghost var f1 := File();
        InsertInvoiceItems(inv.items, newId);
        assert File() == AddInvoiceItems(f1, inv.items, newId);
      }
    }

    /** `fetchAllInvoices`: rebuilds `invoices` from the rows, highest number first. */
    method FetchAllInvoices()
      modifies this`invoices, this`uuidSource
      ensures EraseInvoices(invoices) == InvoiceListing(File())
    {
      invoices := [];
      if InvoicesTable in schema {
        var rows := SortBy(invoiceTable.rows, InvoiceKey, true);
        assert rows == InvoiceRowsByNumber(File());
        ghost var itemRows := InvoiceItemRows(File());
        for i := 0 to |rows|
          invariant EraseInvoices(invoices) == DecodeRows(rows[..i], InvoiceDecoder(itemRows))
        {
          var row := rows[i];
          if InvoiceComplete(row.value) {
            var items := FetchItems(row.id);
            InvoiceFetchStep(rows, i, itemRows, invoices, items);
            invoices := invoices + [DecodeInvoice(row, items).value];
          } else {
            InvoiceFetchStep(rows, i, itemRows, invoices, []);
          }
        }
        assert rows[..|rows|] == rows;
      }
    }

    /** `fetchItems(forInvoiceId:)`: each complete item row gets the next `UUID`. */
    method FetchItems(invoiceId: int) returns (results: seq<InvoiceItem>)
      modifies this`uuidSource
      ensures File() == old(File())
      ensures EraseItems(results) == InvoiceItemsOf(InvoiceItemRows(File()), invoiceId)
      ensures uuidSource == old(uuidSource) + |results|
      ensures forall k :: 0 <= k < |results| ==> results[k].localUUID == old(uuidSource) + k
    {
      results := [];
      if InvoiceItemsTable in schema {
        var rows := Children(invoiceItemTable.rows, ParentOf, invoiceId);
        for i := 0 to |rows|
          invariant EraseItems(results) == DecodeRows(rows[..i], InvoiceItemDecoder)
          invariant uuidSource == old(uuidSource) + |results|
          invariant forall k :: 0 <= k < |results| ==> results[k].localUUID == old(uuidSource) + k
        {
          ItemFetchStep(rows, i, results, uuidSource);
          var row := rows[i];
          if InvoiceItemComplete(row.value) {
            var item := DecodeInvoiceItem(row, uuidSource).value;
            results := results + [item];
            uuidSource := uuidSource + 1;
          }
        }
        assert rows[..|rows|] == rows;
      }
    }

    /** `updateInvoice`: nothing at all for an invoice without id; otherwise row, items, refresh. */
    method UpdateInvoice(inv: Invoice)
      requires Valid()
      modifies this`invoiceTable, this`invoiceItemTable, this`invoices, this`uuidSource
      ensures Valid()
      ensures File() == Database.UpdateInvoice(old(File()), inv)
      ensures inv.id.Some? ==> EraseInvoices(invoices) == InvoiceListing(File())
      ensures inv.id.None? ==> invoices == old(invoices)
    {
      if inv.id.None? {
        return;
      }
      var rowId := inv.id.value;
      RewriteInvoiceRow(inv, rowId);
      ReplaceInvoiceItems(inv.items, rowId);
      ghost var f1 := File();
      FetchAllInvoices();
      assert File() == f1;
    }

    /** The first statement of `updateInvoice`: the invoice row with id `rowId` takes `inv`'s values. */
    method RewriteInvoiceRow(inv: Invoice, rowId: int)
      requires Valid()
      modifies this`invoiceTable
      ensures Valid()
      ensures File() == RewriteInvoice(old(File()), rowId, inv)
    {
      if InvoicesTable in schema && InvoicesIssuerIdColumn in schema {
        invoiceTable := UpdateWhere(invoiceTable, rowId, EncodeInvoice(inv));
      }
    }

    /** The second half of `updateInvoice`: the old item rows are deleted and the new ones inserted. */
    method ReplaceInvoiceItems(items: seq<InvoiceItem>, rowId: int)
      requires Valid()
      modifies this`invoiceItemTable
      ensures Valid()
      ensures File() == AddInvoiceItems(ClearInvoiceItems(old(File()), rowId), items, rowId)
    {
      ghost var f0 := File();
      if InvoiceItemsTable in schema {
        invoiceItemTable := DeleteChildren(invoiceItemTable, ParentOf, rowId);
      }
      ghost var f1 := File();
      assert f1 == ClearInvoiceItems(f0, rowId);
      InsertInvoiceItems(items, rowId);
    }

    /** `deleteInvoice`: the row, then its items, then a refresh; nothing for an invoice without id. */
    method DeleteInvoice(inv: Invoice)
      requires Valid()
      modifies this`invoiceTable, this`invoiceItemTable, this`invoices, this`uuidSource
      ensures Valid()
      ensures File() == Database.DeleteInvoice(old(File()), inv)
      ensures inv.id.Some? ==> EraseInvoices(invoices) == InvoiceListing(File())
      ensures inv.id.None? ==> invoices == old(invoices)
    {
      if inv.id.None? {
        return;
      }
      RemoveInvoiceRows(inv.id.value);
      ghost var f1 := File();
      FetchAllInvoices();
      assert File() == f1;
    }

    /** The two statements of `deleteInvoice`: the invoice row, then the item rows under it. */
    method RemoveInvoiceRows(rowId: int)
      requires Valid()
      modifies this`invoiceTable, this`invoiceItemTable
      ensures Valid()
      ensures File() == ClearInvoiceItems(DeleteInvoiceRow(old(File()), rowId), rowId)
    {
      ghost var f0 := File();
      if InvoicesTable in schema {
        invoiceTable := DeleteWhere(invoiceTable, rowId);
      }
      ghost var f1 := File();
      assert f1 == DeleteInvoiceRow(f0, rowId);
      if InvoiceItemsTable in schema {
        invoiceItemTable := DeleteChildren(invoiceItemTable, ParentOf, rowId);
      }
    }

    /** `getNextInvoiceNumber`. */
    method GetNextInvoiceNumber() returns (n: int)
      ensures n == NextInvoiceNumber(File())
    {
      var maxNumber := 0;
      if InvoicesTable in schema {
        maxNumber := MaxNumber(invoiceTable.rows).GetOr(0);
      }
      n := maxNumber + 1;
    }

    // -------------------------------------------------------------------------------------
    // Clients
    // -------------------------------------------------------------------------------------

    /** `insertClient`, then a refresh of `clients`. */
    method InsertClient(c: Client)
      requires Valid()
      modifies this`clientTable, this`clients
      ensures Valid()
      ensures File() == Database.InsertClient(old(File()), c)
      ensures clients == ClientListing(File())
    {
      if ClientsTable in schema && ClientsNickColumn in schema {
        clientTable := Insert(clientTable, EncodeClient(c));
      }
      FetchAllClients();
    }

    /** `fetchAllClients`: rebuilds `clients` from the rows, by name. */
    method FetchAllClients()
      modifies this`clients
      ensures clients == ClientListing(File())
    {
      clients := [];
      if ClientsTable in schema && ClientsNickColumn in schema {
        var rows := SortBy(clientTable.rows, ClientKey, false);
        for i := 0 to |rows|
          invariant clients == DecodeRows(rows[..i], ClientDecoder)
        {
          DecodeRowsStep(rows, i, ClientDecoder);
          clients := clients + [DecodeClient(rows[i])];
        }
        assert rows[..|rows|] == rows;
      }
    }

    /** `updateClient`: nothing for a client without id; otherwise the row, then a refresh. */
    method UpdateClient(c: Client)
      requires Valid()
      modifies this`clientTable, this`clients
      ensures Valid()
      ensures File() == Database.UpdateClient(old(File()), c)
      ensures c.id.Some? ==> clients == ClientListing(File())
      ensures c.id.None? ==> clients == old(clients)
    {
      if c.id.None? {
        return;
      }
      if ClientsTable in schema && ClientsNickColumn in schema {
        clientTable := UpdateWhere(clientTable, c.id.value, EncodeClient(c));
      }
      FetchAllClients();
    }

    /** `deleteClient`: nothing for a client without id; otherwise the row, then a refresh. */
    method DeleteClient(c: Client)
      requires Valid()
      modifies this`clientTable, this`clients
      ensures Valid()
      ensures File() == Database.DeleteClient(old(File()), c)
      ensures c.id.Some? ==> clients == ClientListing(File())
      ensures c.id.None? ==> clients == old(clients)
    {
      if c.id.None? {
        return;
      }
      if ClientsTable in schema {
        clientTable := DeleteWhere(clientTable, c.id.value);
      }
      FetchAllClients();
    }

    // -------------------------------------------------------------------------------------
    // Issuers, services, expenses: no published list, the views fetch on demand.
    // -------------------------------------------------------------------------------------

    method InsertIssuer(name: string, address: string, nif: string, phone: string)
      requires Valid()
      modifies this`issuerTable
      ensures Valid()
      ensures File() == Database.InsertIssuer(old(File()), name, address, nif, phone)
    {
      if IssuersTable in schema {
        issuerTable := Insert(issuerTable, EncodeIssuer(name, address, nif, phone));
      }
    }

    /** `fetchAllIssuers`. */
    method FetchAllIssuers() returns (issuers: seq<Issuer>)
      ensures issuers == IssuerListing(File())
    {
      issuers := [];
      if IssuersTable in schema {
        var rows := issuerTable.rows;
        for i := 0 to |rows|
          invariant issuers == DecodeRows(rows[..i], IssuerDecoder)
        {
          DecodeRowsStep(rows, i, IssuerDecoder);
          issuers := issuers + [DecodeIssuer(rows[i])];
        }
        assert rows[..|rows|] == rows;
      }
    }

    method UpdateIssuer(issuer: Issuer)
      requires Valid()
      modifies this`issuerTable
      ensures Valid()
      ensures File() == Database.UpdateIssuer(old(File()), issuer)
    {
      if issuer.id.None? {
        return;
      }
      if IssuersTable in schema {
        issuerTable := UpdateWhere(issuerTable, issuer.id.value,
          EncodeIssuer(issuer.name, issuer.address, issuer.nif, issuer.phone));
      }
    }

    method DeleteIssuer(issuer: Issuer)
      requires Valid()
      modifies this`issuerTable
      ensures Valid()
      ensures File() == Database.DeleteIssuer(old(File()), issuer)
    {
      if issuer.id.None? {
        return;
      }
      if IssuersTable in schema {
        issuerTable := DeleteWhere(issuerTable, issuer.id.value);
      }
    }

    method InsertService(s: Service)
      requires Valid()
      modifies this`serviceTable
      ensures Valid()
      ensures File() == Database.InsertService(old(File()), s)
    {
      if ServicesTable in schema {
        serviceTable := Insert(serviceTable, EncodeService(s));
      }
    }

    /** `fetchAllServices`. */
    method FetchAllServices() returns (services: seq<Service>)
      ensures services == ServiceListing(File())
    {
      services := [];
      if ServicesTable in schema {
        var rows := serviceTable.rows;
        for i := 0 to |rows|
          invariant services == DecodeRows(rows[..i], ServiceDecoder)
        {
          DecodeRowsStep(rows, i, ServiceDecoder);
          services := services + [DecodeService(rows[i])];
        }
        assert rows[..|rows|] == rows;
      }
    }

    method UpdateService(s: Service)
      requires Valid()
      modifies this`serviceTable
      ensures Valid()
      ensures File() == Database.UpdateService(old(File()), s)
    {
      if s.id.None? {
        return;
      }
      if ServicesTable in schema {
        serviceTable := UpdateWhere(serviceTable, s.id.value, EncodeService(s));
      }
    }

    method DeleteService(s: Service)
      requires Valid()
      modifies this`serviceTable
      ensures Valid()
      ensures File() == Database.DeleteService(old(File()), s)
    {
      if s.id.None? {
        return;
      }
      if ServicesTable in schema {
        serviceTable := DeleteWhere(serviceTable, s.id.value);
      }
    }

    method InsertExpense(concept: string, expenseDate: string, amount: real)
      requires Valid()
      modifies this`expenseTable
      ensures Valid()
      ensures File() == Database.InsertExpense(old(File()), concept, expenseDate, amount)
    {
      if ExpensesTable in schema {
        expenseTable := Insert(expenseTable, EncodeExpense(concept, expenseDate, amount));
      }
    }

    /** `fetchAllExpenses`: by descending date text. */
    method FetchAllExpenses() returns (expenses: seq<Expense>)
      ensures expenses == ExpenseListing(File())
    {
      expenses := [];
      if ExpensesTable in schema {
        var rows := SortBy(expenseTable.rows, ExpenseKey, true);
        for i := 0 to |rows|
          invariant expenses == DecodeRows(rows[..i], ExpenseDecoder)
        {
          DecodeRowsStep(rows, i, ExpenseDecoder);
          expenses := expenses + [DecodeExpense(rows[i])];
        }
        assert rows[..|rows|] == rows;
      }
    }

    method UpdateExpense(e: Expense)
      requires Valid()
      modifies this`expenseTable
      ensures Valid()
      ensures File() == Database.UpdateExpense(old(File()), e)
    {
      if e.id.None? {
        return;
      }
      if ExpensesTable in schema {
        expenseTable := UpdateWhere(expenseTable, e.id.value, EncodeExpense(e.concept, e.expenseDate, e.amount));
      }
    }

    method DeleteExpense(e: Expense)
      requires Valid()
      modifies this`expenseTable
      ensures Valid()
      ensures File() == Database.DeleteExpense(old(File()), e)
    {
      if e.id.None? {
        return;
      }
      if ExpensesTable in schema {
        expenseTable := DeleteWhere(expenseTable, e.id.value);
      }
    }

    // -------------------------------------------------------------------------------------
    // Budgets: no published list either; `insertBudget` and `updateBudget` do not refresh.
    // -------------------------------------------------------------------------------------

    method InsertBudgetItem(item: BudgetItem, budgetId: int)
      requires Valid()
      modifies this`budgetItemTable
      ensures Valid()
      ensures budgetItemTable == if BudgetItemsTable in schema
        then Insert(old(budgetItemTable), EncodeBudgetItem(item, budgetId)) else old(budgetItemTable)
    {
      if BudgetItemsTable in schema {
        budgetItemTable := Insert(budgetItemTable, EncodeBudgetItem(item, budgetId));
      }
    }

    /** The `for item in budget.items` loop of `insertBudget` and `updateBudget`. */
    method InsertBudgetItems(items: seq<BudgetItem>, budgetId: int)
      requires Valid()
      modifies this`budgetItemTable
      ensures Valid()
      ensures budgetItemTable == if BudgetItemsTable in schema
        then InsertAll(old(budgetItemTable), EncodeBudgetItems(items, budgetId)) else old(budgetItemTable)
    {
      for i := 0 to |items|
        invariant Valid()
        invariant budgetItemTable == if BudgetItemsTable in schema
          then InsertAll(old(budgetItemTable), EncodeBudgetItems(items[..i], budgetId)) else old(budgetItemTable)
      {
        var done := EncodeBudgetItems(items[..i + 1], budgetId);
        assert done[..i] == EncodeBudgetItems(items[..i], budgetId);
        InsertBudgetItem(items[i], budgetId);
      }
      assert items[..|items|] == items;
    }

    method InsertBudget(b: Budget)
      requires Valid()
      modifies this`budgetTable, this`budgetItemTable
      ensures Valid()
      ensures File() == Database.InsertBudget(old(File()), b)
    {
      if BudgetsTable in schema {
        budgetTable := Insert(budgetTable, EncodeBudget(b));
        var newId := budgetTable.lastId;
        InsertBudgetItems(b.items, newId);
      }
    }

    /** `fetchAllBudgets`: rows with a date, highest number first, each with its items. */
    method FetchAllBudgets() returns (budgets: seq<Budget>)
      ensures budgets == BudgetListing(File())
    {
      budgets := [];
      if BudgetsTable in schema {
        var rows := SortBy(budgetTable.rows, BudgetKey, true);
        assert rows == BudgetRowsByNumber(File());
        ghost var itemRows := BudgetItemRows(File());
        for i := 0 to |rows|
          invariant budgets == DecodeRows(rows[..i], BudgetDecoder(itemRows))
        {
          var row := rows[i];
          if row.value.budgetDate.Some? {
            var items := FetchBudgetItems(row.id);
            BudgetFetchStep(rows, i, itemRows, budgets, items);
            budgets := budgets + [DecodeBudget(row, items).value];
          } else {
            BudgetFetchStep(rows, i, itemRows, budgets, BudgetItemsOf(itemRows, row.id));
          }
        }
        assert rows[..|rows|] == rows;
      }
    }

    /** `fetchBudgetItems(budgetId:)`. */
    method FetchBudgetItems(budgetId: int) returns (items: seq<BudgetItem>)
      ensures items == BudgetItemsOf(BudgetItemRows(File()), budgetId)
    {
      items := [];
      if BudgetItemsTable in schema {
        var rows := Children(budgetItemTable.rows, ParentOf, budgetId);
        for i := 0 to |rows|
          invariant items == DecodeRows(rows[..i], BudgetItemDecoder)
        {
          BudgetItemFetchStep(rows, i, items);
          items := items + [DecodeBudgetItem(rows[i])];
        }
        assert rows[..|rows|] == rows;
      }
    }

    method UpdateBudget(b: Budget)
      requires Valid()
      modifies this`budgetTable, this`budgetItemTable
      ensures Valid()
      ensures File() == Database.UpdateBudget(old(File()), b)
    {
      if b.id.None? {
        return;
      }
      var rowId := b.id.value;
      if BudgetsTable in schema {
        budgetTable := UpdateWhere(budgetTable, rowId, EncodeBudget(b));
      }
      if BudgetItemsTable in schema {
        budgetItemTable := DeleteChildren(budgetItemTable, ParentOf, rowId);
      }
      InsertBudgetItems(b.items, rowId);
    }

    /** `deleteBudget`: the row, then its items; the list it fetches afterwards is thrown away. */
    method DeleteBudget(b: Budget)
      requires Valid()
      modifies this`budgetTable, this`budgetItemTable
      ensures Valid()
      ensures File() == Database.DeleteBudget(old(File()), b)
    {
      if b.id.None? {
        return;
      }
      ghost var f0 := File();
      var rowId := b.id.value;
      if BudgetsTable in schema {
        budgetTable := DeleteWhere(budgetTable, rowId);
      }
      if BudgetItemsTable in schema {
        budgetItemTable := DeleteChildren(budgetItemTable, ParentOf, rowId);
      }
      assert File() == Database.DeleteBudget(f0, b);
      var _ := FetchAllBudgets();
    }
  }
}
