/**
 * The database file `MyInvoicesDB.sqlite` as a value, and what each operation of the database
 * manager does to it and reads from it. Every statement is prepared against the current
 * schema: when a table (or a column the statement names) is missing, preparation fails and
 * the statement does nothing, since the manager ignores every error.
 */
module Database {
  import opened Wrappers
  import opened Seqs
  import opened Sorting
  import opened Records
  import opened Tables
  import opened Rows
  import opened Schema

  datatype DbFile = DbFile(
    version: int,
    schema: set<SchemaObject>,
    settings: map<string, string>,
    invoices: Table<InvoiceRow>,
    invoiceItems: Table<ItemRow>,
    clients: Table<ClientRow>,
    issuers: Table<IssuerRow>,
    services: Table<ServiceRow>,
    expenses: Table<ExpenseRow>,
    budgets: Table<BudgetRow>,
    budgetItems: Table<ItemRow>)

  /**
   * A consistent file: every table is well formed and empty unless it exists, the settings and
   * added columns live in existing tables, and rows stored before a column was added hold NULL there.
   */
  ghost predicate Valid(f: DbFile)
  {
    && WellFormed(f.invoices) && WellFormed(f.invoiceItems) && WellFormed(f.clients)
    && WellFormed(f.issuers) && WellFormed(f.services) && WellFormed(f.expenses)
    && WellFormed(f.budgets) && WellFormed(f.budgetItems)
    && Coherent(Store(f.version, f.schema, f.settings))
    && (InvoicesTable !in f.schema ==> f.invoices == Empty())
    && (InvoiceItemsTable !in f.schema ==> f.invoiceItems == Empty())
    && (ClientsTable !in f.schema ==> f.clients == Empty())
    && (IssuersTable !in f.schema ==> f.issuers == Empty())
    && (ServicesTable !in f.schema ==> f.services == Empty())
    && (ExpensesTable !in f.schema ==> f.expenses == Empty())
    && (BudgetsTable !in f.schema ==> f.budgets == Empty())
    && (BudgetItemsTable !in f.schema ==> f.budgetItems == Empty())
    && (ClientsNickColumn !in f.schema ==> forall row :: row in f.clients.rows ==> row.value.nick.None?)
    && (InvoicesIssuerIdColumn !in f.schema ==> forall row :: row in f.invoices.rows ==> row.value.issuerId.None?)
  }

  // ---------------------------------------------------------------------------------------
  // Migrations
  // ---------------------------------------------------------------------------------------

  /** `checkAndPerformMigrations` on the whole file: only the marker, schema and settings change. */
  function MigrateFile(f: DbFile): (r: DbFile)
    requires Valid(f)
    ensures Valid(r)
    ensures Store(r.version, r.schema, r.settings) == Migrate(Store(f.version, f.schema, f.settings))
    ensures r.invoices == f.invoices && r.invoiceItems == f.invoiceItems && r.clients == f.clients
    ensures r.issuers == f.issuers && r.services == f.services && r.expenses == f.expenses
    ensures r.budgets == f.budgets && r.budgetItems == f.budgetItems
  {
    var s := Migrate(Store(f.version, f.schema, f.settings));
    MigrateCoherent(Store(f.version, f.schema, f.settings));
    f.(version := s.version, schema := s.schema, settings := s.settings)
  }

  // ---------------------------------------------------------------------------------------
  // Settings
  // ---------------------------------------------------------------------------------------

  /** `getSettingValue`: the stored value, or `""` when the key or the table is missing. */
  function SettingValue(f: DbFile, key: string): string
  {
    if SettingsTable in f.schema && key in f.settings then f.settings[key] else ""
  }

  /** `setSettingValue`: `INSERT OR REPLACE`, so the key ends with the new value. */
  function SetSetting(f: DbFile, value: string, key: string): (r: DbFile)
    requires Valid(f)
    ensures Valid(r)
  {
    if SettingsTable in f.schema then f.(settings := f.settings[key := value]) else f
  }

  /** Reading a key after writing it gives the written value; every other key reads as before. */
  lemma SetThenGet(f: DbFile, value: string, key: string, other: string)
    requires Valid(f) && SettingsTable in f.schema
    ensures SettingValue(SetSetting(f, value, key), key) == value
    ensures other != key ==> SettingValue(SetSetting(f, value, key), other) == SettingValue(f, other)
  {
  }

  /** Without an `app_settings` table every read is `""` and every write is lost. */
  lemma SettingsWithoutTable(f: DbFile, value: string, key: string)
    requires Valid(f) && SettingsTable !in f.schema
    ensures SettingValue(f, key) == ""
    ensures SetSetting(f, value, key) == f
  {
  }

  /** After the migrations, a heading that had no stored value reads as its default. */
  lemma MigratedHeadings(f: DbFile, i: int)
    requires Valid(f) && f.version < 5 && 0 <= i < |Labels.DefaultLabels|
    requires SettingsTable !in f.schema || Labels.DefaultLabels[i].0 !in f.settings
    ensures SettingValue(MigrateFile(f), Labels.DefaultLabels[i].0) == Labels.DefaultLabels[i].1
  {
    MigrateSettings(Store(f.version, f.schema, f.settings));
    MigrateHasSettingsTable(Store(f.version, f.schema, f.settings));
  }

  // ---------------------------------------------------------------------------------------
  // Invoices
  // ---------------------------------------------------------------------------------------

  function InvoiceKey(r: Row<InvoiceRow>): SortKey { IntKey(r.value.invoiceNumber) }

  /** `fetchItems` builds items with a fresh `localUUID`; listings compare items with it set to 0. */
  function InvoiceItemDecoder(r: Row<ItemRow>): Option<InvoiceItem> { DecodeInvoiceItem(r, 0) }

  /** The item rows the invoice fetch reads: none when `invoice_items` is missing. */
  function InvoiceItemRows(f: DbFile): seq<Row<ItemRow>>
  {
    if InvoiceItemsTable in f.schema then f.invoiceItems.rows else []
  }

  /** `fetchItems(forInvoiceId:)`: the complete item rows of one invoice, in table order. */
  function InvoiceItemsOf(itemRows: seq<Row<ItemRow>>, invoiceId: int): seq<InvoiceItem>
  {
    DecodeRows(Children(itemRows, ParentOf, invoiceId), InvoiceItemDecoder)
  }

  function InvoiceDecoder(itemRows: seq<Row<ItemRow>>): Row<InvoiceRow> -> Option<Invoice>
  {
    (r: Row<InvoiceRow>) => DecodeInvoice(r, InvoiceItemsOf(itemRows, r.id))
  }

  /** The `ORDER BY invoiceNumber DESC` result set the invoice fetch walks. */
  function InvoiceRowsByNumber(f: DbFile): seq<Row<InvoiceRow>>
  {
    if InvoicesTable in f.schema then SortBy(f.invoices.rows, InvoiceKey, true) else []
  }

  /** `fetchAllInvoices`: the complete invoice rows, highest number first, each with its items. */
  function InvoiceListing(f: DbFile): seq<Invoice>
  {
    DecodeRows(InvoiceRowsByNumber(f), InvoiceDecoder(InvoiceItemRows(f)))
  }

  /** The invoice list is ordered by descending invoice number. */
  lemma InvoicesNewestFirst(f: DbFile)
    ensures forall i, j :: 0 <= i < j < |InvoiceListing(f)| ==>
      InvoiceListing(f)[i].invoiceNumber >= InvoiceListing(f)[j].invoiceNumber
  {
    var rows := InvoiceRowsByNumber(f);
    var dec := InvoiceDecoder(InvoiceItemRows(f));
    var keyOf := (inv: Invoice) => IntKey(inv.invoiceNumber);
    DecodeRowsSorted(rows, dec, keyOf, true);
    var l := InvoiceListing(f);
    forall i, j | 0 <= i < j < |l| ensures l[i].invoiceNumber >= l[j].invoiceNumber {
      assert Precedes(keyOf(l[i]), keyOf(l[j]), true);
    }
  }

  /** Stored row `k` has all its texts and reads, with its items, as `x`. */
  predicate InvoiceRowReadsAs(f: DbFile, k: int, x: Invoice)
  {
    && 0 <= k < |f.invoices.rows|
    && InvoiceComplete(f.invoices.rows[k].value)
    && DecodeInvoice(f.invoices.rows[k], InvoiceItemsOf(InvoiceItemRows(f), f.invoices.rows[k].id)) == Some(x)
  }

  /** An invoice is listed exactly when it is the reading of a stored row that has all its texts. */
  lemma InvoiceListed(f: DbFile, x: Invoice)
    requires InvoicesTable in f.schema
    ensures x in InvoiceListing(f) <==> exists k :: InvoiceRowReadsAs(f, k, x)
  {
    var rows := f.invoices.rows;
    var sorted := InvoiceRowsByNumber(f);
    var dec := InvoiceDecoder(InvoiceItemRows(f));
    DecodeRowsMember(sorted, dec, x);
    if x in InvoiceListing(f) {
      var k :| 0 <= k < |sorted| && dec(sorted[k]) == Some(x);
      assert sorted[k] in multiset(rows);
      var m :| 0 <= m < |rows| && rows[m] == sorted[k];
      assert dec(rows[m]) == Some(x);
      assert InvoiceRowReadsAs(f, m, x);
    }
    if exists k :: InvoiceRowReadsAs(f, k, x) {
      var k :| InvoiceRowReadsAs(f, k, x);
      assert rows[k] in multiset(sorted);
      var m :| 0 <= m < |sorted| && sorted[m] == rows[k];
      assert dec(sorted[m]) == Some(x);
    }
  }

  /** The `for item in invoice.items` loop: one `INSERT` per item under `invoiceId`. */
  function AddInvoiceItems(f: DbFile, items: seq<InvoiceItem>, invoiceId: int): (r: DbFile)
    requires Valid(f)
    ensures Valid(r)
  {
    if InvoiceItemsTable in f.schema
    then f.(invoiceItems := InsertAll(f.invoiceItems, EncodeInvoiceItems(items, invoiceId)))
    else f
  }

  /** `insertInvoice`: the row (issuer nil stored as 0), then its items under the new id. */
  function InsertInvoice(f: DbFile, inv: Invoice): (r: DbFile)
    requires Valid(f)
    ensures Valid(r)
  {
    if InvoicesTable in f.schema && InvoicesIssuerIdColumn in f.schema then
      var g := f.(invoices := Insert(f.invoices, EncodeInvoice(inv)));
      AddInvoiceItems(g, inv.items, g.invoices.lastId)
    else f
  }

  /**
   * An inserted invoice gets a never-used id, is listed with its issuer 0 read back as nil, and
   * its items are appended under that id in order.
   */
  lemma InsertedInvoiceListed(f: DbFile, inv: Invoice)
    requires Valid(f) && InvoicesTable in f.schema && InvoicesIssuerIdColumn in f.schema && InvoiceItemsTable in f.schema
    ensures var r := InsertInvoice(f, inv);
      && r.invoices.lastId !in Ids(f.invoices)
      && Values(Children(r.invoiceItems.rows, ParentOf, r.invoices.lastId))
         == Values(Children(f.invoiceItems.rows, ParentOf, r.invoices.lastId)) + EncodeInvoiceItems(inv.items, r.invoices.lastId)
      && inv.(id := Some(r.invoices.lastId), issuerId := IssuerIdFromColumn(Some(inv.issuerId.GetOr(0))),
              items := InvoiceItemsOf(InvoiceItemRows(r), r.invoices.lastId)) in InvoiceListing(r)
  {
    var r := InsertInvoice(f, inv);
    var id := r.invoices.lastId;
    var encoded := EncodeInvoiceItems(inv.items, id);
    ChildrenAfterInsertAll(f.invoiceItems, encoded, ParentOf, id);
    WithParentAll(encoded, ParentOf, id);
    var row := Row(id, EncodeInvoice(inv));
    var x := inv.(id := Some(id), issuerId := IssuerIdFromColumn(Some(inv.issuerId.GetOr(0))),
                  items := InvoiceItemsOf(InvoiceItemRows(r), id));
    InvoiceRoundTrip(inv, id, InvoiceItemsOf(InvoiceItemRows(r), id));
    var k := |r.invoices.rows| - 1;
    assert r.invoices.rows[k] == row;
    assert InvoiceRowReadsAs(r, k, x);
    InvoiceListed(r, x);
  }

  /** The `UPDATE invoices ... WHERE id = ?` of `updateInvoice`; it names `issuerId`. */
  function RewriteInvoice(f: DbFile, rowId: int, inv: Invoice): (r: DbFile)
    requires Valid(f)
    ensures Valid(r)
  {
    if InvoicesTable in f.schema && InvoicesIssuerIdColumn in f.schema
    then f.(invoices := UpdateWhere(f.invoices, rowId, EncodeInvoice(inv)))
    else f
  }

  /** `DELETE FROM invoice_items WHERE invoiceId = ?`. */
  function ClearInvoiceItems(f: DbFile, rowId: int): (r: DbFile)
    requires Valid(f)
    ensures Valid(r)
  {
    if InvoiceItemsTable in f.schema then f.(invoiceItems := DeleteChildren(f.invoiceItems, ParentOf, rowId)) else f
  }

  /**
   * `updateInvoice` of an invoice with an id: the row is rewritten (when the statement can be
   * prepared), then the item rows under that id are deleted and the new items inserted, even if
   * the invoice row itself could not be written. An invoice without an id changes nothing.
   */
  function UpdateInvoice(f: DbFile, inv: Invoice): (r: DbFile)
    requires Valid(f)
    ensures Valid(r)
  {
    if inv.id.None? then f
    else
      var rowId := inv.id.value;
      AddInvoiceItems(ClearInvoiceItems(RewriteInvoice(f, rowId, inv), rowId), inv.items, rowId)
  }

  /** After an update the invoice owns exactly its new items, and every other invoice keeps its own. */
  lemma UpdateInvoiceReplacesItems(f: DbFile, inv: Invoice, q: int)
    requires Valid(f) && inv.id.Some? && InvoiceItemsTable in f.schema
    ensures var r := UpdateInvoice(f, inv);
      Values(Children(r.invoiceItems.rows, ParentOf, q))
      == if q == inv.id.value then EncodeInvoiceItems(inv.items, q)
         else Values(Children(f.invoiceItems.rows, ParentOf, q))
  {
    var rowId := inv.id.value;
    var encoded := EncodeInvoiceItems(inv.items, rowId);
    var cleared := DeleteChildren(f.invoiceItems, ParentOf, rowId);
    ChildrenAfterDelete(f.invoiceItems, ParentOf, rowId, q);
    ChildrenAfterInsertAll(cleared, encoded, ParentOf, q);
    if q == rowId {
      WithParentAll(encoded, ParentOf, q);
      assert Values(Children(cleared.rows, ParentOf, q)) == [];
    } else {
      WithParentNone(encoded, ParentOf, q);
    }
  }

  /** The rewritten invoice row holds the new values and no other invoice row changes. */
  lemma UpdateInvoiceRow(f: DbFile, inv: Invoice, k: int, w: InvoiceRow)
    requires Valid(f) && inv.id.Some? && InvoicesTable in f.schema && InvoicesIssuerIdColumn in f.schema
    ensures var r := UpdateInvoice(f, inv);
      Ids(r.invoices) == Ids(f.invoices)
      && (Row(k, w) in r.invoices.rows <==>
          (k != inv.id.value && Row(k, w) in f.invoices.rows)
          || (k == inv.id.value && k in Ids(f.invoices) && w == EncodeInvoice(inv)))
  {
  }

  /** `deleteInvoice`: the invoice row and then its item rows; an invoice without id changes nothing. */
  function DeleteInvoice(f: DbFile, inv: Invoice): (r: DbFile)
    requires Valid(f)
    ensures Valid(r)
  {
    if inv.id.None? then f
    else ClearInvoiceItems(DeleteInvoiceRow(f, inv.id.value), inv.id.value)
  }

  /** `DELETE FROM invoices WHERE id = ?`. */
  function DeleteInvoiceRow(f: DbFile, rowId: int): (r: DbFile)
    requires Valid(f)
    ensures Valid(r)
  {
    if InvoicesTable in f.schema then f.(invoices := DeleteWhere(f.invoices, rowId)) else f
  }

  /**
   * Deleting an invoice removes its row and all its items, and nothing else: the other invoice
   * rows keep their values, the other invoices keep their items, and no other table changes.
   */
  lemma DeleteInvoiceCascades(f: DbFile, inv: Invoice, q: int)
    requires Valid(f) && inv.id.Some?
    ensures var r := DeleteInvoice(f, inv);
      && Ids(r.invoices) == Ids(f.invoices) - {inv.id.value}
      && (forall k, w :: Row(k, w) in r.invoices.rows <==> k != inv.id.value && Row(k, w) in f.invoices.rows)
      && Children(r.invoiceItems.rows, ParentOf, q)
         == (if q == inv.id.value then [] else Children(f.invoiceItems.rows, ParentOf, q))
      && r.(invoices := f.invoices, invoiceItems := f.invoiceItems) == f
  {
    if InvoiceItemsTable in f.schema {
      ChildrenAfterDelete(f.invoiceItems, ParentOf, inv.id.value, q);
    }
  }

  /** The largest stored invoice number, `None` for no rows (`MAX` of nothing is NULL). */
  function MaxNumber(rows: seq<Row<InvoiceRow>>): (r: Option<int>)
    ensures r.None? <==> rows == []
    ensures r.Some? ==> forall k :: 0 <= k < |rows| ==> rows[k].value.invoiceNumber <= r.value
    ensures r.Some? ==> exists k :: 0 <= k < |rows| && rows[k].value.invoiceNumber == r.value
  {
    if rows == [] then None
    else
      var last := rows[|rows| - 1].value.invoiceNumber;
      var m := MaxNumber(rows[..|rows| - 1]);
      if m.Some? && m.value >= last then
        var k :| 0 <= k < |rows| - 1 && rows[k].value.invoiceNumber == m.value;
        assert rows[..|rows| - 1][k] == rows[k];
        Some(m.value)
      else
        assert rows[|rows| - 1].value.invoiceNumber == last;
        Some(last)
  }

  /**
   * `getNextInvoiceNumber`: `MAX(invoiceNumber) + 1`, where a NULL maximum (no rows) and a
   * failed query (no table) both read as 0.
   */
  function NextInvoiceNumber(f: DbFile): (r: int)
    ensures InvoicesTable in f.schema ==> forall k :: 0 <= k < |f.invoices.rows| ==> f.invoices.rows[k].value.invoiceNumber < r
    ensures InvoicesTable !in f.schema || f.invoices.rows == [] ==> r == 1
    ensures InvoicesTable in f.schema && f.invoices.rows != [] ==>
      exists k :: 0 <= k < |f.invoices.rows| && f.invoices.rows[k].value.invoiceNumber == r - 1
  {
    var m := if InvoicesTable in f.schema then MaxNumber(f.invoices.rows) else None;
    m.GetOr(0) + 1
  }

  /** Saving a new invoice under the proposed number makes the next proposal one higher. */
  lemma NextNumberAdvances(f: DbFile, inv: Invoice)
    requires Valid(f) && InvoicesTable in f.schema && InvoicesIssuerIdColumn in f.schema
    requires inv.invoiceNumber == NextInvoiceNumber(f)
    ensures NextInvoiceNumber(InsertInvoice(f, inv)) == inv.invoiceNumber + 1
  {
    var r := InsertInvoice(f, inv);
    var rows := r.invoices.rows;
    assert rows[|rows| - 1].value.invoiceNumber == inv.invoiceNumber;
    forall k | 0 <= k < |rows| ensures rows[k].value.invoiceNumber <= inv.invoiceNumber {
      if k < |f.invoices.rows| { assert rows[k] == f.invoices.rows[k]; }
    }
  }

  // ---------------------------------------------------------------------------------------
  // Clients
  // ---------------------------------------------------------------------------------------

  /** `ORDER BY name ASC`: a NULL name sorts first. */
  function ClientKey(r: Row<ClientRow>): SortKey
  {
    match r.value.name
    case None => NullKey
    case Some(s) => TextKey(s)
  }

  function ClientDecoder(r: Row<ClientRow>): Option<Client> { Some(DecodeClient(r)) }

  /** The result set of the client fetch; it names the `nick` column, so it needs that too. */
  function ClientRowsByName(f: DbFile): seq<Row<ClientRow>>
  {
    if ClientsTable in f.schema && ClientsNickColumn in f.schema then SortBy(f.clients.rows, ClientKey, false) else []
  }

  /** `fetchAllClients`: every client row, by name, NULL texts read as `""`. */
  function ClientListing(f: DbFile): seq<Client>
  {
    DecodeRows(ClientRowsByName(f), ClientDecoder)
  }

  /** The client list is in alphabetical order of name, one client per stored row. */
  lemma ClientsByName(f: DbFile)
    ensures |ClientListing(f)| == |ClientRowsByName(f)|
    ensures forall i, j :: 0 <= i < j < |ClientListing(f)| ==> StrLe(ClientListing(f)[i].name, ClientListing(f)[j].name)
  {
    var rows := ClientRowsByName(f);
    var keyOf := (c: Client) => TextKey(c.name);
    DecodeRowsTotal(rows, ClientDecoder);
    forall i, j | 0 <= i < j < |rows|
      ensures Precedes(keyOf(ClientDecoder(rows[i]).value), keyOf(ClientDecoder(rows[j]).value), false)
    {
      assert Precedes(ClientKey(rows[i]), ClientKey(rows[j]), false);
      EmptyStrLe(TextOr(rows[j].value.name));
    }
    DecodeRowsSorted(rows, ClientDecoder, keyOf, false);
    var l := ClientListing(f);
    forall i, j | 0 <= i < j < |l| ensures StrLe(l[i].name, l[j].name) {
      assert Precedes(keyOf(l[i]), keyOf(l[j]), false);
    }
  }

  /** A client is listed exactly when it is the reading of a stored row (given the table and its `nick` column). */
  lemma ClientListed(f: DbFile, c: Client)
    requires ClientsTable in f.schema && ClientsNickColumn in f.schema
    ensures c in ClientListing(f) <==> exists k :: 0 <= k < |f.clients.rows| && DecodeClient(f.clients.rows[k]) == c
  {
    var rows := f.clients.rows;
    var sorted := ClientRowsByName(f);
    DecodeRowsMember(sorted, ClientDecoder, c);
    if c in ClientListing(f) {
      var k :| 0 <= k < |sorted| && ClientDecoder(sorted[k]) == Some(c);
      assert sorted[k] in multiset(rows);
      var m :| 0 <= m < |rows| && rows[m] == sorted[k];
    }
    if exists k :: 0 <= k < |rows| && DecodeClient(rows[k]) == c {
      var k :| 0 <= k < |rows| && DecodeClient(rows[k]) == c;
      assert rows[k] in multiset(sorted);
      var m :| 0 <= m < |sorted| && sorted[m] == rows[k];
      assert ClientDecoder(sorted[m]) == Some(c);
    }
  }

  /** `insertClient`; the statement names `nick`. */
  function InsertClient(f: DbFile, c: Client): (r: DbFile)
    requires Valid(f)
    ensures Valid(r)
  {
    if ClientsTable in f.schema && ClientsNickColumn in f.schema then f.(clients := Insert(f.clients, EncodeClient(c))) else f
  }

  /** An inserted client is listed with its new id and every field as given. */
  lemma InsertedClientListed(f: DbFile, c: Client)
    requires Valid(f) && ClientsTable in f.schema && ClientsNickColumn in f.schema
    ensures c.(id := Some(InsertClient(f, c).clients.lastId)) in ClientListing(InsertClient(f, c))
  {
    var r := InsertClient(f, c);
    var id := r.clients.lastId;
    ClientRoundTrip(c, id);
    assert r.clients.rows[|r.clients.rows| - 1] == Row(id, EncodeClient(c));
    ClientListed(r, c.(id := Some(id)));
  }

  /** `updateClient`: a client without an id changes nothing. */
  function UpdateClient(f: DbFile, c: Client): (r: DbFile)
    requires Valid(f)
    ensures Valid(r)
  {
    if c.id.Some? && ClientsTable in f.schema && ClientsNickColumn in f.schema
    then f.(clients := UpdateWhere(f.clients, c.id.value, EncodeClient(c)))
    else f
  }

  /** `deleteClient`: invoices keep the client's name and address, they do not point at the row. */
  function DeleteClient(f: DbFile, c: Client): (r: DbFile)
    requires Valid(f)
    ensures Valid(r)
  {
    if c.id.Some? && ClientsTable in f.schema then f.(clients := DeleteWhere(f.clients, c.id.value)) else f
  }

  /** An updated client reads back with the new values; a deleted one is no longer listed. */
  lemma UpdateDeleteClient(f: DbFile, c: Client, id: int)
    requires Valid(f) && ClientsTable in f.schema && ClientsNickColumn in f.schema && c.id == Some(id) && id in Ids(f.clients)
    ensures c in ClientListing(UpdateClient(f, c))
    ensures forall x :: x in ClientListing(DeleteClient(f, c)) ==> x.id != Some(id)
    ensures InvoiceListing(DeleteClient(f, c)) == InvoiceListing(f)
  {
    var u := UpdateClient(f, c);
    ClientRoundTrip(c, id);
    assert Row(id, EncodeClient(c)) in u.clients.rows;
    var k :| 0 <= k < |u.clients.rows| && u.clients.rows[k] == Row(id, EncodeClient(c));
    ClientListed(u, c);
    var d := DeleteClient(f, c);
    forall x | x in ClientListing(d) ensures x.id != Some(id) {
      ClientListed(d, x);
      var m :| 0 <= m < |d.clients.rows| && DecodeClient(d.clients.rows[m]) == x;
      assert d.clients.rows[m] in d.clients.rows;
    }
  }

  // ---------------------------------------------------------------------------------------
  // Issuers, services and expenses
  // ---------------------------------------------------------------------------------------

  function IssuerDecoder(r: Row<IssuerRow>): Option<Issuer> { Some(DecodeIssuer(r)) }

  /** `fetchAllIssuers`: every issuer row in table order (the query has no `ORDER BY`). */
  function IssuerListing(f: DbFile): (r: seq<Issuer>)
  {
    DecodeRows(if IssuersTable in f.schema then f.issuers.rows else [], IssuerDecoder)
  }

  /** The issuer list is the stored rows read one by one, in insertion order. */
  lemma IssuersInTableOrder(f: DbFile)
    requires IssuersTable in f.schema
    ensures |IssuerListing(f)| == |f.issuers.rows|
    ensures forall k :: 0 <= k < |f.issuers.rows| ==> IssuerListing(f)[k] == DecodeIssuer(f.issuers.rows[k])
  {
    DecodeRowsTotal(f.issuers.rows, IssuerDecoder);
  }

  function InsertIssuer(f: DbFile, name: string, address: string, nif: string, phone: string): (r: DbFile)
    requires Valid(f)
    ensures Valid(r)
  {
    if IssuersTable in f.schema then f.(issuers := Insert(f.issuers, EncodeIssuer(name, address, nif, phone))) else f
  }

  /** A new issuer is listed last, with a fresh id; the invoice pickers offer it from then on. */
  lemma InsertedIssuerLast(f: DbFile, name: string, address: string, nif: string, phone: string)
    requires Valid(f) && IssuersTable in f.schema
    ensures var r := InsertIssuer(f, name, address, nif, phone);
      && IssuerListing(r) == IssuerListing(f) + [Issuer(Some(r.issuers.lastId), name, address, nif, phone)]
      && r.issuers.lastId !in Ids(f.issuers)
  {
    var r := InsertIssuer(f, name, address, nif, phone);
    assert r.issuers.rows[..|r.issuers.rows| - 1] == f.issuers.rows;
  }

  function UpdateIssuer(f: DbFile, issuer: Issuer): (r: DbFile)
    requires Valid(f)
    ensures Valid(r)
  {
    if issuer.id.Some? && IssuersTable in f.schema
    then f.(issuers := UpdateWhere(f.issuers, issuer.id.value, EncodeIssuer(issuer.name, issuer.address, issuer.nif, issuer.phone)))
    else f
  }

  function DeleteIssuer(f: DbFile, issuer: Issuer): (r: DbFile)
    requires Valid(f)
    ensures Valid(r)
  {
    if issuer.id.Some? && IssuersTable in f.schema then f.(issuers := DeleteWhere(f.issuers, issuer.id.value)) else f
  }

  /**
   * Updating an issuer keeps the set of ids and, when the id is stored, lists the issuer with its
   * new values; deleting removes exactly its id, so no listed issuer has it any more.
   */
  lemma IssuerUpdateDelete(f: DbFile, issuer: Issuer)
    requires Valid(f) && IssuersTable in f.schema && issuer.id.Some?
    ensures Ids(UpdateIssuer(f, issuer).issuers) == Ids(f.issuers)
    ensures Ids(DeleteIssuer(f, issuer).issuers) == Ids(f.issuers) - {issuer.id.value}
    ensures issuer.id.value in Ids(f.issuers) ==>
      Row(issuer.id.value, EncodeIssuer(issuer.name, issuer.address, issuer.nif, issuer.phone)) in UpdateIssuer(f, issuer).issuers.rows
    ensures issuer.id.value in Ids(f.issuers) ==> issuer in IssuerListing(UpdateIssuer(f, issuer))
    ensures forall x :: x in IssuerListing(DeleteIssuer(f, issuer)) ==> x.id != issuer.id
  {
    var id := issuer.id.value;
    if id in Ids(f.issuers) {
      var u := UpdateIssuer(f, issuer);
      IssuerRoundTrip(issuer.name, issuer.address, issuer.nif, issuer.phone, id);
      assert Row(id, EncodeIssuer(issuer.name, issuer.address, issuer.nif, issuer.phone)) in u.issuers.rows;
      var k :| 0 <= k < |u.issuers.rows| && u.issuers.rows[k] == Row(id, EncodeIssuer(issuer.name, issuer.address, issuer.nif, issuer.phone));
      DecodeRowsMember(u.issuers.rows, IssuerDecoder, issuer);
    }
    var d := DeleteIssuer(f, issuer);
    forall x | x in IssuerListing(d) ensures x.id != issuer.id {
      DecodeRowsMember(d.issuers.rows, IssuerDecoder, x);
      var m :| 0 <= m < |d.issuers.rows| && IssuerDecoder(d.issuers.rows[m]) == Some(x);
      assert d.issuers.rows[m] in d.issuers.rows;
    }
  }

  function ServiceDecoder(r: Row<ServiceRow>): Option<Service> { Some(DecodeService(r)) }

  /** `fetchAllServices`: every service row in table order. */
  function ServiceListing(f: DbFile): seq<Service>
  {
    DecodeRows(if ServicesTable in f.schema then f.services.rows else [], ServiceDecoder)
  }

  function InsertService(f: DbFile, s: Service): (r: DbFile)
    requires Valid(f)
    ensures Valid(r)
  {
    if ServicesTable in f.schema then f.(services := Insert(f.services, EncodeService(s))) else f
  }

  /** A new service is listed last with its given name, description and price. */
  lemma InsertedServiceLast(f: DbFile, s: Service)
    requires Valid(f) && ServicesTable in f.schema
    ensures var r := InsertService(f, s);
      ServiceListing(r) == ServiceListing(f) + [s.(id := Some(r.services.lastId))]
  {
    var r := InsertService(f, s);
    assert r.services.rows[..|r.services.rows| - 1] == f.services.rows;
  }

  function UpdateService(f: DbFile, s: Service): (r: DbFile)
    requires Valid(f)
    ensures Valid(r)
  {
    if s.id.Some? && ServicesTable in f.schema then f.(services := UpdateWhere(f.services, s.id.value, EncodeService(s))) else f
  }

  function DeleteService(f: DbFile, s: Service): (r: DbFile)
    requires Valid(f)
    ensures Valid(r)
  {
    if s.id.Some? && ServicesTable in f.schema then f.(services := DeleteWhere(f.services, s.id.value)) else f
  }

  /** Updating a stored service replaces its values in place; deleting it drops it from the list. */
  lemma ServiceUpdateDelete(f: DbFile, s: Service)
    requires Valid(f) && ServicesTable in f.schema && s.id.Some? && s.id.value in Ids(f.services)
    ensures s in ServiceListing(UpdateService(f, s))
    ensures forall x :: x in ServiceListing(DeleteService(f, s)) ==> x.id != s.id
  {
    var u := UpdateService(f, s);
    var id := s.id.value;
    ServiceRoundTrip(s, id);
    assert Row(id, EncodeService(s)) in u.services.rows;
    var k :| 0 <= k < |u.services.rows| && u.services.rows[k] == Row(id, EncodeService(s));
    DecodeRowsMember(u.services.rows, ServiceDecoder, s);
    var d := DeleteService(f, s);
    forall x | x in ServiceListing(d) ensures x.id != s.id {
      DecodeRowsMember(d.services.rows, ServiceDecoder, x);
      var m :| 0 <= m < |d.services.rows| && ServiceDecoder(d.services.rows[m]) == Some(x);
      assert d.services.rows[m] in d.services.rows;
    }
  }

  /** `ORDER BY expenseDate DESC` on the stored date text. */
  function ExpenseKey(r: Row<ExpenseRow>): SortKey
  {
    match r.value.expenseDate
    case None => NullKey
    case Some(s) => TextKey(s)
  }

  function ExpenseDecoder(r: Row<ExpenseRow>): Option<Expense> { Some(DecodeExpense(r)) }

  function ExpenseRowsByDate(f: DbFile): seq<Row<ExpenseRow>>
  {
    if ExpensesTable in f.schema then SortBy(f.expenses.rows, ExpenseKey, true) else []
  }

  /** `fetchAllExpenses`: every expense row, by descending date text. */
  function ExpenseListing(f: DbFile): seq<Expense>
  {
    DecodeRows(ExpenseRowsByDate(f), ExpenseDecoder)
  }

  /** Expenses come out one per row, in descending order of their date text. */
  lemma ExpensesByDateDescending(f: DbFile)
    ensures |ExpenseListing(f)| == |ExpenseRowsByDate(f)|
    ensures forall i, j :: 0 <= i < j < |ExpenseListing(f)| ==>
      StrLe(ExpenseListing(f)[j].expenseDate, ExpenseListing(f)[i].expenseDate)
  {
    var rows := ExpenseRowsByDate(f);
    var keyOf := (e: Expense) => TextKey(e.expenseDate);
    DecodeRowsTotal(rows, ExpenseDecoder);
    forall i, j | 0 <= i < j < |rows|
      ensures Precedes(keyOf(ExpenseDecoder(rows[i]).value), keyOf(ExpenseDecoder(rows[j]).value), true)
    {
      assert Precedes(ExpenseKey(rows[i]), ExpenseKey(rows[j]), true);
      EmptyStrLe(TextOr(rows[i].value.expenseDate));
    }
    DecodeRowsSorted(rows, ExpenseDecoder, keyOf, true);
    var l := ExpenseListing(f);
    forall i, j | 0 <= i < j < |l| ensures StrLe(l[j].expenseDate, l[i].expenseDate) {
      assert Precedes(keyOf(l[i]), keyOf(l[j]), true);
    }
  }

  function InsertExpense(f: DbFile, concept: string, expenseDate: string, amount: real): (r: DbFile)
    requires Valid(f)
    ensures Valid(r)
  {
    if ExpensesTable in f.schema then f.(expenses := Insert(f.expenses, EncodeExpense(concept, expenseDate, amount))) else f
  }

  /** A new expense is listed, with a fresh id. */
  lemma InsertedExpenseListed(f: DbFile, concept: string, expenseDate: string, amount: real)
    requires Valid(f) && ExpensesTable in f.schema
    ensures var r := InsertExpense(f, concept, expenseDate, amount);
      Expense(Some(r.expenses.lastId), concept, expenseDate, amount) in ExpenseListing(r)
      && r.expenses.lastId !in Ids(f.expenses)
  {
    var r := InsertExpense(f, concept, expenseDate, amount);
    var row := r.expenses.rows[|r.expenses.rows| - 1];
    var sorted := ExpenseRowsByDate(r);
    assert row in multiset(sorted);
    var m :| 0 <= m < |sorted| && sorted[m] == row;
    DecodeRowsMember(sorted, ExpenseDecoder, Expense(Some(r.expenses.lastId), concept, expenseDate, amount));
  }

  function UpdateExpense(f: DbFile, e: Expense): (r: DbFile)
    requires Valid(f)
    ensures Valid(r)
  {
    if e.id.Some? && ExpensesTable in f.schema
    then f.(expenses := UpdateWhere(f.expenses, e.id.value, EncodeExpense(e.concept, e.expenseDate, e.amount)))
    else f
  }

  function DeleteExpense(f: DbFile, e: Expense): (r: DbFile)
    requires Valid(f)
    ensures Valid(r)
  {
    if e.id.Some? && ExpensesTable in f.schema then f.(expenses := DeleteWhere(f.expenses, e.id.value)) else f
  }

  /**
   * Updating an expense keeps the ids and, when the id is stored, lists the expense with its new
   * values; deleting removes exactly its id, so no listed expense has it any more.
   */
  lemma ExpenseUpdateDelete(f: DbFile, e: Expense)
    requires Valid(f) && ExpensesTable in f.schema && e.id.Some?
    ensures Ids(UpdateExpense(f, e).expenses) == Ids(f.expenses)
    ensures Ids(DeleteExpense(f, e).expenses) == Ids(f.expenses) - {e.id.value}
    ensures e.id.value in Ids(f.expenses) ==>
      Row(e.id.value, EncodeExpense(e.concept, e.expenseDate, e.amount)) in UpdateExpense(f, e).expenses.rows
    ensures e.id.value in Ids(f.expenses) ==> e in ExpenseListing(UpdateExpense(f, e))
    ensures forall x :: x in ExpenseListing(DeleteExpense(f, e)) ==> x.id != e.id
  {
    var id := e.id.value;
    if id in Ids(f.expenses) {
      var u := UpdateExpense(f, e);
      var row := Row(id, EncodeExpense(e.concept, e.expenseDate, e.amount));
      ExpenseRoundTrip(e.concept, e.expenseDate, e.amount, id);
      assert row in u.expenses.rows;
      var sorted := ExpenseRowsByDate(u);
      assert row in multiset(sorted);
      var m :| 0 <= m < |sorted| && sorted[m] == row;
      DecodeRowsMember(sorted, ExpenseDecoder, e);
    }
    var d := DeleteExpense(f, e);
    var sorted := ExpenseRowsByDate(d);
    forall x | x in ExpenseListing(d) ensures x.id != e.id {
      DecodeRowsMember(sorted, ExpenseDecoder, x);
      var m :| 0 <= m < |sorted| && ExpenseDecoder(sorted[m]) == Some(x);
      assert sorted[m] in multiset(d.expenses.rows);
      assert sorted[m] in d.expenses.rows;
    }
  }

  // ---------------------------------------------------------------------------------------
  // Budgets
  // ---------------------------------------------------------------------------------------

  function BudgetKey(r: Row<BudgetRow>): SortKey { IntKey(r.value.budgetNumber) }

  function BudgetItemDecoder(r: Row<ItemRow>): Option<BudgetItem> { Some(DecodeBudgetItem(r)) }

  function BudgetItemRows(f: DbFile): seq<Row<ItemRow>>
  {
    if BudgetItemsTable in f.schema then f.budgetItems.rows else []
  }

  /** `fetchBudgetItems(budgetId:)`: every item row of one budget, NULL texts read as `""`. */
  function BudgetItemsOf(itemRows: seq<Row<ItemRow>>, budgetId: int): seq<BudgetItem>
  {
    DecodeRows(Children(itemRows, ParentOf, budgetId), BudgetItemDecoder)
  }

  function BudgetDecoder(itemRows: seq<Row<ItemRow>>): Row<BudgetRow> -> Option<Budget>
  {
    (r: Row<BudgetRow>) => DecodeBudget(r, BudgetItemsOf(itemRows, r.id))
  }

  function BudgetRowsByNumber(f: DbFile): seq<Row<BudgetRow>>
  {
    if BudgetsTable in f.schema then SortBy(f.budgets.rows, BudgetKey, true) else []
  }

  /** `fetchAllBudgets`: the budget rows with a date, highest number first, each with its items. */
  function BudgetListing(f: DbFile): seq<Budget>
  {
    DecodeRows(BudgetRowsByNumber(f), BudgetDecoder(BudgetItemRows(f)))
  }

  /** Budgets are listed by descending number. */
  lemma BudgetsNewestFirst(f: DbFile)
    ensures forall i, j :: 0 <= i < j < |BudgetListing(f)| ==>
      BudgetListing(f)[i].budgetNumber >= BudgetListing(f)[j].budgetNumber
  {
    var rows := BudgetRowsByNumber(f);
    var dec := BudgetDecoder(BudgetItemRows(f));
    var keyOf := (b: Budget) => IntKey(b.budgetNumber);
    DecodeRowsSorted(rows, dec, keyOf, true);
    var l := BudgetListing(f);
    forall i, j | 0 <= i < j < |l| ensures l[i].budgetNumber >= l[j].budgetNumber {
      assert Precedes(keyOf(l[i]), keyOf(l[j]), true);
    }
  }

  /** A budget's items are all its item rows: none is skipped. */
  lemma BudgetItemsComplete(f: DbFile, budgetId: int)
    ensures |BudgetItemsOf(BudgetItemRows(f), budgetId)| == |Children(BudgetItemRows(f), ParentOf, budgetId)|
  {
    DecodeRowsTotal(Children(BudgetItemRows(f), ParentOf, budgetId), BudgetItemDecoder);
  }

  /** `insertBudget`: the row, then its items under the new id. */
  function InsertBudget(f: DbFile, b: Budget): (r: DbFile)
    requires Valid(f)
    ensures Valid(r)
  {
    if BudgetsTable in f.schema then
      var budgets := Insert(f.budgets, EncodeBudget(b));
      var items := if BudgetItemsTable in f.schema
        then InsertAll(f.budgetItems, EncodeBudgetItems(b.items, budgets.lastId))
        else f.budgetItems;
      f.(budgets := budgets, budgetItems := items)
    else f
  }

  /** An inserted budget is listed under its new id with its items appended under that id. */
  lemma InsertedBudgetListed(f: DbFile, b: Budget)
    requires Valid(f) && BudgetsTable in f.schema && BudgetItemsTable in f.schema
    ensures var r := InsertBudget(f, b);
      && Values(Children(r.budgetItems.rows, ParentOf, r.budgets.lastId))
         == Values(Children(f.budgetItems.rows, ParentOf, r.budgets.lastId)) + EncodeBudgetItems(b.items, r.budgets.lastId)
      && b.(id := Some(r.budgets.lastId), items := BudgetItemsOf(BudgetItemRows(r), r.budgets.lastId)) in BudgetListing(r)
  {
    var r := InsertBudget(f, b);
    var id := r.budgets.lastId;
    var encoded := EncodeBudgetItems(b.items, id);
    ChildrenAfterInsertAll(f.budgetItems, encoded, ParentOf, id);
    WithParentAll(encoded, ParentOf, id);
    var x := b.(id := Some(id), items := BudgetItemsOf(BudgetItemRows(r), id));
    BudgetRoundTrip(b, id, BudgetItemsOf(BudgetItemRows(r), id));
    var row := r.budgets.rows[|r.budgets.rows| - 1];
    assert row == Row(id, EncodeBudget(b));
    var sorted := BudgetRowsByNumber(r);
    assert row in multiset(sorted);
    var m :| 0 <= m < |sorted| && sorted[m] == row;
    DecodeRowsMember(sorted, BudgetDecoder(BudgetItemRows(r)), x);
  }

  /** `updateBudget`: the row, then the items under its id are replaced. */
  function UpdateBudget(f: DbFile, b: Budget): (r: DbFile)
    requires Valid(f)
    ensures Valid(r)
  {
    if b.id.None? then f
    else
      var rowId := b.id.value;
      var budgets := if BudgetsTable in f.schema then UpdateWhere(f.budgets, rowId, EncodeBudget(b)) else f.budgets;
      var items := if BudgetItemsTable in f.schema
        then InsertAll(DeleteChildren(f.budgetItems, ParentOf, rowId), EncodeBudgetItems(b.items, rowId))
        else f.budgetItems;
      f.(budgets := budgets, budgetItems := items)
  }

  /** After an update the budget owns exactly its new items, and every other budget keeps its own. */
  lemma UpdateBudgetReplacesItems(f: DbFile, b: Budget, q: int)
    requires Valid(f) && b.id.Some? && BudgetItemsTable in f.schema
    ensures var r := UpdateBudget(f, b);
      Values(Children(r.budgetItems.rows, ParentOf, q))
      == if q == b.id.value then EncodeBudgetItems(b.items, q)
         else Values(Children(f.budgetItems.rows, ParentOf, q))
  {
    var rowId := b.id.value;
    var encoded := EncodeBudgetItems(b.items, rowId);
    var cleared := DeleteChildren(f.budgetItems, ParentOf, rowId);
    ChildrenAfterDelete(f.budgetItems, ParentOf, rowId, q);
    ChildrenAfterInsertAll(cleared, encoded, ParentOf, q);
    if q == rowId {
      WithParentAll(encoded, ParentOf, q);
      assert Values(Children(cleared.rows, ParentOf, q)) == [];
    } else {
      WithParentNone(encoded, ParentOf, q);
    }
  }

  /** `deleteBudget`: the budget row and then its item rows. */
  function DeleteBudget(f: DbFile, b: Budget): (r: DbFile)
    requires Valid(f)
    ensures Valid(r)
  {
    if b.id.None? then f
    else
      var rowId := b.id.value;
      var budgets := if BudgetsTable in f.schema then DeleteWhere(f.budgets, rowId) else f.budgets;
      var items := if BudgetItemsTable in f.schema then DeleteChildren(f.budgetItems, ParentOf, rowId) else f.budgetItems;
      f.(budgets := budgets, budgetItems := items)
  }

  /**
   * Deleting a budget removes its row and all its items, and nothing else: the other budget rows
   * keep their values, the other budgets keep their items, and no other table changes.
   */
  lemma DeleteBudgetCascades(f: DbFile, b: Budget, q: int)
    requires Valid(f) && b.id.Some?
    ensures var r := DeleteBudget(f, b);
      && Ids(r.budgets) == Ids(f.budgets) - {b.id.value}
      && (forall k, w :: Row(k, w) in r.budgets.rows <==> k != b.id.value && Row(k, w) in f.budgets.rows)
      && Children(r.budgetItems.rows, ParentOf, q)
         == (if q == b.id.value then [] else Children(f.budgetItems.rows, ParentOf, q))
      && r.(budgets := f.budgets, budgetItems := f.budgetItems) == f
  {
    if BudgetItemsTable in f.schema {
      ChildrenAfterDelete(f.budgetItems, ParentOf, b.id.value, q);
    }
  }

  /** Budget changes never touch invoices or clients. */
  lemma InsertBudgetKeepsInvoices(f: DbFile, b: Budget)
    requires Valid(f)
    ensures InvoiceListing(InsertBudget(f, b)) == InvoiceListing(f)
  {
    var g := InsertBudget(f, b);
    assert g.schema == f.schema && g.invoices == f.invoices && g.invoiceItems == f.invoiceItems;
  }

  lemma UpdateBudgetKeepsInvoices(f: DbFile, b: Budget)
    requires Valid(f)
    ensures InvoiceListing(UpdateBudget(f, b)) == InvoiceListing(f)
  {
    var g := UpdateBudget(f, b);
    assert g.schema == f.schema && g.invoices == f.invoices && g.invoiceItems == f.invoiceItems;
  }

  lemma DeleteBudgetKeepsClients(f: DbFile, b: Budget)
    requires Valid(f)
    ensures ClientListing(DeleteBudget(f, b)) == ClientListing(f)
  {
    var g := DeleteBudget(f, b);
    assert g.schema == f.schema && g.clients == f.clients;
  }
}
