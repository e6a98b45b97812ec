# MyInvoiceApp core, modelled in Dafny

MyInvoiceApp is a macOS invoicing application for a small Spanish business. It keeps invoices,
budgets (quotes), clients, issuers, services and expenses in a local SQLite file, edits invoices
and budgets line by line with IVA (VAT) and IRPF (withholding) totals, splits printed documents
into pages, and draws period reports with monthly charts.

This project models the parts of it whose behaviour can be stated precisely:

- **`DatabaseManager`** (`manager.dfy`, with the store as a value in `database.dfy`). The class
  keeps one field per table plus the version marker, the settings map, the published `invoices`
  and `clients` arrays and a counter standing in for `UUID()`. Every method is proved against a
  function on the whole store, `File() == Database.Op(old(File()), ...)`, and the properties of
  those functions are lemmas: the migration ladder (`schema.dfy`), AUTOINCREMENT tables with child
  item tables (`tables.dfy`), `ORDER BY` as a sort on SQLite's key order that keeps rows with equal keys in id order (`sorting.dfy`), and the
  row encodings with their round trips (`rows.dfy`).
- **The two editors** (`create_invoice.dfy`, `create_budget.dfy`): classes holding the form's
  `@State`, with `recalcTotals` (`totals.dfy`), item removal and addition, `setupView`, the column
  label fallbacks (`labels.dfy`) and saving through the manager.
- **Pagination** (`pagination.dfy`, `paged_budget_detail.dfy`): both copies of `buildPages`.
- **Period reports** (`informes.dfy`, `expenses_view.dfy`, `expenses_report_view.dfy`): the date
  filter, the sums, the `yyyy-MM` buckets and the zero-filled month series (`reports.dfy`,
  `calendar.dfy`).

Dates are abstract: a `Date` is a year, a month and an offset into the month, compared
chronologically. Parsing `"dd/MM/yyyy"` is a parameter `parse: string -> Option<Date>` of every
report, since the formatter is outside the model. Today's date, the initial picker dates and
new local UUIDs are parameters too. Money is `real`.

The migration follows the code. Every step sets the version marker even when its SQL fails,
because `sqlite3_exec` results are ignored, so a failed step is never retried
(`Schema.MarkerAdvancesPastFailedStep`).

The budget editor's `removeItem` is also modelled as written. It removes the first line whose
`id` equals the target's `id`, so clicking an unsaved line removes the first unsaved line
(`CreateBudget.UnsavedLineRemovesFirst`).

Opening a stored invoice for editing also follows the code. `setupView` assigns the invoice's
issuer id to `selectedIssuerId`, and the issuer picker's `onChange` observer then replaces the
copied issuer name, address and NIF with the issuer's current row, whenever that id is still
stored and differs from the previous selection (`CreateInvoice.CreateInvoiceView.OnAppear`).
The view starts with no selection, so the form shows the issuer's current data rather than the
snapshot saved with the invoice. The selection observers run only when the value changes, and
`SelectIssuer` and `SelectClient` model that.

## Model

| member | source | states |
|---|---|---|
| Schema.AddColumn | MyInvoiceApp/Database/DatabaseManager.swift:113-116 | `ALTER TABLE ... ADD COLUMN` adds the column exactly when its table exists and otherwise leaves the schema alone |
| Schema.InsertOrIgnore | MyInvoiceApp/Database/DatabaseManager.swift:209-215 | INSERT OR IGNORE adds the key with the given value only when it is absent; every existing key keeps its value |
| Schema.SeedAllKeys | MyInvoiceApp/Database/DatabaseManager.swift:209-215 | seeding a list of defaults adds exactly their keys and keeps every existing value |
| Schema.SeedAllNew | MyInvoiceApp/Database/DatabaseManager.swift:209-215 | with distinct keys, a default whose key was absent ends up stored with its default value |
| Schema.SeedAllTwice | MyInvoiceApp/Database/DatabaseManager.swift:253-259 | seeding the defaults a second time changes nothing |
| Schema.SeedAllKeeps | MyInvoiceApp/Database/DatabaseManager.swift:253-259 | seeding defaults whose keys are all present leaves the settings unchanged |
| Schema.MigrateVersion | MyInvoiceApp/Database/DatabaseManager.swift:60-265 | the final marker is 5 when the run started below 5 and is unchanged otherwise |
| Schema.MigrateCurrent | MyInvoiceApp/Database/DatabaseManager.swift:60-265 | a store already at version 5 or above is left untouched |
| Schema.MigrateIdempotent | MyInvoiceApp/Database/DatabaseManager.swift:60-265 | a second run of the ladder changes nothing |
| Schema.MigrateSettings | MyInvoiceApp/Database/DatabaseManager.swift:189-261 | migrating from below 5 seeds every default label key, keeps every stored value, and gives each previously missing key its default |
| Schema.MigrateFromScratch | MyInvoiceApp/Database/DatabaseManager.swift:66-261 | from version 0 every table and column of the ladder exists afterwards and the marker is 5 |
| Schema.MigrateHasSettingsTable | MyInvoiceApp/Database/DatabaseManager.swift:189-261 | any run from below 5 leaves the settings table in place |
| Schema.MarkerAdvancesPastFailedStep | MyInvoiceApp/Database/DatabaseManager.swift:222-227 | a step whose SQL fails (no invoices table at step 4) still sets the marker, so the missing column is never retried |
| Schema.MigrateCoherent | MyInvoiceApp/Database/DatabaseManager.swift:60-265 | the ladder keeps the schema coherent with the marker (each version has the tables its steps create) |
| Database.MigrateFile | MyInvoiceApp/Database/DatabaseManager.swift:60-265 | the migration changes only version, schema and settings, exactly as the ladder does, and keeps the store well formed |
| Manager.DatabaseManager.CheckAndPerformMigrations | MyInvoiceApp/Database/DatabaseManager.swift:60-265 | the marker is read once and the five steps run in order; the new store is the migrated store and stays well formed |
| Manager.DatabaseManager.SeedDefaultLabels | MyInvoiceApp/Database/DatabaseManager.swift:205-216 | the settings become the old settings with every default label inserted or ignored |
| Manager.DatabaseManager.constructor | MyInvoiceApp/Database/DatabaseManager.swift:21-29 | opening migrates the store and then publishes the invoice and client listings |
| Manager.DatabaseManager.LoadMainData | MyInvoiceApp/Database/DatabaseManager.swift:27-28 | the published invoices and clients equal the listings of the current store |
| Database.SetSetting | MyInvoiceApp/Database/DatabaseManager.swift:1112-1130 | the upsert keeps the store well formed |
| Database.SetThenGet | MyInvoiceApp/Database/DatabaseManager.swift:1092-1130 | after setting a key, reading it returns the value just set and every other key reads as before |
| Database.SettingsWithoutTable | MyInvoiceApp/Database/DatabaseManager.swift:1092-1130 | without a settings table every key reads as "" and setting a value does nothing |
| Database.MigratedHeadings | MyInvoiceApp/Database/DatabaseManager.swift:189-261 | after migrating from below 5, every default label key that was not stored reads as its default |
| Manager.DatabaseManager.GetSettingValue | MyInvoiceApp/Database/DatabaseManager.swift:1092-1110 | returns the stored value of the key, and "" unless the table holds the key with that value |
| Manager.DatabaseManager.SetSettingValue | MyInvoiceApp/Database/DatabaseManager.swift:1112-1130 | the new store is the upsert of the old one and stays well formed |
| Tables.Empty | MyInvoiceApp/Database/DatabaseManager.swift:66-261 | a new table is well formed and has no ids |
| Tables.Insert | MyInvoiceApp/Database/DatabaseManager.swift:292-346 | AUTOINCREMENT: the new row gets the next id, which no row had, and is appended after the old rows |
| Tables.InsertAll | MyInvoiceApp/Database/DatabaseManager.swift:335-337 | inserting a list of rows advances the counter by its length and keeps the table well formed |
| Tables.UpdateWhere | MyInvoiceApp/Database/DatabaseManager.swift:506-566 | `UPDATE ... WHERE id = ?` replaces exactly the row with that id, if any, and keeps all ids |
| Tables.DeleteWhere | MyInvoiceApp/Database/DatabaseManager.swift:568-579 | `DELETE ... WHERE id = ?` removes exactly the row with that id and keeps every other row |
| Tables.DeleteChildren | MyInvoiceApp/Database/DatabaseManager.swift:557-558 | `DELETE FROM <items> WHERE <parent> = ?` keeps the table well formed |
| Tables.ChildrenAfterDelete | MyInvoiceApp/Database/DatabaseManager.swift:557-558 | after deleting the children of p, p has no children and every other parent keeps its children |
| Tables.ChildrenAfterInsertAll | MyInvoiceApp/Database/DatabaseManager.swift:560-563 | inserting rows appends, to each parent's children, exactly the new rows naming that parent |
| Tables.DecodeRowsMember | MyInvoiceApp/Database/DatabaseManager.swift:379-459 | a fetch that skips malformed rows returns x exactly when some row decodes to x |
| Tables.DecodeRowsTotal | MyInvoiceApp/Database/DatabaseManager.swift:619-650 | when no row is malformed, the fetch decodes every row in order |
| Tables.DecodeRowsSorted | MyInvoiceApp/Database/DatabaseManager.swift:383-459 | decoding in the order of the sorted rows keeps that order among the decoded records |
| Sorting.SortBy | MyInvoiceApp/Database/DatabaseManager.swift:383 | ORDER BY yields a permutation of the rows, sorted by the key in the requested direction |
| Sorting.InsertSortedSorted | MyInvoiceApp/Database/DatabaseManager.swift:383 | inserting into a sorted list keeps it sorted |
| Sorting.KeyLeTotal | MyInvoiceApp/Database/DatabaseManager.swift:623 | the SQLite order on NULL, INTEGER and TEXT keys is total |
| Sorting.KeyLeTrans | MyInvoiceApp/Database/DatabaseManager.swift:623 | the SQLite order on keys is transitive |
| Sorting.StrLeTotal | MyInvoiceApp/Database/DatabaseManager.swift:623 | binary text collation is total |
| Sorting.StrLeTrans | MyInvoiceApp/Database/DatabaseManager.swift:623 | binary text collation is transitive |
| Rows.InvoiceRoundTrip | MyInvoiceApp/Database/DatabaseManager.swift:292-459 | reading back a stored invoice row gives the invoice with its new id and items; a nil issuer id is stored as 0 and read back as nil |
| Rows.InvoiceItemRoundTrip | MyInvoiceApp/Database/DatabaseManager.swift:348-504 | reading back a stored item gives the item with its new id and a fresh local UUID |
| Rows.BudgetRoundTrip | MyInvoiceApp/Database/DatabaseManager.swift:890-989 | reading back a stored budget row gives the budget with its new id and items |
| Rows.BudgetItemRoundTrip | MyInvoiceApp/Database/DatabaseManager.swift:925-1021 | reading back a stored budget item gives the item with its new id |
| Rows.ClientRoundTrip | MyInvoiceApp/Database/DatabaseManager.swift:597-650 | reading back a stored client gives the client with its new id |
| Rows.IssuerRoundTrip | MyInvoiceApp/Database/DatabaseManager.swift:688-726 | reading back a stored issuer gives the issuer with its new id |
| Rows.ServiceRoundTrip | MyInvoiceApp/Database/DatabaseManager.swift:757-795 | reading back a stored service gives the service with its new id |
| Rows.ExpenseRoundTrip | MyInvoiceApp/Database/DatabaseManager.swift:825-860 | reading back a stored expense gives the expense with its new id |
| Rows.EncodeInvoiceItems | MyInvoiceApp/Database/DatabaseManager.swift:335-337 | one item row per item, in order, each under the given invoice id |
| Rows.EncodeBudgetItems | MyInvoiceApp/Database/DatabaseManager.swift:917-919 | one item row per budget item, in order, each under the given budget id |
| Database.InvoicesNewestFirst | MyInvoiceApp/Database/DatabaseManager.swift:383 | the invoice listing is sorted by invoice number, highest first |
| Database.InvoiceListed | MyInvoiceApp/Database/DatabaseManager.swift:379-459 | an invoice is listed exactly when some row is complete (no NULL in text columns 2-8) and reads as it with its items |
| Database.AddInvoiceItems | MyInvoiceApp/Database/DatabaseManager.swift:335-337 | storing the items of an invoice keeps the store well formed |
| Database.InsertInvoice | MyInvoiceApp/Database/DatabaseManager.swift:292-346 | inserting an invoice keeps the store well formed |
| Database.InsertedInvoiceListed | MyInvoiceApp/Database/DatabaseManager.swift:292-346 | the new invoice gets a fresh id, its items are stored in order under that id, and it is listed with them |
| Database.RewriteInvoice | MyInvoiceApp/Database/DatabaseManager.swift:506-554 | rewriting the invoice row keeps the store well formed |
| Database.ClearInvoiceItems | MyInvoiceApp/Database/DatabaseManager.swift:557-558 | deleting the items of an invoice keeps the store well formed |
| Database.UpdateInvoice | MyInvoiceApp/Database/DatabaseManager.swift:506-566 | updating an invoice keeps the store well formed |
| Database.UpdateInvoiceReplacesItems | MyInvoiceApp/Database/DatabaseManager.swift:506-566 | the items under the id become exactly the new list, even with no row of that id, and other invoices keep their items |
| Database.UpdateInvoiceRow | MyInvoiceApp/Database/DatabaseManager.swift:506-554 | the row with the id, if it exists, is replaced by the encoded invoice and every other row is kept |
| Database.DeleteInvoice | MyInvoiceApp/Database/DatabaseManager.swift:568-579 | deleting an invoice keeps the store well formed |
| Database.DeleteInvoiceRow | MyInvoiceApp/Database/DatabaseManager.swift:572 | deleting the invoice row keeps the store well formed |
| Database.DeleteInvoiceCascades | MyInvoiceApp/Database/DatabaseManager.swift:568-579 | the row is gone and every item under its id is gone; the other invoice rows keep their values, the other invoices keep their items, and no other table changes |
| Database.MaxNumber | MyInvoiceApp/Database/DatabaseManager.swift:583 | `MAX(invoiceNumber)`: NULL exactly for no rows, otherwise a number some row has and no row exceeds |
| Database.NextInvoiceNumber | MyInvoiceApp/Database/DatabaseManager.swift:581-594 | one more than every stored number and equal to the maximum plus one; 1 when the table is empty or missing |
| Database.NextNumberAdvances | MyInvoiceApp/Database/DatabaseManager.swift:581-594 | after inserting an invoice with the next number, the next number is one higher |
| Manager.DatabaseManager.InsertInvoice | MyInvoiceApp/Database/DatabaseManager.swift:292-346 | the new store is the insert of the old one, and the published invoices are the new listing |
| Manager.DatabaseManager.WriteNewInvoice | MyInvoiceApp/Database/DatabaseManager.swift:292-343 | writes the invoice row and then its items, as the insert function says |
| Manager.DatabaseManager.InsertInvoiceItem | MyInvoiceApp/Database/DatabaseManager.swift:348-377 | appends one encoded item row when the items table exists, otherwise nothing |
| Manager.DatabaseManager.InsertInvoiceItems | MyInvoiceApp/Database/DatabaseManager.swift:335-337 | appends the encoded items in order when the items table exists |
| Manager.DatabaseManager.FetchAllInvoices | MyInvoiceApp/Database/DatabaseManager.swift:379-459 | the published invoices are the listing of the store (local UUIDs aside) |
| Manager.DatabaseManager.FetchItems | MyInvoiceApp/Database/DatabaseManager.swift:461-504 | the items of one invoice in table order, each with a fresh consecutive local UUID |
| Manager.DatabaseManager.UpdateInvoice | MyInvoiceApp/Database/DatabaseManager.swift:506-566 | no-op for a nil id; otherwise the store is the update of the old one and the published invoices are refreshed |
| Manager.DatabaseManager.RewriteInvoiceRow | MyInvoiceApp/Database/DatabaseManager.swift:510-554 | rewrites the invoice row as the store function says |
| Manager.DatabaseManager.ReplaceInvoiceItems | MyInvoiceApp/Database/DatabaseManager.swift:556-563 | the old items under the id are deleted and the new ones inserted |
| Manager.DatabaseManager.DeleteInvoice | MyInvoiceApp/Database/DatabaseManager.swift:568-579 | no-op for a nil id; otherwise row and items are deleted and the published invoices are refreshed |
| Manager.DatabaseManager.RemoveInvoiceRows | MyInvoiceApp/Database/DatabaseManager.swift:572-576 | deletes the invoice row and then its items |
| Manager.DatabaseManager.GetNextInvoiceNumber | MyInvoiceApp/Database/DatabaseManager.swift:581-594 | returns the next invoice number of the current store |
| Database.ClientsByName | MyInvoiceApp/Database/DatabaseManager.swift:623 | the client listing is sorted by name, ascending |
| Database.ClientListed | MyInvoiceApp/Database/DatabaseManager.swift:619-650 | a client is listed exactly when some row reads as it, with NULL text read as "" |
| Database.InsertClient | MyInvoiceApp/Database/DatabaseManager.swift:597-617 | inserting a client keeps the store well formed |
| Database.InsertedClientListed | MyInvoiceApp/Database/DatabaseManager.swift:597-617 | the inserted client is listed with its new id |
| Database.UpdateClient | MyInvoiceApp/Database/DatabaseManager.swift:652-674 | updating a client keeps the store well formed |
| Database.DeleteClient | MyInvoiceApp/Database/DatabaseManager.swift:676-683 | deleting a client keeps the store well formed |
| Database.UpdateDeleteClient | MyInvoiceApp/Database/DatabaseManager.swift:652-683 | an updated client is listed as given; after a delete no listed client has its id; deleting a client leaves the invoices alone |
| Manager.DatabaseManager.InsertClient | MyInvoiceApp/Database/DatabaseManager.swift:597-617 | the new store is the insert of the old one and the published clients are refreshed |
| Manager.DatabaseManager.FetchAllClients | MyInvoiceApp/Database/DatabaseManager.swift:619-650 | the published clients are the listing of the store |
| Manager.DatabaseManager.UpdateClient | MyInvoiceApp/Database/DatabaseManager.swift:652-674 | no-op for a nil id; otherwise the store is updated and the published clients are refreshed |
| Manager.DatabaseManager.DeleteClient | MyInvoiceApp/Database/DatabaseManager.swift:676-683 | no-op for a nil id; otherwise the row is deleted and the published clients are refreshed |
| Database.IssuersInTableOrder | MyInvoiceApp/Database/DatabaseManager.swift:702-726 | issuers are listed in table order, one per row |
| Database.InsertIssuer | MyInvoiceApp/Database/DatabaseManager.swift:688-700 | inserting an issuer keeps the store well formed |
| Database.InsertedIssuerLast | MyInvoiceApp/Database/DatabaseManager.swift:688-726 | the new issuer gets a fresh id and is listed last |
| Database.UpdateIssuer | MyInvoiceApp/Database/DatabaseManager.swift:728-746 | updating an issuer keeps the store well formed |
| Database.DeleteIssuer | MyInvoiceApp/Database/DatabaseManager.swift:748-752 | deleting an issuer keeps the store well formed |
| Database.IssuerUpdateDelete | MyInvoiceApp/Database/DatabaseManager.swift:728-752 | update keeps the ids and, for a stored id, the issuer is listed with its new values; delete removes exactly that id and no listed issuer has it |
| Manager.DatabaseManager.InsertIssuer | MyInvoiceApp/Database/DatabaseManager.swift:688-700 | the new store is the insert of the old one |
| Manager.DatabaseManager.FetchAllIssuers | MyInvoiceApp/Database/DatabaseManager.swift:702-726 | returns the issuer listing of the store |
| Manager.DatabaseManager.UpdateIssuer | MyInvoiceApp/Database/DatabaseManager.swift:728-746 | the new store is the update of the old one |
| Manager.DatabaseManager.DeleteIssuer | MyInvoiceApp/Database/DatabaseManager.swift:748-752 | the new store is the delete of the old one |
| Database.InsertService | MyInvoiceApp/Database/DatabaseManager.swift:757-771 | inserting a service keeps the store well formed |
| Database.InsertedServiceLast | MyInvoiceApp/Database/DatabaseManager.swift:757-795 | the new service gets a fresh id and is listed last |
| Database.UpdateService | MyInvoiceApp/Database/DatabaseManager.swift:797-814 | updating a service keeps the store well formed |
| Database.DeleteService | MyInvoiceApp/Database/DatabaseManager.swift:816-820 | deleting a service keeps the store well formed |
| Database.ServiceUpdateDelete | MyInvoiceApp/Database/DatabaseManager.swift:797-820 | an updated service is listed as given; after a delete no listed service has its id |
| Manager.DatabaseManager.InsertService | MyInvoiceApp/Database/DatabaseManager.swift:757-771 | the new store is the insert of the old one |
| Manager.DatabaseManager.FetchAllServices | MyInvoiceApp/Database/DatabaseManager.swift:773-795 | returns the service listing of the store |
| Manager.DatabaseManager.UpdateService | MyInvoiceApp/Database/DatabaseManager.swift:797-814 | the new store is the update of the old one |
| Manager.DatabaseManager.DeleteService | MyInvoiceApp/Database/DatabaseManager.swift:816-820 | the new store is the delete of the old one |
| Database.ExpensesByDateDescending | MyInvoiceApp/Database/DatabaseManager.swift:840 | expenses are listed by the raw date string, greatest first |
| Database.InsertExpense | MyInvoiceApp/Database/DatabaseManager.swift:825-836 | inserting an expense keeps the store well formed |
| Database.InsertedExpenseListed | MyInvoiceApp/Database/DatabaseManager.swift:825-860 | the new expense gets a fresh id and is listed |
| Database.UpdateExpense | MyInvoiceApp/Database/DatabaseManager.swift:862-879 | updating an expense keeps the store well formed |
| Database.DeleteExpense | MyInvoiceApp/Database/DatabaseManager.swift:881-885 | deleting an expense keeps the store well formed |
| Database.ExpenseUpdateDelete | MyInvoiceApp/Database/DatabaseManager.swift:862-885 | update keeps the ids and, for a stored id, the expense is listed with its new values; delete removes exactly that id and no listed expense has it |
| Manager.DatabaseManager.InsertExpense | MyInvoiceApp/Database/DatabaseManager.swift:825-836 | the new store is the insert of the old one |
| Manager.DatabaseManager.FetchAllExpenses | MyInvoiceApp/Database/DatabaseManager.swift:838-860 | returns the expense listing of the store |
| Manager.DatabaseManager.UpdateExpense | MyInvoiceApp/Database/DatabaseManager.swift:862-879 | the new store is the update of the old one |
| Manager.DatabaseManager.DeleteExpense | MyInvoiceApp/Database/DatabaseManager.swift:881-885 | the new store is the delete of the old one |
| Database.BudgetsNewestFirst | MyInvoiceApp/Database/DatabaseManager.swift:945-989 | budgets are listed by budget number, highest first |
| Database.BudgetItemsComplete | MyInvoiceApp/Database/DatabaseManager.swift:991-1021 | a budget has one item per stored item row under its id; none is skipped |
| Database.InsertBudget | MyInvoiceApp/Database/DatabaseManager.swift:890-923 | inserting a budget keeps the store well formed |
| Database.InsertedBudgetListed | MyInvoiceApp/Database/DatabaseManager.swift:890-989 | the new budget's items are stored in order under its fresh id, and it is listed with them |
| Database.UpdateBudget | MyInvoiceApp/Database/DatabaseManager.swift:1023-1070 | updating a budget keeps the store well formed |
| Database.UpdateBudgetReplacesItems | MyInvoiceApp/Database/DatabaseManager.swift:1023-1070 | the items under the id become exactly the new list and other budgets keep theirs |
| Database.DeleteBudget | MyInvoiceApp/Database/DatabaseManager.swift:1072-1089 | deleting a budget keeps the store well formed |
| Database.DeleteBudgetCascades | MyInvoiceApp/Database/DatabaseManager.swift:1072-1089 | the row is gone and every item under its id is gone; the other budget rows keep their values, the other budgets keep their items, and no other table changes |
| Database.InsertBudgetKeepsInvoices | MyInvoiceApp/Database/DatabaseManager.swift:890-923 | inserting a budget leaves the invoice listing as it was |
| Database.UpdateBudgetKeepsInvoices | MyInvoiceApp/Database/DatabaseManager.swift:1023-1070 | updating a budget leaves the invoice listing as it was |
| Database.DeleteBudgetKeepsClients | MyInvoiceApp/Database/DatabaseManager.swift:1072-1089 | deleting a budget leaves the client listing as it was |
| Manager.DatabaseManager.InsertBudgetItem | MyInvoiceApp/Database/DatabaseManager.swift:925-943 | appends one encoded item row when the budget items table exists, otherwise nothing |
| Manager.DatabaseManager.InsertBudgetItems | MyInvoiceApp/Database/DatabaseManager.swift:917-919 | appends the encoded items in order when the budget items table exists |
| Manager.DatabaseManager.InsertBudget | MyInvoiceApp/Database/DatabaseManager.swift:890-923 | the new store is the insert of the old one |
| Manager.DatabaseManager.FetchAllBudgets | MyInvoiceApp/Database/DatabaseManager.swift:945-989 | returns the budget listing of the store |
| Manager.DatabaseManager.FetchBudgetItems | MyInvoiceApp/Database/DatabaseManager.swift:991-1021 | returns the items stored under the budget, in table order |
| Manager.DatabaseManager.UpdateBudget | MyInvoiceApp/Database/DatabaseManager.swift:1023-1070 | the new store is the update of the old one |
| Manager.DatabaseManager.DeleteBudget | MyInvoiceApp/Database/DatabaseManager.swift:1072-1089 | the new store is the delete of the old one |
| Totals.Compute | MyInvoiceApp/Views/CreateInvoiceView.swift:405-416 | base kept; total = base + IVA - IRPF = base times (1 + (iva - irpf)/100); IVA and IRPF are non-negative for non-negative inputs |
| Totals.TotalNonNegative | MyInvoiceApp/Views/CreateInvoiceView.swift:405-416 | with a non-negative base, IVA rate and an IRPF rate up to 100, the total is non-negative |
| Totals.ComputeAdditive | MyInvoiceApp/Views/CreateInvoiceView.swift:405-416 | the tax figures are additive in the base |
| Totals.LinesTotals | MyInvoiceApp/Views/CreateInvoiceView.swift:405-416 | the base of a list of lines is the sum of their amounts |
| Totals.AppendZeroLine | MyInvoiceApp/Views/CreateInvoiceView.swift:228-239 | appending a zero-amount line leaves all four figures unchanged |
| Totals.RemoveLine | MyInvoiceApp/Views/CreateInvoiceView.swift:343-348 | removing one line lowers each figure by that line's own figures |
| Labels.OrDefault | MyInvoiceApp/Views/CreateInvoiceView.swift:387-402 | a stored label wins when non-empty; otherwise the default |
| Labels.Resolve | MyInvoiceApp/Views/CreateInvoiceView.swift:387-402 | each of the five labels is the stored value when non-empty and its default ("Concepto", "Modelo", "Bastidor", "Fecha", "Importe") otherwise; none is empty |
| Seqs.FirstIndex | MyInvoiceApp/Views/CreateInvoiceView.swift:344 | `firstIndex(where:)`: the first matching position, or none exactly when nothing matches |
| Seqs.FirstWhere | MyInvoiceApp/Views/CreateInvoiceView.swift:106 | `first(where:)`: the first matching element, or none exactly when nothing matches |
| Seqs.RemoveAt | MyInvoiceApp/Views/CreateInvoiceView.swift:345 | `remove(at:)`: the list without that element, the rest in order |
| Seqs.RemoveFirstAt | MyInvoiceApp/Views/CreateInvoiceView.swift:343-348 | removing the first match at i is removing position i |
| Seqs.RemoveFirstNone | MyInvoiceApp/Views/CreateInvoiceView.swift:343-348 | with no match nothing is removed |
| Seqs.Filter | MyInvoiceApp/Views/InformesView.swift:166-169 | `filter`: a sub-list of elements that satisfy the predicate |
| Seqs.FilterKeeps | MyInvoiceApp/Views/InformesView.swift:166-169 | an element is kept exactly when it is in the input and satisfies the predicate |
| Seqs.FilterAppend | MyInvoiceApp/Views/InformesView.swift:166-169 | filtering distributes over concatenation |
| Seqs.SumAppend | MyInvoiceApp/Views/InformesView.swift:173-176 | `reduce(0, +)` distributes over concatenation |
| Seqs.SumRemoveAt | MyInvoiceApp/Views/CreateInvoiceView.swift:343-348 | removing an element lowers the sum by its amount |
| CreateInvoice.WithoutFirstUuid | MyInvoiceApp/Views/CreateInvoiceView.swift:343-348 | removing by local UUID drops exactly the first match, lowers the base by its amount, and with distinct UUIDs leaves no item with that UUID |
| CreateInvoice.WithoutAbsentUuid | MyInvoiceApp/Views/CreateInvoiceView.swift:343-348 | when no item has the UUID the list is unchanged |
| CreateInvoice.RemoveAtDistinct | MyInvoiceApp/Views/CreateInvoiceView.swift:343-348 | removing one item keeps the UUIDs distinct and removes its UUID |
| CreateInvoice.BlankItemKeepsTotals | MyInvoiceApp/Views/CreateInvoiceView.swift:228-239 | adding a blank row leaves all four totals unchanged |
| CreateInvoice.ServiceItemAddsPrice | MyInvoiceApp/Views/CreateInvoiceView.swift:317-329 | adding a service raises the base by the service price |
| CreateInvoice.IssuerWithId | MyInvoiceApp/Views/CreateInvoiceView.swift:104-111 | the stored issuer with that id, found exactly when one exists |
| CreateInvoice.ClientWithId | MyInvoiceApp/Views/CreateInvoiceView.swift:134-141 | the published client with that id, found exactly when one exists |
| CreateInvoice.CreateInvoiceView.constructor | MyInvoiceApp/Views/CreateInvoiceView.swift:7-55 | the initial @State values: empty fields, IVA 21, IRPF 0, no items, zero totals, default labels |
| CreateInvoice.CreateInvoiceView.RecalcTotals | MyInvoiceApp/Views/CreateInvoiceView.swift:405-416 | the totals are those of the current items and rates: base is the sum of amounts, total = base + IVA - IRPF |
| CreateInvoice.CreateInvoiceView.RemoveItem | MyInvoiceApp/Views/CreateInvoiceView.swift:343-348 | removes the first item with the target UUID and recalculates; with no match nothing changes |
| CreateInvoice.CreateInvoiceView.AddRow | MyInvoiceApp/Views/CreateInvoiceView.swift:228-239 | appends one blank item (nil id, empty text, amount 0) and keeps totals that were in sync in sync |
| CreateInvoice.CreateInvoiceView.AddService | MyInvoiceApp/Views/CreateInvoiceView.swift:317-329 | appends one item with the service name and price; the sum of amounts rises by the price |
| CreateInvoice.CreateInvoiceView.SetupView | MyInvoiceApp/Views/CreateInvoiceView.swift:351-384 | editing copies the invoice into the form; a new invoice gets the next number, today's date, the default issuer, IVA 21 and IRPF 0 |
| CreateInvoice.CreateInvoiceView.SetupAndObserve | MyInvoiceApp/Views/CreateInvoiceView.swift:351-384 | editing copies the invoice, and when its issuer id differs from the previous selection and is still stored, the `selectedIssuerId` observer runs and the issuer name, address and NIF are then those of the issuer's current row instead of the stored snapshot; a new invoice as in `SetupView`, with the selection untouched |
| CreateInvoice.CreateInvoiceView.OnAppear | MyInvoiceApp/Views/CreateInvoiceView.swift:333-336 | the form after `SetupAndObserve`, with the column labels loaded from the settings |
| CreateInvoice.CreateInvoiceView.CopyInvoice | MyInvoiceApp/Views/CreateInvoiceView.swift:352-371 | the form's draft equals the edited invoice |
| CreateInvoice.CreateInvoiceView.CopyHeader | MyInvoiceApp/Views/CreateInvoiceView.swift:353-370 | number, date, issuer and client snapshots and notes are copied |
| CreateInvoice.CreateInvoiceView.CopyLines | MyInvoiceApp/Views/CreateInvoiceView.swift:362-366 | rates, items and stored totals are copied |
| CreateInvoice.CreateInvoiceView.StartNewInvoice | MyInvoiceApp/Views/CreateInvoiceView.swift:372-382 | the next invoice number, today's date, the default issuer, IVA 21 and IRPF 0 |
| CreateInvoice.CreateInvoiceView.LoadColumnLabels | MyInvoiceApp/Views/CreateInvoiceView.swift:387-402 | each label is the stored setting, or its default when empty |
| CreateInvoice.CreateInvoiceView.SelectIssuer | MyInvoiceApp/Views/CreateInvoiceView.swift:104-111 | selecting a different stored issuer copies its name, address and NIF; re-selecting the same id, an unknown id or nil leaves them |
| CreateInvoice.CreateInvoiceView.IssuerChanged | MyInvoiceApp/Views/CreateInvoiceView.swift:104-111 | the observer body: a stored issuer id copies that issuer's name, address and NIF; an unknown or nil id leaves them |
| CreateInvoice.CreateInvoiceView.SelectClient | MyInvoiceApp/Views/CreateInvoiceView.swift:134-141 | selecting a different listed client copies its name, address and NIF; re-selecting the same id, an unknown id or nil leaves them |
| CreateInvoice.CreateInvoiceView.SaveInvoice | MyInvoiceApp/Views/CreateInvoiceView.swift:419-447 | recalculates, then inserts the draft when creating and updates it (with the edited id) when editing; the manager's published invoices are then the new listing, or unchanged when the edited invoice has no id |
| CreateBudget.StoredIdRoundTrip | MyInvoiceApp/Views/CreateBudgetView.swift:223-224 | stored 0 reads as nil and nil is stored as 0; any other id round-trips unchanged |
| CreateBudget.WithoutFirstId | MyInvoiceApp/Views/CreateBudgetView.swift:258-263 | removing by id drops exactly the first line with that id and lowers the base by its amount |
| CreateBudget.WithoutAbsentId | MyInvoiceApp/Views/CreateBudgetView.swift:258-263 | when no line has the id the list is unchanged |
| CreateBudget.UnsavedLineRemovesFirst | MyInvoiceApp/Views/CreateBudgetView.swift:258-263 | for an unsaved target (nil id) the first unsaved line is removed, whichever was clicked |
| CreateBudget.BlankLineKeepsTotals | MyInvoiceApp/Views/CreateBudgetView.swift:153-163 | adding a blank line leaves all four totals unchanged |
| CreateBudget.CreateBudgetView.constructor | MyInvoiceApp/Views/CreateBudgetView.swift:7-34 | the initial @State values: empty fields, nil ids, IVA 21, IRPF 0, no items, zero totals, default labels |
| CreateBudget.CreateBudgetView.RecalcTotals | MyInvoiceApp/Views/CreateBudgetView.swift:265-276 | the totals are those of the current items and rates: base is the sum of amounts, total = base + IVA - IRPF |
| CreateBudget.CreateBudgetView.SetupView | MyInvoiceApp/Views/CreateBudgetView.swift:219-239 | editing copies the budget with stored ids 0 read as nil; a new budget gets today's date; either way the totals end recomputed from the items |
| CreateBudget.CreateBudgetView.CopyBudget | MyInvoiceApp/Views/CreateBudgetView.swift:220-232 | copies number, date, notes, items, rates and stored totals, with ids 0 read as nil |
| CreateBudget.CreateBudgetView.LoadColumnLabels | MyInvoiceApp/Views/CreateBudgetView.swift:241-256 | each label is the stored setting, or its default when empty |
| CreateBudget.CreateBudgetView.RemoveItem | MyInvoiceApp/Views/CreateBudgetView.swift:258-263 | removes the first line whose id equals the target's and recalculates; with no match nothing changes |
| CreateBudget.CreateBudgetView.AddLine | MyInvoiceApp/Views/CreateBudgetView.swift:153-163 | appends one blank line with amount 0 and keeps totals that were in sync in sync |
| CreateBudget.CreateBudgetView.SaveBudget | MyInvoiceApp/Views/CreateBudgetView.swift:278-301 | recalculates, then inserts the draft (nil ids stored as 0) when creating and updates it when editing |
| Pagination.Slices | MyInvoiceApp/Views/PagedInvoiceDetailView.swift:163-174 | the pages concatenate to the input, each holds 1 to maxRows items, all but the last are full, and there are ceil(n / maxRows) of them |
| Pagination.BuildInvoicePages | MyInvoiceApp/Views/PagedInvoiceDetailView.swift:163-174 | as above, and an empty list gives no pages |
| Pagination.BuildBudgetPages | MyInvoiceApp/Views/PagedBudgetDetailView.swift:182-195 | the pages concatenate to the input; an empty list gives one empty page; otherwise pages are as for invoices |
| Pagination.SixtyItems | MyInvoiceApp/Views/PagedInvoiceDetailView.swift:10 | with 25 rows per page, 60 items make three pages, the last holding 10 |
| Pagination.FlattenLength | MyInvoiceApp/Views/PagedInvoiceDetailView.swift:163-174 | the concatenated pages are as long as the page sizes added up |
| PagedBudgetDetail.PagedBudgetDetailView.constructor | MyInvoiceApp/Views/PagedBudgetDetailView.swift:12-16 | the labels start at their defaults |
| PagedBudgetDetail.PagedBudgetDetailView.LoadColumnLabels | MyInvoiceApp/Views/PagedBudgetDetailView.swift:86-101 | each label is the stored setting, or its default when empty |
| Calendar.LeTotalOrder | MyInvoiceApp/Views/InformesView.swift:168 | date comparison is a total order |
| Calendar.FromOrdinal | MyInvoiceApp/Views/InformesView.swift:207-217 | the month with a given ordinal has that ordinal |
| Calendar.OrdinalInjective | MyInvoiceApp/Views/InformesView.swift:207-217 | distinct months have distinct ordinals |
| Calendar.MonthOfMonotone | MyInvoiceApp/Views/InformesView.swift:184-189 | a later date never falls in an earlier month |
| Calendar.StartOfMonth | MyInvoiceApp/Views/ExpensesReportView.swift:150-154 | `startOfMonth`: same year and month, first instant, no later than any date of that month |
| Calendar.StartOfMonthIdempotent | MyInvoiceApp/Views/ExpensesView.swift:315-319 | `startOfMonthForExpenses` applied twice is applied once |
| Calendar.MonthStartOrder | MyInvoiceApp/Views/InformesView.swift:207-217 | between month starts date order is month order, and adding one month steps to the next month |
| Reports.InPeriodOnlySpec | MyInvoiceApp/Views/InformesView.swift:166-169 | a record is kept exactly when it was listed and its date parses into [start, end] |
| Reports.InPeriodOnlyAppend | MyInvoiceApp/Views/InformesView.swift:166-169 | the period filter keeps the original order (distributes over concatenation) |
| Reports.BucketsSpec | MyInvoiceApp/Views/InformesView.swift:184-189 | a month has a bucket exactly when some record parses into it, and the bucket is that month's sum |
| Reports.BucketByMonth | MyInvoiceApp/Views/InformesView.swift:182-189 | the dictionary loop: keys are the months present and each bucket is the month's sum of amounts |
| Reports.MonthsBetween | MyInvoiceApp/Views/InformesView.swift:207-217 | no months exactly when the end month precedes the start month; otherwise the count spans start to end month inclusive |
| Reports.MonthKeys | MyInvoiceApp/Views/InformesView.swift:192-217 | one key per month from the start month to the end month, consecutive and in order |
| Reports.EntriesFor | MyInvoiceApp/Views/InformesView.swift:218-224 | each key paired with its bucket total, or 0 when the month has none |
| Reports.MonthlySeries | MyInvoiceApp/Views/ExpensesView.swift:293-309 | one entry per month from start month to end month, in order, with its bucket total or 0 |
| Reports.PeriodSeries | MyInvoiceApp/Views/ExpensesReportView.swift:113-144 | buckets the filtered amounts and walks the months; each entry is its month's sum and the series adds up to the period total |
| Reports.SeriesAddsUpToPeriodTotal | MyInvoiceApp/Views/InformesView.swift:176-224 | every filtered date falls between the bounding months, so the chart entries add up to the period total |
| Reports.MonthSumsCoverAll | MyInvoiceApp/Views/InformesView.swift:184-224 | when every record falls in the covered months, the per-month sums add up to the total |
| Reports.SeriesTotalIsMonthSums | MyInvoiceApp/Views/InformesView.swift:218-224 | a series of month sums adds up to the sum over its months |
| Reports.MonthSumsSnoc | MyInvoiceApp/Views/InformesView.swift:184-189 | one more record adds its amount to the month it falls in |
| Reports.SeriesMonthsIncrease | MyInvoiceApp/Views/InformesView.swift:207-217 | the series months strictly increase |
| Informes.MonthlyChart | MyInvoiceApp/Views/InformesView.swift:178-224 | one entry per month of the period with its invoiced total, adding up to the period's total |
| Informes.InformesView.constructor | MyInvoiceApp/Views/InformesView.swift:17-28 | the report starts empty at the two given dates |
| Informes.InformesView.GenerarInforme | MyInvoiceApp/Views/InformesView.swift:160-227 | filtered invoices are those dated in the period, in order; the four totals are their sums; the chart has one entry per month with its total and adds up to the total invoiced |
| Informes.InformesView.SetTotals | MyInvoiceApp/Views/InformesView.swift:173-176 | the four totals are the sums of base, IVA, IRPF and total over the invoices |
| ExpensesScreen.ExpensesView.constructor | MyInvoiceApp/Views/ExpensesView.swift:26-41 | the report starts empty at the two given dates |
| ExpensesScreen.ExpensesView.LoadExpenses | MyInvoiceApp/Views/ExpensesView.swift:212-214 | the loaded expenses are the store's expense listing |
| ExpensesScreen.ExpensesView.GenerateReport | MyInvoiceApp/Views/ExpensesView.swift:264-310 | filtered expenses are those dated in the period, in order; the total is their sum; one series entry per month with its spending, adding up to the total |
| ExpensesReport.ExpensesReportView.constructor | MyInvoiceApp/Views/ExpensesReportView.swift:9-22 | the report starts empty at the two given dates |
| ExpensesReport.ExpensesReportView.GenerateReport | MyInvoiceApp/Views/ExpensesReportView.swift:95-145 | fetches the expenses; filtered are those dated in the period; the total is their sum; one series entry per month with its spending, adding up to the total |

## Left out

- SQLite itself (prepare, bind, step, finalize, SQL text, `PRAGMA user_version`): tables are Dafny sequences of rows with an id counter, and a statement against a missing table or column does nothing, which is what an ignored prepare failure amounts to.
- `openDatabase`, `backupDatabase` and `restoreDatabase`: file-system I/O. The constructor takes the opened file's contents as a value.
- `DateFormatter` and `Calendar`: parsing is a parameter. Month keys are months rather than `"yyyy-MM"` strings, which assumes the formatter maps distinct months to distinct keys. Adding a month is modelled only for first-of-month dates, the only dates the reports pass to it.
- Calendar.StartOfMonth and Reports.MonthKeys: the `guard ... else` and `break` branches for a calendar that cannot build a date are not modelled; with the Gregorian calendar they do not occur.
- `UUID()`: fresh local UUIDs come from a counter in the manager and from parameters in the editors, so fetched invoices are compared with their UUIDs erased (`Manager.EraseInvoices`).
- The clock: today's date and the initial picker dates are parameters.
- IEEE-754 `Double` rounding and `%.2f` formatting: amounts, rates and totals are `real`.
- `Int32(...)` conversions when binding ids and numbers: integers are unbounded, so the traps on values outside 32 bits are not modelled.
- SwiftUI `onChange` observers that call `recalcTotals` after the items or rates change: the model calls `RecalcTotals` only where the code calls it directly. (The issuer and client selection observers are modelled.) `AddRow`, `AddLine` and `AddService` therefore state what happens to the items and to the sum, not a recalculation.
- `@Published`/`ObservableObject` change notification, view bodies, sheets, pickers, alerts and Charts rendering, and the form screens that only forward to the modelled CRUD calls.
- The expenses screen's add, edit and delete buttons: they call the modelled manager methods, then `LoadExpenses` and `GenerateReport`.
- Printing and PDF export (page geometry in AppKit callbacks).
- Logging with `print`.
- Row order where SQLite leaves it unspecified: rows with equal `ORDER BY` keys (two invoices with the same number, say) are listed in id order, and a `SELECT` without `ORDER BY` (issuers, services, the items of one invoice or budget) returns rows in id order. Both are this model's fixed choice; SQLite promises neither, so `Manager.DatabaseManager.FetchAllInvoices` on equal numbers, `Database.IssuersInTableOrder`, `Database.InsertedIssuerLast` and `Database.InsertedServiceLast` state one order among those SQLite may return.
