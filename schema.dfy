/**
 * The schema-version ladder of the database manager. The stored marker (`PRAGMA
 * user_version`) is read ONCE; then each of the five steps runs when that initial value is
 * below the step's number, and ends by writing its number into the marker whatever happened
 * to its statements (every `sqlite3_exec` result is ignored).
 *
 * The schema is the set of tables and added columns that exist. `CREATE TABLE IF NOT EXISTS`
 * adds a table; `ALTER TABLE ... ADD COLUMN` adds a column only when its table exists (and is
 * a no-op when the column is already there). The settings map is the content of
 * `app_settings`, keyed by `settingKey`.
 */
module Schema {
  import opened Labels

  datatype SchemaObject =
    | InvoicesTable | InvoiceItemsTable | ClientsTable | ClientsNickColumn
    | IssuersTable | ServicesTable | ExpensesTable | BudgetsTable | BudgetItemsTable
    | SettingsTable | InvoicesIssuerIdColumn

  /** What the migrations read and write: the marker, the schema and the settings rows. */
  datatype Store = Store(version: int, schema: set<SchemaObject>, settings: map<string, string>)

  const Version1Tables: set<SchemaObject> := {InvoicesTable, InvoiceItemsTable, ClientsTable}
  const Version2Tables: set<SchemaObject> := {IssuersTable, ServicesTable, ExpensesTable, BudgetsTable, BudgetItemsTable}

  /** Everything a fresh database has once all five steps ran. */
  const AllObjects: set<SchemaObject> := Version1Tables + Version2Tables
    + {ClientsNickColumn, SettingsTable, InvoicesIssuerIdColumn}

  /** A store whose settings rows and added columns live in tables that exist. */
  ghost predicate Coherent(s: Store)
  {
    && (SettingsTable !in s.schema ==> s.settings == map[])
    && (ClientsNickColumn in s.schema ==> ClientsTable in s.schema)
    && (InvoicesIssuerIdColumn in s.schema ==> InvoicesTable in s.schema)
  }

  /** `ALTER TABLE <table> ADD COLUMN ...`: fails, changing nothing, when the table is missing. */
  function AddColumn(schema: set<SchemaObject>, table: SchemaObject, column: SchemaObject): (r: set<SchemaObject>)
    ensures table in schema ==> r == schema + {column}
    ensures table !in schema ==> r == schema
  {
    if table in schema then schema + {column} else schema
  }

  /** `INSERT OR IGNORE INTO app_settings`: an existing key keeps its value. */
  function InsertOrIgnore(settings: map<string, string>, key: string, value: string): (r: map<string, string>)
    ensures r.Keys == settings.Keys + {key}
    ensures key in settings ==> r[key] == settings[key]
    ensures key !in settings ==> r[key] == value
    ensures forall k :: k in settings && k != key ==> r[k] == settings[k]
  {
    if key in settings then settings else settings[key := value]
  }

  /** The seeding `for` loop over `pairs`, one `INSERT OR IGNORE` after the other. */
  function SeedAll(settings: map<string, string>, pairs: seq<(string, string)>): map<string, string>
  {
    if pairs == [] then settings
    else
      var last := pairs[|pairs| - 1];
      InsertOrIgnore(SeedAll(settings, pairs[..|pairs| - 1]), last.0, last.1)
  }

  /** The keys of some `(key, value)` pairs. */
  function KeysOf(pairs: seq<(string, string)>): set<string>
  {
    set i | 0 <= i < |pairs| :: pairs[i].0
  }

  ghost predicate DistinctKeys(pairs: seq<(string, string)>)
  {
    forall i, j :: 0 <= i < j < |pairs| ==> pairs[i].0 != pairs[j].0
  }

  lemma KeysOfSnoc(pairs: seq<(string, string)>)
    requires pairs != []
    ensures KeysOf(pairs) == KeysOf(pairs[..|pairs| - 1]) + {pairs[|pairs| - 1].0}
  {
    var init := pairs[..|pairs| - 1];
    forall k | k in KeysOf(pairs) ensures k in KeysOf(init) + {pairs[|pairs| - 1].0} {
      var i :| 0 <= i < |pairs| && pairs[i].0 == k;
      if i < |init| { assert init[i] == pairs[i]; }
    }
    forall k | k in KeysOf(init) ensures k in KeysOf(pairs) {
      var i :| 0 <= i < |init| && init[i].0 == k;
      assert pairs[i] == init[i];
    }
    assert pairs[|pairs| - 1].0 in KeysOf(pairs);
  }

  /** Seeding adds exactly the seeded keys and never changes a value already stored. */
  lemma {:induction false} SeedAllKeys(settings: map<string, string>, pairs: seq<(string, string)>)
    ensures SeedAll(settings, pairs).Keys == settings.Keys + KeysOf(pairs)
    ensures forall k :: k in settings ==> SeedAll(settings, pairs)[k] == settings[k]
  {
    if pairs != [] {
      SeedAllKeys(settings, pairs[..|pairs| - 1]);
      KeysOfSnoc(pairs);
    }
  }

  /** With distinct keys, a key that was not stored gets the value seeded with it. */
  lemma {:induction false} SeedAllNew(settings: map<string, string>, pairs: seq<(string, string)>, i: int)
    requires DistinctKeys(pairs) && 0 <= i < |pairs| && pairs[i].0 !in settings
    ensures pairs[i].0 in SeedAll(settings, pairs) && SeedAll(settings, pairs)[pairs[i].0] == pairs[i].1
  {
    var init := pairs[..|pairs| - 1];
    if i < |init| {
      assert init[i] == pairs[i];
      DistinctKeysInit(pairs);
      SeedAllNew(settings, init, i);
    } else {
      SeedAllKeys(settings, init);
      LastKeyFresh(pairs);
    }
  }

  lemma DistinctKeysInit(pairs: seq<(string, string)>)
    requires DistinctKeys(pairs) && pairs != []
    ensures DistinctKeys(pairs[..|pairs| - 1])
  {
    var init := pairs[..|pairs| - 1];
    forall a, b | 0 <= a < b < |init| ensures init[a].0 != init[b].0 {
      assert init[a] == pairs[a] && init[b] == pairs[b];
    }
  }

  lemma LastKeyFresh(pairs: seq<(string, string)>)
    requires DistinctKeys(pairs) && pairs != []
    ensures pairs[|pairs| - 1].0 !in KeysOf(pairs[..|pairs| - 1])
  {
    var init := pairs[..|pairs| - 1];
    forall j | 0 <= j < |init| ensures init[j].0 != pairs[|pairs| - 1].0 {
      assert init[j] == pairs[j];
    }
  }

  /** Seeding twice is seeding once: the second pass finds every key already there. */
  lemma {:induction false} SeedAllTwice(settings: map<string, string>, pairs: seq<(string, string)>)
    ensures SeedAll(SeedAll(settings, pairs), pairs) == SeedAll(settings, pairs)
  {
    SeedAllKeys(settings, pairs);
    SeedAllKeeps(SeedAll(settings, pairs), pairs);
  }

  /** Seeding a map that already holds every seeded key changes nothing. */
  lemma {:induction false} SeedAllKeeps(settings: map<string, string>, pairs: seq<(string, string)>)
    requires KeysOf(pairs) <= settings.Keys
    ensures SeedAll(settings, pairs) == settings
  {
    if pairs != [] {
      var init := pairs[..|pairs| - 1];
      KeysOfSnoc(pairs);
      SeedAllKeeps(settings, init);
    }
  }

  /** The five default headings, seeded with INSERT OR IGNORE. */
  function SeedDefaults(settings: map<string, string>): map<string, string>
  {
    SeedAll(settings, DefaultLabels)
  }

  // The five steps, each ending with `setDBVersion(k)`.

  function Step1(s: Store): Store
  {
    var created := s.schema + Version1Tables;
    Store(1, AddColumn(created, ClientsTable, ClientsNickColumn), s.settings)
  }

  function Step2(s: Store): Store
  {
    Store(2, s.schema + Version2Tables, s.settings)
  }

  function Step3(s: Store): Store
  {
    Store(3, s.schema + {SettingsTable}, SeedDefaults(s.settings))
  }

  function Step4(s: Store): Store
  {
    Store(4, AddColumn(s.schema, InvoicesTable, InvoicesIssuerIdColumn), s.settings)
  }

  function Step5(s: Store): Store
  {
    Store(5, s.schema + {SettingsTable}, SeedDefaults(s.settings))
  }

  /** `checkAndPerformMigrations`: every step is guarded by the marker read at the start. */
  function Migrate(s: Store): Store
  {
    var v := s.version;
    var s1 := if v < 1 then Step1(s) else s;
    var s2 := if v < 2 then Step2(s1) else s1;
    var s3 := if v < 3 then Step3(s2) else s2;
    var s4 := if v < 4 then Step4(s3) else s3;
    if v < 5 then Step5(s4) else s4
  }

  /** The final marker is 5 when the run started below 5, and unchanged otherwise. */
  lemma MigrateVersion(s: Store)
    ensures Migrate(s).version == if s.version < 5 then 5 else s.version
  {
  }

  /** A store already at version 5 or later is left exactly as it is. */
  lemma MigrateCurrent(s: Store)
    requires s.version >= 5
    ensures Migrate(s) == s
  {
  }

  /** Running the ladder a second time changes nothing. */
  lemma MigrateIdempotent(s: Store)
    ensures Migrate(Migrate(s)) == Migrate(s)
  {
    MigrateVersion(s);
    MigrateCurrent(Migrate(s));
  }

  /** After a run from below 5 the settings hold every default heading and keep every stored value. */
  lemma MigrateSettings(s: Store)
    ensures Migrate(s).settings == if s.version < 5 then SeedDefaults(s.settings) else s.settings
    ensures s.version < 5 ==> Migrate(s).settings.Keys == s.settings.Keys + KeysOf(DefaultLabels)
    ensures forall k :: k in s.settings ==> k in Migrate(s).settings && Migrate(s).settings[k] == s.settings[k]
    ensures s.version < 5 ==> forall i :: 0 <= i < |DefaultLabels| && DefaultLabels[i].0 !in s.settings ==>
      Migrate(s).settings[DefaultLabels[i].0] == DefaultLabels[i].1
  {
    SeedAllKeys(s.settings, DefaultLabels);
    if s.version < 5 {
      forall i | 0 <= i < |DefaultLabels| && DefaultLabels[i].0 !in s.settings
        ensures SeedDefaults(s.settings)[DefaultLabels[i].0] == DefaultLabels[i].1
      {
        SeedAllNew(s.settings, DefaultLabels, i);
      }
    }
    if s.version < 3 {
      SeedAllTwice(s.settings, DefaultLabels);
    }
  }

  /** A fresh database (marker 0) ends with every table and column of version 5. */
  lemma MigrateFromScratch(s: Store)
    requires s.version < 1
    ensures Migrate(s).schema == s.schema + AllObjects
    ensures Migrate(s).version == 5
  {
  }

  /** A run from below 5 always leaves an `app_settings` table, whatever the marker said. */
  lemma MigrateHasSettingsTable(s: Store)
    requires s.version < 5
    ensures SettingsTable in Migrate(s).schema
  {
  }

  /**
   * The marker advances past a step whose statement failed: a store marked 3 that has lost its
   * `invoices` table ends at version 5 without the `issuerId` column, and no later run adds it.
   */
  lemma MarkerAdvancesPastFailedStep(s: Store)
    requires s.version == 3 && InvoicesTable !in s.schema && InvoicesIssuerIdColumn !in s.schema
    ensures Migrate(s).version == 5
    ensures InvoicesIssuerIdColumn !in Migrate(s).schema
    ensures InvoicesIssuerIdColumn !in Migrate(Migrate(s)).schema
  {
    MigrateIdempotent(s);
  }

  /** Migration keeps the settings and added columns inside tables that exist. */
  lemma MigrateCoherent(s: Store)
    requires Coherent(s)
    ensures Coherent(Migrate(s))
  {
  }
}
