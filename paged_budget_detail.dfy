/**
 * The state of the printable budget view (`PagedBudgetDetailView`) other than its pages: the
 * column headings it reads from the settings table when it appears.
 */
module PagedBudgetDetail {
  import opened Labels
  import Database
  import opened Manager

  class PagedBudgetDetailView {
    const db: DatabaseManager
    /** The five `label...` states. */
    var labels: ColumnLabels

    constructor(db: DatabaseManager)
      ensures this.db == db && labels == InitialLabels
    {
      this.db := db;
      labels := InitialLabels;
    }

    /** `loadColumnLabels`: the five stored headings, each replaced by its default when empty. */
    method LoadColumnLabels()
      modifies this`labels
      ensures labels == Resolve(Database.SettingValue(db.File(), ConceptKey), Database.SettingValue(db.File(), ModelKey),
        Database.SettingValue(db.File(), BastidorKey), Database.SettingValue(db.File(), DateKey),
        Database.SettingValue(db.File(), AmountKey))
    {
      var c1 := db.GetSettingValue(ConceptKey);
      var c2 := db.GetSettingValue(ModelKey);
      var c3 := db.GetSettingValue(BastidorKey);
      var c4 := db.GetSettingValue(DateKey);
      var c5 := db.GetSettingValue(AmountKey);
      labels := Resolve(c1, c2, c3, c4, c5);
    }
  }
}
