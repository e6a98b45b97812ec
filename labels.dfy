/**
 * The five customisable column headings of the item tables. Their texts live in the
 * `app_settings` table under fixed keys; the migrations seed the Spanish defaults and the
 * views fall back to those defaults whenever a stored heading is empty.
 */
module Labels {

  const ConceptKey := "column_concept_label"
  const ModelKey := "column_model_label"
  const BastidorKey := "column_bastidor_label"
  const DateKey := "column_date_label"
  const AmountKey := "column_amount_label"

  const ConceptDefault := "Concepto"
  const ModelDefault := "Modelo"
  const BastidorDefault := "Bastidor"
  const DateDefault := "Fecha"
  const AmountDefault := "Importe"

  /** The `(settingKey, settingValue)` pairs the migrations insert, in insertion order. */
  const DefaultLabels: seq<(string, string)> := [
    (ConceptKey, ConceptDefault),
    (ModelKey, ModelDefault),
    (BastidorKey, BastidorDefault),
    (DateKey, DateDefault),
    (AmountKey, AmountDefault)]

  /** The headings a view shows, in column order. */
  datatype ColumnLabels = ColumnLabels(concept: string, model: string, bastidor: string, date: string, amount: string)

  /** The headings a view starts with before it reads the settings. */
  const InitialLabels := ColumnLabels(ConceptDefault, ModelDefault, BastidorDefault, DateDefault, AmountDefault)

  /** `stored.isEmpty ? fallback : stored`: an empty stored heading gives way to its default. */
  function OrDefault(stored: string, fallback: string): (r: string)
    ensures r == stored || r == fallback
    ensures stored != "" ==> r == stored
    ensures r != "" <==> stored != "" || fallback != ""
  {
    if stored == "" then fallback else stored
  }

  /** The headings shown for the five stored values, each with its own default. */
  function Resolve(concept: string, model: string, bastidor: string, date: string, amount: string): (r: ColumnLabels)
    ensures r.concept != "" && r.model != "" && r.bastidor != "" && r.date != "" && r.amount != ""
    ensures (concept != "" ==> r.concept == concept) && (concept == "" ==> r.concept == ConceptDefault)
    ensures (model != "" ==> r.model == model) && (model == "" ==> r.model == ModelDefault)
    ensures (bastidor != "" ==> r.bastidor == bastidor) && (bastidor == "" ==> r.bastidor == BastidorDefault)
    ensures (date != "" ==> r.date == date) && (date == "" ==> r.date == DateDefault)
    ensures (amount != "" ==> r.amount == amount) && (amount == "" ==> r.amount == AmountDefault)
  {
    ColumnLabels(OrDefault(concept, ConceptDefault), OrDefault(model, ModelDefault),
      OrDefault(bastidor, BastidorDefault), OrDefault(date, DateDefault), OrDefault(amount, AmountDefault))
  }
}
