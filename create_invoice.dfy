/**
 * The invoice editor (`CreateInvoiceView`): its state properties, the line-item edits, the
 * totals recomputation, the column headings read from the settings table, the issuer and
 * client pickers, and the save that hands the form to the database manager.
 *
 * `UUID()` and the clock are not modelled: the new line's `localUUID` and today's date text
 * are parameters of the operations that need them.
 */
module CreateInvoice {
  import opened Wrappers
  import opened Seqs
  import opened Records
  import opened Labels
  import opened Totals
  import Database
  import opened Manager

  /** The issuer a new invoice starts with. */
  const DefaultIssuerName := "ETM INSTANT WORK S.L"
  const DefaultIssuerAddress := "Calle Lluís Duran 40, 08100 Mollet del Valles (Barcelona)"

  function ItemAmount(it: InvoiceItem): real { it.amount }

  /** The row "Añadir Fila" appends: no id, empty texts, amount 0. */
  function BlankItem(uuid: Uuid): InvoiceItem
  {
    InvoiceItem(None, uuid, "", "", "", "", 0.0)
  }

  /** The row a chosen service appends: its name as concept and its price as amount. */
  function ServiceItem(s: Service, uuid: Uuid): InvoiceItem
  {
    InvoiceItem(None, uuid, s.serviceName, "", "", "", s.servicePrice)
  }

  /** The `firstIndex(where:)` test of `removeItem`. */
  function HasUuid(u: Uuid): InvoiceItem -> bool
  {
    (it: InvoiceItem) => it.localUUID == u
  }

  /** The items after `removeItem` of a row with key `u`. */
  function WithoutUuid(items: seq<InvoiceItem>, u: Uuid): seq<InvoiceItem>
  {
    RemoveFirst(items, HasUuid(u))
  }

  ghost predicate DistinctUuids(items: seq<InvoiceItem>)
  {
    forall a, b :: 0 <= a < b < |items| ==> items[a].localUUID != items[b].localUUID
  }

  /** No row carries the key: nothing is removed. */
  lemma WithoutAbsentUuid(items: seq<InvoiceItem>, u: Uuid)
    requires forall j :: 0 <= j < |items| ==> items[j].localUUID != u
    ensures WithoutUuid(items, u) == items
  {
    RemoveFirstNone(items, HasUuid(u));
  }

  /**
   * When row `i` is the first with key `u`, exactly that row goes: the others stay in order,
   * the base drops by its amount, and with distinct keys no row with key `u` is left.
   */
  lemma WithoutFirstUuid(items: seq<InvoiceItem>, u: Uuid, i: nat)
    requires i < |items| && items[i].localUUID == u
    requires forall j :: 0 <= j < i ==> items[j].localUUID != u
    ensures WithoutUuid(items, u) == items[..i] + items[i + 1..]
    ensures Sum(WithoutUuid(items, u), ItemAmount) == Sum(items, ItemAmount) - items[i].amount
    ensures DistinctUuids(items) ==> DistinctUuids(WithoutUuid(items, u))
    ensures DistinctUuids(items) ==> forall x :: x in WithoutUuid(items, u) ==> x.localUUID != u
  {
    RemoveFirstAt(items, HasUuid(u), i);
    SumRemoveAt(items, i, ItemAmount);
    if DistinctUuids(items) {
      RemoveAtDistinct(items, i);
    }
  }

  /** Removing a row keeps the other keys distinct and leaves none equal to the removed row's. */
  lemma RemoveAtDistinct(items: seq<InvoiceItem>, i: nat)
    requires i < |items| && DistinctUuids(items)
    ensures DistinctUuids(RemoveAt(items, i))
    ensures forall x :: x in RemoveAt(items, i) ==> x.localUUID != items[i].localUUID
  {
    var r := RemoveAt(items, i);
    forall a, b | 0 <= a < b < |r| ensures r[a].localUUID != r[b].localUUID {
      var a' := if a < i then a else a + 1;
      var b' := if b < i then b else b + 1;
      assert r[a] == items[a'] && r[b] == items[b'];
    }
    forall x | x in r ensures x.localUUID != items[i].localUUID {
      var j :| 0 <= j < |r| && r[j] == x;
      var j' := if j < i then j else j + 1;
      assert r[j] == items[j'];
    }
  }

  /** A blank row never changes the totals. */
  lemma BlankItemKeepsTotals(items: seq<InvoiceItem>, uuid: Uuid, ivaPercentage: real, irpfPercentage: real)
    ensures LinesTotals(items + [BlankItem(uuid)], ItemAmount, ivaPercentage, irpfPercentage)
         == LinesTotals(items, ItemAmount, ivaPercentage, irpfPercentage)
  {
    AppendZeroLine(items, BlankItem(uuid), ItemAmount, ivaPercentage, irpfPercentage);
  }

  /** A service row adds its price to the base. */
  lemma ServiceItemAddsPrice(items: seq<InvoiceItem>, s: Service, uuid: Uuid)
    ensures Sum(items + [ServiceItem(s, uuid)], ItemAmount) == Sum(items, ItemAmount) + s.servicePrice
  {
    SumAppend(items, [ServiceItem(s, uuid)], ItemAmount);
    assert [ServiceItem(s, uuid)][..0] == [];
  }

  /** The `first(where: { $0.id == id })` of the issuer picker. */
  function IssuerWithId(issuers: seq<Issuer>, id: int): (r: Option<Issuer>)
    ensures r.Some? ==> r.value in issuers && r.value.id == Some(id)
    ensures r.None? <==> forall j :: 0 <= j < |issuers| ==> issuers[j].id != Some(id)
  {
    FirstWhere(issuers, (x: Issuer) => x.id == Some(id))
  }

  /** The `first(where: { $0.id == id })` of the client picker. */
  function ClientWithId(clients: seq<Client>, id: int): (r: Option<Client>)
    ensures r.Some? ==> r.value in clients && r.value.id == Some(id)
    ensures r.None? <==> forall j :: 0 <= j < |clients| ==> clients[j].id != Some(id)
  {
    FirstWhere(clients, (x: Client) => x.id == Some(id))
  }

  class CreateInvoiceView {
    const db: DatabaseManager
    const invoiceToEdit: Option<Invoice>

    var invoiceNumber: int
    var invoiceDate: string
    var issuerName: string
    var issuerAddress: string
    var issuerNIF: string
    var selectedIssuerId: Option<int>
    var clientName: string
    var clientAddress: string
    var clientNIF: string
    var selectedClientId: Option<int>
    var observaciones: string
    var ivaPercentage: real
    var irpfPercentage: real
    var items: seq<InvoiceItem>
    var baseImponible: real
    var totalIVA: real
    var totalIRPF: real
    var totalFactura: real
    /** The five `label...` states. */
    var labels: ColumnLabels

    /** The four totals fields. */
    function Figures(): Breakdown
      reads this`baseImponible, this`totalIVA, this`totalIRPF, this`totalFactura
    {
      Breakdown(baseImponible, totalIVA, totalIRPF, totalFactura)
    }

    /** The totals shown are the ones the current lines and percentages give. */
    ghost predicate TotalsInSync()
      reads this`items, this`ivaPercentage, this`irpfPercentage,
        this`baseImponible, this`totalIVA, this`totalIRPF, this`totalFactura
    {
      Figures() == LinesTotals(items, ItemAmount, ivaPercentage, irpfPercentage)
    }

    /** The invoice `saveInvoice` builds from the form. */
    function Draft(): Invoice
      reads this`selectedIssuerId, this`invoiceNumber, this`invoiceDate, this`issuerName, this`issuerAddress,
        this`issuerNIF, this`clientName, this`clientAddress, this`clientNIF, this`observaciones, this`items,
        this`ivaPercentage, this`irpfPercentage, this`baseImponible, this`totalIVA, this`totalIRPF, this`totalFactura
    {
      Invoice(if invoiceToEdit.Some? then invoiceToEdit.value.id else None, selectedIssuerId, invoiceNumber,
        invoiceDate, issuerName, issuerAddress, issuerNIF, clientName, clientAddress, clientNIF, observaciones,
        items, ivaPercentage, irpfPercentage, baseImponible, totalIVA, totalIRPF, totalFactura)
    }

    /** The view as created, before `onAppear`: the initial values of its state properties. */
    constructor(db: DatabaseManager, invoiceToEdit: Option<Invoice>)
      ensures this.db == db && this.invoiceToEdit == invoiceToEdit
      ensures invoiceNumber == 0 && invoiceDate == "" && observaciones == ""
      ensures issuerName == "" && issuerAddress == "" && issuerNIF == "" && selectedIssuerId.None?
      ensures clientName == "" && clientAddress == "" && clientNIF == "" && selectedClientId.None?
      ensures ivaPercentage == 21.0 && irpfPercentage == 0.0 && items == []
      ensures Figures() == Breakdown(0.0, 0.0, 0.0, 0.0) && TotalsInSync()
      ensures labels == InitialLabels
    {
      this.db := db;
      this.invoiceToEdit := invoiceToEdit;
      invoiceNumber := 0;
      invoiceDate := "";
      issuerName := "";
      issuerAddress := "";
      issuerNIF := "";
      selectedIssuerId := None;
      clientName := "";
      clientAddress := "";
      clientNIF := "";
      selectedClientId := None;
      observaciones := "";
      ivaPercentage := 21.0;
      irpfPercentage := 0.0;
      items := [];
      baseImponible := 0.0;
      totalIVA := 0.0;
      totalIRPF := 0.0;
      totalFactura := 0.0;
      labels := InitialLabels;
    }

    /** `recalcTotals`. */
    method RecalcTotals()
      modifies this`baseImponible, this`totalIVA, this`totalIRPF, this`totalFactura
      ensures TotalsInSync()
      ensures baseImponible == Sum(items, ItemAmount)
      ensures totalFactura == baseImponible + totalIVA - totalIRPF
    {
      var base := Sum(items, ItemAmount);
      baseImponible := base;
      var iva := base * (ivaPercentage / 100.0);
      totalIVA := iva;
      var irpf := base * (irpfPercentage / 100.0);
      totalIRPF := irpf;
      totalFactura := base + iva - irpf;
    }

    /** `removeItem(_:)`: the first row with the target's key goes, and only then are the totals recomputed. */
    method RemoveItem(target: InvoiceItem)
      modifies this`items, this`baseImponible, this`totalIVA, this`totalIRPF, this`totalFactura
      ensures items == WithoutUuid(old(items), target.localUUID)
      ensures (exists j :: 0 <= j < |old(items)| && old(items)[j].localUUID == target.localUUID) ==> TotalsInSync()
      ensures (forall j :: 0 <= j < |old(items)| ==> old(items)[j].localUUID != target.localUUID) ==>
        items == old(items) && Figures() == old(Figures())
    {
      var idx := FirstIndex(items, HasUuid(target.localUUID));
      if idx.Some? {
        items := RemoveAt(items, idx.value);
        RecalcTotals();
      }
    }

    /** "Añadir Fila". */
    method AddRow(uuid: Uuid)
      modifies this`items
      ensures items == old(items) + [BlankItem(uuid)]
      ensures old(TotalsInSync()) ==> TotalsInSync()
    {
      BlankItemKeepsTotals(items, uuid, ivaPercentage, irpfPercentage);
      items := items + [BlankItem(uuid)];
    }

    /** The services popover's callback. */
    method AddService(s: Service, uuid: Uuid)
      modifies this`items
      ensures items == old(items) + [ServiceItem(s, uuid)]
      ensures Sum(items, ItemAmount) == Sum(old(items), ItemAmount) + s.servicePrice
    {
      ServiceItemAddsPrice(items, s, uuid);
      items := items + [ServiceItem(s, uuid)];
    }

    /**
     * `setupView`: an edited invoice is copied into the form as stored, totals included; a new
     * one gets the next number, today's date, the default issuer and 21% / 0%.
     */
    method SetupView(today: string)
      modifies this`invoiceNumber, this`invoiceDate, this`issuerName, this`issuerAddress, this`issuerNIF,
        this`clientName, this`clientAddress, this`clientNIF, this`observaciones, this`ivaPercentage,
        this`irpfPercentage, this`items, this`baseImponible, this`totalIVA, this`totalIRPF, this`totalFactura,
        this`selectedIssuerId
      ensures invoiceToEdit.Some? ==> Draft() == invoiceToEdit.value
      ensures invoiceToEdit.None? ==>
        && invoiceNumber == Database.NextInvoiceNumber(db.File())
        && invoiceDate == today
        && issuerName == DefaultIssuerName && issuerAddress == DefaultIssuerAddress && issuerNIF == ""
        && ivaPercentage == 21.0 && irpfPercentage == 0.0
        && items == old(items) && Figures() == old(Figures()) && selectedIssuerId == old(selectedIssuerId)
        && clientName == old(clientName) && clientAddress == old(clientAddress) && clientNIF == old(clientNIF)
        && observaciones == old(observaciones)
    {
      if invoiceToEdit.Some? {
        CopyInvoice(invoiceToEdit.value);
      } else {
        StartNewInvoice(today);
      }
    }

    /** The edit branch of `setupView`: every field of the stored invoice, its totals as stored. */
    method CopyInvoice(existing: Invoice)
      requires invoiceToEdit == Some(existing)
      modifies this`invoiceNumber, this`invoiceDate, this`issuerName, this`issuerAddress, this`issuerNIF,
        this`clientName, this`clientAddress, this`clientNIF, this`observaciones, this`ivaPercentage,
        this`irpfPercentage, this`items, this`baseImponible, this`totalIVA, this`totalIRPF, this`totalFactura,
        this`selectedIssuerId
      ensures Draft() == existing
    {
      CopyHeader(existing);
      CopyLines(existing);
    }

    /** Number, date, the issuer and client snapshots, remarks and the issuer id. */
    method CopyHeader(existing: Invoice)
      modifies this`invoiceNumber, this`invoiceDate, this`issuerName, this`issuerAddress, this`issuerNIF,
        this`clientName, this`clientAddress, this`clientNIF, this`observaciones, this`selectedIssuerId
      ensures invoiceNumber == existing.invoiceNumber && invoiceDate == existing.invoiceDate
      ensures issuerName == existing.issuerName && issuerAddress == existing.issuerAddress && issuerNIF == existing.issuerNIF
      ensures clientName == existing.clientName && clientAddress == existing.clientAddress && clientNIF == existing.clientNIF
      ensures observaciones == existing.observaciones && selectedIssuerId == existing.issuerId
    {
      invoiceNumber := existing.invoiceNumber;
      invoiceDate := existing.invoiceDate;
      issuerName := existing.issuerName;
      issuerAddress := existing.issuerAddress;
      issuerNIF := existing.issuerNIF;
      clientName := existing.clientName;
      clientAddress := existing.clientAddress;
      clientNIF := existing.clientNIF;
      observaciones := existing.observaciones;
      selectedIssuerId := existing.issuerId;
    }

    /** The percentages, the lines and the four stored totals. */
    method CopyLines(existing: Invoice)
      modifies this`ivaPercentage, this`irpfPercentage, this`items,
        this`baseImponible, this`totalIVA, this`totalIRPF, this`totalFactura
      ensures ivaPercentage == existing.ivaPercentage && irpfPercentage == existing.irpfPercentage
      ensures items == existing.items
      ensures Figures() == Breakdown(existing.baseImponible, existing.totalIVA, existing.totalIRPF, existing.totalFactura)
    {
      ivaPercentage := existing.ivaPercentage;
      irpfPercentage := existing.irpfPercentage;
      items := existing.items;
      baseImponible := existing.baseImponible;
      totalIVA := existing.totalIVA;
      totalIRPF := existing.totalIRPF;
      totalFactura := existing.totalFactura;
    }

    /** The new-invoice branch of `setupView`. */
    method StartNewInvoice(today: string)
      modifies this`invoiceNumber, this`invoiceDate, this`issuerName, this`issuerAddress, this`issuerNIF,
        this`ivaPercentage, this`irpfPercentage
      ensures invoiceNumber == Database.NextInvoiceNumber(db.File()) && invoiceDate == today
      ensures issuerName == DefaultIssuerName && issuerAddress == DefaultIssuerAddress && issuerNIF == ""
      ensures ivaPercentage == 21.0 && irpfPercentage == 0.0
    {
      invoiceNumber := db.GetNextInvoiceNumber();
      invoiceDate := today;
      issuerName := DefaultIssuerName;
      issuerAddress := DefaultIssuerAddress;
      issuerNIF := "";
      ivaPercentage := 21.0;
      irpfPercentage := 0.0;
    }

    /** `loadColumnLabels`: the five stored headings, each replaced by its default when empty. */
    method LoadColumnLabels()
      modifies this`labels
      ensures labels == Resolve(Database.SettingValue(db.File(), ConceptKey), Database.SettingValue(db.File(), ModelKey),
        Database.SettingValue(db.File(), BastidorKey), Database.SettingValue(db.File(), DateKey),
        Database.SettingValue(db.File(), AmountKey))
    {
      var concept := db.GetSettingValue(ConceptKey);
      var model := db.GetSettingValue(ModelKey);
      var bastidor := db.GetSettingValue(BastidorKey);
      var date := db.GetSettingValue(DateKey);
      var amount := db.GetSettingValue(AmountKey);
      labels := Resolve(concept, model, bastidor, date, amount);
    }

    /** `onAppear`: `setupView` with the issuer observer it may set off, then `loadColumnLabels`. */
    method OnAppear(today: string)
      modifies this`invoiceNumber, this`invoiceDate, this`issuerName, this`issuerAddress, this`issuerNIF,
        this`clientName, this`clientAddress, this`clientNIF, this`observaciones, this`ivaPercentage,
        this`irpfPercentage, this`items, this`baseImponible, this`totalIVA, this`totalIRPF, this`totalFactura,
        this`selectedIssuerId, this`labels
      ensures invoiceToEdit.Some? ==>
        var existing := invoiceToEdit.value;
        var reload := existing.issuerId != old(selectedIssuerId) && existing.issuerId.Some?
          && IssuerWithId(Database.IssuerListing(db.File()), existing.issuerId.value).Some?;
        && selectedIssuerId == existing.issuerId
        && (reload ==>
             var found := IssuerWithId(Database.IssuerListing(db.File()), existing.issuerId.value).value;
             Draft() == existing.(issuerName := found.name, issuerAddress := found.address, issuerNIF := found.nif))
        && (!reload ==> Draft() == existing)
      ensures invoiceToEdit.None? ==>
        && invoiceNumber == Database.NextInvoiceNumber(db.File())
        && invoiceDate == today
        && issuerName == DefaultIssuerName && issuerAddress == DefaultIssuerAddress && issuerNIF == ""
        && ivaPercentage == 21.0 && irpfPercentage == 0.0
        && items == old(items) && Figures() == old(Figures()) && selectedIssuerId == old(selectedIssuerId)
        && clientName == old(clientName) && clientAddress == old(clientAddress) && clientNIF == old(clientNIF)
        && observaciones == old(observaciones)
      ensures labels == Resolve(Database.SettingValue(db.File(), ConceptKey), Database.SettingValue(db.File(), ModelKey),
        Database.SettingValue(db.File(), BastidorKey), Database.SettingValue(db.File(), DateKey),
        Database.SettingValue(db.File(), AmountKey))
    {
      SetupAndObserve(today);
      LoadColumnLabels();
    }

    /**
     * `setupView` followed by the `selectedIssuerId` observer when `setupView` changed that id (only
     * the edit branch assigns it): the stored issuer snapshot is then overwritten by the issuer's
     * current row, if that id is still stored.
     */
    method SetupAndObserve(today: string)
      modifies this`invoiceNumber, this`invoiceDate, this`issuerName, this`issuerAddress, this`issuerNIF,
        this`clientName, this`clientAddress, this`clientNIF, this`observaciones, this`ivaPercentage,
        this`irpfPercentage, this`items, this`baseImponible, this`totalIVA, this`totalIRPF, this`totalFactura,
        this`selectedIssuerId
      ensures invoiceToEdit.Some? ==>
        var existing := invoiceToEdit.value;
        var reload := existing.issuerId != old(selectedIssuerId) && existing.issuerId.Some?
          && IssuerWithId(Database.IssuerListing(db.File()), existing.issuerId.value).Some?;
        && selectedIssuerId == existing.issuerId
        && (reload ==>
             var found := IssuerWithId(Database.IssuerListing(db.File()), existing.issuerId.value).value;
             Draft() == existing.(issuerName := found.name, issuerAddress := found.address, issuerNIF := found.nif))
        && (!reload ==> Draft() == existing)
      ensures invoiceToEdit.None? ==>
        && invoiceNumber == Database.NextInvoiceNumber(db.File())
        && invoiceDate == today
        && issuerName == DefaultIssuerName && issuerAddress == DefaultIssuerAddress && issuerNIF == ""
        && ivaPercentage == 21.0 && irpfPercentage == 0.0
        && items == old(items) && Figures() == old(Figures()) && selectedIssuerId == old(selectedIssuerId)
        && clientName == old(clientName) && clientAddress == old(clientAddress) && clientNIF == old(clientNIF)
        && observaciones == old(observaciones)
    {
      var before := selectedIssuerId;
      SetupView(today);
      ghost var setUp := Draft();
      if selectedIssuerId != before {
        IssuerChanged(selectedIssuerId);
      }
      assert Draft() == setUp.(issuerName := issuerName, issuerAddress := issuerAddress, issuerNIF := issuerNIF);
    }

    /**
     * Picking an issuer. SwiftUI runs the `selectedIssuerId` observer only when the value actually
     * changes; it then copies the issuer's name, address and NIF when the id is one of the stored issuers.
     */
    method SelectIssuer(newValue: Option<int>)
      modifies this`selectedIssuerId, this`issuerName, this`issuerAddress, this`issuerNIF
      ensures selectedIssuerId == newValue
      ensures (newValue != old(selectedIssuerId) && newValue.Some?
               && IssuerWithId(Database.IssuerListing(db.File()), newValue.value).Some?) ==>
        var found := IssuerWithId(Database.IssuerListing(db.File()), newValue.value).value;
        issuerName == found.name && issuerAddress == found.address && issuerNIF == found.nif
      ensures (newValue == old(selectedIssuerId) || newValue.None?
               || IssuerWithId(Database.IssuerListing(db.File()), newValue.value).None?) ==>
        issuerName == old(issuerName) && issuerAddress == old(issuerAddress) && issuerNIF == old(issuerNIF)
    {
      var before := selectedIssuerId;
      selectedIssuerId := newValue;
      if newValue != before {
        IssuerChanged(newValue);
      }
    }

    /** The body of the `selectedIssuerId` observer: reload the issuer snapshot from the stored issuer. */
    method IssuerChanged(newValue: Option<int>)
      modifies this`issuerName, this`issuerAddress, this`issuerNIF
      ensures newValue.Some? && IssuerWithId(Database.IssuerListing(db.File()), newValue.value).Some? ==>
        var found := IssuerWithId(Database.IssuerListing(db.File()), newValue.value).value;
        issuerName == found.name && issuerAddress == found.address && issuerNIF == found.nif
      ensures newValue.None? || IssuerWithId(Database.IssuerListing(db.File()), newValue.value).None? ==>
        issuerName == old(issuerName) && issuerAddress == old(issuerAddress) && issuerNIF == old(issuerNIF)
    {
      if newValue.Some? {
        var issuers := db.FetchAllIssuers();
        var found := IssuerWithId(issuers, newValue.value);
        if found.Some? {
          issuerName := found.value.name;
          issuerAddress := found.value.address;
          issuerNIF := found.value.nif;
        }
      }
    }

    /** Picking a client: the `selectedClientId` observer, also run only on a change, reads the published `clients`. */
    method SelectClient(newValue: Option<int>)
      modifies this`selectedClientId, this`clientName, this`clientAddress, this`clientNIF
      ensures selectedClientId == newValue
      ensures newValue != old(selectedClientId) && newValue.Some? && ClientWithId(db.clients, newValue.value).Some? ==>
        var found := ClientWithId(db.clients, newValue.value).value;
        clientName == found.name && clientAddress == found.address && clientNIF == found.nif
      ensures newValue == old(selectedClientId) || newValue.None? || ClientWithId(db.clients, newValue.value).None? ==>
        clientName == old(clientName) && clientAddress == old(clientAddress) && clientNIF == old(clientNIF)
    {
      var before := selectedClientId;
      selectedClientId := newValue;
      if newValue != before && newValue.Some? {
        var found := ClientWithId(db.clients, newValue.value);
        if found.Some? {
          clientName := found.value.name;
          clientAddress := found.value.address;
          clientNIF := found.value.nif;
        }
      }
    }

    /**
     * `saveInvoice`: the totals are recomputed, then the form goes to `insertInvoice` for a new
     * invoice and to `updateInvoice`, under the edited invoice's id, otherwise.
     */
    method SaveInvoice()
      requires db.Valid()
      modifies this`baseImponible, this`totalIVA, this`totalIRPF, this`totalFactura
      modifies db`invoiceTable, db`invoiceItemTable, db`invoices, db`uuidSource
      ensures db.Valid() && TotalsInSync()
      ensures invoiceToEdit.None? ==> db.File() == Database.InsertInvoice(old(db.File()), Draft())
      ensures invoiceToEdit.Some? ==> db.File() == Database.UpdateInvoice(old(db.File()), Draft())
      ensures Draft().id.Some? || invoiceToEdit.None? ==> EraseInvoices(db.invoices) == Database.InvoiceListing(db.File())
      ensures Draft().id.None? && invoiceToEdit.Some? ==> db.invoices == old(db.invoices)
    {
      RecalcTotals();
      var invoice := Draft();
      if invoiceToEdit.None? {
        db.InsertInvoice(invoice);
      } else {
        db.UpdateInvoice(invoice);
      }
    }
  }
}
