/**
 * The records the app keeps: the working document (`state`), the stored
 * document, the settings record and the client record, and the field
 * mappings between them.
 */
module Records {
  import opened Wrappers
  import opened Kinds
  import opened Totals
  import opened Numbering

  /**
   * The document part of `state`: every field except the two counters and
   * `editingInvoiceId`. `taxRate`/`discountRate` can be null after copying a
   * record whose rate is null.
   */
  datatype WorkDoc = WorkDoc(
    docType: DocType, template: string, status: Status, accentColor: string, currency: string,
    senderName: string, senderEmail: string, senderPhone: string, senderWebsite: string, senderAddress: string,
    clientName: string, clientEmail: string, clientAddress: string,
    invoiceNumber: string, invoiceDate: string, dueDate: string,
    items: seq<Item>, taxRate: Option<real>, discountRate: Option<real>,
    notes: string, logo: Option<string>, signature: Option<string>,
    paymentBankName: string, paymentAccountName: string, paymentAccountNumber: string,
    paymentRouting: string, paymentUpi: string, showPayment: bool)

  /**
   * A record of the `invoices` store (without its key). The document type
   * is stored under the key `type`, modelled as `kind`. Every record has
   * every key; the fields the app reads with a fallback (`items`, the rates,
   * `total`, `savedAt`) are options, `None` being a stored `null`.
   */
  datatype Document = Document(
    kind: DocType, template: string, status: Status, accentColor: string, currency: string,
    senderName: string, senderEmail: string, senderPhone: string, senderWebsite: string, senderAddress: string,
    clientName: string, clientEmail: string, clientAddress: string,
    invoiceNumber: string, invoiceDate: string, dueDate: string,
    items: Option<seq<Item>>, taxRate: Option<real>, discountRate: Option<real>,
    notes: string, logo: Option<string>, signature: Option<string>,
    paymentBankName: string, paymentAccountName: string, paymentAccountNumber: string,
    paymentRouting: string, paymentUpi: string, showPayment: bool,
    total: Option<real>, savedAt: Option<int>)

  /** The single record of the `settings` store (key 'appSettings'). */
  datatype Settings = Settings(
    senderName: string, senderEmail: string, senderPhone: string, senderWebsite: string, senderAddress: string,
    accentColor: string, template: string, currency: string,
    paymentBankName: string, paymentAccountName: string, paymentAccountNumber: string,
    paymentRouting: string, paymentUpi: string, showPayment: bool,
    nextInvoiceNum: nat, nextEstimateNum: nat, logo: Option<string>)

  /** A record of the `clients` store; `None` is a key the record does not have. */
  datatype Client = Client(name: string, email: Option<string>, phone: Option<string>, address: Option<string>)

  /** The initial value of `state`'s document fields. */
  const InitialWork: WorkDoc := WorkDoc(
    docType := Invoice, template := "modern", status := Draft, accentColor := "#6c63ff", currency := "$",
    senderName := "", senderEmail := "", senderPhone := "", senderWebsite := "", senderAddress := "",
    clientName := "", clientEmail := "", clientAddress := "",
    invoiceNumber := "", invoiceDate := "", dueDate := "",
    items := [Blank], taxRate := Some(0.0), discountRate := Some(0.0),
    notes := "", logo := None, signature := None,
    paymentBankName := "", paymentAccountName := "", paymentAccountNumber := "",
    paymentRouting := "", paymentUpi := "", showPayment := true)

  /** A working document whose rates are set and whose item list is non-empty. */
  predicate Normal(w: WorkDoc)
  {
    w.items != [] && w.taxRate.Some? && w.discountRate.Some?
  }

  /** A stored document with a non-empty item list and both rates present. */
  predicate Complete(d: Document)
  {
    d.items.Some? && d.items.value != [] && d.taxRate.Some? && d.discountRate.Some?
  }

  /** A stored document with its bookkeeping fields (`total`, `savedAt`) cleared. */
  function Unsaved(d: Document): Document
  {
    d.(total := None, savedAt := None)
  }

  /** The document fields the save snapshot copies from `state`. */
  function Content(w: WorkDoc): (d: Document)
    ensures d.total.None? && d.savedAt.None?
  {
    Document(
      kind := w.docType, template := w.template, status := w.status,
      accentColor := w.accentColor, currency := w.currency,
      senderName := w.senderName, senderEmail := w.senderEmail, senderPhone := w.senderPhone,
      senderWebsite := w.senderWebsite, senderAddress := w.senderAddress,
      clientName := w.clientName, clientEmail := w.clientEmail, clientAddress := w.clientAddress,
      invoiceNumber := w.invoiceNumber, invoiceDate := w.invoiceDate, dueDate := w.dueDate,
      items := Some(w.items), taxRate := w.taxRate, discountRate := w.discountRate,
      notes := w.notes, logo := w.logo, signature := w.signature,
      paymentBankName := w.paymentBankName, paymentAccountName := w.paymentAccountName,
      paymentAccountNumber := w.paymentAccountNumber, paymentRouting := w.paymentRouting,
      paymentUpi := w.paymentUpi, showPayment := w.showPayment,
      total := None, savedAt := None)
  }

  /**
   * The record `saveCurrentDoc` writes: the working document, the cached
   * total and the save time.
   */
  function Snapshot(w: WorkDoc, total: real, now: int): (d: Document)
    ensures d.total == Some(total) && d.savedAt == Some(now)
    ensures d.kind == w.docType && d.items == Some(w.items)
  {
    Content(w).(total := Some(total), savedAt := Some(now))
  }

  /** Apart from its bookkeeping fields the record is the working document's content. */
  lemma SnapshotContent(w: WorkDoc, total: real, now: int)
    ensures Unsaved(Snapshot(w, total, now)) == Content(w)
  {
  }

  /** Saving a working document and opening the record again gives it back. */
  lemma EditAfterSave(w: WorkDoc, total: real, now: int)
    requires Normal(w)
    ensures EditLoad(Snapshot(w, total, now)) == w
  {
  }

  /**
   * Copying a stored record into `state`, corrected: the stored `type`
   * becomes `docType`. Every other document field is copied under its own
   * name; `items` is what the caller installs.
   */
  function LoadStored(d: Document, items: seq<Item>): (w: WorkDoc)
    ensures w.docType == d.kind && w.items == items
  {
    WorkDoc(
      docType := d.kind, template := d.template, status := d.status,
      accentColor := d.accentColor, currency := d.currency,
      senderName := d.senderName, senderEmail := d.senderEmail, senderPhone := d.senderPhone,
      senderWebsite := d.senderWebsite, senderAddress := d.senderAddress,
      clientName := d.clientName, clientEmail := d.clientEmail, clientAddress := d.clientAddress,
      invoiceNumber := d.invoiceNumber, invoiceDate := d.invoiceDate, dueDate := d.dueDate,
      items := items, taxRate := d.taxRate, discountRate := d.discountRate,
      notes := d.notes, logo := d.logo, signature := d.signature,
      paymentBankName := d.paymentBankName, paymentAccountName := d.paymentAccountName,
      paymentAccountNumber := d.paymentAccountNumber, paymentRouting := d.paymentRouting,
      paymentUpi := d.paymentUpi, showPayment := d.showPayment)
  }

  /** Loading copies every document field of the record. */
  lemma LoadStoredKeepsContent(d: Document, items: seq<Item>)
    ensures Content(LoadStored(d, items)) == Unsaved(d).(items := Some(items))
  {
  }

  /**
   * Copying a stored record into `state` as written: only keys that `state`
   * also has are copied, and the record's `type` is not one of them, so
   * `docType` keeps the session's value.
   */
  function LoadStoredAsWritten(w: WorkDoc, d: Document, items: seq<Item>): (r: WorkDoc)
    ensures r.docType == w.docType
    ensures r == LoadStored(d, items).(docType := w.docType)
  {
    w.(template := d.template, status := d.status,
       accentColor := d.accentColor, currency := d.currency,
       senderName := d.senderName, senderEmail := d.senderEmail, senderPhone := d.senderPhone,
       senderWebsite := d.senderWebsite, senderAddress := d.senderAddress,
       clientName := d.clientName, clientEmail := d.clientEmail, clientAddress := d.clientAddress,
       invoiceNumber := d.invoiceNumber, invoiceDate := d.invoiceDate, dueDate := d.dueDate,
       items := items, taxRate := d.taxRate, discountRate := d.discountRate,
       notes := d.notes, logo := d.logo, signature := d.signature,
       paymentBankName := d.paymentBankName, paymentAccountName := d.paymentAccountName,
       paymentAccountNumber := d.paymentAccountNumber, paymentRouting := d.paymentRouting,
       paymentUpi := d.paymentUpi, showPayment := d.showPayment)
  }

  /** `d.items && d.items.length ? d.items : [blank]` */
  function EditItems(items: Option<seq<Item>>): (r: seq<Item>)
    ensures r != []
    ensures items.Some? && items.value != [] ==> r == items.value
    ensures items.None? || items.value == [] ==> r == [Blank]
  {
    if items.Some? && |items.value| > 0 then items.value else [Blank]
  }

  /** `d.items ? copy(d.items) : [blank]`: an empty array is kept. */
  function CopyItems(items: Option<seq<Item>>): (r: seq<Item>)
    ensures items.Some? ==> r == items.value
    ensures items.None? ==> r == [Blank]
  {
    if items.Some? then items.value else [Blank]
  }

  /**
   * The working document after `editDoc` (corrected copy). Rates default to
   * 0 and an empty item list to one blank item.
   */
  function EditLoad(d: Document): (w: WorkDoc)
    ensures w.docType == d.kind && Normal(w)
    ensures w.taxRate == Some(OrZero(d.taxRate)) && w.discountRate == Some(OrZero(d.discountRate))
  {
    LoadStored(d, EditItems(d.items)).(taxRate := Some(OrZero(d.taxRate)), discountRate := Some(OrZero(d.discountRate)))
  }

  /** A complete record is reproduced exactly by the next save after it is opened. */
  lemma EditReproduces(d: Document)
    requires Complete(d)
    ensures Content(EditLoad(d)) == Unsaved(d)
  {
  }

  /** `editDoc`'s result as written: the session's `docType` survives. */
  function EditLoadAsWritten(w: WorkDoc, d: Document): (r: WorkDoc)
    ensures r == EditLoad(d).(docType := w.docType)
  {
    LoadStoredAsWritten(w, d, EditItems(d.items)).(taxRate := Some(OrZero(d.taxRate)), discountRate := Some(OrZero(d.discountRate)))
  }

  /**
   * Opening a stored estimate while the editor holds an invoice: as written,
   * the next save stores it as an invoice; corrected, it stays an estimate.
   */
  lemma EditAsWrittenChangesType(w: WorkDoc, d: Document)
    requires w.docType == Invoice && d.kind == Estimate && Complete(d)
    ensures Content(EditLoadAsWritten(w, d)).kind == Invoice
    ensures Content(EditLoadAsWritten(w, d)) != Unsaved(d)
    ensures Content(EditLoad(d)) == Unsaved(d)
  {
  }

  /**
   * The working document after `duplicateDoc` (corrected copy): new dates,
   * a number from the live counter of the record's series, status draft and
   * the stored items (an empty list stays empty). The cached total of a
   * record this app saved is what the duplicate totals to.
   */
  function DuplicateLoad(d: Document, nextInvoiceNum: nat, nextEstimateNum: nat, today: string, due: string): (w: WorkDoc)
    ensures w.docType == d.kind && w.status == Draft
    ensures w.invoiceDate == today && w.dueDate == due
    ensures w.items == CopyItems(d.items)
  {
    var c := LoadStored(d, CopyItems(d.items));
    c.(invoiceDate := today, dueDate := due, invoiceNumber := NextNumber(c.docType, nextInvoiceNum, nextEstimateNum), status := Draft)
  }

  /**
   * The working document after `convertToInvoice` (corrected copy): type
   * invoice, a number from the invoice series whatever the record's series,
   * status draft; the dates are the record's own.
   */
  function ConvertLoad(d: Document, nextInvoiceNum: nat): (w: WorkDoc)
    ensures w.docType == Invoice && w.status == Draft
    ensures w.items == CopyItems(d.items)
    ensures w.invoiceDate == d.invoiceDate && w.dueDate == d.dueDate
  {
    LoadStored(d, CopyItems(d.items)).(docType := Invoice, invoiceNumber := DocNumber(Invoice, nextInvoiceNum), status := Draft)
  }

  /**
   * `duplicateDoc` as written: the session's `docType` survives the copy,
   * and the number is drawn from the session type's series.
   */
  function DuplicateLoadAsWritten(w: WorkDoc, d: Document, nextInvoiceNum: nat, nextEstimateNum: nat, today: string, due: string): (r: WorkDoc)
    ensures r == DuplicateLoad(d, nextInvoiceNum, nextEstimateNum, today, due).(docType := w.docType, invoiceNumber := NextNumber(w.docType, nextInvoiceNum, nextEstimateNum))
  {
    var c := LoadStoredAsWritten(w, d, CopyItems(d.items));
    c.(invoiceDate := today, dueDate := due, invoiceNumber := NextNumber(c.docType, nextInvoiceNum, nextEstimateNum), status := Draft)
  }

  /**
   * Duplicating a stored estimate while the editor holds an invoice: as
   * written, the copy is an invoice numbered from the invoice series and is
   * saved as an invoice; corrected, it is an estimate numbered from the
   * estimate series.
   */
  lemma DuplicateAsWrittenChangesType(w: WorkDoc, d: Document, nextInvoiceNum: nat, nextEstimateNum: nat, today: string, due: string)
    requires w.docType == Invoice && d.kind == Estimate
    ensures var r := DuplicateLoadAsWritten(w, d, nextInvoiceNum, nextEstimateNum, today, due);
      Content(r).kind == Invoice && ParseDocNumber(r.invoiceNumber) == Some((Invoice, nextInvoiceNum))
    ensures var c := DuplicateLoad(d, nextInvoiceNum, nextEstimateNum, today, due);
      Content(c).kind == Estimate && ParseDocNumber(c.invoiceNumber) == Some((Estimate, nextEstimateNum))
  {
    NextNumberParses(Invoice, nextInvoiceNum, nextEstimateNum);
    NextNumberParses(Estimate, nextInvoiceNum, nextEstimateNum);
  }

  /** Apart from number, dates and status, a duplicate carries everything of the record it copies. */
  lemma DuplicateKeepsContent(d: Document, nextInvoiceNum: nat, nextEstimateNum: nat, today: string, due: string)
    ensures var w := DuplicateLoad(d, nextInvoiceNum, nextEstimateNum, today, due);
      Content(w).(invoiceNumber := d.invoiceNumber, invoiceDate := d.invoiceDate, dueDate := d.dueDate, status := d.status)
        == Unsaved(d).(items := Some(CopyItems(d.items)))
  {
  }

  /** A duplicate takes the next number of its own series. */
  lemma DuplicateNumbered(d: Document, nextInvoiceNum: nat, nextEstimateNum: nat, today: string, due: string)
    ensures var w := DuplicateLoad(d, nextInvoiceNum, nextEstimateNum, today, due);
      ParseDocNumber(w.invoiceNumber) == Some((d.kind, if d.kind == Estimate then nextEstimateNum else nextInvoiceNum))
  {
    NextNumberParses(d.kind, nextInvoiceNum, nextEstimateNum);
  }

  /** A converted estimate takes the next number of the invoice series. */
  lemma ConvertNumbered(d: Document, nextInvoiceNum: nat)
    ensures ParseDocNumber(ConvertLoad(d, nextInvoiceNum).invoiceNumber) == Some((Invoice, nextInvoiceNum))
  {
    DocNumberRoundTrip(Invoice, nextInvoiceNum);
  }

  /** A copy of a record whose stored total is its items' total comes to the same total. */
  lemma DuplicateKeepsTotal(d: Document, nextInvoiceNum: nat, nextEstimateNum: nat, today: string, due: string)
    requires d.items.Some? && d.total == Some(TotalsOf(d.items.value, d.taxRate, d.discountRate).total)
    ensures var w := DuplicateLoad(d, nextInvoiceNum, nextEstimateNum, today, due);
      TotalsOf(w.items, w.taxRate, w.discountRate).total == d.total.value
  {
  }

  /** Apart from type, number and status, a converted estimate carries everything of the record. */
  lemma ConvertKeepsContent(d: Document, nextInvoiceNum: nat)
    ensures var w := ConvertLoad(d, nextInvoiceNum);
      Content(w).(kind := d.kind, invoiceNumber := d.invoiceNumber, status := d.status)
        == Unsaved(d).(items := Some(CopyItems(d.items)))
  {
  }

  /** The record `saveSettings` writes. */
  function SettingsOf(w: WorkDoc, nextInvoiceNum: nat, nextEstimateNum: nat): (s: Settings)
    ensures s.nextInvoiceNum == nextInvoiceNum && s.nextEstimateNum == nextEstimateNum
  {
    Settings(
      senderName := w.senderName, senderEmail := w.senderEmail, senderPhone := w.senderPhone,
      senderWebsite := w.senderWebsite, senderAddress := w.senderAddress,
      accentColor := w.accentColor, template := w.template, currency := w.currency,
      paymentBankName := w.paymentBankName, paymentAccountName := w.paymentAccountName,
      paymentAccountNumber := w.paymentAccountNumber, paymentRouting := w.paymentRouting,
      paymentUpi := w.paymentUpi, showPayment := w.showPayment,
      nextInvoiceNum := nextInvoiceNum, nextEstimateNum := nextEstimateNum, logo := w.logo)
  }

  /** The document fields a settings record does not touch. */
  predicate SameDocumentFields(a: WorkDoc, b: WorkDoc)
  {
    a.docType == b.docType && a.status == b.status &&
    a.clientName == b.clientName && a.clientEmail == b.clientEmail && a.clientAddress == b.clientAddress &&
    a.invoiceNumber == b.invoiceNumber && a.invoiceDate == b.invoiceDate && a.dueDate == b.dueDate &&
    a.items == b.items && a.taxRate == b.taxRate && a.discountRate == b.discountRate &&
    a.notes == b.notes && a.signature == b.signature
  }

  /**
   * `loadSettings`' copy of the settings fields into `state` (the counters
   * are the session's own fields); the document fields are left alone.
   */
  function ApplySettings(w: WorkDoc, s: Settings): (r: WorkDoc)
    ensures SameDocumentFields(r, w)
  {
    w.(senderName := s.senderName, senderEmail := s.senderEmail, senderPhone := s.senderPhone,
       senderWebsite := s.senderWebsite, senderAddress := s.senderAddress,
       accentColor := s.accentColor, template := s.template, currency := s.currency,
       paymentBankName := s.paymentBankName, paymentAccountName := s.paymentAccountName,
       paymentAccountNumber := s.paymentAccountNumber, paymentRouting := s.paymentRouting,
       paymentUpi := s.paymentUpi, showPayment := s.showPayment, logo := s.logo)
  }

  /** Loading the settings just saved changes nothing in the working document. */
  lemma SaveThenLoadSettings(w: WorkDoc, nextInvoiceNum: nat, nextEstimateNum: nat)
    ensures ApplySettings(w, SettingsOf(w, nextInvoiceNum, nextEstimateNum)) == w
  {
  }

  /** Saving settings right after loading them writes the same record back. */
  lemma LoadThenSaveSettings(w: WorkDoc, s: Settings)
    ensures SettingsOf(ApplySettings(w, s), s.nextInvoiceNum, s.nextEstimateNum) == s
  {
  }

  /** The client payload `saveCurrentDoc` builds: name, email and address, no phone. */
  function ClientOf(w: WorkDoc): (c: Client)
    ensures c.name == w.clientName && c.phone.None?
    ensures c.email == Some(w.clientEmail) && c.address == Some(w.clientAddress)
  {
    Client(w.clientName, Some(w.clientEmail), None, Some(w.clientAddress))
  }

  /**
   * `Object.assign(existing, payload)`: keys the payload has override, keys
   * it lacks keep the stored value.
   */
  function MergeClient(existing: Client, payload: Client): (r: Client)
    ensures r.name == payload.name
    ensures payload.email.Some? ==> r.email == payload.email
    ensures payload.email.None? ==> r.email == existing.email
    ensures payload.phone.Some? ==> r.phone == payload.phone
    ensures payload.phone.None? ==> r.phone == existing.phone
    ensures payload.address.Some? ==> r.address == payload.address
    ensures payload.address.None? ==> r.address == existing.address
  {
    Client(
      payload.name,
      if payload.email.Some? then payload.email else existing.email,
      if payload.phone.Some? then payload.phone else existing.phone,
      if payload.address.Some? then payload.address else existing.address)
  }
}
