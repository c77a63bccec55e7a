/**
 * The app's global `state` (the document being edited, the two number
 * counters and the key of the record being edited) and the operations of
 * the editor, the dashboard, the client list and backup over the database.
 * Values that come from the clock (`today`, `due`, `now`, `exportedAt`) and
 * the answers of dialogs (`confirmed`, the "save client" box) are
 * parameters.
 */
module App {
  import opened Wrappers
  import opened Text
  import opened Kinds
  import opened Totals
  import opened Numbering
  import opened Records
  import opened Store
  import opened Listing
  import opened Contacts

  /** A backup file's JSON object; a key the file lacks, or holds null, is `None`. */
  datatype Backup = Backup(
    version: nat, exportedAt: string,
    invoices: Option<seq<Keyed<Document>>>, clients: Option<seq<Keyed<Client>>>, settings: Option<Settings>)

  datatype ImportError = InvalidBackup

  datatype FormError = NameRequired

  /** `if (id)`: a missing key and the key 0 are both false. */
  predicate IdHint(id: Option<int>)
  {
    id.Some? && id.value != 0
  }

  /**
   * The fields both `clearForm` and `clearFormSilent` reset: client, items,
   * rates, notes, signature and status. What is left totals to zero; the
   * type, number, dates and everything the settings record holds are kept.
   */
  function Blanked(w: WorkDoc): (r: WorkDoc)
    ensures Normal(r) && r.status == Draft
    ensures r.items == [Blank] && r.taxRate == Some(0.0) && r.discountRate == Some(0.0)
    ensures r.clientName == "" && r.clientEmail == "" && r.clientAddress == "" && r.notes == "" && r.signature.None?
    ensures TotalsOf(r.items, r.taxRate, r.discountRate).total == 0.0
    ensures r.docType == w.docType
    ensures r.invoiceNumber == w.invoiceNumber && r.invoiceDate == w.invoiceDate && r.dueDate == w.dueDate
    ensures forall a: nat, b: nat {:trigger SettingsOf(r, a, b)} :: SettingsOf(r, a, b) == SettingsOf(w, a, b)
  {
    BlankAddsNothing([]);
    assert [] + [Blank] == [Blank];
    w.(clientName := "", clientEmail := "", clientAddress := "",
       items := [Blank], taxRate := Some(0.0), discountRate := Some(0.0), notes := "",
       signature := None, status := Draft)
  }

  /** Exporting a database and importing the file into a new one gives back every record in order. */
  lemma ExportImportRoundTrip<T>(rows: map<int, T>)
    ensures var e := Entries(rows);
      var back := Entries(Inserted(map[], 1, Values(WithKeys(e))));
      |back| == |e| && forall i :: 0 <= i < |e| ==> back[i] == Row(i + 1, e[i].value)
  {
    var e := Entries(rows);
    var vals := Values(WithKeys(e));
    EntriesOfInsertedIntoEmpty(vals);
  }

  /** The app's `state` together with its database. */
  class Session {
    const db: Database
    var work: WorkDoc
    var nextInvoiceNum: nat
    var nextEstimateNum: nat
    var editingInvoiceId: Option<int>

    ghost predicate Valid()
      reads this, db, db.invoices, db.clients
    {
      db.Valid()
    }

    /** The initial `state` over a freshly created database. */
    constructor ()
      ensures Valid() && fresh(db) && fresh(db.invoices) && fresh(db.clients)
      ensures work == InitialWork && nextInvoiceNum == 1 && nextEstimateNum == 1 && editingInvoiceId == None
      ensures db.invoices.rows == map[] && db.clients.rows == map[] && db.settings == None
    {
      db := new Database();
      work := InitialWork;
      nextInvoiceNum := 1;
      nextEstimateNum := 1;
      editingInvoiceId := None;
    }

    /** `saveSettings`: the settings record holds the sender, style and payment fields and the counters. */
    method SaveSettings()
      modifies db
      ensures db.settings == Some(SettingsOf(work, nextInvoiceNum, nextEstimateNum))
    {
      db.settings := Some(SettingsOf(work, nextInvoiceNum, nextEstimateNum));
    }

    /** `loadSettings`: with a stored record, its fields and counters replace the session's. */
    method LoadSettings()
      modifies this
      ensures db.settings.Some? ==>
                work == ApplySettings(old(work), db.settings.value)
                && nextInvoiceNum == db.settings.value.nextInvoiceNum
                && nextEstimateNum == db.settings.value.nextEstimateNum
      ensures db.settings.None? ==>
                work == old(work) && nextInvoiceNum == old(nextInvoiceNum) && nextEstimateNum == old(nextEstimateNum)
      ensures editingInvoiceId == old(editingInvoiceId)
    {
      if db.settings.Some? {
        var s := db.settings.value;
        work := ApplySettings(work, s);
        nextInvoiceNum := s.nextInvoiceNum;
        nextEstimateNum := s.nextEstimateNum;
      }
    }

    /**
     * `init` after opening the database: load the settings, then date the
     * form and number it from the invoice series.
     */
    method Start(today: string, due: string)
      modifies this
      ensures var loaded := if db.settings.Some? then ApplySettings(old(work), db.settings.value) else old(work);
        work == loaded.(invoiceDate := today, dueDate := due, invoiceNumber := DocNumber(Invoice, nextInvoiceNum))
      ensures db.settings.Some? ==>
                nextInvoiceNum == db.settings.value.nextInvoiceNum && nextEstimateNum == db.settings.value.nextEstimateNum
      ensures db.settings.None? ==> nextInvoiceNum == old(nextInvoiceNum) && nextEstimateNum == old(nextEstimateNum)
      ensures editingInvoiceId == old(editingInvoiceId)
      ensures ParseDocNumber(work.invoiceNumber) == Some((Invoice, nextInvoiceNum))
    {
      LoadSettings();
      work := work.(invoiceDate := today, dueDate := due, invoiceNumber := DocNumber(Invoice, nextInvoiceNum));
      DocNumberRoundTrip(Invoice, nextInvoiceNum);
    }

    /** The "add item" button: one blank row at the end; the totals do not change. */
    method AddItem()
      modifies this
      ensures work == old(work).(items := old(work).items + [Blank])
      ensures TotalsOf(work.items, work.taxRate, work.discountRate) == TotalsOf(old(work).items, work.taxRate, work.discountRate)
      ensures nextInvoiceNum == old(nextInvoiceNum) && nextEstimateNum == old(nextEstimateNum) && editingInvoiceId == old(editingInvoiceId)
    {
      BlankAddsNothing(work.items);
      work := work.(items := work.items + [Blank]);
    }

    /**
     * A row's remove button (disabled while only one row is left): the row
     * goes, the others keep their order, and the subtotal drops by its amount.
     */
    method RemoveItem(idx: nat)
      requires idx < |work.items| && |work.items| > 1
      modifies this
      ensures work == old(work).(items := old(work).items[..idx] + old(work).items[idx + 1..])
      ensures |work.items| == |old(work).items| - 1 && work.items != []
      ensures Subtotal(work.items) == Subtotal(old(work).items) - Amount(old(work).items[idx])
      ensures nextInvoiceNum == old(nextInvoiceNum) && nextEstimateNum == old(nextEstimateNum) && editingInvoiceId == old(editingInvoiceId)
    {
      SubtotalRemove(work.items, idx);
      work := work.(items := work.items[..idx] + work.items[idx + 1..]);
    }

    /** The invoice/estimate toggle: the type changes and the number is taken from that series. */
    method SetDocType(t: DocType)
      modifies this
      ensures work == old(work).(docType := t, invoiceNumber := NextNumber(t, nextInvoiceNum, nextEstimateNum))
      ensures ParseDocNumber(work.invoiceNumber) == Some((t, if t == Estimate then nextEstimateNum else nextInvoiceNum))
      ensures nextInvoiceNum == old(nextInvoiceNum) && nextEstimateNum == old(nextEstimateNum)
      ensures editingInvoiceId == old(editingInvoiceId)
    {
      work := work.(docType := t, invoiceNumber := NextNumber(t, nextInvoiceNum, nextEstimateNum));
      NextNumberParses(t, nextInvoiceNum, nextEstimateNum);
    }

    /**
     * `saveClient`: the first stored client whose name matches, ignoring
     * case, takes the payload's keys; with no match the payload is added.
     */
    method SaveClient(p: Client)
      requires Valid()
      modifies db.clients
      ensures Valid()
      ensures (db.clients.rows, db.clients.nextKey) == Upsert(old(db.clients.rows), old(db.clients.nextKey), p)
    {
      ghost var rows, nextKey := db.clients.rows, db.clients.nextKey;
      var all := db.clients.GetAll();
      var found := FindByName(all, p.name);
      if found.Some? {
        var existing := all[found.value];
        EntriesSpec(rows);
        var key := db.clients.Put(Some(existing.id), MergeClient(existing.value, p));
      } else {
        var key := db.clients.Put(None, p);
      }
      UpsertByFirstMatch(rows, nextKey, p);
    }

    /**
     * `saveCurrentDoc`: the working document, its total and the save time
     * are written under the edited record's key, or a new key; the editor
     * then holds that key, so the next save updates the same record. The
     * counter of the document's series advances on every save, updates
     * included, and the settings are saved with it.
     */
    method SaveCurrentDoc(saveClientChecked: bool, now: int) returns (id: int)
      requires Valid()
      modifies this, db, db.invoices, db.clients
      ensures Valid()
      ensures db.invoices.rows == old(db.invoices.rows)[id := Snapshot(work, TotalsOf(work.items, work.taxRate, work.discountRate).total, now)]
      ensures IdHint(old(editingInvoiceId)) ==> id == old(editingInvoiceId).value
      ensures !IdHint(old(editingInvoiceId)) ==> id == old(db.invoices.nextKey) && id !in old(db.invoices.rows)
      ensures IdHint(old(editingInvoiceId)) ==>
                db.invoices.nextKey == (if id >= old(db.invoices.nextKey) then id + 1 else old(db.invoices.nextKey))
      ensures !IdHint(old(editingInvoiceId)) ==> db.invoices.nextKey == old(db.invoices.nextKey) + 1
      ensures db.invoices.rows.Keys == old(db.invoices.rows).Keys + {id}
      ensures editingInvoiceId == Some(id) && IdHint(editingInvoiceId)
      ensures work == old(work)
      ensures nextInvoiceNum == old(nextInvoiceNum) + (if work.docType == Estimate then 0 else 1)
      ensures nextEstimateNum == old(nextEstimateNum) + (if work.docType == Estimate then 1 else 0)
      ensures db.settings == Some(SettingsOf(work, nextInvoiceNum, nextEstimateNum))
      ensures saveClientChecked && work.clientName != "" ==>
                (db.clients.rows, db.clients.nextKey) == Upsert(old(db.clients.rows), old(db.clients.nextKey), ClientOf(work))
      ensures !(saveClientChecked && work.clientName != "") ==>
                db.clients.rows == old(db.clients.rows) && db.clients.nextKey == old(db.clients.nextKey)
    {
      id := StoreWork(now);
      if saveClientChecked && work.clientName != "" {
        SaveClient(ClientOf(work));
      }
      AdvanceCounter();
    }

    /** The first half of `saveCurrentDoc`: the snapshot is written and the editor bound to its key. */
    method StoreWork(now: int) returns (id: int)
      requires Valid()
      modifies this, db.invoices
      ensures Valid()
      ensures db.invoices.rows == old(db.invoices.rows)[id := Snapshot(work, TotalsOf(work.items, work.taxRate, work.discountRate).total, now)]
      ensures IdHint(old(editingInvoiceId)) ==> id == old(editingInvoiceId).value
      ensures !IdHint(old(editingInvoiceId)) ==> id == old(db.invoices.nextKey) && id !in old(db.invoices.rows)
      ensures IdHint(old(editingInvoiceId)) ==>
                db.invoices.nextKey == (if id >= old(db.invoices.nextKey) then id + 1 else old(db.invoices.nextKey))
      ensures !IdHint(old(editingInvoiceId)) ==> db.invoices.nextKey == old(db.invoices.nextKey) + 1
      ensures editingInvoiceId == Some(id) && IdHint(editingInvoiceId)
      ensures work == old(work) && nextInvoiceNum == old(nextInvoiceNum) && nextEstimateNum == old(nextEstimateNum)
    {
      var t := CalcTotals(work.items, work.taxRate, work.discountRate);
      var doc := Snapshot(work, t.total, now);
      var key := if IdHint(editingInvoiceId) then editingInvoiceId else None;
      id := db.invoices.Put(key, doc);
      editingInvoiceId := Some(id);
    }

    /** The last step of `saveCurrentDoc`: the document's series advances and the settings are saved. */
    method AdvanceCounter()
      modifies this, db
      ensures nextInvoiceNum == old(nextInvoiceNum) + (if work.docType == Estimate then 0 else 1)
      ensures nextEstimateNum == old(nextEstimateNum) + (if work.docType == Estimate then 1 else 0)
      ensures db.settings == Some(SettingsOf(work, nextInvoiceNum, nextEstimateNum))
      ensures work == old(work) && editingInvoiceId == old(editingInvoiceId)
    {
      if work.docType == Estimate {
        nextEstimateNum := nextEstimateNum + 1;
      } else {
        nextInvoiceNum := nextInvoiceNum + 1;
      }
      SaveSettings();
    }

    /**
     * `refreshDashboard`: the figures over all stored documents and the
     * newest-first list narrowed by the filter button and the search text.
     */
    method RefreshDashboard(f: Filter, search: string) returns (stats: DashStats, shown: seq<Row<Document>>)
      ensures stats == Stats(Entries(db.invoices.rows))
      ensures shown == Listing.Listing(Entries(db.invoices.rows), f, search)
    {
      var all := db.invoices.GetAll();
      var sorted := SortDesc(all);
      stats := Stats(sorted);
      StatsPermutation(sorted, all);
      shown := Narrow(sorted, f, search);
    }

    /**
     * `editDoc`: a stored record is opened for editing under its key; a
     * missing key changes nothing. The record is copied with its own type
     * (`EditLoad`), not with the session's as the code does
     * (`EditLoadAsWritten`).
     */
    method EditDoc(id: int)
      modifies this
      ensures db.invoices.rows == old(db.invoices.rows) && db.clients.rows == old(db.clients.rows)
      ensures id in db.invoices.rows ==> work == EditLoad(db.invoices.rows[id]) && editingInvoiceId == Some(id)
      ensures id !in db.invoices.rows ==> work == old(work) && editingInvoiceId == old(editingInvoiceId)
      ensures nextInvoiceNum == old(nextInvoiceNum) && nextEstimateNum == old(nextEstimateNum)
    {
      var d := db.invoices.Get(id);
      if d.Some? {
        var w := EditLoad(d.value);
        work := w;
        editingInvoiceId := Some(id);
      }
    }

    /**
     * `duplicateDoc`: a copy of a stored record, dated today and numbered
     * anew, to be saved as a new record. The copy keeps the record's own
     * type and series (`DuplicateLoad`), not the session's as the code does
     * (`DuplicateLoadAsWritten`).
     */
    method DuplicateDoc(id: int, today: string, due: string)
      modifies this
      ensures db.invoices.rows == old(db.invoices.rows) && db.clients.rows == old(db.clients.rows)
      ensures id in db.invoices.rows ==>
                work == DuplicateLoad(db.invoices.rows[id], nextInvoiceNum, nextEstimateNum, today, due) && editingInvoiceId == None
      ensures id !in db.invoices.rows ==> work == old(work) && editingInvoiceId == old(editingInvoiceId)
      ensures nextInvoiceNum == old(nextInvoiceNum) && nextEstimateNum == old(nextEstimateNum)
    {
      var d := db.invoices.Get(id);
      if d.Some? {
        var w := DuplicateLoad(d.value, nextInvoiceNum, nextEstimateNum, today, due);
        work := w;
        editingInvoiceId := None;
      }
    }

    /** `deleteDoc`: the record goes only when the user confirms; the editor's key is left as it is. */
    method DeleteDoc(id: int, confirmed: bool)
      requires Valid()
      modifies db.invoices
      ensures Valid()
      ensures db.invoices.rows == if confirmed then old(db.invoices.rows) - {id} else old(db.invoices.rows)
      ensures db.invoices.nextKey == old(db.invoices.nextKey)
    {
      if confirmed {
        db.invoices.Delete(id);
      }
    }

    /** `convertToInvoice`: a stored record (an estimate) reopened as a new invoice. */
    method ConvertToInvoice(id: int)
      modifies this
      ensures db.invoices.rows == old(db.invoices.rows) && db.clients.rows == old(db.clients.rows)
      ensures id in db.invoices.rows ==> work == ConvertLoad(db.invoices.rows[id], nextInvoiceNum) && editingInvoiceId == None
      ensures id !in db.invoices.rows ==> work == old(work) && editingInvoiceId == old(editingInvoiceId)
      ensures nextInvoiceNum == old(nextInvoiceNum) && nextEstimateNum == old(nextEstimateNum)
    {
      var d := db.invoices.Get(id);
      if d.Some? {
        var w := ConvertLoad(d.value, nextInvoiceNum);
        work := w;
        editingInvoiceId := None;
      }
    }

    /**
     * The client form's save button: the trimmed name is required; the
     * record is written whole, under the edited client's key or a new one.
     */
    method SaveClientForm(name: string, email: string, phone: string, address: string, editingClientId: Option<int>)
      returns (r: Result<int, FormError>)
      requires Valid()
      modifies db.clients
      ensures Valid()
      ensures Trim(name) == "" ==>
                r == Failure(NameRequired)
                && db.clients.rows == old(db.clients.rows) && db.clients.nextKey == old(db.clients.nextKey)
      ensures Trim(name) != "" ==>
                r.Success?
                && db.clients.rows == old(db.clients.rows)[r.value := Client(Trim(name), Some(Trim(email)), Some(Trim(phone)), Some(Trim(address)))]
      ensures Trim(name) != "" && IdHint(editingClientId) ==> r == Success(editingClientId.value)
      ensures Trim(name) != "" && !IdHint(editingClientId) ==> r == Success(old(db.clients.nextKey)) && r.value !in old(db.clients.rows)
      ensures Trim(name) != "" && IdHint(editingClientId) ==>
                db.clients.nextKey == (if r.value >= old(db.clients.nextKey) then r.value + 1 else old(db.clients.nextKey))
      ensures Trim(name) != "" && !IdHint(editingClientId) ==> db.clients.nextKey == old(db.clients.nextKey) + 1
    {
      var n := Trim(name);
      if n == "" {
        return Failure(NameRequired);
      }
      var data := Client(n, Some(Trim(email)), Some(Trim(phone)), Some(Trim(address)));
      var key := if IdHint(editingClientId) then editingClientId else None;
      var id := db.clients.Put(key, data);
      r := Success(id);
    }

    /** A client card's delete button: the client goes only when the user confirms. */
    method DeleteClient(id: int, confirmed: bool)
      requires Valid()
      modifies db.clients
      ensures Valid()
      ensures db.clients.rows == if confirmed then old(db.clients.rows) - {id} else old(db.clients.rows)
      ensures db.clients.nextKey == old(db.clients.nextKey)
    {
      if confirmed {
        db.clients.Delete(id);
      }
    }

    /** `exportAllData`: every document and client with its key, and the settings record if there is one. */
    method ExportAllData(exportedAt: string) returns (b: Backup)
      ensures b.version == 4 && b.exportedAt == exportedAt
      ensures b.invoices == Some(WithKeys(Entries(db.invoices.rows)))
      ensures b.clients == Some(WithKeys(Entries(db.clients.rows)))
      ensures b.settings == db.settings
    {
      var invoices := db.invoices.GetAll();
      var clients := db.clients.GetAll();
      b := Backup(4, exportedAt, Some(WithKeys(invoices)), Some(WithKeys(clients)), db.settings);
    }

    /**
     * `importData`: a file with neither documents nor clients is refused and
     * changes nothing. Otherwise its documents and clients are added under
     * new keys (their own keys are dropped), in file order, its settings
     * replace the stored ones and are loaded, and the result is the number
     * of documents imported.
     */
    method ImportData(data: Backup) returns (r: Result<nat, ImportError>)
      requires Valid()
      modifies this, db, db.invoices, db.clients
      ensures Valid()
      ensures editingInvoiceId == old(editingInvoiceId)
      ensures data.invoices.None? && data.clients.None? ==>
                r == Failure(InvalidBackup)
                && db.invoices.rows == old(db.invoices.rows) && db.invoices.nextKey == old(db.invoices.nextKey)
                && db.clients.rows == old(db.clients.rows) && db.clients.nextKey == old(db.clients.nextKey)
                && db.settings == old(db.settings) && work == old(work)
                && nextInvoiceNum == old(nextInvoiceNum) && nextEstimateNum == old(nextEstimateNum)
      ensures data.invoices.Some? || data.clients.Some? ==>
                r == Success(if data.invoices.Some? then |data.invoices.value| else 0)
      ensures data.invoices.Some? ==>
                db.invoices.rows == Inserted(old(db.invoices.rows), old(db.invoices.nextKey), Values(data.invoices.value))
                && db.invoices.nextKey == old(db.invoices.nextKey) + |data.invoices.value|
      ensures data.invoices.None? ==> db.invoices.rows == old(db.invoices.rows) && db.invoices.nextKey == old(db.invoices.nextKey)
      ensures data.clients.Some? ==>
                db.clients.rows == Inserted(old(db.clients.rows), old(db.clients.nextKey), Values(data.clients.value))
                && db.clients.nextKey == old(db.clients.nextKey) + |data.clients.value|
      ensures data.clients.None? ==> db.clients.rows == old(db.clients.rows) && db.clients.nextKey == old(db.clients.nextKey)
      ensures (data.invoices.Some? || data.clients.Some?) && data.settings.Some? ==>
                db.settings == data.settings && work == ApplySettings(old(work), data.settings.value)
                && nextInvoiceNum == data.settings.value.nextInvoiceNum && nextEstimateNum == data.settings.value.nextEstimateNum
      ensures data.settings.None? ==>
                db.settings == old(db.settings) && work == old(work)
                && nextInvoiceNum == old(nextInvoiceNum) && nextEstimateNum == old(nextEstimateNum)
    {
      if data.invoices.None? && data.clients.None? {
        return Failure(InvalidBackup);
      }
      var count := 0;
      if data.invoices.Some? {
        count := db.invoices.PutAll(Values(data.invoices.value));
      }
      if data.clients.Some? {
        var added := db.clients.PutAll(Values(data.clients.value));
      }
      if data.settings.Some? {
        db.settings := data.settings;
        LoadSettings();
      }
      r := Success(count);
    }

    /** `clearForm`: a blank form numbered from the current type's series, not bound to any record. */
    method ClearForm()
      modifies this
      ensures work == Blanked(old(work)).(invoiceNumber := NextNumber(old(work).docType, nextInvoiceNum, nextEstimateNum))
      ensures editingInvoiceId == None
      ensures nextInvoiceNum == old(nextInvoiceNum) && nextEstimateNum == old(nextEstimateNum)
      ensures TotalsOf(work.items, work.taxRate, work.discountRate).total == 0.0
      ensures ParseDocNumber(work.invoiceNumber) == Some((work.docType, if work.docType == Estimate then nextEstimateNum else nextInvoiceNum))
    {
      work := Blanked(work).(invoiceNumber := NextNumber(work.docType, nextInvoiceNum, nextEstimateNum));
      editingInvoiceId := None;
      NextNumberParses(work.docType, nextInvoiceNum, nextEstimateNum);
    }

    /** `clearFormSilent`: a blank form dated today and numbered from the invoice series, whatever the type. */
    method ClearFormSilent(today: string, due: string)
      modifies this
      ensures work == Blanked(old(work)).(invoiceDate := today, dueDate := due, invoiceNumber := DocNumber(Invoice, nextInvoiceNum))
      ensures editingInvoiceId == None
      ensures nextInvoiceNum == old(nextInvoiceNum) && nextEstimateNum == old(nextEstimateNum)
    {
      work := Blanked(work).(invoiceDate := today, dueDate := due, invoiceNumber := DocNumber(Invoice, nextInvoiceNum));
      editingInvoiceId := None;
    }

    /** The dashboard's "new invoice" button. */
    method NewInvoice(today: string, due: string)
      modifies this
      ensures work == Blanked(old(work)).(docType := Invoice, invoiceDate := today, dueDate := due, invoiceNumber := DocNumber(Invoice, nextInvoiceNum))
      ensures ParseDocNumber(work.invoiceNumber) == Some((Invoice, nextInvoiceNum))
      ensures TotalsOf(work.items, work.taxRate, work.discountRate).total == 0.0
      ensures editingInvoiceId == None
      ensures nextInvoiceNum == old(nextInvoiceNum) && nextEstimateNum == old(nextEstimateNum)
    {
      ClearFormSilent(today, due);
      work := work.(docType := Invoice);
      DocNumberRoundTrip(Invoice, nextInvoiceNum);
    }

    /** The dashboard's "new estimate" button: the number comes from the estimate series. */
    method NewEstimate(today: string, due: string)
      modifies this
      ensures work == Blanked(old(work)).(docType := Estimate, invoiceDate := today, dueDate := due, invoiceNumber := DocNumber(Estimate, nextEstimateNum))
      ensures ParseDocNumber(work.invoiceNumber) == Some((Estimate, nextEstimateNum))
      ensures TotalsOf(work.items, work.taxRate, work.discountRate).total == 0.0
      ensures editingInvoiceId == None
      ensures nextInvoiceNum == old(nextInvoiceNum) && nextEstimateNum == old(nextEstimateNum)
    {
      ClearFormSilent(today, due);
      work := work.(docType := Estimate, invoiceNumber := DocNumber(Estimate, nextEstimateNum));
      DocNumberRoundTrip(Estimate, nextEstimateNum);
    }
  }
}
