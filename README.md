# QuickBill document state and persistence, in Dafny

QuickBill is a single-page invoice and estimate editor. Its `app.js` keeps
one global `state` object: the document being edited, two number counters
(`nextInvoiceNum`, `nextEstimateNum`) and `editingInvoiceId`, the key of the
stored record being edited. It persists documents, clients and a settings
record in an IndexedDB database. This project models that core.

- `Session` (module `App`) is the `state` object together with its database.
  Its methods are the save, load, duplicate, convert, delete, client,
  backup, clear-form and line-item operations.
- `Table` and `Database` (module `Store`) are the IndexedDB object stores.
  Each store is a map from integer keys to records with an auto-increment
  key generator. `settings` holds one record.
- `Totals` is `calcTotals`. `Numbering` builds the `INV-`/`EST-` document
  numbers and reads them back.
- `Records` holds the record types and the field copies between them: the
  save snapshot, the copies into `state` made by edit, duplicate and
  convert, and the settings record. Each copy exists twice: as the code
  writes it, keeping the session's `docType`, and corrected, restoring the
  record's own type. The session uses the corrected copies (see Findings).
- `Listing` is the dashboard: sort newest first, filter, search, and the
  four figures above the list.
- `Contacts` is the case-insensitive client upsert.
- `Text` holds the ASCII string helpers: lower case, `includes`, decimal
  digits, `padStart` and `trim`.

Money is `real`, so the totals identities are exact. Values the app takes
from the clock are parameters: today's date, the due date, the save time
and the export time. So are the user's answer to a confirmation dialog and
the state of the "save client" checkbox.

## Model

| member | source | states |
|---|---|---|
| Text.Lower | app.js:481 | lower-casing keeps the length and maps each character through `LowerChar` |
| Text.ContainsIff | app.js:488-490 | `Contains(text, p)` holds exactly when `p` occurs at some position of `text` |
| Text.DecimalSpec | app.js:552 | `String(n)` is non-empty, digits only, has no leading zero and reads back as `n` |
| Text.PadStartSpec | app.js:552 | `padStart` reaches the width, ends with the original string and puts only the fill in front |
| Text.ParseIgnoresLeadingZeros | app.js:552 | leading zeros do not change the value of a digit string |
| Text.TrimStart | app.js:1029 | the result is a suffix, everything removed is white space, and it does not start with white space |
| Text.TrimEnd | app.js:1029 | the result is a prefix, everything removed is white space, and it does not end with white space |
| Text.TrimSpec | app.js:1029 | the trimmed string is a slice of the input with no white space at either end, and it is empty exactly when the input is all white space |
| Text.TrimIdempotent | app.js:1029 | trimming twice is trimming once |
| Totals.SubtotalConcat | app.js:250 | the subtotal of two item lists joined is the sum of their subtotals |
| Totals.BlankAddsNothing | app.js:976 | appending the blank item `{desc:'', qty:1, rate:0}` leaves the subtotal unchanged |
| Totals.SubtotalRemove | app.js:295 | removing item `i` lowers the subtotal by exactly that item's amount |
| Totals.SubtotalNonNegative | app.js:250 | with non-negative quantities and rates the subtotal is non-negative |
| Totals.TotalsOf | app.js:248-255 | `sub` is the sum of `qty * rate` with missing values as 0; `disc` is the discount percentage of `sub`, `afterDisc = sub - disc`, `tax` is the tax percentage of `afterDisc`, and `total = afterDisc + tax`; a missing rate counts as 0 |
| Totals.TotalClosedForm | app.js:248-255 | `total == sub * (1 - discount/100) * (1 + tax/100)`, with missing rates as 0 |
| Totals.TotalNonNegative | app.js:248-255 | non-negative items, a discount between 0 and 100 and a tax of at least -100 give a non-negative total |
| Totals.CalcTotals | app.js:248-255 | `calcTotals` returns exactly `TotalsOf`: the subtotal, the discount on it, the tax on what remains and their total |
| Totals.SumAmounts | app.js:249-250 | the `forEach` accumulation returns the subtotal `Subtotal(items)` |
| Numbering.DocNumberShape | app.js:551-555 | a number is `EST-` or `INV-` followed by digits only, at least three of them, exactly three while the counter is below 1000 |
| Numbering.DecimalLength | app.js:552 | counters below 1000 have at most three decimal digits |
| Numbering.NextNumberParses | app.js:551-555 | the number proposed for a type reads back as that type's series and that series' counter |
| Numbering.DocNumberRoundTrip | app.js:551-555 | `ParseDocNumber` inverts number generation for every series and counter |
| Numbering.PaddedReadsBack | app.js:552 | zero-padding to three characters keeps a digit string's value |
| Numbering.DocNumberInjective | app.js:551-555 | two different (series, counter) pairs never produce the same number |
| Records.Content | app.js:439-450 | the save snapshot carries no cached total and no save time of its own |
| Records.Snapshot | app.js:439-452 | the saved record carries the given total and save time and the working document's type and items |
| Records.SnapshotContent | app.js:439-452 | apart from `total` and `savedAt`, the saved record is exactly the working document's content |
| Records.EditAfterSave | app.js:438-452 | opening a just-saved record for editing gives back the working document that was saved |
| Records.LoadStored | app.js:534 | the corrected copy into `state` restores the type from the record's `type` and installs the given items |
| Records.LoadStoredKeepsContent | app.js:534 | the corrected copy carries every document field of the record |
| Records.LoadStoredAsWritten | app.js:534 | the key-by-key copy as written overwrites every document field of `state` except `docType`, which keeps the session's value; so it is the corrected copy with the session's type |
| Records.EditItems | app.js:538 | `editDoc` installs the stored item list when it is present and non-empty, and exactly one blank item otherwise |
| Records.CopyItems | app.js:557 | duplicate and convert keep the stored list, even an empty one, and use one blank item only when `items` is missing |
| Records.EditLoad | app.js:531-538 | the corrected `editDoc` copy: the opened document has the record's own type, a non-empty item list, and both rates set, with a missing rate as 0 |
| Records.EditReproduces | app.js:531-538 | with the corrected copy, a complete record opened and saved again is reproduced field for field |
| Records.EditLoadAsWritten | app.js:534-538 | as written, `editDoc` yields the corrected result with the session's old `docType` |
| Records.EditAsWrittenChangesType | app.js:534 | an estimate opened while the editor holds an invoice would be saved back as an invoice; the corrected copy saves it unchanged |
| Records.DuplicateLoad | app.js:543-558 | the corrected duplicate has the record's type, status draft, the new dates and the stored items |
| Records.DuplicateKeepsContent | app.js:546-558 | apart from number, dates and status, the corrected duplicate carries every field of the record, its type included |
| Records.DuplicateLoadAsWritten | app.js:546-555 | `duplicateDoc` as written: the corrected duplicate with the session's `docType` and a number from the session type's series |
| Records.DuplicateAsWrittenChangesType | app.js:546-555 | duplicating a stored estimate while the editor holds an invoice gives, as written, an invoice numbered from the invoice series; the corrected copy is an estimate numbered from the estimate series |
| Records.DuplicateNumbered | app.js:551-555 | the corrected duplicate takes the next number of the record's own series |
| Records.DuplicateKeepsTotal | app.js:452 | a duplicate of a record whose cached total matches its items totals to that cached amount |
| Records.ConvertLoad | app.js:570-578 | a converted record is an invoice with status draft, the stored items and the record's own dates |
| Records.ConvertNumbered | app.js:576 | a converted record always takes the next number of the invoice series |
| Records.ConvertKeepsContent | app.js:573-578 | apart from type, number and status, a converted record carries every field of the record |
| Records.SettingsOf | app.js:87-100 | the settings record holds the session's two counters |
| Records.ApplySettings | app.js:103-108 | loading settings leaves every document field (client, number, dates, items, rates, notes, signature, type, status) unchanged |
| Records.SaveThenLoadSettings | app.js:87-108 | loading the settings just saved changes nothing in the working document |
| Records.LoadThenSaveSettings | app.js:87-108 | saving settings right after loading a record writes back that same record |
| Records.ClientOf | app.js:457 | the client payload carries the document's client name, email and address, and has no phone key |
| Records.MergeClient | app.js:589 | `Object.assign`: keys present in the payload override, absent keys keep the stored value |
| Store.EntriesSpec | app.js:69-75 | `getAll` lists every record exactly once, with its key, in ascending key order |
| Store.InsertedSpec | app.js:770-780 | records put one by one without keys go under the next generated keys in order, and existing records are untouched |
| Store.InsertedSize | app.js:770-780 | the store grows by exactly the number of records put |
| Store.InsertedSnoc | app.js:770-780 | putting one more record extends the insertion by the next key |
| Store.EntriesOfInsertedIntoEmpty | app.js:770-780 | records put into an empty store come back from `getAll` in the order they were put, under keys 1, 2, 3, ... |
| Store.Table.constructor | app.js:39-46 | a new object store is empty and its key generator starts at 1 |
| Store.Table.Put | app.js:52-59 | `put` writes under the record's own key, or under the generated key when the record has none; the generator stays ahead of every key |
| Store.Table.PutAll | app.js:770-780 | the import loop's puts equal `Inserted` and return the number of records put |
| Store.Table.Get | app.js:61-67 | `get` returns the record under the key, or nothing |
| Store.Table.GetAll | app.js:69-75 | `getAll` returns `Entries` of the store |
| Store.Table.Delete | app.js:77-84 | `delete` removes the key and leaves the generator alone |
| Store.Database.constructor | app.js:36-46 | a new database has empty `invoices` and `clients` stores and no settings record |
| Listing.SelectCount | app.js:483-491 | a filter keeps every row that passes as often as it occurs, and no other row |
| Listing.SelectMembers | app.js:483-491 | a row is in a filter's result exactly when it is in the input and passes |
| Listing.SelectSorted | app.js:470-491 | filtering a newest-first list leaves it newest first |
| Listing.Insert | app.js:470 | inserting into a newest-first list keeps it sorted and adds exactly that row |
| Listing.SortDesc | app.js:470 | the sort is newest first by `savedAt` (missing as 0) and a permutation of its input |
| Listing.NarrowKeeps | app.js:480-491 | filter then search keeps the order and keeps exactly the shown rows, each as often as stored |
| Listing.Listing | app.js:469-491 | the dashboard list is newest first and holds exactly the stored rows that pass the filter button and the search |
| Listing.Stats | app.js:471-474 | `total` counts every document; `paid` counts the invoices (non-estimates) whose status is paid, `pending` the other invoices, and `revenue` sums the cached totals of exactly the paid invoices; `paid`, `pending` and the estimates make up `total` |
| Listing.SelectSplits | app.js:472-473 | two complementary filters split a list between them |
| Listing.SelectSelect | app.js:472-473 | filtering by one criterion and then another keeps exactly the rows that pass both |
| Listing.RevenueConcat | app.js:474 | revenue of joined lists is the sum of their revenues |
| Listing.RevenuePermutation | app.js:474 | revenue does not depend on the order of the rows |
| Listing.SelectPermutation | app.js:483-491 | reordering the input reorders but does not change what a filter keeps |
| Listing.StatsPermutation | app.js:470-474 | the four figures are the same before and after sorting |
| Contacts.FindByName | app.js:587 | `find` returns the first client whose name matches ignoring case, and nothing exactly when none matches |
| Contacts.UpsertShape | app.js:585-594 | after saving a client: on a match no key is added, otherwise exactly one fresh key; some client carries the payload's name; non-matching clients are untouched |
| Contacts.FindFirstIsLeastMatch | app.js:586-587 | the first match in `getAll` order is the matching client with the smallest key |
| Contacts.UpsertByFirstMatch | app.js:585-594 | the upsert specification is what the code does: merge into the first match under its key, or put the payload under the next key |
| Contacts.UpsertKeepsNamesUnique | app.js:585-594 | saving a client never creates a second client with the same name ignoring case |
| Contacts.MergeIdempotent | app.js:589 | merging the same payload twice is merging it once |
| Contacts.UpsertIdempotent | app.js:585-594 | saving the same client twice leaves the store as saving it once |
| App.Blanked | app.js:796-799 | a cleared form has status draft, exactly one blank item, both rates 0, empty client fields and notes, no signature, and totals to 0; it keeps the type, number, dates and every sender, style, payment and logo field |
| App.ExportImportRoundTrip | app.js:744-749 | importing an export into an empty database gives back every record in order under keys 1, 2, 3, ... |
| App.Session.constructor | app.js:14-32 | the initial `state`: the initial document, both counters at 1, no record being edited, over an empty database |
| App.Session.SaveSettings | app.js:87-101 | the settings record becomes `SettingsOf` the session |
| App.Session.LoadSettings | app.js:103-108 | with a stored record, its fields and counters replace the session's; without one nothing changes |
| App.Session.Start | app.js:817-830 | after loading settings the form is dated and numbered from the invoice series, and the number reads back as the invoice counter; both counters come from the settings record when there is one and are unchanged otherwise; the edited key is unchanged |
| App.Session.AddItem | app.js:975-977 | one blank item is appended, the totals do not change, and the counters and the edited key stay as they were |
| App.Session.RemoveItem | app.js:292-298 | with more than one item (the button is disabled at one, app.js:271), the chosen one is spliced out, the others keep their order, the subtotal drops by its amount, and the counters and the edited key stay as they were |
| App.Session.SetDocType | app.js:867-874 | the type changes, and the number comes from that type's series and reads back as its counter |
| App.Session.SaveClient | app.js:585-594 | the clients store becomes `Upsert` of the old one |
| App.Session.SaveCurrentDoc | app.js:438-465 | the snapshot with its computed total is put under the edited key or a fresh one; the key set grows by at most that key; the key generator moves past the key (by one for a fresh key); the editor is bound to the key; the client is upserted when the box is ticked and a name is set; exactly one counter advances; settings are saved |
| App.Session.StoreWork | app.js:438-456 | the snapshot is put under the edited key, or a fresh key when there is none; the key generator moves past that key (by one for a fresh key); the editor is bound to it |
| App.Session.AdvanceCounter | app.js:460-462 | the counter of the document's series advances by one, the other stays, and the settings record is saved |
| App.Session.RefreshDashboard | app.js:469-492 | the figures are `Stats` of the stored rows and the list is `Listing` of them; nothing is written |
| App.Session.EditDoc | app.js:531-541 | a stored record is opened under its key as the corrected copy `EditLoad` (the record's own type); a missing key changes nothing; the stores and counters are unchanged |
| App.Session.DuplicateDoc | app.js:543-561 | a stored record is opened as the corrected copy `DuplicateLoad` (the record's own type and series) with no key bound; a missing key changes nothing; the stores and counters are unchanged |
| App.Session.DeleteDoc | app.js:563-568 | the record is removed only when the user confirms |
| App.Session.ConvertToInvoice | app.js:570-582 | a stored record is opened as `ConvertLoad` with no key bound; a missing key changes nothing; the stores are unchanged |
| App.Session.SaveClientForm | app.js:1028-1039 | an empty trimmed name is refused and nothing is written; otherwise the trimmed record is written whole under the edited key or a fresh one, and the key generator moves past that key (by one for a fresh key) |
| App.Session.DeleteClient | app.js:620-624 | the client is removed only when the user confirms |
| App.Session.ExportAllData | app.js:744-749 | the backup is version 4 and holds every document and client with its key, plus the settings record |
| App.Session.ImportData | app.js:763-791 | a file with neither documents nor clients is refused and changes nothing; otherwise records are added under fresh keys in file order, the settings replace and reload the stored ones, and the count is the number of documents |
| App.Session.ClearForm | app.js:794-816 | the form is blanked, unbound from any record, totals to 0, and is numbered from the current type's series |
| App.Session.ClearFormSilent | app.js:1067-1076 | the form is blanked, dated, unbound, and numbered from the invoice series whatever its type |
| App.Session.NewInvoice | app.js:1006 | a blank invoice numbered from the invoice series, totalling 0 |
| App.Session.NewEstimate | app.js:1007-1012 | a blank estimate numbered from the estimate series, totalling 0 |

## Left out

- DOM, rendering and events: `renderPreview`, `renderLineItems` markup, `populateForm`, tabs, modals and toasts. Only their writes to `state` are modelled.
- The signature canvas, `downloadPDF` and `applyAccentColor`. These are drawing, external libraries and colour arithmetic.
- Asynchronous behaviour and store failures. Every store call is modelled as completing immediately and successfully, so a failed `put` in the middle of an import is not modelled. An interleaving of two operations is not modelled either.
- `debounceSaveSettings` (a timer) and `migrateFromLocalStorage` (localStorage I/O).
- `init`'s first-visit sample data: it is fixed demo content.
- `JSON.parse` of a backup file. Its result is the `Backup` value, and a file that is not JSON is not modelled.
- Records in a backup file that lack fields. Every stored record has every key, and `None` is a stored `null`. The key-by-key copy of app.js:534/546/573 leaves the session's value in place for a key the record lacks, for example an absent `taxRate`. That case is not modelled.
- Stored documents with extra keys. An imported document that carries a key of `state`, such as `docType` or `nextInvoiceNum`, would have it copied into `state` by app.js:534/546/573. The `Document` datatype has no such keys.
- Records.DuplicateLoad: states the corrected copy, with the record's own type. The code keeps the session's type; that is `Records.DuplicateLoadAsWritten`.
- Records.DuplicateNumbered: states the corrected copy's number, from the record's own series. The code numbers from the session type's series (see Findings).
- Records.DuplicateKeepsContent: states the corrected copy, which keeps the record's type. The code's copy keeps the session's type instead.
- Records.EditLoad: states the corrected copy, with the record's own type. The code keeps the session's type; that is `Records.EditLoadAsWritten`.
- Records.EditReproduces: holds for the corrected copy only. As written, a record whose type differs from the session's comes back with the session's type (`Records.EditAsWrittenChangesType`).
- App.Session.EditDoc: installs the corrected copy `EditLoad`, not the code's `EditLoadAsWritten`.
- App.Session.DuplicateDoc: installs the corrected copy `DuplicateLoad`, not the code's `DuplicateLoadAsWritten`.
- Imported clients without a `name`: in the source, `saveClient`'s `find` would throw on them.
- Settings records with extra keys: `loadSettings` copies only the settings fields into `state`.
- Dates are opaque strings and `savedAt` is an integer time. The ISO-string form and its parsing by `new Date` are not modelled.
- Text.Lower: lower-cases ASCII letters only. The full Unicode mapping of `toLowerCase` is not modelled.
- Text.TrimSpec: trims ASCII white space only. The Unicode space characters `trim` also removes are not modelled.
- Editing one field of a line item (`desc`, `qty`, `rate`). It is a plain field write into `items`.
- The picker that copies a saved client into the form.
- `openClientModal`'s read of the client being edited.
- Records are values. So the model has no aliasing: `[...state.items]` and the `JSON` deep copy both become plain sequence values.
- Listing.SortDesc: stability of `Array.prototype.sort` is not proved. The sort is proved to be ordered and a permutation only.
- The number shown in the dashboard and the `toFixed` rounding of amounts are display only.

## Findings

| source | as written | input that shows it | evidently intended | confidence | as-written member | corrected member |
|---|---|---|---|---|---|---|
| app.js:534 | `editDoc` copies each key of the stored record that `state` also has. A record stores its type under `type`, but `state` holds it under `docType`, so the type is never restored and the session's `docType` survives. The same copy occurs in `duplicateDoc` (next row) and in `convertToInvoice` (app.js:573), where the explicit `docType = 'invoice'` at app.js:575 makes it harmless. | The editor holds an invoice and the user opens a stored estimate. The next save writes it back with `type: 'invoice'`. | The opened record keeps its own type. | not executed | Records.EditAsWrittenChangesType | Records.EditLoad |
| app.js:546-555 | `duplicateDoc` makes the same key-by-key copy, so the session's `docType` survives. Lines 551-555 then number the copy from that type's series. | The editor holds an invoice with `nextInvoiceNum` 7 and the user duplicates a stored estimate. The copy is numbered `INV-007`, and the next save stores it with `type: 'invoice'`. | The duplicate keeps the record's type and takes the next number of its series. | not executed | Records.DuplicateAsWrittenChangesType | Records.DuplicateNumbered |

Three behaviours of the code are modelled as written, where a natural reading would expect something else:

- The `paid`, `draft` and `sent` filter buttons look only at `status`, so they also list estimates.
- `convertToInvoice` keeps the record's own dates.
- The counter of the document's series advances on every save, including a save that updates an existing record.
