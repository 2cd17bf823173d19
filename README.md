# ExcelRyan billing aggregation, modelled in Dafny

ExcelRyan reads billing transactions from the worksheets of an Excel workbook.
It folds each row into a two-level registry: client, then invoice, then the entries of that invoice.
For every client it then fills a copy of a template workbook, the client's "package".
Its "Schedule 2" sheet gets one row per invoice (date, invoice id, amount total, assessed total) and a "Grand Total" row whose two sums are bold.
Every value goes through `SetCellValue`, which reapplies a per-column style captured on the first write to that column.

This project models that core and proves what it does.

- `entries.dfy` (`Entries`): the `InvoiceEntry` class, the `AmountTotal` sums and `Total` over a list of entries.
  Amounts are exact `real`s.
- `invoice.dfy` (`Invoices`): an invoice as a value (`InvoiceRecord`) and as the mutable `Invoice` class, with `AddEntry` and `GetTotal`.
- `client.dfy` (`Clients`): a client as a value (`ClientRecord`) and as the mutable `AssesedClient` class, with `AddEntry` and `AddInvoice`.
  The invoice dictionary is a map plus its key insertion order.
- `ingestion.dfy` (`Ingestion`): the `Registry` class holds `_allEntries` and `_clients`.
  `LoadRawData` reads an abstract workbook, given as a list of sheets with a row count and cell lookups.
  The fold of entries into clients is the function `IngestAll`, and `Grouped` is what the registry satisfies after any number of rows.
- `schedule.dfy` (`Schedules`):
  - the `Sheet` class and the `StyleCache` class (`_schedule2ColumnStyles`);
  - `SetCellValue`, `CreateSchedule2`, `CreateSchedule3` and the Schedule 2 / Schedule 3 sequence of `CreatePackage`;
  - each write is a `Step`, and each method is proved to perform exactly `ApplySteps` of a known step list.
- `schedule_facts.dfy` (`ScheduleFacts`): what those steps leave on Schedule 2 (values, date cells, styles) and in the shared cache.

Exceptions become an `Outcome` (`Pass` or `Fail(message)`), with the program's messages.
The program never sets a client's `Id`, so clients and the invoices they create carry `None`.

Where the program and its design description disagree, the model follows the program:

- An entry counts as a duplicate only when it is the same object, because `InvoiceEntry` is a class without `Equals` (`Program.cs:44-53`, `65`).
  Two distinct objects with equal fields are both accepted.
- There is one style cache (`Program.cs:152`), shared by every client's package and never cleared.
  It is not one cache per report section.
- The program writes no unique-item schedule, no invoice header, runs no client-enrichment pass and does not cache the client total.
  None of these exists in the model.

## Model

| member | source | states |
|---|---|---|
| Entries.InvoiceEntry.constructor | ExcelRyan/Program.cs:194-201 | The object built for a row carries the row's client id, date, invoice id and both amounts, with the item fields left null. |
| Entries.TotalAppend | ExcelRyan/Program.cs:73-82 | The total over a concatenation is the sum of the totals of the parts, so splitting a list of entries never changes its total. |
| Entries.TotalAppendOne | ExcelRyan/Model/Invoice.cs:26-31 | The total of no entries is (0, 0). Appending one entry raises the total by exactly that entry's amount and assessed amount. |
| Invoices.InvoiceRecord.AddEntry | ExcelRyan/Program.cs:63-71 | Succeeds iff the entry object is not already listed. On failure: the "Trying to add same entry twice" error, nothing changed. On success: header fields unchanged, one more entry, earlier entries kept in order, the entry present. |
| Invoices.AddEntryAppends | ExcelRyan/Model/Invoice.cs:14-22 | A successful add makes the list exactly the old list followed by the entry. A list without repeated objects keeps none. |
| Invoices.AddEntryTotal | ExcelRyan/Model/Invoice.cs:24-33 | After an add the invoice total is the old total plus the entry's two amounts, or the old total when the add is refused. |
| Invoices.Invoice.constructor | ExcelRyan/Program.cs:95-100 | A new invoice has the given client id, invoice id and date, and no entries. |
| Invoices.Invoice.AddEntry | ExcelRyan/Model/Invoice.cs:14-22 | The object's new state and the outcome are exactly those of `InvoiceRecord.AddEntry` on its old state. |
| Invoices.Invoice.GetTotal | ExcelRyan/Program.cs:73-82 | Returns the sums of amount and of assessed amount over the entries, in list order (`Total`). It modifies nothing, so repeated calls agree. |
| Clients.AddInvoiceSpec | ExcelRyan/Program.cs:106-114 | Fails iff the invoice id is already a key, with the "Trying to add same invoice twice" error and nothing changed. Otherwise it inserts exactly that key, keeps every other invoice and the client id, appends the id to the key order, and preserves the client invariant. |
| Clients.AddEntrySpec | ExcelRyan/Program.cs:91-104 | Adds no key but the entry's invoice id and leaves every other invoice unchanged. A new id gets an invoice with the client's id, the entry's invoice id and date, holding just the entry. An existing invoice is handed the entry and keeps its header. The invariant is kept. |
| Clients.AddEntryLast | ExcelRyan/Model/AssesedClient.cs:12-25 | After a successful add the entry is the last entry of its invoice. An invoice that already existed keeps its date, and its entries become the old entries followed by this one. |
| Clients.AssesedClient.constructor | ExcelRyan/Program.cs:207 | A new client has no id, no invoices and satisfies the client invariant. |
| Clients.AssesedClient.AddEntry | ExcelRyan/Model/AssesedClient.cs:12-25 | The client's objects end in exactly the state `ClientRecord.AddEntry` gives for the old state. Only this client and the entry's own invoice object are modified. An existing invoice object is kept under its key and updated in place. A new invoice is a fresh object inserted under the entry's invoice id, with every other key unchanged. Each invoice still sits under its own id. |
| Clients.AssesedClient.AddInvoice | ExcelRyan/Model/AssesedClient.cs:27-35 | Inserts the invoice object under its id, or fails and changes nothing when the id is taken, exactly as `ClientRecord.AddInvoice` says. |
| Ingestion.RowsFromSpan | ExcelRyan/Program.cs:187-212 | Let k be the first row at or after the sheet's first row that lies past the row count or has an empty column A. A mapped sheet yields exactly the rows from its first row to k - 1, one entry per row, in row order. |
| Ingestion.IngestKeepsGrouped | ExcelRyan/Program.cs:203-209 | Filing a new entry never throws. It keeps the registry grouped. Every invoice holds exactly the listed entries with its client and invoice id, in list order, and carries the date of the first of them. Each client's invoice keys are ordered by first appearance (`FirstSeen`). |
| Ingestion.FirstSeenMembership | ExcelRyan/Program.cs:93-100 | An invoice id is among a client's first-seen ids iff the entries carrying that client id and that invoice id (`Select`) are not empty. |
| Ingestion.FirstSeenOrder | ExcelRyan/Program.cs:95-100 | First-seen ids are listed in order of first appearance: when id p is listed before id q, some entry with id p comes before every entry with id q. |
| Ingestion.IngestAllKeepsGrouped | ExcelRyan/Program.cs:203-209 | Filing any run of distinct new entries keeps the registry grouped. |
| Ingestion.GroupedKeys | ExcelRyan/Program.cs:205-209 | In a grouped registry a client exists iff some entry carries its id. An invoice exists iff some entry carries both its ids. |
| Ingestion.FiledOnce | ExcelRyan/Program.cs:203-209 | Every ingested entry appears exactly once in its own client's invoice for its invoice id, and in no other invoice of any client. |
| Ingestion.FiledInOrder | ExcelRyan/Program.cs:203-209 | Two ingested entries of one invoice appear in that invoice in the order they were ingested, at positions given by how many entries of the invoice came before them. |
| Ingestion.Registry.constructor | ExcelRyan/Program.cs:125-126 | The registry starts with no entries and no clients, and grouped. |
| Ingestion.Registry.LoadRawData | ExcelRyan/Program.cs:167-218 | Visits sheets in order and skips unmapped ones. Every row read becomes a new entry appended to `allEntries`; their data is exactly the workbook's rows, sheet after sheet. `clients` becomes the old registry with those entries filed in order. The registry stays grouped with no repeated entry, and the method returns `allEntries`. |
| Ingestion.Registry.LoadSheet | ExcelRyan/Program.cs:187-212 | The row loop of one mapped sheet: appends one entry per row read, from the first row until the end-of-data test fails, and files each one. |
| Ingestion.Registry.FileEntry | ExcelRyan/Program.cs:203-209 | Appends the entry to `allEntries` and files it under its client, creating the client on first sight. The registry stays grouped with no repeated entry. |
| Schedules.Capture | ExcelRyan/Program.cs:303-306 | The cache afterwards holds the column, keeps every entry it had unchanged, and holds the cell's style for a column it did not have. |
| Schedules.StyleCache.SetCellValue | ExcelRyan/Program.cs:300-312 | The sheet and the cache change exactly as one `Set` step says: column captured on first write, cell given the cached style and the value. |
| Schedules.RowTotalStep | ExcelRyan/Program.cs:265-266 | The loop step of `CreateSchedule2`'s running total: after invoice i, the running total is `GrandTotal` of the first i + 1 invoices. What that total means is stated by `GrandTotalIsTotal`. |
| Schedules.CreateSchedule2 | ExcelRyan/Program.cs:244-281 | Without a "Schedule 2" sheet nothing changes. Otherwise the sheet and the cache end exactly as `Schedule2Steps` leaves them: one row per invoice from row 8, one blank row, then the grand-total row. |
| Schedules.WriteInvoiceRow | ExcelRyan/Program.cs:256-263 | Writes one invoice row (date typed as a date, invoice id, both totals) and returns the invoice total. |
| Schedules.WriteGrandTotal | ExcelRyan/Program.cs:273-279 | Writes the "Grand Total" label and both sums, making each sum's cell bold. |
| Schedules.CreatePackage | ExcelRyan/Program.cs:235-239 | Schedule 2 is filled as `CreateSchedule2` says, then Schedule 3 runs and writes nothing. |
| Schedules.CreateSchedule3 | ExcelRyan/Program.cs:283-298 | Writes no cell. Its row counter ends at 10 plus the number of invoices when the sheet exists. |
| ScheduleFacts.ValueAfter | ExcelRyan/Program.cs:309 | After any run of writes, a cell holds the last value written to it, or else what it held before. It is a date cell iff it was one or some step made it one. |
| ScheduleFacts.RowsWrites | ExcelRyan/Program.cs:254-269 | The invoice loop writes invoice i into row `row + i`, columns B, C, E, H, and writes nothing outside those rows. Exactly the B cells of those rows become date cells. |
| ScheduleFacts.Schedule2Layout | ExcelRyan/Program.cs:244-281 | Cell by cell, Schedule 2 ends holding the reference layout `Schedule2Value`: invoice i (in the client's invoice order) in row 8 + i, the "Grand Total" label and the sums over all invoices in row 9 + n. Every other cell, the blank row included, keeps what it held. Exactly the invoice date cells become date cells. |
| ScheduleFacts.Schedule2Rows | ExcelRyan/Program.cs:253-279 | Invoice i's date, id, amount total and assessed total sit in B, C, E and H of row 8 + i. The grand-total row at 9 + n holds the label and both sums. |
| ScheduleFacts.Schedule2Order | ExcelRyan/Program.cs:254 | After ingestion, a client's Schedule 2 invoices come in the order their ids were first seen among the client's entries. Each holds exactly its entries in ingestion order and carries the date of the first of them. |
| ScheduleFacts.GrandTotalIsTotal | ExcelRyan/Program.cs:265-266 | The grand total written is the sum of amount and of assessed amount over every entry of every invoice of the client. |
| ScheduleFacts.SetCellValueEffect | ExcelRyan/Program.cs:300-312 | One write: the cache then holds the column, no existing entry is replaced, and a first write caches the cell's own style. The cell gets the cached style and the value, and no other cell changes. |
| ScheduleFacts.CacheAfter | ExcelRyan/Program.cs:152 | Over any run of writes, the cache only gains the written columns and never replaces an entry, as a static dictionary that is never cleared. |
| ScheduleFacts.StyleUntouched | ExcelRyan/Program.cs:300-312 | A cell that no write addresses keeps its style. |
| ScheduleFacts.Schedule2Styles | ExcelRyan/Program.cs:256-279 | Every invoice cell ends with its column's cached style, and the "Grand Total" label with the cached "C" style. Both sums end with their column's cached style made bold. |
| ScheduleFacts.Schedule2CacheKeys | ExcelRyan/Program.cs:303-306 | Schedule 2 adds "C", "E", "H" (and "B" when there is an invoice) to the cache and keeps every earlier entry. |
| ScheduleFacts.Schedule2FirstCapture | ExcelRyan/Program.cs:303-306 | A column new to the cache caches the template style of the first cell written in it: row 8 when there is an invoice, otherwise the total row. |

## Left out

- Startup (`Main`, reading and deserialising the settings file, the closing key prompt) and the path constants. These are I/O and configuration.
  The worksheet-to-column mapping is an input map, so `Settings.cs` is not part of this model.
- `Execute`'s loop over the registry is left out.
  `CreatePackage` is modelled for one client, with the workbook and the shared cache as inputs. Which clients are visited, and in what order, is not modelled.
- `CreatePackage`'s file handling: the existence check, copying the template, opening and saving the workbook.
- ClosedXML itself. A sheet is a map of written values, a map of explicitly set styles over the template's styles, and a set of date-typed cells.
  - A style is a value. In the program the cache holds a style object that a cell then shares, so making one cell bold could change others.
  - `SetValue`'s data-type inference is not modelled.
  - A failing `GetDouble` is not modelled: a number lookup always yields a number.
- Floating point. Amounts are exact reals, so sums do not depend on accumulation order as `double` sums can.
- Console logging, including the per-sheet "Processed N rows" message, which reports one more row than were read.
- `_schedule3ColumnStyles`, which is declared but never used.
- Ingestion.Registry: the registry holds clients as `ClientRecord` values, not `AssesedClient` objects.
  Filing an entry replaces the client's value rather than updating shared objects in place, so aliasing between the registry and other references is not captured.
  `AssesedClient.AddEntry` is proved separately to update its objects exactly as `ClientRecord.AddEntry` says.
- Schedules.CreateSchedule2 takes the client as a `ClientRecord` value and computes each invoice total with `Total`. The program calls `Invoice.GetTotal`, which is proved to return `Total` of the entries.
- Parts of loop bodies are separate methods:
  - `LoadRawData`'s row loop is `LoadSheet`, and filing one entry is `FileEntry`;
  - `CreateSchedule2`'s row writes are `WriteInvoiceRow` and `WriteGrandTotal`.
