# gsheet-lambda: a Dafny model of the change scan and the import

The repository watches a Google Drive folder of order spreadsheets. Two scanners compare each
listed spreadsheet with a change ledger, a key-value table keyed by document id that holds the
last stored snapshot `{id, name, modifiedTime}`:

- `gSheetScan.py` puts an import event on a queue for every new or changed spreadsheet.
- `import.py` calls `importSheet` in-process instead.

The importer (`gSheetImport.py`) rebuilds two lookup tables from the warehouse and, for every
queue record, runs `order_upload`. `order_upload` picks a branch by the hour of the day, runs the
load steps, appends one status line to `error_list`, and writes the lookup tables back into two
tabs of the client's spreadsheet.

The model keeps the structure of the code:

- The ledger is a `Table` class whose `items` map the scanners update in place.
- Each scanner is a class whose methods mirror the Python functions, loop for loop.
- Each method is proved against a pure specification: a `Step` function per document and a
  `Scan` that applies `Step` to the listed documents from the first to the last.
- Lemmas state what those specifications promise.
- Pagination is a sequence of responses. The listing is `Files(Fetched(pages))`: every file of
  every response up to the first without a `nextPageToken`.
- The importer's globals (`local_radio_ids`, `df_as_list`, `range_string`, ...) are the
  `LookupTables` class.
- A worksheet tab is a `Worksheet` whose `contents` the write-back replaces.
- The range fill works on an `array` of cells, as `sheet.range` hands out a fixed list of cells.

Behaviours of the code that the model keeps and states as lemmas:

- The queue scanner never rewrites a stored item, so it never writes the ledger for a changed
  document (`QueueScan.ScanKeepsStored`). Every scan of a listing that holds a changed document
  sends its event, however often the listing was scanned before (`QueueScan.ChangedAnnounced`).
- The in-process scanner imports every listed document, including one whose timestamps are
  equal. It writes the re-read metadata to the ledger only for new and changed documents
  (`ImportScan.UnchangedDocument`).
- In the in-process scanner, a new document's snapshot is stored before the import. When that
  import raises, the next scan classifies the document as unchanged, not as changed
  (`ImportScan.NewDocument`). A changed document whose import raises keeps its old item and stays
  changed (`ImportScan.ChangedDocument`).
- In `import.py` the call to `order_upload` inside `importSheet` is commented out
  (`import.py:644`). There, `importSheet` only rebuilds the tables and decides between going on
  with the first matching client (`Upload`) and skipping (`Skip`).
- The importer's `handler` builds an `order_url` from the record's id and then overwrites it and
  every other client field with one fixed client (`gSheetImport.py:536-542`). Every record is
  uploaded against that client (`OrderUpload.FIXED_TARGET`).
- The hour test is `hour < 100`, so every clock hour takes the first branch, and the `elif`
  branch is unreachable (`OrderUpload.ClockHourSelectsFullReload`,
  `OrderUpload.DaytimeReloadUnreachable`).

Modules, one per file:

- `Wrappers`: `Option` and `Result`.
- `Text`: `str` of an `int`, and substring search.
- `Drive`: documents and paged listings.
- `Ledger`: the ledger table.
- `Dispatch`: the queue message.
- `QueueScan`: `gSheetScan.py`.
- `Registry`: the client list lookup of `importSheet`.
- `WriteBack`: the flattened lookup tables, range strings, range fill and worksheet.
- `OrderUpload`: `order_upload` and `handler` of `gSheetImport.py`.
- `ImportScan`: `scanGDrive` and `importSheet` of `import.py`.

## Model

| member | source | states |
|---|---|---|
| Text.NatToString | gSheetImport.py:218-219 | `str(n)` is a non-empty string of decimal digits, one character long exactly when `n < 10` |
| Text.DigitsValueOfNatToString | gSheetImport.py:218-219 | reading the digits of `str(n)` back gives `n` |
| Text.NatToStringInjective | gSheetImport.py:243-244 | distinct counts are rendered as distinct strings |
| Text.Contains | import.py:632 | `id in order_url` is true exactly when `id` occurs in `order_url` at some offset |
| Drive.Files | gSheetScan.py:86 | the files the per-file loop visits: each response's `files` in listed order, response after response |
| Drive.Fetched | gSheetScan.py:75-112 | the responses the `while True` loop requests: all of them up to and including the first without a `nextPageToken` |
| Drive.LastPage | gSheetScan.py:110-112 | the scan stops at the first response without a `nextPageToken`; every earlier response has one |
| Drive.FilesAppend | gSheetScan.py:75-86 | the files of two runs of responses are the files of the first followed by those of the second |
| Drive.FileOrder | gSheetScan.py:86 | the `j`-th file of the `q`-th response is handled at position (files of earlier responses) + `j` |
| Drive.FilesFrom | gSheetScan.py:75-112 | the fetched files split into those before response `p`, response `p`'s own, and those after it |
| Ledger.Get | gSheetScan.py:31-40 | `dynamo_find_gsheet_record`: the item stored under the id, or `None` when the query returns no item |
| Ledger.Put | gSheetScan.py:24-29 | `dynamo_add_gsheet_record`: the item stored under its own id, replacing any item there |
| Ledger.Classify | gSheetScan.py:95-107 | new when no item is stored; unchanged when the stored `modifiedTime` ("" when absent) equals the listed one; changed otherwise |
| Ledger.PutThenGet | gSheetScan.py:24-40 | after `put_item`, the query for that id returns the item just put; other ids are unaffected; at most one item per id |
| Ledger.ClassifyStored | gSheetScan.py:103 | a document whose own snapshot is stored is unchanged; an item without `modifiedTime` reads as "" |
| Ledger.Table.PutItem | gSheetScan.py:24-29 | `put_item` overwrites the item under its id and keeps the table keyed by id |
| Ledger.Table.Query | gSheetScan.py:31-40 | the query returns an item exactly when one is stored under the id, and that item carries the id |
| Dispatch.ImportEvent | gSheetScan.py:42-65 | `send_import_event`: the id, name and modified time as `String` attributes and the body "Sending import event to SQS queue for gSheet " + id |
| Dispatch.ReadAttributes | gSheetImport.py:531-534 | the record's three `stringValue`s as a document, or `None` when one of the attributes is missing (`KeyError`) |
| Dispatch.ImportEventRoundTrip | gSheetScan.py:42-65 | the event has exactly the three `String` attributes and the body "Sending import event to SQS queue for gSheet " + id; reading its attributes gives back the document |
| Dispatch.ImportEventInjective | gSheetScan.py:50-64 | two documents give the same event only when they are equal |
| QueueScan.Step | gSheetScan.py:93-107 | one file: a new document is put and announced, a changed one only announced, an unchanged one left alone |
| QueueScan.Scan | gSheetScan.py:86-108 | the files handled one after the other, in listed order |
| QueueScan.NewDocument | gSheetScan.py:95-101 | a document with no item gets exactly one put of its snapshot and exactly one event |
| QueueScan.UnchangedDocument | gSheetScan.py:103-104 | a document whose stored time equals its listed time changes nothing |
| QueueScan.ChangedDocument | gSheetScan.py:105-107 | a changed document sends one event and leaves the ledger as it was, so handling it again sends another |
| QueueScan.ChangedForever | gSheetScan.py:102-107 | `n` scans of a changed document send `n` events and never touch the ledger |
| QueueScan.ScanKeepsStored | gSheetScan.py:93-107 | a scan never rewrites an item already stored: the only put is for an id with no item |
| QueueScan.ChangedAnnounced | gSheetScan.py:103-107 | every scan of a listing holding a document whose stored time differs sends that document's event |
| QueueScan.ScanLeavesOthers | gSheetScan.py:86-107 | items of ids the scan did not list are untouched |
| QueueScan.ScanShape | gSheetScan.py:86-107 | after a scan the ledger's ids are the old ids plus the listed ids, still keyed by id; events are only appended, at most one per listed document |
| QueueScan.FirstScan | gSheetScan.py:95-101 | a first scan of distinct unseen ids stores every snapshot and sends one event per document in listing order |
| QueueScan.QuietScan | gSheetScan.py:103-104 | when every listed document's own snapshot is stored, a scan changes nothing |
| QueueScan.RescanAfterFirstScan | gSheetScan.py:68-112 | a second scan of the same listing after a first scan sends nothing more |
| QueueScan.Scanner.SendImportEvent | gSheetScan.py:42-66 | the document's event is appended to the queue |
| QueueScan.Scanner.Process | gSheetScan.py:86-108 | handling a file is one `Step` of the specification |
| QueueScan.Scanner.ProcessFiles | gSheetScan.py:86-108 | handling the files of a response is the scan of those files |
| QueueScan.Scanner.Handler | gSheetScan.py:68-112 | the handler's effect on ledger and queue is the scan of every fetched file in order |
| Registry.FirstMatch | import.py:630-640 | the index of the first client whose `order_url` contains the id, with no earlier one containing it; `None` when no client does |
| Registry.LaterEntriesIgnored | import.py:640 | entries after the first match do not change the lookup |
| Registry.FindClient | import.py:629-640 | the loop returns the first matching client and its `order_url`, or "" when nothing matches |
| Registry.Decide | import.py:629-647 | the first client whose `order_url` contains the id, and going on with it when that url is non-empty; a skip otherwise |
| Registry.DecideByMatch | import.py:642-647 | a non-empty id is skipped exactly when no client's `order_url` contains it; otherwise the first match is used |
| Registry.EmptyIdMatchesFirst | import.py:632 | the empty id is contained in every `order_url`, so it resolves to the first client |
| WriteBack.ToCell | gSheetImport.py:517 | the per-value conversion: null to "", floats and ints kept as numbers, anything else as its `str` |
| WriteBack.Flattened | gSheetImport.py:515-518 | the column names, then each row's converted values, row after row |
| WriteBack.FlattenedLength | gSheetImport.py:515-519 | the flattened table has `width * (rows + 1)` cells |
| WriteBack.FlattenedPrefix | gSheetImport.py:516-518 | flattening more rows only appends cells |
| WriteBack.FlattenedHeader | gSheetImport.py:515 | the first `width` cells are the column names |
| WriteBack.FlattenedLastRow | gSheetImport.py:516-518 | the last row's converted cells follow the cells of all earlier rows |
| WriteBack.FlattenedCell | gSheetImport.py:516-518 | the cell of row `i`, column `j` sits at `width * (i + 1) + j` and is that value converted (null to "") |
| WriteBack.FlattenTable | gSheetImport.py:515-518 | the loop over rows builds the flattened table |
| WriteBack.RangeString | gSheetImport.py:519 | "A1:" + the last column's letter + `str(rows + 1)` |
| WriteBack.ParseRange | gSheetImport.py:47 | the width and height `sheet.range` reads from a string of the `A1:<letter><digits>` shape that every built range string takes; other A1 shapes are outside the model and give `None` |
| WriteBack.RangeStringsOfTables | gSheetImport.py:519 | the two range strings are "A1:D" and "A1:M" followed by `str(rows + 1)` |
| WriteBack.ParseRangeString | gSheetImport.py:47 | a built range string names a range `width` columns wide and `rows + 1` rows high |
| WriteBack.WriteBackFits | gSheetImport.py:47-51 | the range built for a table has exactly as many cells as its flattened list |
| WriteBack.FillRange | gSheetImport.py:48-51 | cells are filled in order from the list; it fails exactly when the list is shorter than the range, after filling what it could |
| WriteBack.Worksheet.Update | gSheetImport.py:39-56 | the tab's contents become the range's cells when the range parses and the list is long enough; otherwise the error is logged and the tab is unchanged |
| WriteBack.LookupTables.constructor | gSheetImport.py:27-32 | the globals start empty |
| WriteBack.LookupTables.Rebuild | gSheetImport.py:512-528 | the tables, their flattened lists and their range strings are rebuilt from the two query results |
| OrderUpload.BlankToMissing | gSheetImport.py:119 | `replace("", np.NaN)`: exactly the empty cell becomes `NaN` |
| OrderUpload.StripNumber | gSheetImport.py:122 | `x.replace(',', '').replace("$", "")` as two removals, first of commas, then of dollar signs |
| OrderUpload.CleanCell | gSheetImport.py:119-122 | one numeric cell: blank to `NaN`, then a string is stripped and `NaN` stays `NaN` |
| OrderUpload.RemoveChar | gSheetImport.py:122 | `replace(ch, '')` leaves no `ch` and never lengthens the string |
| OrderUpload.WithoutSeparators | gSheetImport.py:122 | the reference one-pass filter leaves neither ',' nor '$' |
| OrderUpload.StripNumberKeepsOthers | gSheetImport.py:122 | the two replacements equal the one-pass filter: they remove exactly the commas and dollar signs and keep everything else in order |
| OrderUpload.StripNumberIdempotent | gSheetImport.py:122 | stripping twice equals stripping once |
| OrderUpload.CleanCellCases | gSheetImport.py:119-122 | a blank cell becomes NaN; another string is stripped; the column lambda is idempotent; "$" becomes "" and would become NaN on a second pass |
| OrderUpload.PadSeconds | gSheetImport.py:264-265 | a one-character seconds string gets a leading "0" |
| OrderUpload.TotalTime | gSheetImport.py:262-266 | the minutes, ":" and the padded seconds |
| OrderUpload.ElapsedAsWritten | gSheetImport.py:262-266 | the text for `e` whole seconds with minutes `round(e / 60)`, ties to even, as Python's `round` does |
| OrderUpload.PaddedSeconds | gSheetImport.py:263-265 | the padded seconds of a count below 60 are two digits that read back as the count |
| OrderUpload.ElapsedRoundTrip | gSheetImport.py:262-266 | the elapsed time text, with whole minutes, reads back as the elapsed seconds |
| OrderUpload.ElapsedAsWrittenOverstates | gSheetImport.py:262 | with minutes as `round(e / 60)`, 45 seconds is reported as "1:45", which reads as 105 seconds |
| OrderUpload.SelectBranch | gSheetImport.py:82 | the branch the hour test picks: `hour < 100` first, then `hour < 20` with an active client, otherwise none |
| OrderUpload.ClockHourSelectsFullReload | gSheetImport.py:82 | every clock hour 0..23 takes the first branch |
| OrderUpload.DaytimeReloadUnreachable | gSheetImport.py:276 | the `elif` branch is taken for no hour and no client flag |
| OrderUpload.Status | gSheetImport.py:241-271 | the line a reload appends: the error line for an exception of the load or recommendation step; otherwise the success line with the promo count, missing vendor ids and total, each raised by the recommendation's count when one was asked for |
| OrderUpload.StatusReportsOutcome | gSheetImport.py:269-271 | the line starts with "<table> completed successfully" exactly when the call got past every step that can raise, and otherwise with "<table> has errored: " and the exception text; it always ends with the URL |
| OrderUpload.UploadLines | gSheetImport.py:530-546 | the status lines of the calls against a target, in call order |
| OrderUpload.UploadLinesAt | gSheetImport.py:530-546 | the loop appends one line per call, the `k`-th being the status of the `k`-th call |
| OrderUpload.AnyReachedSome | gSheetImport.py:250-254 | the lookup tabs are written exactly when some call got past every step that can raise |
| OrderUpload.ReadablePrefix | gSheetImport.py:530-534 | the records before the first one missing an attribute all carry the three attributes |
| OrderUpload.Importer.WriteBackTabs | gSheetImport.py:249-254 | a tab is written, with its table's flattened list, exactly when its table has rows |
| OrderUpload.Importer.Reload | gSheetImport.py:84-273 | one status line is appended; the tabs are written only after the load and recommendation steps succeed |
| OrderUpload.Importer.OrderUpload | gSheetImport.py:77-498 | no reload branch appends nothing; a reload branch appends exactly its status line and writes the tabs as `Reload` does |
| OrderUpload.Importer.UploadRecords | gSheetImport.py:530-546 | one status line per record until a record misses an attribute, which ends the loop; each tab ends with its table's list when some call succeeded |
| OrderUpload.Importer.Handler | gSheetImport.py:500-546 | the tables, their flattened lists and range strings are rebuilt from the query rows, and every readable record is uploaded against the fixed client |
| ImportScan.Refetch | import.py:76-88 | `getSheet`: the document's id, name and modified time as the listing reads them now |
| ImportScan.Step | import.py:111-134 | one file: a new document's snapshot is put; the import runs (an exception ends the scan); a new or changed document is re-read (an exception ends the scan) and stored |
| ImportScan.Scan | import.py:105-135 | the files handled in listed order; once an exception ends the scan no later file is handled |
| ImportScan.NewDocument | import.py:113-122 | a new document's snapshot is stored before the import; a raising import leaves it and aborts, and the document then reads as unchanged; otherwise one import and the re-read metadata are stored |
| ImportScan.UnchangedDocument | import.py:125-127 | an unchanged document is imported again and the ledger is not written |
| ImportScan.ChangedDocument | import.py:128-133 | a changed document keeps its old item when the import raises; otherwise it is imported and its item becomes the re-read metadata |
| ImportScan.AbortIsFinal | import.py:90-139 | nothing after an exception runs |
| ImportScan.ScanAppend | import.py:96-139 | scanning two runs of files one after the other is scanning them joined |
| ImportScan.ScanFrame | import.py:105-135 | items of ids not listed are untouched; imports are only appended, at most one per listed document |
| ImportScan.HealthyScan | import.py:105-135 | when nothing raises, every listed document is imported once in listing order and every listed id gets an item |
| ImportScan.DriveScanner.ImportSheet | import.py:590-647 | a non-raising import sets both tables to the query rows, rebuilds their flattened lists and range strings, and records the first-match decision; a raising one leaves the tables and the import log as they were |
| ImportScan.DriveScanner.Refresh | import.py:76-88 | the current metadata is stored exactly when `getSheet` can read the id |
| ImportScan.DriveScanner.Process | import.py:105-135 | handling a file is one `Step`; false exactly when the step aborts; the lookup tables are those of the last completed import, or unchanged when nothing was imported |
| ImportScan.DriveScanner.ScanFiles | import.py:105-135 | handling the files of a response is the scan of those files, stopping at an exception; the lookup tables are those of the last completed import, or unchanged when nothing was imported |
| ImportScan.DriveScanner.ScanGDrive | import.py:90-139 | the scan's effect on ledger and imports is the specified scan of every fetched file, aborted or not; the lookup tables are those of the last completed import, or unchanged when nothing was imported |

## Findings

| source | as written | input that shows it | evidently intended | confidence | as-written member | corrected member |
|---|---|---|---|---|---|---|
| gSheetImport.py:262 | the minutes of the elapsed time are `round(elapsed / 60)`, rounding to the nearest minute | 45 seconds elapsed is reported as "1:45" (105 seconds); the same line recurs at gSheetImport.py:486 | whole minutes, `elapsed // 60`, so that "M:SS" reads back as the elapsed time | not executed | OrderUpload.ElapsedAsWrittenOverstates | OrderUpload.ElapsedRoundTrip |

## Left out

- Google Drive, Google Sheets, DynamoDB, SQS, the warehouse, S3 and the credentials are not modelled as services. Their answers are parameters: the response `pages`, the `Env` of a scan, the queue `records`, the query rows, and each call's `Call`.
- Printing and log lines are left out; only `error_list` is modelled.
- The load steps of `order_upload` are one abstract outcome per call (`EtlOutcome`): promo code count and missing vendor ids, or the exception text. These steps read the order and promo tabs, reshape them with pandas, upload CSV files to S3, and run `TRUNCATE`/`COPY`. Only the per-cell cleaning of the numeric columns is modelled. The float conversion (`astype(float)`) and date parsing are floating-point and library behaviour.
- `recomendation_and_promo_code_addition` is not part of this model. Its result is the call's `recommendation`: a count, or the text of what it raised. The model takes the count to come back as its decimal text, which the success line concatenates. If it came back as a Python `int`, the concatenation at gSheetImport.py:269 would raise, and the call would log the error line.
- The clock is a parameter: the call's `hour`. The elapsed time is a whole number of seconds; float seconds and their rounding are not modelled.
- OrderUpload.Importer.OrderUpload: both reload branches run the same `Reload`. The source's branches differ, and both differences belong to the abstract `EtlOutcome`. First, where the historical orders come from: a tab (gSheetImport.py:111-113) or a warehouse query (gSheetImport.py:325). Second, which rows the blank-to-NaN and numeric-strip cleaning covers. The first branch cleans the joined current and historical rows (gSheetImport.py:119-123). The `elif` branch cleans only the current year's rows (gSheetImport.py:313-317), and its blank-to-NaN step on the joined rows is commented out (gSheetImport.py:330). The `elif` branch is unreachable (`OrderUpload.DaytimeReloadUnreachable`).
- The `import.py` copies of `order_upload`, `update_local_radio_tab` and `update_non_local_radio_tab` match those of `gSheetImport.py`. They are modelled once, and `import.py` never calls them.
- A client entry without an `order_url` key makes `id in None` raise in `importSheet`. The model's `ClientConfig` always has one.
- Failures of the services other than those named here are not modelled. These include a raising DynamoDB `query` or `put_item`, or SQS `send_message`, in the queue scanner's handler. For example, a send that raises after `dynamo_add_gsheet_record` (gSheetScan.py:97-101) leaves a new document stored but never announced, because later scans read it as unchanged. Also left out are a raising `read_sql` in the importer's handler (gSheetImport.py:512-513) and an attribute present without a `stringValue` key (gSheetImport.py:531-534). There, `.get('stringValue')` gives `None` and raises nothing. For the `id` attribute, the concatenation at gSheetImport.py:536 then raises `TypeError` and ends the handler. For `name` and `modifiedTime`, nothing raises, and the record is uploaded as usual because those values are never used. The model's `Attribute` always carries a string value.
- ImportScan.DriveScanner.ImportSheet: an exception is modelled as raised before anything else, so `!ok` leaves the tables unchanged. In the source, some exceptions come after part or all of the rebuild. The second warehouse query can fail after the first table was rebuilt (import.py:611). Two more can raise after both tables were rebuilt: loading the client list (import.py:625-627), and `id in None` for a client without an `order_url` (import.py:632). In those cases the source's tables are, wholly or partly, rebuilt, and the `unchanged(tables)` clauses of `ImportSheet`, `Process`, `ScanFiles` and `ScanGDrive` do not describe them.
- ImportScan.Env: each `importSheet` runs both warehouse queries again (import.py:602, 611). The model takes their results as constant during one scan: `Env.localRows` and `Env.marketRows`. That is why `DriveScanner.TablesFrom(env)` describes the tables of the last completed import.
- WriteBack.Worksheet.Update: `sheet.clear()` followed by `update_cells` is one replacement of `contents`. Failures of the Sheets API other than a malformed range or too few values are not modelled.
- WriteBack.ToCell: a float value stays a real number; float formatting is not modelled.
- QueueScan.Scanner.Handler and ImportScan.DriveScanner.ScanGDrive require a listing that ends (some response without `nextPageToken`). An endless listing makes the source loop forever.
- OrderUpload.Importer.Handler requires one `Call` per record and clock hours 0..23. Records past the first unreadable one never run; their calls are unused.
- Concurrent Lambda invocations, retries and the body of a queue record other than its attributes are left out.
