# Reveel data pipeline: a verified model

This Dafny project models the core of the Reveel take-home data pipeline, in four parts.

- **Client cleaning** (`ClientProcessor`):
  - client files come in three CSV schemas and as scanned PDF text;
  - each file is normalized: names cleaned, statuses and codes canonicalized, dates parsed, upper-cased;
  - each file is de-duplicated by `client_id`;
  - all files are merged, one row per merge key, with column-wise backfilling.
- **Invoice cleaning** (`InvoiceProcessor`):
  - invoice files come in three CSV schemas;
  - each file is normalized: amounts and shipment types parsed, dates formatted, text upper-cased;
  - rows are de-duplicated by `invoice_id` inside each file and again across files.
- **The warehouse** (`RevealPipeline`):
  - the clients and invoices are upserted into their tables;
  - `invoice_facts` is rebuilt by a DELETE, then an INSERT ... SELECT;
  - the SELECT LEFT JOINs invoices to clients (by id or by upper-cased name) and to the rate list;
  - the whole run is sequenced by `run_full_pipeline`.
- **The analysis** (`AnalysisEngine`), four read-only aggregate queries over `invoice_facts` and the counts and answer lists drawn from them:
  - the top five clients by cost;
  - month-over-month growth;
  - a discount scenario;
  - the EXPRESS-to-GROUND reclassification.

The modules follow that structure.

- `Wrappers`, `Text`, `Values`/`Dates`, `Config`, `Sorting` and `Aggregates` hold the building blocks:
  - Option and Result;
  - Python's string operations;
  - loosely typed cells;
  - the rate and discount tables;
  - pandas' stable sort, keep-first de-duplication and first-appearance grouping;
  - SQL's NULL-skipping aggregates.
- `Normalizers` holds the field normalizers.
- `Fingerprint` holds the row hash.
- `Schema` holds schema detection and column renaming.
- `ClientReconciler` and `ClientMerge` hold the client processor.
- `InvoiceReconciler` holds the invoice processor.
- `FactDerivation` holds the fact SELECT and its ON CONFLICT insert.
- `Pipeline` holds the store as a class with three map-valued tables and the pipeline steps as methods.
- `Analysis` holds the four queries.

How the source's forms are modelled:

- Loops in the source are methods with loop invariants, proved equal to a specification function:
  - the PDF line grouping;
  - the column transforms;
  - the backfill of `base`;
  - the group loop of the merge;
  - the file loops;
  - the schema rename loops.
- The store is a `class` whose methods state their whole new state.
- SQL queries are functions over a sequence of fact rows.
- `None` stands for SQL NULL and for pandas' null cells.

Where the code and its design notes disagree, the model follows the code:

- `_clean_name` of a blank string gives `""`, not null.
- `_norm_shipment_type` returns a canonical code (e.g. `GROUND`) as itself.
- The growth query compares a month with the previous month present for the same client, which need not be the calendar month before.
- In the invoice processor, `astype(str)` turns a missing column's `None` into the text `NONE`. Only the text `NAN` (an empty CSV cell) becomes null. So an invoice file without a `client_id` column gives rows whose `client_id` is `"NONE"`.
- In the top-clients, discount and reclassification queries, `ORDER BY ... DESC` puts NULL sums first, as PostgreSQL does.

## Model

| member | source | states |
|---|---|---|
| Normalizers.CleanName | src/data_processing.py:23-28 | the cleaned name is null exactly for a null cell |
| Normalizers.CleanNameWords | src/data_processing.py:23-28 | a cleaned name has no white space at its ends and single spaces between its words; its words are the cell's words in order, each acronym (upper-case, at most three characters) kept and every other word title-cased |
| Normalizers.CleanNameIdempotent | src/data_processing.py:23-28 | cleaning a cleaned name changes nothing |
| Normalizers.CleanTextFacts | src/data_processing.py:27-28 | collapsing white space keeps the words; the cleaned text is well spaced and its words are the mapped words of the input |
| Normalizers.NameWordIdempotent | src/data_processing.py:28 | the per-word rule is idempotent |
| Normalizers.NameWordIsToken | src/data_processing.py:28 | the per-word rule maps a word to a word (non-empty, no white space) |
| Normalizers.SplitStrip | src/data_processing.py:27 | `strip()` before `split()` does not change the words |
| Normalizers.NormStatus | src/data_processing.py:31-44 | the status is always one of ACTIVE, INACTIVE, UNKNOWN |
| Normalizers.NormStatusClasses | src/data_processing.py:31-44 | ACTIVE exactly for a non-null cell whose trimmed lower-cased text is an active synonym or starts with "active"; INACTIVE exactly for an inactive synonym or a text starting with "inact" |
| Normalizers.StatusClassesDisjoint | src/data_processing.py:36-43 | no text is in both classes, so the order of the tests does not matter |
| Normalizers.NormStatusIdempotent | src/data_processing.py:31-44 | a normalized status normalizes to itself |
| Normalizers.NormStatusOfCode | src/data_processing.py:31-44 | each status code normalizes to itself |
| Normalizers.StatusRankPrefers | src/data_processing.py:229-230 | stated by `StatusRankPrefers`: ACTIVE ranks above INACTIVE, INACTIVE above every other status, and every status outside the table ranks with UNKNOWN (the `fillna(0)`) |
| Normalizers.FindStandard | src/data_processing.py:54-63 | a found standard is a table entry whose code or variant list holds the key; none found means no entry does |
| Normalizers.FindStandardVariations | src/data_processing.py:54-63 | the loop over the variations finds a standard exactly when the key is a spelling of some code, and finds that code |
| Normalizers.NormShipmentTypeOfKey | src/data_processing.py:47-65 | the shipment code is the code whose spellings hold the trimmed upper-cased text, and is a rate-sheet code or UNKNOWN |
| Normalizers.NormShipmentTypeSpellings | src/data_processing.py:47-65 | a cell maps to a rate-sheet code exactly when its key is one of that code's spellings |
| Normalizers.SpellingsDisjoint | src/data_processing.py:54-65 | the spelling sets of the four codes do not overlap |
| Normalizers.NormShipmentTypeIdempotent | src/data_processing.py:47-65 | a normalized shipment code normalizes to itself |
| Normalizers.NormShipmentTypeTwoDay | src/data_processing.py:55 | "2 Day" maps to 2DAY |
| Normalizers.NormShipmentTypeBicycle | src/data_processing.py:65 | the single example BICYCLE, which is no spelling of a rate-sheet code, maps to UNKNOWN |
| Normalizers.KeepAmountCharsFilter | src/data_processing.py:95 | the regex substitution keeps only digits, points and minus signs, all of them |
| Normalizers.KeepAmountCharsAppend | src/data_processing.py:95 | the substitution works character by character and keeps order |
| Normalizers.ParseUnsigned | src/data_processing.py:98 | an unsigned decimal parses to a non-negative number |
| Normalizers.ParseUnsignedPoint | src/data_processing.py:98 | a decimal with a point is its whole part plus its scaled fraction |
| Normalizers.ParseAmountOfMissing | src/data_processing.py:86-87 | None and NaN amounts are 0.0 |
| Normalizers.ParseAmountDollars | src/data_processing.py:93-98 | "$1,234.56" parses to 1234.56 |
| Normalizers.ParseAmountNoDigits | src/data_processing.py:95-101 | text without a digit, point or minus sign gives 0.0 |
| Normalizers.ParseAmountGarbage | src/data_processing.py:97-101 | "garbage" gives 0.0 instead of raising |
| Normalizers.ParseAmountNatural | src/data_processing.py:93-98 | the decimal rendering of any natural number parses back to it |
| Normalizers.ParseAmountNegative | src/data_processing.py:93-98 | a minus sign followed by the rendering of a natural parses to its negation |
| Normalizers.ParseDate | src/data_processing.py:68-81 | a null cell is NaT, a blank or white-space-only text is NaT, and any other cell is whatever the date parser gives |
| Values.FillUpper | src/data_processing.py:219-220 | the result has no lower-case letter and is, up to case, the default for a null cell and the cell's text otherwise |
| Values.FillUpperDefaults | src/data_processing.py:219-220 | a null currency becomes `USD` and a null tier `UNKNOWN` |
| Text.SplitJoinSpaces | src/data_processing.py:27 | splitting a space-joined list of words gives the words back |
| Text.JoinSpacesWellSpaced | src/data_processing.py:27 | joining words with single spaces gives a well-spaced string |
| Text.TitleFromIdempotent | src/data_processing.py:28 | `title()` is idempotent |
| Text.UpperIdempotent | src/data_processing.py:224-226 | upper-casing twice is upper-casing once |
| Fingerprint.Pairs | src/data_processing.py:19 | one `k=v` part per item, in order |
| Fingerprint.RowHashOrderFree | src/data_processing.py:17-20 | the hash of a row does not depend on the order of its items, because the keys are sorted first |
| Fingerprint.PreimageOfSorted | src/data_processing.py:19 | the hashed string is the `|`-join of the `k=v` parts in key order |
| Fingerprint.KeyLeTotalPreorder | src/data_processing.py:19 | ordering items by key is a total preorder |
| ClientReconciler.ClientHashIsRowHash | src/data_processing.py:244 | a client's `row_hash` is `_row_hash` of its six required columns |
| Schema.ColumnIndexSpec | src/data_processing.py:161 | a matching key is in the column index exactly when some column has it, and it names the last such column |
| Schema.InvoiceKey | src/data_processing.py:352 | the key has the name's length, no space and no upper-case letter; each other character is kept up to case and each space becomes `_` |
| Schema.InvoiceKeyIdempotent | src/data_processing.py:352 | a key is its own key |
| Schema.InvoiceKeyInvNo | src/data_processing.py:352 | `Inv No` and `inv_no` have the same key, `inv_no` |
| Schema.ClientSchemaOfHeader | src/data_processing.py:163-191 | client v2 exactly when `id` and `tier` are present; v3 exactly when not v2 and `customer_key` and `display_name` are present; else v1 |
| Schema.Rename | src/data_processing.py:196 | order and count are kept, every column with the old name becomes the new one, no column keeps the old name, the new name is present exactly when either was, and the presence of every other name is unchanged |
| Schema.ClientRenamedPointwise | src/data_processing.py:193-196 | each column's final name depends only on its own name |
| Schema.NameAfterUnnamed | src/data_processing.py:193-196 | a column that no mapping item names keeps its name |
| Schema.RenameClientColumns | src/data_processing.py:193-196 | the rename loop computes the client renaming |
| Schema.AmountColumn | src/data_processing.py:362 | the named column is one of the file's; there is none exactly when neither `total` nor `subtotal` matches, and `total` wins over `subtotal` |
| Schema.InvoiceSchemaOfHeader | src/data_processing.py:354-387 | invoice v2 exactly when `inv_no` and `customer_key` are present; v3 exactly when not v2 and `invoice_uid` and `client_ref` are present; else v1 |
| Schema.InvoiceV2Amount | src/data_processing.py:355-365 | in v2 the amount comes from the last `total` column, else the `subtotal` column, else nothing |
| Schema.InvoiceV3ClientRef | src/data_processing.py:366-376 | v3 maps `client_ref` to `client_name` and maps nothing to `client_id` |
| Schema.InvoiceRenamedKeeps | src/data_processing.py:389-392 | a column that no mapping item names keeps its name |
| Schema.RenameInvoiceColumns | src/data_processing.py:389-392 | the rename loop computes the invoice renaming, skipping unknown columns |
| ClientReconciler.PdfWindows | src/data_processing.py:119-142 | every window the scan takes starts at a client id with three lines after it |
| ClientReconciler.RecordsAt | src/data_processing.py:125-137 | one record per window |
| ClientReconciler.GroupPdfLines | src/data_processing.py:119-142 | the `while` loop builds exactly the records of the windows |
| ClientReconciler.PdfWindowsCover | src/data_processing.py:119-142 | the windows are disjoint and in order, and every line that could start a record lies in one of them |
| Schema.Field | src/data_processing.py:211-214 | a column the frame lacks reads as None; otherwise the cell of the first column with that name |
| ClientReconciler.ClientInputs | src/data_processing.py:211-214 | one input row per frame row, each of the six required columns read as `Schema.ReadsAs` says: None when the column is missing |
| ClientReconciler.StageStatus | src/data_processing.py:218-230 | a staged status is a status code, equal to the normalized one, and its rank is that code's rank |
| ClientReconciler.UpperStatusCode | src/data_processing.py:224-226 | upper-casing leaves the status codes unchanged |
| ClientReconciler.BatchLeTotalPreorder | src/data_processing.py:233-234 | the batch sort order (id ascending, rank descending, date descending, NaT last) is a total preorder |
| ClientReconciler.StagedRows | src/data_processing.py:216-230 | one staged row per input row |
| ClientReconciler.StageRows | src/data_processing.py:216-230 | the column transforms, applied row by row |
| ClientReconciler.KeptRowsIds | src/data_processing.py:233-237 | the kept rows have distinct client ids, and every id of the batch is kept |
| ClientReconciler.KeptRowIsBest | src/data_processing.py:233-237 | no row with the kept row's id has a higher rank, nor the same rank and a later date |
| ClientReconciler.FinishRows | src/data_processing.py:239-241 | `created_at` is formatted on every kept row |
| ClientReconciler.NormalizeBatch | src/data_processing.py:204-250 | the batch is normalized as specified, one row per upper-cased client id, none lost |
| ClientReconciler.NormalizedClientsIds | src/data_processing.py:204-250 | a normalized batch has distinct ids and covers every id of its input |
| ClientMerge.MergeKeyGroups | src/data_processing.py:289-290 | two rows share a merge key exactly when both have well-formed ids and the ids agree, or neither has one and the names agree, or one row's name is the other's well-formed id |
| ClientMerge.Group | src/data_processing.py:298 | a group holds exactly the rows with its merge key |
| ClientMerge.GroupKeyHasRows | src/data_processing.py:298 | every visited key has a non-empty group |
| ClientMerge.DateNewerOrNullOrder | src/data_processing.py:300-301 | newest-first with NaT last is a total order on dates |
| ClientMerge.GroupLeTotalPreorder | src/data_processing.py:300-301 | the group order (date descending, then rank descending) is a total preorder |
| ClientMerge.CellTests | src/data_processing.py:309-311 | the backfill's tests as the source writes them on cell values ("falsy or placeholder"; "not NaN and not blank") equal the model's tests on typed cells |
| ClientMerge.BaseOf | src/data_processing.py:304 | the `base` dict holds the first row's cells |
| ClientMerge.Set | src/data_processing.py:312 | assigning `base[col]` changes that column only |
| ClientMerge.FillRowGet | src/data_processing.py:308-312 | one row's pass over the columns changes each column as one fill step would |
| ClientMerge.FillTwice | src/data_processing.py:309-312 | offering the same donor twice is offering it once |
| ClientMerge.BackfillColumn | src/data_processing.py:306-312 | the nested loops backfill every column independently, from that column's cells down the group |
| ClientMerge.FillColumnKeepsComplete | src/data_processing.py:309-310 | a complete base value is never overwritten |
| ClientMerge.FillColumnFirstComplete | src/data_processing.py:306-312 | an incomplete base value ends as the first donor value that is both usable and complete |
| ClientMerge.FillColumnNoDonor | src/data_processing.py:306-312 | without such a donor the value stays incomplete |
| ClientMerge.FillColumnFrom | src/data_processing.py:306-312 | a backfilled value is the base's own or a donor's |
| ClientMerge.ReconcileColumns | src/data_processing.py:298-324 | each merged text field is the upper-cased backfill of its column, seeded from the base row; `created_at` is the base row's |
| ClientMerge.BaseRowIsNewest | src/data_processing.py:299-304 | the base row is a newest row of its group, best-ranked among rows of that date |
| ClientMerge.ReconcileNewest | src/data_processing.py:319-321 | the merged `created_at` is the newest date of the group |
| ClientMerge.ReconcileKeepsComplete | src/data_processing.py:309-317 | a complete text field of the base row survives the merge, upper-cased |
| ClientMerge.MergedOverAt | src/data_processing.py:297-326 | output row j is the merged row of the j-th key |
| ClientMerge.MergedClients | src/data_processing.py:281-333 | one merged row per merge key |
| ClientMerge.MergedOnePerKey | src/data_processing.py:286-298 | the merge keys are distinct, and every input row's key is among them |
| ClientMerge.ValidIdKept | src/data_processing.py:289 | a well-formed client id is complete and is its own upper-casing |
| ClientMerge.ReconcileValidId | src/data_processing.py:289-317 | a group keyed by a well-formed id merges into a row with that id |
| ClientMerge.MergedIdsDistinct | src/data_processing.py:281-333 | when every row has a well-formed id, the merged rows have distinct ids |
| ClientMerge.OfferRow | src/data_processing.py:308-312 | the inner loop offers every required column of a row |
| ClientMerge.BackfillGroup | src/data_processing.py:307-312 | the outer loop backfills the first row from every row in order |
| ClientMerge.MergeGroup | src/data_processing.py:298-326 | one iteration of the group loop yields that key's merged row |
| ClientMerge.MergeBatches | src/data_processing.py:297-326 | the group loop computes the merge |
| ClientMerge.NormalizedBatches | src/data_processing.py:260-271 | at most one batch per file |
| ClientMerge.NormalizedBatchesDistinct | src/data_processing.py:269-271 | every batch handed to the merge has one row per client id |
| ClientMerge.ReadSource | src/data_processing.py:261-267 | a CSV is renamed, a PDF is line-grouped, and any other file contributes nothing |
| ClientMerge.ProcessClientFiles | src/data_processing.py:252-279 | the file loop computes the processed clients |
| InvoiceReconciler.InvoiceInputs | src/data_processing.py:407-410 | one input row per frame row, each of the seven required columns read as `Schema.ReadsAs` says: None when the column is missing |
| InvoiceReconciler.UpperOrNullCells | src/data_processing.py:422-424 | an empty cell becomes null, a missing column's None becomes "NONE", and any other text is upper-cased unless it reads NAN |
| InvoiceReconciler.StagedInvoiceIds | src/data_processing.py:412-424 | blank ids become null; a missing id column gives "NONE"; names are their cleaned form, upper-cased |
| InvoiceReconciler.StagedInvoiceCodes | src/data_processing.py:412-428 | the shipment type is never null and is a rate-sheet code or UNKNOWN; blank currency is USD; blank amount is 0.0; the date is null exactly when the parse gives NaT |
| InvoiceReconciler.CodeIsUpper | src/data_processing.py:424 | a shipment code is its own upper-casing and is never NAN |
| InvoiceReconciler.StagedInvoices | src/data_processing.py:412-428 | one staged row per input row |
| InvoiceReconciler.StageInvoiceRows | src/data_processing.py:412-428 | the column transforms, applied row by row |
| InvoiceReconciler.NormalizedInvoicesIds | src/data_processing.py:433-434 | one row per `invoice_id` of the file (all null ids count as one), none lost |
| InvoiceReconciler.NormalizedInvoiceIsFirst | src/data_processing.py:433-434 | the row kept for an id is the first row of the file with it |
| InvoiceReconciler.NormalizeInvoiceBatch | src/data_processing.py:400-440 | the file is normalized as specified, with distinct ids and every id kept |
| InvoiceReconciler.InvoiceBatches | src/data_processing.py:450-455 | at most one batch per file |
| InvoiceReconciler.BatchesAreDeduplicated | src/data_processing.py:450-455 | each batch is the keep-first of its file's staged rows |
| InvoiceReconciler.ProcessedInvoicesOneDedup | src/data_processing.py:465-466 | the per-file de-duplication changes nothing: the result is one keep-first over all rows of all files |
| InvoiceReconciler.ProcessedInvoicesIds | src/data_processing.py:465-466 | the processed invoices have distinct ids, and every id of every file is among them |
| InvoiceReconciler.ProcessedInvoiceIsFirst | src/data_processing.py:465-466 | the row kept for an id is the first one across the files in order |
| InvoiceReconciler.ReadInvoiceSource | src/data_processing.py:450-457 | a CSV is renamed, and any other file contributes nothing |
| InvoiceReconciler.ProcessInvoiceFiles | src/data_processing.py:442-469 | the file loop computes the processed invoices, with distinct ids |
| Sorting.SortSorted | src/data_processing.py:233-234 | the stable sort orders the rows and keeps all of them |
| Sorting.KeepFirstSpec | src/data_processing.py:237 | keep-first keeps, for each key in order of first appearance, exactly the first row with it |
| Sorting.KeepFirstUnique | src/data_processing.py:237 | keep-first leaves distinct keys and loses no key |
| Sorting.KeepFirstBlocks | src/data_processing.py:465-466 | de-duplicating each block and then their concatenation equals one de-duplication of the concatenation |
| Sorting.Concat | src/data_processing.py:286 | the concatenation holds exactly the rows of the batches |
| FactDerivation.RateOfRateSheet | src/pipeline.py:122-129 | the rate list is the configured rate sheet; any other type (UNKNOWN included) gets a NULL rate |
| FactDerivation.FactFromInvoice | src/pipeline.py:107-118 | every fact comes from one stored invoice with an id, whose date, amount and type it copies |
| FactDerivation.FactCost | src/pipeline.py:116-117 | the cost is amount times the type's rate, NULL when the rate is NULL |
| FactDerivation.NullInvoiceIdsIgnored | src/pipeline.py:130 | invoices with a NULL id yield no facts |
| FactDerivation.LeftJoinRows | src/pipeline.py:107-121 | every invoice with an id gives a row: a matching client supplies id, name, status and tier; without one, the invoice's id and name are kept and status and tier are NULL |
| FactDerivation.MatchedFactsHaveStatus | src/pipeline.py:110-121 | a fact has a client status exactly when it comes from a matching client |
| FactDerivation.SelectedKeysUnique | src/pipeline.py:131-139 | with unique client and invoice ids, no two selected rows share (client_id, invoice_id) |
| FactDerivation.FactOrigin | src/pipeline.py:107-130 | a selected row is either the unmatched row of its invoice or the row of one matching client |
| FactDerivation.InsertOnConflict | src/pipeline.py:131-139 | every inserted row ends up under its key, rows under other keys stay, and no other key appears |
| Pipeline.Upserted | src/pipeline.py:64-68 | the upsert puts every row under its key, replacing what was there; other keys keep their rows |
| Pipeline.KeyedRowsUnique | src/database.py:88-110 | primary-keyed tables hold rows with unique ids |
| Pipeline.FactTableDetermined | src/pipeline.py:142-146 | a keyed fact table is determined by the rows it holds, so rebuilding on the same inputs leaves the same contents |
| Pipeline.Warehouse.constructor | src/database.py:81-128 | fresh tables are empty |
| Pipeline.Warehouse.UpsertClients | src/pipeline.py:61-68 | succeeds exactly when no key is repeated; the clients table becomes the upsert of the rows; other tables unchanged; nothing changes on error |
| Pipeline.Warehouse.UpsertInvoices | src/pipeline.py:84-91 | succeeds exactly when no id is NULL or repeated; a NULL id is the NULL-key error; the invoices table becomes the upsert; other tables unchanged |
| Pipeline.Warehouse.CreateFactTable | src/pipeline.py:96-152 | clients and invoices unchanged; succeeds exactly when no selected row has a NULL in a NOT NULL column; then the facts are exactly the selected rows, else the table is left cleared |
| Pipeline.Warehouse.RunFullPipeline | src/pipeline.py:291-321 | the counts are the processed frames' sizes; each upsert runs only for a non-empty frame and its failure ends the run with later tables unchanged; the facts are rebuilt only when either frame is non-empty |
| Aggregates.Present | src/analysis.py:53 | the present values: no more than the column, and none exactly when all are NULL |
| Aggregates.SqlSumSkipsNulls | src/analysis.py:51 | SUM is NULL exactly when every value is NULL, otherwise the sum of the present values |
| Aggregates.SqlSumTimes | src/analysis.py:211 | SUM of c times a column is c times its SUM, NULL in the same cases |
| Aggregates.SqlSumNullsTogether | src/analysis.py:147-153 | SUMs of two columns with NULLs in the same places are NULL together |
| Aggregates.SqlSumBetween | src/analysis.py:147-153 | a pointwise bound between lo times and once the values carries over to the SUMs |
| Aggregates.DescOrders | src/analysis.py:57 | descending order with NULLs first, and with NULLs last, are total preorders |
| Analysis.GroupKeysSpec | src/analysis.py:56 | one group for each key some row has, each once |
| Analysis.ClientTotalsIdentified | src/analysis.py:55 | facts with a NULL client_id form no group |
| Analysis.ClientTotalsCover | src/analysis.py:55-56 | one row per (client_id, client_name, client_status) present, each once |
| Analysis.ClientTotalsAggregate | src/analysis.py:47-56 | each row's total, count and average are over exactly its group, which is non-empty |
| Analysis.ByTotalOrders | src/analysis.py:57 | both orderings by total are total preorders |
| Analysis.TopClientsRanked | src/analysis.py:46-58 | at most five rows, five when that many groups exist; sorted by total descending; each row is a group with a client_id; every group left out has a total no larger than any kept |
| Analysis.TopClientsAsWrittenNullFirst | src/analysis.py:57 | as written, a client with a NULL total is ranked first |
| Analysis.TopClientsCostFirst | src/analysis.py:57 | ranked with NULLs last, the first client has a total whenever any client does |
| Analysis.MonthlyTotalsWindow | src/analysis.py:80-91 | a monthly total sums exactly the facts of its client, name and month dated in [2024-01-01, 2026-01-01), at least one of them, with a client_id |
| Analysis.MonthlyTotalsCover | src/analysis.py:80-91 | every fact in the window is counted under its key, and no key has two totals |
| Analysis.ByClientMonthOrder | src/analysis.py:96 | (client_id, month) order is a total preorder |
| Analysis.ConsecutiveMonths | src/analysis.py:96 | consecutive totals of one client in that order have no total of the client strictly between their months |
| Analysis.GrowthSign | src/analysis.py:108-111 | growth is NULL after a zero month; after a positive month it is positive exactly when the amount rose and negative exactly when it fell |
| Analysis.WithPreviousRows | src/analysis.py:93-113 | each growth row pairs a total with its partition predecessor, which has an amount |
| Analysis.LaggedPair | src/analysis.py:96-113 | the predecessor is the same client's previous present month |
| Analysis.GrowthFromPreviousMonth | src/analysis.py:93-115 | each reported row compares a monthly total with the same client's previous present month, which has a non-NULL amount |
| Analysis.GrowthCoversPreviousMonth | src/analysis.py:96-113 | conversely, every monthly total whose client has a total with a non-NULL amount in the month right before it yields its growth row before the `LIMIT` |
| Analysis.WithPreviousSorted | src/analysis.py:114 | the growth rows keep the (client_id, month) order of the totals they come from |
| Analysis.GrowthFirstTwenty | src/analysis.py:114-115 | the report is the first twenty growth rows in (client_id, month) order, or all when fewer, and each left-out row comes after each kept one |
| Analysis.FirstMonthDropped | src/analysis.py:113 | a client's first month yields no growth row |
| Analysis.GrowthPercentages | src/analysis.py:108-113 | the growth is NULL after a zero month or for a NULL amount, else (monthly - prev) / prev * 100 |
| Analysis.GrowthCountsDisjoint | src/analysis.py:121-122 | positive, negative, and null-or-zero rows partition the data; the two counts are disjoint and exclude null and zero growth |
| Analysis.DiscountFactorRates | src/analysis.py:147-152 | a type with a configured discount keeps one minus it (GROUND 0.8, FREIGHT 0.7, 2DAY 0.5); others, NULL included, keep all; the factor is between 0.5 and 1 |
| Analysis.DiscountedCostBetween | src/analysis.py:147-152 | a non-negative cost keeps between half and all of itself |
| Analysis.TypeTotalsBetween | src/analysis.py:141-157 | per type group, the discounted sum lies between half and all of the original sum |
| Analysis.TypeTotalsNullTogether | src/analysis.py:141-157 | for costs of any sign, a type total's original and discounted sums are NULL together |
| Analysis.DiscountSavings | src/analysis.py:158-168 | for costs of any sign, savings are total_original - total_discounted and the two totals are NULL together |
| Analysis.DiscountSavingsBounded | src/analysis.py:158-168 | with non-negative costs the savings are between 0 and half the original total |
| Analysis.DiscountScenarioRanked | src/analysis.py:169-190 | at most ten clients by discounted total descending (NULLs first); every client left out ranks no higher than one kept; the report is the first five |
| Analysis.ExpressRowAt | src/analysis.py:205-216 | each row is its client group's aggregate, with an EXPRESS shipment and a client_id |
| Analysis.ReclassificationClient | src/analysis.py:209-216 | only clients with an EXPRESS shipment appear, each with its number of EXPRESS facts |
| Analysis.ReclassificationCovers | src/analysis.py:205-216 | every client with an EXPRESS shipment appears |
| Analysis.ReclassificationSavings | src/analysis.py:210-224 | the ground-equivalent cost is 0.1 and the savings 0.9 of the express cost, NULL with it |
| Analysis.ReclassificationSavingsOf1000 | src/analysis.py:224 | an express cost of 1000 gives savings of 900 |
| Analysis.FlagYes | src/analysis.py:226-233 | a flag reads YES exactly when its condition holds |
| Analysis.ReclassificationFlags | src/analysis.py:225-233 | over_50 is YES exactly when savings / total_cost * 100 > 50; over_500k is YES exactly when savings > 500000; the percentage is savings / total_cost * 100 |
| Analysis.ReclassificationOrdered | src/analysis.py:236 | the rows are all of `express_analysis`, ordered by savings descending (NULLs first); the report is the first ten |
| Analysis.AnswerLists | src/analysis.py:242-260 | the answer lists hold exactly the names of the rows flagged YES |
| Analysis.PySumSpec | src/analysis.py:244 | Python's `sum` is defined exactly when no value is NULL, and is the sum of the values |
| Analysis.PySumScaled | src/analysis.py:244 | summing a scaled column scales the sum |
| Analysis.TotalPotentialSavingsNinetyPercent | src/analysis.py:244 | the total potential savings is 0.9 of the summed express cost, defined exactly when that sum is |
| Sorting.TakeSortTop | src/analysis.py:57-58 | ORDER BY ... LIMIT n keeps n sorted rows (fewer when fewer exist), all from the input, none outranked by a row left out |

## Left out

- File discovery and reading are not modelled: globbing, `pd.read_csv` and `PdfReader` text extraction, including how page texts are joined and split into lines. A CSV file enters as a table of cells. A PDF enters as its list of stripped, non-blank lines.
- Date parsing is a parameter of the model: pandas' `to_datetime` and the dateutil fallback are not modelled. Timestamps are reduced to their UTC date and second. The merge's second `pd.to_datetime` of the formatted `created_at` strings is taken to give back the same dates.
- SHA-256 is not modelled. A digest is its pre-image, so digests are equal exactly when pre-images are. The `str()` rendering of a float amount in the invoice hash is a parameter.
- Float behaviour is not modelled. Amounts and costs are exact reals, with no IEEE rounding and no DECIMAL(10,2) rounding. `float()` of a cell that is already a number passes the number through.
- Case mapping and `title()` cover ASCII letters only.
- Digits are ASCII only. Python's `\d` in the client-id pattern, the `[^\d.-]` amount filter and `float()` also accept other Unicode decimal digits, which the model treats as non-digits.
- Schema.Field: when a rename leaves two columns with one name, the model reads the first. The source's column then holds a frame, and the next `apply` or `pd.isna` raises ValueError and ends the run. One example is a v3 invoice file with both `client_ref` and `client_name`, or a v2 file with both `total` and `amount`. That error is not modelled.
- `replace('NAN', None)` is taken to set the cell to null. Older pandas versions used a fill method instead.
- Database plumbing is not modelled: connections, DDL, `to_sql` staging in `upsert_dataframe`, and column width limits such as `VARCHAR(10)`. An upsert is a map update keyed on the conflict columns. A NULL or repeated key in one statement is an error that leaves the table unchanged.
- `setup_database` and `find_data_files` are not modelled. Either can raise before any data step, and the run then stops. The model starts after them.
- `run_analysis_queries` (src/pipeline.py:154-288) repeats the four queries of src/analysis.py, which are modelled once. The `analysis_results` entry of `run_full_pipeline`'s result is not modelled.
- Report formatting and logging are not modelled: `generate_analysis_report`, `print_analysis_report`, the insight strings, the `min`/`max` growth range, the discount insight totals, and `get_summary_statistics`.
- Configuration loading is not modelled. The rate sheet and discount rates are constants.
- Aggregates.Percent: a zero divisor gives NULL. PostgreSQL would raise a division-by-zero error and end the query.
- Analysis.ReclassificationFlags inherits that reading for a zero `total_cost`, and the discount query's `savings_percentage` does for a zero `total_original`.
- Analysis.TopClientsRanked: rows that `ORDER BY` ties are left in the order their groups first appear. PostgreSQL leaves that order unspecified. The same holds for the order of GROUP BY groups and for `DiscountScenarioRanked`, `ReclassificationOrdered` and `Growth`.
- Analysis.IdLe: `client_id` strings are compared by code point. A database collation is not modelled.
- Analysis.GrowthFromPreviousMonth: it does not state how `LAG` breaks ties between two totals of one client in the same month, for example when the client's name differs. The model takes the stable sort's order. For the same reason Analysis.GrowthCoversPreviousMonth asks for a strictly earlier month with no other total of the client from that month to the later one.
- Pipeline.Warehouse.RunFullPipeline: an exception ends the run with earlier steps applied. Each statement is applied whole or not at all, and transactions are not modelled further.

## Findings

| source | as written | input that shows it | evidently intended | confidence | as-written member | corrected member |
|---|---|---|---|---|---|---|
| src/analysis.py:57 | `ORDER BY total_invoice_cost DESC` ranks a client whose total is NULL above every client with costs | a client all of whose invoices have an unrated shipment type (UNKNOWN), so every cost is NULL, next to a client with one GROUND invoice: the NULL-total client is `data[0]`, and the insight `f"{data[0][3]:,.2f}"` then raises | rank by cost with NULL totals last (`DESC NULLS LAST`) | not executed | Analysis.TopClientsAsWritten, shown by Analysis.TopClientsAsWrittenNullFirst | Analysis.TopClients, proved by Analysis.TopClientsRanked and Analysis.TopClientsCostFirst |
