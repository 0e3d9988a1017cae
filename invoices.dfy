/**
 * `InvoiceProcessor`: the column transforms of `normalize_dataframe`, the
 * keep-first de-duplication by `invoice_id` inside each file, and
 * `process_files`, which concatenates the files' batches in order and
 * de-duplicates by `invoice_id` once more.
 */
module InvoiceReconciler {
  import opened Wrappers
  import opened Text
  import opened Values
  import opened Dates
  import opened Sorting
  import opened Normalizers
  import opened Fingerprint
  import opened Schema
  import Config

  /** An invoice row as it enters `normalize_dataframe`: one cell per required column. */
  datatype InvoiceInput = InvoiceInput(
    invoiceId: Raw, clientId: Raw, clientName: Raw, invoiceDate: Raw,
    amount: Raw, currency: Raw, shipmentType: Raw)

  /**
   * A canonical invoice row; `None` is a null cell. Its `row_hash` column is
   * a function of these seven fields, `InvoiceRowHash`.
   */
  datatype Invoice = Invoice(
    invoiceId: Option<string>, clientId: Option<string>, clientName: Option<string>,
    invoiceDate: Option<Date>, amount: real, currency: Option<string>, shipmentType: Option<string>)

  /** The required columns of a mapped CSV frame; a missing column reads as None. */
  function InvoiceInputs(t: Table): (r: seq<InvoiceInput>)
    ensures |r| == |t.rows|
    ensures forall k :: 0 <= k < |r| ==> ReadsAs(t.header, t.rows[k], "invoice_id", r[k].invoiceId)
    ensures forall k :: 0 <= k < |r| ==> ReadsAs(t.header, t.rows[k], "client_id", r[k].clientId)
    ensures forall k :: 0 <= k < |r| ==> ReadsAs(t.header, t.rows[k], "client_name", r[k].clientName)
    ensures forall k :: 0 <= k < |r| ==> ReadsAs(t.header, t.rows[k], "invoice_date", r[k].invoiceDate)
    ensures forall k :: 0 <= k < |r| ==> ReadsAs(t.header, t.rows[k], "amount", r[k].amount)
    ensures forall k :: 0 <= k < |r| ==> ReadsAs(t.header, t.rows[k], "currency", r[k].currency)
    ensures forall k :: 0 <= k < |r| ==> ReadsAs(t.header, t.rows[k], "shipment_type", r[k].shipmentType)
  {
    seq(|t.rows|, k requires 0 <= k < |t.rows| =>
      var row := t.rows[k];
      InvoiceInput(
        Field(t.header, row, "invoice_id"), Field(t.header, row, "client_id"),
        Field(t.header, row, "client_name"), Field(t.header, row, "invoice_date"),
        Field(t.header, row, "amount"), Field(t.header, row, "currency"),
        Field(t.header, row, "shipment_type")))
  }

  // ------------------------------------------------------ normalize_dataframe

  /** `.astype(str).str.upper().replace('NAN', None)` on the text of one cell. */
  function UpperOrNull(s: string): Option<string> {
    var u := Upper(s);
    if u == "NAN" then None else Some(u)
  }

  /**
   * One row through the column transforms: the date parse (kept as its UTC
   * calendar date, as `strftime('%Y-%m-%d')` writes it), the amount parse,
   * the shipment code, the currency default, the cleaned name and the
   * upper-casing of the five string columns.
   */
  function StageInvoice(r: InvoiceInput, parser: DateParser): Invoice {
    var date := ParseDate(r.invoiceDate, parser);
    Invoice(
      UpperOrNull(Render(r.invoiceId)),
      UpperOrNull(Render(r.clientId)),
      UpperOrNull(NameText(CleanName(r.clientName))),
      if date.Some? then Some(date.value.date) else None,
      ParseAmount(r.amount),
      UpperOrNull(FillUpper(r.currency, "USD")),
      UpperOrNull(NormShipmentType(r.shipmentType)))
  }

  lemma UpperNan(s: string)
    requires s == "nan"
    ensures Upper(s) == "NAN"
  {
  }

  lemma UpperNone(s: string)
    requires s == "None"
    ensures Upper(s) == "NONE" && Upper(s) != "NAN"
  {
  }

  lemma UpperUsd(s: string)
    requires s == "USD"
    ensures Upper(s) == s && s != "NAN"
  {
    assert NoLower(s);
    UpperNoLower(s);
  }

  /**
   * How a string column treats its cells: an empty CSV cell (NaN) becomes
   * null, the None of a column the file lacks becomes the text `NONE`, and
   * any other text is upper-cased unless it reads `NAN`.
   */
  lemma UpperOrNullCells(x: Raw)
    ensures x == NaN ==> UpperOrNull(Render(x)) == None
    ensures x == Missing ==> UpperOrNull(Render(x)) == Some("NONE")
    ensures x.Str? ==> (UpperOrNull(Render(x)) == None <==> Upper(x.s) == "NAN")
    ensures x.Str? && Upper(x.s) != "NAN" ==> UpperOrNull(Render(x)) == Some(Upper(x.s))
  {
    if x == NaN {
      UpperNan(Render(x));
    } else if x == Missing {
      UpperNone(Render(x));
    }
  }

  /**
   * The identifier columns: a blank `invoice_id` or `client_id` cell is null
   * but a missing column is the text `NONE`; a null name becomes `NONE`, any
   * other name is its cleaned form upper-cased.
   */
  lemma StagedInvoiceIds(r: InvoiceInput, parser: DateParser)
    ensures r.invoiceId == NaN ==> StageInvoice(r, parser).invoiceId == None
    ensures r.invoiceId == Missing ==> StageInvoice(r, parser).invoiceId == Some("NONE")
    ensures r.clientId == NaN ==> StageInvoice(r, parser).clientId == None
    ensures r.clientId == Missing ==> StageInvoice(r, parser).clientId == Some("NONE")
    ensures IsNA(r.clientName) ==> StageInvoice(r, parser).clientName == Some("NONE")
    ensures !IsNA(r.clientName) && Upper(CleanName(r.clientName).value) != "NAN" ==>
      StageInvoice(r, parser).clientName == Some(Upper(CleanName(r.clientName).value))
  {
    UpperOrNullCells(r.invoiceId);
    UpperOrNullCells(r.clientId);
    if IsNA(r.clientName) {
      UpperNone(NameText(CleanName(r.clientName)));
    }
  }

  /** A shipment code is its own upper-casing and is never the text `NAN`. */
  lemma CodeIsUpper(c: string)
    requires c in Config.RateSheet || c == "UNKNOWN"
    ensures Upper(c) == c && c != "NAN"
  {
    RateSheetKeys(c);
    if c == "GROUND" {
      assert NoLower(c);
    } else if c == "2DAY" {
      assert NoLower(c);
    } else if c == "EXPRESS" {
      assert NoLower(c);
    } else if c == "FREIGHT" {
      assert NoLower(c);
    } else {
      assert NoLower(c);
    }
    UpperNoLower(c);
  }

  /**
   * The coded columns: the shipment type is never null and is a rate-sheet
   * code or UNKNOWN; a blank currency is USD; a blank amount is 0.0; the
   * date is null exactly when the parse gives NaT.
   */
  lemma StagedInvoiceCodes(r: InvoiceInput, parser: DateParser)
    ensures StageInvoice(r, parser).shipmentType == Some(NormShipmentType(r.shipmentType))
    ensures var t := StageInvoice(r, parser).shipmentType.value;
      t in Config.RateSheet || t == "UNKNOWN"
    ensures IsNA(r.currency) ==> StageInvoice(r, parser).currency == Some("USD")
    ensures IsNA(r.amount) ==> StageInvoice(r, parser).amount == 0.0
    ensures StageInvoice(r, parser).invoiceDate.None? <==> ParseDate(r.invoiceDate, parser).None?
  {
    var code := NormShipmentType(r.shipmentType);
    if !IsNA(r.shipmentType) {
      NormShipmentTypeOfKey(r.shipmentType);
    }
    CodeIsUpper(code);
    if IsNA(r.currency) {
      UpperUsd("USD");
      UpperIdempotent("USD");
    }
  }

  /** The `invoice_id` column, the key of both de-duplications. */
  function InvoiceIdOf(v: Invoice): Option<string> {
    v.invoiceId
  }

  /** The rows of a batch after the column transforms, in file order. */
  function StagedInvoices(rows: seq<InvoiceInput>, parser: DateParser): (r: seq<Invoice>)
    ensures |r| == |rows|
  {
    seq(|rows|, k requires 0 <= k < |rows| => StageInvoice(rows[k], parser))
  }

  /** `InvoiceProcessor.normalize_dataframe`: the transforms, then `drop_duplicates('invoice_id', keep='first')`. */
  function NormalizedInvoices(rows: seq<InvoiceInput>, parser: DateParser): seq<Invoice> {
    KeepFirst(StagedInvoices(rows, parser), InvoiceIdOf)
  }

  /** One row per `invoice_id` of the batch (all null ids count as one), and every id of the batch is kept. */
  lemma NormalizedInvoicesIds(rows: seq<InvoiceInput>, parser: DateParser)
    ensures var out := NormalizedInvoices(rows, parser);
      forall i, j :: 0 <= i < j < |out| ==> out[i].invoiceId != out[j].invoiceId
    ensures var out := NormalizedInvoices(rows, parser);
      forall k :: 0 <= k < |rows| ==>
        exists v :: v in out && v.invoiceId == StageInvoice(rows[k], parser).invoiceId
  {
    var staged := StagedInvoices(rows, parser);
    KeepFirstUnique(staged, InvoiceIdOf);
    forall k | 0 <= k < |rows|
      ensures exists v :: v in NormalizedInvoices(rows, parser) && v.invoiceId == StageInvoice(rows[k], parser).invoiceId
    {
      assert staged[k] in staged;
      KeepFirstCovers(staged, InvoiceIdOf, staged[k]);
    }
  }

  /** The row kept for an `invoice_id` is the first row of the file that carries it. */
  lemma NormalizedInvoiceIsFirst(rows: seq<InvoiceInput>, parser: DateParser, v: Invoice)
    requires v in NormalizedInvoices(rows, parser)
    ensures exists i ::
      && 0 <= i < |rows| && StageInvoice(rows[i], parser) == v
      && forall j :: 0 <= j < i ==> StageInvoice(rows[j], parser).invoiceId != v.invoiceId
  {
    var staged := StagedInvoices(rows, parser);
    KeepFirstIsFirst(staged, InvoiceIdOf, v);
    var i :| 0 <= i < |staged| && staged[i] == v && forall j :: 0 <= j < i ==> InvoiceIdOf(staged[j]) != InvoiceIdOf(v);
    assert forall j :: 0 <= j < i ==> StageInvoice(rows[j], parser).invoiceId != v.invoiceId by {
      forall j | 0 <= j < i ensures StageInvoice(rows[j], parser).invoiceId != v.invoiceId {
        assert staged[j] == StageInvoice(rows[j], parser);
      }
    }
  }

  /** The column transforms of `normalize_dataframe`, applied row by row. */
  method StageInvoiceRows(rows: seq<InvoiceInput>, parser: DateParser) returns (staged: seq<Invoice>)
    ensures staged == StagedInvoices(rows, parser)
  {
    staged := ApplyRows(rows, r => StageInvoice(r, parser));
  }

  /**
   * `InvoiceProcessor.normalize_dataframe` on a batch: the column
   * transforms and the keep-first by `invoice_id`. The result holds one row
   * per `invoice_id` of the batch.
   */
  method NormalizeInvoiceBatch(rows: seq<InvoiceInput>, parser: DateParser) returns (out: seq<Invoice>)
    ensures out == NormalizedInvoices(rows, parser)
    ensures forall i, j :: 0 <= i < j < |out| ==> out[i].invoiceId != out[j].invoiceId
    ensures forall k :: 0 <= k < |rows| ==>
      exists v :: v in out && v.invoiceId == StageInvoice(rows[k], parser).invoiceId
  {
    var staged := StageInvoiceRows(rows, parser);
    out := KeepFirst(staged, InvoiceIdOf);
    NormalizedInvoicesIds(rows, parser);
  }

  // -------------------------------------------------------------- row_hash

  /** `str()` of a string cell; a null cell prints as `None`. */
  function OptText(o: Option<string>): string {
    match o
    case None => "None"
    case Some(s) => s
  }

  /**
   * The row's items in the order of `required_columns`, as `_row_hash`
   * receives them. Python's `str()` of a float is not modelled: the
   * rendering of the amount is a parameter.
   */
  function InvoiceItems(v: Invoice, amountText: real -> string): seq<Item> {
    [("invoice_id", OptText(v.invoiceId)), ("client_id", OptText(v.clientId)),
     ("client_name", OptText(v.clientName)), ("invoice_date", DateText(v.invoiceDate)),
     ("amount", amountText(v.amount)), ("currency", OptText(v.currency)),
     ("shipment_type", OptText(v.shipmentType))]
  }

  /** The `row_hash` column, computed before the de-duplication and carried with its row. */
  function InvoiceRowHash(v: Invoice, amountText: real -> string): Digest {
    RowHash(InvoiceItems(v, amountText))
  }

  // ----------------------------------------------------------- process_files

  /**
   * One matched file: a `.csv` file as read, a file of another format
   * (skipped) or a CSV whose reader raised (an empty frame).
   */
  datatype InvoiceSource = InvoiceCsv(table: Table) | OtherInvoiceFile | UnreadableInvoiceCsv

  /** The rows a source contributes; an empty frame contributes none. */
  function InvoiceSourceRows(src: InvoiceSource): seq<InvoiceInput> {
    match src
    case InvoiceCsv(t) => if IsEmpty(InvoiceMapped(t)) then [] else InvoiceInputs(InvoiceMapped(t))
    case OtherInvoiceFile => []
    case UnreadableInvoiceCsv => []
  }

  /** The normalized batches of the sources that yield rows, in order. */
  function InvoiceBatches(sources: seq<InvoiceSource>, parser: DateParser): (bs: seq<seq<Invoice>>)
    ensures |bs| <= |sources|
  {
    if sources == [] then []
    else
      var init := InvoiceBatches(sources[..|sources| - 1], parser);
      var rows := InvoiceSourceRows(sources[|sources| - 1]);
      if rows == [] then init else init + [NormalizedInvoices(rows, parser)]
  }

  /** `InvoiceProcessor.process_files`: concatenate the batches and keep the first row per `invoice_id`. */
  function ProcessedInvoices(sources: seq<InvoiceSource>, parser: DateParser): seq<Invoice> {
    var batches := InvoiceBatches(sources, parser);
    if batches == [] then [] else KeepFirst(Concat(batches), InvoiceIdOf)
  }

  /** The transformed rows of the same sources before any de-duplication. */
  function StagedBatches(sources: seq<InvoiceSource>, parser: DateParser): (bs: seq<seq<Invoice>>)
    ensures |bs| <= |sources|
  {
    if sources == [] then []
    else
      var init := StagedBatches(sources[..|sources| - 1], parser);
      var rows := InvoiceSourceRows(sources[|sources| - 1]);
      if rows == [] then init else init + [StagedInvoices(rows, parser)]
  }

  /** Every transformed row of every file, in file order and row order. */
  function AllStagedInvoices(sources: seq<InvoiceSource>, parser: DateParser): seq<Invoice> {
    Concat(StagedBatches(sources, parser))
  }

  /** Each normalized batch is the keep-first of the same file's transformed rows. */
  lemma {:induction false} BatchesAreDeduplicated(sources: seq<InvoiceSource>, parser: DateParser)
    ensures |InvoiceBatches(sources, parser)| == |StagedBatches(sources, parser)|
    ensures forall i :: 0 <= i < |StagedBatches(sources, parser)| ==>
      InvoiceBatches(sources, parser)[i] == KeepFirst(StagedBatches(sources, parser)[i], InvoiceIdOf)
  {
    if sources != [] {
      BatchesAreDeduplicated(sources[..|sources| - 1], parser);
    }
  }

  /**
   * The de-duplication inside each file changes nothing: the result is one
   * keep-first by `invoice_id` over all rows of all files, in file order.
   */
  lemma ProcessedInvoicesOneDedup(sources: seq<InvoiceSource>, parser: DateParser)
    ensures ProcessedInvoices(sources, parser) == KeepFirst(AllStagedInvoices(sources, parser), InvoiceIdOf)
  {
    BatchesAreDeduplicated(sources, parser);
    KeepFirstBlocks(InvoiceBatches(sources, parser), StagedBatches(sources, parser), InvoiceIdOf, {});
  }

  /**
   * The processed invoices carry distinct `invoice_id`s, every id of every
   * file is among them, and the row kept for an id is the first row, across
   * the files in order, that carries it.
   */
  lemma ProcessedInvoicesIds(sources: seq<InvoiceSource>, parser: DateParser)
    ensures var out := ProcessedInvoices(sources, parser);
      forall i, j :: 0 <= i < j < |out| ==> out[i].invoiceId != out[j].invoiceId
    ensures forall v :: v in AllStagedInvoices(sources, parser) ==>
      exists w :: w in ProcessedInvoices(sources, parser) && w.invoiceId == v.invoiceId
  {
    var all := AllStagedInvoices(sources, parser);
    ProcessedInvoicesOneDedup(sources, parser);
    KeepFirstUnique(all, InvoiceIdOf);
    forall v | v in all ensures exists w :: w in ProcessedInvoices(sources, parser) && w.invoiceId == v.invoiceId {
      KeepFirstCovers(all, InvoiceIdOf, v);
    }
  }

  /** The row kept for an `invoice_id` is the first one, across the files in order, that carries it. */
  lemma ProcessedInvoiceIsFirst(sources: seq<InvoiceSource>, parser: DateParser, v: Invoice)
    requires v in ProcessedInvoices(sources, parser)
    ensures var all := AllStagedInvoices(sources, parser);
      exists i :: 0 <= i < |all| && all[i] == v && forall j :: 0 <= j < i ==> all[j].invoiceId != v.invoiceId
  {
    ProcessedInvoicesOneDedup(sources, parser);
    KeepFirstIsFirst(AllStagedInvoices(sources, parser), InvoiceIdOf, v);
  }

  /** The reading step for one source: the rename of a CSV frame's columns. */
  method ReadInvoiceSource(src: InvoiceSource) returns (rows: seq<InvoiceInput>)
    ensures rows == InvoiceSourceRows(src)
  {
    match src
    case InvoiceCsv(t) =>
      var cols := ColumnIndex(t.header, InvoiceKey);
      var header := RenameInvoiceColumns(t.header, InvoiceMapping(DetectInvoiceSchema(cols), cols));
      var mapped := Table(header, t.rows);
      rows := if IsEmpty(mapped) then [] else InvoiceInputs(mapped);
    case OtherInvoiceFile =>
      rows := [];
    case UnreadableInvoiceCsv =>
      rows := [];
  }

  /**
   * The loop of `process_files` over the matched files: each non-empty CSV
   * frame is normalized and kept; the kept batches are concatenated and
   * de-duplicated by `invoice_id`.
   */
  method ProcessInvoiceFiles(sources: seq<InvoiceSource>, parser: DateParser) returns (out: seq<Invoice>)
    ensures out == ProcessedInvoices(sources, parser)
    ensures forall i, j :: 0 <= i < j < |out| ==> out[i].invoiceId != out[j].invoiceId
  {
    var batches: seq<seq<Invoice>> := [];
    for k := 0 to |sources|
      invariant batches == InvoiceBatches(sources[..k], parser)
    {
      assert sources[..k + 1][..k] == sources[..k];
      var rows := ReadInvoiceSource(sources[k]);
      if rows != [] {
        var batch := NormalizeInvoiceBatch(rows, parser);
        batches := batches + [batch];
      }
    }
    assert sources[..|sources|] == sources;
    if batches == [] {
      out := [];
    } else {
      out := KeepFirst(Concat(batches), InvoiceIdOf);
    }
    ProcessedInvoicesIds(sources, parser);
  }
}
