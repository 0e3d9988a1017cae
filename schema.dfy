/**
 * Schema detection and column renaming for client and invoice CSV files
 * (`ClientProcessor.read_csv`, `InvoiceProcessor.read_csv`): a first-match
 * rule list over the file's column names, then a rename of the columns the
 * chosen mapping names.
 */
module Schema {
  import opened Wrappers
  import opened Text
  import opened Values

  /** A frame as `pd.read_csv` hands it over: column names in order and rows of cells. */
  datatype Table = Table(header: seq<string>, rows: seq<seq<Raw>>)

  /** `df.empty`: no rows or no columns. */
  predicate IsEmpty(t: Table) {
    |t.rows| == 0 || |t.header| == 0
  }

  /**
   * `v` is what the column `name` holds in `row` once a missing required
   * column is added as None: None when no column has that name, else the
   * cell of the first column with it (NaN past the end of a short row).
   */
  predicate ReadsAs(header: seq<string>, row: seq<Raw>, name: string, v: Raw) {
    && (name !in header ==> v == Missing)
    && forall i :: 0 <= i < |header| && header[i] == name && name !in header[..i] ==>
      v == (if i < |row| then row[i] else NaN)
  }

  /** The cell of `row` in the first column called `name`; `Missing` when there is none. */
  function Field(header: seq<string>, row: seq<Raw>, name: string): (r: Raw)
    ensures ReadsAs(header, row, name, r)
  {
    var i := IndexOf(header, name);
    if i == |header| then Missing else if i < |row| then row[i] else NaN
  }

  function IndexOf(header: seq<string>, name: string): (i: nat)
    ensures i <= |header|
    ensures i < |header| ==> header[i] == name
    ensures forall j :: 0 <= j < i ==> header[j] != name
  {
    if header == [] then 0 else if header[0] == name then 0 else 1 + IndexOf(header[1..], name)
  }

  // --------------------------------------------------- matching column names

  /** The client matching key of a column, `c.lower()`. */
  function ClientKey(c: string): string {
    Lower(c)
  }

  /** The invoice matching key of a column, `c.lower().replace(' ', '_')`. */
  function InvoiceKey(c: string): (r: string)
    ensures |r| == |c|
    ensures forall i :: 0 <= i < |r| ==> r[i] != ' ' && !IsAsciiUpper(r[i])
    ensures forall i :: 0 <= i < |c| && c[i] != ' ' ==> LowerChar(r[i]) == LowerChar(c[i])
    ensures forall i :: 0 <= i < |c| && c[i] == ' ' ==> r[i] == '_'
  {
    var l := Lower(c);
    seq(|l|, i requires 0 <= i < |l| => if l[i] == ' ' then '_' else l[i])
  }

  /** A key is its own key, so a column already written as a key is matched under its own name. */
  lemma InvoiceKeyIdempotent(c: string)
    ensures InvoiceKey(InvoiceKey(c)) == InvoiceKey(c)
  {
  }

  /** Case and a space for an underscore do not matter: "Inv No" is matched as `inv_no`. */
  lemma InvoiceKeyInvNo(c: string, d: string)
    requires c == "Inv No" && d == "inv_no"
    ensures InvoiceKey(c) == InvoiceKey(d) == d
  {
  }

  /**
   * `{key(c): c for c in columns}`: when two columns share a key the later
   * one is kept.
   */
  function ColumnIndex(header: seq<string>, key: string -> string): map<string, string> {
    if header == [] then map[]
    else ColumnIndex(header[..|header| - 1], key)[key(header[|header| - 1]) := header[|header| - 1]]
  }

  /**
   * A key is in the index exactly when some column has it, and it stands for
   * the last column that has it.
   */
  lemma {:induction false} ColumnIndexSpec(header: seq<string>, key: string -> string, k: string)
    ensures k in ColumnIndex(header, key) <==> exists i :: 0 <= i < |header| && key(header[i]) == k
    ensures k in ColumnIndex(header, key) ==>
      exists i :: 0 <= i < |header| && header[i] == ColumnIndex(header, key)[k] && key(header[i]) == k
        && forall j :: i < j < |header| ==> key(header[j]) != k
  {
    if header != [] {
      var n := |header| - 1;
      var init := header[..n];
      ColumnIndexSpec(init, key, k);
      assert forall i :: 0 <= i < n ==> init[i] == header[i];
      if key(header[n]) != k && k in ColumnIndex(header, key) {
        var i :| 0 <= i < |init| && init[i] == ColumnIndex(init, key)[k] && key(init[i]) == k
          && forall j :: i < j < |init| ==> key(init[j]) != k;
        assert header[i] == ColumnIndex(header, key)[k];
      }
    }
  }

  predicate HasKey(header: seq<string>, key: string -> string, k: string) {
    exists i :: 0 <= i < |header| && key(header[i]) == k
  }

  /** `cols.get(k, default)` */
  function GetOr(cols: map<string, string>, k: string, default: string): string {
    if k in cols then cols[k] else default
  }

  /** `cols.get(k)`, which gives None for a missing key. */
  function Get(cols: map<string, string>, k: string): Option<string> {
    if k in cols then Some(cols[k]) else None
  }

  // ----------------------------------------------------------------- clients

  datatype ClientSchema = ClientV1 | ClientV2 | ClientV3

  /** The first rule whose columns are all present decides the schema. */
  function DetectClientSchema(cols: map<string, string>): ClientSchema {
    if "id" in cols && "tier" in cols then ClientV2
    else if "customer_key" in cols && "display_name" in cols then ClientV3
    else ClientV1
  }

  /** The mapping's items in dictionary order: (existing column, canonical name). */
  function ClientMapping(schema: ClientSchema, cols: map<string, string>): seq<(string, string)> {
    match schema
    case ClientV2 => [
      (GetOr(cols, "id", "id"), "client_id"),
      (GetOr(cols, "name", "name"), "client_name"),
      (GetOr(cols, "tier", "tier"), "tier"),
      (GetOr(cols, "acct_open_date", "acct_open_date"), "created_at")]
    case ClientV3 => [
      (GetOr(cols, "customer_key", "customer_key"), "client_id"),
      (GetOr(cols, "display_name", "display_name"), "client_name"),
      (GetOr(cols, "active_flag", "active_flag"), "status"),
      (GetOr(cols, "signup_ts", "signup_ts"), "created_at"),
      (GetOr(cols, "currency", "currency"), "currency")]
    case ClientV1 => [
      (GetOr(cols, "client_id", "client_id"), "client_id"),
      (GetOr(cols, "client_name", "client_name"), "client_name"),
      (GetOr(cols, "status", "status"), "status"),
      (GetOr(cols, "created_at", "created_at"), "created_at")]
  }

  function ClientSchemaOf(header: seq<string>): ClientSchema {
    DetectClientSchema(ColumnIndex(header, ClientKey))
  }

  /**
   * Detection is first-match on the lower-cased column names: `id` with
   * `tier` means v2 whatever else is present, `customer_key` with
   * `display_name` means v3 otherwise, and anything else is v1.
   */
  lemma ClientSchemaOfHeader(header: seq<string>)
    ensures ClientSchemaOf(header) == ClientV2 <==>
      HasKey(header, ClientKey, "id") && HasKey(header, ClientKey, "tier")
    ensures ClientSchemaOf(header) == ClientV3 <==>
      !(HasKey(header, ClientKey, "id") && HasKey(header, ClientKey, "tier"))
      && HasKey(header, ClientKey, "customer_key") && HasKey(header, ClientKey, "display_name")
  {
    ColumnIndexSpec(header, ClientKey, "id");
    ColumnIndexSpec(header, ClientKey, "tier");
    ColumnIndexSpec(header, ClientKey, "customer_key");
    ColumnIndexSpec(header, ClientKey, "display_name");
  }

  /** `df.rename(columns={src: dst})`: every column called `src` is renamed. */
  function Rename(header: seq<string>, src: string, dst: string): (r: seq<string>)
    ensures |r| == |header|
    ensures forall i :: 0 <= i < |header| ==> r[i] == (if header[i] == src then dst else header[i])
    ensures src != dst ==> src !in r
    ensures dst in r <==> dst in header || src in header
    ensures forall c :: c != src && c != dst ==> (c in r <==> c in header)
  {
    seq(|header|, i requires 0 <= i < |header| => if header[i] == src then dst else header[i])
  }

  /** The client rename loop: each item, in order, renames its column if the column exists. */
  function ClientRenamed(header: seq<string>, mapping: seq<(string, string)>): seq<string>
    decreases |mapping|
  {
    if mapping == [] then header
    else
      var (src, dst) := mapping[0];
      ClientRenamed(if src in header then Rename(header, src, dst) else header, mapping[1..])
  }

  /** The name a single column ends up with after the items of `mapping` are applied in turn. */
  function NameAfter(c: string, mapping: seq<(string, string)>): string
    decreases |mapping|
  {
    if mapping == [] then c
    else NameAfter(if c == mapping[0].0 then mapping[0].1 else c, mapping[1..])
  }

  /**
   * Renaming only touches columns that exist: the final name of every column
   * depends on its own name alone, and a column that no item names keeps
   * its name.
   */
  lemma {:induction false} ClientRenamedPointwise(header: seq<string>, mapping: seq<(string, string)>)
    ensures |ClientRenamed(header, mapping)| == |header|
    ensures forall i :: 0 <= i < |header| ==> ClientRenamed(header, mapping)[i] == NameAfter(header[i], mapping)
    decreases |mapping|
  {
    if mapping != [] {
      var (src, dst) := mapping[0];
      var next := if src in header then Rename(header, src, dst) else header;
      ClientRenamedPointwise(next, mapping[1..]);
      forall i | 0 <= i < |header| ensures next[i] == (if header[i] == src then dst else header[i]) {
        if src !in header { assert header[i] != src; }
      }
    }
  }

  lemma {:induction false} NameAfterUnnamed(c: string, mapping: seq<(string, string)>)
    requires forall k :: 0 <= k < |mapping| ==> mapping[k].0 != c && mapping[k].1 != c
    ensures NameAfter(c, mapping) == c
    decreases |mapping|
  {
    if mapping != [] {
      NameAfterUnnamed(c, mapping[1..]);
    }
  }

  /** `ClientProcessor.read_csv` after the file is read: the frame with its columns renamed. */
  function ClientMapped(t: Table): Table {
    var cols := ColumnIndex(t.header, ClientKey);
    Table(ClientRenamed(t.header, ClientMapping(DetectClientSchema(cols), cols)), t.rows)
  }

  /** The rename loop of `ClientProcessor.read_csv`. */
  method RenameClientColumns(header: seq<string>, mapping: seq<(string, string)>) returns (r: seq<string>)
    ensures r == ClientRenamed(header, mapping)
  {
    r := header;
    for k := 0 to |mapping|
      invariant ClientRenamed(r, mapping[k..]) == ClientRenamed(header, mapping)
    {
      assert mapping[k..][1..] == mapping[k + 1..];
      var (src, dst) := mapping[k];
      if src in r {
        r := Rename(r, src, dst);
      }
    }
  }

  // ---------------------------------------------------------------- invoices

  datatype InvoiceSchema = InvoiceV1 | InvoiceV2 | InvoiceV3

  function DetectInvoiceSchema(cols: map<string, string>): InvoiceSchema {
    if "inv_no" in cols && "customer_key" in cols then InvoiceV2
    else if "invoice_uid" in cols && "client_ref" in cols then InvoiceV3
    else InvoiceV1
  }

  /** `cols.get("total", cols.get("subtotal"))` */
  function AmountColumn(cols: map<string, string>): (r: Option<string>)
    ensures r.None? <==> "total" !in cols && "subtotal" !in cols
    ensures r.Some? ==> r.value in cols.Values
    ensures "total" in cols ==> r == Some(cols["total"])
    ensures "total" !in cols && "subtotal" in cols ==> r == Some(cols["subtotal"])
  {
    if "total" in cols then Some(cols["total"]) else Get(cols, "subtotal")
  }

  /**
   * The mapping's items in dictionary order; a key the file lacks is None.
   * (Several None keys collapse into one in the dictionary; the rename loop
   * skips None, so listing them separately changes nothing.)
   */
  function InvoiceMapping(schema: InvoiceSchema, cols: map<string, string>): seq<(Option<string>, string)> {
    match schema
    case InvoiceV2 => [
      (Get(cols, "inv_no"), "invoice_id"),
      (Get(cols, "customer_key"), "client_id"),
      (Get(cols, "inv_dt"), "invoice_date"),
      (AmountColumn(cols), "amount"),
      (Get(cols, "curr"), "currency"),
      (Get(cols, "ship_type"), "shipment_type")]
    case InvoiceV3 => [
      (Get(cols, "invoice_uid"), "invoice_id"),
      (Get(cols, "client_ref"), "client_name"),
      (Get(cols, "issued_on"), "invoice_date"),
      (Get(cols, "amount_usd"), "amount"),
      (Get(cols, "shipment_category"), "shipment_type")]
    case InvoiceV1 => [
      (Get(cols, "invoice_id"), "invoice_id"),
      (Get(cols, "client_id"), "client_id"),
      (Get(cols, "invoice_date"), "invoice_date"),
      (Get(cols, "amount"), "amount"),
      (Get(cols, "currency"), "currency"),
      (Get(cols, "shipment_type"), "shipment_type")]
  }

  /** An item renames only when its column is known, non-empty and present, and its target is non-empty. */
  predicate Applies(header: seq<string>, item: (Option<string>, string)) {
    item.0.Some? && item.0.value != "" && item.0.value in header && item.1 != ""
  }

  function InvoiceRenamed(header: seq<string>, mapping: seq<(Option<string>, string)>): seq<string>
    decreases |mapping|
  {
    if mapping == [] then header
    else
      InvoiceRenamed(
        if Applies(header, mapping[0]) then Rename(header, mapping[0].0.value, mapping[0].1) else header,
        mapping[1..])
  }

  function InvoiceSchemaOf(header: seq<string>): InvoiceSchema {
    DetectInvoiceSchema(ColumnIndex(header, InvoiceKey))
  }

  /**
   * Invoice detection is first-match on the names lower-cased with spaces
   * turned into underscores: `inv_no` with `customer_key` means v2, else
   * `invoice_uid` with `client_ref` means v3, else v1.
   */
  lemma InvoiceSchemaOfHeader(header: seq<string>)
    ensures InvoiceSchemaOf(header) == InvoiceV2 <==>
      HasKey(header, InvoiceKey, "inv_no") && HasKey(header, InvoiceKey, "customer_key")
    ensures InvoiceSchemaOf(header) == InvoiceV3 <==>
      !(HasKey(header, InvoiceKey, "inv_no") && HasKey(header, InvoiceKey, "customer_key"))
      && HasKey(header, InvoiceKey, "invoice_uid") && HasKey(header, InvoiceKey, "client_ref")
  {
    ColumnIndexSpec(header, InvoiceKey, "inv_no");
    ColumnIndexSpec(header, InvoiceKey, "customer_key");
    ColumnIndexSpec(header, InvoiceKey, "invoice_uid");
    ColumnIndexSpec(header, InvoiceKey, "client_ref");
  }

  /**
   * In a v2 file the amount comes from the last column whose key is `total`
   * when there is one, and otherwise from the `subtotal` column.
   */
  lemma InvoiceV2Amount(header: seq<string>)
    requires InvoiceSchemaOf(header) == InvoiceV2
    ensures var cols := ColumnIndex(header, InvoiceKey);
      var item := InvoiceMapping(InvoiceV2, cols)[3];
      && item.1 == "amount"
      && (HasKey(header, InvoiceKey, "total") ==> "total" in cols && item.0 == Some(cols["total"]))
      && (!HasKey(header, InvoiceKey, "total") && HasKey(header, InvoiceKey, "subtotal") ==>
            "subtotal" in cols && item.0 == Some(cols["subtotal"]))
      && (!HasKey(header, InvoiceKey, "total") && !HasKey(header, InvoiceKey, "subtotal") ==> item.0 == None)
  {
    ColumnIndexSpec(header, InvoiceKey, "total");
    ColumnIndexSpec(header, InvoiceKey, "subtotal");
  }

  /** A v3 file names the client by `client_ref`, which becomes `client_name`, never `client_id`. */
  lemma InvoiceV3ClientRef(cols: map<string, string>)
    requires DetectInvoiceSchema(cols) == InvoiceV3
    ensures InvoiceMapping(InvoiceV3, cols)[1] == (Some(cols["client_ref"]), "client_name")
    ensures forall k :: 0 <= k < |InvoiceMapping(InvoiceV3, cols)| ==> InvoiceMapping(InvoiceV3, cols)[k].1 != "client_id"
  {
  }

  /** Invoice renaming, too, only touches columns the mapping names. */
  lemma {:induction false} InvoiceRenamedKeeps(header: seq<string>, mapping: seq<(Option<string>, string)>, i: nat)
    requires i < |header|
    requires forall k :: 0 <= k < |mapping| ==> mapping[k].0 != Some(header[i]) && mapping[k].1 != header[i]
    ensures |InvoiceRenamed(header, mapping)| == |header|
    ensures InvoiceRenamed(header, mapping)[i] == header[i]
    decreases |mapping|
  {
    if mapping != [] {
      var next := if Applies(header, mapping[0]) then Rename(header, mapping[0].0.value, mapping[0].1) else header;
      assert |next| == |header| && next[i] == header[i];
      InvoiceRenamedKeeps(next, mapping[1..], i);
    }
  }

  function InvoiceMapped(t: Table): Table {
    var cols := ColumnIndex(t.header, InvoiceKey);
    Table(InvoiceRenamed(t.header, InvoiceMapping(DetectInvoiceSchema(cols), cols)), t.rows)
  }

  /** The rename loop of `InvoiceProcessor.read_csv`. */
  method RenameInvoiceColumns(header: seq<string>, mapping: seq<(Option<string>, string)>) returns (r: seq<string>)
    ensures r == InvoiceRenamed(header, mapping)
  {
    r := header;
    for k := 0 to |mapping|
      invariant InvoiceRenamed(r, mapping[k..]) == InvoiceRenamed(header, mapping)
    {
      assert mapping[k..][1..] == mapping[k + 1..];
      var (src, dst) := mapping[k];
      if src.Some? && src.value != "" && src.value in r && dst != "" {
        r := Rename(r, src.value, dst);
      }
    }
  }
}
