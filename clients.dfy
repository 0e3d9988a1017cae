/**
 * `ClientProcessor`: reading client batches (CSV through the schema mapper,
 * scanned PDF lines through the line-grouping loop), normalizing each batch
 * with intra-batch de-duplication by `client_id`, and merging all batches
 * into one canonical row per merge key with backfilling.
 */
module ClientReconciler {
  import opened Wrappers
  import opened Text
  import opened Values
  import opened Dates
  import opened Sorting
  import opened Normalizers
  import opened Fingerprint
  import opened Schema

  /** A client row as it enters `normalize_dataframe`: one cell per required column. */
  datatype ClientInput = ClientInput(
    clientId: Raw, clientName: Raw, status: Raw, tier: Raw, createdAt: Raw, currency: Raw)

  /**
   * A canonical client row; `created_at` is a calendar date or null. Its
   * `row_hash` column is a function of these six fields, `ClientRowHash`.
   */
  datatype Client = Client(
    clientId: string, clientName: string, status: string, tier: string,
    createdAt: Option<Date>, currency: string)

  const StatusCodes: set<string> := {"ACTIVE", "INACTIVE", "UNKNOWN"}

  /**
   * `re.match(r"^C\d{5}$", s)`: a `C` and five digits, where `$` also
   * matches in front of one final newline.
   */
  predicate IsClientId(s: string) {
    (|s| == 6 || (|s| == 7 && s[6] == '\n')) && s[0] == 'C' && AllDigits(s[1..6])
  }

  // ---------------------------------------------------------------- read_pdf

  /** The record built from the four lines starting at `i`. */
  function PdfRecord(lines: seq<string>, i: nat): ClientInput
    requires i + 3 < |lines|
  {
    ClientInput(Str(lines[i]), Str(lines[i + 1]), Str(lines[i + 2]), Missing, Str(lines[i + 3]), Str("USD"))
  }

  /** The line numbers at which the scan starts a record, from line `i` on. */
  function PdfWindows(lines: seq<string>, i: nat): (w: seq<nat>)
    ensures forall k :: 0 <= k < |w| ==> i <= w[k] && w[k] + 3 < |lines| && IsClientId(lines[w[k]])
    decreases |lines| - i
  {
    if i >= |lines| then []
    else if IsClientId(lines[i]) && i + 3 < |lines| then [i] + PdfWindows(lines, i + 4)
    else PdfWindows(lines, i + 1)
  }

  function RecordsAt(lines: seq<string>, w: seq<nat>): (r: seq<ClientInput>)
    requires forall k :: 0 <= k < |w| ==> w[k] + 3 < |lines|
    ensures |r| == |w|
  {
    seq(|w|, k requires 0 <= k < |w| => PdfRecord(lines, w[k]))
  }

  /** The records `read_pdf` builds from the stripped, non-blank lines of the text. */
  function PdfRecords(lines: seq<string>): seq<ClientInput> {
    RecordsAt(lines, PdfWindows(lines, 0))
  }

  /**
   * The grouping loop of `read_pdf`: at a line that is a client id with
   * three more lines after it, the four lines become one record and the
   * scan moves past them; otherwise it moves one line on.
   */
  method GroupPdfLines(lines: seq<string>) returns (records: seq<ClientInput>)
    ensures records == PdfRecords(lines)
  {
    records := [];
    var i := 0;
    ghost var starts: seq<nat> := [];
    while i < |lines|
      invariant 0 <= i <= |lines|
      invariant starts + PdfWindows(lines, i) == PdfWindows(lines, 0)
      invariant forall k :: 0 <= k < |starts| ==> starts[k] + 3 < |lines|
      invariant records == RecordsAt(lines, starts)
      decreases |lines| - i
    {
      if IsClientId(lines[i]) {
        if i + 3 < |lines| {
          records := records + [ClientInput(Str(lines[i]), Str(lines[i + 1]), Str(lines[i + 2]),
                                            Missing, Str(lines[i + 3]), Str("USD"))];
          starts := starts + [i];
          i := i + 4;
        } else {
          i := i + 1;
        }
      } else {
        i := i + 1;
      }
    }
  }

  /** Line `j` lies inside one of the windows starting at `w`. */
  predicate Covered(w: seq<nat>, j: nat) {
    exists k :: 0 <= k < |w| && w[k] <= j < w[k] + 4
  }

  /** Line `j` holds a client id with three more lines after it. */
  predicate CanStart(lines: seq<string>, j: nat) {
    j + 3 < |lines| && IsClientId(lines[j])
  }

  /** The windows follow one another without overlapping. */
  predicate Disjoint(w: seq<nat>) {
    forall k :: 0 <= k < |w| - 1 ==> w[k] + 4 <= w[k + 1]
  }

  /**
   * The windows the scan takes are disjoint and in order, and every line
   * that could start a record (a client id with three lines after it) lies
   * inside one of them: the scan misses no record it could have started.
   */
  lemma {:induction false} PdfWindowsCover(lines: seq<string>, i: nat)
    ensures Disjoint(PdfWindows(lines, i))
    ensures forall j :: i <= j && CanStart(lines, j) ==> Covered(PdfWindows(lines, i), j)
    decreases |lines| - i
  {
    if i < |lines| {
      var w := PdfWindows(lines, i);
      if CanStart(lines, i) {
        PdfWindowsCover(lines, i + 4);
        var rest := PdfWindows(lines, i + 4);
        assert w == [i] + rest;
        CoverCons(i, rest);
        forall j | i <= j && CanStart(lines, j) ensures Covered(w, j) {
          if j >= i + 4 {
            assert Covered(rest, j);
          } else {
            assert w[0] <= j < w[0] + 4;
          }
        }
      } else {
        PdfWindowsCover(lines, i + 1);
        forall j | i <= j && CanStart(lines, j) ensures Covered(w, j) {
          assert j != i;
        }
      }
    }
  }

  lemma CoverCons(i: nat, rest: seq<nat>)
    requires Disjoint(rest) && forall k :: 0 <= k < |rest| ==> i + 4 <= rest[k]
    ensures Disjoint([i] + rest)
    ensures forall j :: Covered(rest, j) ==> Covered([i] + rest, j)
  {
    var w := [i] + rest;
    forall j | Covered(rest, j) ensures Covered(w, j) {
      var k :| 0 <= k < |rest| && rest[k] <= j < rest[k] + 4;
      assert w[k + 1] == rest[k];
    }
  }

  // ---------------------------------------------------------------- read_csv

  /** The required columns of a mapped CSV frame; a missing column reads as None. */
  function ClientInputs(t: Table): (r: seq<ClientInput>)
    ensures |r| == |t.rows|
    ensures forall k :: 0 <= k < |r| ==> ReadsAs(t.header, t.rows[k], "client_id", r[k].clientId)
    ensures forall k :: 0 <= k < |r| ==> ReadsAs(t.header, t.rows[k], "client_name", r[k].clientName)
    ensures forall k :: 0 <= k < |r| ==> ReadsAs(t.header, t.rows[k], "status", r[k].status)
    ensures forall k :: 0 <= k < |r| ==> ReadsAs(t.header, t.rows[k], "tier", r[k].tier)
    ensures forall k :: 0 <= k < |r| ==> ReadsAs(t.header, t.rows[k], "created_at", r[k].createdAt)
    ensures forall k :: 0 <= k < |r| ==> ReadsAs(t.header, t.rows[k], "currency", r[k].currency)
  {
    seq(|t.rows|, k requires 0 <= k < |t.rows| =>
      var row := t.rows[k];
      ClientInput(
        Field(t.header, row, "client_id"), Field(t.header, row, "client_name"),
        Field(t.header, row, "status"), Field(t.header, row, "tier"),
        Field(t.header, row, "created_at"), Field(t.header, row, "currency")))
  }

  // ------------------------------------------------------ normalize_dataframe

  /** A row of the batch after the column transforms, with its sort keys. */
  datatype Staged = Staged(
    clientId: string, clientName: string, status: string, tier: string, currency: string,
    createdAt: Option<Timestamp>, rank: nat)

  /**
   * One row through the column transforms of `normalize_dataframe`: the
   * field normalizers, the fill-ins for tier and currency, the date parse,
   * the upper-casing of the string columns and the status rank.
   */
  function Stage(r: ClientInput, parser: DateParser): Staged {
    var status := Upper(NormStatus(r.status));
    Staged(
      UpperText(r.clientId),
      Upper(NameText(CleanName(r.clientName))),
      status,
      Upper(FillUpper(r.tier, "UNKNOWN")),
      Upper(FillUpper(r.currency, "USD")),
      ParseDate(r.createdAt, parser),
      StatusRank(status))
  }

  /** Upper-casing leaves the three status codes as they are. */
  lemma UpperStatusCode(r: string)
    requires r in StatusCodes
    ensures Upper(r) == r
  {
    if r == "ACTIVE" { UpperActive(r); }
    else if r == "INACTIVE" { UpperInactive(r); }
    else { UpperUnknown(r); }
  }

  lemma UpperActive(r: string)
    requires r == "ACTIVE"
    ensures Upper(r) == r
  {
    assert NoLower(r);
    UpperNoLower(r);
  }

  lemma UpperInactive(r: string)
    requires r == "INACTIVE"
    ensures Upper(r) == r
  {
    assert NoLower(r);
    UpperNoLower(r);
  }

  lemma UpperUnknown(r: string)
    requires r == "UNKNOWN"
    ensures Upper(r) == r
  {
    assert NoLower(r);
    UpperNoLower(r);
  }

  /** A staged status is one of the three codes and its rank is the rank of that code. */
  lemma StageStatus(r: ClientInput, parser: DateParser)
    ensures Stage(r, parser).status in StatusCodes
    ensures Stage(r, parser).status == NormStatus(r.status)
    ensures Stage(r, parser).rank == StatusRank(NormStatus(r.status))
  {
    UpperStatusCode(NormStatus(r.status));
  }

  /** `created_at_dt` descending with NaT last: `a` may come before `b`. */
  predicate NewerOrNull(a: Option<Timestamp>, b: Option<Timestamp>) {
    match (a, b)
    case (Some(x), Some(y)) => TimestampLe(y, x)
    case (Some(_), None) => true
    case (None, None) => true
    case (None, Some(_)) => false
  }

  /**
   * The sort of `normalize_dataframe`: `client_id` ascending, then
   * `status_rank` descending, then `created_at_dt` descending with NaT last.
   */
  predicate BatchLe(a: Staged, b: Staged) {
    if a.clientId != b.clientId then LexLe(a.clientId, b.clientId)
    else if a.rank != b.rank then a.rank > b.rank
    else NewerOrNull(a.createdAt, b.createdAt)
  }

  function StagedId(s: Staged): string {
    s.clientId
  }

  lemma TimestampLeTotalPreorder(a: Timestamp, b: Timestamp, c: Timestamp)
    ensures TimestampLe(a, b) || TimestampLe(b, a)
    ensures TimestampLe(a, b) && TimestampLe(b, c) ==> TimestampLe(a, c)
  {
    DateLeTotalOrder(a.date, b.date, c.date);
    DateLeTotalOrder(b.date, c.date, a.date);
    DateLeTotalOrder(c.date, a.date, b.date);
  }

  lemma NewerOrNullTotalPreorder(a: Option<Timestamp>, b: Option<Timestamp>, c: Option<Timestamp>)
    ensures NewerOrNull(a, b) || NewerOrNull(b, a)
    ensures NewerOrNull(a, b) && NewerOrNull(b, c) ==> NewerOrNull(a, c)
  {
    if a.Some? && b.Some? && c.Some? {
      TimestampLeTotalPreorder(c.value, b.value, a.value);
    } else if a.Some? && b.Some? {
      TimestampLeTotalPreorder(a.value, b.value, a.value);
    }
  }

  lemma BatchLeTotalPreorder()
    ensures TotalPreorder(BatchLe)
  {
    forall a: Staged, b: Staged ensures BatchLe(a, b) || BatchLe(b, a) {
      LexLeTotal(a.clientId, b.clientId);
      NewerOrNullTotalPreorder(a.createdAt, b.createdAt, a.createdAt);
    }
    forall a: Staged, b: Staged, c: Staged | BatchLe(a, b) && BatchLe(b, c) ensures BatchLe(a, c) {
      BatchLeTransitive(a, b, c);
    }
  }

  lemma BatchLeTransitive(a: Staged, b: Staged, c: Staged)
    requires BatchLe(a, b) && BatchLe(b, c)
    ensures BatchLe(a, c)
  {
    if a.clientId != b.clientId || b.clientId != c.clientId {
      if a.clientId != b.clientId && b.clientId != c.clientId {
        LexLeTransitive(a.clientId, b.clientId, c.clientId);
        if a.clientId == c.clientId {
          LexLeAntisymmetric(a.clientId, b.clientId);
        }
      }
    } else {
      NewerOrNullTotalPreorder(a.createdAt, b.createdAt, c.createdAt);
    }
  }

  /** The rows of a batch after the column transforms. */
  function StagedRows(rows: seq<ClientInput>, parser: DateParser): (r: seq<Staged>)
    ensures |r| == |rows|
  {
    seq(|rows|, k requires 0 <= k < |rows| => Stage(rows[k], parser))
  }

  /** The rows `drop_duplicates` leaves after the sort: the first of each `client_id`. */
  function KeptRows(rows: seq<ClientInput>, parser: DateParser): seq<Staged> {
    KeepFirst(Sort(StagedRows(rows, parser), BatchLe), StagedId)
  }

  /** The row's items in the order of `required_columns`, as `_row_hash` receives them. */
  function ClientItems(c: Client): seq<Item> {
    [("client_id", c.clientId), ("client_name", c.clientName), ("status", c.status),
     ("tier", c.tier), ("created_at", DateText(c.createdAt)), ("currency", c.currency)]
  }

  /** The `row_hash` column: `_row_hash` over the six fields, written with the items in key order. */
  function ClientRowHash(c: Client): Digest {
    Sha256Of(JoinBars(Pairs(
      [("client_id", c.clientId), ("client_name", c.clientName), ("created_at", DateText(c.createdAt)),
       ("currency", c.currency), ("status", c.status), ("tier", c.tier)])))
  }

  /**
   * The `row_hash` column is `_row_hash` of the row's items: sorting the
   * column names puts `created_at` and `currency` before `status` and `tier`.
   */
  lemma ClientHashIsRowHash(c: Client)
    ensures ClientRowHash(c) == RowHash(ClientItems(c))
  {
    var items := ClientItems(c);
    var sorted := [("client_id", c.clientId), ("client_name", c.clientName), ("created_at", DateText(c.createdAt)),
                   ("currency", c.currency), ("status", c.status), ("tier", c.tier)];
    ClientKeysDistinct(items);
    ClientKeysOrdered(sorted);
    HashOfRearranged(items, sorted);
  }

  /** Six items whose rearrangement `sorted` is in key order hash as `sorted` reads. */
  lemma HashOfRearranged(items: seq<Item>, sorted: seq<Item>)
    requires |items| == 6 && sorted == [items[0], items[1], items[4], items[5], items[2], items[3]]
    requires DistinctColumns(items)
    requires forall i :: 0 <= i < |sorted| - 1 ==> LexLe(sorted[i].0, sorted[i + 1].0)
    ensures RowHash(items) == Sha256Of(JoinBars(Pairs(sorted)))
  {
    RearrangedSix(items, sorted);
    PreimageOfSorted(items, sorted);
  }

  lemma RearrangedSix<T>(items: seq<T>, sorted: seq<T>)
    requires |items| == 6 && sorted == [items[0], items[1], items[4], items[5], items[2], items[3]]
    ensures multiset(items) == multiset(sorted)
  {
    var x, y, z := items[..2], items[2..4], items[4..];
    assert items == x + y + z;
    assert sorted == x + z + y;
    SwapBlocks(x, y, z);
  }

  /** Exchanging two blocks of a sequence keeps its elements. */
  lemma SwapBlocks<T>(x: seq<T>, y: seq<T>, z: seq<T>)
    ensures multiset(x + y + z) == multiset(x + z + y)
  {
    assert multiset(x + y + z) == multiset(x) + multiset(y) + multiset(z);
    assert multiset(x + z + y) == multiset(x) + multiset(z) + multiset(y);
  }

  lemma ClientKeysDistinct(items: seq<Item>)
    requires |items| == 6
    requires items[0].0 == "client_id" && items[1].0 == "client_name" && items[2].0 == "status"
    requires items[3].0 == "tier" && items[4].0 == "created_at" && items[5].0 == "currency"
    ensures DistinctColumns(items)
  {
  }

  lemma ClientKeysOrdered(sorted: seq<Item>)
    requires |sorted| == 6
    requires sorted[0].0 == "client_id" && sorted[1].0 == "client_name" && sorted[2].0 == "created_at"
    requires sorted[3].0 == "currency" && sorted[4].0 == "status" && sorted[5].0 == "tier"
    ensures forall i :: 0 <= i < |sorted| - 1 ==> LexLe(sorted[i].0, sorted[i + 1].0)
  {
    LexLeAt(sorted[0].0, sorted[1].0, 7);
    LexLeAt(sorted[1].0, sorted[2].0, 1);
    LexLeAt(sorted[2].0, sorted[3].0, 1);
    LexLeAt(sorted[3].0, sorted[4].0, 0);
    LexLeAt(sorted[4].0, sorted[5].0, 0);
  }

  /** `created_at` as a date string for one kept row (its UTC calendar date). */
  function Finish(s: Staged): Client {
    var createdAt := if s.createdAt.Some? then Some(s.createdAt.value.date) else None;
    Client(s.clientId, s.clientName, s.status, s.tier, createdAt, s.currency)
  }

  function FinishAll(kept: seq<Staged>): (r: seq<Client>)
    ensures |r| == |kept|
  {
    seq(|kept|, k requires 0 <= k < |kept| => Finish(kept[k]))
  }

  /** `ClientProcessor.normalize_dataframe` on a batch's rows. */
  function NormalizedClients(rows: seq<ClientInput>, parser: DateParser): seq<Client> {
    FinishAll(KeptRows(rows, parser))
  }

  /** The kept rows carry distinct client ids, and every id of the batch is kept. */
  lemma KeptRowsIds(rows: seq<ClientInput>, parser: DateParser)
    ensures var kept := KeptRows(rows, parser);
      forall i, j :: 0 <= i < j < |kept| ==> kept[i].clientId != kept[j].clientId
    ensures forall k :: 0 <= k < |rows| ==>
      exists s :: s in KeptRows(rows, parser) && s.clientId == UpperText(rows[k].clientId)
  {
    var staged := StagedRows(rows, parser);
    var sorted := Sort(staged, BatchLe);
    KeepFirstUnique(sorted, StagedId);
    forall k | 0 <= k < |rows|
      ensures exists s :: s in KeptRows(rows, parser) && s.clientId == UpperText(rows[k].clientId)
    {
      assert staged[k] in multiset(sorted);
      KeepFirstCovers(sorted, StagedId, staged[k]);
    }
  }

  /**
   * The row kept for a client id is the best of the batch for that id: no
   * row with the same id has a higher status rank, and none with the same
   * rank has a later `created_at` (a row with a date beats one without).
   */
  lemma KeptRowIsBest(rows: seq<ClientInput>, parser: DateParser, kept: Staged, other: Staged)
    requires kept in KeptRows(rows, parser)
    requires other in StagedRows(rows, parser) && other.clientId == kept.clientId
    ensures kept.rank >= other.rank
    ensures kept.rank == other.rank ==> NewerOrNull(kept.createdAt, other.createdAt)
  {
    var staged := StagedRows(rows, parser);
    var sorted := Sort(staged, BatchLe);
    BatchLeTotalPreorder();
    SortSorted(staged, BatchLe);
    assert other in multiset(sorted);
    KeepFirstLeast(sorted, StagedId, BatchLe, kept, other);
    if kept == other {
      NewerOrNullTotalPreorder(kept.createdAt, kept.createdAt, kept.createdAt);
    }
  }

  /** The column transforms of `normalize_dataframe`, applied row by row. */
  method StageRows(rows: seq<ClientInput>, parser: DateParser) returns (staged: seq<Staged>)
    ensures staged == StagedRows(rows, parser)
  {
    staged := ApplyRows(rows, r => Stage(r, parser));
  }

  /** The formatting of `created_at`, applied to every kept row. */
  method FinishRows(kept: seq<Staged>) returns (out: seq<Client>)
    ensures out == FinishAll(kept)
  {
    out := [];
    for k := 0 to |kept|
      invariant |out| == k
      invariant forall j :: 0 <= j < k ==> out[j] == Finish(kept[j])
    {
      out := out + [Finish(kept[k])];
    }
  }

  /**
   * `ClientProcessor.normalize_dataframe` on a batch: the column transforms,
   * the intra-batch sort and keep-first, and the finalized `created_at`.
   * The result holds one row per upper-cased client id of the batch.
   */
  method NormalizeBatch(rows: seq<ClientInput>, parser: DateParser) returns (out: seq<Client>)
    ensures out == NormalizedClients(rows, parser)
    ensures forall i, j :: 0 <= i < j < |out| ==> out[i].clientId != out[j].clientId
    ensures forall k :: 0 <= k < |rows| ==> exists c :: c in out && c.clientId == UpperText(rows[k].clientId)
  {
    var staged := StageRows(rows, parser);
    var sorted := Sort(staged, BatchLe);
    var kept := KeepFirst(sorted, StagedId);
    out := FinishRows(kept);
    NormalizedClientsIds(rows, parser);
  }

  /** One normalized row per client id of the batch. */
  lemma NormalizedClientsIds(rows: seq<ClientInput>, parser: DateParser)
    ensures var out := NormalizedClients(rows, parser);
      forall i, j :: 0 <= i < j < |out| ==> out[i].clientId != out[j].clientId
    ensures var out := NormalizedClients(rows, parser);
      forall k :: 0 <= k < |rows| ==> exists c :: c in out && c.clientId == UpperText(rows[k].clientId)
  {
    var kept := KeptRows(rows, parser);
    var out := NormalizedClients(rows, parser);
    KeptRowsIds(rows, parser);
    forall k | 0 <= k < |rows| ensures exists c :: c in out && c.clientId == UpperText(rows[k].clientId) {
      var s :| s in kept && s.clientId == UpperText(rows[k].clientId);
      var i :| 0 <= i < |kept| && kept[i] == s;
      assert out[i] in out;
    }
  }
}
