/**
 * `ClientProcessor.merge_dataframes` and `process_files`: all normalized
 * batches are concatenated, grouped by a merge key, and each group becomes
 * one canonical row, its newest (then best-status) row backfilled column by
 * column from the others.
 */
module ClientMerge {
  import opened Wrappers
  import opened Text
  import opened Dates
  import opened Sorting
  import opened Normalizers
  import opened Schema
  import opened ClientReconciler

  // ------------------------------------------------------------- merge key

  /** `client_id` where it matches `^C\d{5}$`, `client_name` otherwise. */
  function MergeKey(c: Client): (k: string)
    ensures IsClientId(c.clientId) ==> k == c.clientId
    ensures !IsClientId(c.clientId) ==> k == c.clientName
  {
    if IsClientId(c.clientId) then c.clientId else c.clientName
  }

  /**
   * Which rows `groupby('merge_key')` puts together: two rows with
   * well-formed ids exactly when the ids agree, two rows without exactly
   * when the names agree, and a row with a well-formed id and one without
   * exactly when the second one's name is the first one's id.
   */
  lemma MergeKeyGroups(a: Client, b: Client)
    ensures IsClientId(a.clientId) && IsClientId(b.clientId) ==>
      (MergeKey(a) == MergeKey(b) <==> a.clientId == b.clientId)
    ensures !IsClientId(a.clientId) && !IsClientId(b.clientId) ==>
      (MergeKey(a) == MergeKey(b) <==> a.clientName == b.clientName)
    ensures IsClientId(a.clientId) && !IsClientId(b.clientId) ==>
      (MergeKey(a) == MergeKey(b) <==> b.clientName == a.clientId)
  {
  }

  /** The rows of one `groupby('merge_key', sort=False)` group, in frame order. */
  function Group(all: seq<Client>, key: string): (g: seq<Client>)
    ensures forall c :: c in g <==> c in all && MergeKey(c) == key
  {
    Filter(all, c => MergeKey(c) == key)
  }

  /** The merge keys in the order of their first appearance, as `groupby(sort=False)` visits them. */
  function GroupKeys(all: seq<Client>): seq<string> {
    DistinctKeys(Keys(all, MergeKey))
  }

  /** A key `groupby` visits has a non-empty group. */
  lemma GroupKeyHasRows(all: seq<Client>, key: string)
    requires key in GroupKeys(all)
    ensures Group(all, key) != []
  {
    var ks := Keys(all, MergeKey);
    var i :| 0 <= i < |ks| && ks[i] == key;
    assert all[i] in Group(all, key);
  }

  // ------------------------------------------------------ order of a group

  /** `created_at_dt` descending with NaT last: `a` may come before `b`. */
  predicate DateNewerOrNull(a: Option<Date>, b: Option<Date>) {
    match (a, b)
    case (Some(x), Some(y)) => DateLe(y, x)
    case (Some(_), None) => true
    case (None, None) => true
    case (None, Some(_)) => false
  }

  /** The group sort: `created_at_dt` descending (NaT last), then `status_rank` descending. */
  predicate GroupLe(a: Client, b: Client) {
    if a.createdAt != b.createdAt then DateNewerOrNull(a.createdAt, b.createdAt)
    else StatusRank(a.status) >= StatusRank(b.status)
  }

  lemma DateNewerOrNullOrder(a: Option<Date>, b: Option<Date>, c: Option<Date>)
    ensures DateNewerOrNull(a, b) || DateNewerOrNull(b, a)
    ensures DateNewerOrNull(a, b) && DateNewerOrNull(b, a) ==> a == b
    ensures DateNewerOrNull(a, b) && DateNewerOrNull(b, c) ==> DateNewerOrNull(a, c)
  {
    if a.Some? && b.Some? && c.Some? {
      DateLeTotalOrder(c.value, b.value, a.value);
      DateLeTotalOrder(a.value, b.value, c.value);
    } else if a.Some? && b.Some? {
      DateLeTotalOrder(a.value, b.value, a.value);
    }
  }

  lemma GroupLeTotalPreorder()
    ensures TotalPreorder(GroupLe)
  {
    forall a: Client, b: Client ensures GroupLe(a, b) || GroupLe(b, a) {
      DateNewerOrNullOrder(a.createdAt, b.createdAt, a.createdAt);
    }
    forall a: Client, b: Client, c: Client | GroupLe(a, b) && GroupLe(b, c) ensures GroupLe(a, c) {
      GroupLeTransitive(a, b, c);
    }
  }

  lemma GroupLeTransitive(a: Client, b: Client, c: Client)
    requires GroupLe(a, b) && GroupLe(b, c)
    ensures GroupLe(a, c)
  {
    DateNewerOrNullOrder(a.createdAt, b.createdAt, c.createdAt);
    DateNewerOrNullOrder(b.createdAt, c.createdAt, a.createdAt);
    DateNewerOrNullOrder(c.createdAt, a.createdAt, b.createdAt);
  }

  // ----------------------------------------------------------------- cells

  /** The value a frame cell holds: text, or `created_at`'s date string or NaN. */
  datatype Cell = Text(s: string) | Stamp(date: Option<Date>)

  datatype Column = ClientIdCol | ClientNameCol | StatusCol | TierCol | CreatedAtCol | CurrencyCol

  /** `required_columns`, in order. */
  const RequiredColumns: seq<Column> :=
    [ClientIdCol, ClientNameCol, StatusCol, TierCol, CreatedAtCol, CurrencyCol]

  /** A row's cell in one column. */
  function CellOf(c: Client, col: Column): Cell {
    match col
    case ClientIdCol => Text(c.clientId)
    case ClientNameCol => Text(c.clientName)
    case StatusCol => Text(c.status)
    case TierCol => Text(c.tier)
    case CreatedAtCol => Stamp(c.createdAt)
    case CurrencyCol => Text(c.currency)
  }

  predicate IsNaNCell(c: Cell) {
    c == Stamp(None)
  }

  /** `str()` of a cell. */
  function CellStr(c: Cell): string {
    match c
    case Text(s) => s
    case Stamp(Some(d)) => FormatDate(d)
    case Stamp(None) => "nan"
  }

  const BadValues: set<string> := {"NONE", "NAN", "UNKNOWN", "nan"}

  /** A falsy string or one of the placeholder strings. */
  predicate Placeholder(s: string) {
    s == "" || s in BadValues
  }

  /**
   * The test that lets a base field be replaced. NaN is truthy and equals
   * no string, and a formatted date is neither empty nor a placeholder
   * (`CellTests`), so only text cells qualify.
   */
  predicate Incomplete(c: Cell) {
    match c
    case Text(s) => Placeholder(s)
    case Stamp(_) => false
  }

  /** The test a donor value must pass: not NaN, and not blank after `strip()` (`CellTests`). */
  predicate Usable(c: Cell) {
    match c
    case Text(s) => Strip(s) != ""
    case Stamp(d) => d.Some?
  }

  /**
   * The two tests of the backfill as the source states them on the cell's
   * value: `not v or v in {...}` (false for NaN), and `pd.notna(v) and
   * str(v).strip()`.
   */
  lemma CellTests(c: Cell)
    ensures Incomplete(c) <==> !IsNaNCell(c) && Placeholder(CellStr(c))
    ensures Usable(c) <==> !IsNaNCell(c) && Strip(CellStr(c)) != ""
  {
    if c.Stamp? && c.date.Some? {
      var s := FormatDate(c.date.value);
      var y := ZeroPad(c.date.value.year, 4);
      assert s[0] == y[0];
      assert IsDigit(s[0]);
      forall v | v in BadValues ensures s != v {
        assert !IsDigit(v[0]);
      }
      PlainNotSpace(s[0]);
      TrimLeftNoSpace(s);
      StripEnds(s);
      TrimRightSpec(s);
    }
  }

  /** The `base` dictionary, restricted to the required columns. */
  datatype Base = Base(clientId: Cell, clientName: Cell, status: Cell, tier: Cell, createdAt: Cell, currency: Cell)

  function BaseOf(c: Client): (b: Base)
    ensures forall col :: Get(b, col) == CellOf(c, col)
  {
    Base(Text(c.clientId), Text(c.clientName), Text(c.status), Text(c.tier), Stamp(c.createdAt), Text(c.currency))
  }

  function Get(b: Base, col: Column): Cell {
    match col
    case ClientIdCol => b.clientId
    case ClientNameCol => b.clientName
    case StatusCol => b.status
    case TierCol => b.tier
    case CreatedAtCol => b.createdAt
    case CurrencyCol => b.currency
  }

  /** `base[col] = v` */
  function Set(b: Base, col: Column, v: Cell): (r: Base)
    ensures Get(r, col) == v
    ensures forall other :: other != col ==> Get(r, other) == Get(b, other)
  {
    match col
    case ClientIdCol => b.(clientId := v)
    case ClientNameCol => b.(clientName := v)
    case StatusCol => b.(status := v)
    case TierCol => b.(tier := v)
    case CreatedAtCol => b.(createdAt := v)
    case CurrencyCol => b.(currency := v)
  }

  // -------------------------------------------------------------- backfill

  /** One step of the backfill for one column: the new base value given a donor cell. */
  function Fill(v: Cell, donor: Cell): Cell {
    if Incomplete(v) && Usable(donor) then donor else v
  }

  /** The inner loop body: one row offers its cells for `cols`, in order. */
  function FillRow(b: Base, row: Client, cols: seq<Column>): Base
    decreases |cols|
  {
    if cols == [] then b
    else
      var col := cols[0];
      FillRow(Set(b, col, Fill(Get(b, col), CellOf(row, col))), row, cols[1..])
  }

  /** The backfill loop: every row of the group, in its sorted order. */
  function Backfill(b: Base, rows: seq<Client>): Base
    decreases |rows|
  {
    if rows == [] then b else Backfill(FillRow(b, rows[0], RequiredColumns), rows[1..])
  }

  /** The backfill of one column on its own: the donors' cells offered in turn. */
  function FillColumn(v: Cell, donors: seq<Cell>): Cell
    decreases |donors|
  {
    if donors == [] then v else FillColumn(Fill(v, donors[0]), donors[1..])
  }

  /** A column's cells down the rows. */
  function ColumnOf(rows: seq<Client>, col: Column): (cs: seq<Cell>)
    ensures |cs| == |rows|
    ensures forall i :: 0 <= i < |rows| ==> cs[i] == CellOf(rows[i], col)
  {
    if rows == [] then [] else [CellOf(rows[0], col)] + ColumnOf(rows[1..], col)
  }

  /** Offering a row's cells changes each column as one `Fill` step would, whatever the repetitions in `cols`. */
  lemma {:induction false} FillRowGet(b: Base, row: Client, cols: seq<Column>, col: Column)
    ensures Get(FillRow(b, row, cols), col) ==
      if col in cols then Fill(Get(b, col), CellOf(row, col)) else Get(b, col)
    decreases |cols|
  {
    if cols != [] {
      var b' := Set(b, cols[0], Fill(Get(b, cols[0]), CellOf(row, cols[0])));
      FillRowGet(b', row, cols[1..], col);
      if cols[0] == col {
        FillTwice(Get(b, col), CellOf(row, col));
      }
    }
  }

  /** Offering the same donor twice is offering it once. */
  lemma FillTwice(v: Cell, donor: Cell)
    ensures Fill(Fill(v, donor), donor) == Fill(v, donor)
  {
  }

  lemma EveryColumnRequired(col: Column)
    ensures col in RequiredColumns
  {
    match col
    case ClientIdCol => assert RequiredColumns[0] == col;
    case ClientNameCol => assert RequiredColumns[1] == col;
    case StatusCol => assert RequiredColumns[2] == col;
    case TierCol => assert RequiredColumns[3] == col;
    case CreatedAtCol => assert RequiredColumns[4] == col;
    case CurrencyCol => assert RequiredColumns[5] == col;
  }

  /** The nested backfill loops act on every column independently. */
  lemma {:induction false} BackfillColumn(b: Base, rows: seq<Client>, col: Column)
    ensures Get(Backfill(b, rows), col) == FillColumn(Get(b, col), ColumnOf(rows, col))
    decreases |rows|
  {
    if rows != [] {
      EveryColumnRequired(col);
      FillRowGet(b, rows[0], RequiredColumns, col);
      BackfillColumn(FillRow(b, rows[0], RequiredColumns), rows[1..], col);
      assert ColumnOf(rows, col)[1..] == ColumnOf(rows[1..], col);
    }
  }

  /** A base value that is already complete is never overwritten. */
  lemma {:induction false} FillColumnKeepsComplete(v: Cell, donors: seq<Cell>)
    requires !Incomplete(v)
    ensures FillColumn(v, donors) == v
    decreases |donors|
  {
    if donors != [] {
      FillColumnKeepsComplete(v, donors[1..]);
    }
  }

  /** A donor whose value would end the backfill of its column. */
  predicate Completes(c: Cell) {
    Usable(c) && !Incomplete(c)
  }

  /** No donor before position `i` completes the column. */
  predicate NoneCompletesBefore(donors: seq<Cell>, i: nat) {
    forall j :: 0 <= j < i && j < |donors| ==> !Completes(donors[j])
  }

  /** A donor that does not complete the column leaves an incomplete field incomplete. */
  lemma FillStaysIncomplete(v: Cell, donor: Cell)
    requires Incomplete(v) && !Completes(donor)
    ensures Incomplete(Fill(v, donor))
  {
  }

  /**
   * The first donor that is both usable and complete supplies the value of
   * an incomplete base field; earlier usable donors only replace one
   * placeholder by another.
   */
  lemma {:induction false} FillColumnFirstComplete(v: Cell, donors: seq<Cell>, i: nat)
    requires Incomplete(v)
    requires i < |donors| && Completes(donors[i]) && NoneCompletesBefore(donors, i)
    ensures FillColumn(v, donors) == donors[i]
    decreases |donors|
  {
    if i == 0 {
      FillColumnKeepsComplete(donors[0], donors[1..]);
    } else {
      var rest := donors[1..];
      assert rest[i - 1] == donors[i];
      assert NoneCompletesBefore(rest, i - 1) by {
        forall j | 0 <= j < i - 1 ensures !Completes(rest[j]) {
          assert rest[j] == donors[j + 1];
        }
      }
      assert !Completes(donors[0]);
      FillStaysIncomplete(v, donors[0]);
      FillColumnFirstComplete(Fill(v, donors[0]), rest, i - 1);
    }
  }

  /** Without a donor that completes it, an incomplete field stays incomplete. */
  lemma {:induction false} FillColumnNoDonor(v: Cell, donors: seq<Cell>)
    requires Incomplete(v) && NoneCompletesBefore(donors, |donors|)
    ensures Incomplete(FillColumn(v, donors))
    decreases |donors|
  {
    if donors != [] {
      var rest := donors[1..];
      assert NoneCompletesBefore(rest, |rest|) by {
        forall j | 0 <= j < |rest| ensures !Completes(rest[j]) {
          assert rest[j] == donors[j + 1];
        }
      }
      assert !Completes(donors[0]);
      FillStaysIncomplete(v, donors[0]);
      FillColumnNoDonor(Fill(v, donors[0]), rest);
    }
  }

  /** A backfilled value is the base's own or one of the donors'. */
  lemma {:induction false} FillColumnFrom(v: Cell, donors: seq<Cell>)
    ensures FillColumn(v, donors) == v || FillColumn(v, donors) in donors
    decreases |donors|
  {
    if donors != [] {
      FillColumnFrom(Fill(v, donors[0]), donors[1..]);
    }
  }

  // ------------------------------------------------------------ one group

  /** `str(v).upper()` unless `v` is NaN. */
  function FinalText(c: Cell): string {
    if IsNaNCell(c) then CellStr(c) else Upper(CellStr(c))
  }

  /** The date a `created_at` cell holds. */
  function StampDate(c: Cell): Option<Date> {
    match c
    case Stamp(d) => d
    case Text(_) => None
  }

  /**
   * The canonical row of one group: the upper-casing of the text columns,
   * and `created_at` re-formatted from the base row's `created_at_dt`
   * when that is not NaT.
   */
  function Finalize(b: Base, createdAt: Option<Date>): Client {
    Client(FinalText(b.clientId), FinalText(b.clientName), FinalText(b.status), FinalText(b.tier),
           if createdAt.Some? then createdAt else StampDate(b.createdAt), FinalText(b.currency))
  }

  /** One merged row: sort the group, backfill its first row from all its rows, finalize. */
  function Reconcile(group: seq<Client>): Client
    requires group != []
  {
    var sorted := Sort(group, GroupLe);
    Finalize(Backfill(BaseOf(sorted[0]), sorted), sorted[0].createdAt)
  }

  /** The cells of one column down the sorted group: the donors of that column. */
  function Donors(group: seq<Client>, col: Column): seq<Cell> {
    ColumnOf(Sort(group, GroupLe), col)
  }

  /** The base row: the first of the sorted group. */
  function BaseRow(group: seq<Client>): Client
    requires group != []
  {
    Sort(group, GroupLe)[0]
  }

  /** Each merged field is the backfill of that column from the base row's value. */
  lemma ReconcileColumns(group: seq<Client>)
    requires group != []
    ensures var r := Reconcile(group); var b := BaseRow(group);
      && r.clientId == FinalText(FillColumn(Text(b.clientId), Donors(group, ClientIdCol)))
      && r.clientName == FinalText(FillColumn(Text(b.clientName), Donors(group, ClientNameCol)))
      && r.status == FinalText(FillColumn(Text(b.status), Donors(group, StatusCol)))
      && r.tier == FinalText(FillColumn(Text(b.tier), Donors(group, TierCol)))
      && r.currency == FinalText(FillColumn(Text(b.currency), Donors(group, CurrencyCol)))
    ensures Reconcile(group).createdAt == BaseRow(group).createdAt
  {
    var sorted := Sort(group, GroupLe);
    var b0 := BaseOf(sorted[0]);
    BackfillColumn(b0, sorted, ClientIdCol);
    BackfillColumn(b0, sorted, ClientNameCol);
    BackfillColumn(b0, sorted, StatusCol);
    BackfillColumn(b0, sorted, TierCol);
    BackfillColumn(b0, sorted, CurrencyCol);
    BackfillColumn(b0, sorted, CreatedAtCol);
    FillColumnKeepsComplete(Stamp(sorted[0].createdAt), ColumnOf(sorted, CreatedAtCol));
  }

  /**
   * The base row is a newest row of the group (a row with a date beats one
   * without), and no row with that same date has a better status.
   */
  lemma BaseRowIsNewest(group: seq<Client>, c: Client)
    requires group != [] && c in group
    ensures DateNewerOrNull(BaseRow(group).createdAt, c.createdAt)
    ensures c.createdAt == BaseRow(group).createdAt ==> StatusRank(c.status) <= StatusRank(BaseRow(group).status)
  {
    var sorted := Sort(group, GroupLe);
    GroupLeTotalPreorder();
    SortSorted(group, GroupLe);
    assert c in multiset(sorted);
    var j :| 0 <= j < |sorted| && sorted[j] == c;
    if j == 0 {
      DateNewerOrNullOrder(c.createdAt, c.createdAt, c.createdAt);
    } else {
      assert GroupLe(sorted[0], sorted[j]);
    }
  }

  /** The merged `created_at` is the newest date of the group. */
  lemma ReconcileNewest(group: seq<Client>, c: Client)
    requires group != [] && c in group && c.createdAt.Some?
    ensures Reconcile(group).createdAt.Some?
    ensures DateLe(c.createdAt.value, Reconcile(group).createdAt.value)
  {
    ReconcileColumns(group);
    BaseRowIsNewest(group, c);
  }

  /** A complete text field of the base row survives the merge, upper-cased. */
  lemma ReconcileKeepsComplete(group: seq<Client>, col: Column)
    requires group != [] && col != CreatedAtCol
    requires !Incomplete(CellOf(BaseRow(group), col))
    ensures FinalText(CellOf(BaseRow(group), col)) == CellField(Reconcile(group), col)
  {
    ReconcileColumns(group);
    FillColumnKeepsComplete(CellOf(BaseRow(group), col), Donors(group, col));
  }

  /** A text column of a merged row. */
  function CellField(c: Client, col: Column): string
    requires col != CreatedAtCol
  {
    match col
    case ClientIdCol => c.clientId
    case ClientNameCol => c.clientName
    case StatusCol => c.status
    case TierCol => c.tier
    case CurrencyCol => c.currency
  }

  // ------------------------------------------------------------- all groups

  /** The merged row of the group of `key`. */
  function ReconcileKey(all: seq<Client>, key: string): Client
    requires key in GroupKeys(all)
  {
    GroupKeyHasRows(all, key);
    Reconcile(Group(all, key))
  }

  /** The merged rows of the groups of `keys`, in order. */
  function MergedOver(all: seq<Client>, keys: seq<string>): (r: seq<Client>)
    requires forall k :: k in keys ==> k in GroupKeys(all)
    ensures |r| == |keys|
  {
    if keys == [] then []
    else MergedOver(all, keys[..|keys| - 1]) + [ReconcileKey(all, keys[|keys| - 1])]
  }

  /** Merging one more key appends its merged row. */
  lemma MergedOverSnoc(all: seq<Client>, keys: seq<string>, i: nat, row: Client)
    requires forall k :: k in keys ==> k in GroupKeys(all)
    requires i < |keys| && row == ReconcileKey(all, keys[i])
    ensures MergedOver(all, keys[..i]) + [row] == MergedOver(all, keys[..i + 1])
  {
    assert keys[..i + 1][..i] == keys[..i];
  }

  /** Row `j` of the merge is the merged row of the `j`-th key. */
  lemma {:induction false} MergedOverAt(all: seq<Client>, keys: seq<string>, j: nat)
    requires forall k :: k in keys ==> k in GroupKeys(all)
    requires j < |keys|
    ensures MergedOver(all, keys)[j] == ReconcileKey(all, keys[j])
  {
    var init := keys[..|keys| - 1];
    if j < |keys| - 1 {
      assert init[j] == keys[j];
      MergedOverAt(all, init, j);
    }
  }

  /** `merge_dataframes(dfs)`: one reconciled row per merge key, in first-appearance order. */
  function MergedClients(batches: seq<seq<Client>>): (r: seq<Client>)
    ensures |r| == |GroupKeys(Concat(batches))|
  {
    var all := Concat(batches);
    MergedOver(all, GroupKeys(all))
  }

  /**
   * Exactly one merged row per merge key: the keys the rows are built from
   * are distinct, and every input row's key is among them.
   */
  lemma MergedOnePerKey(batches: seq<seq<Client>>)
    ensures var keys := GroupKeys(Concat(batches));
      forall i, j :: 0 <= i < j < |keys| ==> keys[i] != keys[j]
    ensures forall b, c :: b in batches && c in b ==> MergeKey(c) in GroupKeys(Concat(batches))
  {
    var all := Concat(batches);
    forall b, c | b in batches && c in b ensures MergeKey(c) in GroupKeys(all) {
      assert c in all;
      var i :| 0 <= i < |all| && all[i] == c;
      assert Keys(all, MergeKey)[i] == MergeKey(c);
    }
  }

  /** A well-formed client id is a complete value and is its own upper-casing. */
  lemma ValidIdKept(id: string)
    requires IsClientId(id)
    ensures !Incomplete(Text(id)) && FinalText(Text(id)) == id
  {
    forall v | v in BadValues ensures id != v {
      assert v[0] != 'C';
    }
    forall i | 0 <= i < |id| ensures !IsAsciiLower(id[i]) {
      if 1 <= i < 6 {
        assert id[i] == id[1..6][i - 1];
      }
    }
    UpperNoLower(id);
  }

  /** A group keyed by a well-formed client id merges into a row with that id. */
  lemma ReconcileValidId(all: seq<Client>, key: string)
    requires key in GroupKeys(all) && IsClientId(key)
    requires forall c :: c in all ==> IsClientId(c.clientId)
    ensures ReconcileKey(all, key).clientId == key
  {
    GroupKeyHasRows(all, key);
    var group := Group(all, key);
    var b := BaseRow(group);
    assert b in multiset(Sort(group, GroupLe));
    assert b in group;
    ValidIdKept(b.clientId);
    ReconcileKeepsComplete(group, ClientIdCol);
  }

  /** When every row carries a well-formed id, the merged rows carry distinct ids. */
  lemma MergedIdsDistinct(batches: seq<seq<Client>>)
    requires forall b, c :: b in batches && c in b ==> IsClientId(c.clientId)
    ensures var out := MergedClients(batches);
      forall i, j :: 0 <= i < j < |out| ==> out[i].clientId != out[j].clientId
  {
    var all := Concat(batches);
    var keys := GroupKeys(all);
    var out := MergedClients(batches);
    MergedOnePerKey(batches);
    forall c | c in all ensures IsClientId(c.clientId) {
      var b :| b in batches && c in b;
    }
    forall i | 0 <= i < |keys| ensures out[i].clientId == keys[i] {
      MergedOverAt(all, keys, i);
      var ks := Keys(all, MergeKey);
      assert keys[i] in keys;
      var k :| 0 <= k < |ks| && ks[k] == keys[i];
      assert all[k] in all;
      ReconcileValidId(all, keys[i]);
    }
  }

  lemma SetGet(b: Base, col: Column)
    ensures Set(b, col, Get(b, col)) == b
  {
  }

  /** The inner loop of the backfill: `row` offers each required column in turn. */
  method OfferRow(b: Base, row: Client) returns (base: Base)
    ensures base == FillRow(b, row, RequiredColumns)
  {
    base := b;
    for c := 0 to |RequiredColumns|
      invariant FillRow(base, row, RequiredColumns[c..]) == FillRow(b, row, RequiredColumns)
    {
      var col := RequiredColumns[c];
      assert RequiredColumns[c..][1..] == RequiredColumns[c + 1..];
      if Incomplete(Get(base, col)) && Usable(CellOf(row, col)) {
        base := Set(base, col, CellOf(row, col));
      } else {
        SetGet(base, col);
      }
    }
  }

  /** The backfill of one sorted group: its first row, completed from every row in order. */
  method BackfillGroup(group: seq<Client>) returns (base: Base)
    requires group != []
    ensures base == Backfill(BaseOf(group[0]), group)
  {
    base := BaseOf(group[0]);
    for r := 0 to |group|
      invariant Backfill(base, group[r..]) == Backfill(BaseOf(group[0]), group)
    {
      assert group[r..][1..] == group[r + 1..];
      base := OfferRow(base, group[r]);
    }
  }

  /** One iteration of the group loop: sort the group of `key`, backfill, finalize. */
  method MergeGroup(all: seq<Client>, key: string) returns (row: Client)
    requires key in GroupKeys(all)
    ensures row == ReconcileKey(all, key)
  {
    GroupKeyHasRows(all, key);
    var sorted := Sort(Group(all, key), GroupLe);
    var base := BackfillGroup(sorted);
    row := Finalize(base, sorted[0].createdAt);
  }

  /**
   * The loop of `merge_dataframes` over the groups: each group is sorted,
   * backfilled and finalized, and the row appended to the output.
   */
  method MergeBatches(batches: seq<seq<Client>>) returns (out: seq<Client>)
    ensures out == MergedClients(batches)
  {
    var all := Concat(batches);
    var keys := GroupKeys(all);
    out := [];
    for i := 0 to |keys|
      invariant out == MergedOver(all, keys[..i])
    {
      var row := MergeGroup(all, keys[i]);
      MergedOverSnoc(all, keys, i, row);
      out := out + [row];
    }
    assert keys[..|keys|] == keys;
  }

  // ------------------------------------------------------------ process_files

  /**
   * One matched file as the reader sees it: a CSV frame, the non-blank
   * stripped lines of a PDF's text, a file of another format (skipped), or
   * a file whose reader raised (an empty frame).
   */
  datatype ClientSource = CsvFile(table: Table) | PdfFile(lines: seq<string>) | OtherFile | Unreadable

  /** The rows a source contributes; an empty frame contributes none. */
  function SourceRows(src: ClientSource): seq<ClientInput> {
    match src
    case CsvFile(t) => if IsEmpty(ClientMapped(t)) then [] else ClientInputs(ClientMapped(t))
    case PdfFile(lines) => PdfRecords(lines)
    case OtherFile => []
    case Unreadable => []
  }

  /** The normalized batches of the sources that yield rows, in order. */
  function NormalizedBatches(sources: seq<ClientSource>, parser: DateParser): (bs: seq<seq<Client>>)
    ensures |bs| <= |sources|
  {
    if sources == [] then []
    else
      var init := NormalizedBatches(sources[..|sources| - 1], parser);
      var rows := SourceRows(sources[|sources| - 1]);
      if rows == [] then init else init + [NormalizedClients(rows, parser)]
  }

  /** `ClientProcessor.process_files` */
  function ProcessedClients(sources: seq<ClientSource>, parser: DateParser): seq<Client> {
    var batches := NormalizedBatches(sources, parser);
    if batches == [] then [] else MergedClients(batches)
  }

  /** Every batch handed to the merge holds one row per client id. */
  lemma {:induction false} NormalizedBatchesDistinct(sources: seq<ClientSource>, parser: DateParser)
    ensures forall b: seq<Client> :: b in NormalizedBatches(sources, parser) ==>
      forall i, j :: 0 <= i < j < |b| ==> b[i].clientId != b[j].clientId
  {
    if sources != [] {
      NormalizedBatchesDistinct(sources[..|sources| - 1], parser);
      NormalizedClientsIds(SourceRows(sources[|sources| - 1]), parser);
    }
  }

  /** The reading step for one source: the rename of a CSV frame's columns, or the PDF line grouping. */
  method ReadSource(src: ClientSource) returns (rows: seq<ClientInput>)
    ensures rows == SourceRows(src)
  {
    match src
    case CsvFile(t) =>
      var cols := ColumnIndex(t.header, ClientKey);
      var header := RenameClientColumns(t.header, ClientMapping(DetectClientSchema(cols), cols));
      var mapped := Table(header, t.rows);
      rows := if IsEmpty(mapped) then [] else ClientInputs(mapped);
    case PdfFile(lines) =>
      rows := GroupPdfLines(lines);
    case OtherFile =>
      rows := [];
    case Unreadable =>
      rows := [];
  }

  /**
   * The loop of `process_files` over the matched files: each non-empty
   * frame is normalized and kept, and the kept batches are merged.
   */
  method ProcessClientFiles(sources: seq<ClientSource>, parser: DateParser) returns (out: seq<Client>)
    ensures out == ProcessedClients(sources, parser)
  {
    var batches: seq<seq<Client>> := [];
    for k := 0 to |sources|
      invariant batches == NormalizedBatches(sources[..k], parser)
    {
      assert sources[..k + 1][..k] == sources[..k];
      var rows := ReadSource(sources[k]);
      if rows != [] {
        var batch := NormalizeBatch(rows, parser);
        batches := batches + [batch];
      }
    }
    assert sources[..|sources|] == sources;
    if batches == [] {
      out := [];
    } else {
      out := MergeBatches(batches);
    }
  }
}
