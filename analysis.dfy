/**
 * The four aggregations of `AnalysisEngine` over the rows of
 * `invoice_facts`, each a read-only query, plus the counts and answer lists
 * the engine derives from their results. Groups are formed in the order
 * their keys first appear among the rows; the final `ORDER BY` is a stable
 * sort, so rows it ties keep that order (PostgreSQL leaves it unspecified).
 */
module Analysis {
  import opened Wrappers
  import opened Text
  import opened Dates
  import opened Sorting
  import opened Aggregates
  import Config
  import opened FactDerivation

  // ------------------------------------------------------------ shared parts

  /** `WHERE client_id IS NOT NULL` */
  function Identified(rows: seq<Fact>): seq<Fact> {
    Filter(rows, (f: Fact) => f.clientId.Some?)
  }

  /** The `calculated_cost` column of some rows. */
  function Costs(rows: seq<Fact>): seq<Option<real>> {
    seq(|rows|, i requires 0 <= i < |rows| => rows[i].calculatedCost)
  }

  /** The `GROUP BY` keys, in the order they first appear. */
  function GroupKeys<T, K(==,!new)>(rows: seq<T>, key: T -> K): seq<K> {
    DistinctKeys(Keys(rows, key))
  }

  /** A group is formed for exactly the keys some row has, once each. */
  lemma GroupKeysSpec<T(!new), K(!new)>(rows: seq<T>, key: T -> K)
    ensures forall k :: k in GroupKeys(rows, key) <==> exists f :: f in rows && key(f) == k
    ensures forall i, j :: 0 <= i < j < |GroupKeys(rows, key)| ==> GroupKeys(rows, key)[i] != GroupKeys(rows, key)[j]
  {
    var ks := Keys(rows, key);
    forall k | (exists f :: f in rows && key(f) == k) ensures k in GroupKeys(rows, key) {
      var f :| f in rows && key(f) == k;
      var i :| 0 <= i < |rows| && rows[i] == f;
      assert ks[i] == k;
    }
  }

  // ------------------------------------------ query 1: top clients by cost

  /** The `GROUP BY client_id, client_name, client_status` key. */
  type ClientKey = (Option<string>, Option<string>, Option<string>)

  function ClientKeyOf(f: Fact): ClientKey {
    (f.clientId, f.clientName, f.clientStatus)
  }

  /** A result row of the top-clients query. */
  datatype ClientTotal = ClientTotal(
    clientId: Option<string>, clientName: Option<string>, clientStatus: Option<string>,
    totalCost: Option<real>, invoiceCount: nat, avgCost: Option<real>)

  function ClientTotalKey(t: ClientTotal): ClientKey {
    (t.clientId, t.clientName, t.clientStatus)
  }

  /** `SUM(calculated_cost)`, `COUNT(invoice_id)` and `AVG(calculated_cost)` of one group. */
  function ClientTotalOf(k: ClientKey, group: seq<Fact>): ClientTotal {
    ClientTotal(k.0, k.1, k.2, SqlSum(Costs(group)), |group|, SqlAvg(Costs(group)))
  }

  /** The grouped rows before `ORDER BY ... LIMIT 5`. */
  function ClientTotals(rows: seq<Fact>): seq<ClientTotal> {
    var ks := GroupKeys(Identified(rows), ClientKeyOf);
    seq(|ks|, i requires 0 <= i < |ks| => ClientTotalOf(ks[i], ClientGroup(rows, ks[i])))
  }

  /** The facts with a client_id and a given (client_id, client_name, client_status). */
  function ClientGroup(rows: seq<Fact>, k: ClientKey): seq<Fact> {
    Filter(rows, (f: Fact) => f.clientId.Some? && ClientKeyOf(f) == k)
  }

  /** Facts with a NULL client_id form no group. */
  lemma ClientTotalsIdentified(rows: seq<Fact>)
    ensures forall t :: t in ClientTotals(rows) ==> t.clientId.Some?
  {
    var ids := Identified(rows);
    var ks := GroupKeys(ids, ClientKeyOf);
    var ts := ClientTotals(rows);
    GroupKeysSpec(ids, ClientKeyOf);
    forall t | t in ts ensures t.clientId.Some? {
      var i :| 0 <= i < |ts| && ts[i] == t;
      assert ks[i] in ks;
      var f :| f in ids && ClientKeyOf(f) == ks[i];
    }
  }

  /**
   * One row per (client_id, client_name, client_status) that a fact with a
   * client_id carries, each triple once.
   */
  lemma ClientTotalsCover(rows: seq<Fact>)
    ensures forall f :: f in rows && f.clientId.Some? ==>
      exists t :: t in ClientTotals(rows) && ClientTotalKey(t) == ClientKeyOf(f)
    ensures forall i, j :: 0 <= i < j < |ClientTotals(rows)| ==>
      ClientTotalKey(ClientTotals(rows)[i]) != ClientTotalKey(ClientTotals(rows)[j])
  {
    var ids := Identified(rows);
    var ks := GroupKeys(ids, ClientKeyOf);
    var ts := ClientTotals(rows);
    GroupKeysSpec(ids, ClientKeyOf);
    forall f | f in rows && f.clientId.Some?
      ensures exists t :: t in ts && ClientTotalKey(t) == ClientKeyOf(f)
    {
      var k := ClientKeyOf(f);
      assert f in ids;
      assert k in ks;
      var i :| 0 <= i < |ks| && ks[i] == k;
      assert ClientTotalKey(ts[i]) == k;
    }
    forall i, j | 0 <= i < j < |ts| ensures ClientTotalKey(ts[i]) != ClientTotalKey(ts[j]) {
      assert ClientTotalKey(ts[i]) == ks[i] && ClientTotalKey(ts[j]) == ks[j];
    }
  }

  /** Each row carries the sum, count and average over exactly its group's facts, never an empty group. */
  lemma ClientTotalsAggregate(rows: seq<Fact>, t: ClientTotal)
    requires t in ClientTotals(rows)
    ensures var group := ClientGroup(rows, ClientTotalKey(t));
      && t.invoiceCount == |group| > 0
      && t.totalCost == SqlSum(Costs(group))
      && t.avgCost == SqlAvg(Costs(group))
  {
    var ids := Identified(rows);
    var ks := GroupKeys(ids, ClientKeyOf);
    var ts := ClientTotals(rows);
    GroupKeysSpec(ids, ClientKeyOf);
    var i :| 0 <= i < |ts| && ts[i] == t;
    var k := ks[i];
    assert k in ks;
    var f :| f in ids && ClientKeyOf(f) == k;
    assert f in ClientGroup(rows, k);
  }

  /** `ORDER BY total_invoice_cost DESC`, as written: NULL totals first. */
  predicate ByTotalAsWritten(a: ClientTotal, b: ClientTotal) {
    DescNullsFirst(a.totalCost, b.totalCost)
  }

  /** `ORDER BY total_invoice_cost DESC NULLS LAST`: the ranking by cost. */
  predicate ByTotal(a: ClientTotal, b: ClientTotal) {
    DescNullsLast(a.totalCost, b.totalCost)
  }

  lemma ByTotalOrders()
    ensures TotalPreorder(ByTotalAsWritten)
    ensures TotalPreorder(ByTotal)
  {
    forall a: ClientTotal, b: ClientTotal, c: ClientTotal {
      DescOrders(a.totalCost, b.totalCost, c.totalCost);
    }
  }

  /** `get_top_clients_by_revenue` as written. */
  function TopClientsAsWritten(rows: seq<Fact>): seq<ClientTotal> {
    Take(Sort(ClientTotals(rows), ByTotalAsWritten), 5)
  }

  /** `get_top_clients_by_revenue` with NULL totals ranked last. */
  function TopClients(rows: seq<Fact>): seq<ClientTotal> {
    Take(Sort(ClientTotals(rows), ByTotal), 5)
  }

  /**
   * At most five groups, the largest totals first: every group left out
   * has a total no larger than any group kept, and a group with a NULL
   * total is kept only when fewer than five have a total.
   */
  lemma TopClientsRanked(rows: seq<Fact>)
    ensures |TopClients(rows)| == if |ClientTotals(rows)| <= 5 then |ClientTotals(rows)| else 5
    ensures Sorted(TopClients(rows), ByTotal)
    ensures forall t :: t in TopClients(rows) ==> t in ClientTotals(rows) && t.clientId.Some?
    ensures forall t, u :: t in ClientTotals(rows) && t !in TopClients(rows) && u in TopClients(rows) ==> ByTotal(u, t)
  {
    ClientTotalsIdentified(rows);
    RankedByTotal(ClientTotals(rows));
  }

  lemma RankedByTotal(ts: seq<ClientTotal>)
    ensures var r := Take(Sort(ts, ByTotal), 5);
      && |r| == (if |ts| <= 5 then |ts| else 5)
      && Sorted(r, ByTotal)
      && (forall t :: t in r ==> t in ts)
      && (forall t, u :: t in ts && t !in r && u in r ==> ByTotal(u, t))
  {
    ByTotalOrders();
    TakeSortTop(ts, ByTotal, 5);
  }

  /**
   * As written, a client none of whose facts has a cost (every shipment
   * type unrated) has a NULL total and is ranked first, above every client
   * with costs.
   */
  lemma TopClientsAsWrittenNullFirst(rows: seq<Fact>, t: ClientTotal)
    requires t in ClientTotals(rows) && t.totalCost.None?
    ensures TopClientsAsWritten(rows) != [] && TopClientsAsWritten(rows)[0].totalCost.None?
  {
    ByTotalOrders();
    FirstOfSort(ClientTotals(rows), ByTotalAsWritten, t);
  }

  /** Ranked by cost, the first client has a total whenever any client does. */
  lemma TopClientsCostFirst(rows: seq<Fact>, t: ClientTotal)
    requires t in ClientTotals(rows) && t.totalCost.Some?
    ensures TopClients(rows) != [] && TopClients(rows)[0].totalCost.Some?
  {
    ByTotalOrders();
    FirstOfSort(ClientTotals(rows), ByTotal, t);
  }

  /** The first row of a sorted non-empty input ranks at least as high as any row. */
  lemma FirstOfSort<T(!new)>(ts: seq<T>, le: (T, T) -> bool, t: T)
    requires TotalPreorder(le)
    requires t in ts
    ensures Take(Sort(ts, le), 5) != [] && le(Take(Sort(ts, le), 5)[0], t)
  {
    SortSorted(ts, le);
    var s := Sort(ts, le);
    assert t in multiset(s);
    var j :| 0 <= j < |s| && s[j] == t;
    assert Take(s, 5)[0] == s[0];
    if j != 0 {
      assert le(s[0], s[j]);
    }
  }

  // ---------------------------------- query 2: month-over-month growth

  /** `DATE_TRUNC('month', invoice_date)`: a calendar month. */
  datatype Month = Month(year: nat, month: nat)

  function MonthOf(d: Date): Month {
    Month(d.year, d.month)
  }

  predicate MonthLe(a: Month, b: Month) {
    a.year < b.year || (a.year == b.year && a.month <= b.month)
  }

  /** The first day the growth query covers, and the first day after it. */
  const GrowthFrom := Date(2024, 1, 1)
  const GrowthUntil := Date(2026, 1, 1)

  /** The `WHERE` of `monthly_totals`: a date in [2024-01-01, 2026-01-01) and a client_id. */
  predicate InGrowthWindow(f: Fact) {
    && f.invoiceDate.Some?
    && DateLe(GrowthFrom, f.invoiceDate.value)
    && !DateLe(GrowthUntil, f.invoiceDate.value)
    && f.clientId.Some?
  }

  /** The `GROUP BY client_id, client_name, DATE_TRUNC('month', invoice_date)` key. */
  type MonthKey = (Option<string>, Option<string>, Month)

  function MonthKeyOf(f: Fact): MonthKey {
    (f.clientId, f.clientName, if f.invoiceDate.Some? then MonthOf(f.invoiceDate.value) else Month(0, 0))
  }

  /** A row of `monthly_totals`. */
  datatype MonthlyTotal = MonthlyTotal(
    clientId: Option<string>, clientName: Option<string>, month: Month,
    amount: Option<real>, invoices: nat)

  function MonthlyKey(t: MonthlyTotal): MonthKey {
    (t.clientId, t.clientName, t.month)
  }

  /** The facts in the window with a given key. */
  function MonthGroup(rows: seq<Fact>, k: MonthKey): seq<Fact> {
    Filter(rows, (f: Fact) => InGrowthWindow(f) && MonthKeyOf(f) == k)
  }

  /** `monthly_totals`: `SUM(calculated_cost)` and `COUNT(*)` per key. */
  function MonthlyTotals(rows: seq<Fact>): seq<MonthlyTotal> {
    var ks := GroupKeys(Filter(rows, InGrowthWindow), MonthKeyOf);
    seq(|ks|, i requires 0 <= i < |ks| =>
      var g := MonthGroup(rows, ks[i]);
      MonthlyTotal(ks[i].0, ks[i].1, ks[i].2, SqlSum(Costs(g)), |g|))
  }

  /**
   * A monthly total sums exactly the facts of its client, name and month
   * whose date lies in [2024-01-01, 2026-01-01), at least one of them, so
   * its month is January 2024 or later.
   */
  lemma MonthlyTotalsWindow(rows: seq<Fact>, t: MonthlyTotal)
    requires t in MonthlyTotals(rows)
    ensures forall f :: f in MonthGroup(rows, MonthlyKey(t)) <==>
      f in rows && InGrowthWindow(f) && MonthKeyOf(f) == MonthlyKey(t)
    ensures t.invoices == |MonthGroup(rows, MonthlyKey(t))| > 0
    ensures t.amount == SqlSum(Costs(MonthGroup(rows, MonthlyKey(t))))
    ensures t.clientId.Some? && MonthLe(MonthOf(GrowthFrom), t.month)
  {
    var w := Filter(rows, InGrowthWindow);
    var ks := GroupKeys(w, MonthKeyOf);
    var ts := MonthlyTotals(rows);
    GroupKeysSpec(w, MonthKeyOf);
    var i :| 0 <= i < |ts| && ts[i] == t;
    var k := ks[i];
    assert k in ks;
    var f :| f in w && MonthKeyOf(f) == k;
    assert f in MonthGroup(rows, k);
  }

  /** Every fact in the window is counted in the total of its key, and no key has two totals. */
  lemma MonthlyTotalsCover(rows: seq<Fact>)
    ensures forall f :: f in rows && InGrowthWindow(f) ==>
      exists t :: t in MonthlyTotals(rows) && MonthlyKey(t) == MonthKeyOf(f)
    ensures forall t, u :: t in MonthlyTotals(rows) && u in MonthlyTotals(rows) && MonthlyKey(t) == MonthlyKey(u) ==> t == u
  {
    var w := Filter(rows, InGrowthWindow);
    var ks := GroupKeys(w, MonthKeyOf);
    var ts := MonthlyTotals(rows);
    GroupKeysSpec(w, MonthKeyOf);
    forall f | f in rows && InGrowthWindow(f)
      ensures exists t :: t in ts && MonthlyKey(t) == MonthKeyOf(f)
    {
      assert f in w;
      assert MonthKeyOf(f) in ks;
      var i :| 0 <= i < |ks| && ks[i] == MonthKeyOf(f);
      assert MonthlyKey(ts[i]) == ks[i];
    }
    forall t, u | t in ts && u in ts && MonthlyKey(t) == MonthlyKey(u) ensures t == u {
      var i :| 0 <= i < |ts| && ts[i] == t;
      var j :| 0 <= j < |ts| && ts[j] == u;
      assert MonthlyKey(ts[i]) == ks[i] && MonthlyKey(ts[j]) == ks[j];
    }
  }

  /** `ORDER BY client_id` ascending: code-point order of the ids, NULLs last. */
  predicate IdLe(a: Option<string>, b: Option<string>) {
    b.None? || (a.Some? && LexLe(a.value, b.value))
  }

  /** The partition order of `LAG` and the final `ORDER BY client_id, invoice_month`. */
  predicate ByClientMonth(a: MonthlyTotal, b: MonthlyTotal) {
    if a.clientId == b.clientId then MonthLe(a.month, b.month) else IdLe(a.clientId, b.clientId)
  }

  lemma IdLeOrder(a: Option<string>, b: Option<string>, c: Option<string>)
    ensures IdLe(a, b) || IdLe(b, a)
    ensures IdLe(a, b) && IdLe(b, a) ==> a == b
    ensures IdLe(a, b) && IdLe(b, c) ==> IdLe(a, c)
  {
    if a.Some? && b.Some? {
      LexLeTotal(a.value, b.value);
      if LexLe(a.value, b.value) && LexLe(b.value, a.value) {
        LexLeAntisymmetric(a.value, b.value);
      }
      if c.Some? && LexLe(a.value, b.value) && LexLe(b.value, c.value) {
        LexLeTransitive(a.value, b.value, c.value);
      }
    }
  }

  lemma ByClientMonthOrder()
    ensures TotalPreorder(ByClientMonth)
  {
    forall a: MonthlyTotal, b: MonthlyTotal ensures ByClientMonth(a, b) || ByClientMonth(b, a) {
      IdLeOrder(a.clientId, b.clientId, b.clientId);
    }
    forall a: MonthlyTotal, b: MonthlyTotal, c: MonthlyTotal | ByClientMonth(a, b) && ByClientMonth(b, c)
      ensures ByClientMonth(a, c)
    {
      IdLeOrder(a.clientId, b.clientId, c.clientId);
    }
  }

  /** A row of the growth query. */
  datatype GrowthRow = GrowthRow(
    clientId: Option<string>, clientName: Option<string>, month: Month,
    amount: Option<real>, prevAmount: real, invoices: nat, prevInvoices: nat,
    growth: Option<real>)

  /** The `CASE` of `growth_percentage`: NULL after a zero month, else the change in percent. */
  function GrowthPercentage(amount: Option<real>, prev: real): Option<real> {
    if prev == 0.0 then None else Percent(Minus(amount, Some(prev)), Some(prev))
  }

  /**
   * After a positive month, a month with an amount has a positive growth
   * exactly when it is larger and a negative one exactly when it is
   * smaller; after a zero month there is none.
   */
  lemma GrowthSign(amount: Option<real>, prev: real)
    ensures prev == 0.0 ==> GrowthPercentage(amount, prev).None?
    ensures amount.None? ==> GrowthPercentage(amount, prev).None?
    ensures prev > 0.0 && amount.Some? ==>
      && GrowthPercentage(amount, prev).Some?
      && (GrowthPercentage(amount, prev).value > 0.0 <==> amount.value > prev)
      && (GrowthPercentage(amount, prev).value < 0.0 <==> amount.value < prev)
  {
    if prev > 0.0 && amount.Some? {
      var d := amount.value - prev;
      var q := d / prev;
      assert q * prev == d;
      assert GrowthPercentage(amount, prev).value == q * 100.0;
    }
  }

  /** `LAG(...)` gives `c` the previous row `p` of its partition, and `p` has an amount. */
  predicate Lagged(p: MonthlyTotal, c: MonthlyTotal) {
    p.clientId == c.clientId && p.amount.Some?
  }

  function GrowthRowOf(p: MonthlyTotal, c: MonthlyTotal): GrowthRow
    requires p.amount.Some?
  {
    GrowthRow(c.clientId, c.clientName, c.month, c.amount, p.amount.value,
      c.invoices, p.invoices, GrowthPercentage(c.amount, p.amount.value))
  }

  /**
   * `with_previous ... WHERE prev_month_amount IS NOT NULL` over the totals
   * in partition order: a row for each total whose predecessor belongs to
   * the same client and has an amount.
   */
  function WithPrevious(s: seq<MonthlyTotal>): seq<GrowthRow> {
    if |s| < 2 then []
    else (if Lagged(s[0], s[1]) then [GrowthRowOf(s[0], s[1])] else []) + WithPrevious(s[1..])
  }

  lemma {:induction false} WithPreviousRows(s: seq<MonthlyTotal>, g: GrowthRow)
    requires g in WithPrevious(s)
    ensures exists i :: 1 <= i < |s| && Lagged(s[i - 1], s[i]) && g == GrowthRowOf(s[i - 1], s[i])
  {
    if !(Lagged(s[0], s[1]) && g == GrowthRowOf(s[0], s[1])) {
      WithPreviousRows(s[1..], g);
      var i :| 1 <= i < |s[1..]| && Lagged(s[1..][i - 1], s[1..][i]) && g == GrowthRowOf(s[1..][i - 1], s[1..][i]);
      assert s[1..][i - 1] == s[i] && s[1..][i] == s[i + 1];
    }
  }

  /** The totals ordered by client_id, then month. */
  function ByClientThenMonth(rows: seq<Fact>): seq<MonthlyTotal> {
    Sort(MonthlyTotals(rows), ByClientMonth)
  }

  /** `get_month_over_month_growth`: the first 20 growth rows in (client_id, month) order. */
  function Growth(rows: seq<Fact>): seq<GrowthRow> {
    Take(WithPrevious(ByClientThenMonth(rows)), 20)
  }

  /** Consecutive totals of one client in the ordered totals have nothing of that client between their months. */
  lemma ConsecutiveMonths(s: seq<MonthlyTotal>, i: nat, t: MonthlyTotal)
    requires TotalPreorder(ByClientMonth) && Sorted(s, ByClientMonth)
    requires 1 <= i < |s| && s[i - 1].clientId == s[i].clientId
    requires t in s && t.clientId == s[i].clientId
    ensures MonthLe(s[i - 1].month, s[i].month)
    ensures t == s[i - 1] || t == s[i] || MonthLe(t.month, s[i - 1].month) || MonthLe(s[i].month, t.month)
  {
    assert ByClientMonth(s[i - 1], s[i]);
    var k :| 0 <= k < |s| && s[k] == t;
    if k < i - 1 {
      assert ByClientMonth(s[k], s[i - 1]);
    } else if k > i {
      assert ByClientMonth(s[i], s[k]);
    }
  }

  /** No two monthly totals are the same row. */
  lemma MonthlyTotalsDistinct(rows: seq<Fact>)
    ensures Distinct(MonthlyTotals(rows))
  {
    var ts := MonthlyTotals(rows);
    var ks := GroupKeys(Filter(rows, InGrowthWindow), MonthKeyOf);
    GroupKeysSpec(Filter(rows, InGrowthWindow), MonthKeyOf);
    forall i, j | 0 <= i < j < |ts| ensures ts[i] != ts[j] {
      assert MonthlyKey(ts[i]) == ks[i] && MonthlyKey(ts[j]) == ks[j];
    }
  }

  /** A total `p` and a later total `c` of the same client with nothing of that client strictly between their months. */
  ghost predicate PreviousMonth(ts: seq<MonthlyTotal>, p: MonthlyTotal, c: MonthlyTotal) {
    && p in ts && c in ts && p != c
    && p.clientId == c.clientId && MonthLe(p.month, c.month)
    && forall t :: t in ts && t.clientId == c.clientId ==>
      t == p || t == c || MonthLe(t.month, p.month) || MonthLe(c.month, t.month)
  }

  lemma LaggedPair(ts: seq<MonthlyTotal>, g: GrowthRow)
    requires Distinct(ts)
    requires g in WithPrevious(Sort(ts, ByClientMonth))
    ensures exists p, c :: PreviousMonth(ts, p, c) && Lagged(p, c) && g == GrowthRowOf(p, c)
  {
    var s := Sort(ts, ByClientMonth);
    ByClientMonthOrder();
    SortSorted(ts, ByClientMonth);
    SortKeepsDistinct(ts, ByClientMonth);
    WithPreviousRows(s, g);
    var i :| 1 <= i < |s| && Lagged(s[i - 1], s[i]) && g == GrowthRowOf(s[i - 1], s[i]);
    var p, c := s[i - 1], s[i];
    assert p in multiset(s) && c in multiset(s);
    forall t | t in ts && t.clientId == c.clientId
      ensures t == p || t == c || MonthLe(t.month, p.month) || MonthLe(c.month, t.month)
    {
      assert t in multiset(ts);
      ConsecutiveMonths(s, i, t);
    }
    ConsecutiveMonths(s, i, c);
    assert PreviousMonth(ts, p, c);
  }

  /**
   * Each growth row compares a monthly total `c` with the total `p` that
   * precedes it for the same client: a different total, in the same or an
   * earlier month, with no other total of the client strictly between the
   * two, and with a non-NULL amount.
   */
  lemma GrowthFromPreviousMonth(rows: seq<Fact>, g: GrowthRow)
    requires g in Growth(rows)
    ensures exists p, c :: PreviousMonth(MonthlyTotals(rows), p, c) && Lagged(p, c) && g == GrowthRowOf(p, c)
  {
    MonthlyTotalsDistinct(rows);
    LaggedPair(MonthlyTotals(rows), g);
  }

  /**
   * `p` is the total right before `c` for their client: a strictly earlier
   * month, and no other total of the client in a month from `p`'s to `c`'s.
   */
  ghost predicate StrictlyPreviousMonth(ts: seq<MonthlyTotal>, p: MonthlyTotal, c: MonthlyTotal) {
    && p in ts && c in ts
    && p.clientId == c.clientId && MonthLe(p.month, c.month) && p.month != c.month
    && forall t :: t in ts && t.clientId == c.clientId && t != p && t != c ==>
      !MonthLe(p.month, t.month) || !MonthLe(t.month, c.month)
  }

  /** A row the `LAG` sees right after its partition predecessor is a row of `with_previous`. */
  lemma {:induction false} WithPreviousHas(s: seq<MonthlyTotal>, i: nat)
    requires 1 <= i < |s| && Lagged(s[i - 1], s[i])
    ensures GrowthRowOf(s[i - 1], s[i]) in WithPrevious(s)
    decreases i
  {
    if i > 1 {
      WithPreviousHas(s[1..], i - 1);
      assert s[1..][i - 2] == s[i - 1] && s[1..][i - 1] == s[i];
    }
  }

  /** In a sorted sequence, an element that may not precede another lies before it. */
  lemma SortedBefore<T(!new)>(s: seq<T>, le: (T, T) -> bool, a: nat, b: nat)
    requires TotalPreorder(le) && Sorted(s, le)
    requires a < |s| && b < |s| && !le(s[b], s[a])
    ensures a < b
  {
  }

  /** Between `p` and `c` in (client_id, month) order lie only `p` and `c` themselves. */
  lemma BetweenIsEndpoint(ts: seq<MonthlyTotal>, s: seq<MonthlyTotal>, a: nat, b: nat, k: nat)
    requires a <= k <= b < |s|
    requires StrictlyPreviousMonth(ts, s[a], s[b])
    requires Sorted(s, ByClientMonth) && multiset(s) == multiset(ts)
    ensures s[k] == s[a] || s[k] == s[b]
  {
    if a < k < b {
      var p, t, c := s[a], s[k], s[b];
      assert ByClientMonth(p, t) && ByClientMonth(t, c);
      IdLeOrder(p.clientId, t.clientId, c.clientId);
      IdLeOrder(t.clientId, c.clientId, p.clientId);
      assert t.clientId == c.clientId;
      assert t in multiset(ts);
    }
  }

  /** `p` and `c` are neighbours in (client_id, month) order. */
  lemma PreviousAdjacent(ts: seq<MonthlyTotal>, p: MonthlyTotal, c: MonthlyTotal)
    requires Distinct(ts) && StrictlyPreviousMonth(ts, p, c)
    ensures var s := Sort(ts, ByClientMonth);
      exists i :: 1 <= i < |s| && s[i - 1] == p && s[i] == c
  {
    var s := Sort(ts, ByClientMonth);
    ByClientMonthOrder();
    SortSorted(ts, ByClientMonth);
    SortKeepsDistinct(ts, ByClientMonth);
    assert p in multiset(s) && c in multiset(s);
    var a :| 0 <= a < |s| && s[a] == p;
    var b :| 0 <= b < |s| && s[b] == c;
    assert !ByClientMonth(c, p);
    SortedBefore(s, ByClientMonth, a, b);
    BetweenIsEndpoint(ts, s, a, b, a + 1);
    assert s[a] != s[a + 1];
  }

  /**
   * Every monthly total whose client has a total in the month right
   * before it, with a non-NULL amount, yields its growth row in the rows
   * ordered by client_id and month (before the `LIMIT`).
   */
  lemma GrowthCoversPreviousMonth(rows: seq<Fact>, p: MonthlyTotal, c: MonthlyTotal)
    requires StrictlyPreviousMonth(MonthlyTotals(rows), p, c) && Lagged(p, c)
    ensures GrowthRowOf(p, c) in WithPrevious(ByClientThenMonth(rows))
  {
    var s := ByClientThenMonth(rows);
    MonthlyTotalsDistinct(rows);
    PreviousAdjacent(MonthlyTotals(rows), p, c);
    var i :| 1 <= i < |s| && s[i - 1] == p && s[i] == c;
    WithPreviousHas(s, i);
  }

  /** `ORDER BY client_id, invoice_month` on the growth rows. */
  predicate GrowthRowLe(a: GrowthRow, b: GrowthRow) {
    if a.clientId == b.clientId then MonthLe(a.month, b.month) else IdLe(a.clientId, b.clientId)
  }

  /** The growth rows keep the order of the totals they belong to. */
  lemma {:induction false} WithPreviousSorted(s: seq<MonthlyTotal>)
    requires Sorted(s, ByClientMonth)
    ensures Sorted(WithPrevious(s), GrowthRowLe)
  {
    if |s| >= 2 {
      var t := s[1..];
      var rest := WithPrevious(t);
      WithPreviousSorted(t);
      if Lagged(s[0], s[1]) {
        var h := GrowthRowOf(s[0], s[1]);
        forall g | g in rest ensures GrowthRowLe(h, g) {
          WithPreviousRows(t, g);
          var i :| 1 <= i < |t| && Lagged(t[i - 1], t[i]) && g == GrowthRowOf(t[i - 1], t[i]);
          assert t[i] == s[i + 1];
          assert ByClientMonth(s[1], s[i + 1]);
        }
        var w := [h] + rest;
        forall i, j | 0 <= i < j < |w| ensures GrowthRowLe(w[i], w[j]) {
          assert w[j] == rest[j - 1];
          if i > 0 {
            assert w[i] == rest[i - 1];
          }
        }
      }
    }
  }

  /**
   * `ORDER BY client_id, invoice_month LIMIT 20`: the report holds the
   * first twenty growth rows in (client_id, month) order, or all of them
   * when there are fewer, and every row left out comes after every row kept.
   */
  lemma GrowthFirstTwenty(rows: seq<Fact>)
    ensures var all := WithPrevious(ByClientThenMonth(rows));
      && Growth(rows) <= all
      && |Growth(rows)| == (if |all| <= 20 then |all| else 20)
      && Sorted(Growth(rows), GrowthRowLe)
      && forall g, h :: g in all && g !in Growth(rows) && h in Growth(rows) ==> GrowthRowLe(h, g)
  {
    var all := WithPrevious(ByClientThenMonth(rows));
    var r := Growth(rows);
    ByClientMonthOrder();
    SortSorted(MonthlyTotals(rows), ByClientMonth);
    WithPreviousSorted(ByClientThenMonth(rows));
    assert forall k :: 0 <= k < |r| ==> r[k] == all[k];
    forall g, h | g in all && g !in r && h in r ensures GrowthRowLe(h, g) {
      var j :| 0 <= j < |all| && all[j] == g;
      var i :| 0 <= i < |r| && r[i] == h;
    }
  }

  /**
   * A client's first month has no growth row: a total with no other total
   * of its client in the same or an earlier month yields none.
   */
  lemma FirstMonthDropped(rows: seq<Fact>, c: MonthlyTotal, g: GrowthRow)
    requires c in MonthlyTotals(rows)
    requires forall t :: t in MonthlyTotals(rows) && t.clientId == c.clientId && t != c ==> !MonthLe(t.month, c.month)
    requires g in Growth(rows)
    ensures (g.clientId, g.clientName, g.month) != MonthlyKey(c)
  {
    GrowthFromPreviousMonth(rows, g);
    MonthlyTotalsCover(rows);
  }

  /**
   * The percentage of each growth row: NULL after a zero month or for a
   * NULL amount, else (monthly - prev) / prev * 100.
   */
  lemma GrowthPercentages(rows: seq<Fact>, g: GrowthRow)
    requires g in Growth(rows)
    ensures g.clientId.Some?
    ensures g.prevAmount == 0.0 || g.amount.None? ==> g.growth.None?
    ensures g.prevAmount != 0.0 && g.amount.Some? ==>
      g.growth.Some? && g.growth.value == (g.amount.value - g.prevAmount) / g.prevAmount * 100.0
  {
    var s := ByClientThenMonth(rows);
    WithPreviousRows(s, g);
    var i :| 1 <= i < |s| && Lagged(s[i - 1], s[i]) && g == GrowthRowOf(s[i - 1], s[i]);
    assert s[i] in multiset(MonthlyTotals(rows));
    MonthlyTotalsWindow(rows, s[i]);
    GrowthRowValue(g);
  }

  lemma GrowthRowValue(g: GrowthRow)
    requires g.growth == GrowthPercentage(g.amount, g.prevAmount)
    ensures g.prevAmount == 0.0 || g.amount.None? ==> g.growth.None?
    ensures g.prevAmount != 0.0 && g.amount.Some? ==>
      g.growth.Some? && g.growth.value == (g.amount.value - g.prevAmount) / g.prevAmount * 100.0
  {
  }

  /** Python truthiness of a numeric cell: present and non-zero. */
  predicate Truthy(x: Option<real>) {
    x.Some? && x.value != 0.0
  }

  /** `r[7] and r[7] > 0` */
  predicate PositiveGrowthRow(g: GrowthRow) {
    Truthy(g.growth) && g.growth.value > 0.0
  }

  /** `r[7] and r[7] < 0` */
  predicate NegativeGrowthRow(g: GrowthRow) {
    Truthy(g.growth) && g.growth.value < 0.0
  }

  predicate NoGrowthRow(g: GrowthRow) {
    !Truthy(g.growth)
  }

  function PositiveGrowth(data: seq<GrowthRow>): nat {
    |Filter(data, PositiveGrowthRow)|
  }

  function NegativeGrowth(data: seq<GrowthRow>): nat {
    |Filter(data, NegativeGrowthRow)|
  }

  /**
   * Every row is counted exactly once among the positive periods, the
   * negative periods and the rows with a NULL or zero growth, which
   * neither count includes.
   */
  lemma {:induction false} GrowthCountsDisjoint(data: seq<GrowthRow>)
    ensures PositiveGrowth(data) + NegativeGrowth(data) + |Filter(data, NoGrowthRow)| == |data|
    ensures forall g :: g in Filter(data, PositiveGrowthRow) ==> g !in Filter(data, NegativeGrowthRow)
    ensures forall g :: g in data && NoGrowthRow(g) ==>
      g !in Filter(data, PositiveGrowthRow) && g !in Filter(data, NegativeGrowthRow)
  {
    if data != [] {
      GrowthCountsDisjoint(data[1..]);
    }
  }

  // ------------------------------------------- query 3: discount scenario

  /** The `CASE shipment_type` of `discounted_amount`: the share of the cost that remains. */
  function DiscountFactor(t: Option<string>): real {
    if t == Some("GROUND") then 0.8
    else if t == Some("FREIGHT") then 0.7
    else if t == Some("2DAY") then 0.5
    else 1.0
  }

  /**
   * The factors in the query are the configured discount rates: a type
   * with a rate keeps one minus that rate of its cost, every other type
   * (NULL included) keeps all of it.
   */
  lemma DiscountFactorRates(t: Option<string>)
    ensures t.Some? && t.value in Config.DiscountRates ==> DiscountFactor(t) == 1.0 - Config.DiscountRates[t.value]
    ensures !(t.Some? && t.value in Config.DiscountRates) ==> DiscountFactor(t) == 1.0
    ensures 0.5 <= DiscountFactor(t) <= 1.0
  {
    if t.Some? {
      var v := t.value;
      assert v in Config.DiscountRates <==> v == "GROUND" || v == "FREIGHT" || v == "2DAY";
    }
  }

  /** The discounted cost of one fact, NULL when its cost is. */
  function DiscountedCost(f: Fact): Option<real> {
    Times(DiscountFactor(f.shipmentType), f.calculatedCost)
  }

  function DiscountedCosts(rows: seq<Fact>): seq<Option<real>> {
    seq(|rows|, i requires 0 <= i < |rows| => DiscountedCost(rows[i]))
  }

  /** The `GROUP BY client_id, client_name, shipment_type` key of `discounted_costs`. */
  type TypeKey = (Option<string>, Option<string>, Option<string>)

  function TypeKeyOf(f: Fact): TypeKey {
    (f.clientId, f.clientName, f.shipmentType)
  }

  function TypeGroup(rows: seq<Fact>, k: TypeKey): seq<Fact> {
    Filter(rows, (f: Fact) => f.clientId.Some? && TypeKeyOf(f) == k)
  }

  /** A row of `discounted_costs`. */
  datatype TypeTotal = TypeTotal(
    clientId: Option<string>, clientName: Option<string>, shipmentType: Option<string>,
    original: Option<real>, discounted: Option<real>, shipments: nat)

  function TypeTotals(rows: seq<Fact>): seq<TypeTotal> {
    var ks := GroupKeys(Identified(rows), TypeKeyOf);
    seq(|ks|, i requires 0 <= i < |ks| =>
      var g := TypeGroup(rows, ks[i]);
      TypeTotal(ks[i].0, ks[i].1, ks[i].2, SqlSum(Costs(g)), SqlSum(DiscountedCosts(g)), |g|))
  }

  /** The `GROUP BY client_id, client_name` key. */
  type NameKey = (Option<string>, Option<string>)

  function TypeNameKey(t: TypeTotal): NameKey {
    (t.clientId, t.clientName)
  }

  function NameGroup(ts: seq<TypeTotal>, k: NameKey): seq<TypeTotal> {
    Filter(ts, (t: TypeTotal) => TypeNameKey(t) == k)
  }

  function Originals(ts: seq<TypeTotal>): seq<Option<real>> {
    seq(|ts|, i requires 0 <= i < |ts| => ts[i].original)
  }

  function Discounteds(ts: seq<TypeTotal>): seq<Option<real>> {
    seq(|ts|, i requires 0 <= i < |ts| => ts[i].discounted)
  }

  /** `SUM(shipment_count)` */
  function Shipments(ts: seq<TypeTotal>): nat {
    if ts == [] then 0 else ts[0].shipments + Shipments(ts[1..])
  }

  /** A row of `client_totals` with its `savings_percentage`. */
  datatype DiscountRow = DiscountRow(
    clientId: Option<string>, clientName: Option<string>,
    totalOriginal: Option<real>, totalDiscounted: Option<real>, totalSavings: Option<real>,
    savingsPercentage: Option<real>, totalShipments: nat)

  function DiscountRowOf(k: NameKey, g: seq<TypeTotal>): DiscountRow {
    var o := SqlSum(Originals(g));
    var d := SqlSum(Discounteds(g));
    DiscountRow(k.0, k.1, o, d, Minus(o, d), Percent(Minus(o, d), o), Shipments(g))
  }

  function ClientDiscountTotals(rows: seq<Fact>): seq<DiscountRow> {
    var ts := TypeTotals(rows);
    var ks := GroupKeys(ts, TypeNameKey);
    seq(|ks|, i requires 0 <= i < |ks| => DiscountRowOf(ks[i], NameGroup(ts, ks[i])))
  }

  /** `ORDER BY total_discounted DESC`: NULLs first. */
  predicate ByDiscounted(a: DiscountRow, b: DiscountRow) {
    DescNullsFirst(a.totalDiscounted, b.totalDiscounted)
  }

  /** The ten rows `get_discount_scenario_analysis` fetches. */
  function DiscountScenario(rows: seq<Fact>): seq<DiscountRow> {
    Take(Sort(ClientDiscountTotals(rows), ByDiscounted), 10)
  }

  /** The rows it reports: `data[:5]`. */
  function DiscountReport(rows: seq<Fact>): seq<DiscountRow> {
    Take(DiscountScenario(rows), 5)
  }

  lemma RankedByDiscounted(ds: seq<DiscountRow>)
    ensures var r := Take(Sort(ds, ByDiscounted), 10);
      && |r| == (if |ds| <= 10 then |ds| else 10)
      && Sorted(r, ByDiscounted)
      && (forall d :: d in r ==> d in ds)
      && (forall d, e :: d in ds && d !in r && e in r ==> ByDiscounted(e, d))
  {
    forall a: DiscountRow, b: DiscountRow, c: DiscountRow {
      DescOrders(a.totalDiscounted, b.totalDiscounted, c.totalDiscounted);
    }
    TakeSortTop(ds, ByDiscounted, 10);
  }

  /**
   * At most ten clients, the largest discounted totals first (NULLs
   * ahead of them, as written), every client left out ranking no higher
   * than one kept; the report is the first five of them.
   */
  lemma DiscountScenarioRanked(rows: seq<Fact>)
    ensures |DiscountScenario(rows)| == if |ClientDiscountTotals(rows)| <= 10 then |ClientDiscountTotals(rows)| else 10
    ensures Sorted(DiscountScenario(rows), ByDiscounted)
    ensures forall d :: d in DiscountScenario(rows) ==> d in ClientDiscountTotals(rows)
    ensures forall d, e :: d in ClientDiscountTotals(rows) && d !in DiscountScenario(rows) && e in DiscountScenario(rows) ==>
      ByDiscounted(e, d)
    ensures DiscountReport(rows) <= DiscountScenario(rows)
    ensures |DiscountReport(rows)| == if |DiscountScenario(rows)| <= 5 then |DiscountScenario(rows)| else 5
  {
    RankedByDiscounted(ClientDiscountTotals(rows));
  }

  /** Non-negative costs keep at least half of themselves after the discount. */
  predicate NonNegativeCosts(rows: seq<Fact>) {
    forall f :: f in rows && f.calculatedCost.Some? ==> f.calculatedCost.value >= 0.0
  }

  lemma DiscountedCostBetween(f: Fact)
    requires f.calculatedCost.Some? ==> f.calculatedCost.value >= 0.0
    ensures Between(0.5, f.calculatedCost, DiscountedCost(f))
  {
    DiscountFactorRates(f.shipmentType);
    if f.calculatedCost.Some? {
      var c, k := f.calculatedCost.value, DiscountFactor(f.shipmentType);
      assert 0.5 * c <= k * c <= c;
    }
  }

  lemma TypeTotalsBetween(rows: seq<Fact>)
    requires NonNegativeCosts(rows)
    ensures forall t :: t in TypeTotals(rows) ==> Between(0.5, t.original, t.discounted)
  {
    var ks := GroupKeys(Identified(rows), TypeKeyOf);
    var ts := TypeTotals(rows);
    forall t | t in ts ensures Between(0.5, t.original, t.discounted) {
      var i :| 0 <= i < |ts| && ts[i] == t;
      var g := TypeGroup(rows, ks[i]);
      forall j | 0 <= j < |g| ensures Between(0.5, Costs(g)[j], DiscountedCosts(g)[j]) {
        assert g[j] in g;
        DiscountedCostBetween(g[j]);
      }
      SqlSumBetween(0.5, Costs(g), DiscountedCosts(g));
    }
  }

  /** A type total's original and discounted sums are NULL together, whatever the signs of the costs. */
  lemma TypeTotalsNullTogether(rows: seq<Fact>)
    ensures forall t :: t in TypeTotals(rows) ==> t.original.Some? == t.discounted.Some?
  {
    var ks := GroupKeys(Identified(rows), TypeKeyOf);
    var ts := TypeTotals(rows);
    forall t | t in ts ensures t.original.Some? == t.discounted.Some? {
      var i :| 0 <= i < |ts| && ts[i] == t;
      var g := TypeGroup(rows, ks[i]);
      SqlSumNullsTogether(Costs(g), DiscountedCosts(g));
    }
  }

  /**
   * Each client's savings are `total_original - total_discounted`, and the
   * two totals are NULL together, for costs of either sign.
   */
  lemma DiscountSavings(rows: seq<Fact>, r: DiscountRow)
    requires r in ClientDiscountTotals(rows)
    ensures r.totalOriginal.Some? == r.totalDiscounted.Some?
    ensures r.totalSavings == Minus(r.totalOriginal, r.totalDiscounted)
    ensures r.totalOriginal.Some? ==> r.totalSavings.Some?
  {
    var ts := TypeTotals(rows);
    var ks := GroupKeys(ts, TypeNameKey);
    var ds := ClientDiscountTotals(rows);
    var i :| 0 <= i < |ds| && ds[i] == r;
    var g := NameGroup(ts, ks[i]);
    TypeTotalsNullTogether(rows);
    forall j | 0 <= j < |g| ensures Originals(g)[j].Some? == Discounteds(g)[j].Some? {
      assert g[j] in g;
    }
    SqlSumNullsTogether(Originals(g), Discounteds(g));
  }

  /**
   * When no cost is negative, each client's savings are never negative
   * and at most half the original total (the largest discount is 50%).
   */
  lemma DiscountSavingsBounded(rows: seq<Fact>, r: DiscountRow)
    requires NonNegativeCosts(rows)
    requires r in ClientDiscountTotals(rows)
    ensures r.totalOriginal.Some? ==>
      && r.totalSavings.Some?
      && 0.0 <= r.totalSavings.value <= 0.5 * r.totalOriginal.value
  {
    var ts := TypeTotals(rows);
    var ks := GroupKeys(ts, TypeNameKey);
    var ds := ClientDiscountTotals(rows);
    var i :| 0 <= i < |ds| && ds[i] == r;
    var g := NameGroup(ts, ks[i]);
    TypeTotalsBetween(rows);
    forall j | 0 <= j < |g| ensures Between(0.5, Originals(g)[j], Discounteds(g)[j]) {
      assert g[j] in g;
    }
    SqlSumBetween(0.5, Originals(g), Discounteds(g));
  }

  // ------------------------------ query 4: EXPRESS to GROUND reclassification

  predicate IsExpress(f: Fact) {
    f.shipmentType == Some("EXPRESS")
  }

  /** `CASE WHEN shipment_type = 'EXPRESS' THEN calculated_cost ELSE 0 END` */
  function ExpressCostOf(f: Fact): Option<real> {
    if IsExpress(f) then f.calculatedCost else Some(0.0)
  }

  /** `CASE WHEN shipment_type = 'EXPRESS' THEN calculated_cost * 0.1 ELSE 0 END` */
  function GroundCostOf(f: Fact): Option<real> {
    if IsExpress(f) then Times(0.1, f.calculatedCost) else Some(0.0)
  }

  function ExpressCosts(rows: seq<Fact>): seq<Option<real>> {
    seq(|rows|, i requires 0 <= i < |rows| => ExpressCostOf(rows[i]))
  }

  function GroundCosts(rows: seq<Fact>): seq<Option<real>> {
    seq(|rows|, i requires 0 <= i < |rows| => GroundCostOf(rows[i]))
  }

  function NameKeyOf(f: Fact): NameKey {
    (f.clientId, f.clientName)
  }

  /** The facts with a client_id and a given (client_id, client_name). */
  function ClientFacts(rows: seq<Fact>, k: NameKey): seq<Fact> {
    Filter(rows, (f: Fact) => f.clientId.Some? && NameKeyOf(f) == k)
  }

  /** The `'YES'`/`'NO'` of a `CASE WHEN ... THEN 'YES' ELSE 'NO' END`. */
  function Flag(b: bool): string {
    if b then "YES" else "NO"
  }

  /** A result row of the reclassification query. */
  datatype ExpressRow = ExpressRow(
    clientId: Option<string>, clientName: Option<string>, expressShipments: nat,
    expressCost: Option<real>, groundEquivalentCost: Option<real>, totalSavings: Option<real>,
    savingsPercentage: Option<real>, over50: string, over500k: string, totalCost: Option<real>)

  function ExpressRowOf(k: NameKey, g: seq<Fact>): ExpressRow {
    var e := SqlSum(ExpressCosts(g));
    var ge := SqlSum(GroundCosts(g));
    var total := SqlSum(Costs(g));
    var saving := Minus(e, ge);
    var pct := Percent(saving, total);
    ExpressRow(k.0, k.1, |Filter(g, IsExpress)|, e, ge, saving, pct,
      Flag(pct.Some? && pct.value > 50.0), Flag(saving.Some? && saving.value > 500000.0), total)
  }

  /** `express_analysis`: one row per client group, kept only `HAVING` an EXPRESS shipment. */
  function ExpressAnalysis(rows: seq<Fact>): seq<ExpressRow> {
    var ks := GroupKeys(Identified(rows), NameKeyOf);
    var all := seq(|ks|, i requires 0 <= i < |ks| => ExpressRowOf(ks[i], ClientFacts(rows, ks[i])));
    Filter(all, (r: ExpressRow) => r.expressShipments > 0)
  }

  /** `ORDER BY total_savings DESC`: NULLs first. */
  predicate BySavings(a: ExpressRow, b: ExpressRow) {
    DescNullsFirst(a.totalSavings, b.totalSavings)
  }

  /** The rows `get_express_reclassification_analysis` fetches. */
  function Reclassification(rows: seq<Fact>): seq<ExpressRow> {
    Sort(ExpressAnalysis(rows), BySavings)
  }

  /** The rows it reports: `data[:10]`. */
  function ReclassificationReport(rows: seq<Fact>): seq<ExpressRow> {
    Take(Reclassification(rows), 10)
  }

  /** `[r[1] for r in data if r[7] == 'YES']` */
  function Over50Clients(data: seq<ExpressRow>): seq<Option<string>> {
    if data == [] then []
    else (if data[0].over50 == "YES" then [data[0].clientName] else []) + Over50Clients(data[1..])
  }

  /** `[r[1] for r in data if r[8] == 'YES']` */
  function Over500kClients(data: seq<ExpressRow>): seq<Option<string>> {
    if data == [] then []
    else (if data[0].over500k == "YES" then [data[0].clientName] else []) + Over500kClients(data[1..])
  }

  /**
   * Python's `sum` of a column starting from 0, `None` when a NULL in the
   * column makes `sum` raise.
   */
  function PySum(xs: seq<Option<real>>): Option<real> {
    if xs == [] then Some(0.0)
    else if xs[0].None? then None
    else
      var rest := PySum(xs[1..]);
      if rest.None? then None else Some(xs[0].value + rest.value)
  }

  function SavingsColumn(data: seq<ExpressRow>): seq<Option<real>> {
    seq(|data|, i requires 0 <= i < |data| => data[i].totalSavings)
  }

  function ExpressCostColumn(data: seq<ExpressRow>): seq<Option<real>> {
    seq(|data|, i requires 0 <= i < |data| => data[i].expressCost)
  }

  /** `total_potential_savings = sum(row[5] for row in data)` */
  function TotalPotentialSavings(data: seq<ExpressRow>): Option<real> {
    PySum(SavingsColumn(data))
  }

  /** A row before `HAVING`, as a function of its key. */
  lemma ExpressRowAt(rows: seq<Fact>, r: ExpressRow)
    requires r in ExpressAnalysis(rows)
    ensures r.expressShipments > 0 && r.clientId.Some?
    ensures r == ExpressRowOf((r.clientId, r.clientName), ClientFacts(rows, (r.clientId, r.clientName)))
  {
    var ks := GroupKeys(Identified(rows), NameKeyOf);
    var all := seq(|ks|, i requires 0 <= i < |ks| => ExpressRowOf(ks[i], ClientFacts(rows, ks[i])));
    GroupKeysSpec(Identified(rows), NameKeyOf);
    assert r in all;
    var i :| 0 <= i < |all| && all[i] == r;
    assert ks[i] in ks;
    var f :| f in Identified(rows) && NameKeyOf(f) == ks[i];
  }

  /**
   * Only clients with an EXPRESS shipment appear, each with the number of
   * its EXPRESS facts.
   */
  lemma ReclassificationClient(rows: seq<Fact>, r: ExpressRow)
    requires r in Reclassification(rows)
    ensures r.clientId.Some?
    ensures r.expressShipments == |Filter(ClientFacts(rows, (r.clientId, r.clientName)), IsExpress)| > 0
    ensures exists f :: f in rows && f.clientId.Some? && IsExpress(f) && NameKeyOf(f) == (r.clientId, r.clientName)
  {
    assert r in multiset(ExpressAnalysis(rows));
    ExpressRowAt(rows, r);
    var g := ClientFacts(rows, (r.clientId, r.clientName));
    assert Filter(g, IsExpress)[0] in Filter(g, IsExpress);
  }

  /** Every client with an EXPRESS shipment appears. */
  lemma ReclassificationCovers(rows: seq<Fact>, f: Fact)
    requires f in rows && f.clientId.Some? && IsExpress(f)
    ensures exists r :: r in Reclassification(rows) && (r.clientId, r.clientName) == NameKeyOf(f)
  {
    var ks := GroupKeys(Identified(rows), NameKeyOf);
    var all := seq(|ks|, i requires 0 <= i < |ks| => ExpressRowOf(ks[i], ClientFacts(rows, ks[i])));
    GroupKeysSpec(Identified(rows), NameKeyOf);
    assert f in Identified(rows);
    assert NameKeyOf(f) in ks;
    var i :| 0 <= i < |ks| && ks[i] == NameKeyOf(f);
    var g := ClientFacts(rows, ks[i]);
    assert f in g && f in Filter(g, IsExpress);
    assert all[i] in ExpressAnalysis(rows);
    assert all[i] in multiset(Reclassification(rows));
  }

  lemma ExpressCostsScaled(g: seq<Fact>)
    ensures forall j :: 0 <= j < |g| ==> Scaled(0.1, ExpressCosts(g)[j], GroundCosts(g)[j])
  {
    forall j | 0 <= j < |g| ensures Scaled(0.1, ExpressCosts(g)[j], GroundCosts(g)[j]) {
      TimesScaled(0.1, g[j].calculatedCost);
    }
  }

  /**
   * Per client, the GROUND price of the EXPRESS shipments is a tenth of
   * their cost and the savings are the other nine tenths.
   */
  lemma ReclassificationSavings(rows: seq<Fact>, r: ExpressRow)
    requires r in Reclassification(rows)
    ensures Scaled(0.1, r.expressCost, r.groundEquivalentCost)
    ensures Scaled(0.9, r.expressCost, r.totalSavings)
  {
    assert r in multiset(ExpressAnalysis(rows));
    ExpressRowAt(rows, r);
    var g := ClientFacts(rows, (r.clientId, r.clientName));
    ExpressCostsScaled(g);
    SqlSumTimes(0.1, ExpressCosts(g), GroundCosts(g));
  }

  /** An express cost of 1000 gives savings of 900. */
  lemma ReclassificationSavingsOf1000(rows: seq<Fact>, r: ExpressRow)
    requires r in Reclassification(rows) && r.expressCost == Some(1000.0)
    ensures r.totalSavings.Some? && r.totalSavings.value == 900.0
  {
    ReclassificationSavings(rows, r);
  }

  /** `Flag(b)` is `'YES'` exactly when `b` holds. */
  lemma FlagYes(b: bool)
    ensures Flag(b) == "YES" <==> b
  {
    assert "NO"[0] != "YES"[0];
  }

  /**
   * The over_50 flag says YES exactly when the savings exceed half of the
   * client's total cost (as a percentage above 50), and the over_500k flag
   * exactly when the savings exceed 500000.
   */
  lemma ReclassificationFlags(rows: seq<Fact>, r: ExpressRow)
    requires r in Reclassification(rows)
    ensures r.over50 == "YES" <==>
      r.totalSavings.Some? && r.totalCost.Some? && r.totalCost.value != 0.0 &&
      r.totalSavings.value / r.totalCost.value * 100.0 > 50.0
    ensures r.over500k == "YES" <==> r.totalSavings.Some? && r.totalSavings.value > 500000.0
    ensures r.savingsPercentage == Percent(r.totalSavings, r.totalCost)
  {
    assert r in multiset(ExpressAnalysis(rows));
    ExpressRowAt(rows, r);
    var pct := r.savingsPercentage;
    FlagYes(pct.Some? && pct.value > 50.0);
    FlagYes(r.totalSavings.Some? && r.totalSavings.value > 500000.0);
  }

  /** The rows come ordered by savings, NULLs first, and are all of `express_analysis`. */
  lemma ReclassificationOrdered(rows: seq<Fact>)
    ensures Sorted(Reclassification(rows), BySavings)
    ensures multiset(Reclassification(rows)) == multiset(ExpressAnalysis(rows))
    ensures ReclassificationReport(rows) <= Reclassification(rows)
    ensures |ReclassificationReport(rows)| == if |Reclassification(rows)| <= 10 then |Reclassification(rows)| else 10
  {
    forall a: ExpressRow, b: ExpressRow, c: ExpressRow {
      DescOrders(a.totalSavings, b.totalSavings, c.totalSavings);
    }
    SortSorted(ExpressAnalysis(rows), BySavings);
  }

  /** The answer lists hold exactly the names of the rows flagged YES, in row order. */
  lemma {:induction false} AnswerLists(data: seq<ExpressRow>)
    ensures forall n :: n in Over50Clients(data) <==> exists r :: r in data && r.over50 == "YES" && r.clientName == n
    ensures forall n :: n in Over500kClients(data) <==> exists r :: r in data && r.over500k == "YES" && r.clientName == n
    ensures |Over50Clients(data)| <= |data| && |Over500kClients(data)| <= |data|
  {
    if data != [] {
      AnswerLists(data[1..]);
      assert data == [data[0]] + data[1..];
    }
  }

  /**
   * Python's `sum` of a column: defined exactly when no value is NULL,
   * and then the sum of the values.
   */
  lemma {:induction false} PySumSpec(xs: seq<Option<real>>)
    ensures PySum(xs).Some? <==> forall i :: 0 <= i < |xs| ==> xs[i].Some?
    ensures PySum(xs).Some? ==> PySum(xs).value == Sum(Present(xs))
  {
    if xs != [] {
      PySumSpec(xs[1..]);
      assert forall i :: 1 <= i < |xs| ==> xs[i] == xs[1..][i - 1];
    }
  }

  lemma {:induction false} PySumScaled(c: real, xs: seq<Option<real>>, ys: seq<Option<real>>)
    requires |xs| == |ys|
    requires forall i :: 0 <= i < |xs| ==> Scaled(c, xs[i], ys[i])
    ensures Scaled(c, PySum(xs), PySum(ys))
  {
    if xs != [] {
      assert forall i :: 0 <= i < |xs| - 1 ==> Scaled(c, xs[1..][i], ys[1..][i]);
      PySumScaled(c, xs[1..], ys[1..]);
      assert Scaled(c, xs[0], ys[0]);
      var a, b := PySum(xs[1..]), PySum(ys[1..]);
      if xs[0].Some? && a.Some? {
        assert c * (xs[0].value + a.value) == c * xs[0].value + c * a.value;
      }
    }
  }

  /**
   * The total potential savings is nine tenths of the summed EXPRESS cost
   * of all clients found, and is defined exactly when that sum is.
   */
  lemma TotalPotentialSavingsNinetyPercent(rows: seq<Fact>)
    ensures Scaled(0.9, PySum(ExpressCostColumn(Reclassification(rows))), TotalPotentialSavings(Reclassification(rows)))
  {
    var data := Reclassification(rows);
    forall i | 0 <= i < |data| ensures Scaled(0.9, ExpressCostColumn(data)[i], SavingsColumn(data)[i]) {
      ReclassificationSavings(rows, data[i]);
    }
    PySumScaled(0.9, ExpressCostColumn(data), SavingsColumn(data));
  }
}
