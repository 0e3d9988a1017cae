/**
 * The SELECT of `RevealPipeline.create_fact_table`: every stored invoice
 * with an `invoice_id`, LEFT JOINed to every client whose id equals the
 * invoice's or whose upper-cased name equals the invoice's, then LEFT
 * JOINed to the rate list, with the cost as amount times rate; and the
 * INSERT ... ON CONFLICT that writes the selected rows.
 */
module FactDerivation {
  import opened Wrappers
  import opened Text
  import opened Dates
  import Config
  import opened Normalizers
  import opened ClientReconciler
  import opened InvoiceReconciler

  /** A row of `invoice_facts` as the SELECT produces it; `None` is SQL NULL. */
  datatype Fact = Fact(
    clientId: Option<string>, clientName: Option<string>,
    clientStatus: Option<string>, clientTier: Option<string>,
    invoiceId: string, invoiceDate: Option<Date>, invoiceAmount: real,
    shipmentType: Option<string>, ratePerUnit: Option<real>, calculatedCost: Option<real>)

  /** The columns of the `UNIQUE(client_id, invoice_id)` constraint. */
  type FactKey = (Option<string>, string)

  function KeyOf(f: Fact): FactKey {
    (f.clientId, f.invoiceId)
  }

  // ------------------------------------------------------------------ rates

  /** The `rates(shipment_type, rate_per_unit)` VALUES list written into the query. */
  const RateValues: seq<(string, real)> :=
    [("GROUND", 1.0), ("2DAY", 5.0), ("EXPRESS", 10.0), ("FREIGHT", 20.0)]

  function LookupRate(t: string, values: seq<(string, real)>): Option<real> {
    if values == [] then None
    else if values[0].0 == t then Some(values[0].1)
    else LookupRate(t, values[1..])
  }

  /** The LEFT JOIN on `rates`: the matching rate, NULL for a NULL or unlisted shipment type. */
  function RateOf(t: Option<string>): Option<real> {
    match t
    case None => None
    case Some(s) => LookupRate(s, RateValues)
  }

  /**
   * The rate list in the query is the configured rate sheet: GROUND 1.0,
   * 2DAY 5.0, EXPRESS 10.0, FREIGHT 20.0, and every other shipment type
   * (UNKNOWN included) gets a NULL rate.
   */
  lemma RateOfRateSheet(t: Option<string>)
    ensures RateOf(t).Some? <==> t.Some? && t.value in Config.RateSheet
    ensures RateOf(t).Some? ==> RateOf(t).value == Config.RateSheet[t.value]
  {
    if t.Some? {
      var s := t.value;
      var v1 := RateValues[1..];
      var v2 := v1[1..];
      var v3 := v2[1..];
      assert v3[1..] == [];
      assert LookupRate(s, RateValues) == if s == "GROUND" then Some(1.0) else LookupRate(s, v1);
      assert LookupRate(s, v1) == if s == "2DAY" then Some(5.0) else LookupRate(s, v2);
      assert LookupRate(s, v2) == if s == "EXPRESS" then Some(10.0) else LookupRate(s, v3);
      assert LookupRate(s, v3) == if s == "FREIGHT" then Some(20.0) else None;
      RateSheetKeys(s);
    }
  }

  /** `i.amount * rates.rate_per_unit`, NULL when the rate is NULL. */
  function CostOf(amount: real, rate: Option<real>): Option<real> {
    match rate
    case None => None
    case Some(r) => Some(amount * r)
  }

  // ------------------------------------------------------------------- join

  /**
   * The join condition `c.client_id = i.client_id OR UPPER(c.client_name) =
   * UPPER(i.client_name)`; a comparison with NULL is never true.
   */
  predicate Matches(c: Client, v: Invoice) {
    || v.clientId == Some(c.clientId)
    || (v.clientName.Some? && Upper(c.clientName) == Upper(v.clientName.value))
  }

  predicate HasMatch(cs: set<Client>, v: Invoice) {
    exists c :: c in cs && Matches(c, v)
  }

  /** The row for an invoice joined to a client: COALESCE takes the client's id and name. */
  function MatchedFact(c: Client, v: Invoice): Fact
    requires v.invoiceId.Some?
  {
    var rate := RateOf(v.shipmentType);
    Fact(Some(c.clientId), Some(c.clientName), Some(c.status), Some(c.tier),
      v.invoiceId.value, v.invoiceDate, v.amount, v.shipmentType, rate, CostOf(v.amount, rate))
  }

  /** The row for an invoice no client matches: the client columns are NULL and COALESCE falls back to the invoice. */
  function UnmatchedFact(v: Invoice): Fact
    requires v.invoiceId.Some?
  {
    var rate := RateOf(v.shipmentType);
    Fact(v.clientId, v.clientName, None, None,
      v.invoiceId.value, v.invoiceDate, v.amount, v.shipmentType, rate, CostOf(v.amount, rate))
  }

  /** The SELECT DISTINCT over the rows of `clients` and `invoices`. */
  function SelectFacts(cs: set<Client>, vs: set<Invoice>): set<Fact> {
    (set c, v | c in cs && v in vs && v.invoiceId.Some? && Matches(c, v) :: MatchedFact(c, v))
    + (set v | v in vs && v.invoiceId.Some? && !HasMatch(cs, v) :: UnmatchedFact(v))
  }

  /** Every fact comes from one stored invoice with an id, whose date, amount and type it copies. */
  lemma FactFromInvoice(cs: set<Client>, vs: set<Invoice>, f: Fact)
    requires f in SelectFacts(cs, vs)
    ensures exists v ::
      && v in vs && v.invoiceId == Some(f.invoiceId) && f.invoiceDate == v.invoiceDate
      && f.invoiceAmount == v.amount && f.shipmentType == v.shipmentType
  {
  }

  /** A fact's rate is the rate of its shipment type and its cost is amount times rate (NULL with the rate). */
  lemma FactCost(cs: set<Client>, vs: set<Invoice>, f: Fact)
    requires f in SelectFacts(cs, vs)
    ensures f.ratePerUnit == RateOf(f.shipmentType)
    ensures f.calculatedCost == CostOf(f.invoiceAmount, f.ratePerUnit)
    ensures f.ratePerUnit.None? ==> f.calculatedCost.None?
  {
  }

  /** Invoices with a NULL `invoice_id` yield no facts: leaving them out selects the same rows. */
  lemma NullInvoiceIdsIgnored(cs: set<Client>, vs: set<Invoice>)
    ensures SelectFacts(cs, vs) == SelectFacts(cs, set v | v in vs && v.invoiceId.Some?)
  {
    var ws := set v | v in vs && v.invoiceId.Some?;
    assert forall v :: v in ws <==> v in vs && v.invoiceId.Some?;
  }

  /**
   * The LEFT JOIN keeps every invoice with an id: a matching client gives a
   * row with the client's id, name, status and tier; without one the row
   * has the invoice's id and name and NULL status and tier.
   */
  lemma LeftJoinRows(cs: set<Client>, vs: set<Invoice>, v: Invoice)
    requires v in vs && v.invoiceId.Some?
    ensures forall c :: c in cs && Matches(c, v) ==>
      var f := MatchedFact(c, v);
      && f in SelectFacts(cs, vs)
      && f.clientId == Some(c.clientId) && f.clientName == Some(c.clientName)
      && f.clientStatus == Some(c.status) && f.clientTier == Some(c.tier)
    ensures !HasMatch(cs, v) ==>
      var f := UnmatchedFact(v);
      && f in SelectFacts(cs, vs)
      && f.clientId == v.clientId && f.clientName == v.clientName
      && f.clientStatus.None? && f.clientTier.None?
    ensures exists f :: f in SelectFacts(cs, vs) && f.invoiceId == v.invoiceId.value
  {
    if !HasMatch(cs, v) {
      assert UnmatchedFact(v) in SelectFacts(cs, vs);
    } else {
      var c :| c in cs && Matches(c, v);
      assert MatchedFact(c, v) in SelectFacts(cs, vs);
    }
  }

  /** A fact with a client status comes from a matching client, and only such facts have one. */
  lemma MatchedFactsHaveStatus(cs: set<Client>, vs: set<Invoice>, f: Fact)
    requires f in SelectFacts(cs, vs)
    ensures f.clientStatus.Some? <==>
      exists c, v :: c in cs && v in vs && v.invoiceId.Some? && Matches(c, v) && f == MatchedFact(c, v)
  {
  }

  // --------------------------------------------------------------- keys

  /** Row sets of tables keyed by `client_id` and by `invoice_id`. */
  ghost predicate UniqueIds(cs: set<Client>, vs: set<Invoice>) {
    && (forall c, d :: c in cs && d in cs && c.clientId == d.clientId ==> c == d)
    && (forall v, w :: v in vs && w in vs && v.invoiceId == w.invoiceId ==> v == w)
  }

  ghost predicate KeysUnique(rows: set<Fact>) {
    forall f, g :: f in rows && g in rows && KeyOf(f) == KeyOf(g) ==> f == g
  }

  /**
   * With unique client and invoice ids, no two selected rows share
   * (`client_id`, `invoice_id`): the insert never meets a conflict within
   * itself.
   */
  lemma SelectedKeysUnique(cs: set<Client>, vs: set<Invoice>)
    requires UniqueIds(cs, vs)
    ensures KeysUnique(SelectFacts(cs, vs))
  {
    var rows := SelectFacts(cs, vs);
    forall f, g | f in rows && g in rows && KeyOf(f) == KeyOf(g) ensures f == g {
      FactOrigin(cs, vs, f);
      FactOrigin(cs, vs, g);
    }
  }

  /** Where a selected row comes from, with its key. */
  lemma FactOrigin(cs: set<Client>, vs: set<Invoice>, f: Fact)
    requires UniqueIds(cs, vs) && f in SelectFacts(cs, vs)
    ensures exists v ::
      && v in vs && v.invoiceId == Some(f.invoiceId)
      && ((!HasMatch(cs, v) && f == UnmatchedFact(v))
          || (exists c :: c in cs && Matches(c, v) && f == MatchedFact(c, v) && f.clientId == Some(c.clientId)))
  {
  }

  // ------------------------------------------------------ INSERT ON CONFLICT

  /** The selected rows keyed by their unique columns. */
  function FactTable(rows: set<Fact>): (t: map<FactKey, Fact>)
    requires KeysUnique(rows)
  {
    map f | f in rows :: KeyOf(f) := f
  }

  /**
   * `INSERT ... ON CONFLICT (client_id, invoice_id) DO UPDATE`: every
   * inserted row ends up under its key, overwriting a row already stored
   * there, and the rows under other keys stay as they were.
   */
  function InsertOnConflict(table: map<FactKey, Fact>, rows: set<Fact>): (r: map<FactKey, Fact>)
    requires KeysUnique(rows)
    ensures forall f :: f in rows ==> KeyOf(f) in r && r[KeyOf(f)] == f
    ensures forall k :: k in table && (forall f :: f in rows ==> KeyOf(f) != k) ==> k in r && r[k] == table[k]
    ensures forall k :: k in r ==> k in table || exists f :: f in rows && KeyOf(f) == k
  {
    table + FactTable(rows)
  }
}
