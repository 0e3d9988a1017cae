/**
 * `RevealPipeline` against its store: the three tables as maps keyed by
 * their conflict columns, the upserts of the processed client and invoice
 * frames, the clear-then-insert rebuild of `invoice_facts`, and the step
 * order of `run_full_pipeline`.
 */
module Pipeline {
  import opened Wrappers
  import opened Dates
  import opened ClientReconciler
  import opened ClientMerge
  import opened InvoiceReconciler
  import opened FactDerivation

  /** Why a statement against the store raises. */
  datatype StoreError =
    | NullKey            // a NULL in a primary-key column
    | DuplicateKey       // one upsert that would touch the same key twice
    | NotNullViolation   // a selected fact with a NULL client_name, invoice_date or shipment_type

  /** Rows one `upsert_dataframe` statement accepts: no NULL key and no key twice. */
  predicate Upsertable<V>(rows: seq<V>, key: V -> Option<string>) {
    && (forall i :: 0 <= i < |rows| ==> key(rows[i]).Some?)
    && (forall i, j :: 0 <= i < j < |rows| ==> key(rows[i]) != key(rows[j]))
  }

  /**
   * A table after `INSERT ... ON CONFLICT (key) DO UPDATE SET` all other
   * columns: every row ends up under its key, replacing what was there, and
   * the other keys keep their rows.
   */
  function Upserted<V>(table: map<string, V>, rows: seq<V>, key: V -> Option<string>): (t: map<string, V>)
    requires Upsertable(rows, key)
    ensures forall i :: 0 <= i < |rows| ==> key(rows[i]).value in t && t[key(rows[i]).value] == rows[i]
    ensures forall k :: k in table && (forall i :: 0 <= i < |rows| ==> key(rows[i]) != Some(k)) ==>
      k in t && t[k] == table[k]
    ensures forall k :: k in t ==> k in table || exists i :: 0 <= i < |rows| && key(rows[i]) == Some(k)
  {
    table + (map i | 0 <= i < |rows| :: key(rows[i]).value := rows[i])
  }

  /** The conflict column of `clients`. */
  function ClientKeyOf(c: Client): Option<string> {
    Some(c.clientId)
  }

  /** The NOT NULL columns of `invoice_facts` that the SELECT can leave NULL. */
  predicate Storable(rows: set<Fact>) {
    forall f :: f in rows ==> f.clientName.Some? && f.invoiceDate.Some? && f.shipmentType.Some?
  }

  /** `facts` holds exactly `rows`, each under its (`client_id`, `invoice_id`). */
  ghost predicate HoldsExactly(facts: map<FactKey, Fact>, rows: set<Fact>) {
    && (forall k :: k in facts ==> facts[k] in rows)
    && (forall f :: f in rows ==> KeyOf(f) in facts && facts[KeyOf(f)] == f)
  }

  /**
   * A fact table whose rows sit under their own keys is determined by the
   * rows it holds: two rebuilds from the same selected rows leave the same
   * table, whatever each replaced.
   */
  lemma FactTableDetermined(a: map<FactKey, Fact>, b: map<FactKey, Fact>, rows: set<Fact>)
    requires forall k :: k in a ==> KeyOf(a[k]) == k
    requires forall k :: k in b ==> KeyOf(b[k]) == k
    requires HoldsExactly(a, rows) && HoldsExactly(b, rows)
    ensures a == b
  {
    forall k | k in a ensures k in b && b[k] == a[k] {
      assert a[k] in rows;
    }
    forall k | k in b ensures k in a {
      assert b[k] in rows;
    }
  }

  /** Tables keyed by `client_id` and `invoice_id` hold rows with unique ids. */
  lemma KeyedRowsUnique(clients: map<string, Client>, invoices: map<string, Invoice>)
    requires forall k :: k in clients ==> clients[k].clientId == k
    requires forall k :: k in invoices ==> invoices[k].invoiceId == Some(k)
    ensures UniqueIds(clients.Values, invoices.Values)
  {
    forall c, d | c in clients.Values && d in clients.Values && c.clientId == d.clientId ensures c == d {
      var k :| k in clients && clients[k] == c;
      var l :| l in clients && clients[l] == d;
    }
    forall v, w | v in invoices.Values && w in invoices.Values && v.invoiceId == w.invoiceId ensures v == w {
      var k :| k in invoices && invoices[k] == v;
      var l :| l in invoices && invoices[l] == w;
    }
  }

  /** The counts `run_full_pipeline` reports. */
  datatype PipelineCounts = PipelineCounts(clientCount: nat, invoiceCount: nat)

  /** The store: `clients`, `invoices` and `invoice_facts`, each keyed by its conflict columns. */
  class Warehouse {
    var clients: map<string, Client>
    var invoices: map<string, Invoice>
    var facts: map<FactKey, Fact>

    /** Every row sits under its own key. */
    ghost predicate Valid()
      reads this
    {
      && (forall k :: k in clients ==> clients[k].clientId == k)
      && (forall k :: k in invoices ==> invoices[k].invoiceId == Some(k))
      && (forall k :: k in facts ==> KeyOf(facts[k]) == k)
    }

    /** Freshly created, empty tables. */
    constructor ()
      ensures Valid()
      ensures clients == map[] && invoices == map[] && facts == map[]
    {
      clients := map[];
      invoices := map[];
      facts := map[];
    }

    /** `upsert_dataframe(client_data, 'clients', conflict_columns=['client_id'])` */
    method UpsertClients(rows: seq<Client>) returns (r: Result<(), StoreError>)
      requires Valid()
      modifies this
      ensures Valid()
      ensures r.Ok? <==> Upsertable(rows, ClientKeyOf)
      ensures r.Ok? ==> clients == Upserted(old(clients), rows, ClientKeyOf)
      ensures r.Err? ==> clients == old(clients)
      ensures invoices == old(invoices) && facts == old(facts)
    {
      if !Upsertable(rows, ClientKeyOf) {
        return Err(DuplicateKey);
      }
      clients := Upserted(clients, rows, ClientKeyOf);
      r := Ok(());
    }

    /**
     * `upsert_dataframe(invoice_data, 'invoices', conflict_columns=['invoice_id'])`;
     * a NULL `invoice_id` violates the primary key and aborts the statement.
     */
    method UpsertInvoices(rows: seq<Invoice>) returns (r: Result<(), StoreError>)
      requires Valid()
      modifies this
      ensures Valid()
      ensures r.Ok? <==> Upsertable(rows, InvoiceIdOf)
      ensures r.Ok? ==> invoices == Upserted(old(invoices), rows, InvoiceIdOf)
      ensures r.Err? ==> invoices == old(invoices)
      ensures r == Err(NullKey) <==> exists i :: 0 <= i < |rows| && rows[i].invoiceId.None?
      ensures clients == old(clients) && facts == old(facts)
    {
      if exists i :: 0 <= i < |rows| && rows[i].invoiceId.None? {
        return Err(NullKey);
      }
      if !Upsertable(rows, InvoiceIdOf) {
        return Err(DuplicateKey);
      }
      invoices := Upserted(invoices, rows, InvoiceIdOf);
      r := Ok(());
    }

    /**
     * `create_fact_table`: `DELETE FROM invoice_facts`, then the INSERT of
     * the selected rows. The new contents depend on `clients` and
     * `invoices` alone, never on the facts stored before, so a rerun on the
     * same tables leaves the same facts. When a selected row breaks a NOT
     * NULL column the INSERT raises and the table stays cleared.
     */
    method CreateFactTable() returns (r: Result<(), StoreError>)
      requires Valid()
      modifies this
      ensures Valid()
      ensures clients == old(clients) && invoices == old(invoices)
      ensures var rows := SelectFacts(clients.Values, invoices.Values);
        && (r.Ok? <==> Storable(rows))
        && (r.Ok? ==> HoldsExactly(facts, rows))
        && (r.Err? ==> facts == map[])
    {
      facts := map[];
      var rows := SelectFacts(clients.Values, invoices.Values);
      KeyedRowsUnique(clients, invoices);
      SelectedKeysUnique(clients.Values, invoices.Values);
      if !Storable(rows) {
        return Err(NotNullViolation);
      }
      facts := InsertOnConflict(facts, rows);
      r := Ok(());
    }

    /**
     * `run_full_pipeline` after the store is set up and the files are found:
     * process and upsert the clients, process and upsert the invoices, and
     * rebuild the facts only when either processed frame is non-empty. A
     * step that raises ends the run; the steps before it stay applied.
     */
    method RunFullPipeline(clientFiles: seq<ClientSource>, invoiceFiles: seq<InvoiceSource>, parser: DateParser)
      returns (r: Result<PipelineCounts, StoreError>)
      requires Valid()
      modifies this
      ensures Valid()
      ensures var cd := ProcessedClients(clientFiles, parser);
        var vd := ProcessedInvoices(invoiceFiles, parser);
        r.Ok? ==> r.value == PipelineCounts(|cd|, |vd|)
      ensures var cd := ProcessedClients(clientFiles, parser);
        cd != [] && !Upsertable(cd, ClientKeyOf) ==>
          r.Err? && clients == old(clients) && invoices == old(invoices) && facts == old(facts)
      ensures var cd := ProcessedClients(clientFiles, parser);
        cd == [] ==> clients == old(clients)
      ensures var cd := ProcessedClients(clientFiles, parser);
        cd != [] && Upsertable(cd, ClientKeyOf) ==> clients == Upserted(old(clients), cd, ClientKeyOf)
      ensures var cd := ProcessedClients(clientFiles, parser);
        var vd := ProcessedInvoices(invoiceFiles, parser);
        (cd == [] || Upsertable(cd, ClientKeyOf)) ==>
          && (vd == [] ==> invoices == old(invoices))
          && (vd != [] && !Upsertable(vd, InvoiceIdOf) ==> r.Err? && invoices == old(invoices) && facts == old(facts))
          && (vd != [] && Upsertable(vd, InvoiceIdOf) ==> invoices == Upserted(old(invoices), vd, InvoiceIdOf))
      ensures var cd := ProcessedClients(clientFiles, parser);
        var vd := ProcessedInvoices(invoiceFiles, parser);
        cd == [] && vd == [] ==> r.Ok? && facts == old(facts)
      ensures var cd := ProcessedClients(clientFiles, parser);
        var vd := ProcessedInvoices(invoiceFiles, parser);
        var rows := SelectFacts(clients.Values, invoices.Values);
        (cd == [] || Upsertable(cd, ClientKeyOf)) && (vd == [] || Upsertable(vd, InvoiceIdOf)) && (cd != [] || vd != []) ==>
          && (r.Ok? <==> Storable(rows))
          && (r.Ok? ==> HoldsExactly(facts, rows))
          && (r.Err? ==> facts == map[])
    {
      var clientData: seq<Client> := [];
      if clientFiles != [] {
        clientData := ProcessClientFiles(clientFiles, parser);
      }
      if clientData != [] {
        var u := UpsertClients(clientData);
        if u.Err? {
          return Err(u.error);
        }
      }
      var invoiceData: seq<Invoice> := [];
      if invoiceFiles != [] {
        invoiceData := ProcessInvoiceFiles(invoiceFiles, parser);
      }
      if invoiceData != [] {
        var u := UpsertInvoices(invoiceData);
        if u.Err? {
          return Err(u.error);
        }
      }
      if clientData != [] || invoiceData != [] {
        var f := CreateFactTable();
        if f.Err? {
          return Err(f.error);
        }
      }
      r := Ok(PipelineCounts(|clientData|, |invoiceData|));
    }
  }
}
