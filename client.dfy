/**
  A client (`AssesedClient`): its invoices keyed by invoice id. The program
  keeps them in a `Dictionary`, which it only ever inserts into, so enumeration
  follows insertion order; the model keeps the map and that key order.

  `ClientRecord` is the state of a client as a value, with its invoices as
  values; the `AssesedClient` class, which the program mutates in place, is
  proved to act on its objects exactly as `ClientRecord` says.
 */
module Clients {
  import opened Entries
  import opened Invoices

  const DUPLICATE_INVOICE := "Trying to add same invoice twice"

  datatype ClientRecord = ClientRecord(
    id: Option<string>,
    invoices: map<string, InvoiceRecord>,
    invoiceOrder: seq<string>)
  {
    /** The key order lists every invoice id exactly once, and each invoice sits under its own id. */
    ghost predicate Valid() {
      && (forall k :: k in invoices <==> k in invoiceOrder)
      && Unique(invoiceOrder)
      && (forall k :: k in invoices ==> invoices[k].invoiceId == k)
    }

    /** Registers `invoice` under its own id; throws, changing nothing, if that id is taken. */
    function AddInvoice(invoice: InvoiceRecord): (ClientRecord, Outcome) {
      if invoice.invoiceId in invoices then (this, Fail(DUPLICATE_INVOICE))
      else
        (this.(invoices := invoices[invoice.invoiceId := invoice],
               invoiceOrder := invoiceOrder + [invoice.invoiceId]),
         Pass)
    }

    /**
      Files `entry` under the invoice for its invoice id, first creating that
      invoice, with this client's id and the entry's date, when the id is new.
     */
    function AddEntry(entry: InvoiceEntry): (ClientRecord, Outcome) {
      var client := if entry.invoiceId in invoices then this
                    else AddInvoice(InvoiceRecord(id, entry.date, entry.invoiceId, [])).0;
      var (invoice, outcome) := client.invoices[entry.invoiceId].AddEntry(entry);
      (client.(invoices := client.invoices[entry.invoiceId := invoice]), outcome)
    }
  }

  /**
    `AddInvoice` fails exactly when the id is taken, and then changes nothing;
    otherwise it inserts that one key, at the end of the key order, and keeps
    every other invoice and the client's id. It preserves `Valid`.
   */
  lemma AddInvoiceSpec(client: ClientRecord, invoice: InvoiceRecord)
    ensures var (after, outcome) := client.AddInvoice(invoice);
      && (outcome == Pass <==> invoice.invoiceId !in client.invoices)
      && (outcome != Pass ==> after == client && outcome == Fail(DUPLICATE_INVOICE))
      && (outcome == Pass ==>
            && after.invoices.Keys == client.invoices.Keys + {invoice.invoiceId}
            && after.invoices[invoice.invoiceId] == invoice
            && (forall k :: k in client.invoices ==> after.invoices[k] == client.invoices[k])
            && after.invoiceOrder == client.invoiceOrder + [invoice.invoiceId])
      && after.id == client.id
      && (client.Valid() && invoice.invoiceId !in client.invoices ==> after.Valid())
  {
    var (after, outcome) := client.AddInvoice(invoice);
    if client.Valid() && outcome == Pass {
      assert after.invoiceOrder[..|after.invoiceOrder| - 1] == client.invoiceOrder;
    }
  }

  /**
    `AddEntry` adds at most the entry's invoice id as a key and touches no other
    invoice. A new id gets a fresh invoice holding just the entry, with the
    client's id and the entry's date; an existing invoice is handed the entry
    and keeps its header. `Valid` is preserved.
   */
  lemma AddEntrySpec(client: ClientRecord, entry: InvoiceEntry)
    ensures var (after, outcome) := client.AddEntry(entry);
      && after.id == client.id
      && after.invoices.Keys == client.invoices.Keys + {entry.invoiceId}
      && (forall k :: k in client.invoices && k != entry.invoiceId ==> after.invoices[k] == client.invoices[k])
      && (entry.invoiceId !in client.invoices ==>
            && after.invoices[entry.invoiceId] == InvoiceRecord(client.id, entry.date, entry.invoiceId, [entry])
            && outcome == Pass
            && after.invoiceOrder == client.invoiceOrder + [entry.invoiceId])
      && (entry.invoiceId in client.invoices ==>
            && (after.invoices[entry.invoiceId], outcome) == client.invoices[entry.invoiceId].AddEntry(entry)
            && after.invoiceOrder == client.invoiceOrder)
      && (client.Valid() ==> after.Valid())
  {
    AddInvoiceSpec(client, InvoiceRecord(client.id, entry.date, entry.invoiceId, []));
  }

  /** The state of `new AssesedClient()`: no id, no invoices. */
  const NEW_CLIENT := ClientRecord(None, map[], [])

  /**
    After a successful add the entry's invoice ends with the entry, and an
    existing invoice keeps its date and its earlier entries.
   */
  lemma AddEntryLast(client: ClientRecord, entry: InvoiceEntry)
    requires client.AddEntry(entry).1 == Pass
    ensures var after := client.AddEntry(entry).0.invoices[entry.invoiceId];
      && after.entries != [] && after.entries[|after.entries| - 1] == entry
      && (entry.invoiceId in client.invoices ==>
            after.date == client.invoices[entry.invoiceId].date
            && after.entries == client.invoices[entry.invoiceId].entries + [entry])
  {
    AddEntrySpec(client, entry);
    if entry.invoiceId in client.invoices {
      AddEntryAppends(client.invoices[entry.invoiceId], entry);
    }
  }

  class AssesedClient {
    var id: Option<string>
    var invoices: map<string, Invoice>
    var invoiceOrder: seq<string>

    /** The client's state as a value, with each invoice's state. */
    ghost function Record(): ClientRecord
      reads this, invoices.Values
    {
      ClientRecord(id, map k | k in invoices :: invoices[k].Record(), invoiceOrder)
    }

    /**
      Each invoice object sits under its own (fixed) id, so distinct keys hold
      distinct objects. The key-order half of `ClientRecord.Valid` follows from
      `Record()` by `AddEntrySpec` and `AddInvoiceSpec`.
     */
    ghost predicate Valid()
      reads this
    {
      forall k :: k in invoices ==> invoices[k].invoiceId == k
    }

    /** `new AssesedClient()`: the id is left null. */
    constructor ()
      ensures Valid() && Record() == NEW_CLIENT && Record().Valid()
    {
      id := None;
      invoices := map[];
      invoiceOrder := [];
    }

    method AddEntry(entry: InvoiceEntry) returns (outcome: Outcome)
      requires Valid()
      modifies this, if entry.invoiceId in invoices then {invoices[entry.invoiceId]} else {}
      ensures Valid()
      ensures (Record(), outcome) == old(Record()).AddEntry(entry)
      // an existing invoice object is reused and mutated in place; a new one is created and inserted
      ensures entry.invoiceId in old(invoices) ==> invoices == old(invoices)
      ensures entry.invoiceId !in old(invoices) ==>
                && entry.invoiceId in invoices && fresh(invoices[entry.invoiceId])
                && invoices == old(invoices)[entry.invoiceId := invoices[entry.invoiceId]]
    {
      ghost var start := Record();
      if entry.invoiceId !in invoices {
        var invoice := new Invoice(id, entry.invoiceId, entry.date);
        var added := AddInvoice(invoice);
        // the ContainsKey guard above makes the duplicate-invoice exception unreachable
        assert added == Pass;
      }
      ghost var mid := Record();
      assert mid == if entry.invoiceId in start.invoices then start
                    else start.AddInvoice(InvoiceRecord(id, entry.date, entry.invoiceId, [])).0;
      var invoice := invoices[entry.invoiceId];
      outcome := invoice.AddEntry(entry);
      assert Record().invoices == mid.invoices[entry.invoiceId := invoice.Record()];
    }

    method AddInvoice(invoice: Invoice) returns (outcome: Outcome)
      requires Valid()
      modifies this
      ensures Valid()
      ensures invoices == if invoice.invoiceId in old(invoices) then old(invoices)
                          else old(invoices)[invoice.invoiceId := invoice]
      ensures (Record(), outcome) == old(Record()).AddInvoice(invoice.Record())
    {
      if invoice.invoiceId in invoices {
        return Fail(DUPLICATE_INVOICE);
      }
      ghost var before := Record();
      invoices := invoices[invoice.invoiceId := invoice];
      invoiceOrder := invoiceOrder + [invoice.invoiceId];
      assert Record().invoices == before.invoices[invoice.invoiceId := invoice.Record()];
      outcome := Pass;
    }
  }
}
