/**
  One invoice of one client: the ordered list of its entries and their total.

  `InvoiceRecord` is the state of an invoice as a value and `InvoiceRecord.AddEntry`
  says what adding an entry does to it; the `Invoice` class, which the program
  mutates in place, is proved to act on its fields exactly that way.
 */
module Invoices {
  import opened Entries

  const DUPLICATE_ENTRY := "Trying to add same entry twice"

  datatype InvoiceRecord = InvoiceRecord(
    clientId: Option<string>,
    date: string,
    invoiceId: string,
    entries: seq<InvoiceEntry>)
  {
    /**
      Appends `entry` unless that very object is already listed; then the
      program throws and the list is left as it was.
     */
    function AddEntry(entry: InvoiceEntry): (r: (InvoiceRecord, Outcome))
      ensures r.1 == Pass <==> entry !in entries
      ensures r.1 != Pass ==> r.1 == Fail(DUPLICATE_ENTRY) && r.0 == this
      ensures r.0.clientId == clientId && r.0.date == date && r.0.invoiceId == invoiceId
      ensures |r.0.entries| == if r.1 == Pass then |entries| + 1 else |entries|
      ensures entry in r.0.entries && r.0.entries[..|entries|] == entries
    {
      if entry in entries then (this, Fail(DUPLICATE_ENTRY))
      else (this.(entries := entries + [entry]), Pass)
    }
  }

  /** A successful add puts exactly `entry` at the end, so a list without repeats keeps none. */
  lemma AddEntryAppends(invoice: InvoiceRecord, entry: InvoiceEntry)
    requires invoice.AddEntry(entry).1 == Pass
    ensures invoice.AddEntry(entry).0.entries == invoice.entries + [entry]
    ensures Unique(invoice.entries) ==> Unique(invoice.AddEntry(entry).0.entries)
  {
    var after := invoice.AddEntry(entry).0.entries;
    assert after[..|after| - 1] == invoice.entries;
  }

  /** Adding an entry raises the total by its two amounts, or leaves it alone when refused. */
  lemma AddEntryTotal(invoice: InvoiceRecord, entry: InvoiceEntry)
    ensures var (after, outcome) := invoice.AddEntry(entry);
      Total(after.entries) == if outcome == Pass then Total(invoice.entries).Plus(AmountTotal(entry.amount, entry.assesed))
                              else Total(invoice.entries)
  {
    if entry !in invoice.entries {
      AddEntryAppends(invoice, entry);
      TotalAppendOne(invoice.entries, entry);
    }
  }

  /**
    The program only ever sets `ClientId`, `Date` and `InvoiceId` in the object
    initialiser, so they are `const` here; `Entries` grows.
   */
  class Invoice {
    const clientId: Option<string>
    const date: string
    const invoiceId: string
    var entries: seq<InvoiceEntry>

    /** The invoice's state as a value. */
    function Record(): InvoiceRecord
      reads this
    {
      InvoiceRecord(clientId, date, invoiceId, entries)
    }

    /** The object initialiser used when an invoice id is first seen. */
    constructor (clientId: Option<string>, invoiceId: string, date: string)
      ensures Record() == InvoiceRecord(clientId, date, invoiceId, [])
    {
      this.clientId := clientId;
      this.invoiceId := invoiceId;
      this.date := date;
      entries := [];
    }

    method AddEntry(entry: InvoiceEntry) returns (outcome: Outcome)
      modifies this
      ensures (Record(), outcome) == old(Record()).AddEntry(entry)
    {
      if entry in entries {
        return Fail(DUPLICATE_ENTRY);
      }
      entries := entries + [entry];
      outcome := Pass;
    }

    /** Sums both amounts over the entries, in list order; changes nothing. */
    method GetTotal() returns (total: AmountTotal)
      ensures total == Total(entries)
    {
      total := ZERO;
      for i := 0 to |entries|
        invariant total == Total(entries[..i])
      {
        assert entries[..i + 1][..i] == entries[..i];
        total := total.Plus(AmountTotal(entries[i].amount, entries[i].assesed));
      }
      assert entries[..|entries|] == entries;
    }
  }
}
