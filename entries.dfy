/**
  Billing entries and the totals computed over them.

  `InvoiceEntry` is a class in the billing program (no `Equals` override), so
  two entries are the same entry only when they are the same object. The Dafny
  class below keeps that: `e in s` on a `seq<InvoiceEntry>` is reference
  identity, like `List.Contains`. Its fields are only ever set by the object
  initialiser, so they are `const` here.

  Amounts are C# `double`s in the program; here they are exact `real`s.
 */
module Entries {

  datatype Option<+T> = None | Some(value: T)

  /** What an operation that may throw returns: `Fail` carries the exception message. */
  datatype Outcome = Pass | Fail(message: string)

  /** The field values of an entry, without its identity. */
  datatype EntryData = EntryData(
    clientId: string,
    date: string,
    invoiceId: string,
    itemId: Option<string>,
    itemDescription: Option<string>,
    amount: real,
    assesed: real)

  class InvoiceEntry {
    const clientId: string
    const date: string
    const invoiceId: string
    const itemId: Option<string>
    const itemDescription: Option<string>
    const amount: real
    const assesed: real

    /** The object initialiser used by ingestion: it leaves the item fields null. */
    constructor (date: string, invoiceId: string, clientId: string, amount: real, assesed: real)
      ensures Data() == EntryData(clientId, date, invoiceId, None, None, amount, assesed)
    {
      this.clientId := clientId;
      this.date := date;
      this.invoiceId := invoiceId;
      this.itemId := None;
      this.itemDescription := None;
      this.amount := amount;
      this.assesed := assesed;
    }

    function Data(): EntryData {
      EntryData(clientId, date, invoiceId, itemId, itemDescription, amount, assesed)
    }
  }

  /** The field values of a list of entries, in order. */
  function DataOf(s: seq<InvoiceEntry>): (r: seq<EntryData>)
    ensures |r| == |s|
    ensures forall j :: 0 <= j < |s| ==> r[j] == s[j].Data()
  {
    if s == [] then [] else DataOf(s[..|s| - 1]) + [s[|s| - 1].Data()]
  }

  /**
    No element occurs twice. Stated on the last element, so that appending
    one element is one step; `UniqueApart` gives the pairwise reading.
   */
  ghost predicate Unique<T>(s: seq<T>) {
    s == [] || (s[|s| - 1] !in s[..|s| - 1] && Unique(s[..|s| - 1]))
  }

  /** Two positions of a list without repeats hold different elements. */
  lemma {:induction false} UniqueApart<T>(s: seq<T>, i: int, j: int)
    requires Unique(s) && 0 <= i < j < |s|
    ensures s[i] != s[j]
  {
    var init := s[..|s| - 1];
    if j < |s| - 1 {
      assert init[i] == s[i] && init[j] == s[j];
      UniqueApart(init, i, j);
    } else {
      assert s[i] == init[i];
    }
  }

  /** A list whose positions pairwise differ has no repeats. */
  lemma {:induction false} ApartUnique<T>(s: seq<T>)
    requires forall i, j :: 0 <= i < j < |s| ==> s[i] != s[j]
    ensures Unique(s)
  {
    if s != [] {
      var init := s[..|s| - 1];
      forall i, j | 0 <= i < j < |init| ensures init[i] != init[j] {
        assert init[i] == s[i] && init[j] == s[j];
      }
      ApartUnique(init);
    }
  }

  /** An amount and an assessed amount, summed together (`AmountTotal`). */
  datatype AmountTotal = AmountTotal(amount: real, assesed: real) {
    function Plus(other: AmountTotal): AmountTotal {
      AmountTotal(amount + other.amount, assesed + other.assesed)
    }
  }

  const ZERO := AmountTotal(0.0, 0.0)

  /** The sums of `amount` and `assesed` over `s`, accumulated left to right. */
  function Total(s: seq<InvoiceEntry>): AmountTotal {
    if s == [] then ZERO
    else
      var last := s[|s| - 1];
      Total(s[..|s| - 1]).Plus(AmountTotal(last.amount, last.assesed))
  }

  /** The total is additive over concatenation, so order and grouping do not change it. */
  lemma {:induction false} TotalAppend(a: seq<InvoiceEntry>, b: seq<InvoiceEntry>)
    ensures Total(a + b) == Total(a).Plus(Total(b))
  {
    if b == [] {
      assert a + b == a;
    } else {
      var b' := b[..|b| - 1];
      assert (a + b)[..|a + b| - 1] == a + b';
      TotalAppend(a, b');
    }
  }

  /** Appending one entry raises the total by exactly that entry's two amounts. */
  lemma TotalAppendOne(s: seq<InvoiceEntry>, e: InvoiceEntry)
    ensures Total(s + [e]) == AmountTotal(Total(s).amount + e.amount, Total(s).assesed + e.assesed)
    ensures Total([]) == AmountTotal(0.0, 0.0)
  {
    assert (s + [e])[..|s|] == s;
  }
}
