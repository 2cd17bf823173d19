/**
  Ingestion (`LoadRawData`): the rows of every mapped worksheet become entries,
  appended to the flat entry list and folded into the client registry.

  The spreadsheet is an input value: a list of sheets, each with a name, a row
  count and cell lookups by row and column letter. The worksheet-to-column
  mapping of the settings document is a map from sheet name to column letters.
 */
module Ingestion {
  import opened Entries
  import opened Invoices
  import opened Clients

  // ---------------------------------------------------------------------------
  // Input
  // ---------------------------------------------------------------------------

  /** A worksheet as read: `text` is `GetString`, `number` is `GetDouble`. */
  datatype InputSheet = InputSheet(
    name: string,
    rowCount: int,
    text: (int, string) -> string,
    number: (int, string) -> real)

  /** Where one worksheet keeps each field, and the first data row. */
  datatype WorksheetColumns = WorksheetColumns(
    firstRow: int,
    clientId: string,
    date: string,
    invoiceId: string,
    itemId: string,
    itemDescription: string,
    amount: string,
    assessed: string)

  /** The end-of-data test: within the sheet and column A not empty. */
  predicate HasData(sheet: InputSheet, row: int) {
    row <= sheet.rowCount && sheet.text(row, "A") != ""
  }

  /** The entry a data row becomes; the item columns are not read. */
  function ReadRow(sheet: InputSheet, cols: WorksheetColumns, row: int): EntryData {
    EntryData(
      sheet.text(row, cols.clientId),
      sheet.text(row, cols.date),
      sheet.text(row, cols.invoiceId),
      None,
      None,
      sheet.number(row, cols.amount),
      sheet.number(row, cols.assessed))
  }

  /** The rows read from `row` on, up to the first row without data. */
  function RowsFrom(sheet: InputSheet, cols: WorksheetColumns, row: int): seq<EntryData>
    decreases if row <= sheet.rowCount then sheet.rowCount + 1 - row else 0
  {
    if HasData(sheet, row) then [ReadRow(sheet, cols, row)] + RowsFrom(sheet, cols, row + 1) else []
  }

  /** The first row at or after `row` that has no data. */
  function StopRow(sheet: InputSheet, row: int): int
    decreases if row <= sheet.rowCount then sheet.rowCount + 1 - row else 0
  {
    if HasData(sheet, row) then StopRow(sheet, row + 1) else row
  }

  /**
    Reading from `row` takes exactly the rows `row .. k-1`, in row order, where
    `k` is the first row at or after `row` past the row count or with an empty
    column A.
   */
  lemma {:induction false} RowsFromSpan(sheet: InputSheet, cols: WorksheetColumns, row: int)
    ensures var k := StopRow(sheet, row);
      && row <= k && !HasData(sheet, k)
      && (forall r :: row <= r < k ==> HasData(sheet, r))
      && |RowsFrom(sheet, cols, row)| == k - row
      && (forall j :: 0 <= j < k - row ==> RowsFrom(sheet, cols, row)[j] == ReadRow(sheet, cols, row + j))
    decreases if row <= sheet.rowCount then sheet.rowCount + 1 - row else 0
  {
    if HasData(sheet, row) {
      RowsFromSpan(sheet, cols, row + 1);
    }
  }

  /** The rows a sheet contributes: none when the settings do not map it. */
  function SheetRows(sheet: InputSheet, settings: map<string, WorksheetColumns>): seq<EntryData> {
    if sheet.name in settings then RowsFrom(sheet, settings[sheet.name], settings[sheet.name].firstRow)
    else []
  }

  /** The rows of all sheets, sheet after sheet. */
  function WorkbookRows(sheets: seq<InputSheet>, settings: map<string, WorksheetColumns>): seq<EntryData> {
    if sheets == [] then []
    else WorkbookRows(sheets[..|sheets| - 1], settings) + SheetRows(sheets[|sheets| - 1], settings)
  }

  // ---------------------------------------------------------------------------
  // Where an entry ends up
  // ---------------------------------------------------------------------------

  /** The entries of `s` for one client and one invoice id, in list order. */
  function Select(s: seq<InvoiceEntry>, clientId: string, invoiceId: string): seq<InvoiceEntry> {
    if s == [] then []
    else
      var last := s[|s| - 1];
      Select(s[..|s| - 1], clientId, invoiceId)
        + (if last.clientId == clientId && last.invoiceId == invoiceId then [last] else [])
  }

  lemma SelectAppendOne(s: seq<InvoiceEntry>, e: InvoiceEntry, clientId: string, invoiceId: string)
    ensures Select(s + [e], clientId, invoiceId)
         == Select(s, clientId, invoiceId) + (if e.clientId == clientId && e.invoiceId == invoiceId then [e] else [])
  {
    assert (s + [e])[..|s|] == s;
  }

  lemma {:induction false} SelectAppend(a: seq<InvoiceEntry>, b: seq<InvoiceEntry>, clientId: string, invoiceId: string)
    ensures Select(a + b, clientId, invoiceId) == Select(a, clientId, invoiceId) + Select(b, clientId, invoiceId)
  {
    if b == [] {
      assert a + b == a;
    } else {
      var b' := b[..|b| - 1];
      assert a + b == (a + b') + [b[|b| - 1]];
      SelectAppendOne(a + b', b[|b| - 1], clientId, invoiceId);
      SelectAppendOne(b', b[|b| - 1], clientId, invoiceId);
      assert b == b' + [b[|b| - 1]];
      SelectAppend(a, b', clientId, invoiceId);
    }
  }

  /** An entry is selected exactly when it is in the list and carries both ids. */
  lemma {:induction false} SelectMembership(s: seq<InvoiceEntry>, clientId: string, invoiceId: string, x: InvoiceEntry)
    ensures x in Select(s, clientId, invoiceId) <==> x in s && x.clientId == clientId && x.invoiceId == invoiceId
  {
    if s != [] {
      var s' := s[..|s| - 1];
      assert s == s' + [s[|s| - 1]];
      SelectMembership(s', clientId, invoiceId, x);
    }
  }

  /**
    Entry `j` of the list sits in its invoice's selection at the position given
    by the number of entries of that invoice before it, so the selection keeps
    list order.
   */
  lemma SelectPosition(s: seq<InvoiceEntry>, j: int)
    requires 0 <= j < |s|
    ensures var sel := Select(s, s[j].clientId, s[j].invoiceId);
      var before := |Select(s[..j], s[j].clientId, s[j].invoiceId)|;
      before < |sel| && sel[before] == s[j]
  {
    var c, i := s[j].clientId, s[j].invoiceId;
    assert s == s[..j] + [s[j]] + s[j + 1..];
    SelectAppend(s[..j] + [s[j]], s[j + 1..], c, i);
    SelectAppendOne(s[..j], s[j], c, i);
  }

  /** With no entry listed twice, each entry is selected into its invoice exactly once. */
  lemma SelectedOnce(s: seq<InvoiceEntry>, j: int)
    requires Unique(s) && 0 <= j < |s|
    ensures multiset(Select(s, s[j].clientId, s[j].invoiceId))[s[j]] == 1
  {
    var c, i, x := s[j].clientId, s[j].invoiceId, s[j];
    var head, tail := s[..j], s[j + 1..];
    assert s == head + [x] + tail;
    SelectAppend(head + [x], tail, c, i);
    SelectAppendOne(head, x, c, i);
    OnlyAt(s, j);
    SelectMembership(head, c, i, x);
    SelectMembership(tail, c, i, x);
    OnceBetween(Select(head, c, i), x, Select(tail, c, i));
  }

  lemma OnlyAt(s: seq<InvoiceEntry>, j: int)
    requires Unique(s) && 0 <= j < |s|
    ensures s[j] !in s[..j] && s[j] !in s[j + 1..]
  {
    var head, tail := s[..j], s[j + 1..];
    forall k | 0 <= k < |head| ensures head[k] != s[j] { assert s[k] != s[j]; }
    forall k | 0 <= k < |tail| ensures tail[k] != s[j] { assert s[j + 1 + k] != s[j]; }
  }

  lemma OnceBetween<T>(a: seq<T>, x: T, b: seq<T>)
    requires x !in a && x !in b
    ensures multiset(a + [x] + b)[x] == 1
  {
    assert multiset(a + [x] + b) == multiset(a) + multiset{x} + multiset(b);
  }

  /**
    The distinct invoice ids among the entries of `s` for one client, in the
    order in which each is first seen.
   */
  function FirstSeen(s: seq<InvoiceEntry>, clientId: string): seq<string> {
    if s == [] then []
    else
      var last, seen := s[|s| - 1], FirstSeen(s[..|s| - 1], clientId);
      seen + (if last.clientId == clientId && last.invoiceId !in seen then [last.invoiceId] else [])
  }

  lemma FirstSeenAppendOne(s: seq<InvoiceEntry>, e: InvoiceEntry, clientId: string)
    ensures FirstSeen(s + [e], clientId)
         == FirstSeen(s, clientId)
            + (if e.clientId == clientId && e.invoiceId !in FirstSeen(s, clientId) then [e.invoiceId] else [])
  {
    assert (s + [e])[..|s|] == s;
  }

  /** An invoice id is first seen, for a client, exactly when some entry of `s` carries both ids. */
  lemma {:induction false} FirstSeenMembership(s: seq<InvoiceEntry>, clientId: string, invoiceId: string)
    ensures invoiceId in FirstSeen(s, clientId) <==> Select(s, clientId, invoiceId) != []
  {
    if s != [] {
      var s', e := s[..|s| - 1], s[|s| - 1];
      assert s == s' + [e];
      FirstSeenAppendOne(s', e, clientId);
      SelectAppendOne(s', e, clientId, invoiceId);
      FirstSeenMembership(s', clientId, invoiceId);
    }
  }

  /** A client none of whose entries is in `s` has no invoice id seen. */
  lemma FirstSeenNone(s: seq<InvoiceEntry>, clientId: string)
    requires forall e | e in s :: e.clientId != clientId
    ensures FirstSeen(s, clientId) == []
  {
    if FirstSeen(s, clientId) != [] {
      var i := FirstSeen(s, clientId)[0];
      FirstSeenMembership(s, clientId, i);
      SelectMembership(s, clientId, i, Select(s, clientId, i)[0]);
    }
  }

  /**
    Ids are listed in order of first appearance: when id `p` is listed before
    id `q`, some entry with id `p` comes before every entry with id `q`.
   */
  lemma {:induction false} FirstSeenOrder(s: seq<InvoiceEntry>, clientId: string, p: int, q: int)
    requires 0 <= p < q < |FirstSeen(s, clientId)|
    ensures exists j | 0 <= j < |s| ::
      && s[j].clientId == clientId && s[j].invoiceId == FirstSeen(s, clientId)[p]
      && Select(s[..j], clientId, FirstSeen(s, clientId)[q]) == []
  {
    var s', e := s[..|s| - 1], s[|s| - 1];
    assert s == s' + [e];
    FirstSeenAppendOne(s', e, clientId);
    var seen := FirstSeen(s', clientId);
    var idP, idQ := FirstSeen(s, clientId)[p], FirstSeen(s, clientId)[q];
    if q < |seen| {
      FirstSeenOrder(s', clientId, p, q);
    } else {
      // `q` is the id first seen at the last entry, so no earlier entry carries it
      FirstSeenMembership(s', clientId, idQ);
      FirstSeenMembership(s', clientId, idP);
      FirstBefore(s', clientId, idP, idQ);
    }
    var j :| 0 <= j < |s'| && s'[j].clientId == clientId && s'[j].invoiceId == idP
             && Select(s'[..j], clientId, idQ) == [];
    assert s[..j] == s'[..j];
  }

  /** When `s` has entries with id `idP` but none with `idQ`, the first of them is preceded by none with `idQ`. */
  lemma FirstBefore(s: seq<InvoiceEntry>, clientId: string, idP: string, idQ: string)
    requires Select(s, clientId, idP) != [] && Select(s, clientId, idQ) == []
    ensures exists j | 0 <= j < |s| ::
      s[j].clientId == clientId && s[j].invoiceId == idP && Select(s[..j], clientId, idQ) == []
  {
    var x := Select(s, clientId, idP)[0];
    SelectMembership(s, clientId, idP, x);
    var j :| 0 <= j < |s| && s[j] == x;
    assert s[..j] + s[j..] == s;
    SelectAppend(s[..j], s[j..], clientId, idQ);
  }

  // ---------------------------------------------------------------------------
  // The registry: `_allEntries` and `_clients`
  // ---------------------------------------------------------------------------

  /**
    Files one entry: the entry's client is created when its id is first seen
    (`new AssesedClient()`, whose id stays null), then handed the entry.
   */
  function Ingest(clients: map<string, ClientRecord>, entry: InvoiceEntry): map<string, ClientRecord> {
    var client := if entry.clientId in clients then clients[entry.clientId] else NEW_CLIENT;
    clients[entry.clientId := client.AddEntry(entry).0]
  }

  /** Files the entries of `s` one after the other. */
  function IngestAll(clients: map<string, ClientRecord>, s: seq<InvoiceEntry>): map<string, ClientRecord> {
    if s == [] then clients else Ingest(IngestAll(clients, s[..|s| - 1]), s[|s| - 1])
  }

  /**
    The registry after filing the entries of `all`: every entry has its client
    and invoice; each invoice of client `c` with id `i` holds exactly the
    entries of `all` with those ids, in the order of `all`, and has the date of
    the first of them; a client's invoice ids are ordered as first seen in
    `all`; nothing is empty; no client id is ever set, so clients and invoices
    carry a null client id.
   */
  ghost predicate Grouped(all: seq<InvoiceEntry>, clients: map<string, ClientRecord>) {
    && (forall e | e in all :: e.clientId in clients && e.invoiceId in clients[e.clientId].invoices)
    && (forall c | c in clients :: Filed(all, c, clients[c]))
  }

  ghost predicate Filed(all: seq<InvoiceEntry>, c: string, client: ClientRecord) {
    Holds(all, c, client) && client.invoices != map[]
  }

  /** `Filed` without the demand that the client has an invoice, so that it holds of a new client. */
  ghost predicate Holds(all: seq<InvoiceEntry>, c: string, client: ClientRecord) {
    && client.id == None
    && client.Valid()
    && client.invoiceOrder == FirstSeen(all, c)
    && forall i | i in client.invoices ::
         && client.invoices[i].entries == Select(all, c, i)
         && client.invoices[i].entries != []
         && client.invoices[i].clientId == None
         && client.invoices[i].date == client.invoices[i].entries[0].date
  }

  /** Entries of `all` for a client and invoice id that the registry lacks: there are none. */
  lemma SelectMissing(all: seq<InvoiceEntry>, clients: map<string, ClientRecord>, c: string, i: string)
    requires Grouped(all, clients)
    requires c !in clients || i !in clients[c].invoices
    ensures Select(all, c, i) == []
  {
    if Select(all, c, i) != [] {
      var x := Select(all, c, i)[0];
      SelectMembership(all, c, i, x);
    }
  }

  /** An entry of another client leaves this client's holdings as they were. */
  lemma HoldsOther(all: seq<InvoiceEntry>, c: string, client: ClientRecord, entry: InvoiceEntry)
    requires Holds(all, c, client) && entry.clientId != c
    ensures Holds(all + [entry], c, client)
  {
    FirstSeenAppendOne(all, entry, c);
    forall i | i in client.invoices ensures client.invoices[i].entries == Select(all + [entry], c, i) {
      SelectAppendOne(all, entry, c, i);
    }
  }

  /** Handing a new entry to its client files it without an exception and keeps the client's holdings exact. */
  lemma HoldsAdd(all: seq<InvoiceEntry>, client: ClientRecord, entry: InvoiceEntry)
    requires Holds(all, entry.clientId, client) && entry !in all
    requires entry.invoiceId !in client.invoices ==> Select(all, entry.clientId, entry.invoiceId) == []
    ensures client.AddEntry(entry).1 == Pass
    ensures Holds(all + [entry], entry.clientId, client.AddEntry(entry).0)
    ensures client.AddEntry(entry).0.invoices != map[]
  {
    if entry.invoiceId in client.invoices {
      HoldsAddExisting(all, client, entry);
    } else {
      HoldsAddNew(all, client, entry);
    }
  }

  lemma HoldsAddExisting(all: seq<InvoiceEntry>, client: ClientRecord, entry: InvoiceEntry)
    requires Holds(all, entry.clientId, client) && entry !in all
    requires entry.invoiceId in client.invoices
    ensures client.AddEntry(entry).1 == Pass
    ensures Holds(all + [entry], entry.clientId, client.AddEntry(entry).0)
    ensures client.AddEntry(entry).0.invoices != map[]
  {
    var c, i := entry.clientId, entry.invoiceId;
    var after := client.AddEntry(entry).0;
    AddEntrySpec(client, entry);
    SelectMembership(all, c, i, entry);
    AddEntryAppends(client.invoices[i], entry);
    FirstSeenMembership(all, c, i);
    FirstSeenAppendOne(all, entry, c);
    SelectAppendOne(all, entry, c, i);
    assert after.invoices[i].entries == Select(all + [entry], c, i);
    forall i' | i' in after.invoices && i' != i
      ensures after.invoices[i'].entries == Select(all + [entry], c, i')
    {
      SelectAppendOne(all, entry, c, i');
    }
  }

  lemma HoldsAddNew(all: seq<InvoiceEntry>, client: ClientRecord, entry: InvoiceEntry)
    requires Holds(all, entry.clientId, client)
    requires entry.invoiceId !in client.invoices && Select(all, entry.clientId, entry.invoiceId) == []
    ensures client.AddEntry(entry).1 == Pass
    ensures Holds(all + [entry], entry.clientId, client.AddEntry(entry).0)
    ensures client.AddEntry(entry).0.invoices != map[]
  {
    NewInvoiceAfter(client, entry);
    HoldsInsert(all, client.invoices, entry, client.AddEntry(entry).0.invoices);
    FirstSeenNew(all, entry, client.invoiceOrder);
    assert entry.invoiceId in client.AddEntry(entry).0.invoices;
  }

  /** The client after a first entry for a new invoice id, written out. */
  lemma NewInvoiceAfter(client: ClientRecord, entry: InvoiceEntry)
    requires client.Valid() && entry.invoiceId !in client.invoices
    ensures client.AddEntry(entry).1 == Pass
    ensures client.AddEntry(entry).0
         == client.(invoices := client.invoices[entry.invoiceId := InvoiceRecord(client.id, entry.date, entry.invoiceId, [entry])],
                    invoiceOrder := client.invoiceOrder + [entry.invoiceId])
    ensures client.AddEntry(entry).0.Valid()
  {
    AddEntrySpec(client, entry);
  }

  /** An entry with an invoice id not yet seen for its client puts that id at the end of the order. */
  lemma FirstSeenNew(all: seq<InvoiceEntry>, entry: InvoiceEntry, order: seq<string>)
    requires order == FirstSeen(all, entry.clientId)
    requires Select(all, entry.clientId, entry.invoiceId) == []
    ensures FirstSeen(all + [entry], entry.clientId) == order + [entry.invoiceId]
  {
    FirstSeenMembership(all, entry.clientId, entry.invoiceId);
    FirstSeenAppendOne(all, entry, entry.clientId);
  }

  /** The invoices of a client after a first entry with a new invoice id still hold exactly their selections. */
  lemma HoldsInsert(all: seq<InvoiceEntry>, invoices: map<string, InvoiceRecord>, entry: InvoiceEntry,
                    after: map<string, InvoiceRecord>)
    requires forall i | i in invoices ::
               && invoices[i].entries == Select(all, entry.clientId, i)
               && invoices[i].entries != []
               && invoices[i].clientId == None
               && invoices[i].date == invoices[i].entries[0].date
    requires Select(all, entry.clientId, entry.invoiceId) == []
    requires after == invoices[entry.invoiceId := InvoiceRecord(None, entry.date, entry.invoiceId, [entry])]
    ensures forall i | i in after ::
              && after[i].entries == Select(all + [entry], entry.clientId, i)
              && after[i].entries != []
              && after[i].clientId == None
              && after[i].date == after[i].entries[0].date
  {
    forall i | i in after ensures after[i].entries == Select(all + [entry], entry.clientId, i) {
      SelectAppendOne(all, entry, entry.clientId, i);
    }
  }

  /**
    Filing a new entry keeps the registry grouped, and the invoice never
    throws: the entry is in no invoice yet.
   */
  lemma IngestKeepsGrouped(all: seq<InvoiceEntry>, clients: map<string, ClientRecord>, entry: InvoiceEntry)
    requires Grouped(all, clients) && entry !in all
    ensures (if entry.clientId in clients then clients[entry.clientId] else NEW_CLIENT).AddEntry(entry).1 == Pass
    ensures Grouped(all + [entry], Ingest(clients, entry))
  {
    var c, i := entry.clientId, entry.invoiceId;
    var client := if c in clients then clients[c] else NEW_CLIENT;
    if i !in client.invoices {
      SelectMissing(all, clients, c, i);
    }
    if c !in clients {
      FirstSeenNone(all, c);
    }
    HoldsAdd(all, client, entry);
    AddEntrySpec(client, entry);
    GroupedUpdate(all, clients, entry, client.AddEntry(entry).0);
  }

  /** Replacing the entry's client by one that files it keeps every other client's holdings exact. */
  lemma GroupedUpdate(all: seq<InvoiceEntry>, clients: map<string, ClientRecord>, entry: InvoiceEntry, after: ClientRecord)
    requires Grouped(all, clients)
    requires Filed(all + [entry], entry.clientId, after)
    requires entry.invoiceId in after.invoices
    requires entry.clientId in clients ==> clients[entry.clientId].invoices.Keys <= after.invoices.Keys
    ensures Grouped(all + [entry], clients[entry.clientId := after])
  {
    var result := clients[entry.clientId := after];
    forall e | e in all + [entry] ensures e.clientId in result && e.invoiceId in result[e.clientId].invoices {
      if e != entry {
        assert e in all;
      }
    }
    forall c | c in result ensures Filed(all + [entry], c, result[c]) {
      if c != entry.clientId {
        HoldsOther(all, c, clients[c], entry);
      }
    }
  }

  lemma {:induction false} IngestAllKeepsGrouped(all: seq<InvoiceEntry>, clients: map<string, ClientRecord>, s: seq<InvoiceEntry>)
    requires Grouped(all, clients) && Unique(all + s)
    ensures Grouped(all + s, IngestAll(clients, s))
  {
    if s == [] {
      assert all + s == all;
    } else {
      var s', e := s[..|s| - 1], s[|s| - 1];
      assert all + s == (all + s') + [e];
      assert e !in all + s' && Unique(all + s');
      IngestAllKeepsGrouped(all, clients, s');
      IngestKeepsGrouped(all + s', IngestAll(clients, s'), e);
    }
  }

  /**
    A client exists exactly when some entry carries its id, and an invoice
    exactly when some entry carries both its ids.
   */
  lemma GroupedKeys(all: seq<InvoiceEntry>, clients: map<string, ClientRecord>, c: string, i: string)
    requires Grouped(all, clients)
    ensures c in clients <==> exists e | e in all :: e.clientId == c
    ensures c in clients && i in clients[c].invoices <==> exists e | e in all :: e.clientId == c && e.invoiceId == i
  {
    if c in clients {
      var i0 :| i0 in clients[c].invoices;
      var x := clients[c].invoices[i0].entries[0];
      SelectMembership(all, c, i0, x);
      if i in clients[c].invoices {
        var y := clients[c].invoices[i].entries[0];
        SelectMembership(all, c, i, y);
      }
    }
  }

  /**
    With no entry listed twice, entry `j` appears exactly once in its own
    invoice and in no other invoice of any client.
   */
  lemma FiledOnce(all: seq<InvoiceEntry>, clients: map<string, ClientRecord>, j: int)
    requires Grouped(all, clients) && Unique(all) && 0 <= j < |all|
    ensures var e := all[j];
      && e.clientId in clients && e.invoiceId in clients[e.clientId].invoices
      && multiset(clients[e.clientId].invoices[e.invoiceId].entries)[e] == 1
      && forall c, i | c in clients && i in clients[c].invoices && (c, i) != (e.clientId, e.invoiceId) ::
           e !in clients[c].invoices[i].entries
  {
    var e := all[j];
    assert e in all;
    SelectedOnce(all, j);
    forall c, i | c in clients && i in clients[c].invoices && (c, i) != (e.clientId, e.invoiceId)
      ensures e !in clients[c].invoices[i].entries
    {
      SelectMembership(all, c, i, e);
    }
  }

  /** How many entries of `all[j]`'s invoice come before position `j`. */
  function Rank(all: seq<InvoiceEntry>, j: int): nat
    requires 0 <= j < |all|
  {
    |Select(all[..j], all[j].clientId, all[j].invoiceId)|
  }

  /**
    Entries of one invoice keep the order of ingestion: when `j < k` carry the
    same ids, entry `j` sits before entry `k` in the invoice.
   */
  lemma FiledInOrder(all: seq<InvoiceEntry>, clients: map<string, ClientRecord>, j: int, k: int)
    requires Grouped(all, clients) && 0 <= j < k < |all|
    requires all[j].clientId == all[k].clientId && all[j].invoiceId == all[k].invoiceId
    ensures var entries := clients[all[j].clientId].invoices[all[j].invoiceId].entries;
      && Rank(all, j) < Rank(all, k) < |entries|
      && entries[Rank(all, j)] == all[j] && entries[Rank(all, k)] == all[k]
  {
    assert all[j] in all;
    SelectPosition(all, j);
    SelectPosition(all, k);
    RankOrder(all, j, k);
  }

  /** A later entry of the same invoice has a larger rank. */
  lemma RankOrder(all: seq<InvoiceEntry>, j: int, k: int)
    requires 0 <= j < k < |all|
    requires all[j].clientId == all[k].clientId && all[j].invoiceId == all[k].invoiceId
    ensures Rank(all, j) < Rank(all, k)
  {
    var c, i := all[j].clientId, all[j].invoiceId;
    assert all[..k] == (all[..j] + [all[j]]) + all[j + 1..k];
    SelectAppend(all[..j] + [all[j]], all[j + 1..k], c, i);
    SelectAppendOne(all[..j], all[j], c, i);
  }

  lemma WorkbookRowsStep(sheets: seq<InputSheet>, settings: map<string, WorksheetColumns>, n: int)
    requires 0 <= n < |sheets|
    ensures WorkbookRows(sheets[..n + 1], settings) == WorkbookRows(sheets[..n], settings) + SheetRows(sheets[n], settings)
  {
    assert sheets[..n + 1][..n] == sheets[..n];
  }

  lemma DataOfAppendOne(s: seq<InvoiceEntry>, e: InvoiceEntry)
    ensures DataOf(s + [e]) == DataOf(s) + [e.Data()]
  {
    assert (s + [e])[..|s|] == s;
  }

  lemma IngestAllAppendOne(clients: map<string, ClientRecord>, s: seq<InvoiceEntry>, e: InvoiceEntry)
    ensures IngestAll(clients, s + [e]) == Ingest(IngestAll(clients, s), e)
  {
    assert (s + [e])[..|s|] == s;
  }

  /** Filing two runs of entries one after the other is filing them together. */
  lemma {:induction false} IngestAllAppend(clients: map<string, ClientRecord>, a: seq<InvoiceEntry>, b: seq<InvoiceEntry>)
    ensures IngestAll(clients, a + b) == IngestAll(IngestAll(clients, a), b)
  {
    if b == [] {
      assert a + b == a;
    } else {
      var b', e := b[..|b| - 1], b[|b| - 1];
      assert b == b' + [e];
      AppendAssoc(a, b', [e]);
      IngestAllAppend(clients, a, b');
      IngestAllAppendOne(clients, a + b', e);
      IngestAllAppendOne(IngestAll(clients, a), b', e);
    }
  }

  lemma {:induction false} DataOfAppend(a: seq<InvoiceEntry>, b: seq<InvoiceEntry>)
    ensures DataOf(a + b) == DataOf(a) + DataOf(b)
  {
    if b == [] {
      assert a + b == a;
    } else {
      var b', e := b[..|b| - 1], b[|b| - 1];
      assert a + b == (a + b') + [e];
      DataOfAppend(a, b');
      DataOfAppendOne(a + b', e);
      DataOfAppendOne(b', e);
      assert b == b' + [e];
    }
  }

  lemma UniqueAppendOne<T>(s: seq<T>, x: T)
    requires Unique(s) && x !in s
    ensures Unique(s + [x])
  {
    assert (s + [x])[..|s|] == s;
  }

  lemma AppendAssoc<T>(a: seq<T>, b: seq<T>, c: seq<T>)
    ensures a + (b + c) == (a + b) + c
  {
  }

  lemma UpdateTwice<K, V>(m: map<K, V>, k: K, v: V, w: V)
    ensures m[k := v][k := w] == m[k := w]
  {
  }

  /** Reading one more row moves it from the rows still to read to the rows read. */
  lemma RowsStep(read: seq<EntryData>, sheet: InputSheet, cols: WorksheetColumns, row: int)
    requires HasData(sheet, row)
    ensures read + RowsFrom(sheet, cols, row) == (read + [ReadRow(sheet, cols, row)]) + RowsFrom(sheet, cols, row + 1)
  {
  }

  /** Loading one more sheet extends what has been loaded by that sheet's entries. */
  lemma SheetStep(start: seq<InvoiceEntry>, startClients: map<string, ClientRecord>, added: seq<InvoiceEntry>,
                  after: seq<InvoiceEntry>, before: seq<InvoiceEntry>,
                  afterClients: map<string, ClientRecord>, beforeClients: map<string, ClientRecord>)
    requires before == start + added && beforeClients == IngestAll(startClients, added)
    requires |before| <= |after| && after[..|before|] == before
    requires afterClients == IngestAll(beforeClients, after[|before|..])
    ensures after == start + (added + after[|before|..])
    ensures DataOf(added + after[|before|..]) == DataOf(added) + DataOf(after[|before|..])
    ensures afterClients == IngestAll(startClients, added + after[|before|..])
  {
    var part := after[|before|..];
    assert after == before + part;
    AppendAssoc(start, added, part);
    DataOfAppend(added, part);
    IngestAllAppend(startClients, added, part);
  }

  /** `_allEntries` and `_clients`: the program-wide list of entries and the client registry. */
  class Registry {
    var allEntries: seq<InvoiceEntry>
    var clients: map<string, ClientRecord>

    ghost predicate Valid()
      reads this
    {
      Grouped(allEntries, clients) && Unique(allEntries)
    }

    constructor ()
      ensures Valid() && allEntries == [] && clients == map[]
    {
      allEntries := [];
      clients := map[];
    }

    /**
      Reads every worksheet the settings map, row by row from its first data
      row to the first row past the row count or with an empty column A. Each
      row becomes a new entry, appended to `allEntries` and filed under its
      client, created on first sight. Returns `allEntries`.
     */
    method LoadRawData(workbook: seq<InputSheet>, settings: map<string, WorksheetColumns>) returns (loaded: seq<InvoiceEntry>)
      requires Valid()
      modifies this
      ensures Valid()
      ensures loaded == allEntries
      ensures |old(allEntries)| <= |allEntries| && allEntries[..|old(allEntries)|] == old(allEntries)
      ensures DataOf(allEntries[|old(allEntries)|..]) == WorkbookRows(workbook, settings)
      ensures clients == IngestAll(old(clients), allEntries[|old(allEntries)|..])
    {
      ghost var added: seq<InvoiceEntry> := [];
      for n := 0 to |workbook|
        invariant Valid()
        invariant allEntries == old(allEntries) + added
        invariant DataOf(added) == WorkbookRows(workbook[..n], settings)
        invariant clients == IngestAll(old(clients), added)
      {
        WorkbookRowsStep(workbook, settings, n);
        var sheet := workbook[n];
        if sheet.name !in settings {
          assert SheetRows(sheet, settings) == [];
          continue;
        }
        ghost var before, filed := allEntries, clients;
        LoadSheet(sheet, settings[sheet.name]);
        SheetStep(old(allEntries), old(clients), added, allEntries, before, clients, filed);
        added := added + allEntries[|before|..];
      }
      assert workbook[..|workbook|] == workbook;
      assert allEntries[|old(allEntries)|..] == added;
      loaded := allEntries;
    }

    /** The row loop of `LoadRawData` over one mapped worksheet. */
    method LoadSheet(sheet: InputSheet, cols: WorksheetColumns)
      requires Valid()
      modifies this
      ensures Valid()
      ensures |old(allEntries)| <= |allEntries| && allEntries[..|old(allEntries)|] == old(allEntries)
      ensures DataOf(allEntries[|old(allEntries)|..]) == RowsFrom(sheet, cols, cols.firstRow)
      ensures clients == IngestAll(old(clients), allEntries[|old(allEntries)|..])
    {
      ghost var added: seq<InvoiceEntry> := [];
      var rowCount := sheet.rowCount;
      var currentRow := cols.firstRow;
      while currentRow <= rowCount && sheet.text(currentRow, "A") != ""
        invariant Valid()
        invariant allEntries == old(allEntries) + added
        invariant DataOf(added) + RowsFrom(sheet, cols, currentRow) == RowsFrom(sheet, cols, cols.firstRow)
        invariant clients == IngestAll(old(clients), added)
        decreases rowCount + 1 - currentRow
      {
        var entry := new InvoiceEntry(
          sheet.text(currentRow, cols.date),
          sheet.text(currentRow, cols.invoiceId),
          sheet.text(currentRow, cols.clientId),
          sheet.number(currentRow, cols.amount),
          sheet.number(currentRow, cols.assessed));
        assert entry.Data() == ReadRow(sheet, cols, currentRow);
        RowsStep(DataOf(added), sheet, cols, currentRow);
        DataOfAppendOne(added, entry);
        IngestAllAppendOne(old(clients), added, entry);
        AppendAssoc(old(allEntries), added, [entry]);

        FileEntry(entry);

        added := added + [entry];
        currentRow := currentRow + 1;
      }
      assert allEntries[|old(allEntries)|..] == added;
    }

    /**
      The body of the row loop after the entry is built: append it to
      `allEntries`, create its client on first sight, and hand it the entry.
      The entry is new, so the invoice never throws.
     */
    method FileEntry(entry: InvoiceEntry)
      requires Valid() && entry !in allEntries
      modifies this
      ensures Valid()
      ensures allEntries == old(allEntries) + [entry]
      ensures clients == Ingest(old(clients), entry)
    {
      allEntries := allEntries + [entry];

      if entry.clientId !in clients {
        clients := clients[entry.clientId := NEW_CLIENT];
      }
      var (client, outcome) := clients[entry.clientId].AddEntry(entry);
      clients := clients[entry.clientId := client];

      IngestKeepsGrouped(old(allEntries), old(clients), entry);
      UniqueAppendOne(old(allEntries), entry);
      UpdateTwice(old(clients), entry.clientId, NEW_CLIENT, client);
      assert outcome == Pass;
    }
  }
}
