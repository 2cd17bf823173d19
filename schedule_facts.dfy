/**
  What "Schedule 2" holds once `CreateSchedule2` has run, and what the column
  style cache behind `SetCellValue` promises. Everything here is stated over
  `ApplySteps` and `Schedule2Steps`, which the methods in `Schedules` are
  proved to perform.
 */
module ScheduleFacts {
  import opened Entries
  import opened Invoices
  import opened Clients
  import opened Schedules
  import Ingestion

  /** The four columns of an invoice row: date, invoice id, amount, assessed amount. */
  predicate IsInvoiceColumn(column: string) {
    column == "B" || column == "C" || column == "E" || column == "H"
  }

  /** The three columns of the grand-total row: label, amount, assessed amount. */
  predicate IsTotalColumn(column: string) {
    column == "C" || column == "E" || column == "H"
  }

  /** `cell` lies in one of `count` invoice rows starting at `row`. */
  predicate InRows(cell: Cell, row: int, count: int) {
    row <= cell.row < row + count && IsInvoiceColumn(cell.column)
  }

  /** Row `row` of `values` shows `invoice`: its date, its id and its two totals. */
  predicate RowShows(values: map<Cell, CellValue>, row: int, invoice: InvoiceRecord) {
    var total := Total(invoice.entries);
    && Cell(row, "B") in values && values[Cell(row, "B")] == Text(invoice.date)
    && Cell(row, "C") in values && values[Cell(row, "C")] == Text(invoice.invoiceId)
    && Cell(row, "E") in values && values[Cell(row, "E")] == Number(total.amount)
    && Cell(row, "H") in values && values[Cell(row, "H")] == Number(total.assesed)
  }

  /** Row `row` of `values` is the "Grand Total" row for `total`. */
  predicate TotalShows(values: map<Cell, CellValue>, row: int, total: AmountTotal) {
    && Cell(row, "C") in values && values[Cell(row, "C")] == Text(GRAND_TOTAL)
    && Cell(row, "E") in values && values[Cell(row, "E")] == Number(total.amount)
    && Cell(row, "H") in values && values[Cell(row, "H")] == Number(total.assesed)
  }

  /** What Schedule 2 shows in column `column` of an invoice's row. */
  function RowValue(invoice: InvoiceRecord, column: string): CellValue {
    var total := Total(invoice.entries);
    if column == "B" then Text(invoice.date)
    else if column == "C" then Text(invoice.invoiceId)
    else if column == "E" then Number(total.amount)
    else Number(total.assesed)
  }

  /** What Schedule 2 shows in column `column` of the "Grand Total" row. */
  function TotalValue(total: AmountTotal, column: string): CellValue {
    if column == "C" then Text(GRAND_TOTAL)
    else if column == "E" then Number(total.amount)
    else Number(total.assesed)
  }

  /**
    The layout of Schedule 2, cell by cell: invoice `i` in row 8 + i, one blank
    row, then the "Grand Total" row with the sums over all invoices; `None` for
    every cell Schedule 2 does not write.
   */
  function Schedule2Value(invoices: seq<InvoiceRecord>, cell: Cell): Option<CellValue> {
    var totalRow := FIRST_ROW + |invoices| + 1;
    if InRows(cell, FIRST_ROW, |invoices|) then Some(RowValue(invoices[cell.row - FIRST_ROW], cell.column))
    else if cell.row == totalRow && IsTotalColumn(cell.column) then Some(TotalValue(GrandTotal(invoices), cell.column))
    else None
  }

  // ---------------------------------------------------------------------------
  // What a run of steps writes
  // ---------------------------------------------------------------------------

  /** The value the last write to `cell` in `steps` puts there, if any. */
  function LastWrite(steps: seq<Step>, cell: Cell): Option<CellValue>
    decreases steps
  {
    if steps == [] then None
    else
      var later := LastWrite(steps[1..], cell);
      if later.Some? then later
      else if steps[0].Set? && steps[0].cell == cell then Some(steps[0].value)
      else None
  }

  /** Some step of `steps` gives `cell` the date type. */
  predicate MarksDate(steps: seq<Step>, cell: Cell)
    decreases steps
  {
    steps != [] && ((steps[0].MarkDate? && steps[0].cell == cell) || MarksDate(steps[1..], cell))
  }

  /** The columns a run of steps writes a value into. */
  function Columns(steps: seq<Step>): set<string>
    decreases steps
  {
    if steps == [] then {}
    else (if steps[0].Set? then {steps[0].cell.column} else {}) + Columns(steps[1..])
  }

  /**
    Values and date types only ever accumulate: after a run of steps a cell
    holds the last value written to it, or else what it held before, and it is
    a date cell if it was one or some step made it one.
   */
  lemma {:induction false} ValueAfter(page: Page, template: Cell -> Style, steps: seq<Step>, cell: Cell)
    ensures var after := ApplySteps(page, template, steps);
      && (cell in after.values <==> cell in page.values || LastWrite(steps, cell).Some?)
      && (cell in after.values ==>
            after.values[cell] == if LastWrite(steps, cell).Some? then LastWrite(steps, cell).value else page.values[cell])
      && (cell in after.dates <==> cell in page.dates || MarksDate(steps, cell))
    decreases steps
  {
    if steps != [] {
      ValueAfter(ApplyStep(page, template, steps[0]), template, steps[1..], cell);
    }
  }

  lemma {:induction false} LastWriteAppend(a: seq<Step>, b: seq<Step>, cell: Cell)
    ensures LastWrite(a + b, cell) == if LastWrite(b, cell).Some? then LastWrite(b, cell) else LastWrite(a, cell)
    ensures MarksDate(a + b, cell) <==> MarksDate(a, cell) || MarksDate(b, cell)
    decreases a
  {
    if a == [] {
      assert a + b == b;
    } else {
      assert (a + b)[0] == a[0] && (a + b)[1..] == a[1..] + b;
      LastWriteAppend(a[1..], b, cell);
    }
  }

  lemma {:induction false} ColumnsAppend(a: seq<Step>, b: seq<Step>)
    ensures Columns(a + b) == Columns(a) + Columns(b)
    decreases a
  {
    if a == [] {
      assert a + b == b;
    } else {
      assert (a + b)[0] == a[0] && (a + b)[1..] == a[1..] + b;
      ColumnsAppend(a[1..], b);
    }
  }

  lemma OneStep(step: Step, cell: Cell)
    ensures LastWrite([step], cell) == if step.Set? && step.cell == cell then Some(step.value) else None
    ensures MarksDate([step], cell) <==> step.MarkDate? && step.cell == cell
    ensures Columns([step]) == if step.Set? then {step.cell.column} else {}
  {
    assert [step][1..] == [];
  }

  /** A run of five steps, taken one step at a time. */
  lemma FiveApart(s: seq<Step>, cell: Cell)
    requires |s| == 5
    ensures LastWrite(s, cell)
         == LastWrite([s[0]] + [s[1]] + [s[2]] + [s[3]] + [s[4]], cell)
    ensures MarksDate(s, cell) <==> MarksDate([s[0]] + [s[1]] + [s[2]] + [s[3]] + [s[4]], cell)
    ensures Columns(s) == Columns([s[0]] + [s[1]] + [s[2]] + [s[3]] + [s[4]])
  {
    assert s == [s[0]] + [s[1]] + [s[2]] + [s[3]] + [s[4]];
  }

  /** The writes of five steps, from those of each step. */
  lemma FiveWrites(s: seq<Step>, cell: Cell)
    requires |s| == 5
    ensures var w := LastWrite(s, cell);
      w == if LastWrite([s[4]], cell).Some? then LastWrite([s[4]], cell)
           else if LastWrite([s[3]], cell).Some? then LastWrite([s[3]], cell)
           else if LastWrite([s[2]], cell).Some? then LastWrite([s[2]], cell)
           else if LastWrite([s[1]], cell).Some? then LastWrite([s[1]], cell)
           else LastWrite([s[0]], cell)
    ensures MarksDate(s, cell) <==>
      MarksDate([s[0]], cell) || MarksDate([s[1]], cell) || MarksDate([s[2]], cell) || MarksDate([s[3]], cell) || MarksDate([s[4]], cell)
    ensures Columns(s) == Columns([s[0]]) + Columns([s[1]]) + Columns([s[2]]) + Columns([s[3]]) + Columns([s[4]])
  {
    FiveApart(s, cell);
    LastWriteAppend([s[0]], [s[1]], cell);
    LastWriteAppend([s[0]] + [s[1]], [s[2]], cell);
    LastWriteAppend([s[0]] + [s[1]] + [s[2]], [s[3]], cell);
    LastWriteAppend([s[0]] + [s[1]] + [s[2]] + [s[3]], [s[4]], cell);
    ColumnsAppend([s[0]], [s[1]]);
    ColumnsAppend([s[0]] + [s[1]], [s[2]]);
    ColumnsAppend([s[0]] + [s[1]] + [s[2]], [s[3]]);
    ColumnsAppend([s[0]] + [s[1]] + [s[2]] + [s[3]], [s[4]]);
  }

  /** One invoice row writes exactly its four cells, and types the date cell as a date. */
  lemma InvoiceWrites(invoice: InvoiceRecord, row: int, cell: Cell)
    ensures LastWrite(InvoiceSteps(invoice, row), cell)
         == if cell.row == row && IsInvoiceColumn(cell.column) then Some(RowValue(invoice, cell.column)) else None
    ensures MarksDate(InvoiceSteps(invoice, row), cell) <==> cell == Cell(row, "B")
    ensures Columns(InvoiceSteps(invoice, row)) == {"B", "C", "E", "H"}
  {
    var s := InvoiceSteps(invoice, row);
    FiveWrites(s, cell);
    OneStep(s[0], cell);
    OneStep(s[1], cell);
    OneStep(s[2], cell);
    OneStep(s[3], cell);
    OneStep(s[4], cell);
  }

  /** The grand-total row writes exactly its three cells and types nothing as a date. */
  lemma TotalWrites(row: int, total: AmountTotal, cell: Cell)
    ensures LastWrite(TotalSteps(row, total), cell)
         == if cell.row == row && IsTotalColumn(cell.column) then Some(TotalValue(total, cell.column)) else None
    ensures !MarksDate(TotalSteps(row, total), cell)
    ensures Columns(TotalSteps(row, total)) == {"C", "E", "H"}
  {
    var s := TotalSteps(row, total);
    FiveWrites(s, cell);
    OneStep(s[0], cell);
    OneStep(s[1], cell);
    OneStep(s[2], cell);
    OneStep(s[3], cell);
    OneStep(s[4], cell);
  }

  /** The invoice rows: invoice `i` lands in row `row + i`, and nothing outside those rows is written. */
  lemma {:induction false} RowsWrites(invoices: seq<InvoiceRecord>, row: int, cell: Cell)
    ensures LastWrite(RowsSteps(invoices, row), cell)
         == if InRows(cell, row, |invoices|) then Some(RowValue(invoices[cell.row - row], cell.column)) else None
    ensures MarksDate(RowsSteps(invoices, row), cell) <==> cell.column == "B" && row <= cell.row < row + |invoices|
    ensures Columns(RowsSteps(invoices, row)) == if invoices == [] then {} else {"B", "C", "E", "H"}
    decreases invoices
  {
    if invoices != [] {
      var rest := invoices[1..];
      RowsWrites(rest, row + 1, cell);
      InvoiceWrites(invoices[0], row, cell);
      LastWriteAppend(InvoiceSteps(invoices[0], row), RowsSteps(rest, row + 1), cell);
      ColumnsAppend(InvoiceSteps(invoices[0], row), RowsSteps(rest, row + 1));
      if InRows(cell, row + 1, |rest|) {
        assert invoices[cell.row - row] == rest[cell.row - (row + 1)];
      }
    }
  }

  /**
    Schedule 2's values, cell by cell: a cell Schedule 2 writes ends up holding
    exactly what its layout prescribes (date, invoice id and the two totals of
    invoice `i` in row 8 + i; the label and the sums over all invoices in row
    9 + n), and every other cell, the blank row between them included, keeps
    what it held. Exactly the date cells of the invoice rows gain the date type.
   */
  lemma Schedule2Layout(page: Page, template: Cell -> Style, invoices: seq<InvoiceRecord>, cell: Cell)
    ensures var after := ApplySteps(page, template, Schedule2Steps(invoices));
      var expected := Schedule2Value(invoices, cell);
      && (cell in after.values <==> cell in page.values || expected.Some?)
      && (cell in after.values ==> after.values[cell] == if expected.Some? then expected.value else page.values[cell])
      && (cell in after.dates <==> cell in page.dates || (InRows(cell, FIRST_ROW, |invoices|) && cell.column == "B"))
  {
    var rows := RowsSteps(invoices, FIRST_ROW);
    var totals := TotalSteps(FIRST_ROW + |invoices| + 1, GrandTotal(invoices));
    ValueAfter(page, template, Schedule2Steps(invoices), cell);
    LastWriteAppend(rows, totals, cell);
    RowsWrites(invoices, FIRST_ROW, cell);
    TotalWrites(FIRST_ROW + |invoices| + 1, GrandTotal(invoices), cell);
  }

  /** The same layout row by row: invoice `i` in row 8 + i, and the "Grand Total" row at 9 + n. */
  lemma Schedule2Rows(page: Page, template: Cell -> Style, invoices: seq<InvoiceRecord>)
    ensures var after := ApplySteps(page, template, Schedule2Steps(invoices));
      && (forall i | 0 <= i < |invoices| :: RowShows(after.values, FIRST_ROW + i, invoices[i]))
      && TotalShows(after.values, FIRST_ROW + |invoices| + 1, GrandTotal(invoices))
  {
    var after := ApplySteps(page, template, Schedule2Steps(invoices));
    forall i | 0 <= i < |invoices|
      ensures RowShows(after.values, FIRST_ROW + i, invoices[i])
    {
      Schedule2Layout(page, template, invoices, Cell(FIRST_ROW + i, "B"));
      Schedule2Layout(page, template, invoices, Cell(FIRST_ROW + i, "C"));
      Schedule2Layout(page, template, invoices, Cell(FIRST_ROW + i, "E"));
      Schedule2Layout(page, template, invoices, Cell(FIRST_ROW + i, "H"));
    }
    var totalRow := FIRST_ROW + |invoices| + 1;
    Schedule2Layout(page, template, invoices, Cell(totalRow, "C"));
    Schedule2Layout(page, template, invoices, Cell(totalRow, "E"));
    Schedule2Layout(page, template, invoices, Cell(totalRow, "H"));
  }

  // ---------------------------------------------------------------------------
  // The grand total
  // ---------------------------------------------------------------------------

  /** All entries of the given invoices, invoice by invoice. */
  function AllEntries(invoices: seq<InvoiceRecord>): seq<InvoiceEntry> {
    if invoices == [] then []
    else AllEntries(invoices[..|invoices| - 1]) + invoices[|invoices| - 1].entries
  }

  /** The running client total is the total over every entry of every invoice. */
  lemma {:induction false} GrandTotalIsTotal(invoices: seq<InvoiceRecord>)
    ensures GrandTotal(invoices) == Total(AllEntries(invoices))
  {
    if invoices != [] {
      var init := invoices[..|invoices| - 1];
      GrandTotalIsTotal(init);
      TotalAppend(AllEntries(init), invoices[|invoices| - 1].entries);
    }
  }

  // ---------------------------------------------------------------------------
  // The column style cache
  // ---------------------------------------------------------------------------

  /**
    One `SetCellValue`: afterwards the cache holds the cell's column, every
    entry it held before is unchanged, a column seen for the first time caches
    the cell's style as it was, and the cell gets the cached style and the value.
    No other cell changes.
   */
  lemma SetCellValueEffect(page: Page, template: Cell -> Style, cell: Cell, value: CellValue)
    ensures var after := ApplyStep(page, template, Set(cell, value));
      && after.cache.Keys == page.cache.Keys + {cell.column}
      && (forall c | c in page.cache :: after.cache[c] == page.cache[c])
      && (cell.column !in page.cache ==> after.cache[cell.column] == StyleOf(page, template, cell))
      && StyleOf(after, template, cell) == after.cache[cell.column]
      && after.values == page.values[cell := value]
      && (forall other | other != cell :: StyleOf(after, template, other) == StyleOf(page, template, other))
      && after.dates == page.dates
  {
  }

  /** Over any run of writes the cache only grows: each written column is added once, and no entry is ever replaced. */
  lemma {:induction false} CacheAfter(page: Page, template: Cell -> Style, steps: seq<Step>)
    ensures ApplySteps(page, template, steps).cache.Keys == page.cache.Keys + Columns(steps)
    ensures forall c | c in page.cache :: ApplySteps(page, template, steps).cache[c] == page.cache[c]
    decreases steps
  {
    if steps != [] {
      var next := ApplyStep(page, template, steps[0]);
      CacheAfter(next, template, steps[1..]);
    }
  }

  /** No step of `steps` addresses `cell`. */
  predicate Avoids(steps: seq<Step>, cell: Cell) {
    forall k | 0 <= k < |steps| :: steps[k].cell != cell
  }

  /** A cell no step addresses keeps its style. */
  lemma {:induction false} StyleUntouched(page: Page, template: Cell -> Style, steps: seq<Step>, cell: Cell)
    requires Avoids(steps, cell)
    ensures StyleOf(ApplySteps(page, template, steps), template, cell) == StyleOf(page, template, cell)
    decreases steps
  {
    if steps != [] {
      var next := ApplyStep(page, template, steps[0]);
      assert StyleOf(next, template, cell) == StyleOf(page, template, cell);
      assert Avoids(steps[1..], cell) by {
        forall k | 0 <= k < |steps| - 1
          ensures steps[1..][k].cell != cell
        {
          assert steps[1..][k] == steps[k + 1];
        }
      }
      StyleUntouched(next, template, steps[1..], cell);
    }
  }

  /** The invoice rows from `row` on address only cells in those rows. */
  lemma {:induction false} RowsAddress(invoices: seq<InvoiceRecord>, row: int)
    ensures forall k | 0 <= k < |RowsSteps(invoices, row)| ::
      row <= RowsSteps(invoices, row)[k].cell.row < row + |invoices|
    decreases invoices
  {
    if invoices != [] {
      RowsAddress(invoices[1..], row + 1);
      var first: seq<Step> := InvoiceSteps(invoices[0], row);
      var rest: seq<Step> := RowsSteps(invoices[1..], row + 1);
      assert RowsSteps(invoices, row) == first + rest;
      forall k | 0 <= k < |first + rest|
        ensures row <= (first + rest)[k].cell.row < row + |invoices|
      {
        if k >= |first| {
          assert (first + rest)[k] == rest[k - |first|];
        }
      }
    }
  }

  /** `cell` wears the style cached for its column. */
  predicate WearsCache(page: Page, template: Cell -> Style, cell: Cell) {
    cell.column in page.cache && StyleOf(page, template, cell) == page.cache[cell.column]
  }

  /** Going from `before` to `after`, `cell`'s column got cached, with `cell`'s style if it was not cached yet. */
  predicate Captured(before: Page, after: Page, template: Cell -> Style, cell: Cell) {
    cell.column in after.cache
    && (cell.column !in before.cache ==> after.cache[cell.column] == StyleOf(before, template, cell))
  }

  /** After one invoice row, each of its cells has the style cached for its column; the four columns were captured from that row if new. */
  lemma InvoiceRowStyles(page: Page, template: Cell -> Style, invoice: InvoiceRecord, row: int)
    ensures var after := ApplySteps(page, template, InvoiceSteps(invoice, row));
      && WearsCache(after, template, Cell(row, "B")) && WearsCache(after, template, Cell(row, "C"))
      && WearsCache(after, template, Cell(row, "E")) && WearsCache(after, template, Cell(row, "H"))
      && Captured(page, after, template, Cell(row, "B")) && Captured(page, after, template, Cell(row, "C"))
      && Captured(page, after, template, Cell(row, "E")) && Captured(page, after, template, Cell(row, "H"))
  {
    var total := Total(invoice.entries);
    InvoiceStepsApply(page, template, invoice, row);
    var p1 := ApplyStep(page, template, Set(Cell(row, "B"), Text(invoice.date)));
    var p2 := ApplyStep(p1, template, MarkDate(Cell(row, "B")));
    var p3 := ApplyStep(p2, template, Set(Cell(row, "C"), Text(invoice.invoiceId)));
    var p4 := ApplyStep(p3, template, Set(Cell(row, "E"), Number(total.amount)));
    SetCellValueEffect(page, template, Cell(row, "B"), Text(invoice.date));
    SetCellValueEffect(p2, template, Cell(row, "C"), Text(invoice.invoiceId));
    SetCellValueEffect(p3, template, Cell(row, "E"), Number(total.amount));
    SetCellValueEffect(p4, template, Cell(row, "H"), Number(total.assesed));
  }

  /** After the grand-total row, its label has the cached "C" style and both sums have the cached style made bold. */
  lemma TotalRowStyles(page: Page, template: Cell -> Style, row: int, total: AmountTotal)
    ensures var after := ApplySteps(page, template, TotalSteps(row, total));
      && (forall c | IsTotalColumn(c) :: c in after.cache)
      && StyleOf(after, template, Cell(row, "C")) == after.cache["C"]
      && StyleOf(after, template, Cell(row, "E")) == after.cache["E"].(bold := true)
      && StyleOf(after, template, Cell(row, "H")) == after.cache["H"].(bold := true)
      && (forall c | IsTotalColumn(c) && c !in page.cache :: after.cache[c] == StyleOf(page, template, Cell(row, c)))
  {
    TotalStepsApply(page, template, row, total);
    var p1 := ApplyStep(page, template, Set(Cell(row, "C"), Text(GRAND_TOTAL)));
    var p2 := ApplyStep(p1, template, Set(Cell(row, "E"), Number(total.amount)));
    var p3 := ApplyStep(p2, template, MarkBold(Cell(row, "E")));
    var p4 := ApplyStep(p3, template, Set(Cell(row, "H"), Number(total.assesed)));
    assert StyleOf(p1, template, Cell(row, "E")) == StyleOf(page, template, Cell(row, "E"));
    assert StyleOf(p3, template, Cell(row, "H")) == StyleOf(page, template, Cell(row, "H"));
  }

  lemma SeqRegroup<T>(a: seq<T>, b: seq<T>, c: seq<T>, d: seq<T>)
    ensures (a + (b + c)) + d == a + b + (c + d)
  {
  }

  /** The invoice rows from invoice `i` on: its own row, then the rest. */
  lemma RowsStepsFrom(invoices: seq<InvoiceRecord>, i: int)
    requires 0 <= i < |invoices|
    ensures RowsSteps(invoices[i..], FIRST_ROW + i)
         == InvoiceSteps(invoices[i], FIRST_ROW + i) + RowsSteps(invoices[i + 1..], FIRST_ROW + i + 1)
  {
    assert invoices[i..][0] == invoices[i] && invoices[i..][1..] == invoices[i + 1..];
  }

  /** The invoice rows split before invoice `i`. */
  lemma RowsSplit(invoices: seq<InvoiceRecord>, i: int)
    requires 0 <= i < |invoices|
    ensures RowsSteps(invoices, FIRST_ROW) == RowsSteps(invoices[..i], FIRST_ROW) + RowsSteps(invoices[i..], FIRST_ROW + i)
  {
    assert invoices[..i] + invoices[i..] == invoices;
    RowsStepsAppend(invoices[..i], invoices[i..], FIRST_ROW);
  }

  /** Schedule 2 split around invoice `i`: the rows before it, its own row, and everything after. */
  lemma SplitAt(invoices: seq<InvoiceRecord>, i: int)
    requires 0 <= i < |invoices|
    ensures Schedule2Steps(invoices)
         == RowsSteps(invoices[..i], FIRST_ROW) + InvoiceSteps(invoices[i], FIRST_ROW + i)
            + (RowsSteps(invoices[i + 1..], FIRST_ROW + i + 1)
               + TotalSteps(FIRST_ROW + |invoices| + 1, GrandTotal(invoices)))
  {
    RowsStepsFrom(invoices, i);
    RowsSplit(invoices, i);
    SeqRegroup(RowsSteps(invoices[..i], FIRST_ROW), InvoiceSteps(invoices[i], FIRST_ROW + i),
               RowsSteps(invoices[i + 1..], FIRST_ROW + i + 1), TotalSteps(FIRST_ROW + |invoices| + 1, GrandTotal(invoices)));
  }

  /** A cell that wears its column's cached style keeps it through steps that do not address it. */
  lemma StyleKept(page: Page, template: Cell -> Style, steps: seq<Step>, cell: Cell)
    requires Avoids(steps, cell)
    requires cell.column in page.cache && StyleOf(page, template, cell) == page.cache[cell.column]
    ensures var after := ApplySteps(page, template, steps);
      cell.column in after.cache && StyleOf(after, template, cell) == after.cache[cell.column]
  {
    StyleUntouched(page, template, steps, cell);
    CacheAfter(page, template, steps);
  }

  /** What follows invoice row `i` in Schedule 2 addresses no cell of that row. */
  lemma LaterAvoid(invoices: seq<InvoiceRecord>, i: int, c: string)
    requires 0 <= i < |invoices|
    ensures Avoids(RowsSteps(invoices[i + 1..], FIRST_ROW + i + 1)
                   + TotalSteps(FIRST_ROW + |invoices| + 1, GrandTotal(invoices)), Cell(FIRST_ROW + i, c))
  {
    var rest: seq<Step> := RowsSteps(invoices[i + 1..], FIRST_ROW + i + 1);
    var totals: seq<Step> := TotalSteps(FIRST_ROW + |invoices| + 1, GrandTotal(invoices));
    RowsAddress(invoices[i + 1..], FIRST_ROW + i + 1);
    forall k | 0 <= k < |rest + totals|
      ensures (rest + totals)[k].cell != Cell(FIRST_ROW + i, c)
    {
      if k < |rest| {
        assert (rest + totals)[k] == rest[k];
      } else {
        assert (rest + totals)[k] == totals[k - |rest|];
      }
    }
  }

  lemma ApplyThree(page: Page, template: Cell -> Style, a: seq<Step>, b: seq<Step>, c: seq<Step>)
    ensures ApplySteps(page, template, a + b + c)
         == ApplySteps(ApplySteps(ApplySteps(page, template, a), template, b), template, c)
  {
    ApplyStepsAppend(page, template, a, b);
    ApplyStepsAppend(page, template, a + b, c);
  }

  /** The cell in column `c` of invoice row `i` ends with the style cached for `c`. */
  lemma RowCellStyle(page: Page, template: Cell -> Style, invoices: seq<InvoiceRecord>, i: int, c: string)
    requires 0 <= i < |invoices| && IsInvoiceColumn(c)
    ensures var after := ApplySteps(page, template, Schedule2Steps(invoices));
      c in after.cache && StyleOf(after, template, Cell(FIRST_ROW + i, c)) == after.cache[c]
  {
    var before := RowsSteps(invoices[..i], FIRST_ROW);
    var own := InvoiceSteps(invoices[i], FIRST_ROW + i);
    var later := RowsSteps(invoices[i + 1..], FIRST_ROW + i + 1)
                 + TotalSteps(FIRST_ROW + |invoices| + 1, GrandTotal(invoices));
    SplitAt(invoices, i);
    ApplyThree(page, template, before, own, later);
    var p1 := ApplySteps(page, template, before);
    InvoiceRowStyles(p1, template, invoices[i], FIRST_ROW + i);
    LaterAvoid(invoices, i, c);
    StyleKept(ApplySteps(p1, template, own), template, later, Cell(FIRST_ROW + i, c));
  }

  /**
    Schedule 2's styles: every invoice cell wears the style cached for its
    column, the "Grand Total" label wears the cached "C" style, and both sums
    wear their cached column style in bold.
   */
  lemma Schedule2Styles(page: Page, template: Cell -> Style, invoices: seq<InvoiceRecord>)
    ensures var after := ApplySteps(page, template, Schedule2Steps(invoices));
      var totalRow := FIRST_ROW + |invoices| + 1;
      && (forall cell | InRows(cell, FIRST_ROW, |invoices|) ::
            cell.column in after.cache && StyleOf(after, template, cell) == after.cache[cell.column])
      && (forall c | IsTotalColumn(c) :: c in after.cache)
      && StyleOf(after, template, Cell(totalRow, "C")) == after.cache["C"]
      && StyleOf(after, template, Cell(totalRow, "E")) == after.cache["E"].(bold := true)
      && StyleOf(after, template, Cell(totalRow, "H")) == after.cache["H"].(bold := true)
  {
    var after := ApplySteps(page, template, Schedule2Steps(invoices));
    forall cell | InRows(cell, FIRST_ROW, |invoices|)
      ensures cell.column in after.cache && StyleOf(after, template, cell) == after.cache[cell.column]
    {
      var i := cell.row - FIRST_ROW;
      assert cell == Cell(FIRST_ROW + i, cell.column);
      RowCellStyle(page, template, invoices, i, cell.column);
    }
    var rows := RowsSteps(invoices, FIRST_ROW);
    var totals := TotalSteps(FIRST_ROW + |invoices| + 1, GrandTotal(invoices));
    ApplyStepsAppend(page, template, rows, totals);
    TotalRowStyles(ApplySteps(page, template, rows), template, FIRST_ROW + |invoices| + 1, GrandTotal(invoices));
  }

  /**
    Schedule 2's effect on the shared cache: it gains "C", "E" and "H" (and "B"
    when there is an invoice) and keeps every entry it already had.
   */
  lemma Schedule2CacheKeys(page: Page, template: Cell -> Style, invoices: seq<InvoiceRecord>)
    ensures var after := ApplySteps(page, template, Schedule2Steps(invoices));
      && after.cache.Keys == page.cache.Keys + {"C", "E", "H"} + (if invoices == [] then {} else {"B"})
      && (forall c | c in page.cache :: after.cache[c] == page.cache[c])
  {
    var rows := RowsSteps(invoices, FIRST_ROW);
    var totals := TotalSteps(FIRST_ROW + |invoices| + 1, GrandTotal(invoices));
    CacheAfter(page, template, Schedule2Steps(invoices));
    ColumnsAppend(rows, totals);
    RowsWrites(invoices, FIRST_ROW, Cell(0, ""));
    TotalWrites(FIRST_ROW + |invoices| + 1, GrandTotal(invoices), Cell(0, ""));
  }

  /**
    A column new to the cache caches the style of the first cell Schedule 2
    writes in it: row 8 when there is an invoice, otherwise the total row.
   */
  lemma Schedule2FirstCapture(page: Page, template: Cell -> Style, invoices: seq<InvoiceRecord>)
    ensures var after := ApplySteps(page, template, Schedule2Steps(invoices));
      && (invoices != [] ==>
            forall c | IsInvoiceColumn(c) && c !in page.cache :: c in after.cache && after.cache[c] == StyleOf(page, template, Cell(FIRST_ROW, c)))
      && (invoices == [] ==>
            forall c | IsTotalColumn(c) && c !in page.cache :: c in after.cache && after.cache[c] == StyleOf(page, template, Cell(FIRST_ROW + 1, c)))
  {
    var totals := TotalSteps(FIRST_ROW + |invoices| + 1, GrandTotal(invoices));
    if invoices == [] {
      assert Schedule2Steps(invoices) == totals;
      TotalRowStyles(page, template, FIRST_ROW + 1, GrandTotal(invoices));
    } else {
      var own := InvoiceSteps(invoices[0], FIRST_ROW);
      var later := RowsSteps(invoices[1..], FIRST_ROW + 1);
      assert Schedule2Steps(invoices) == own + (later + totals);
      ApplyStepsAppend(page, template, own, later + totals);
      InvoiceRowStyles(page, template, invoices[0], FIRST_ROW);
      CacheAfter(ApplySteps(page, template, own), template, later + totals);
    }
  }

  /**
    After ingestion, Schedule 2's rows follow the ingested rows: the i-th
    invoice of a client is the i-th distinct invoice id among that client's
    entries in order of first appearance; it holds exactly those entries, in
    ingestion order, and carries the date of the first of them.
   */
  lemma Schedule2Order(all: seq<InvoiceEntry>, clients: map<string, ClientRecord>, c: string)
    requires Ingestion.Grouped(all, clients) && c in clients
    ensures clients[c].Valid()
    ensures var invoices, ids := InvoicesOf(clients[c]), Ingestion.FirstSeen(all, c);
      && |invoices| == |ids|
      && forall k | 0 <= k < |invoices| ::
           && invoices[k].invoiceId == ids[k]
           && invoices[k].entries == Ingestion.Select(all, c, ids[k])
           && invoices[k].entries != []
           && invoices[k].date == invoices[k].entries[0].date
  {
    assert Ingestion.Filed(all, c, clients[c]);
  }
}
