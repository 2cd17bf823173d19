/**
  The client package's "Schedule 2" sheet (`CreateSchedule2`), the style cache
  behind every cell write (`SetCellValue`), and the "Schedule 3" pass
  (`CreateSchedule3`).

  A worksheet is a `Sheet` object: the values written so far, the styles set
  on cells so far (any other cell has the template's style) and the cells given
  the date data type. The program's static `_schedule2ColumnStyles` dictionary
  is a `StyleCache` object. Each write is a `Step`; what a run of steps does to
  a sheet and the cache is `ApplySteps`, and the methods are proved to do
  exactly that.
 */
module Schedules {
  import opened Entries
  import opened Invoices
  import opened Clients

  const SCHEDULE_2 := "Schedule 2"
  const SCHEDULE_3 := "Schedule 3"
  const GRAND_TOTAL := "Grand Total"
  /** The row of the first invoice on Schedule 2. */
  const FIRST_ROW := 8

  datatype Cell = Cell(row: int, column: string)

  datatype CellValue = Text(text: string) | Number(number: real)

  /** A cell style: whether the font is bold, and everything else as one opaque format. */
  datatype Style = Style(format: string, bold: bool)

  /** One operation on a sheet, in program order. */
  datatype Step =
    | Set(cell: Cell, value: CellValue)   // SetCellValue
    | MarkDate(cell: Cell)                // SetDataType(XLCellValues.DateTime)
    | MarkBold(cell: Cell)                // Style.Font.Bold = true

  /** A sheet's written state together with the column style cache. */
  datatype Page = Page(
    values: map<Cell, CellValue>,
    styles: map<Cell, Style>,
    dates: set<Cell>,
    cache: map<string, Style>)

  function StyleOf(page: Page, template: Cell -> Style, cell: Cell): Style {
    if cell in page.styles then page.styles[cell] else template(cell)
  }

  /**
    The cache after a write to `column` whose cell currently has `style`: the
    first write to a column captures its style, and a captured style is never
    replaced.
   */
  function Capture(cache: map<string, Style>, column: string, style: Style): (r: map<string, Style>)
    ensures r.Keys == cache.Keys + {column}
    ensures forall c | c in cache :: r[c] == cache[c]
    ensures column !in cache ==> r[column] == style
  {
    if column in cache then cache else cache[column := style]
  }

  function ApplyStep(page: Page, template: Cell -> Style, step: Step): Page {
    match step
    case Set(cell, value) =>
      var cache := Capture(page.cache, cell.column, StyleOf(page, template, cell));
      page.(values := page.values[cell := value],
            styles := page.styles[cell := cache[cell.column]],
            cache := cache)
    case MarkDate(cell) =>
      page.(dates := page.dates + {cell})
    case MarkBold(cell) =>
      page.(styles := page.styles[cell := StyleOf(page, template, cell).(bold := true)])
  }

  function ApplySteps(page: Page, template: Cell -> Style, steps: seq<Step>): Page
    decreases steps
  {
    if steps == [] then page else ApplySteps(ApplyStep(page, template, steps[0]), template, steps[1..])
  }

  lemma {:induction false} ApplyStepsAppend(page: Page, template: Cell -> Style, a: seq<Step>, b: seq<Step>)
    ensures ApplySteps(page, template, a + b) == ApplySteps(ApplySteps(page, template, a), template, b)
    decreases a
  {
    if a == [] {
      assert a + b == b;
    } else {
      assert (a + b)[1..] == a[1..] + b;
      ApplyStepsAppend(ApplyStep(page, template, a[0]), template, a[1..], b);
    }
  }

  // ---------------------------------------------------------------------------
  // The sheet and the cache as objects
  // ---------------------------------------------------------------------------

  class Sheet {
    /** The style of a cell nobody has set, as the template file has it. */
    const template: Cell -> Style
    var values: map<Cell, CellValue>
    var styles: map<Cell, Style>
    var dates: set<Cell>

    constructor (template: Cell -> Style)
      ensures this.template == template && values == map[] && styles == map[] && dates == {}
    {
      this.template := template;
      values := map[];
      styles := map[];
      dates := {};
    }

    function StyleAt(cell: Cell): Style
      reads this
    {
      if cell in styles then styles[cell] else template(cell)
    }
  }

  /** The program's `_schedule2ColumnStyles`: shared by every sheet written, never cleared. */
  class StyleCache {
    var columnStyles: map<string, Style>

    constructor ()
      ensures columnStyles == map[]
    {
      columnStyles := map[];
    }

    /**
      Writes `value` into `cell`, giving the cell the style cached for its
      column; the first write to a column caches that cell's current style.
     */
    method SetCellValue(sheet: Sheet, cell: Cell, value: CellValue)
      modifies this, sheet
      ensures PageOf(sheet, this) == ApplyStep(old(PageOf(sheet, this)), sheet.template, Set(cell, value))
    {
      if cell.column !in columnStyles {
        columnStyles := columnStyles[cell.column := sheet.StyleAt(cell)];
      }
      sheet.styles := sheet.styles[cell := columnStyles[cell.column]];
      sheet.values := sheet.values[cell := value];
    }
  }

  ghost function PageOf(sheet: Sheet, cache: StyleCache): Page
    reads sheet, cache
  {
    Page(sheet.values, sheet.styles, sheet.dates, cache.columnStyles)
  }

  // ---------------------------------------------------------------------------
  // Schedule 2
  // ---------------------------------------------------------------------------

  /** A client's invoices in dictionary order. */
  function InvoicesOf(client: ClientRecord): (r: seq<InvoiceRecord>)
    requires client.Valid()
    ensures |r| == |client.invoiceOrder|
    ensures forall i | 0 <= i < |r| :: client.invoiceOrder[i] in client.invoices && r[i] == client.invoices[client.invoiceOrder[i]]
  {
    seq(|client.invoiceOrder|, i requires 0 <= i < |client.invoiceOrder| => client.invoices[client.invoiceOrder[i]])
  }

  /** The running client total after the given invoices. */
  function GrandTotal(invoices: seq<InvoiceRecord>): AmountTotal {
    if invoices == [] then ZERO
    else GrandTotal(invoices[..|invoices| - 1]).Plus(Total(invoices[|invoices| - 1].entries))
  }

  /** The writes for one invoice row: date (typed as a date), invoice id, and the invoice's two totals. */
  function InvoiceSteps(invoice: InvoiceRecord, row: int): seq<Step> {
    var total := Total(invoice.entries);
    [Set(Cell(row, "B"), Text(invoice.date)),
     MarkDate(Cell(row, "B")),
     Set(Cell(row, "C"), Text(invoice.invoiceId)),
     Set(Cell(row, "E"), Number(total.amount)),
     Set(Cell(row, "H"), Number(total.assesed))]
  }

  /** The writes for the invoice rows, one row per invoice from `row` on. */
  function RowsSteps(invoices: seq<InvoiceRecord>, row: int): seq<Step>
    decreases invoices
  {
    if invoices == [] then [] else InvoiceSteps(invoices[0], row) + RowsSteps(invoices[1..], row + 1)
  }

  lemma {:induction false} RowsStepsAppend(a: seq<InvoiceRecord>, b: seq<InvoiceRecord>, row: int)
    ensures RowsSteps(a + b, row) == RowsSteps(a, row) + RowsSteps(b, row + |a|)
    decreases a
  {
    if a == [] {
      assert a + b == b;
    } else {
      assert (a + b)[0] == a[0] && (a + b)[1..] == a[1..] + b;
      RowsStepsAppend(a[1..], b, row + 1);
    }
  }

  /** The grand-total row: a label and the two sums, in bold. */
  function TotalSteps(row: int, total: AmountTotal): seq<Step> {
    [Set(Cell(row, "C"), Text(GRAND_TOTAL)),
     Set(Cell(row, "E"), Number(total.amount)),
     MarkBold(Cell(row, "E")),
     Set(Cell(row, "H"), Number(total.assesed)),
     MarkBold(Cell(row, "H"))]
  }

  /** Everything `CreateSchedule2` writes, in order; one blank row separates the invoices from the total. */
  function Schedule2Steps(invoices: seq<InvoiceRecord>): seq<Step> {
    RowsSteps(invoices, FIRST_ROW) + TotalSteps(FIRST_ROW + |invoices| + 1, GrandTotal(invoices))
  }

  lemma InvoiceStepsApply(page: Page, template: Cell -> Style, invoice: InvoiceRecord, row: int)
    ensures var total := Total(invoice.entries);
      ApplySteps(page, template, InvoiceSteps(invoice, row))
      == ApplyStep(ApplyStep(ApplyStep(ApplyStep(ApplyStep(page, template,
           Set(Cell(row, "B"), Text(invoice.date))), template,
           MarkDate(Cell(row, "B"))), template,
           Set(Cell(row, "C"), Text(invoice.invoiceId))), template,
           Set(Cell(row, "E"), Number(total.amount))), template,
           Set(Cell(row, "H"), Number(total.assesed)))
  {
    FiveSteps(page, template, InvoiceSteps(invoice, row));
  }

  lemma TotalStepsApply(page: Page, template: Cell -> Style, row: int, total: AmountTotal)
    ensures ApplySteps(page, template, TotalSteps(row, total))
      == ApplyStep(ApplyStep(ApplyStep(ApplyStep(ApplyStep(page, template,
           Set(Cell(row, "C"), Text(GRAND_TOTAL))), template,
           Set(Cell(row, "E"), Number(total.amount))), template,
           MarkBold(Cell(row, "E"))), template,
           Set(Cell(row, "H"), Number(total.assesed))), template,
           MarkBold(Cell(row, "H")))
  {
    FiveSteps(page, template, TotalSteps(row, total));
  }

  lemma FiveSteps(page: Page, template: Cell -> Style, s: seq<Step>)
    requires |s| == 5
    ensures ApplySteps(page, template, s)
      == ApplyStep(ApplyStep(ApplyStep(ApplyStep(ApplyStep(page, template,
           s[0]), template, s[1]), template, s[2]), template, s[3]), template, s[4])
  {
    var p1 := ApplyStep(page, template, s[0]);
    var p2 := ApplyStep(p1, template, s[1]);
    var p3 := ApplyStep(p2, template, s[2]);
    var p4 := ApplyStep(p3, template, s[3]);
    var p5 := ApplyStep(p4, template, s[4]);
    assert ApplySteps(p4, template, s[4..]) == p5 by {
      assert s[4..][1..] == [];
    }
    assert ApplySteps(p3, template, s[3..]) == p5 by {
      assert s[3..][1..] == s[4..];
    }
    assert ApplySteps(p2, template, s[2..]) == p5 by {
      assert s[2..][1..] == s[3..];
    }
    assert ApplySteps(p1, template, s[1..]) == p5 by {
      assert s[1..][1..] == s[2..];
    }
  }

  /** One more invoice row extends the running total by that invoice's total. */
  lemma RowTotalStep(invoices: seq<InvoiceRecord>, i: int, clientTotal: AmountTotal, invoiceTotal: AmountTotal)
    requires 0 <= i < |invoices|
    requires clientTotal == GrandTotal(invoices[..i])
    requires invoiceTotal == Total(invoices[i].entries)
    ensures AmountTotal(clientTotal.amount + invoiceTotal.amount, clientTotal.assesed + invoiceTotal.assesed)
         == GrandTotal(invoices[..i + 1])
  {
    assert invoices[..i + 1][..i] == invoices[..i];
  }

  /** One more invoice row extends the page by that invoice's writes. */
  lemma RowStep(start: Page, template: Cell -> Style, invoices: seq<InvoiceRecord>, i: int, mid: Page, after: Page)
    requires 0 <= i < |invoices|
    requires mid == ApplySteps(start, template, RowsSteps(invoices[..i], FIRST_ROW))
    requires after == ApplySteps(mid, template, InvoiceSteps(invoices[i], FIRST_ROW + i))
    ensures after == ApplySteps(start, template, RowsSteps(invoices[..i + 1], FIRST_ROW))
  {
    assert invoices[..i + 1] == invoices[..i] + [invoices[i]];
    RowsStepsAppend(invoices[..i], [invoices[i]], FIRST_ROW);
    assert RowsSteps([invoices[i]], FIRST_ROW + i) == InvoiceSteps(invoices[i], FIRST_ROW + i) by {
      assert [invoices[i]][1..] == [];
    }
    ApplyStepsAppend(start, template, RowsSteps(invoices[..i], FIRST_ROW), InvoiceSteps(invoices[i], FIRST_ROW + i));
  }

  /** The invoice rows followed by the grand-total row make up all of Schedule 2. */
  lemma TotalStep(start: Page, template: Cell -> Style, invoices: seq<InvoiceRecord>, rowsDone: Page, after: Page)
    requires rowsDone == ApplySteps(start, template, RowsSteps(invoices[..|invoices|], FIRST_ROW))
    requires after == ApplySteps(rowsDone, template, TotalSteps(FIRST_ROW + |invoices| + 1, GrandTotal(invoices[..|invoices|])))
    ensures after == ApplySteps(start, template, Schedule2Steps(invoices))
  {
    assert invoices[..|invoices|] == invoices;
    ApplyStepsAppend(start, template, RowsSteps(invoices, FIRST_ROW), TotalSteps(FIRST_ROW + |invoices| + 1, GrandTotal(invoices)));
  }

  /**
    Fills "Schedule 2" when the workbook has it: one row per invoice from row
    8, then the grand total after a blank row. Without that sheet nothing
    happens.
   */
  method CreateSchedule2(workbook: map<string, Sheet>, client: ClientRecord, cache: StyleCache)
    requires client.Valid()
    modifies cache, if SCHEDULE_2 in workbook then {workbook[SCHEDULE_2]} else {}
    ensures SCHEDULE_2 !in workbook ==> cache.columnStyles == old(cache.columnStyles)
    ensures SCHEDULE_2 in workbook ==>
      var sheet := workbook[SCHEDULE_2];
      PageOf(sheet, cache) == ApplySteps(old(PageOf(sheet, cache)), sheet.template, Schedule2Steps(InvoicesOf(client)))
  {
    if SCHEDULE_2 !in workbook {
      return;
    }
    var sheet := workbook[SCHEDULE_2];
    ghost var start := PageOf(sheet, cache);

    var clientTotal := ZERO;
    var currentRow := FIRST_ROW;
    var invoices := InvoicesOf(client);
    for i := 0 to |invoices|
      invariant currentRow == FIRST_ROW + i
      invariant clientTotal == GrandTotal(invoices[..i])
      invariant PageOf(sheet, cache) == ApplySteps(start, sheet.template, RowsSteps(invoices[..i], FIRST_ROW))
    {
      ghost var before := PageOf(sheet, cache);
      var invoiceTotal := WriteInvoiceRow(sheet, cache, invoices[i], currentRow);
      RowTotalStep(invoices, i, clientTotal, invoiceTotal);
      RowStep(start, sheet.template, invoices, i, before, PageOf(sheet, cache));
      clientTotal := AmountTotal(clientTotal.amount + invoiceTotal.amount, clientTotal.assesed + invoiceTotal.assesed);
      currentRow := currentRow + 1;
    }

    currentRow := currentRow + 1;
    ghost var rowsDone := PageOf(sheet, cache);
    WriteGrandTotal(sheet, cache, currentRow, clientTotal);
    TotalStep(start, sheet.template, invoices, rowsDone, PageOf(sheet, cache));
  }

  /** The body of the invoice loop of `CreateSchedule2`: one invoice's row. */
  method WriteInvoiceRow(sheet: Sheet, cache: StyleCache, invoice: InvoiceRecord, currentRow: int)
    returns (invoiceTotal: AmountTotal)
    modifies sheet, cache
    ensures invoiceTotal == Total(invoice.entries)
    ensures PageOf(sheet, cache) == ApplySteps(old(PageOf(sheet, cache)), sheet.template, InvoiceSteps(invoice, currentRow))
  {
    ghost var before := PageOf(sheet, cache);
    cache.SetCellValue(sheet, Cell(currentRow, "B"), Text(invoice.date));
    sheet.dates := sheet.dates + {Cell(currentRow, "B")};

    invoiceTotal := Total(invoice.entries);

    cache.SetCellValue(sheet, Cell(currentRow, "C"), Text(invoice.invoiceId));
    cache.SetCellValue(sheet, Cell(currentRow, "E"), Number(invoiceTotal.amount));
    cache.SetCellValue(sheet, Cell(currentRow, "H"), Number(invoiceTotal.assesed));
    InvoiceStepsApply(before, sheet.template, invoice, currentRow);
  }

  /** The grand-total row of `CreateSchedule2`: the label, then each sum made bold. */
  method WriteGrandTotal(sheet: Sheet, cache: StyleCache, currentRow: int, clientTotal: AmountTotal)
    modifies sheet, cache
    ensures PageOf(sheet, cache) == ApplySteps(old(PageOf(sheet, cache)), sheet.template, TotalSteps(currentRow, clientTotal))
  {
    ghost var before := PageOf(sheet, cache);
    cache.SetCellValue(sheet, Cell(currentRow, "C"), Text(GRAND_TOTAL));

    cache.SetCellValue(sheet, Cell(currentRow, "E"), Number(clientTotal.amount));
    ghost var amountSet := PageOf(sheet, cache);
    sheet.styles := sheet.styles[Cell(currentRow, "E") := sheet.StyleAt(Cell(currentRow, "E")).(bold := true)];
    assert PageOf(sheet, cache) == ApplyStep(amountSet, sheet.template, MarkBold(Cell(currentRow, "E")));

    cache.SetCellValue(sheet, Cell(currentRow, "H"), Number(clientTotal.assesed));
    ghost var assessedSet := PageOf(sheet, cache);
    sheet.styles := sheet.styles[Cell(currentRow, "H") := sheet.StyleAt(Cell(currentRow, "H")).(bold := true)];
    assert PageOf(sheet, cache) == ApplyStep(assessedSet, sheet.template, MarkBold(Cell(currentRow, "H")));
    TotalStepsApply(before, sheet.template, currentRow, clientTotal);
  }

  /**
    The sheet-filling part of a client's package: Schedule 2, then Schedule 3,
    on one copy of the template workbook, with the cache shared by all
    packages.
   */
  method CreatePackage(workbook: map<string, Sheet>, client: ClientRecord, cache: StyleCache) returns (lastRow: Option<int>)
    requires client.Valid()
    modifies cache, if SCHEDULE_2 in workbook then {workbook[SCHEDULE_2]} else {}
    ensures SCHEDULE_2 !in workbook ==> cache.columnStyles == old(cache.columnStyles)
    ensures SCHEDULE_2 in workbook ==>
      var sheet := workbook[SCHEDULE_2];
      PageOf(sheet, cache) == ApplySteps(old(PageOf(sheet, cache)), sheet.template, Schedule2Steps(InvoicesOf(client)))
    ensures lastRow == if SCHEDULE_3 in workbook then Some(10 + |client.invoiceOrder|) else None
  {
    CreateSchedule2(workbook, client, cache);
    lastRow := CreateSchedule3(workbook, client);
  }

  /**
    "Schedule 3": walks the client's invoices advancing a row counter and
    writes nothing. Returns the final counter, or `None` without that sheet.
   */
  method CreateSchedule3(workbook: map<string, Sheet>, client: ClientRecord) returns (lastRow: Option<int>)
    ensures lastRow == if SCHEDULE_3 in workbook then Some(10 + |client.invoiceOrder|) else None
  {
    if SCHEDULE_3 !in workbook {
      return None;
    }
    var currentRow := 9;
    for i := 0 to |client.invoiceOrder|
      invariant currentRow == 9 + i
    {
      currentRow := currentRow + 1;
    }
    currentRow := currentRow + 1;
    return Some(currentRow);
  }
}
