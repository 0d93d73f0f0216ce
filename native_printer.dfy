/**
 * The arithmetic of the AWT bill printout: the forced A4 page format, the column
 * partition of the table width, and which item rows each page index draws. Fonts,
 * colours and glyph widths are not part of it; a page is described by the rows it draws,
 * whether it shows the buyer line and whether it shows the grand total.
 */
module NativePrinter {
  import opened Wrappers
  import opened Strings
  import opened Model

  const Margin := 36
  const HeaderH := 110
  /** The gap below the header rule (line 122). */
  const RuleGap := 15
  const BuyerLineH := 20
  const FooterH := 40
  const RowH := 20
  const NameWidth := 32
  const DefaultShopName := "Light House"
  const OverloadShopName := "Light World"
  const NullBillMessage := "Bill or items cannot be null"

  /** Column shares of the table width (float constants in the source, exact here). */
  const PSno := 0.06
  const PName := 0.44
  const PQty := 0.12
  const PUnit := 0.19

  /** Java's `(int)` of a double: truncation toward zero. */
  function JavaIntCast(x: real): (r: int)
    ensures x >= 0.0 ==> r as real <= x < r as real + 1.0
    ensures x < 0.0 ==> r as real - 1.0 < x <= r as real
  {
    if x >= 0.0 then x.Floor else -((-x).Floor)
  }

  /** Java's `/` on int for a positive divisor: the quotient truncated toward zero. */
  function JavaDiv(a: int, b: int): (r: int)
    requires b > 0
    ensures a >= 0 ==> 0 <= r && r * b <= a < r * b + b
    ensures a < 0 ==> r <= 0 && r * b - b < a <= r * b
  {
    if a >= 0 then
      QuotientBounds(a, b);
      a / b
    else
      QuotientBounds(-a, b);
      NegatedQuotient((-a) / b, b);
      -((-a) / b)
  }

  /** Euclidean division of a non-negative dividend brackets it between two multiples. */
  lemma QuotientBounds(a: int, b: int)
    requires a >= 0 && b > 0
    ensures 0 <= a / b && (a / b) * b <= a < (a / b) * b + b
  {
    assert a == (a / b) * b + a % b;
  }

  lemma NegatedQuotient(q: int, b: int)
    ensures (-q) * b == -(q * b)
  {
  }

  datatype Columns = Columns(wSno: int, wName: int, wQty: int, wUnit: int, wTotal: int)

  /** Lines 139-143: four truncated shares, and the total column takes the remainder. */
  function ColumnWidths(tableW: int): (c: Columns)
    ensures c.wSno + c.wName + c.wQty + c.wUnit + c.wTotal == tableW
  {
    var wSno := JavaIntCast(tableW as real * PSno);
    var wName := JavaIntCast(tableW as real * PName);
    var wQty := JavaIntCast(tableW as real * PQty);
    var wUnit := JavaIntCast(tableW as real * PUnit);
    Columns(wSno, wName, wQty, wUnit, tableW - (wSno + wName + wQty + wUnit))
  }

  /** On a non-negative table width no column is negative, and the remainder column is at
      least its own 19 % share. */
  lemma ColumnsFit(tableW: int)
    requires tableW >= 0
    ensures var c := ColumnWidths(tableW);
      && c.wSno >= 0 && c.wName >= 0 && c.wQty >= 0 && c.wUnit >= 0
      && c.wTotal as real >= tableW as real * 0.19
  {
    var w := tableW as real;
    assert w * PSno >= 0.0 && w * PName >= 0.0 && w * PQty >= 0.0 && w * PUnit >= 0.0;
    assert w * PSno + w * PName + w * PQty + w * PUnit == w * 0.81;
  }

  datatype ColumnXs = ColumnXs(xSno: int, xName: int, xQty: int, xUnit: int, xTotal: int, xEnd: int)

  /** Lines 145-150: each column starts where the previous one ends. */
  function ColumnPositions(startX: int, c: Columns): (x: ColumnXs)
    ensures x.xSno == startX + Margin
    ensures x.xName == x.xSno + c.wSno && x.xQty == x.xName + c.wName && x.xUnit == x.xQty + c.wQty
    ensures x.xTotal == x.xUnit + c.wUnit && x.xEnd == x.xTotal + c.wTotal
  {
    var xSno := startX + Margin;
    var xName := xSno + c.wSno;
    var xQty := xName + c.wName;
    var xUnit := xQty + c.wQty;
    var xTotal := xUnit + c.wUnit;
    ColumnXs(xSno, xName, xQty, xUnit, xTotal, xTotal + c.wTotal)
  }

  /** The table spans exactly its width: xEnd = xSno + tableW. */
  lemma TableSpansWidth(startX: int, tableW: int)
    ensures var x := ColumnPositions(startX, ColumnWidths(tableW));
      x.xEnd == x.xSno + tableW
  {
  }

  /** The imageable area of a page, in points. */
  datatype PageFormat = PageFormat(imageableX: real, imageableY: real, imageableWidth: real, imageableHeight: real)

  /** Lines 41-51: A4 at 72 dpi with 42-point margins. */
  const A4Format := PageFormat(42.0, 42.0, 511.0, 758.0)

  /** Lines 153-154: the rows that fit between the table header's top and the footer. */
  function RowsPerPage(height: int, buyerLine: bool): int {
    JavaDiv(height - (HeaderH + RuleGap + (if buyerLine then BuyerLineH else 0)) - FooterH, RowH)
  }

  /** Where a page's rows come from: none (NO_SUCH_PAGE), or the rows [start, end). */
  datatype Slot = NoPage | Rows(start: int, end: int)

  /** Lines 156-159: page k starts at k × rowsPerPage and stops at the end of the list. */
  function Pagination(rowsPerPage: int, pageIndex: nat, size: nat): (s: Slot)
    ensures s.NoPage? <==> pageIndex * rowsPerPage >= size
  {
    var start := pageIndex * rowsPerPage;
    if start >= size then NoPage
    else Rows(start, if start + rowsPerPage < size then start + rowsPerPage else size)
  }

  predicate OnPage(s: Slot, i: int) {
    s.Rows? && s.start <= i < s.end
  }

  /** The slot the source computes for page k: the buyer line, if any, only shortens page 0. */
  function AsWrittenSlot(height: int, buyerLine: bool, pageIndex: nat, size: nat): Slot {
    Pagination(RowsPerPage(height, buyerLine && pageIndex == 0), pageIndex, size)
  }

  lemma QuotientStep(a: int)
    requires a >= 0
    ensures (a + RowH) / RowH == a / RowH + 1
  {
  }

  /** A shown buyer line takes exactly one row from page 0. */
  lemma BuyerLineCostsOneRow(height: int)
    requires height >= HeaderH + RuleGap + BuyerLineH + FooterH
    ensures RowsPerPage(height, true) + 1 == RowsPerPage(height, false)
  {
    QuotientStep(height - (HeaderH + RuleGap + BuyerLineH) - FooterH);
  }

  /** Without a buyer line every page has the same row count, and each row lands on exactly
      one page, page i / rowsPerPage. */
  lemma UniformPagesCoverEachRowOnce(rowsPerPage: int, size: nat, i: int)
    requires rowsPerPage >= 1 && 0 <= i < size
    ensures OnPage(Pagination(rowsPerPage, i / rowsPerPage, size), i)
    ensures forall k: nat :: OnPage(Pagination(rowsPerPage, k, size), i) ==> k == i / rowsPerPage
  {
    var q := i / rowsPerPage;
    assert q * rowsPerPage <= i < q * rowsPerPage + rowsPerPage;
    forall k: nat | OnPage(Pagination(rowsPerPage, k, size), i) ensures k == q {
      OnlyPage(rowsPerPage, k, q, i);
    }
  }

  lemma OnlyPage(n: int, k: nat, q: int, i: int)
    requires n >= 1 && q >= 0
    requires k * n <= i < k * n + n && q * n <= i < q * n + n
    ensures k == q
  {
    var d := k - q;
    assert d * n == k * n - q * n;
    MultipleBound(d, n);
  }

  /** A non-zero multiple of n is at least n away from zero. */
  lemma {:induction false} MultipleBound(d: int, n: int)
    requires n >= 1
    ensures d >= 1 ==> d * n >= n
    ensures d <= -1 ==> d * n <= -n
    decreases if d < 0 then -d else d
  {
    if d > 1 {
      MultipleBound(d - 1, n);
    } else if d < -1 {
      MultipleBound(d + 1, n);
    }
  }

  /** The source's pagination with a buyer line: row number rowsPerPage(page 0) + 1 is
      drawn on no page, since page 1 restarts at the longer pages' row count. */
  lemma AsWrittenSkipsRow(height: int, size: nat)
    requires height >= HeaderH + RuleGap + BuyerLineH + FooterH
    requires RowsPerPage(height, true) < size
    ensures forall k: nat :: !OnPage(AsWrittenSlot(height, true, k, size), RowsPerPage(height, true))
  {
    var first := RowsPerPage(height, true);
    BuyerLineCostsOneRow(height);
    forall k: nat ensures !OnPage(AsWrittenSlot(height, true, k, size), first) {
      if k >= 1 {
        assert k * (first + 1) >= first + 1;
      }
    }
  }

  /** With one item more than page 0 holds, no page ends at the last item, so the grand
      total is never drawn. */
  lemma AsWrittenDropsTotal(height: int, size: nat)
    requires height >= HeaderH + RuleGap + BuyerLineH + FooterH
    requires size == RowsPerPage(height, true) + 1
    ensures forall k: nat :: var s := AsWrittenSlot(height, true, k, size); !(s.Rows? && s.end == size)
  {
    var first := RowsPerPage(height, true);
    BuyerLineCostsOneRow(height);
    forall k: nat ensures var s := AsWrittenSlot(height, true, k, size); !(s.Rows? && s.end == size) {
      if k >= 1 {
        assert k * (first + 1) >= first + 1;
      }
    }
  }

  /** On the A4 format printBillToService forces, a 30-item bill with a buyer never prints
      its 29th item, and a 29-item one never prints its grand total. */
  lemma A4SkipsItem29()
    ensures RowsPerPage(JavaIntCast(A4Format.imageableHeight), true) == 28
    ensures RowsPerPage(JavaIntCast(A4Format.imageableHeight), false) == 29
    ensures forall k: nat :: !OnPage(AsWrittenSlot(758, true, k, 30), 28)
    ensures forall k: nat :: var s := AsWrittenSlot(758, true, k, 29); !(s.Rows? && s.end == 29)
  {
    assert JavaIntCast(758.0) == 758;
    AsWrittenSkipsRow(758, 30);
    AsWrittenDropsTotal(758, 29);
  }

  /** The intended pagination: page 0 holds `first` rows, every later page `rest`, and page
      k > 0 starts where page k - 1 ends. */
  function CorrectedSlot(first: int, rest: int, pageIndex: nat, size: nat): Slot {
    var start := if pageIndex == 0 then 0 else first + (pageIndex - 1) * rest;
    var count := if pageIndex == 0 then first else rest;
    if start >= size then NoPage
    else Rows(start, if start + count < size then start + count else size)
  }

  function CorrectedPageOf(first: int, rest: int, i: int): nat
    requires first >= 1 && rest >= 1 && i >= 0
  {
    if i < first then 0 else 1 + (i - first) / rest
  }

  /** With the intended pagination every row lands on the page CorrectedPageOf names. */
  lemma CorrectedPageHoldsRow(first: int, rest: int, size: nat, i: int)
    requires first >= 1 && rest >= 1 && 0 <= i < size
    ensures OnPage(CorrectedSlot(first, rest, CorrectedPageOf(first, rest, i), size), i)
  {
    if i >= first {
      var q := (i - first) / rest;
      assert q * rest <= i - first < q * rest + rest;
      assert CorrectedPageOf(first, rest, i) - 1 == q;
    }
  }

  /** ... and on no other page. */
  lemma CorrectedPageIsUnique(first: int, rest: int, size: nat, i: int, k: nat)
    requires first >= 1 && rest >= 1 && 0 <= i < size
    requires OnPage(CorrectedSlot(first, rest, k, size), i)
    ensures k == CorrectedPageOf(first, rest, i)
  {
    if k >= 1 {
      assert (k - 1) * rest >= 0;
      assert (k - 1) * rest <= i - first < (k - 1) * rest + rest;
      var q := (i - first) / rest;
      assert q * rest <= i - first < q * rest + rest;
      OnlyPage(rest, k - 1, q, i - first);
    }
  }

  /** Every row is drawn exactly once, and the page holding the last row ends at the list's
      end, so the grand total is drawn. */
  lemma CorrectedCoversEachRowOnce(first: int, rest: int, size: nat, i: int)
    requires first >= 1 && rest >= 1 && 0 <= i < size
    ensures OnPage(CorrectedSlot(first, rest, CorrectedPageOf(first, rest, i), size), i)
    ensures forall k: nat :: OnPage(CorrectedSlot(first, rest, k, size), i) ==> k == CorrectedPageOf(first, rest, i)
    ensures var s := CorrectedSlot(first, rest, CorrectedPageOf(first, rest, size - 1), size);
      s.Rows? && s.end == size
  {
    CorrectedPageHoldsRow(first, rest, size, i);
    forall k: nat | OnPage(CorrectedSlot(first, rest, k, size), i) ensures k == CorrectedPageOf(first, rest, i) {
      CorrectedPageIsUnique(first, rest, size, i, k);
    }
    CorrectedPageHoldsRow(first, rest, size, size - 1);
  }

  /** What one item row shows: its 1-based number, its shortened name and its top y. */
  datatype PrintedRow = PrintedRow(sno: int, name: string, top: int)

  /** What print() returns and, for an existing page, what it draws. */
  datatype PageResult = NoSuchPage | PageExists(rows: seq<PrintedRow>, buyerShown: bool, totalShown: bool)

  /** Rows [start, end) as drawn below a table header whose top is `headerTop`. */
  function PageRows(items: seq<BillItem>, start: int, end: int, headerTop: int): (r: seq<PrintedRow>)
    requires end <= start || (0 <= start && end <= |items|)
    reads items
    ensures |r| == if end <= start then 0 else end - start
    decreases end - start
  {
    if end <= start then []
    else
      PageRows(items, start, end - 1, headerTop)
      + [PrintedRow(end, Abbreviate(items[end - 1].productName, NameWidth), headerTop + RowH * (end - start))]
  }

  /** Row j of a page is item start + j, numbered start + j + 1, one row height below the
      previous one. */
  lemma {:induction false} PageRowsAt(items: seq<BillItem>, start: int, end: int, headerTop: int, j: int)
    requires 0 <= start && end <= |items| && 0 <= j < end - start
    ensures PageRows(items, start, end, headerTop)[j]
      == PrintedRow(start + j + 1, Abbreviate(items[start + j].productName, NameWidth), headerTop + RowH * (j + 1))
    decreases end - start
  {
    if j < end - 1 - start {
      PageRowsAt(items, start, end - 1, headerTop, j);
    }
  }

  /** Drawn rows stay clear of the footer line: the bottom of row k (1-based) of a page,
      for k up to the page's row count, is at most one row height below the top of the
      footer band (the table header row is not counted in that budget). */
  lemma RowsStayOnPage(height: int, buyerLine: bool, startY: int, k: int)
    requires 1 <= k <= RowsPerPage(height, buyerLine)
    ensures var headerTop := startY + HeaderH + RuleGap + (if buyerLine then BuyerLineH else 0);
      headerTop + RowH * (k + 1) <= startY + height - FooterH + RowH
  {
    var a := height - (HeaderH + RuleGap + (if buyerLine then BuyerLineH else 0)) - FooterH;
    assert a >= 0;
    assert k * RowH <= (a / RowH) * RowH <= a;
  }

  class BillPrintable {
    const bill: Bill
    const items: seq<BillItem>
    const shopName: string

    /** Lines 90-94: the item list is taken from the bill; a null shop name becomes
        "Light House". */
    constructor (bill: Bill, shopName: Option<string>)
      ensures this.bill == bill && items == bill.items
      ensures this.shopName == shopName.GetOr(DefaultShopName)
    {
      this.bill := bill;
      this.items := bill.items;
      this.shopName := if shopName.Some? then shopName.value else DefaultShopName;
    }

    /** Whether the bill has a buyer with a non-blank name. */
    predicate HasNamedBuyer()
      reads bill, bill.buyer
    {
      bill.buyer != null && NonBlank(bill.buyer.name)
    }

    /** Lines 125-127: the buyer line is drawn on page 0 only, for a non-blank name. */
    predicate ShowsBuyer(pageIndex: nat)
      reads bill, bill.buyer
    {
      pageIndex == 0 && HasNamedBuyer()
    }

    /** Lines 174-197: rows [startRow, endRow), each numbered from 1 and one row height
        below the previous one, under a table header whose top is `headerTop`. */
    method DrawRows(startRow: int, endRow: int, headerTop: int) returns (rows: seq<PrintedRow>)
      requires endRow <= startRow || (0 <= startRow && endRow <= |items|)
      ensures rows == PageRows(items, startRow, endRow, headerTop)
    {
      var y := headerTop + RowH;
      rows := [];
      var i := startRow;
      while i < endRow
        invariant i == startRow || startRow < i <= endRow
        invariant rows == PageRows(items, startRow, i, headerTop)
        invariant y == headerTop + RowH * (i - startRow + 1)
        decreases endRow - i
      {
        var it := items[i];
        rows := rows + [PrintedRow(i + 1, Abbreviate(it.productName, NameWidth), y)];
        y := y + RowH;
        i := i + 1;
      }
      if endRow <= startRow {
        assert rows == PageRows(items, startRow, endRow, headerTop);
      }
    }

    /** Lines 98-217: NO_SUCH_PAGE exactly when the page's first row is past the list;
        otherwise the rows of its slot, in order, and the grand total exactly when the slot
        reaches the list's end. */
    method Print(pf: PageFormat, pageIndex: nat) returns (r: PageResult)
      ensures var height := JavaIntCast(pf.imageableHeight);
        var slot := AsWrittenSlot(height, HasNamedBuyer(), pageIndex, |items|);
        && (r.NoSuchPage? <==> slot.NoPage?)
        && (r.PageExists? ==>
             && r.buyerShown == ShowsBuyer(pageIndex)
             && r.totalShown == (slot.end == |items|)
             && r.rows == PageRows(items, slot.start, slot.end,
                  JavaIntCast(pf.imageableY) + HeaderH + RuleGap + (if ShowsBuyer(pageIndex) then BuyerLineH else 0)))
    {
      var height := JavaIntCast(pf.imageableHeight);
      var startY := JavaIntCast(pf.imageableY);
      var y := startY;
      y := y + HeaderH;
      y := y + RuleGap;
      var buyerShown := false;
      if pageIndex == 0 {
        var b := bill.buyer;
        if b != null && b.name.Some? && !IsBlank(b.name.value) {
          buyerShown := true;
          y := y + BuyerLineH;
        }
      }
      var availableH := height - (y - startY) - FooterH;
      var rowsPerPage := JavaDiv(availableH, RowH);
      assert buyerShown == ShowsBuyer(pageIndex);
      assert rowsPerPage == RowsPerPage(height, buyerShown);
      ghost var slot := AsWrittenSlot(height, HasNamedBuyer(), pageIndex, |items|);
      assert slot == Pagination(rowsPerPage, pageIndex, |items|);
      var startRow := pageIndex * rowsPerPage;
      if startRow >= |items| {
        return NoSuchPage;
      }
      var endRow := if startRow + rowsPerPage < |items| then startRow + rowsPerPage else |items|;
      assert slot == Rows(startRow, endRow);
      if rowsPerPage > 0 {
        assert startRow >= 0;
      }
      var rows := DrawRows(startRow, endRow, y);
      r := PageExists(rows, buyerShown, endRow == |items|);
    }
  }

  /** The printer a job is sent to (the platform's services are outside the model). */
  datatype PrintService = PrintService(name: string)

  /** The job printBillToService sets up. */
  class PrintJob {
    const service: Option<PrintService>
    const format: PageFormat
    const printable: BillPrintable
    /** Whether job.print() was reached. */
    const printed: bool

    constructor (service: Option<PrintService>, format: PageFormat, printable: BillPrintable, printed: bool)
      ensures this.service == service && this.format == format && this.printable == printable
      ensures this.printed == printed
    {
      this.service, this.format, this.printable, this.printed := service, format, printable, printed;
    }
  }

  /** Lines 24-58: a null bill is rejected before any job exists; otherwise the job prints
      the bill on A4 with the given shop name, unless a requested dialog is cancelled. The
      dialog's answer is the input `dialogAccepted`. */
  method PrintBillToService(bill: Bill?, service: Option<PrintService>, shopName: Option<string>,
                            showDialog: bool, dialogAccepted: bool) returns (r: Result<PrintJob, string>)
    ensures bill == null <==> r == Failure(NullBillMessage)
    ensures r.Success? ==> && fresh(r.value) && r.value.service == service && r.value.format == A4Format
                           && r.value.printable.bill == bill && r.value.printable.items == bill.items
                           && r.value.printable.shopName == shopName.GetOr(DefaultShopName)
                           && r.value.printed == (!showDialog || dialogAccepted)
  {
    if bill == null {
      return Failure(NullBillMessage);
    }
    var printable := new BillPrintable(bill, shopName);
    var job := new PrintJob(service, A4Format, printable, !showDialog || dialogAccepted);
    return Success(job);
  }

  /** Lines 61-64: the two-argument form uses "Light World" and always shows the dialog. */
  method PrintBillToServiceWithDialog(bill: Bill?, service: Option<PrintService>, dialogAccepted: bool)
    returns (r: Result<PrintJob, string>)
    ensures bill == null <==> r == Failure(NullBillMessage)
    ensures r.Success? ==> && fresh(r.value) && r.value.service == service && r.value.format == A4Format
                           && r.value.printable.bill == bill && r.value.printable.items == bill.items
                           && r.value.printable.shopName == OverloadShopName
                           && r.value.printed == dialogAccepted
  {
    r := PrintBillToService(bill, service, Some(OverloadShopName), true, dialogAccepted);
  }
}
