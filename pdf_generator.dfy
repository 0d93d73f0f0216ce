/**
 * The layout arithmetic of the PDF bill: which page and which height each item row is
 * drawn at, when a new page starts, and where the totals block lands. PDF content streams,
 * fonts and the logo image are not part of it; a document is described by the texts and
 * positions it would draw.
 */
module PdfGenerator {
  import opened Wrappers
  import opened Strings
  import opened Model

  const Margin: real := 40.0
  /** The height of an A4 page in points (297 mm at 72 points per inch). */
  const A4Height: real := 297.0 * 72.0 / 25.4
  const YStart: real := A4Height - Margin
  const RowHeight: real := 20.0
  const HeaderHeight: real := 60.0
  /** The gap below the buyer block (line 117). */
  const BuyerGap: real := 25.0
  /** A row is moved to a new page when the running y is below this (line 154). */
  const RowBreakY: real := Margin + 100.0
  /** The totals block is moved to a new page when y is below this (line 192). */
  const TotalsBreakY: real := Margin + 80.0
  /** Where the running y restarts on a new page (lines 159, 197). */
  const NewPageY: real := YStart - 20.0
  /** The gap above the totals block (line 200) and its line spacing (lines 211, 217). */
  const TotalsGap: real := 10.0
  const TotalsLine: real := 18.0
  const NameWidth := 40
  const NullBillMessage := "bill is null"

  /** The running position: a 0-based page number and the y coordinate on it. */
  datatype Cursor = Cursor(page: nat, y: real)

  /** Lines 93, 117 and 146: below the header, the buyer block and the table header row. */
  const TableTop := Cursor(0, YStart - HeaderHeight - BuyerGap - RowHeight)

  /** Lines 154-160: where the next row is drawn, after the page-break test. */
  function RowSlot(c: Cursor): Cursor {
    if c.y < RowBreakY then Cursor(c.page + 1, NewPageY) else c
  }

  /** The cursor after drawing one row (line 188). */
  function Advance(c: Cursor): Cursor {
    var d := RowSlot(c);
    Cursor(d.page, d.y - RowHeight)
  }

  /** The cursor after the first n rows. */
  function CursorAfter(n: nat): Cursor {
    if n == 0 then TableTop else Advance(CursorAfter(n - 1))
  }

  /** Lines 192-198: where the totals block starts, after its own page-break test. */
  function TotalsSlot(c: Cursor): Cursor {
    if c.y < TotalsBreakY then Cursor(c.page + 1, NewPageY) else c
  }

  /** One drawn item row: its page, its top y and its shortened product name. */
  datatype PdfRow = PdfRow(page: nat, top: real, name: string)

  /** The rows the first n items produce, in list order. */
  function PdfRows(items: seq<BillItem>, n: nat): (r: seq<PdfRow>)
    requires n <= |items|
    reads items
    ensures |r| == n
  {
    if n == 0 then []
    else
      var c := RowSlot(CursorAfter(n - 1));
      PdfRows(items, n - 1) + [PdfRow(c.page, c.y, Abbreviate(items[n - 1].productName, NameWidth))]
  }

  /** Row i is item i, drawn where the cursor stood after the first i rows, past the
      page-break test. */
  lemma {:induction false} PdfRowsAt(items: seq<BillItem>, n: nat, i: nat)
    requires i < n <= |items|
    ensures PdfRows(items, n)[i]
      == PdfRow(RowSlot(CursorAfter(i)).page, RowSlot(CursorAfter(i)).y, Abbreviate(items[i].productName, NameWidth))
  {
    if i < n - 1 {
      PdfRowsAt(items, n - 1, i);
    }
  }

  predicate Above(c: Cursor, floor: real, ceiling: real) {
    floor <= c.y <= ceiling
  }

  /** The running y never falls below TotalsBreakY, and every row is drawn with its top at
      RowBreakY or higher, so its bottom line stays RowBreakY - RowHeight above the page's
      bottom. */
  lemma {:induction false} CursorStaysOnPage(n: nat)
    ensures Above(CursorAfter(n), TotalsBreakY, NewPageY)
    ensures Above(RowSlot(CursorAfter(n)), RowBreakY, NewPageY)
  {
    if n > 0 {
      CursorStaysOnPage(n - 1);
    }
  }

  /** The totals page break can never fire: after the rows y is at least TotalsBreakY. The
      three totals lines then sit at least Margin above the bottom edge. */
  lemma TotalsBreakNeverFires(n: nat)
    ensures TotalsSlot(CursorAfter(n)) == CursorAfter(n)
    ensures CursorAfter(n).y - TotalsGap - 2.0 * TotalsLine >= Margin
  {
    CursorStaysOnPage(n);
  }

  /** A row after another is on a later page or lower on the same page. */
  predicate Before(a: PdfRow, b: PdfRow) {
    a.page < b.page || (a.page == b.page && a.top > b.top)
  }

  lemma NextRowIsAfter(i: nat)
    ensures var a := RowSlot(CursorAfter(i)); var b := RowSlot(CursorAfter(i + 1));
      a.page < b.page || (a.page == b.page && a.y > b.y)
  {
  }

  /** Rows appear in reading order: page by page, top to bottom. */
  lemma {:induction false} RowsInReadingOrder(items: seq<BillItem>, n: nat, i: nat, j: nat)
    requires i < j < n <= |items|
    ensures Before(PdfRows(items, n)[i], PdfRows(items, n)[j])
    decreases j - i
  {
    PdfRowsAt(items, n, i);
    PdfRowsAt(items, n, i + 1);
    NextRowIsAfter(i);
    if i + 1 < j {
      RowsInReadingOrder(items, n, i + 1, j);
    }
  }

  /** The first row's top: 297 mm at 72 points per inch, less the margin, the header, the
      buyer gap and the table header row, is 88505/127 points, just under 697. */
  lemma TableTopBounds()
    ensures 696.0 < TableTop.y < 697.0
  {
    assert A4Height == 106920.0 / 127.0;
    assert TableTop.y == 88505.0 / 127.0;
  }

  /** Without a break, each row sits one row height below the previous one. */
  lemma {:induction false} FirstPageRun(k: nat)
    requires k <= 28
    ensures CursorAfter(k) == Cursor(0, TableTop.y - RowHeight * k as real)
  {
    if k > 0 {
      FirstPageRun(k - 1);
      TableTopBounds();
      assert RowHeight * k as real == RowHeight * (k - 1) as real + RowHeight;
      assert RowHeight * (k - 1) as real <= 540.0;
      var c := CursorAfter(k - 1);
      assert c.y >= RowBreakY;
      assert CursorAfter(k) == Advance(c) == Cursor(0, c.y - RowHeight);
    }
  }

  /** Rows 0 to 27 are drawn on the first page. */
  lemma FirstPageRow(i: nat)
    requires i < 28
    ensures RowSlot(CursorAfter(i)).page == 0
  {
    FirstPageRun(i);
    TableTopBounds();
    assert RowHeight * i as real <= 540.0;
  }

  /** The row after 28 rows opens page 1 at the top (the row count is a parameter so that
      the verifier does not unfold CursorAfter 28 times). */
  lemma SecondPageOpens(n: nat)
    requires n == 28
    ensures RowSlot(CursorAfter(n)) == Cursor(1, NewPageY)
  {
    FirstPageRun(n);
    TableTopBounds();
    assert n as real == 28.0;
    assert CursorAfter(n).y == TableTop.y - 560.0;
  }

  /** The first page holds exactly 28 item rows: row 28 (0-based) opens page 1 at the top. */
  lemma FirstPageHolds28Rows()
    ensures forall i: nat :: i < 28 ==> RowSlot(CursorAfter(i)).page == 0
    ensures RowSlot(CursorAfter(28)) == Cursor(1, NewPageY)
  {
    forall i: nat | i < 28 ensures RowSlot(CursorAfter(i)).page == 0 {
      FirstPageRow(i);
    }
    SecondPageOpens(28);
  }

  /** The totals block: its page, the y of its first line, and the three amounts it shows. */
  datatype TotalsBlock = TotalsBlock(page: nat, y: real, subtotal: real, discountAmount: real, grandTotal: real)

  /** Everything generateBillPDF draws, apart from styling. */
  datatype PdfDocument = PdfDocument(
    shopText: string, billId: int, dateText: string,
    buyerNameText: string, buyerPhoneText: string,
    rows: seq<PdfRow>, totals: TotalsBlock)

  function BuyerNameText(b: Buyer?): string
    reads b
  {
    if b == null then "" else b.name.GetOr("")
  }

  function BuyerPhoneText(b: Buyer?): string
    reads b
  {
    if b == null then "" else b.phone.GetOr("")
  }

  /** Lines 149-189: draws every item once, in list order, starting a new page whenever the
      running y is below RowBreakY; returns the rows and the cursor they leave. */
  method DrawItems(items: seq<BillItem>) returns (rows: seq<PdfRow>, page: nat, y: real)
    ensures rows == PdfRows(items, |items|)
    ensures Cursor(page, y) == CursorAfter(|items|)
  {
    rows := [];
    page := TableTop.page;
    y := TableTop.y;
    for i := 0 to |items|
      invariant rows == PdfRows(items, i)
      invariant Cursor(page, y) == CursorAfter(i)
    {
      if y < RowBreakY {
        page := page + 1;
        y := NewPageY;
      }
      rows := rows + [PdfRow(page, y, Abbreviate(items[i].productName, NameWidth))];
      y := y - RowHeight;
    }
  }

  /** Lines 50-221: a null bill is rejected; otherwise the header texts (null shop name,
      bill date, buyer, buyer name and phone all shown as ""), one row per item in order,
      and the totals block placed after the rows' page-break test. */
  method GenerateBillPdf(bill: Bill?, shopName: Option<string>) returns (r: Result<PdfDocument, string>)
    ensures bill == null <==> r == Failure(NullBillMessage)
    ensures r.Success? ==>
      && r.value.shopText == shopName.GetOr("")
      && r.value.billId == bill.id
      && r.value.dateText == bill.billDate.GetOr("")
      && r.value.buyerNameText == BuyerNameText(bill.buyer)
      && r.value.buyerPhoneText == BuyerPhoneText(bill.buyer)
      && r.value.rows == PdfRows(bill.items, |bill.items|)
      && var c := TotalsSlot(CursorAfter(|bill.items|));
         r.value.totals == TotalsBlock(c.page, c.y - TotalsGap, bill.subtotal, bill.discountAmount, bill.grandTotal)
  {
    if bill == null {
      return Failure(NullBillMessage);
    }
    var shopText := if shopName.Some? then shopName.value else "";
    var dateText := if bill.billDate.Some? then bill.billDate.value else "";
    var buyer := bill.buyer;
    var buyerName := if buyer == null then "" else if buyer.name.Some? then buyer.name.value else "";
    var buyerPhone := if buyer == null then "" else if buyer.phone.Some? then buyer.phone.value else "";
    var rows, page, y := DrawItems(bill.items);
    if y < TotalsBreakY {
      page := page + 1;
      y := NewPageY;
    }
    y := y - TotalsGap;
    var totals := TotalsBlock(page, y, bill.subtotal, bill.discountAmount, bill.grandTotal);
    return Success(PdfDocument(shopText, bill.id, dateText, buyerName, buyerPhone, rows, totals));
  }
}
