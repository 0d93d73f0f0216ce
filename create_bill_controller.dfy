/**
 * The bill-entry screen: the editable item table, the discount field and the three total
 * labels it keeps in step, and the save handler that turns the form into a Bill for the DAO.
 * Parsing a double and formatting a number are the opaque functions `parse` and `format`
 * the form is built with.
 */
module CreateBillController {
  import opened Wrappers
  import opened Strings
  import opened Model
  import opened Store
  import opened BillDAO

  /** A Java double as parsing can produce it. */
  datatype JDouble = Finite(r: real) | NaN | PosInf | NegInf

  /** The argument of parseDoubleSafe: null, an object that is already a Number, or
      anything else, known through its toString(). */
  datatype Input = Null | Number(d: JDouble) | Text(s: string)

  /** A text field's getText(), which may be null. */
  function TextInput(text: Option<string>): Input {
    match text
    case None => Null
    case Some(s) => Text(s)
  }

  /** The new value a numeric cell commits: a Double, or null for an empty cell. */
  function EditInput(newValue: Option<real>): Input {
    match newValue
    case None => Null
    case Some(v) => Number(Finite(v))
  }

  /** Lines 137-149: the fallback for null, for text that trims to nothing and for text
      that Double.parseDouble (here `parse`, None for NumberFormatException) rejects. */
  function ParseDoubleSafe(input: Input, fallback: JDouble, parse: string -> Option<JDouble>): (r: JDouble)
    ensures input.Null? ==> r == fallback
    ensures input.Number? ==> r == input.d
    ensures input.Text? && Trim(input.s) == "" ==> r == fallback
    ensures input.Text? && Trim(input.s) != "" && parse(Trim(input.s)).None? ==> r == fallback
    ensures input.Text? && Trim(input.s) != "" && parse(Trim(input.s)).Some? ==> r == parse(Trim(input.s)).value
  {
    match input
    case Null => fallback
    case Number(d) => d
    case Text(s) =>
      var t := Trim(s);
      if t == "" then fallback
      else match parse(t)
        case None => fallback
        case Some(d) => d
  }

  /** Surrounding blanks never change what parseDoubleSafe reads. */
  lemma ParseIgnoresSurroundingBlanks(s: string, fallback: JDouble, parse: string -> Option<JDouble>)
    ensures ParseDoubleSafe(Text(s), fallback, parse) == ParseDoubleSafe(Text(Trim(s)), fallback, parse)
  {
    TrimIdempotent(s);
  }

  /** Lines 121-123: NaN and negatives become 0, values above 100 become 100, and a
      percent already in [0, 100] is kept. */
  function ClampPercent(d: JDouble): (r: real)
    ensures 0.0 <= r <= 100.0
    ensures d.Finite? && 0.0 <= d.r <= 100.0 ==> r == d.r
    ensures d.NaN? || d.NegInf? || (d.Finite? && d.r < 0.0) ==> r == 0.0
    ensures d.PosInf? || (d.Finite? && d.r > 100.0) ==> r == 100.0
  {
    match d
    case NaN => 0.0
    case NegInf => 0.0
    case PosInf => 100.0
    case Finite(x) => if x < 0.0 then 0.0 else if x > 100.0 then 100.0 else x
  }

  /** The discount percent recalcTotals uses: the field's text, parsed with fallback 0, clamped. */
  function DiscountPercent(text: Option<string>, parse: string -> Option<JDouble>): real {
    ClampPercent(ParseDoubleSafe(TextInput(text), Finite(0.0), parse))
  }

  /** Lines 63 and 75: `if (newValue < 0) newValue = 0.0`. NaN compares false and is kept. */
  function ClampEdit(d: JDouble): (r: JDouble)
    ensures !r.NegInf? && (r.Finite? ==> r.r >= 0.0)
    ensures (d.Finite? && d.r >= 0.0) || d.NaN? || d.PosInf? ==> r == d
    ensures d.Finite? ==> r.Finite?
  {
    match d
    case NegInf => Finite(0.0)
    case Finite(x) => if x < 0.0 then Finite(0.0) else d
    case _ => d
  }

  /** The value a quantity or price edit stores: the committed number, or `fallback` for an
      empty cell, with negatives raised to 0. */
  function EditValue(newValue: Option<real>, fallback: real, parse: string -> Option<JDouble>): (r: real)
    ensures r >= 0.0
    ensures newValue.Some? && newValue.value >= 0.0 ==> r == newValue.value
    ensures newValue.Some? && newValue.value < 0.0 ==> r == 0.0
    ensures newValue.None? ==> r == (if fallback < 0.0 then 0.0 else fallback)
  {
    var d := ClampEdit(ParseDoubleSafe(EditInput(newValue), Finite(fallback), parse));
    if d.Finite? then d.r else 0.0
  }

  /** The three numbers recalcTotals shows. */
  datatype Totals = Totals(subtotal: real, discountAmount: real, grandTotal: real)

  /** Lines 125-126: the discount is the percent's share of the subtotal, and the grand
      total what remains. */
  function ComputeTotals(subtotal: real, percent: real): Totals {
    var amount := subtotal * (percent / 100.0);
    Totals(subtotal, amount, subtotal - amount)
  }

  /** The totals of a list of rows under a discount field's text. */
  function FormTotals(items: seq<BillItem>, discountText: Option<string>, parse: string -> Option<JDouble>): Totals
    reads items
  {
    ComputeTotals(SumItemTotals(items), DiscountPercent(discountText, parse))
  }

  /** The discount and the grand total make up the subtotal; with a non-negative subtotal and
      a percent in [0, 100] both lie between 0 and the subtotal. */
  lemma TotalsInRange(subtotal: real, percent: real)
    requires subtotal >= 0.0 && 0.0 <= percent <= 100.0
    ensures var t := ComputeTotals(subtotal, percent);
      && t.discountAmount + t.grandTotal == t.subtotal
      && 0.0 <= t.discountAmount <= t.subtotal
      && 0.0 <= t.grandTotal <= t.subtotal
  {
    var share := percent / 100.0;
    assert 0.0 <= share <= 1.0;
    assert subtotal * share <= subtotal * 1.0;
  }

  /** A bill saved with the totals of a non-negative subtotal and a percent in [0, 100], read
      back by getBillById with the same subtotal: for a positive subtotal it yields that
      discount amount and that percent again (exact arithmetic; the labels' two-decimal
      rounding is not modelled); for a zero subtotal the amount is 0 and the percent reloads
      as 0, whatever percent the form used. */
  lemma SaveReloadDiscount(subtotal: real, percent: real)
    requires subtotal >= 0.0 && 0.0 <= percent <= 100.0
    ensures var t := ComputeTotals(subtotal, percent);
      subtotal > 0.0 ==> DeriveDiscount(t.subtotal, t.grandTotal) == Discount(t.discountAmount, percent)
    ensures var t := ComputeTotals(subtotal, percent);
      subtotal == 0.0 ==> DeriveDiscount(t.subtotal, t.grandTotal) == Discount(0.0, 0.0)
  {
    var t := ComputeTotals(subtotal, percent);
    TotalsInRange(subtotal, percent);
    if subtotal > 0.0 {
      var d := DeriveDiscount(t.subtotal, t.grandTotal);
      assert d.amount == t.discountAmount;
      assert d.percent * subtotal == (subtotal * (percent / 100.0)) * 100.0;
      assert d.percent * subtotal == percent * subtotal;
    }
  }

  /** Items whose quantities and prices are never negative, with their totals bound. */
  ghost predicate NonNegativeItems(items: seq<BillItem>)
    reads items
  {
    forall i :: 0 <= i < |items| ==> items[i].Valid() && items[i].quantity >= 0.0 && items[i].unitPrice >= 0.0
  }

  lemma {:induction false} SubtotalNonNegative(items: seq<BillItem>)
    requires NonNegativeItems(items)
    ensures SumItemTotals(items) >= 0.0
  {
    if |items| > 0 {
      var k := |items| - 1;
      SubtotalNonNegative(items[..k]);
      assert items[k].itemTotal == items[k].quantity * items[k].unitPrice;
    }
  }

  /** What the view's inputs hold, apart from the labels the form computes. */
  datatype Inputs = Inputs(
    items: seq<BillItem>, selected: BillItem?, buyerName: Option<string>, buyerPhone: Option<string>,
    discountText: Option<string>)

  /** ArrayList.remove(Object): drops the first occurrence, if any. */
  function RemoveFirst(s: seq<BillItem>, x: BillItem): (r: seq<BillItem>)
    ensures x !in s ==> r == s
  {
    if |s| == 0 then []
    else if s[0] == x then s[1..]
    else [s[0]] + RemoveFirst(s[1..], x)
  }

  /** The index of the first occurrence. */
  function IndexOf(s: seq<BillItem>, x: BillItem): (i: nat)
    requires x in s
    ensures i < |s| && s[i] == x && x !in s[..i]
  {
    if s[0] == x then 0 else 1 + IndexOf(s[1..], x)
  }

  /** Removing the first occurrence keeps everything before it and after it, in order. */
  lemma {:induction false} RemoveFirstAt(s: seq<BillItem>, x: BillItem)
    requires x in s
    ensures RemoveFirst(s, x) == s[..IndexOf(s, x)] + s[IndexOf(s, x) + 1..]
  {
    if s[0] != x {
      var t := s[1..];
      RemoveFirstAt(t, x);
      var j := IndexOf(t, x);
      assert s[..j + 1] == [s[0]] + t[..j];
      assert s[j + 2..] == t[j + 1..];
    }
  }

  lemma {:induction false} RemoveFirstMultiset(s: seq<BillItem>, x: BillItem)
    requires x in s
    ensures multiset(RemoveFirst(s, x)) == multiset(s) - multiset{x}
    ensures |RemoveFirst(s, x)| == |s| - 1
  {
    if s[0] != x {
      RemoveFirstMultiset(s[1..], x);
      assert s == [s[0]] + s[1..];
    } else {
      assert s == [s[0]] + s[1..];
    }
  }

  lemma {:induction false} RemoveFirstSubset(s: seq<BillItem>, x: BillItem)
    ensures forall y :: y in RemoveFirst(s, x) ==> y in s
  {
    if |s| > 0 && s[0] != x {
      RemoveFirstSubset(s[1..], x);
    }
  }

  lemma AppendKeepsNonNegative(items: seq<BillItem>, row: BillItem)
    requires NonNegativeItems(items)
    requires row.Valid() && row.quantity >= 0.0 && row.unitPrice >= 0.0
    ensures NonNegativeItems(items + [row])
  {
  }

  lemma RemoveKeepsNonNegative(items: seq<BillItem>, x: BillItem)
    requires NonNegativeItems(items)
    ensures NonNegativeItems(RemoveFirst(items, x))
  {
    RemoveFirstSubset(items, x);
    var r := RemoveFirst(items, x);
    forall i | 0 <= i < |r| ensures r[i].Valid() && r[i].quantity >= 0.0 && r[i].unitPrice >= 0.0 {
      assert r[i] in items;
    }
  }

  /** The subtotal, discount and grand total Label controls, as one object holding their texts. */
  class TotalsLabels {
    var subtotal: string
    var discountAmount: string
    var grandTotal: string

    constructor ()
      ensures subtotal == "" && discountAmount == "" && grandTotal == ""
    {
      subtotal, discountAmount, grandTotal := "", "", "";
    }
  }

  class Form {
    /** Double.parseDouble: the value, or None where it throws NumberFormatException. */
    const parse: string -> Option<JDouble>
    /** String.format(Locale.getDefault(), "%.2f", value). */
    const format: real -> string
    var items: seq<BillItem>
    /** The table's selected row, set by the view. */
    var selected: BillItem?
    var buyerName: Option<string>
    var buyerPhone: Option<string>
    var discountText: Option<string>
    const labels: TotalsLabels

    /** Every row's total is bound to its quantity and price, and none is negative. */
    ghost predicate Valid()
      reads this, items
    {
      NonNegativeItems(items)
    }

    function State(): Inputs
      reads this
    {
      Inputs(items, selected, buyerName, buyerPhone, discountText)
    }

    /** The totals of the current rows and discount text. */
    function CurrentTotals(): Totals
      reads this, items
    {
      FormTotals(items, discountText, parse)
    }

    predicate Shows(t: Totals)
      reads labels
    {
      labels.subtotal == format(t.subtotal) && labels.discountAmount == format(t.discountAmount)
      && labels.grandTotal == format(t.grandTotal)
    }

    /** Lines 44-110: empty text fields and one initial row ("", 1.0, 0.0); adding it fires
        the list listener, which fills the labels. */
    constructor Initialize(parse: string -> Option<JDouble>, format: real -> string)
      ensures Valid()
      ensures |items| == 1 && fresh(items[0]) && items[0].State() == ItemState(Some(""), 1.0, 0.0, 0.0)
      ensures selected == null && buyerName == Some("") && buyerPhone == Some("") && discountText == Some("")
      ensures Shows(CurrentTotals())
    {
      this.parse := parse;
      this.format := format;
      var first := new BillItem.Of(Some(""), 1.0, 0.0);
      items := [first];
      selected := null;
      buyerName, buyerPhone, discountText := Some(""), Some(""), Some("");
      labels := new TotalsLabels();
      new;
      assert Valid();
      RecalcTotals();
    }

    /** Lines 119-131: the labels show the sum of the row totals, the clamped discount and
        the grand total, each through `format`. */
    method RecalcTotals()
      modifies labels
      ensures old(Valid()) ==> Valid()
      ensures Shows(CurrentTotals())
    {
      var subtotal := SumItemTotals(items);
      var percent := DiscountPercent(discountText, parse);
      var totals := ComputeTotals(subtotal, percent);
      labels.subtotal, labels.discountAmount, labels.grandTotal :=
        format(totals.subtotal), format(totals.discountAmount), format(totals.grandTotal);
    }

    /** While the form is valid the totals it shows are in range: the discount percent in
        [0, 100], and discount and grand total between 0 and the subtotal. */
    lemma DisplayedTotalsInRange()
      requires Valid()
      ensures 0.0 <= DiscountPercent(discountText, parse) <= 100.0
      ensures var t := CurrentTotals();
        0.0 <= t.subtotal && 0.0 <= t.discountAmount <= t.subtotal && 0.0 <= t.grandTotal <= t.subtotal
    {
      SubtotalNonNegative(items);
      TotalsInRange(SumItemTotals(items), DiscountPercent(discountText, parse));
    }

    /** Line 106: typing in the discount field recomputes the totals. */
    method EditDiscount(text: Option<string>)
      modifies this, labels
      ensures State() == old(State()).(discountText := text)
      ensures Shows(CurrentTotals())
    {
      discountText := text;
      RecalcTotals();
    }

    /** Lines 52-55: a null name is stored as the empty string; totals are not touched. */
    method CommitProductName(item: BillItem, newValue: Option<string>)
      modifies item
      ensures item.State() == old(item.State()).(productName := Some(newValue.GetOr("")))
    {
      item.SetProductName(Some(if newValue.None? then "" else newValue.value));
    }

    /** Lines 60-67: an empty cell becomes 1.0, a negative quantity 0; the row's total
        follows and the labels are recomputed. */
    method CommitQuantity(item: BillItem, newValue: Option<real>)
      requires Valid() && item in items
      modifies item, labels
      ensures item.quantity == EditValue(newValue, 1.0, parse) && item.Valid()
      ensures item.productName == old(item.productName) && item.unitPrice == old(item.unitPrice)
      ensures State() == old(State())
      ensures Valid()
      ensures Shows(CurrentTotals())
    {
      var v := EditValue(newValue, 1.0, parse);
      item.SetQuantity(v);
      ItemEditKeepsValid(items, item);
      RecalcTotals();
    }

    /** Lines 72-79: an empty cell becomes 0.0, a negative price 0; the row's total follows
        and the labels are recomputed. */
    method CommitUnitPrice(item: BillItem, newValue: Option<real>)
      requires Valid() && item in items
      modifies item, labels
      ensures item.unitPrice == EditValue(newValue, 0.0, parse) && item.Valid()
      ensures item.productName == old(item.productName) && item.quantity == old(item.quantity)
      ensures State() == old(State())
      ensures Valid()
      ensures Shows(CurrentTotals())
    {
      var v := EditValue(newValue, 0.0, parse);
      item.SetUnitPrice(v);
      ItemEditKeepsValid(items, item);
      RecalcTotals();
    }

    /** Lines 154-159: a new row ("", 1.0, 0.0) at the end, selected; the list listener
        recomputes the totals. */
    method HandleAddRow()
      requires Valid()
      modifies this, labels
      ensures |items| == |old(items)| + 1 && items[..|old(items)|] == old(items)
      ensures fresh(items[|items| - 1]) && items[|items| - 1].State() == ItemState(Some(""), 1.0, 0.0, 0.0)
      ensures selected == items[|items| - 1]
      ensures buyerName == old(buyerName) && buyerPhone == old(buyerPhone) && discountText == old(discountText)
      ensures Valid()
      ensures Shows(CurrentTotals())
    {
      var row := new BillItem.Of(Some(""), 1.0, 0.0);
      AppendKeepsNonNegative(items, row);
      items := items + [row];
      assert items[..|old(items)|] == old(items);
      selected := items[|items| - 1];
      assert Valid() && row.State() == ItemState(Some(""), 1.0, 0.0, 0.0);
      RecalcTotals();
    }

    /** Lines 162-171: the selected row goes, and the totals with it; with no selection an
        alert is shown and nothing changes. */
    method HandleRemoveSelected() returns (alerted: bool)
      requires Valid()
      modifies this, labels
      ensures alerted <==> old(selected) == null
      ensures old(selected) != null ==> items == RemoveFirst(old(items), old(selected))
      ensures old(selected) == null ==> items == old(items)
      ensures selected == old(selected) && buyerName == old(buyerName) && buyerPhone == old(buyerPhone)
      ensures discountText == old(discountText)
      ensures Valid()
      ensures old(selected) != null && old(selected) in old(items) ==> Shows(CurrentTotals())
      ensures !(old(selected) != null && old(selected) in old(items)) ==>
        labels.subtotal == old(labels.subtotal) && labels.discountAmount == old(labels.discountAmount)
        && labels.grandTotal == old(labels.grandTotal)
    {
      if selected != null {
        alerted := false;
        if selected in items {
          RemoveKeepsNonNegative(items, selected);
          items := RemoveFirst(items, selected);
          RecalcTotals();
        }
      } else {
        alerted := true;
      }
    }

    /** What handleSave hands to saveBill from this form: a buyer exactly when the name or
        the phone is non-blank, the grand total read back from its label, and the rows. */
    function FormSnapshot(): BillSnapshot
      reads this, items, labels
    {
      BillSnapshot(
        if NonBlank(buyerName) || NonBlank(buyerPhone) then Some(BuyerSnapshot(buyerName, buyerPhone)) else None,
        AsReal(ParseDoubleSafe(Text(labels.grandTotal), Finite(0.0), parse)),
        ItemSnapshots(items))
    }

    /** Lines 192-204: a new Bill carrying the label values, the discount field's percent and,
        when the name or the phone is non-blank, a new buyer; no rows yet. */
    method NewBillFromForm() returns (bill: Bill)
      ensures fresh(bill) && bill.items == []
      ensures bill.subtotal == AsReal(ParseDoubleSafe(Text(labels.subtotal), Finite(0.0), parse))
      ensures bill.discountPercent == AsReal(ParseDoubleSafe(TextInput(discountText), Finite(0.0), parse))
      ensures bill.discountAmount == AsReal(ParseDoubleSafe(Text(labels.discountAmount), Finite(0.0), parse))
      ensures bill.grandTotal == AsReal(ParseDoubleSafe(Text(labels.grandTotal), Finite(0.0), parse))
      ensures bill.id == 0 && bill.billDate == None
      ensures bill.buyer != null <==> NonBlank(buyerName) || NonBlank(buyerPhone)
      ensures bill.buyer != null ==> fresh(bill.buyer) && bill.buyer.name == buyerName && bill.buyer.phone == buyerPhone
    {
      bill := new Bill();
      bill.SetSubtotal(AsReal(ParseDoubleSafe(Text(labels.subtotal), Finite(0.0), parse)));
      var discountPercent := ParseDoubleSafe(TextInput(discountText), Finite(0.0), parse);
      bill.SetDiscountPercent(AsReal(discountPercent));
      bill.SetDiscountAmount(AsReal(ParseDoubleSafe(Text(labels.discountAmount), Finite(0.0), parse)));
      bill.SetGrandTotal(AsReal(ParseDoubleSafe(Text(labels.grandTotal), Finite(0.0), parse)));
      if NonBlank(buyerName) || NonBlank(buyerPhone) {
        var buyer := new Buyer.WithContact(buyerName, buyerPhone);
        bill.SetBuyer(buyer);
      }
    }

    /** Lines 192-209: a new Bill with the label values, the buyer and the rows in table
        order, which is the snapshot of the form that saveBill receives. */
    method BuildBill() returns (bill: Bill)
      ensures fresh(bill) && (bill.buyer != null ==> fresh(bill.buyer))
      ensures bill.items == items
      ensures bill.subtotal == AsReal(ParseDoubleSafe(Text(labels.subtotal), Finite(0.0), parse))
      ensures bill.discountPercent == AsReal(ParseDoubleSafe(TextInput(discountText), Finite(0.0), parse))
      ensures bill.discountAmount == AsReal(ParseDoubleSafe(Text(labels.discountAmount), Finite(0.0), parse))
      ensures bill.id == 0 && bill.billDate == None
      ensures Snapshot(bill) == old(FormSnapshot())
    {
      bill := NewBillFromForm();
      AddRows(bill, items);
      ItemSnapshotsUnchanged(items);
    }

    /** Lines 183-226: with no rows nothing is saved; otherwise the bill built from the form
        goes through saveBill, and the outcome is its generated id or its error message. */
    method HandleSave(db: Database, now: string, faults: SaveFaults) returns (outcome: SaveOutcome)
      modifies db
      ensures |items| == 0 ==> outcome == NothingToSave && db.committed == old(db.committed)
      ensures |items| > 0 ==> var o := AttemptSave(old(db.committed), old(FormSnapshot()), now, faults);
        && (o.Success? ==> outcome == Saved(o.value.0) && db.committed == o.value.1)
        && (o.Failure? ==> outcome == SaveFailed(o.error.message) && db.committed == old(db.committed))
      ensures old(WellFormed(db.committed)) ==> WellFormed(db.committed)
    {
      if |items| == 0 {
        return NothingToSave;
      }
      var bill := BuildBill();
      var r := SaveBill(db, bill, now, faults);
      match r
      case Success(id) => outcome := Saved(id);
      case Failure(e) => outcome := SaveFailed(e.message);
    }
  }

  /** Lines 206-209: every row is added to the bill, in table order. */
  method AddRows(bill: Bill, rows: seq<BillItem>)
    modifies bill
    ensures bill.State() == old(bill.State()).(items := old(bill.items) + rows)
  {
    ghost var before := bill.State();
    for i := 0 to |rows|
      invariant bill.State() == before.(items := before.items + rows[..i])
    {
      bill.AddItem(rows[i]);
      assert rows[..i + 1] == rows[..i] + [rows[i]];
    }
    assert rows[..|rows|] == rows;
  }

  /** The alert handleSave ends with, or none when there was nothing to save. */
  datatype SaveOutcome = NothingToSave | Saved(billId: int) | SaveFailed(message: string)

  /** A parsed label as the real a Bill field holds; see README for non-finite values. */
  function AsReal(d: JDouble): real {
    if d.Finite? then d.r else 0.0
  }

  /** Editing one row to non-negative, bound values keeps every row so. */
  lemma ItemEditKeepsValid(items: seq<BillItem>, item: BillItem)
    requires item.Valid() && item.quantity >= 0.0 && item.unitPrice >= 0.0
    requires forall i :: 0 <= i < |items| && items[i] != item ==>
      items[i].Valid() && items[i].quantity >= 0.0 && items[i].unitPrice >= 0.0
    ensures NonNegativeItems(items)
  {
  }

  /** handleSave attaches a buyer exactly when the name or the phone is non-blank, and
      saveBill then writes it. */
  lemma BuyerAttachedIffNonBlank(name: Option<string>, phone: Option<string>)
    ensures var b := if NonBlank(name) || NonBlank(phone) then Some(BuyerSnapshot(name, phone)) else None;
      b.Some? <==> StoresBuyer(b)
  {
  }
}
