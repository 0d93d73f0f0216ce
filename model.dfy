/**
 * The entity model: Buyer, BillItem and Bill, mutable records whose setters each
 * change one field. A BillItem's itemTotal is a live binding to quantity × unitPrice.
 */
module Model {
  import opened Wrappers

  /** The field values of a Buyer. */
  datatype BuyerState = BuyerState(id: int, name: Option<string>, phone: Option<string>)

  class Buyer {
    var id: int
    var name: Option<string>
    var phone: Option<string>

    function State(): BuyerState
      reads this
    {
      BuyerState(id, name, phone)
    }

    /** `new Buyer()`: id 0, no name, no phone. */
    constructor ()
      ensures State() == BuyerState(0, None, None)
    {
      id, name, phone := 0, None, None;
    }

    /** `new Buyer(name, phone)`: the id stays 0 until the row is stored. */
    constructor WithContact(name: Option<string>, phone: Option<string>)
      ensures State() == BuyerState(0, name, phone)
    {
      this.id, this.name, this.phone := 0, name, phone;
    }

    /** `new Buyer(id, name, phone)`. */
    constructor WithId(id: int, name: Option<string>, phone: Option<string>)
      ensures State() == BuyerState(id, name, phone)
    {
      this.id, this.name, this.phone := id, name, phone;
    }

    method SetId(v: int)
      modifies this
      ensures State() == old(State()).(id := v)
    {
      id := v;
    }

    method SetName(v: Option<string>)
      modifies this
      ensures State() == old(State()).(name := v)
    {
      name := v;
    }

    method SetPhone(v: Option<string>)
      modifies this
      ensures State() == old(State()).(phone := v)
    {
      phone := v;
    }
  }

  /** The field values of a BillItem, the bound total included. */
  datatype ItemState = ItemState(productName: Option<string>, quantity: real, unitPrice: real, itemTotal: real)

  class BillItem {
    var productName: Option<string>
    var quantity: real
    var unitPrice: real
    /** Read-only: only the binding below ever writes it. */
    var itemTotal: real

    /** The binding `itemTotal = quantity × unitPrice`. */
    ghost predicate Valid()
      reads this
    {
      itemTotal == quantity * unitPrice
    }

    function State(): ItemState
      reads this
    {
      ItemState(productName, quantity, unitPrice, itemTotal)
    }

    /** `new BillItem()`: name "", quantity 1.0, price 0.0, hence total 0. */
    constructor ()
      ensures Valid()
      ensures State() == ItemState(Some(""), 1.0, 0.0, 0.0)
    {
      productName, quantity, unitPrice := Some(""), 1.0, 0.0;
      itemTotal := 1.0 * 0.0;
    }

    /** `new BillItem(name, quantity, unitPrice)`. */
    constructor Of(name: Option<string>, quantity: real, unitPrice: real)
      ensures Valid()
      ensures State() == ItemState(name, quantity, unitPrice, quantity * unitPrice)
    {
      this.productName, this.quantity, this.unitPrice := name, quantity, unitPrice;
      this.itemTotal := quantity * unitPrice;
    }

    method SetProductName(v: Option<string>)
      modifies this
      ensures State() == old(State()).(productName := v)
    {
      productName := v;
    }

    /** The binding recomputes the total whatever it held before. */
    method SetQuantity(v: real)
      modifies this
      ensures Valid()
      ensures State() == old(State()).(quantity := v, itemTotal := v * old(unitPrice))
    {
      quantity := v;
      itemTotal := quantity * unitPrice;
    }

    method SetUnitPrice(v: real)
      modifies this
      ensures Valid()
      ensures State() == old(State()).(unitPrice := v, itemTotal := old(quantity) * v)
    {
      unitPrice := v;
      itemTotal := quantity * unitPrice;
    }
  }

  /** Σ itemTotal over a list of items (the stream sums of the controller and the DAO). */
  function SumItemTotals(items: seq<BillItem>): real
    reads items
  {
    if |items| == 0 then 0.0 else SumItemTotals(items[..|items| - 1]) + items[|items| - 1].itemTotal
  }

  /** Σ quantity × unitPrice over a list of items. */
  function SumLineProducts(items: seq<BillItem>): real
    reads items
  {
    if |items| == 0 then 0.0
    else SumLineProducts(items[..|items| - 1]) + items[|items| - 1].quantity * items[|items| - 1].unitPrice
  }

  ghost predicate AllValid(items: seq<BillItem>)
    reads items
  {
    forall i :: 0 <= i < |items| ==> items[i].Valid()
  }

  /** With every binding in force, the summed item totals are the summed line products. */
  lemma {:induction false} SumOfBoundTotals(items: seq<BillItem>)
    requires AllValid(items)
    ensures SumItemTotals(items) == SumLineProducts(items)
  {
    if |items| > 0 {
      SumOfBoundTotals(items[..|items| - 1]);
    }
  }

  /** The field values of a Bill. */
  datatype BillState = BillState(
    id: int, billDate: Option<string>, subtotal: real, discountPercent: real,
    discountAmount: real, grandTotal: real, buyer: Buyer?, items: seq<BillItem>)

  class Bill {
    var id: int
    var billDate: Option<string>
    var subtotal: real
    var discountPercent: real
    var discountAmount: real
    var grandTotal: real
    var buyer: Buyer?
    var items: seq<BillItem>

    function State(): BillState
      reads this
    {
      BillState(id, billDate, subtotal, discountPercent, discountAmount, grandTotal, buyer, items)
    }

    /** `new Bill()`: no items, no buyer, no date, zero id and totals. */
    constructor ()
      ensures State() == BillState(0, None, 0.0, 0.0, 0.0, 0.0, null, [])
    {
      id, billDate, buyer, items := 0, None, null, [];
      subtotal, discountPercent, discountAmount, grandTotal := 0.0, 0.0, 0.0, 0.0;
    }

    method SetId(v: int)
      modifies this
      ensures State() == old(State()).(id := v)
    {
      id := v;
    }

    method SetBillDate(v: Option<string>)
      modifies this
      ensures State() == old(State()).(billDate := v)
    {
      billDate := v;
    }

    method SetSubtotal(v: real)
      modifies this
      ensures State() == old(State()).(subtotal := v)
    {
      subtotal := v;
    }

    method SetDiscountPercent(v: real)
      modifies this
      ensures State() == old(State()).(discountPercent := v)
    {
      discountPercent := v;
    }

    method SetDiscountAmount(v: real)
      modifies this
      ensures State() == old(State()).(discountAmount := v)
    {
      discountAmount := v;
    }

    method SetGrandTotal(v: real)
      modifies this
      ensures State() == old(State()).(grandTotal := v)
    {
      grandTotal := v;
    }

    method SetBuyer(v: Buyer?)
      modifies this
      ensures State() == old(State()).(buyer := v)
    {
      buyer := v;
    }

    /** Replaces the whole list; reading `items` afterwards gives exactly that list. */
    method SetItems(v: seq<BillItem>)
      modifies this
      ensures State() == old(State()).(items := v)
    {
      items := v;
    }

    /** Appends at the end; earlier items keep their places. */
    method AddItem(item: BillItem)
      modifies this
      ensures State() == old(State()).(items := old(items) + [item])
      ensures |items| == |old(items)| + 1 && items[..|old(items)|] == old(items) && items[|items| - 1] == item
    {
      items := items + [item];
    }
  }
}
