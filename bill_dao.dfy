/**
 * BillDAO: saving a bill with its buyer and items in one transaction, listing bills
 * under optional filters, and reloading one bill with its items and derived discount.
 */
module BillDAO {
  import opened Wrappers
  import opened Strings
  import opened Sql
  import opened Store
  import opened Model
  import BuyerDAO

  // ---------------------------------------------------------------- saveBill

  /** What `saveBill` reads from the bill it is given. */
  datatype ItemSnapshot = ItemSnapshot(name: Option<string>, quantity: real, unitPrice: real)
  datatype BuyerSnapshot = BuyerSnapshot(name: Option<string>, phone: Option<string>)
  datatype BillSnapshot = BillSnapshot(buyer: Option<BuyerSnapshot>, grandTotal: real, items: seq<ItemSnapshot>)

  function ItemSnapshots(items: seq<BillItem>): (r: seq<ItemSnapshot>)
    reads items
    ensures |r| == |items|
  {
    if |items| == 0 then []
    else
      var k := |items| - 1;
      ItemSnapshots(items[..k]) + [ItemSnapshot(items[k].productName, items[k].quantity, items[k].unitPrice)]
  }

  /** A row list's snapshots depend only on the rows' own fields. */
  twostate lemma ItemSnapshotsUnchanged(rows: seq<BillItem>)
    requires forall i :: 0 <= i < |rows| ==> unchanged(rows[i])
    ensures ItemSnapshots(rows) == old(ItemSnapshots(rows))
  {
  }

  lemma {:induction false} ItemSnapshotsAt(items: seq<BillItem>, i: int)
    requires 0 <= i < |items|
    ensures ItemSnapshots(items)[i] == ItemSnapshot(items[i].productName, items[i].quantity, items[i].unitPrice)
  {
    var k := |items| - 1;
    if i < k {
      ItemSnapshotsAt(items[..k], i);
    }
  }

  function Snapshot(bill: Bill): BillSnapshot
    reads bill, bill.buyer, bill.items
  {
    BillSnapshot(
      if bill.buyer == null then None else Some(BuyerSnapshot(bill.buyer.name, bill.buyer.phone)),
      bill.grandTotal,
      ItemSnapshots(bill.items))
  }

  /** A buyer row is written only for a buyer whose name or phone is non-blank. */
  predicate StoresBuyer(b: Option<BuyerSnapshot>) {
    b.Some? && (NonBlank(b.value.name) || NonBlank(b.value.phone))
  }

  /** How the item batch goes: every row is inserted, or the engine fails on row `index`. */
  datatype BatchFault = BatchOk | ItemFails(index: nat, message: string)
  /** Whether Connection.commit throws. */
  datatype CommitFault = CommitOk | CommitFails(message: string)
  /** Whether Connection.setAutoCommit(false), which opens the transaction, throws. */
  datatype SwitchFault = SwitchOk | SwitchFails(message: string)
  /** One outcome per statement of the transaction, and one for switching auto-commit off. */
  datatype SaveFaults = SaveFaults(autoCommitOff: SwitchFault, buyerInsert: InsertFault, billInsert: InsertFault, batch: BatchFault, commit: CommitFault)

  const BillNoRowsMessage := "Creating bill failed, no rows affected."
  const BillNoIdMessage := "Creating bill failed, no ID obtained."
  /** The engine's error for a NULL item_name, which the schema declares NOT NULL. */
  const NotNullMessage := "NOT NULL constraint failed: BillItems.item_name"

  /** The buyer part of the transaction: the buyer id the bill row will carry. */
  function BuyerStep(t: Tables, b: Option<BuyerSnapshot>, fault: InsertFault): (r: Result<(Option<int>, Tables), SqlException>)
    ensures r.Failure? <==> StoresBuyer(b) && !fault.Inserted?
    ensures r.Success? && StoresBuyer(b) ==>
      r.value == (Some(t.buyerSeq + 1), InsertBuyerRow(t, b.value.name, b.value.phone))
    ensures r.Success? && !StoresBuyer(b) ==> r.value == (None, t)
  {
    if StoresBuyer(b) then
      var step := BuyerDAO.InsertBuyerStep(t, b.value.name, b.value.phone, fault);
      if step.0.Failure? then Failure(step.0.error) else Success((Some(step.0.value), step.1))
    else Success((None, t))
  }

  /** The INSERT INTO Bills part: the new bill id. */
  function HeaderStep(t: Tables, now: string, total: real, buyerId: Option<int>, fault: InsertFault)
    : (r: Result<(int, Tables), SqlException>)
    ensures r.Success? <==> fault.Inserted?
    ensures r.Success? ==> r.value == (t.billSeq + 1, InsertBillRow(t, now, total, buyerId))
    ensures fault.Throws? ==> r == Failure(SqlException(fault.message))
    ensures fault.NoRowsAffected? ==> r == Failure(SqlException(BillNoRowsMessage))
    ensures fault.NoGeneratedKey? ==> r == Failure(SqlException(BillNoIdMessage))
  {
    match fault
    case Throws(m) => Failure(SqlException(m))
    case NoRowsAffected => Failure(SqlException(BillNoRowsMessage))
    case NoGeneratedKey => Failure(SqlException(BillNoIdMessage))
    case Inserted =>
      var t1 := InsertBillRow(t, now, total, buyerId);
      Success((t1.billSeq, t1))
  }

  /** Every row of the batch is insertable: no NULL name, and no engine failure on it. */
  predicate ItemsInsertable(items: seq<ItemSnapshot>, batch: BatchFault) {
    (forall i :: 0 <= i < |items| ==> items[i].name.Some?) && !(batch.ItemFails? && batch.index < |items|)
  }

  /** The BillItems rows the batch adds for `items`, keyed from `firstId` upwards. */
  function ItemRows(firstId: int, billId: int, items: seq<ItemSnapshot>): (r: seq<ItemRow>)
    ensures |r| == |items|
  {
    if |items| == 0 then []
    else
      var k := |items| - 1;
      ItemRows(firstId, billId, items[..k])
        + [ItemRow(firstId + k, billId, items[k].name.GetOr(""), items[k].quantity, items[k].unitPrice)]
  }

  /** Row i of the batch is item i: keyed `firstId + i`, tied to the bill, with the item's
      name, quantity and unit price. */
  lemma {:induction false} ItemRowsAt(firstId: int, billId: int, items: seq<ItemSnapshot>)
    ensures forall i :: 0 <= i < |items| ==>
      ItemRows(firstId, billId, items)[i]
        == ItemRow(firstId + i, billId, items[i].name.GetOr(""), items[i].quantity, items[i].unitPrice)
  {
    if |items| > 0 {
      var k := |items| - 1;
      ItemRowsAt(firstId, billId, items[..k]);
    }
  }

  lemma ItemsInsertableSnoc(items: seq<ItemSnapshot>, batch: BatchFault)
    requires |items| > 0
    ensures var k := |items| - 1;
      ItemsInsertable(items, batch) <==>
        ItemsInsertable(items[..k], batch) && items[k].name.Some? && !(batch.ItemFails? && batch.index == k)
  {
    var k := |items| - 1;
    assert forall i :: 0 <= i < k ==> items[..k][i] == items[i];
  }

  /** The item batch, row by row in list order; the first row that fails ends it. On success
      the batch has appended one row per item, keyed to the bill, with ascending ids. */
  function ItemsStep(t: Tables, billId: int, items: seq<ItemSnapshot>, batch: BatchFault): (r: Result<Tables, SqlException>)
    ensures r.Success? <==> ItemsInsertable(items, batch)
    ensures r.Success? ==>
      r.value == t.(billItems := t.billItems + ItemRows(t.itemSeq + 1, billId, items), itemSeq := t.itemSeq + |items|)
    ensures r.Failure? ==> r.error.message == NotNullMessage || (batch.ItemFails? && r.error.message == batch.message)
    decreases |items|
  {
    if |items| == 0 then
      assert t.billItems + ItemRows(t.itemSeq + 1, billId, items) == t.billItems;
      Success(t)
    else
      var k := |items| - 1;
      ItemsInsertableSnoc(items, batch);
      match ItemsStep(t, billId, items[..k], batch)
      case Failure(e) => Failure(e)
      case Success(t1) =>
        if batch.ItemFails? && batch.index == k then Failure(SqlException(batch.message))
        else if items[k].name.None? then Failure(SqlException(NotNullMessage))
        else
          Success(InsertItemRow(t1, billId, items[k].name.value, items[k].quantity, items[k].unitPrice))
  }

  /** Item rows keyed to an existing bill keep the store well formed. */
  lemma {:induction false} ItemsStepKeepsWellFormed(t: Tables, billId: int, items: seq<ItemSnapshot>, batch: BatchFault)
    requires WellFormed(t) && HasBill(t, billId) && ItemsStep(t, billId, items, batch).Success?
    ensures WellFormed(ItemsStep(t, billId, items, batch).value)
    ensures HasBill(ItemsStep(t, billId, items, batch).value, billId)
    decreases |items|
  {
    if |items| > 0 {
      var k := |items| - 1;
      ItemsInsertableSnoc(items, batch);
      ItemsStepKeepsWellFormed(t, billId, items[..k], batch);
      var t1 := ItemsStep(t, billId, items[..k], batch).value;
      InsertItemKeepsWellFormed(t1, billId, items[k].name.value, items[k].quantity, items[k].unitPrice);
    }
  }

  /** Once a prefix of the batch fails, the whole batch fails with the same error. */
  lemma {:induction false} ItemsStepPrefixFailure(t: Tables, billId: int, items: seq<ItemSnapshot>, k: nat, batch: BatchFault)
    requires k <= |items|
    requires ItemsStep(t, billId, items[..k], batch).Failure?
    ensures ItemsStep(t, billId, items, batch) == ItemsStep(t, billId, items[..k], batch)
    decreases |items|
  {
    if k == |items| {
      assert items[..k] == items;
    } else {
      var n := |items| - 1;
      assert items[..n][..k] == items[..k];
      ItemsStepPrefixFailure(t, billId, items[..n], k, batch);
    }
  }

  /** Whether auto-commit is switched off and every statement of the transaction goes through. */
  predicate SaveSucceeds(s: BillSnapshot, f: SaveFaults) {
    && f.autoCommitOff.SwitchOk?
    && TransactionSucceeds(s, f)
  }

  /** Whether every statement of the transaction goes through. */
  predicate TransactionSucceeds(s: BillSnapshot, f: SaveFaults) {
    && (StoresBuyer(s.buyer) ==> f.buyerInsert.Inserted?)
    && f.billInsert.Inserted?
    && ItemsInsertable(s.items, f.batch)
    && f.commit.CommitOk?
  }

  /** `after` is `before` plus one bill row `billId`, above every earlier key, stamped `now`
      with the snapshot's grand total, pointing at a buyer exactly when one is stored. */
  ghost predicate SavedBill(before: Tables, after: Tables, billId: int, s: BillSnapshot, now: string) {
    && |after.bills| == |before.bills| + 1
    && after.bills[..|before.bills|] == before.bills
    && (forall i :: 0 <= i < |before.bills| ==> before.bills[i].billId < billId)
    && var row := after.bills[|before.bills|];
    && row.billId == billId && row.billDate == now && row.totalAmount == s.grandTotal
    && (row.buyerId.Some? <==> StoresBuyer(s.buyer))
  }

  /** A stored buyer is one new Buyers row, above every earlier key, that the new bill points at;
      otherwise the Buyers table is untouched. */
  ghost predicate SavedBuyer(before: Tables, after: Tables, s: BillSnapshot) {
    && |after.bills| == |before.bills| + 1
    && var buyerId := after.bills[|before.bills|].buyerId;
    && (StoresBuyer(s.buyer) ==>
          && buyerId.Some?
          && after.buyers == before.buyers + [BuyerRow(buyerId.value, s.buyer.value.name, s.buyer.value.phone)]
          && forall i :: 0 <= i < |before.buyers| ==> before.buyers[i].buyerId < buyerId.value)
    && (!StoresBuyer(s.buyer) ==> after.buyers == before.buyers && after.buyerSeq == before.buyerSeq)
  }

  /** One new BillItems row per item, in list order, keyed to the bill. */
  ghost predicate SavedItems(before: Tables, after: Tables, billId: int, s: BillSnapshot) {
    && after.billItems == before.billItems + ItemRows(before.itemSeq + 1, billId, s.items)
    && after.itemSeq == before.itemSeq + |s.items|
  }

  /** `saveBill` on tables `t`: the new bill id and the tables to commit, or the first
      exception, after which the caller rolls back. A failing setAutoCommit(false) (line 30)
      is thrown before any statement runs. */
  function AttemptSave(t: Tables, s: BillSnapshot, now: string, f: SaveFaults): (r: Result<(int, Tables), SqlException>)
    ensures r.Success? <==> SaveSucceeds(s, f)
  {
    if f.autoCommitOff.SwitchFails? then Failure(SqlException(f.autoCommitOff.message))
    else AttemptTransaction(t, s, now, f)
  }

  /** Lines 31-79: the statements of the transaction once auto-commit is off. */
  function AttemptTransaction(t: Tables, s: BillSnapshot, now: string, f: SaveFaults): (r: Result<(int, Tables), SqlException>)
    ensures r.Success? <==> TransactionSucceeds(s, f)
  {
    match BuyerStep(t, s.buyer, f.buyerInsert)
    case Failure(e) => Failure(e)
    case Success((buyerId, t1)) => AfterBuyer(t1, now, s.grandTotal, buyerId, s.items, f)
  }

  /** The rest of the transaction once the buyer id is known: the bill row, the item rows
      and the commit. */
  function AfterBuyer(t1: Tables, now: string, total: real, buyerId: Option<int>, items: seq<ItemSnapshot>, f: SaveFaults)
    : (r: Result<(int, Tables), SqlException>)
    ensures r.Success? <==> f.billInsert.Inserted? && ItemsInsertable(items, f.batch) && f.commit.CommitOk?
  {
    match HeaderStep(t1, now, total, buyerId, f.billInsert)
    case Failure(e) => Failure(e)
    case Success((billId, t2)) =>
      match ItemsStep(t2, billId, items, f.batch)
      case Failure(e) => Failure(e)
      case Success(t3) =>
        if f.commit.CommitFails? then Failure(SqlException(f.commit.message)) else Success((billId, t3))
  }

  /** A successful save leaves the store well formed: fresh ascending keys, and both foreign
      keys pointing at existing rows. */
  lemma SaveKeepsWellFormed(t: Tables, s: BillSnapshot, now: string, f: SaveFaults)
    requires WellFormed(t) && AttemptSave(t, s, now, f).Success?
    ensures WellFormed(AttemptSave(t, s, now, f).value.1)
  {
    var (buyerId, t1) := BuyerStep(t, s.buyer, f.buyerInsert).value;
    var (billId, t2) := HeaderStep(t1, now, s.grandTotal, buyerId, f.billInsert).value;
    var t3 := ItemsStep(t2, billId, s.items, f.batch).value;
    assert AttemptSave(t, s, now, f) == Success((billId, t3));
    if StoresBuyer(s.buyer) {
      InsertBuyerKeepsWellFormed(t, s.buyer.value.name, s.buyer.value.phone);
    }
    InsertBillKeepsWellFormed(t1, now, s.grandTotal, buyerId);
    ItemsStepKeepsWellFormed(t2, billId, s.items, f.batch);
  }

  /** A successful save appends exactly one Bills row, whose fresh key it returns. */
  lemma SaveAddsBill(t: Tables, s: BillSnapshot, now: string, f: SaveFaults)
    requires WellFormed(t) && AttemptSave(t, s, now, f).Success?
    ensures SavedBill(t, AttemptSave(t, s, now, f).value.1, AttemptSave(t, s, now, f).value.0, s, now)
  {
    var (buyerId, t1) := BuyerStep(t, s.buyer, f.buyerInsert).value;
    var (billId, t2) := HeaderStep(t1, now, s.grandTotal, buyerId, f.billInsert).value;
    var t3 := ItemsStep(t2, billId, s.items, f.batch).value;
    assert AttemptSave(t, s, now, f) == Success((billId, t3));
    assert t3.bills == t.bills + [BillRow(billId, now, s.grandTotal, buyerId)];
  }

  /** A successful save writes a Buyers row exactly when the bill's buyer is stored. */
  lemma SaveAddsBuyer(t: Tables, s: BillSnapshot, now: string, f: SaveFaults)
    requires WellFormed(t) && AttemptSave(t, s, now, f).Success?
    ensures SavedBuyer(t, AttemptSave(t, s, now, f).value.1, s)
  {
    var (buyerId, t1) := BuyerStep(t, s.buyer, f.buyerInsert).value;
    var (billId, t2) := HeaderStep(t1, now, s.grandTotal, buyerId, f.billInsert).value;
    var t3 := ItemsStep(t2, billId, s.items, f.batch).value;
    assert AttemptSave(t, s, now, f) == Success((billId, t3));
    assert t3.bills == t.bills + [BillRow(billId, now, s.grandTotal, buyerId)];
  }

  /** A successful save writes one BillItems row per item, in list order. */
  lemma SaveAddsItems(t: Tables, s: BillSnapshot, now: string, f: SaveFaults)
    requires AttemptSave(t, s, now, f).Success?
    ensures SavedItems(t, AttemptSave(t, s, now, f).value.1, AttemptSave(t, s, now, f).value.0, s)
  {
    var (buyerId, t1) := BuyerStep(t, s.buyer, f.buyerInsert).value;
    var (billId, t2) := HeaderStep(t1, now, s.grandTotal, buyerId, f.billInsert).value;
    var t3 := ItemsStep(t2, billId, s.items, f.batch).value;
    assert AttemptSave(t, s, now, f) == Success((billId, t3));
  }

  /** The exception `saveBill` rethrows is the one of the first statement that failed. */
  lemma SaveFailureIsFirstFault(t: Tables, s: BillSnapshot, now: string, f: SaveFaults)
    ensures f.autoCommitOff.SwitchFails? ==>
      AttemptSave(t, s, now, f) == Failure(SqlException(f.autoCommitOff.message))
    ensures f.autoCommitOff.SwitchOk? ==> AttemptSave(t, s, now, f) == AttemptTransaction(t, s, now, f)
    ensures StoresBuyer(s.buyer) && f.buyerInsert.Throws? ==>
      AttemptTransaction(t, s, now, f) == Failure(SqlException(f.buyerInsert.message))
    ensures StoresBuyer(s.buyer) && f.buyerInsert.NoRowsAffected? ==>
      AttemptTransaction(t, s, now, f) == Failure(SqlException(BuyerDAO.NoRowsMessage))
    ensures StoresBuyer(s.buyer) && f.buyerInsert.NoGeneratedKey? ==>
      AttemptTransaction(t, s, now, f) == Failure(SqlException(BuyerDAO.NoIdMessage))
    ensures (StoresBuyer(s.buyer) ==> f.buyerInsert.Inserted?) && f.billInsert.Throws? ==>
      AttemptTransaction(t, s, now, f) == Failure(SqlException(f.billInsert.message))
    ensures (StoresBuyer(s.buyer) ==> f.buyerInsert.Inserted?) && f.billInsert.NoRowsAffected? ==>
      AttemptTransaction(t, s, now, f) == Failure(SqlException(BillNoRowsMessage))
    ensures (StoresBuyer(s.buyer) ==> f.buyerInsert.Inserted?) && f.billInsert.NoGeneratedKey? ==>
      AttemptTransaction(t, s, now, f) == Failure(SqlException(BillNoIdMessage))
    ensures ((StoresBuyer(s.buyer) ==> f.buyerInsert.Inserted?) && f.billInsert.Inserted?
             && !ItemsInsertable(s.items, f.batch)) ==>
      var r := AttemptTransaction(t, s, now, f);
      r.Failure? && (r.error.message == NotNullMessage || (f.batch.ItemFails? && r.error.message == f.batch.message))
    ensures ((StoresBuyer(s.buyer) ==> f.buyerInsert.Inserted?) && f.billInsert.Inserted?
             && ItemsInsertable(s.items, f.batch) && f.commit.CommitFails?) ==>
      AttemptTransaction(t, s, now, f) == Failure(SqlException(f.commit.message))
  {
  }

  /** Whether the transaction gets as far as stamping the bill (the buyer insert, if any,
      succeeded). */
  predicate BuyerStepPasses(s: BillSnapshot, f: SaveFaults) {
    !StoresBuyer(s.buyer) || f.buyerInsert.Inserted?
  }

  /** Whether `saveBill` stamps the bill: auto-commit is switched off and the buyer step passes. */
  predicate StampsDate(s: BillSnapshot, f: SaveFaults) {
    f.autoCommitOff.SwitchOk? && BuyerStepPasses(s, f)
  }

  /** Lines 31-38 of `saveBill`: insert the buyer, inside the transaction, when it is stored. */
  method SaveBuyer(conn: Connection, buyer: Buyer?, fault: InsertFault) returns (r: Result<Option<int>, SqlException>)
    requires conn.Valid() && !conn.autoCommit
    modifies conn, conn.db
    ensures conn.Valid() && !conn.autoCommit && conn.db.committed == old(conn.db.committed)
    ensures var o := BuyerStep(old(conn.view), if buyer == null then None else Some(BuyerSnapshot(buyer.name, buyer.phone)), fault);
      && (o.Success? ==> r == Success(o.value.0) && conn.view == o.value.1)
      && (o.Failure? ==> r == Failure(o.error))
  {
    if buyer != null && (NonBlank(buyer.name) || NonBlank(buyer.phone)) {
      var res := BuyerDAO.InsertBuyer(conn, buyer, fault);
      if res.Failure? {
        return Failure(res.error);
      }
      return Success(Some(res.value));
    }
    r := Success(None);
  }

  /** Lines 44-64 of `saveBill`: insert the bill row and obtain its generated key. */
  method InsertHeader(conn: Connection, now: string, total: real, buyerId: Option<int>, fault: InsertFault)
    returns (r: Result<int, SqlException>)
    requires conn.Valid() && !conn.autoCommit
    modifies conn, conn.db
    ensures conn.Valid() && !conn.autoCommit && conn.db.committed == old(conn.db.committed)
    ensures var o := HeaderStep(old(conn.view), now, total, buyerId, fault);
      && (o.Success? ==> r == Success(o.value.0) && conn.view == o.value.1)
      && (o.Failure? ==> r == Failure(o.error))
  {
    if fault.Throws? {
      return Failure(SqlException(fault.message));
    }
    if fault.NoRowsAffected? {
      return Failure(SqlException(BillNoRowsMessage));
    }
    conn.Apply(InsertBillRow(conn.view, now, total, buyerId));
    if fault.NoGeneratedKey? {
      return Failure(SqlException(BillNoIdMessage));
    }
    r := Success(conn.view.billSeq);
  }

  /** Lines 68-74 of `saveBill`: addBatch collects one row per item, in list order. */
  method AddBatch(items: seq<BillItem>) returns (rows: seq<ItemSnapshot>)
    ensures rows == ItemSnapshots(items)
  {
    rows := [];
    for i := 0 to |items|
      invariant rows == ItemSnapshots(items[..i])
    {
      var item := items[i];
      assert items[..i + 1][..i] == items[..i];
      rows := rows + [ItemSnapshot(item.productName, item.quantity, item.unitPrice)];
    }
    assert items[..|items|] == items;
  }

  /** Line 75 of `saveBill`: executeBatch inserts the collected rows in turn until one
      fails. */
  method ExecuteBatch(conn: Connection, billId: int, rows: seq<ItemSnapshot>, batch: BatchFault)
    returns (r: Result<int, SqlException>)
    requires conn.Valid() && !conn.autoCommit
    modifies conn, conn.db
    ensures conn.Valid() && !conn.autoCommit && conn.db.committed == old(conn.db.committed)
    ensures var o := ItemsStep(old(conn.view), billId, rows, batch);
      && (o.Success? ==> r == Success(|rows|) && conn.view == o.value)
      && (o.Failure? ==> r == Failure(o.error))
  {
    ghost var t := conn.view;
    for i := 0 to |rows|
      invariant conn.Valid() && !conn.autoCommit && conn.db.committed == old(conn.db.committed)
      invariant ItemsStep(t, billId, rows[..i], batch) == Success(conn.view)
    {
      assert rows[..i + 1][..i] == rows[..i];
      if batch.ItemFails? && batch.index == i {
        ItemsStepPrefixFailure(t, billId, rows, i + 1, batch);
        return Failure(SqlException(batch.message));
      }
      if rows[i].name.None? {
        ItemsStepPrefixFailure(t, billId, rows, i + 1, batch);
        return Failure(SqlException(NotNullMessage));
      }
      conn.Apply(InsertItemRow(conn.view, billId, rows[i].name.value, rows[i].quantity, rows[i].unitPrice));
    }
    assert rows[..|rows|] == rows;
    r := Success(|rows|);
  }

  /** Lines 66-76 of `saveBill`: the batch of the bill's items, then its execution. */
  method ExecuteItemBatch(conn: Connection, billId: int, items: seq<BillItem>, batch: BatchFault)
    returns (r: Result<int, SqlException>)
    requires conn.Valid() && !conn.autoCommit
    modifies conn, conn.db
    ensures conn.Valid() && !conn.autoCommit && conn.db.committed == old(conn.db.committed)
    ensures var o := ItemsStep(old(conn.view), billId, old(ItemSnapshots(items)), batch);
      && (o.Success? ==> r == Success(|items|) && conn.view == o.value)
      && (o.Failure? ==> r == Failure(o.error))
  {
    var rows := AddBatch(items);
    r := ExecuteBatch(conn, billId, rows, batch);
  }

  /** The body of the `try` in `saveBill`, on a connection with auto-commit off, up to and
      including the commit. On an exception the connection may hold uncommitted writes. */
  method SaveTransaction(conn: Connection, bill: Bill, now: string, faults: SaveFaults) returns (r: Result<int, SqlException>)
    requires conn.Valid() && !conn.autoCommit
    modifies conn, conn.db, bill
    ensures conn.Valid() && !conn.autoCommit
    ensures var o := AttemptTransaction(old(conn.view), old(Snapshot(bill)), now, faults);
      && (o.Success? ==> r == Success(o.value.0) && conn.db.committed == o.value.1 && conn.view == o.value.1)
      && (o.Failure? ==> r == Failure(o.error) && conn.db.committed == old(conn.db.committed))
    ensures bill.State() ==
      old(bill.State()).(billDate := if BuyerStepPasses(old(Snapshot(bill)), faults) then Some(now) else old(bill.billDate))
  {
    ghost var s := Snapshot(bill);
    var buyerRes := SaveBuyer(conn, bill.buyer, faults.buyerInsert);
    if buyerRes.Failure? {
      return Failure(buyerRes.error);
    }
    bill.SetBillDate(Some(now));
    ItemSnapshotsUnchanged(bill.items);
    r := SaveAfterBuyer(conn, bill.billDate.value, bill.grandTotal, buyerRes.value, bill.items, faults);
  }

  /** Lines 44-79 of `saveBill`: the bill row, the item batch and the commit. */
  method SaveAfterBuyer(conn: Connection, now: string, total: real, buyerId: Option<int>, items: seq<BillItem>, faults: SaveFaults)
    returns (r: Result<int, SqlException>)
    requires conn.Valid() && !conn.autoCommit
    modifies conn, conn.db
    ensures conn.Valid() && !conn.autoCommit
    ensures var o := AfterBuyer(old(conn.view), now, total, buyerId, old(ItemSnapshots(items)), faults);
      && (o.Success? ==> r == Success(o.value.0) && conn.db.committed == o.value.1 && conn.view == o.value.1)
      && (o.Failure? ==> r == Failure(o.error) && conn.db.committed == old(conn.db.committed))
  {
    var header := InsertHeader(conn, now, total, buyerId, faults.billInsert);
    if header.Failure? {
      return Failure(header.error);
    }
    var billId := header.value;
    var batch := ExecuteItemBatch(conn, billId, items, faults.batch);
    if batch.Failure? {
      return Failure(batch.error);
    }
    if faults.commit.CommitFails? {
      return Failure(SqlException(faults.commit.message));
    }
    conn.Commit();
    r := Success(billId);
  }

  /** `saveBill` from the point where it holds a connection: remember auto-commit, run the
      transaction, roll back on an exception and restore auto-commit in every case. */
  method SaveOn(conn: Connection, bill: Bill, now: string, faults: SaveFaults) returns (r: Result<int, SqlException>)
    requires conn.Valid()
    modifies conn, conn.db, bill
    ensures conn.Valid() && conn.autoCommit == old(conn.autoCommit)
    ensures var o := AttemptSave(old(conn.view), old(Snapshot(bill)), now, faults);
      && (o.Success? ==> r == Success(o.value.0) && conn.db.committed == o.value.1 && conn.view == o.value.1)
      && (o.Failure? ==> r == Failure(o.error) && conn.db.committed == old(conn.db.committed) && conn.view == old(conn.db.committed))
    ensures bill.State() ==
      old(bill.State()).(billDate := if StampsDate(old(Snapshot(bill)), faults) then Some(now) else old(bill.billDate))
  {
    var previousAutoCommit := conn.autoCommit;
    if faults.autoCommitOff.SwitchFails? {
      r := Failure(SqlException(faults.autoCommitOff.message));
    } else {
      conn.SetAutoCommit(false);
      r := SaveTransaction(conn, bill, now, faults);
    }
    if r.Failure? && !conn.autoCommit {
      conn.Rollback();
    }
    conn.SetAutoCommit(previousAutoCommit);
  }

  /** `saveBill`: the transaction runs on a connection of its own. Other connections see
      either all of its rows or none of them. */
  method SaveBill(db: Database, bill: Bill, now: string, faults: SaveFaults) returns (r: Result<int, SqlException>)
    modifies db, bill
    ensures var o := AttemptSave(old(db.committed), old(Snapshot(bill)), now, faults);
      && (o.Success? ==> r == Success(o.value.0) && db.committed == o.value.1)
      && (o.Failure? ==> r == Failure(o.error) && db.committed == old(db.committed))
    ensures old(WellFormed(db.committed)) ==> WellFormed(db.committed)
    ensures bill.State() ==
      old(bill.State()).(billDate := if StampsDate(old(Snapshot(bill)), faults) then Some(now) else old(bill.billDate))
  {
    ghost var t := db.committed;
    ghost var s := Snapshot(bill);
    var conn := new Connection.Open(db);
    r := SaveOn(conn, bill, now, faults);
    if r.Success? && WellFormed(t) {
      SaveKeepsWellFormed(t, s, now, faults);
    }
  }

  // ------------------------------------------------------- reading back one bill

  /** SELECT ... FROM Bills WHERE bill_id = ?: the row with that key, if any. */
  function FindBill(rows: seq<BillRow>, id: int): (r: Option<BillRow>)
    ensures r.Some? ==> r.value in rows && r.value.billId == id
    ensures r.None? <==> forall i :: 0 <= i < |rows| ==> rows[i].billId != id
  {
    if |rows| == 0 then None
    else if rows[0].billId == id then Some(rows[0])
    else FindBill(rows[1..], id)
  }

  /** SELECT ... FROM BillItems WHERE bill_id = ?, in storage order. */
  function ItemsOf(rows: seq<ItemRow>, billId: int): (r: seq<ItemRow>)
    ensures |r| <= |rows|
  {
    if |rows| == 0 then []
    else
      var k := |rows| - 1;
      ItemsOf(rows[..k], billId) + (if rows[k].billId == billId then [rows[k]] else [])
  }

  /** The selection holds exactly the rows of the bill. */
  lemma {:induction false} ItemsOfSelects(rows: seq<ItemRow>, billId: int)
    ensures forall x :: x in ItemsOf(rows, billId) <==> x in rows && x.billId == billId
  {
    if |rows| > 0 {
      var k := |rows| - 1;
      assert rows == rows[..k] + [rows[k]];
      ItemsOfSelects(rows[..k], billId);
    }
  }

  /** Strictly ascending item_id order. */
  predicate Ascending(rows: seq<ItemRow>) {
    forall i, j :: 0 <= i < j < |rows| ==> rows[i].itemId < rows[j].itemId
  }

  /** Rows stored in ascending item_id order come back in ascending item_id order, so the
      storage-order selection is what ORDER BY item_id ASC returns. */
  lemma {:induction false} ItemsOfAscending(rows: seq<ItemRow>, billId: int)
    requires Ascending(rows)
    ensures Ascending(ItemsOf(rows, billId))
  {
    if |rows| > 0 {
      var k := |rows| - 1;
      ItemsOfAscending(rows[..k], billId);
      ItemsOfSelects(rows[..k], billId);
      var p := ItemsOf(rows[..k], billId);
      var r := ItemsOf(rows, billId);
      assert r == p + (if rows[k].billId == billId then [rows[k]] else []);
      forall i, j | 0 <= i < j < |r| ensures r[i].itemId < r[j].itemId {
        if j < |p| {
          assert r[i] == p[i] && r[j] == p[j];
          assert p[i].itemId < p[j].itemId;
        } else {
          assert r[i] == p[i] && r[j] == rows[k];
          assert p[i] in p;
          assert p[i] in rows[..k];
          var m :| 0 <= m < k && rows[..k][m] == p[i];
          assert rows[m] == p[i];
          assert rows[m].itemId < rows[k].itemId;
        }
      }
    }
  }

  /** Non-decreasing item_id order. */
  predicate SortedById(rows: seq<ItemRow>) {
    forall i, j :: 0 <= i < j < |rows| ==> rows[i].itemId <= rows[j].itemId
  }

  /** Inserts x before the first row whose item_id is not below x's. */
  function InsertById(x: ItemRow, rows: seq<ItemRow>): seq<ItemRow> {
    if |rows| == 0 then [x]
    else if x.itemId <= rows[0].itemId then [x] + rows
    else [rows[0]] + InsertById(x, rows[1..])
  }

  /** ORDER BY item_id ASC, as an insertion sort (ties keep storage order). */
  function SortById(rows: seq<ItemRow>): seq<ItemRow> {
    if |rows| == 0 then [] else InsertById(rows[0], SortById(rows[1..]))
  }

  /** Line 209: the rows `getBillItems` reads, the bill's rows ordered by item_id. */
  function ItemQuery(rows: seq<ItemRow>, billId: int): seq<ItemRow> {
    SortById(ItemsOf(rows, billId))
  }

  lemma {:induction false} InsertByIdPermutes(x: ItemRow, rows: seq<ItemRow>)
    ensures multiset(InsertById(x, rows)) == multiset(rows) + multiset{x}
  {
    if |rows| > 0 && x.itemId > rows[0].itemId {
      InsertByIdPermutes(x, rows[1..]);
      assert rows == [rows[0]] + rows[1..];
    }
  }

  lemma {:induction false} InsertByIdSorted(x: ItemRow, rows: seq<ItemRow>)
    requires SortedById(rows)
    ensures SortedById(InsertById(x, rows))
  {
    if |rows| > 0 && x.itemId > rows[0].itemId {
      InsertByIdSorted(x, rows[1..]);
      var t := InsertById(x, rows[1..]);
      var r := [rows[0]] + t;
      forall i, j | 0 <= i < j < |r| ensures r[i].itemId <= r[j].itemId {
        if i > 0 {
          assert r[i] == t[i - 1] && r[j] == t[j - 1];
        } else if j > 1 {
          assert r[j] == t[j - 1];
          InsertByIdPermutes(x, rows[1..]);
          assert t[j - 1] in multiset(t);
          assert t[j - 1] == x || t[j - 1] in rows[1..];
        }
      }
    }
  }

  /** The item query is sorted by item_id and holds exactly the bill's rows, each as often
      as it is stored. */
  lemma {:induction false} SortByIdCorrect(rows: seq<ItemRow>)
    ensures SortedById(SortById(rows))
    ensures multiset(SortById(rows)) == multiset(rows)
  {
    if |rows| > 0 {
      SortByIdCorrect(rows[1..]);
      InsertByIdSorted(rows[0], SortById(rows[1..]));
      InsertByIdPermutes(rows[0], SortById(rows[1..]));
      assert rows == [rows[0]] + rows[1..];
    }
  }

  /** Rows already in ascending item_id order are left as they are. */
  lemma {:induction false} SortByIdOfAscending(rows: seq<ItemRow>)
    requires Ascending(rows)
    ensures SortById(rows) == rows
  {
    if |rows| > 0 {
      SortByIdOfAscending(rows[1..]);
      assert rows == [rows[0]] + rows[1..];
    }
  }

  /** On a well-formed store the item query is the storage-order selection, strictly
      ascending in item_id. */
  lemma ItemQueryOnWellFormed(t: Tables, billId: int)
    requires WellFormed(t)
    ensures ItemQuery(t.billItems, billId) == ItemsOf(t.billItems, billId)
    ensures Ascending(ItemQuery(t.billItems, billId))
  {
    ItemsOfAscending(t.billItems, billId);
    SortByIdOfAscending(ItemsOf(t.billItems, billId));
  }

  lemma {:induction false} ItemsOfAppend(a: seq<ItemRow>, b: seq<ItemRow>, billId: int)
    ensures ItemsOf(a + b, billId) == ItemsOf(a, billId) + ItemsOf(b, billId)
    decreases |b|
  {
    if |b| == 0 {
      assert a + b == a;
    } else {
      var k := |b| - 1;
      assert (a + b)[..|a| + k] == a + b[..k];
      ItemsOfAppend(a, b[..k], billId);
    }
  }

  lemma {:induction false} ItemsOfNoMatch(rows: seq<ItemRow>, billId: int)
    requires forall i :: 0 <= i < |rows| ==> rows[i].billId != billId
    ensures ItemsOf(rows, billId) == []
  {
    if |rows| > 0 {
      ItemsOfNoMatch(rows[..|rows| - 1], billId);
    }
  }

  lemma {:induction false} ItemsOfAllMatch(rows: seq<ItemRow>, billId: int)
    requires forall i :: 0 <= i < |rows| ==> rows[i].billId == billId
    ensures ItemsOf(rows, billId) == rows
  {
    if |rows| > 0 {
      var k := |rows| - 1;
      ItemsOfAllMatch(rows[..k], billId);
      assert rows == rows[..k] + [rows[k]];
    }
  }

  /** Σ quantity × price over item rows. */
  function RowsTotal(rows: seq<ItemRow>): real {
    if |rows| == 0 then 0.0 else RowsTotal(rows[..|rows| - 1]) + rows[|rows| - 1].quantity * rows[|rows| - 1].price
  }

  /** Σ quantity × unit price over the items of a bill. */
  function LineTotal(items: seq<ItemSnapshot>): real {
    if |items| == 0 then 0.0 else LineTotal(items[..|items| - 1]) + items[|items| - 1].quantity * items[|items| - 1].unitPrice
  }

  lemma {:induction false} RowsTotalOfItemRows(firstId: int, billId: int, items: seq<ItemSnapshot>)
    ensures RowsTotal(ItemRows(firstId, billId, items)) == LineTotal(items)
  {
    if |items| > 0 {
      var k := |items| - 1;
      var rows := ItemRows(firstId, billId, items);
      assert rows[..k] == ItemRows(firstId, billId, items[..k]);
      RowsTotalOfItemRows(firstId, billId, items[..k]);
    }
  }

  /** After a successful save, the bill is found under the returned id, with the save stamp
      and the grand total. */
  lemma SaveThenFindBill(t: Tables, s: BillSnapshot, now: string, f: SaveFaults)
    requires WellFormed(t) && AttemptSave(t, s, now, f).Success?
    ensures var (billId, t3) := AttemptSave(t, s, now, f).value;
      && FindBill(t3.bills, billId).Some?
      && FindBill(t3.bills, billId).value.billDate == now
      && FindBill(t3.bills, billId).value.totalAmount == s.grandTotal
  {
    var (billId, t3) := AttemptSave(t, s, now, f).value;
    SaveAddsBill(t, s, now, f);
    var row := t3.bills[|t.bills|];
    assert row in t3.bills;
    assert t3.bills == t.bills + [row];
    var found := FindBill(t3.bills, billId).value;
    assert found !in t.bills;
  }

  /** The new bill's rows, in storage order, are the saved items. */
  lemma SaveStoresItemRows(t: Tables, s: BillSnapshot, now: string, f: SaveFaults)
    requires WellFormed(t) && AttemptSave(t, s, now, f).Success?
    ensures var (billId, t3) := AttemptSave(t, s, now, f).value;
      && ItemsOf(t3.billItems, billId) == ItemRows(t.itemSeq + 1, billId, s.items)
      && RowsTotal(ItemsOf(t3.billItems, billId)) == LineTotal(s.items)
  {
    var (billId, t3) := AttemptSave(t, s, now, f).value;
    SaveAddsBill(t, s, now, f);
    SaveAddsItems(t, s, now, f);
    var added := ItemRows(t.itemSeq + 1, billId, s.items);
    forall i | 0 <= i < |t.billItems| ensures t.billItems[i].billId != billId {
      var b := t.billItems[i].billId;
      assert HasBill(t, b);
      var j :| 0 <= j < |t.bills| && t.bills[j].billId == b;
    }
    ItemsOfNoMatch(t.billItems, billId);
    ItemRowsAt(t.itemSeq + 1, billId, s.items);
    ItemsOfAllMatch(added, billId);
    ItemsOfAppend(t.billItems, added, billId);
    RowsTotalOfItemRows(t.itemSeq + 1, billId, s.items);
  }

  /** After a successful save, the bill's items read back are exactly the saved items in list
      order, and their Σ quantity × price is the Σ quantity × unit price of the saved items. */
  lemma SaveThenLoadItems(t: Tables, s: BillSnapshot, now: string, f: SaveFaults)
    requires WellFormed(t) && AttemptSave(t, s, now, f).Success?
    ensures var (billId, t3) := AttemptSave(t, s, now, f).value;
      && ItemQuery(t3.billItems, billId) == ItemRows(t.itemSeq + 1, billId, s.items)
      && RowsTotal(ItemQuery(t3.billItems, billId)) == LineTotal(s.items)
  {
    var (billId, t3) := AttemptSave(t, s, now, f).value;
    SaveStoresItemRows(t, s, now, f);
    SaveKeepsWellFormed(t, s, now, f);
    ItemQueryOnWellFormed(t3, billId);
  }

  /** The discount `getBillById` derives from a stored subtotal and grand total. */
  datatype Discount = Discount(amount: real, percent: real)

  /** Lines 194-197: the amount is the shortfall of the grand total below the subtotal, never
      negative; the percent is that amount as a share of a positive subtotal, else 0. */
  function DeriveDiscount(subtotal: real, grandTotal: real): (r: Discount)
    ensures r.amount >= 0.0 && r.amount >= subtotal - grandTotal
    ensures r.amount == 0.0 || r.amount == subtotal - grandTotal
    ensures subtotal > 0.0 ==> r.percent * subtotal == r.amount * 100.0
    ensures subtotal <= 0.0 ==> r.percent == 0.0
  {
    var amount := if subtotal - grandTotal < 0.0 then 0.0 else subtotal - grandTotal;
    Discount(amount, if subtotal > 0.0 then (amount / subtotal) * 100.0 else 0.0)
  }

  /** A non-negative grand total gives a derived percent within [0, 100]. */
  lemma DerivedPercentInRange(subtotal: real, grandTotal: real)
    requires grandTotal >= 0.0
    ensures 0.0 <= DeriveDiscount(subtotal, grandTotal).percent <= 100.0
  {
    var d := DeriveDiscount(subtotal, grandTotal);
    if subtotal > 0.0 {
      assert d.percent == (d.amount / subtotal) * 100.0;
      assert d.amount <= subtotal;
      assert d.percent * subtotal <= subtotal * 100.0;
    }
  }

  /** Each item holds its row's name, quantity and price, with the total bound to their product. */
  ghost predicate Loaded(items: seq<BillItem>, rows: seq<ItemRow>)
    reads items
  {
    && |items| == |rows|
    && forall i :: 0 <= i < |rows| ==>
         items[i].Valid()
         && items[i].State() == ItemState(Some(rows[i].itemName), rows[i].quantity, rows[i].price, rows[i].quantity * rows[i].price)
  }

  /** Lines 216-223 of `getBillItems`: one new BillItem per result row, in result order. */
  method LoadItems(rows: seq<ItemRow>) returns (items: seq<BillItem>)
    ensures Loaded(items, rows)
    ensures forall i :: 0 <= i < |items| ==> fresh(items[i])
  {
    items := [];
    var i := 0;
    while i < |rows|
      invariant 0 <= i <= |rows|
      invariant Loaded(items, rows[..i])
      invariant forall j :: 0 <= j < i ==> fresh(items[j])
    {
      var bi := new BillItem.Of(Some(rows[i].itemName), rows[i].quantity, rows[i].price);
      assert rows[..i + 1] == rows[..i] + [rows[i]];
      items := items + [bi];
      i := i + 1;
    }
    assert rows[..i] == rows;
  }

  /** `getBillItems`: the bill's item rows in ascending item_id order, each as a new BillItem. */
  method GetBillItems(db: Database, billId: int) returns (items: seq<BillItem>)
    ensures Loaded(items, ItemQuery(db.committed.billItems, billId))
    ensures forall i :: 0 <= i < |items| ==> fresh(items[i])
  {
    items := LoadItems(ItemQuery(db.committed.billItems, billId));
  }

  lemma {:induction false} ItemTotalsMatchRows(items: seq<BillItem>, rows: seq<ItemRow>)
    requires Loaded(items, rows)
    ensures SumItemTotals(items) == RowsTotal(rows)
  {
    if |items| > 0 {
      var k := |items| - 1;
      ItemTotalsMatchRows(items[..k], rows[..k]);
    }
  }

  /** Lines 188-198 of `getBillById`: attach the bill's items and derive subtotal and discount. */
  method AttachItems(db: Database, b: Bill)
    modifies b
    ensures var rows := ItemQuery(db.committed.billItems, old(b.id));
      && b.id == old(b.id) && b.billDate == old(b.billDate) && b.grandTotal == old(b.grandTotal) && b.buyer == old(b.buyer)
      && Loaded(b.items, rows) && (forall i :: 0 <= i < |b.items| ==> fresh(b.items[i]))
      && b.subtotal == RowsTotal(rows)
      && Discount(b.discountAmount, b.discountPercent) == DeriveDiscount(RowsTotal(rows), b.grandTotal)
  {
    var items := GetBillItems(db, b.id);
    b.SetItems(items);
    ItemTotalsMatchRows(items, ItemQuery(db.committed.billItems, b.id));
    var subtotal := SumItemTotals(items);
    b.SetSubtotal(subtotal);
    var d := DeriveDiscount(subtotal, b.grandTotal);
    b.SetDiscountAmount(d.amount);
    b.SetDiscountPercent(d.percent);
  }

  /** `getBillById`: null when no bill has the id; otherwise the bill with its buyer (read on
      its own connection, possibly null), its items in ascending item_id order, their summed
      totals as subtotal and the discount derived from subtotal and grand total. */
  method GetBillById(db: Database, billId: int) returns (b: Bill?)
    ensures FindBill(db.committed.bills, billId).None? ==> b == null
    ensures FindBill(db.committed.bills, billId).Some? ==>
      var row := FindBill(db.committed.bills, billId).value;
      var rows := ItemQuery(db.committed.billItems, billId);
      && b != null && fresh(b)
      && b.id == billId && b.billDate == Some(row.billDate) && b.grandTotal == row.totalAmount
      && (row.buyerId.None? ==> b.buyer == null)
      && (row.buyerId.Some? ==> var found := BuyerDAO.FindBuyer(db.committed.buyers, row.buyerId.value);
            && (found.None? ==> b.buyer == null)
            && (found.Some? ==>
                  b.buyer != null && fresh(b.buyer)
                  && b.buyer.State() == BuyerState(found.value.buyerId, found.value.name, found.value.phone)))
      && Loaded(b.items, rows) && (forall i :: 0 <= i < |b.items| ==> fresh(b.items[i]))
      && b.subtotal == RowsTotal(rows)
      && Discount(b.discountAmount, b.discountPercent) == DeriveDiscount(RowsTotal(rows), row.totalAmount)
  {
    var found := FindBill(db.committed.bills, billId);
    if found.None? {
      return null;
    }
    var row := found.value;
    b := new Bill();
    b.SetId(row.billId);
    b.SetBillDate(Some(row.billDate));
    b.SetGrandTotal(row.totalAmount);
    if row.buyerId.Some? {
      var buyer := BuyerDAO.GetBuyerById(db, row.buyerId.value);
      b.SetBuyer(buyer);
    }
    AttachItems(db, b);
  }

  // ---------------------------------------------------------------- getBills

  /** The optional filters of `getBills`; dates are ISO local dates (yyyy-MM-dd). */
  datatype BillsFilter = BillsFilter(billId: Option<int>, buyerName: Option<string>, dateFrom: Option<string>, dateTo: Option<string>)

  /** A statement parameter, bound with setInt or with setString. */
  datatype Param = IntParam(i: int) | TextParam(text: string)

  /** The conditions `getBills` can append to its WHERE clause, each with one placeholder. */
  datatype Condition = BillIdEquals | BuyerNameLike | DateOnOrAfter | DateOnOrBefore

  const SelectPrefix := "SELECT b.bill_id, b.bill_date, b.total_amount, b.buyer_id, br.name AS buyer_name FROM Bills b LEFT JOIN Buyers br ON b.buyer_id = br.buyer_id WHERE 1=1 "
  const OrderSuffix := "ORDER BY b.bill_date DESC"
  /** LocalTime.MIN and LocalTime.MAX as ISO_LOCAL_DATE_TIME prints them after the date: the
      seconds are always printed, the fraction only when it is not zero. */
  const StartOfDay := "T00:00:00"
  const EndOfDay := "T23:59:59.999999999"

  /** The SQL text of a condition up to its placeholder. */
  function ConditionLead(c: Condition): string {
    match c
    case BillIdEquals => "AND b.bill_id = "
    case BuyerNameLike => "AND LOWER(br.name) LIKE "
    case DateOnOrAfter => "AND b.bill_date >= "
    case DateOnOrBefore => "AND b.bill_date <= "
  }

  function ConditionText(c: Condition): string {
    ConditionLead(c) + "? "
  }

  /** The WHERE conditions in the order they were appended. */
  function ClausesText(conds: seq<Condition>): string {
    if |conds| == 0 then "" else ClausesText(conds[..|conds| - 1]) + ConditionText(conds[|conds| - 1])
  }

  function QueryText(conds: seq<Condition>): string {
    SelectPrefix + ClausesText(conds) + OrderSuffix
  }

  /** The position of a condition in the order `getBills` tests its filters. */
  function Rank(c: Condition): nat {
    match c
    case BillIdEquals => 0
    case BuyerNameLike => 1
    case DateOnOrAfter => 2
    case DateOnOrBefore => 3
  }

  /** The conditions a filter contributes: one per present filter, a blank name counting as
      absent, in a fixed order and each at most once. */
  function Conditions(f: BillsFilter): seq<Condition> {
    Optionals(f.billId.Some?, NonBlank(f.buyerName), f.dateFrom.Some?, f.dateTo.Some?)
  }

  function Optional(present: bool, c: Condition): seq<Condition> {
    if present then [c] else []
  }

  lemma ConditionsPresent(f: BillsFilter)
    ensures BillIdEquals in Conditions(f) <==> f.billId.Some?
    ensures BuyerNameLike in Conditions(f) <==> NonBlank(f.buyerName)
    ensures DateOnOrAfter in Conditions(f) <==> f.dateFrom.Some?
    ensures DateOnOrBefore in Conditions(f) <==> f.dateTo.Some?
    ensures forall i, j :: 0 <= i < j < |Conditions(f)| ==> Rank(Conditions(f)[i]) < Rank(Conditions(f)[j])
  {
    OptionalsMembership(f.billId.Some?, NonBlank(f.buyerName), f.dateFrom.Some?, f.dateTo.Some?);
    OptionalsRanked(f.billId.Some?, NonBlank(f.buyerName), f.dateFrom.Some?, f.dateTo.Some?);
  }

  function Optionals(a: bool, b: bool, c: bool, d: bool): seq<Condition> {
    Optional(a, BillIdEquals) + Optional(b, BuyerNameLike) + Optional(c, DateOnOrAfter) + Optional(d, DateOnOrBefore)
  }

  /** Each of the four optional conditions is in the sequence exactly when present. */
  lemma OptionalsMembership(a: bool, b: bool, c: bool, d: bool)
    ensures BillIdEquals in Optionals(a, b, c, d) <==> a
    ensures BuyerNameLike in Optionals(a, b, c, d) <==> b
    ensures DateOnOrAfter in Optionals(a, b, c, d) <==> c
    ensures DateOnOrBefore in Optionals(a, b, c, d) <==> d
  {
  }

  /** Whatever their presence flags, the optional conditions come in rank order. */
  lemma OptionalsRanked(a: bool, b: bool, c: bool, d: bool)
    ensures StrictlyRanked(Optionals(a, b, c, d))
  {
    var s0 := Optional(a, BillIdEquals);
    var s1 := s0 + Optional(b, BuyerNameLike);
    var s2 := s1 + Optional(c, DateOnOrAfter);
    RankedOptional([], a, BillIdEquals);
    assert [] + s0 == s0;
    RankedOptional(s0, b, BuyerNameLike);
    RankedOptional(s1, c, DateOnOrAfter);
    RankedOptional(s2, d, DateOnOrBefore);
  }

  /** Condition ranks strictly increase along the sequence. */
  predicate StrictlyRanked(conds: seq<Condition>) {
    forall i, j :: 0 <= i < j < |conds| ==> Rank(conds[i]) < Rank(conds[j])
  }

  /** Appending an optional condition ranked above all earlier ones keeps the ranks
      increasing. */
  lemma RankedOptional(conds: seq<Condition>, present: bool, c: Condition)
    requires StrictlyRanked(conds)
    requires forall i :: 0 <= i < |conds| ==> Rank(conds[i]) < Rank(c)
    ensures StrictlyRanked(conds + Optional(present, c))
    ensures forall i :: 0 <= i < |conds + Optional(present, c)| ==> Rank((conds + Optional(present, c))[i]) <= Rank(c)
  {
  }

  /** The LIKE pattern for a buyer name: the lower-cased name between two `%`. */
  function NamePattern(name: string): string {
    "%" + AsciiLower(name) + "%"
  }

  /** The value a condition's placeholder takes. */
  function ParamFor(c: Condition, f: BillsFilter): Param {
    match c
    case BillIdEquals => IntParam(f.billId.GetOr(0))
    case BuyerNameLike => TextParam(NamePattern(f.buyerName.GetOr("")))
    case DateOnOrAfter => TextParam(f.dateFrom.GetOr("") + StartOfDay)
    case DateOnOrBefore => TextParam(f.dateTo.GetOr("") + EndOfDay)
  }

  /** The parameter list, one value per condition in the same order. */
  function ParamsOf(conds: seq<Condition>, f: BillsFilter): (r: seq<Param>)
    ensures |r| == |conds|
  {
    if |conds| == 0 then [] else ParamsOf(conds[..|conds| - 1], f) + [ParamFor(conds[|conds| - 1], f)]
  }

  function Params(f: BillsFilter): seq<Param> {
    ParamsOf(Conditions(f), f)
  }

  /** Parameter i is the value of condition i. */
  lemma {:induction false} ParamsAlign(conds: seq<Condition>, f: BillsFilter)
    ensures forall i :: 0 <= i < |conds| ==> ParamsOf(conds, f)[i] == ParamFor(conds[i], f)
  {
    if |conds| > 0 {
      ParamsAlign(conds[..|conds| - 1], f);
    }
  }

  lemma AppendParam(conds: seq<Condition>, c: Condition, f: BillsFilter)
    ensures ParamsOf(conds + [c], f) == ParamsOf(conds, f) + [ParamFor(c, f)]
  {
    assert (conds + [c])[..|conds|] == conds;
  }

  function Occurrences(s: string, c: char): nat {
    if |s| == 0 then 0 else Occurrences(s[..|s| - 1], c) + (if s[|s| - 1] == c then 1 else 0)
  }

  lemma {:induction false} OccurrencesAppend(a: string, b: string, c: char)
    ensures Occurrences(a + b, c) == Occurrences(a, c) + Occurrences(b, c)
    decreases |b|
  {
    if |b| == 0 {
      assert a + b == a;
    } else {
      var k := |b| - 1;
      assert (a + b)[..|a| + k] == a + b[..k];
      OccurrencesAppend(a, b[..k], c);
    }
  }

  lemma {:induction false} OccurrencesAbsent(s: string, c: char)
    requires c !in s
    ensures Occurrences(s, c) == 0
  {
    if |s| > 0 {
      assert s[|s| - 1] in s;
      var k := |s| - 1;
      assert forall x :: x in s[..k] ==> x in s;
      OccurrencesAbsent(s[..k], c);
    }
  }

  lemma LeadHasNoPlaceholder(c: Condition)
    ensures '?' !in ConditionLead(c)
  {
    match c
    case BillIdEquals =>
    case BuyerNameLike =>
    case DateOnOrAfter =>
    case DateOnOrBefore =>
  }

  lemma {:induction false} ClausePlaceholders(conds: seq<Condition>)
    ensures Occurrences(ClausesText(conds), '?') == |conds|
  {
    if |conds| > 0 {
      var k := |conds| - 1;
      var c := conds[k];
      ClausePlaceholders(conds[..k]);
      OccurrencesAppend(ClausesText(conds[..k]), ConditionText(c), '?');
      OccurrencesAppend(ConditionLead(c), "? ", '?');
      LeadHasNoPlaceholder(c);
      OccurrencesAbsent(ConditionLead(c), '?');
      assert Occurrences("? ", '?') == 1 by {
        assert "? "[..1] == "?";
        assert "?"[..0] == "";
      }
    }
  }

  lemma AppendClause(prefix: string, conds: seq<Condition>, c: Condition)
    ensures prefix + ClausesText(conds) + ConditionText(c) == prefix + ClausesText(conds + [c])
  {
    assert (conds + [c])[..|conds|] == conds;
  }

  /** One `if (filter present) { sql.append(...); params.add(...); }` of `getBills`. */
  method AppendIfPresent(present: bool, sql: string, params: seq<Param>, ghost conds: seq<Condition>, c: Condition, p: Param, ghost f: BillsFilter)
    returns (sql': string, params': seq<Param>)
    requires sql == SelectPrefix + ClausesText(conds) && params == ParamsOf(conds, f)
    requires present ==> p == ParamFor(c, f)
    ensures sql' == SelectPrefix + ClausesText(conds + Optional(present, c))
    ensures params' == ParamsOf(conds + Optional(present, c), f)
  {
    if present {
      AppendClause(SelectPrefix, conds, c);
      AppendParam(conds, c, f);
      sql' := sql + ConditionText(c);
      params' := params + [p];
    } else {
      assert conds + Optional(present, c) == conds;
      sql', params' := sql, params;
    }
  }

  /** Lines 101-130 of `getBills`: grow the statement text and the parameter list together,
      one condition for each present filter, a blank buyer name counting as absent. */
  method BuildBillsQuery(f: BillsFilter) returns (sql: string, params: seq<Param>)
    ensures sql == QueryText(Conditions(f)) && params == Params(f)
  {
    ghost var conds: seq<Condition> := [];
    sql := SelectPrefix;
    params := [];
    sql, params := AppendIfPresent(f.billId.Some?, sql, params, conds,
      BillIdEquals, IntParam(f.billId.GetOr(0)), f);
    conds := conds + Optional(f.billId.Some?, BillIdEquals);
    sql, params := AppendIfPresent(NonBlank(f.buyerName), sql, params, conds,
      BuyerNameLike, TextParam(NamePattern(f.buyerName.GetOr(""))), f);
    conds := conds + Optional(NonBlank(f.buyerName), BuyerNameLike);
    sql, params := AppendIfPresent(f.dateFrom.Some?, sql, params, conds,
      DateOnOrAfter, TextParam(f.dateFrom.GetOr("") + StartOfDay), f);
    conds := conds + Optional(f.dateFrom.Some?, DateOnOrAfter);
    sql, params := AppendIfPresent(f.dateTo.Some?, sql, params, conds,
      DateOnOrBefore, TextParam(f.dateTo.GetOr("") + EndOfDay), f);
    conds := conds + Optional(f.dateTo.Some?, DateOnOrBefore);
    assert conds == Conditions(f);
    sql := sql + OrderSuffix;
  }

  /** The placeholder bindings: parameter i at position i + 1. */
  function Bindings(params: seq<Param>): map<int, Param> {
    if |params| == 0 then map[] else Bindings(params[..|params| - 1])[|params| := params[|params| - 1]]
  }

  lemma {:induction false} BindingsAt(params: seq<Param>)
    ensures forall k :: k in Bindings(params) <==> 1 <= k <= |params|
    ensures forall k :: 1 <= k <= |params| ==> Bindings(params)[k] == params[k - 1]
  {
    if |params| > 0 {
      BindingsAt(params[..|params| - 1]);
    }
  }

  /** Lines 135-142 of `getBills`: integers with setInt, anything else as its string. */
  method BindParameters(params: seq<Param>) returns (bound: map<int, Param>)
    ensures forall k :: k in bound <==> 1 <= k <= |params|
    ensures forall k :: 1 <= k <= |params| ==> bound[k] == params[k - 1]
    ensures bound == Bindings(params)
  {
    bound := map[];
    var i := 0;
    while i < |params|
      invariant 0 <= i <= |params|
      invariant bound == Bindings(params[..i])
    {
      assert params[..i + 1][..i] == params[..i];
      var p := params[i];
      if p.IntParam? {
        bound := bound[i + 1 := IntParam(p.i)];
      } else {
        bound := bound[i + 1 := TextParam(p.text)];
      }
      i := i + 1;
    }
    assert params[..i] == params;
    BindingsAt(params);
  }

  /** A row of the LEFT JOIN of Bills with Buyers: the bill and its buyer's name, NULL when
      the bill has no buyer or the buyer row is missing. */
  datatype JoinedRow = JoinedRow(bill: BillRow, buyerName: Option<string>)

  function DateOf(row: JoinedRow): string {
    row.bill.billDate
  }

  function BuyerNameOf(buyers: seq<BuyerRow>, buyerId: Option<int>): Option<string> {
    if buyerId.None? then None
    else match BuyerDAO.FindBuyer(buyers, buyerId.value)
      case None => None
      case Some(b) => b.name
  }

  function Joined(t: Tables): (r: seq<JoinedRow>)
    ensures |r| == |t.bills|
    ensures forall i :: 0 <= i < |t.bills| ==> r[i] == JoinedRow(t.bills[i], BuyerNameOf(t.buyers, t.bills[i].buyerId))
  {
    seq(|t.bills|, i requires 0 <= i < |t.bills| => JoinedRow(t.bills[i], BuyerNameOf(t.buyers, t.bills[i].buyerId)))
  }

  /** How the engine evaluates one condition against a bound value. LOWER and LIKE fold
      ASCII letters only; text compares by code point; NULL satisfies nothing. */
  predicate Holds(c: Condition, p: Param, row: JoinedRow) {
    match c
    case BillIdEquals => p.IntParam? && row.bill.billId == p.i
    case BuyerNameLike => p.TextParam? && row.buyerName.Some? && Like(AsciiLower(row.buyerName.value), p.text)
    case DateOnOrAfter => p.TextParam? && LexLe(p.text, row.bill.billDate)
    case DateOnOrBefore => p.TextParam? && LexLe(row.bill.billDate, p.text)
  }

  /** WHERE 1=1 AND c1 AND c2 ...: condition i reads placeholder i + 1. */
  predicate Where(conds: seq<Condition>, bound: map<int, Param>, row: JoinedRow) {
    forall i :: 0 <= i < |conds| ==> (i + 1) in bound && Holds(conds[i], bound[i + 1], row)
  }

  function Select(rows: seq<JoinedRow>, conds: seq<Condition>, bound: map<int, Param>): seq<JoinedRow> {
    if |rows| == 0 then []
    else
      var k := |rows| - 1;
      Select(rows[..k], conds, bound) + (if Where(conds, bound, rows[k]) then [rows[k]] else [])
  }

  lemma {:induction false} SelectMembers(rows: seq<JoinedRow>, conds: seq<Condition>, bound: map<int, Param>)
    ensures forall x :: x in Select(rows, conds, bound) <==> x in rows && Where(conds, bound, x)
  {
    if |rows| > 0 {
      var k := |rows| - 1;
      assert rows == rows[..k] + [rows[k]];
      SelectMembers(rows[..k], conds, bound);
    }
  }

  /** What the statement `getBills` builds returns, in the order ORDER BY b.bill_date DESC gives. */
  function Listing(t: Tables, f: BillsFilter): seq<JoinedRow> {
    SortDesc(Select(Joined(t), Conditions(f), Bindings(Params(f))), DateOf)
  }

  /** The filter `getBills` means: the conjunction of the present filters, with a
      case-insensitive substring test on the buyer name and whole-day date bounds. */
  ghost predicate MatchesFilter(f: BillsFilter, row: JoinedRow) {
    && (f.billId.Some? ==> row.bill.billId == f.billId.value)
    && (NonBlank(f.buyerName) ==> row.buyerName.Some? && ContainsIgnoringCase(row.buyerName.value, f.buyerName.value))
    && (f.dateFrom.Some? ==> LexLe(f.dateFrom.value + StartOfDay, row.bill.billDate))
    && (f.dateTo.Some? ==> LexLe(row.bill.billDate, f.dateTo.value + EndOfDay))
  }

  /** Each condition, with its own parameter, tests what its filter means. */
  lemma HoldsMeansFilter(f: BillsFilter, c: Condition, row: JoinedRow)
    requires NonBlank(f.buyerName) ==> WildcardFree(f.buyerName.value)
    requires c in Conditions(f)
    ensures Holds(c, ParamFor(c, f), row) <==> MatchesOne(f, c, row)
  {
    if c == BuyerNameLike && row.buyerName.Some? {
      LoweredLikeIsSubstring(row.buyerName.value, f.buyerName.value);
    }
  }

  /** Placeholder i + 1 holds the value of condition i, so the WHERE clause tests each
      condition against its own value. */
  lemma WhereTestsEachCondition(f: BillsFilter, row: JoinedRow)
    ensures Where(Conditions(f), Bindings(Params(f)), row) <==>
      forall c :: c in Conditions(f) ==> Holds(c, ParamFor(c, f), row)
  {
    var conds := Conditions(f);
    var bound := Bindings(Params(f));
    ParamsAlign(conds, f);
    BindingsAt(Params(f));
    if Where(conds, bound, row) {
      forall c | c in conds ensures Holds(c, ParamFor(c, f), row) {
        var i :| 0 <= i < |conds| && conds[i] == c;
        assert Holds(conds[i], bound[i + 1], row);
      }
    }
  }

  /** The WHERE clause `getBills` builds, with the parameters it binds, selects exactly the
      rows the filter means, provided the name holds no LIKE wildcard. */
  lemma WhereIsFilter(f: BillsFilter, row: JoinedRow)
    requires NonBlank(f.buyerName) ==> WildcardFree(f.buyerName.value)
    ensures Where(Conditions(f), Bindings(Params(f)), row) <==> MatchesFilter(f, row)
  {
    WhereTestsEachCondition(f, row);
    forall c | c in Conditions(f) ensures Holds(c, ParamFor(c, f), row) <==> MatchesOne(f, c, row) {
      HoldsMeansFilter(f, c, row);
    }
    if MatchesFilter(f, row) {
      FilterMatchesEach(f, row);
    } else if forall c :: c in Conditions(f) ==> MatchesOne(f, c, row) {
      AllConditionsMatch(f, row);
    }
  }

  lemma FilterMatchesEach(f: BillsFilter, row: JoinedRow)
    requires MatchesFilter(f, row)
    ensures forall c :: c in Conditions(f) ==> MatchesOne(f, c, row)
  {
    ConditionsPresent(f);
  }

  /** What condition `c` of `f` means for a row. */
  ghost predicate MatchesOne(f: BillsFilter, c: Condition, row: JoinedRow)
    requires c in Conditions(f)
  {
    match c
    case BillIdEquals => row.bill.billId == f.billId.value
    case BuyerNameLike => row.buyerName.Some? && ContainsIgnoringCase(row.buyerName.value, f.buyerName.value)
    case DateOnOrAfter => LexLe(f.dateFrom.value + StartOfDay, row.bill.billDate)
    case DateOnOrBefore => LexLe(row.bill.billDate, f.dateTo.value + EndOfDay)
  }

  lemma AllConditionsMatch(f: BillsFilter, row: JoinedRow)
    requires forall c :: c in Conditions(f) ==> MatchesOne(f, c, row)
    ensures MatchesFilter(f, row)
  {
    var conds := Conditions(f);
    ConditionsPresent(f);
    if f.billId.Some? { assert BillIdEquals in conds; }
    if NonBlank(f.buyerName) { assert BuyerNameLike in conds; }
    if f.dateFrom.Some? { assert DateOnOrAfter in conds; }
    if f.dateTo.Some? { assert DateOnOrBefore in conds; }
  }

  /** `getBills` returns exactly the joined rows that match the filter, newest first, each
      bill once (a permutation of the matching rows in storage order). */
  lemma ListingIsFilter(t: Tables, f: BillsFilter)
    requires NonBlank(f.buyerName) ==> WildcardFree(f.buyerName.value)
    ensures SortedDesc(Listing(t, f), DateOf)
    ensures multiset(Listing(t, f)) == multiset(Select(Joined(t), Conditions(f), Bindings(Params(f))))
    ensures forall row :: row in Listing(t, f) <==> row in Joined(t) && MatchesFilter(f, row)
  {
    var selected := Select(Joined(t), Conditions(f), Bindings(Params(f)));
    SortDescCorrect(selected, DateOf);
    SelectMembers(Joined(t), Conditions(f), Bindings(Params(f)));
    forall row ensures row in Listing(t, f) <==> row in Joined(t) && MatchesFilter(f, row) {
      assert row in Listing(t, f) <==> row in multiset(Listing(t, f));
      assert row in selected <==> row in multiset(selected);
      WhereIsFilter(f, row);
    }
  }

  /** A listed bill: id, date and grand total from its row, no items, and a buyer holding the
      id and the joined name exactly when the row has a buyer id. */
  ghost predicate ListedAs(b: Bill, row: JoinedRow)
    reads b, b.buyer
  {
    && b.id == row.bill.billId && b.billDate == Some(row.bill.billDate) && b.grandTotal == row.bill.totalAmount
    && b.subtotal == 0.0 && b.discountAmount == 0.0 && b.discountPercent == 0.0 && b.items == []
    && (b.buyer == null <==> row.bill.buyerId.None?)
    && (b.buyer != null ==> b.buyer.State() == BuyerState(row.bill.buyerId.value, row.buyerName, None))
  }

  /** Lines 147-159 of `getBills`: one result row as a new Bill. */
  method BillFromRow(row: JoinedRow) returns (b: Bill)
    ensures fresh(b) && (b.buyer != null ==> fresh(b.buyer))
    ensures ListedAs(b, row)
  {
    b := new Bill();
    b.SetId(row.bill.billId);
    b.SetBillDate(Some(row.bill.billDate));
    b.SetGrandTotal(row.bill.totalAmount);
    if row.bill.buyerId.Some? {
      var buyer := new Buyer();
      buyer.SetId(row.bill.buyerId.value);
      buyer.SetName(row.buyerName);
      b.SetBuyer(buyer);
    }
  }

  /** `getBills`: build and bind the statement, run it on the committed tables and map each
      result row, in result order, to a new Bill. */
  method GetBills(db: Database, f: BillsFilter) returns (out: seq<Bill>)
    ensures |out| == |Listing(db.committed, f)|
    ensures forall i :: 0 <= i < |out| ==> fresh(out[i]) && ListedAs(out[i], Listing(db.committed, f)[i])
  {
    var sql, params := BuildBillsQuery(f);
    var bound := BindParameters(params);
    // The statement text is QueryText(Conditions(f)); executing it yields:
    var rows := SortDesc(Select(Joined(db.committed), Conditions(f), bound), DateOf);
    out := [];
    var i := 0;
    while i < |rows|
      invariant 0 <= i <= |rows| && |out| == i
      invariant forall j :: 0 <= j < i ==> fresh(out[j]) && ListedAs(out[j], rows[j])
    {
      var b := BillFromRow(rows[i]);
      out := out + [b];
      i := i + 1;
    }
  }
}
