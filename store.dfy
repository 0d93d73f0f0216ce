/**
 * The relational store of src/application/DBConnection.java as an in-memory value:
 * the Buyers, Bills and BillItems tables, each with its AUTOINCREMENT counter, and
 * the connection-level transaction state (auto-commit flag, uncommitted writes).
 */
module Store {
  import opened Wrappers

  datatype BuyerRow = BuyerRow(buyerId: int, name: Option<string>, phone: Option<string>)
  datatype BillRow = BillRow(billId: int, billDate: string, totalAmount: real, buyerId: Option<int>)
  datatype ItemRow = ItemRow(itemId: int, billId: int, itemName: string, quantity: real, price: real)

  /** The three tables in storage order, and the last id each AUTOINCREMENT key handed out. */
  datatype Tables = Tables(
    buyers: seq<BuyerRow>, bills: seq<BillRow>, billItems: seq<ItemRow>,
    buyerSeq: int, billSeq: int, itemSeq: int)

  /** An SQLException and its message. */
  datatype SqlException = SqlException(message: string)

  /** How one executeUpdate-with-generated-key goes: it inserts and yields a key, throws,
      affects no row, or inserts a row but yields no key. */
  datatype InsertFault = Inserted | Throws(message: string) | NoRowsAffected | NoGeneratedKey

  function Empty(): Tables {
    Tables([], [], [], 0, 0, 0)
  }

  predicate HasBuyer(t: Tables, id: int) {
    exists i :: 0 <= i < |t.buyers| && t.buyers[i].buyerId == id
  }

  predicate HasBill(t: Tables, id: int) {
    exists i :: 0 <= i < |t.bills| && t.bills[i].billId == id
  }

  /** The store's invariant: keys are positive, strictly increasing in storage order and
      never above their counter, and both foreign keys point at existing rows. */
  predicate WellFormed(t: Tables) {
    && 0 <= t.buyerSeq && 0 <= t.billSeq && 0 <= t.itemSeq
    && (forall i :: 0 <= i < |t.buyers| ==> 0 < t.buyers[i].buyerId <= t.buyerSeq)
    && (forall i, j :: 0 <= i < j < |t.buyers| ==> t.buyers[i].buyerId < t.buyers[j].buyerId)
    && (forall i :: 0 <= i < |t.bills| ==> 0 < t.bills[i].billId <= t.billSeq)
    && (forall i, j :: 0 <= i < j < |t.bills| ==> t.bills[i].billId < t.bills[j].billId)
    && (forall i :: 0 <= i < |t.billItems| ==> 0 < t.billItems[i].itemId <= t.itemSeq)
    && (forall i, j :: 0 <= i < j < |t.billItems| ==> t.billItems[i].itemId < t.billItems[j].itemId)
    && (forall i :: 0 <= i < |t.bills| && t.bills[i].buyerId.Some? ==> HasBuyer(t, t.bills[i].buyerId.value))
    && (forall i :: 0 <= i < |t.billItems| ==> HasBill(t, t.billItems[i].billId))
  }

  /** INSERT INTO Buyers: the row takes the next AUTOINCREMENT key. */
  function InsertBuyerRow(t: Tables, name: Option<string>, phone: Option<string>): Tables {
    t.(buyers := t.buyers + [BuyerRow(t.buyerSeq + 1, name, phone)], buyerSeq := t.buyerSeq + 1)
  }

  /** INSERT INTO Bills. The foreign key is not enforced by the engine on this connection,
      so the row is written whatever `buyerId` is. */
  function InsertBillRow(t: Tables, date: string, total: real, buyerId: Option<int>): Tables {
    t.(bills := t.bills + [BillRow(t.billSeq + 1, date, total, buyerId)], billSeq := t.billSeq + 1)
  }

  /** INSERT INTO BillItems (foreign key not enforced either). */
  function InsertItemRow(t: Tables, billId: int, name: string, quantity: real, price: real): Tables {
    t.(billItems := t.billItems + [ItemRow(t.itemSeq + 1, billId, name, quantity, price)], itemSeq := t.itemSeq + 1)
  }

  /** AUTOINCREMENT hands out a key above every key in the table, so a buyer insert keeps
      the store well formed, and the new row is found under its key. */
  lemma InsertBuyerKeepsWellFormed(t: Tables, name: Option<string>, phone: Option<string>)
    requires WellFormed(t)
    ensures WellFormed(InsertBuyerRow(t, name, phone))
    ensures HasBuyer(InsertBuyerRow(t, name, phone), t.buyerSeq + 1)
    ensures forall i :: 0 <= i < |t.buyers| ==> t.buyers[i].buyerId < t.buyerSeq + 1
  {
    var r := InsertBuyerRow(t, name, phone);
    assert r.buyers[|t.buyers|].buyerId == t.buyerSeq + 1;
    forall b | HasBuyer(t, b) ensures HasBuyer(r, b) {
      var i :| 0 <= i < |t.buyers| && t.buyers[i].buyerId == b;
      assert r.buyers[i] == t.buyers[i];
    }
  }

  /** A bill insert whose buyer reference exists keeps the store well formed. */
  lemma InsertBillKeepsWellFormed(t: Tables, date: string, total: real, buyerId: Option<int>)
    requires WellFormed(t)
    requires buyerId.Some? ==> HasBuyer(t, buyerId.value)
    ensures WellFormed(InsertBillRow(t, date, total, buyerId))
    ensures HasBill(InsertBillRow(t, date, total, buyerId), t.billSeq + 1)
    ensures forall i :: 0 <= i < |t.bills| ==> t.bills[i].billId < t.billSeq + 1
  {
    var r := InsertBillRow(t, date, total, buyerId);
    assert r.bills[|t.bills|].billId == t.billSeq + 1;
    forall b | HasBill(t, b) ensures HasBill(r, b) {
      var i :| 0 <= i < |t.bills| && t.bills[i].billId == b;
      assert r.bills[i] == t.bills[i];
    }
    assert forall i :: 0 <= i < |t.bills| && t.bills[i].buyerId.Some? ==> HasBuyer(r, t.bills[i].buyerId.value);
  }

  /** An item insert keyed to an existing bill keeps the store well formed. */
  lemma InsertItemKeepsWellFormed(t: Tables, billId: int, name: string, quantity: real, price: real)
    requires WellFormed(t) && HasBill(t, billId)
    ensures WellFormed(InsertItemRow(t, billId, name, quantity, price))
    ensures forall i :: 0 <= i < |t.billItems| ==> t.billItems[i].itemId < t.itemSeq + 1
  {
  }

  /** The database file: what every newly opened connection reads. */
  class Database {
    var committed: Tables

    constructor (t: Tables)
      ensures committed == t
    {
      committed := t;
    }
  }

  /**
   * A JDBC connection to the database. `view` is what statements on this connection see:
   * the committed tables plus its own uncommitted writes. With auto-commit on, every
   * statement commits at once. One writer at a time is assumed, as the store does.
   */
  class Connection {
    const db: Database
    var autoCommit: bool
    var view: Tables

    /** With auto-commit on there are no uncommitted writes. */
    ghost predicate Valid()
      reads this, db
    {
      autoCommit ==> view == db.committed
    }

    /** DriverManager.getConnection: a new connection starts in auto-commit mode. */
    constructor Open(db: Database)
      ensures this.db == db && Valid()
      ensures autoCommit && view == db.committed
    {
      this.db := db;
      autoCommit := true;
      view := db.committed;
    }

    /** Connection.setAutoCommit: switching it on inside a transaction commits the transaction. */
    method SetAutoCommit(on: bool)
      requires Valid()
      modifies this, db
      ensures Valid() && autoCommit == on && view == old(view)
      ensures db.committed == if on && !old(autoCommit) then old(view) else old(db.committed)
    {
      if on && !autoCommit {
        db.committed := view;
      }
      autoCommit := on;
    }

    /** Connection.commit: the uncommitted writes become visible to every connection. */
    method Commit()
      requires Valid() && !autoCommit
      modifies db
      ensures Valid() && db.committed == view
    {
      db.committed := view;
    }

    /** Connection.rollback: the uncommitted writes are discarded. */
    method Rollback()
      requires Valid() && !autoCommit
      modifies this
      ensures Valid() && view == db.committed && autoCommit == old(autoCommit)
    {
      view := db.committed;
    }

    /** The effect of one executed statement on the tables this connection sees. */
    method Apply(next: Tables)
      requires Valid()
      modifies this, db
      ensures Valid() && view == next && autoCommit == old(autoCommit)
      ensures db.committed == if autoCommit then next else old(db.committed)
    {
      view := next;
      if autoCommit {
        db.committed := next;
      }
    }
  }
}
