/**
 * BuyerDAO: inserting a buyer inside the caller's transaction or on a connection of its
 * own, and reading one back by id.
 */
module BuyerDAO {
  import opened Wrappers
  import opened Store
  import opened Model

  const NoRowsMessage := "Inserting buyer failed, no rows affected."
  const NoIdMessage := "Inserting buyer failed, no ID obtained."

  /** What `insertBuyer(conn, buyer)` returns and leaves in the tables the connection sees,
      for each way the INSERT can go. */
  function InsertBuyerStep(t: Tables, name: Option<string>, phone: Option<string>, fault: InsertFault)
    : (r: (Result<int, SqlException>, Tables))
    ensures r.0.Success? <==> fault.Inserted?
    ensures r.0.Success? ==> r.0.value == t.buyerSeq + 1
    ensures fault.Inserted? || fault.NoGeneratedKey? ==> r.1 == InsertBuyerRow(t, name, phone)
    ensures fault.Throws? ==> r == (Failure(SqlException(fault.message)), t)
    ensures fault.NoRowsAffected? ==> r == (Failure(SqlException(NoRowsMessage)), t)
    ensures fault.NoGeneratedKey? ==> r.0 == Failure(SqlException(NoIdMessage))
  {
    match fault
    case Inserted => (Success(t.buyerSeq + 1), InsertBuyerRow(t, name, phone))
    case Throws(m) => (Failure(SqlException(m)), t)
    case NoRowsAffected => (Failure(SqlException(NoRowsMessage)), t)
    case NoGeneratedKey => (Failure(SqlException(NoIdMessage)), InsertBuyerRow(t, name, phone))
  }

  /** A successful buyer insert adds exactly one Buyers row, holding the buyer's name and
      phone under a key above every earlier one, and touches no other table. */
  lemma InsertBuyerAddsOneRow(t: Tables, name: Option<string>, phone: Option<string>, fault: InsertFault)
    requires WellFormed(t) && InsertBuyerStep(t, name, phone, fault).0.Success?
    ensures var (res, t2) := InsertBuyerStep(t, name, phone, fault);
      && WellFormed(t2) && HasBuyer(t2, res.value)
      && t2.buyers == t.buyers + [BuyerRow(res.value, name, phone)]
      && (forall i :: 0 <= i < |t.buyers| ==> t.buyers[i].buyerId < res.value)
      && t2.bills == t.bills && t2.billItems == t.billItems
      && t2.billSeq == t.billSeq && t2.itemSeq == t.itemSeq
  {
    InsertBuyerKeepsWellFormed(t, name, phone);
  }

  /** Whatever the outcome, the tables stay well formed. */
  lemma InsertBuyerKeepsStore(t: Tables, name: Option<string>, phone: Option<string>, fault: InsertFault)
    requires WellFormed(t)
    ensures WellFormed(InsertBuyerStep(t, name, phone, fault).1)
  {
    InsertBuyerKeepsWellFormed(t, name, phone);
  }

  /** `insertBuyer(conn, buyer)`: one INSERT on the caller's connection. It neither commits
      nor touches auto-commit, so with auto-commit off the row stays uncommitted and a
      rollback by the caller removes it. */
  method InsertBuyer(conn: Connection, buyer: Buyer, fault: InsertFault) returns (r: Result<int, SqlException>)
    requires conn.Valid()
    modifies conn, conn.db
    ensures conn.Valid() && conn.autoCommit == old(conn.autoCommit)
    ensures (r, conn.view) == InsertBuyerStep(old(conn.view), old(buyer.name), old(buyer.phone), fault)
    ensures conn.db.committed == if conn.autoCommit then conn.view else old(conn.db.committed)
  {
    if fault.Throws? {
      return Failure(SqlException(fault.message));
    }
    if fault.NoRowsAffected? {
      return Failure(SqlException(NoRowsMessage));
    }
    conn.Apply(InsertBuyerRow(conn.view, buyer.name, buyer.phone));
    if fault.NoGeneratedKey? {
      return Failure(SqlException(NoIdMessage));
    }
    r := Success(conn.view.buyerSeq);
  }

  /** `insertBuyer(buyer)`: the same INSERT on a fresh auto-commit connection, so whatever
      it writes is committed at once, outside any transaction of the caller's. */
  method InsertBuyerOwnConnection(db: Database, buyer: Buyer, fault: InsertFault) returns (r: Result<int, SqlException>)
    modifies db
    ensures (r, db.committed) == InsertBuyerStep(old(db.committed), old(buyer.name), old(buyer.phone), fault)
  {
    var conn := new Connection.Open(db);
    r := InsertBuyer(conn, buyer, fault);
  }

  /** `SELECT ... FROM Buyers WHERE buyer_id = ?`: the row with that key, if any. */
  function FindBuyer(rows: seq<BuyerRow>, id: int): (r: Option<BuyerRow>)
    ensures r.Some? ==> r.value in rows && r.value.buyerId == id
    ensures r.None? <==> forall i :: 0 <= i < |rows| ==> rows[i].buyerId != id
  {
    if |rows| == 0 then None
    else if rows[0].buyerId == id then Some(rows[0])
    else FindBuyer(rows[1..], id)
  }

  /** `getBuyerById`: reads the committed tables on its own connection and fills a new
      Buyer through its setters, or returns null when no row has that id. */
  method GetBuyerById(db: Database, buyerId: int) returns (b: Buyer?)
    ensures FindBuyer(db.committed.buyers, buyerId).None? ==> b == null
    ensures FindBuyer(db.committed.buyers, buyerId).Some? ==>
      var row := FindBuyer(db.committed.buyers, buyerId).value;
      b != null && fresh(b) && b.State() == BuyerState(row.buyerId, row.name, row.phone)
  {
    var found := FindBuyer(db.committed.buyers, buyerId);
    if found.None? {
      return null;
    }
    var row := found.value;
    b := new Buyer();
    b.SetId(row.buyerId);
    b.SetName(row.name);
    b.SetPhone(row.phone);
  }
}
