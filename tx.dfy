/**
 * `withTx`: BEGIN on the shared client, run the body on that same client,
 * then COMMIT and hand back the body's result, or ROLLBACK and rethrow the
 * body's error. The body is written out at each call site between `Begin`
 * and `Commit`, or `Begin` and `Rollback` on its error path.
 */
module Tx {
  import opened Db
  import opened Errors

  /**
   * What a lifecycle operation does, as a function of the tables it
   * started from: the tables it leaves, what it returns or throws, and the
   * transaction statements it issues.
   */
  datatype Outcome<+T> = Outcome(state: Snapshot, result: Result<T>, journal: seq<TxStmt>)

  /** A guard threw before any transaction was opened: nothing is written. */
  function Refused<T>(s: Snapshot, e: Thrown): (o: Outcome<T>)
    ensures o.state == s && o.result.Err? && o.result.thrown == e && o.journal == []
  {
    Outcome(s, Err(e), [])
  }

  /**
   * `withTx(fn)` as a function of the tables at BEGIN, the tables the body
   * left and what the body returned or threw: BEGIN first; a body that
   * returns is committed and its value handed back unchanged; a body that
   * throws is rolled back, none of its writes survive, and the same error
   * is rethrown.
   */
  function WithTx<T>(start: Snapshot, after: Snapshot, body: Result<T>): (o: Outcome<T>)
    ensures |o.journal| == 2 && o.journal[0] == BeginStmt
    ensures o.result == body
    ensures body.Ok? ==> o.state == after && o.journal[1] == CommitStmt
    ensures body.Err? ==> o.state == start && o.journal[1] == RollbackStmt
  {
    if body.Ok? then Outcome(after, body, [BeginStmt, CommitStmt])
    else Outcome(start, body, [BeginStmt, RollbackStmt])
  }

  /** BEGIN: remember the tables so that a rollback can restore them. */
  method Begin(db: Database)
    modifies db`journal, db`savepoint
    ensures db.journal == old(db.journal) + [BeginStmt]
    ensures db.savepoint == db.View()
  {
    db.journal := db.journal + [BeginStmt];
    db.savepoint := db.View();
  }

  /** COMMIT: the body's writes stay. */
  method Commit(db: Database)
    modifies db`journal
    ensures db.journal == old(db.journal) + [CommitStmt]
  {
    db.journal := db.journal + [CommitStmt];
  }

  /** ROLLBACK: every write since BEGIN is undone. */
  method Rollback(db: Database)
    modifies db`journal, db`orders, db`items, db`payments, db`shipments, db`audit, db`outbox
    ensures db.journal == old(db.journal) + [RollbackStmt]
    ensures db.View() == old(db.savepoint)
  {
    db.journal := db.journal + [RollbackStmt];
    db.orders, db.items, db.payments := db.savepoint.orders, db.savepoint.items, db.savepoint.payments;
    db.shipments, db.audit, db.outbox := db.savepoint.shipments, db.savepoint.audit, db.savepoint.outbox;
  }
}
