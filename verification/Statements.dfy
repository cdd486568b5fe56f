/** The transactions statement by statement: the change to a table, then the
    event that reads it back. */
module Statements {
  import opened Text
  import opened Clock
  import opened Ledger
  import opened Anchor
  import opened Store
  import Json

  // Written in two statements: everything but an event of its own accord and
  // the sweep.
  predicate TwoPart(op: Op) {
    Legal(op) && !op.OpEvent? && !op.OpReap?
  }

  function DeniedRow(db: Db, op: Op): Request
    requires op.OpDeny?
  {
    Request(db.lastId + 1, Iso(op.now), op.agent, op.action, op.amount, Denied, op.reason, None, CanonicalParams(op.params))
  }

  // The INSERT, UPDATE or DELETE.
  function Change(db: Db, op: Op): Db
    requires TwoPart(op)
  {
    match op
    case OpDeny(_, _, _, _, _, _, _) =>
      db.(requests := db.requests + [DeniedRow(db, op)], lastId := db.lastId + 1)
    case OpReserve(ask, now, _) =>
      db.(requests := db.requests + [ReservedRow(db, ask, now)], lastId := db.lastId + 1)
    case OpFinalize(id, decision, reason, txId, _) =>
      if HasRow(db.requests, id) then
        var k := RowIndex(db.requests, id);
        db.(requests := db.requests[k := db.requests[k].(decision := decision, reason := reason, txId := txId)])
      else db
    case OpReset(_, _) => db.(requests := [])
    case OpAnchor(s, headHash, txId, note, _) =>
      var a := AnchorRow(db.lastAnchorId + 1, s, headHash, txId, note);
      db.(anchors := db.anchors + [a], lastAnchorId := a.id)
  }

  // The event, from the row as it now reads; None is an exception.
  function Entry(db: Db, op: Op): Option<(string, Json.Value)>
    requires TwoPart(op)
  {
    match op
    case OpDeny(_, _, _, _, params, _, _) =>
      if db.requests == [] then None
      else
        var r := db.requests[|db.requests| - 1];
        Some((DECIDED, DecidedFields(r.id, r.agent, r.action, r.amount, ParamsValue(params), r.decision, r.reason, r.txId)))
    case OpReserve(ask, _, _) =>
      if db.requests == [] then None
      else
        var r := db.requests[|db.requests| - 1];
        Some((RESERVED, ReservedFields(r.id, r.agent, r.action, r.amount, ParamsValue(ask.params), r.decision)))
    case OpFinalize(id, _, _, _, _) =>
      if !HasRow(db.requests, id) then None
      else
        var r := db.requests[RowIndex(db.requests, id)];
        (match Json.Loads(r.params)
         case None => None
         case Some(params) =>
           Some((DECIDED, DecidedFields(r.id, r.agent, r.action, r.amount, params, r.decision, r.reason, r.txId))))
    case OpReset(cleared, _) => Some((RESET, ClearedFields(cleared)))
    case OpAnchor(s, headHash, txId, _, _) => Some((ANCHORED, AnchorFields(s, headHash, txId)))
  }

  // Both statements, or a rollback.
  function InTwo(H: HashFn, db: Db, op: Op): Option<Db>
    requires TwoPart(op)
  {
    var changed := Change(db, op);
    match Entry(changed, op)
    case None => None
    case Some((eventType, payload)) => Some(LogEvent(H, changed, eventType, payload, op.stamp))
  }

  lemma {:induction false} UpdatedIndex(rows: seq<Request>, id: nat, r: Request)
    requires HasRow(rows, id) && r.id == id
    ensures var k := RowIndex(rows, id); HasRow(rows[k := r], id) && RowIndex(rows[k := r], id) == k
  {
    var k, n := RowIndex(rows, id), |rows| - 1;
    assert rows[k := r][k].id == id;
    if rows[n].id != id {
      assert HasRow(rows[..n], id) by { assert rows[..n][k] == rows[k]; }
      UpdatedIndex(rows[..n], id, r);
      assert rows[k := r][..n] == rows[..n][k := r];
    }
  }

  // The atomic operation is its two statements.
  lemma AppliesInTwo(H: HashFn, db: Db, op: Op)
    requires TwoPart(op) && (op.OpReserve? ==> Test(db, op.ask, op.now).Admitted?)
    ensures Apply(H, db, op) == match InTwo(H, db, op) case None => db case Some(after) => after
  {
    hide LogEvent;
    hide Json.Loads;
    hide DecidedFields;
    hide ReservedFields;
    hide Iso;
    hide CountSince;
    hide SpentOn;
    hide CanonicalParams;
    match op
    case OpFinalize(id, decision, reason, txId, _) =>
      if HasRow(db.requests, id) {
        var r := db.requests[RowIndex(db.requests, id)].(decision := decision, reason := reason, txId := txId);
        UpdatedIndex(db.requests, id, r);
      }
    case _ =>
  }
}
