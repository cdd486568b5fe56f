/** The database as a value, and each storage operation as one atomic step on
    it: what the statements between BEGIN and COMMIT do, or nothing when they
    roll back.

    Money is a whole number of quanta of 2^-1074 dollars, in which every
    finite double is exact; rounding of sums is the subject of FloatMargin. */
module Store {
  import opened Text
  import opened Clock
  import opened Ledger
  import opened Anchor
  import opened Tamper
  import opened CallParams
  import Json

  type Money = int

  datatype Decision = Pending | AwaitingApproval | Approved | Denied {
    function Name(): string {
      match this
      case Pending => "pending"
      case AwaitingApproval => "awaiting_approval"
      case Approved => "approved"
      case Denied => "denied"
    }

    // CAP_COUNTING_DECISIONS
    predicate Counts() {
      this != Denied
    }
  }

  datatype Request = Request(
    id: nat,
    timestamp: string,
    agent: string,
    action: string,
    amount: Money,
    decision: Decision,
    reason: string,
    txId: Option<string>,
    params: string)

  datatype Db = Db(
    requests: seq<Request>,
    lastId: nat,
    events: seq<Event>,
    anchors: seq<AnchorRow>,
    lastAnchorId: nat,
    backups: seq<Backup>)

  const EMPTY := Db([], 0, [], [], 0, [])

  function Pow2(n: nat): nat {
    if n == 0 then 1 else 2 * Pow2(n - 1)
  }

  const DOLLAR: nat := Pow2(1074)

  // The tolerance of the cap test: the double 1e-9, in quanta.
  const TOLERANCE_EXPONENT: nat := 992
  const TOLERANCE: nat := 4835703278458517 * Pow2(TOLERANCE_EXPONENT)

  // ---- payloads ----

  function ParamsValue(params: Params): Json.Value {
    Json.Obj(map k | k in params :: Json.Str(params[k]))
  }

  function CanonicalParams(params: Params): string {
    Json.Dumps(ParamsValue(params))
  }

  function TxValue(txId: Option<string>): Json.Value {
    match txId
    case None => Json.Null
    case Some(tx) => Json.Str(tx)
  }

  function ReservedFields(id: nat, agent: string, action: string, amount: Money, params: Json.Value, state: Decision): Json.Value {
    Json.Obj(map[
      "request_id" := Json.Num(id), "agent_id" := Json.Str(agent), "action" := Json.Str(action),
      "amount_usd" := Json.Num(amount), "params" := params, "state" := Json.Str(state.Name())])
  }

  function DecidedFields(id: nat, agent: string, action: string, amount: Money, params: Json.Value,
                         decision: Decision, reason: string, txId: Option<string>): Json.Value {
    Json.Obj(map[
      "request_id" := Json.Num(id), "agent_id" := Json.Str(agent), "action" := Json.Str(action),
      "amount_usd" := Json.Num(amount), "params" := params, "decision" := Json.Str(decision.Name()),
      "reason" := Json.Str(reason), "tx_id" := TxValue(txId)])
  }

  function ClearedFields(cleared: nat): Json.Value {
    Json.Obj(map["requests_cleared" := Json.Num(cleared)])
  }

  function AnchorFields(s: int, headHash: string, txId: string): Json.Value {
    Json.Obj(map["seq" := Json.Num(s), "head_hash" := Json.Str(headHash), "tx_id" := Json.Str(txId)])
  }

  const RESERVED := "request.reserved"
  const DECIDED := "request.decided"
  const RESET := "audit.reset"
  const ANCHORED := "audit.anchored"

  // _append_event_locked: one event on the head of the working table.
  function LogEvent(H: HashFn, db: Db, eventType: string, payload: Json.Value, stamp: Instant): Db {
    db.(events := Ledger.Append(H, db.events, Iso(stamp), eventType, Json.Dumps(payload)))
  }

  function LogDecision(H: HashFn, db: Db, r: Request, params: Json.Value, stamp: Instant): Db {
    LogEvent(H, db, DECIDED, DecidedFields(r.id, r.agent, r.action, r.amount, params, r.decision, r.reason, r.txId), stamp)
  }

  // ---- queries ----

  // SELECT COUNT(*) ... WHERE agent_id = agent AND timestamp > cutoff
  function CountSince(rows: seq<Request>, agent: string, cutoff: string): nat {
    if rows == [] then 0
    else
      var r := rows[|rows| - 1];
      CountSince(rows[..|rows| - 1], agent, cutoff) + if r.agent == agent && Less(cutoff, r.timestamp) then 1 else 0
  }

  // What one row adds to an agent's total of a UTC day.
  function Weight(r: Request, agent: string, day: string): Money {
    if r.agent == agent && r.decision.Counts() && |r.timestamp| >= 10 && r.timestamp[..10] == day then r.amount else 0
  }

  // SELECT SUM(amount_usd) over an agent's cap-counting rows of a day
  function SpentOn(rows: seq<Request>, agent: string, day: string): Money {
    if rows == [] then 0
    else SpentOn(rows[..|rows| - 1], agent, day) + Weight(rows[|rows| - 1], agent, day)
  }

  predicate HasRow(rows: seq<Request>, id: nat) {
    exists i :: 0 <= i < |rows| && rows[i].id == id
  }

  function RowIndex(rows: seq<Request>, id: nat): (k: nat)
    requires HasRow(rows, id)
    ensures k < |rows| && rows[k].id == id
  {
    var n := |rows| - 1;
    if rows[n].id == id then n
    else
      assert HasRow(rows[..n], id) by {
        var i :| 0 <= i < |rows| && rows[i].id == id;
        assert rows[..n][i].id == id;
      }
      RowIndex(rows[..n], id)
  }

  // ---- operations ----

  // log_request: a row that never went through a reservation.
  function LogRow(H: HashFn, db: Db, agent: string, action: string, amount: Money, decision: Decision, reason: string,
                  txId: Option<string>, params: Params, now: Instant, stamp: Instant): Db {
    var r := Request(db.lastId + 1, Iso(now), agent, action, amount, decision, reason, txId, CanonicalParams(params));
    LogDecision(H, db.(requests := db.requests + [r], lastId := r.id), r, ParamsValue(params), stamp)
  }

  // As _deny calls it: a denial that never held budget.
  function LogDenial(H: HashFn, db: Db, agent: string, action: string, amount: Money, reason: string, params: Params,
                     now: Instant, stamp: Instant): Db {
    LogRow(H, db, agent, action, amount, Denied, reason, None, params, now, stamp)
  }

  datatype Ask = Ask(
    agent: string,
    action: string,
    amount: Money,
    cap: Money,
    state: Decision,
    params: Params,
    limit: Option<nat>,
    window: nat)

  datatype Reservation =
    | Admitted(row: Request)
    | OverVelocity(recent: nat, limit: nat)
    | OverCap(spent: Money)

  function HoldReason(state: Decision): string {
    if state == Pending then "reserved, awaiting payment settlement" else "reserved, awaiting human approval"
  }

  function ReservedRow(db: Db, ask: Ask, now: Instant): Request {
    Request(db.lastId + 1, Iso(now), ask.agent, ask.action, ask.amount, ask.state, HoldReason(ask.state), None,
            CanonicalParams(ask.params))
  }

  // The two tests of try_reserve, the rate limit first.
  function Test(db: Db, ask: Ask, now: Instant): Reservation
    requires ask.window * US <= now
  {
    var recent := CountSince(db.requests, ask.agent, WindowCutoff(now, ask.window));
    var spent := SpentOn(db.requests, ask.agent, Iso(now)[..10]);
    if ask.limit.Some? && recent >= ask.limit.value then OverVelocity(recent, ask.limit.value)
    else if spent + ask.amount > ask.cap + TOLERANCE then OverCap(spent)
    else Admitted(ReservedRow(db, ask, now))
  }

  function TryReserve(H: HashFn, db: Db, ask: Ask, now: Instant, stamp: Instant): Db
    requires ask.window * US <= now
  {
    match Test(db, ask, now)
    case Admitted(r) =>
      LogEvent(H, db.(requests := db.requests + [r], lastId := r.id), RESERVED,
               ReservedFields(r.id, r.agent, r.action, r.amount, ParamsValue(ask.params), r.decision), stamp)
    case _ => db
  }

  // finalize: no row, or a row whose params do not parse, raises and rolls
  // back. The row's current state is not tested.
  function Finalize(H: HashFn, db: Db, id: nat, decision: Decision, reason: string, txId: Option<string>, stamp: Instant): Option<Db> {
    if !HasRow(db.requests, id) then None
    else
      var k := RowIndex(db.requests, id);
      var r := db.requests[k].(decision := decision, reason := reason, txId := txId);
      match Json.Loads(r.params)
      case None => None
      case Some(params) => Some(LogDecision(H, db.(requests := db.requests[k := r]), r, params, stamp))
  }

  const ABANDONED := "abandoned: the policy engine restarted while this payment was in flight, so its reservation was released"

  predicate Stale(r: Request, cutoff: string) {
    r.decision == Pending && !Less(cutoff, r.timestamp)
  }

  // Selected and resolved in one pass over the rows from i on, each with its
  // own event.
  function ReapFrom(H: HashFn, db: Db, i: nat, cutoff: string, stamp: Instant): Option<Db>
    decreases |db.requests| - i
  {
    if i >= |db.requests| then Some(db)
    else if !Stale(db.requests[i], cutoff) then ReapFrom(H, db, i + 1, cutoff, stamp)
    else
      var r := db.requests[i].(decision := Denied, reason := ABANDONED);
      match Json.Loads(r.params)
      case None => None
      case Some(params) =>
        ReapFrom(H, LogDecision(H, db.(requests := db.requests[i := r]), r.(txId := None), params, stamp), i + 1, cutoff, stamp)
  }

  function Reap(H: HashFn, db: Db, olderThan: nat, now: Instant, stamp: Instant): Option<Db>
    requires olderThan * US <= now
  {
    ReapFrom(H, db, 0, WindowCutoff(now, olderThan), stamp)
  }

  // SELECT ... WHERE decision = 'pending' AND timestamp <= cutoff
  function Picked(rows: seq<Request>, cutoff: string): seq<Request> {
    if rows == [] then []
    else (if Stale(rows[0], cutoff) then [rows[0]] else []) + Picked(rows[1..], cutoff)
  }

  // UPDATE ... WHERE id of one picked row, and an event with what was picked.
  function ReapRow(H: HashFn, db: Db, r: Request, stamp: Instant): Option<Db> {
    match Json.Loads(r.params)
    case None => None
    case Some(params) =>
      Some(LogEvent(H, db.(requests := ReapedTable(db.requests, r)), DECIDED, AbandonedFields(r, params), stamp))
  }

  function ReapedTable(rows: seq<Request>, r: Request): seq<Request> {
    if HasRow(rows, r.id) then
      var k := RowIndex(rows, r.id);
      rows[k := rows[k].(decision := Denied, reason := ABANDONED)]
    else rows
  }

  function AbandonedFields(r: Request, params: Json.Value): Json.Value {
    DecidedFields(r.id, r.agent, r.action, r.amount, params, Denied, ABANDONED, None)
  }

  function ReapRows(H: HashFn, db: Db, picked: seq<Request>, stamp: Instant): Option<Db> {
    if picked == [] then Some(db)
    else
      var n := |picked| - 1;
      match ReapRows(H, db, picked[..n], stamp)
      case None => None
      case Some(mid) => ReapRow(H, mid, picked[n], stamp)
  }

  // AUTOINCREMENT never hands an id out twice, so lastId survives.
  // The count is read before the lock is taken, so it is a parameter.
  function Reset(H: HashFn, db: Db, cleared: nat, stamp: Instant): Db {
    LogEvent(H, db.(requests := []), RESET, ClearedFields(cleared), stamp)
  }

  function RecordAnchor(H: HashFn, db: Db, s: int, headHash: string, txId: string, note: string, stamp: Instant): Db {
    var a := AnchorRow(db.lastAnchorId + 1, s, headHash, txId, note);
    LogEvent(H, db.(anchors := db.anchors + [a], lastAnchorId := a.id), ANCHORED, AnchorFields(s, headHash, txId), stamp)
  }

  // ---- one step of any kind ----

  datatype Op =
    | OpDeny(agent: string, action: string, amount: Money, reason: string, params: Params, now: Instant, stamp: Instant)
    | OpReserve(ask: Ask, now: Instant, stamp: Instant)
    | OpFinalize(id: nat, decision: Decision, reason: string, txId: Option<string>, stamp: Instant)
    | OpReap(olderThan: nat, now: Instant, stamp: Instant)
    | OpReset(cleared: nat, stamp: Instant)
    | OpAnchor(seqNo: int, headHash: string, anchorTx: string, note: string, stamp: Instant)
    | OpEvent(eventType: string, payload: Json.Value, stamp: Instant)

  // What the engine's own calls satisfy: windows that stay on the calendar,
  // no finalize back to pending, reservations that start out unresolved, and
  // bar-free event types that are not one of the store's own.
  predicate Legal(op: Op) {
    match op
    case OpReserve(ask, now, _) =>
      ask.window * US <= now && (ask.state == Pending || ask.state == AwaitingApproval)
    case OpFinalize(_, decision, _, _, _) => decision != Pending
    case OpReap(olderThan, now, _) => olderThan * US <= now
    case OpEvent(t, _, _) => NoBar(t) && t != RESERVED && t != DECIDED && t != RESET
    case _ => true
  }

  function Apply(H: HashFn, db: Db, op: Op): Db
    requires Legal(op)
  {
    match op
    case OpDeny(agent, action, amount, reason, params, now, stamp) =>
      LogDenial(H, db, agent, action, amount, reason, params, now, stamp)
    case OpReserve(ask, now, stamp) => TryReserve(H, db, ask, now, stamp)
    case OpFinalize(id, decision, reason, txId, stamp) =>
      (match Finalize(H, db, id, decision, reason, txId, stamp) case None => db case Some(after) => after)
    case OpReap(olderThan, now, stamp) =>
      (match Reap(H, db, olderThan, now, stamp) case None => db case Some(after) => after)
    case OpReset(cleared, stamp) => Reset(H, db, cleared, stamp)
    case OpAnchor(s, headHash, txId, note, stamp) => RecordAnchor(H, db, s, headHash, txId, note, stamp)
    case OpEvent(t, payload, stamp) => LogEvent(H, db, t, payload, stamp)
  }

  ghost predicate AllLegal(ops: seq<Op>) {
    forall op :: op in ops ==> Legal(op)
  }

  // The database after a run of operations on an empty one.
  function Exec(H: HashFn, ops: seq<Op>): Db
    requires AllLegal(ops)
  {
    if ops == [] then EMPTY
    else Apply(H, Exec(H, ops[..|ops| - 1]), ops[|ops| - 1])
  }
}
