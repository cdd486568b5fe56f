/** The requests table as a view of the ledger: replaying the reserved,
    decided and reset events from their stored JSON text rebuilds it. */
module View {
  import opened Text
  import opened Clock
  import opened Ledger
  import opened Store
  import opened CallParams
  import opened Anchor
  import Json

  datatype RowView = RowView(
    id: int,
    agent: string,
    action: string,
    amount: Money,
    params: Json.Value,
    decision: Decision,
    txId: Option<string>)

  // ---- reading an event back ----

  datatype Change = Insert(view: RowView) | Settle(view: RowView) | Clear | Ignore

  function DecisionNamed(name: string): Option<Decision> {
    if name == Pending.Name() then Some(Pending)
    else if name == AwaitingApproval.Name() then Some(AwaitingApproval)
    else if name == Approved.Name() then Some(Approved)
    else if name == Denied.Name() then Some(Denied)
    else None
  }

  predicate HasCommon(m: map<string, Json.Value>) {
    && "request_id" in m && m["request_id"].Num?
    && "agent_id" in m && m["agent_id"].Str?
    && "action" in m && m["action"].Str?
    && "amount_usd" in m && m["amount_usd"].Num?
    && "params" in m
  }

  function Common(m: map<string, Json.Value>, decision: Decision, txId: Option<string>): RowView
    requires HasCommon(m)
  {
    RowView(m["request_id"].n, m["agent_id"].s, m["action"].s, m["amount_usd"].n, m["params"], decision, txId)
  }

  function ReadReserved(m: map<string, Json.Value>): Change {
    if HasCommon(m) && "state" in m && m["state"].Str? && DecisionNamed(m["state"].s).Some?
    then Insert(Common(m, DecisionNamed(m["state"].s).value, None))
    else Ignore
  }

  function ReadDecided(m: map<string, Json.Value>): Change {
    if HasCommon(m) && "decision" in m && m["decision"].Str? && DecisionNamed(m["decision"].s).Some? && "tx_id" in m
    then Settle(Common(m, DecisionNamed(m["decision"].s).value, if m["tx_id"].Str? then Some(m["tx_id"].s) else None))
    else Ignore
  }

  function ReadChange(eventType: string, payload: string): Change {
    if eventType == RESET then Clear
    else if eventType != RESERVED && eventType != DECIDED then Ignore
    else match Json.Loads(payload)
      case Some(Obj(m)) => if eventType == RESERVED then ReadReserved(m) else ReadDecided(m)
      case _ => Ignore
  }

  // ---- replaying the ledger ----

  function Replace(views: seq<RowView>, v: RowView): (r: seq<RowView>)
    ensures |r| == |views|
    ensures forall i :: 0 <= i < |views| ==> r[i] == if views[i].id == v.id then v else views[i]
  {
    seq(|views|, i requires 0 <= i < |views| => if views[i].id == v.id then v else views[i])
  }

  predicate Listed(views: seq<RowView>, id: int) {
    exists i :: 0 <= i < |views| && views[i].id == id
  }

  // A decision settles the request it names, or is itself a new row when it
  // names none: a denial that never reserved anything.
  function Update(views: seq<RowView>, change: Change): seq<RowView> {
    match change
    case Insert(v) => views + [v]
    case Settle(v) => if Listed(views, v.id) then Replace(views, v) else views + [v]
    case Clear => []
    case Ignore => views
  }

  function Fold(events: seq<Event>): seq<RowView> {
    if events == [] then []
    else
      var e := events[|events| - 1];
      Update(Fold(events[..|events| - 1]), ReadChange(e.eventType, e.payload))
  }

  // ---- the table seen the same way ----

  predicate ParamsParse(r: Request) {
    Json.Loads(r.params).Some?
  }

  function ViewOf(r: Request): RowView
    requires ParamsParse(r)
  {
    RowView(r.id, r.agent, r.action, r.amount, Json.Loads(r.params).value, r.decision, r.txId)
  }

  predicate Tabled(rows: seq<Request>, views: seq<RowView>) {
    && |views| == |rows|
    && forall i :: 0 <= i < |rows| ==> ParamsParse(rows[i]) && views[i] == ViewOf(rows[i])
  }

  // Ids grow along the table and none is past the last one handed out.
  predicate Numbered(db: Db) {
    && (forall i, j :: 0 <= i < j < |db.requests| ==> db.requests[i].id < db.requests[j].id)
    && (forall i :: 0 <= i < |db.requests| ==> db.requests[i].id <= db.lastId)
  }

  predicate PendingUnpaid(rows: seq<Request>) {
    forall i :: 0 <= i < |rows| ==> rows[i].decision == Pending ==> rows[i].txId == None
  }

  predicate Mirrored(db: Db) {
    Numbered(db) && PendingUnpaid(db.requests) && Tabled(db.requests, Fold(db.events))
  }

  lemma NamesDistinct(d: Decision)
    ensures DecisionNamed(d.Name()) == Some(d)
  {
    assert |Pending.Name()| == 7 && |AwaitingApproval.Name()| == 17 && |Approved.Name()| == 8 && |Denied.Name()| == 6;
  }

  // The event types, told apart.
  lemma TypesDistinct(payload: string)
    ensures ReadChange(RESERVED, payload) ==
            match Json.Loads(payload) case Some(Obj(m)) => ReadReserved(m) case _ => Ignore
    ensures ReadChange(DECIDED, payload) ==
            match Json.Loads(payload) case Some(Obj(m)) => ReadDecided(m) case _ => Ignore
  {
    hide Json.Loads;
    hide ReadReserved;
    hide ReadDecided;
    assert |RESERVED| != |RESET| && |DECIDED| != |RESET| && RESERVED[8] != DECIDED[8];
  }

  lemma {:induction false} ReadBackReserved(id: nat, agent: string, action: string, amount: Money, params: Json.Value, state: Decision)
    ensures ReadChange(RESERVED, Json.Dumps(ReservedFields(id, agent, action, amount, params, state)))
         == Insert(RowView(id, agent, action, amount, params, state, None))
  {
    hide Json.Dumps;
    hide Json.Loads;
    hide ReadChange;
    hide DecisionNamed;
    var v := ReservedFields(id, agent, action, amount, params, state);
    Json.LoadsDumps(v);
    TypesDistinct(Json.Dumps(v));
    NamesDistinct(state);
  }

  lemma {:induction false} ReadBackDecided(id: nat, agent: string, action: string, amount: Money, params: Json.Value,
                                           decision: Decision, reason: string, txId: Option<string>)
    ensures ReadChange(DECIDED, Json.Dumps(DecidedFields(id, agent, action, amount, params, decision, reason, txId)))
         == Settle(RowView(id, agent, action, amount, params, decision, txId))
  {
    hide Json.Dumps;
    hide Json.Loads;
    hide ReadChange;
    hide DecisionNamed;
    var v := DecidedFields(id, agent, action, amount, params, decision, reason, txId);
    Json.LoadsDumps(v);
    TypesDistinct(Json.Dumps(v));
    NamesDistinct(decision);
  }

  lemma FoldLogged(H: HashFn, db: Db, eventType: string, payload: Json.Value, stamp: Instant)
    ensures Fold(LogEvent(H, db, eventType, payload, stamp).events)
         == Update(Fold(db.events), ReadChange(eventType, Json.Dumps(payload)))
  {
    hide ReadChange;
    hide Json.Dumps;
    hide Iso;
    hide Link;
    var events := LogEvent(H, db, eventType, payload, stamp).events;
    assert events[..|events| - 1] == db.events;
  }

  // ---- every operation keeps table and ledger in step ----

  lemma InsertRow(rows: seq<Request>, views: seq<RowView>, r: Request)
    requires Tabled(rows, views) && ParamsParse(r)
    ensures Tabled(rows + [r], views + [ViewOf(r)])
  {
  }

  lemma SettleRow(db: Db, views: seq<RowView>, k: nat, r: Request)
    requires Numbered(db) && Tabled(db.requests, views)
    requires k < |db.requests| && r.id == db.requests[k].id && ParamsParse(r)
    ensures Listed(views, r.id) && Tabled(db.requests[k := r], Replace(views, ViewOf(r)))
  {
    assert views[k].id == r.id;
    assert forall i :: 0 <= i < |views| && views[i].id == r.id ==> i == k;
  }

  lemma CanonicalParse(params: Params)
    ensures Json.Loads(CanonicalParams(params)) == Some(ParamsValue(params))
  {
    Json.LoadsDumps(ParamsValue(params));
  }

  // A new row, with the event that inserts the same view.
  lemma AddRow(H: HashFn, db: Db, r: Request, eventType: string, payload: Json.Value, stamp: Instant)
    requires Mirrored(db) && r.id == db.lastId + 1 && ParamsParse(r) && (r.decision == Pending ==> r.txId == None)
    requires Update(Fold(db.events), ReadChange(eventType, Json.Dumps(payload))) == Fold(db.events) + [ViewOf(r)]
    ensures Mirrored(LogEvent(H, db.(requests := db.requests + [r], lastId := r.id), eventType, payload, stamp))
  {
    hide Json.Dumps;
    hide ViewOf;
    hide ParamsParse;
    hide ReadChange;
    hide Update;
    hide LogEvent;
    hide Fold;
    var mid := db.(requests := db.requests + [r], lastId := r.id);
    FoldLogged(H, mid, eventType, payload, stamp);
    LogKeepsTables(H, mid, eventType, payload, stamp);
    InsertRow(db.requests, Fold(db.events), r);
  }

  lemma LogKeepsTables(H: HashFn, db: Db, eventType: string, payload: Json.Value, stamp: Instant)
    ensures var after := LogEvent(H, db, eventType, payload, stamp);
            && after.requests == db.requests && after.lastId == db.lastId
            && after.anchors == db.anchors && after.lastAnchorId == db.lastAnchorId && after.backups == db.backups
  {
  }

  // A row changed in place, with the event that settles the same view.
  lemma ChangeRow(H: HashFn, db: Db, k: nat, r: Request, eventType: string, payload: Json.Value, stamp: Instant)
    requires Mirrored(db) && k < |db.requests| && r.id == db.requests[k].id && ParamsParse(r)
    requires r.decision == Pending ==> r.txId == None
    requires Update(Fold(db.events), ReadChange(eventType, Json.Dumps(payload))) == Replace(Fold(db.events), ViewOf(r))
    ensures Mirrored(LogEvent(H, db.(requests := db.requests[k := r]), eventType, payload, stamp))
  {
    hide Json.Dumps;
    hide ViewOf;
    hide ParamsParse;
    hide ReadChange;
    hide Update;
    hide LogEvent;
    hide Fold;
    var mid := db.(requests := db.requests[k := r]);
    FoldLogged(H, mid, eventType, payload, stamp);
    LogKeepsTables(H, mid, eventType, payload, stamp);
    SettleRow(db, Fold(db.events), k, r);
  }

  // An event that changes no request.
  lemma PassBy(H: HashFn, db: Db, eventType: string, payload: Json.Value, stamp: Instant)
    requires Mirrored(db) && eventType != RESERVED && eventType != DECIDED && eventType != RESET
    ensures Mirrored(LogEvent(H, db, eventType, payload, stamp))
  {
    hide Json.Dumps;
    hide LogEvent;
    hide Fold;
    FoldLogged(H, db, eventType, payload, stamp);
    LogKeepsTables(H, db, eventType, payload, stamp);
  }

  lemma DenialMirrored(H: HashFn, db: Db, agent: string, action: string, amount: Money, reason: string, params: Params,
                       now: Instant, stamp: Instant)
    requires Mirrored(db)
    ensures Mirrored(LogDenial(H, db, agent, action, amount, reason, params, now, stamp))
  {
    hide Json.Loads;
    hide Iso;
    hide ReadChange;
    hide CanonicalParams;
    hide LogEvent;
    hide DecidedFields;
    hide Fold;
    var r := Request(db.lastId + 1, Iso(now), agent, action, amount, Denied, reason, None, CanonicalParams(params));
    var p := ParamsValue(params);
    CanonicalParse(params);
    ReadBackDecided(r.id, agent, action, amount, p, Denied, reason, None);
    assert !Listed(Fold(db.events), r.id);
    AddRow(H, db, r, DECIDED, DecidedFields(r.id, agent, action, amount, p, Denied, reason, None), stamp);
  }

  lemma ReserveMirrored(H: HashFn, db: Db, ask: Ask, now: Instant, stamp: Instant)
    requires Mirrored(db) && ask.window * US <= now
    ensures Mirrored(TryReserve(H, db, ask, now, stamp))
  {
    hide Json.Loads;
    hide Iso;
    hide ReadChange;
    hide CanonicalParams;
    hide LogEvent;
    hide ReservedFields;
    hide Fold;
    if Test(db, ask, now).Admitted? {
      var r := ReservedRow(db, ask, now);
      var p := ParamsValue(ask.params);
      CanonicalParse(ask.params);
      ReadBackReserved(r.id, r.agent, r.action, r.amount, p, r.decision);
      AddRow(H, db, r, RESERVED, ReservedFields(r.id, r.agent, r.action, r.amount, p, r.decision), stamp);
    }
  }

  // LogDecision with the row's own parameters, its decision settled.
  lemma DecisionMirrored(H: HashFn, db: Db, k: nat, r: Request, stamp: Instant)
    requires Mirrored(db) && k < |db.requests| && r.id == db.requests[k].id && ParamsParse(r)
    requires r.decision == Pending ==> r.txId == None
    ensures Mirrored(LogDecision(H, db.(requests := db.requests[k := r]), r, Json.Loads(r.params).value, stamp))
  {
    hide Json.Loads;
    hide ReadChange;
    hide LogEvent;
    hide DecidedFields;
    hide Fold;
    var p := Json.Loads(r.params).value;
    ReadBackDecided(r.id, r.agent, r.action, r.amount, p, r.decision, r.reason, r.txId);
    SettleRow(db, Fold(db.events), k, r);
    ChangeRow(H, db, k, r, DECIDED, DecidedFields(r.id, r.agent, r.action, r.amount, p, r.decision, r.reason, r.txId), stamp);
  }

  lemma FinalizeMirrored(H: HashFn, db: Db, id: nat, decision: Decision, reason: string, txId: Option<string>, stamp: Instant)
    requires Mirrored(db) && decision != Pending
    ensures match Finalize(H, db, id, decision, reason, txId, stamp)
            case None => !HasRow(db.requests, id)
            case Some(after) => HasRow(db.requests, id) && Mirrored(after)
  {
    hide Json.Loads;
    hide LogDecision;
    hide Fold;
    if HasRow(db.requests, id) {
      var k := RowIndex(db.requests, id);
      var r := db.requests[k].(decision := decision, reason := reason, txId := txId);
      assert ParamsParse(db.requests[k]) && ParamsParse(r);
      DecisionMirrored(H, db, k, r, stamp);
    }
  }

  lemma {:induction false} ReapMirrored(H: HashFn, db: Db, i: nat, cutoff: string, stamp: Instant)
    requires Mirrored(db)
    ensures match ReapFrom(H, db, i, cutoff, stamp)
            case None => false
            case Some(after) => Mirrored(after)
    decreases |db.requests| - i
  {
    hide Json.Loads;
    hide LogEvent;
    hide Fold;
    hide Less;
    if i < |db.requests| {
      if !Stale(db.requests[i], cutoff) {
        ReapMirrored(H, db, i + 1, cutoff, stamp);
      } else {
        var r := db.requests[i].(decision := Denied, reason := ABANDONED);
        assert ParamsParse(db.requests[i]) && ParamsParse(r) && r.txId == None;
        var p := Json.Loads(r.params).value;
        DecisionMirrored(H, db, i, r, stamp);
        LogKeepsTables(H, db.(requests := db.requests[i := r]), DECIDED,
                       DecidedFields(r.id, r.agent, r.action, r.amount, p, r.decision, r.reason, r.txId), stamp);
        ReapMirrored(H, LogDecision(H, db.(requests := db.requests[i := r]), r, p, stamp), i + 1, cutoff, stamp);
      }
    }
  }

  lemma ResetMirrored(H: HashFn, db: Db, cleared: nat, stamp: Instant)
    requires Mirrored(db)
    ensures Mirrored(Reset(H, db, cleared, stamp))
  {
    hide LogEvent;
    hide Json.Dumps;
    hide Fold;
    var payload := ClearedFields(cleared);
    FoldLogged(H, db.(requests := []), RESET, payload, stamp);
    LogKeepsTables(H, db.(requests := []), RESET, payload, stamp);
  }

  lemma AnchorMirrored(H: HashFn, db: Db, s: int, headHash: string, txId: string, note: string, stamp: Instant)
    requires Mirrored(db)
    ensures Mirrored(RecordAnchor(H, db, s, headHash, txId, note, stamp))
  {
    hide LogEvent;
    var a := AnchorRow(db.lastAnchorId + 1, s, headHash, txId, note);
    assert ANCHORED[0] != RESERVED[0] && |ANCHORED| != |RESET|;
    PassBy(H, db.(anchors := db.anchors + [a], lastAnchorId := a.id), ANCHORED,
           AnchorFields(s, headHash, txId), stamp);
  }

  lemma StepMirrored(H: HashFn, db: Db, op: Op)
    requires Mirrored(db) && Legal(op)
    ensures Mirrored(Apply(H, db, op))
  {
    hide Mirrored;
    hide LogDenial;
    hide TryReserve;
    hide Finalize;
    hide Reap;
    hide Reset;
    hide RecordAnchor;
    hide LogEvent;
    match op
    case OpDeny(agent, action, amount, reason, params, now, stamp) =>
      DenialMirrored(H, db, agent, action, amount, reason, params, now, stamp);
    case OpReserve(ask, now, stamp) => ReserveMirrored(H, db, ask, now, stamp);
    case OpFinalize(id, decision, reason, txId, stamp) => FinalizeMirrored(H, db, id, decision, reason, txId, stamp);
    case OpReap(olderThan, now, stamp) => ReapOpMirrored(H, db, olderThan, now, stamp);
    case OpReset(cleared, stamp) => ResetMirrored(H, db, cleared, stamp);
    case OpAnchor(s, headHash, txId, note, stamp) => AnchorMirrored(H, db, s, headHash, txId, note, stamp);
    case OpEvent(t, payload, stamp) => PassBy(H, db, t, payload, stamp);
  }

  lemma ReapOpMirrored(H: HashFn, db: Db, olderThan: nat, now: Instant, stamp: Instant)
    requires Mirrored(db) && olderThan * US <= now
    ensures match Reap(H, db, olderThan, now, stamp)
            case None => false
            case Some(after) => Mirrored(after)
  {
    ReapMirrored(H, db, 0, WindowCutoff(now, olderThan), stamp);
  }

  // In every state of every run, the table is the replay of the ledger.
  lemma {:induction false} TableIsReplay(H: HashFn, ops: seq<Op>)
    requires AllLegal(ops)
    ensures Mirrored(Exec(H, ops))
  {
    if ops != [] {
      TableIsReplay(H, ops[..|ops| - 1]);
      StepMirrored(H, Exec(H, ops[..|ops| - 1]), ops[|ops| - 1]);
    }
  }

  // ---- totals ----

  datatype Summary = Summary(total: Money, approved: nat, denied: nat)

  function Tally(s: Summary, mine: bool, decision: Decision, amount: Money): Summary {
    if mine && decision == Approved then Summary(s.total + amount, s.approved + 1, s.denied)
    else if mine && decision == Denied then s.(denied := s.denied + 1)
    else s
  }

  // get_agent_summary, over the table.
  function AgentSummary(rows: seq<Request>, agent: string): Summary {
    if rows == [] then Summary(0, 0, 0)
    else
      var r := rows[|rows| - 1];
      Tally(AgentSummary(rows[..|rows| - 1], agent), r.agent == agent, r.decision, r.amount)
  }

  // The positions of an agent's rows of one decision, in order.
  ghost predicate Positions(rows: seq<Request>, agent: string, decision: Decision, at: seq<nat>) {
    && (forall i, j :: 0 <= i < j < |at| ==> at[i] < at[j])
    && (forall k: nat :: k in at <==> k < |rows| && rows[k].agent == agent && rows[k].decision == decision)
  }

  ghost function Sum(rows: seq<Request>, at: seq<nat>): Money
    requires forall i :: 0 <= i < |at| ==> at[i] < |rows|
  {
    if at == [] then 0 else Sum(rows, at[..|at| - 1]) + rows[at[|at| - 1]].amount
  }

  lemma {:induction false} SumFront(rows: seq<Request>, at: seq<nat>)
    requires rows != [] && forall i :: 0 <= i < |at| ==> at[i] < |rows| - 1
    ensures Sum(rows, at) == Sum(rows[..|rows| - 1], at)
  {
    if at != [] { SumFront(rows, at[..|at| - 1]); }
  }

  lemma SumNext(rows: seq<Request>, at: seq<nat>)
    requires rows != [] && forall i :: 0 <= i < |at| ==> at[i] < |rows| - 1
    ensures Sum(rows, at + [|rows| - 1]) == Sum(rows[..|rows| - 1], at) + rows[|rows| - 1].amount
  {
    var n := |rows| - 1;
    SumFront(rows, at);
    var longer := at + [n];
    assert longer[..|longer| - 1] == at;
    assert longer[|longer| - 1] == n;
  }

  lemma PositionsNext(rows: seq<Request>, agent: string, decision: Decision, at: seq<nat>)
    requires rows != [] && Positions(rows[..|rows| - 1], agent, decision, at)
    ensures var r := rows[|rows| - 1];
            Positions(rows, agent, decision, if r.agent == agent && r.decision == decision then at + [|rows| - 1] else at)
  {
    var n := |rows| - 1;
    PositionsBelow(rows[..n], agent, decision, at);
    assert forall k: nat :: k in at + [n] <==> k in at || k == n;
  }

  function PositionsOf(rows: seq<Request>, agent: string, decision: Decision): (at: seq<nat>)
    ensures forall i :: 0 <= i < |at| ==> at[i] < |rows|
  {
    if rows == [] then []
    else
      var n := |rows| - 1;
      PositionsOf(rows[..n], agent, decision) + if rows[n].agent == agent && rows[n].decision == decision then [n] else []
  }

  lemma {:induction false} PositionsFound(rows: seq<Request>, agent: string, decision: Decision)
    ensures Positions(rows, agent, decision, PositionsOf(rows, agent, decision))
  {
    if rows != [] {
      PositionsFound(rows[..|rows| - 1], agent, decision);
      PositionsNext(rows, agent, decision, PositionsOf(rows[..|rows| - 1], agent, decision));
    }
  }

  lemma {:induction false} SummaryOf(rows: seq<Request>, agent: string)
    ensures AgentSummary(rows, agent) ==
            Summary(Sum(rows, PositionsOf(rows, agent, Approved)), |PositionsOf(rows, agent, Approved)|, |PositionsOf(rows, agent, Denied)|)
  {
    hide Sum;
    if rows == [] {
      SumNone(rows);
    } else {
      var front := rows[..|rows| - 1];
      SummaryOf(front, agent);
      SumFront(rows, PositionsOf(front, agent, Approved));
      SumNext(rows, PositionsOf(front, agent, Approved));
      SummaryNext(rows, agent);
      assert forall at: seq<nat> :: at + [] == at;
    }
  }

  lemma SummaryNext(rows: seq<Request>, agent: string)
    requires rows != []
    ensures var r, before := rows[|rows| - 1], AgentSummary(rows[..|rows| - 1], agent);
            AgentSummary(rows, agent) == Tally(before, r.agent == agent, r.decision, r.amount)
  {
  }

  lemma SumNone(rows: seq<Request>)
    ensures Sum(rows, []) == 0
  {
  }

  // The counts are the numbers of an agent's approved and denied rows, the
  // total the sum over the approved ones: nothing held or pending is in it.
  lemma SummaryMeaning(rows: seq<Request>, agent: string, approved: seq<nat>, denied: seq<nat>)
    requires Positions(rows, agent, Approved, approved) && Positions(rows, agent, Denied, denied)
    ensures forall i :: 0 <= i < |approved| ==> approved[i] < |rows|
    ensures AgentSummary(rows, agent) == Summary(Sum(rows, approved), |approved|, |denied|)
  {
    hide AgentSummary;
    hide PositionsOf;
    hide Sum;
    PositionsFound(rows, agent, Approved);
    PositionsFound(rows, agent, Denied);
    PositionsUnique(approved, PositionsOf(rows, agent, Approved));
    PositionsUnique(denied, PositionsOf(rows, agent, Denied));
    PositionsBelow(rows, agent, Approved, approved);
    SummaryOf(rows, agent);
  }

  // Two increasing sequences with the same elements are the same.
  lemma {:induction false} PositionsUnique(a: seq<nat>, b: seq<nat>)
    requires forall i, j :: 0 <= i < j < |a| ==> a[i] < a[j]
    requires forall i, j :: 0 <= i < j < |b| ==> b[i] < b[j]
    requires forall k: nat :: k in a <==> k in b
    ensures a == b
    decreases |a|
  {
    if b != [] { assert b[0] in b; }
    if a != [] {
      assert a[0] in a;
      var m, n := |a| - 1, |b| - 1;
      assert a[m] in b && b[n] in a;
      assert a[m] == b[n];
      forall k: nat ensures k in a[..m] <==> k in b[..n] {
        if k in a[..m] { assert k in a; }
        if k in b[..n] { assert k in b; }
      }
      PositionsUnique(a[..m], b[..n]);
    }
  }

  lemma PositionsBelow(rows: seq<Request>, agent: string, decision: Decision, at: seq<nat>)
    requires Positions(rows, agent, decision, at)
    ensures forall i :: 0 <= i < |at| ==> at[i] < |rows|
  {
    assert forall i :: 0 <= i < |at| ==> at[i] in at;
  }

  // The same, recomputed from the replayed ledger.
  function ReplaySummary(views: seq<RowView>, agent: string): Summary {
    if views == [] then Summary(0, 0, 0)
    else
      var v := views[|views| - 1];
      Tally(ReplaySummary(views[..|views| - 1], agent), v.agent == agent, v.decision, v.amount)
  }

  lemma {:induction false} SummariesAgree(rows: seq<Request>, views: seq<RowView>, agent: string)
    requires Tabled(rows, views)
    ensures AgentSummary(rows, agent) == ReplaySummary(views, agent)
  {
    if rows != [] {
      SummariesAgree(rows[..|rows| - 1], views[..|rows| - 1], agent);
    }
  }

  lemma SummaryFromLedger(H: HashFn, ops: seq<Op>, agent: string)
    requires AllLegal(ops)
    ensures AgentSummary(Exec(H, ops).requests, agent) == ReplaySummary(Fold(Exec(H, ops).events), agent)
  {
    TableIsReplay(H, ops);
    SummariesAgree(Exec(H, ops).requests, Fold(Exec(H, ops).events), agent);
  }
}
