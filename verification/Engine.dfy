/** Spend decisions over whole runs: signed requests gated by the policy of the
    moment, payments that settle later or not at all, holds that are labelled
    for review after they are reserved and that a person releases or rejects,
    restarts, and a policy that changes in between. */
module Engine {
  import opened Text
  import opened Clock
  import opened Ledger
  import opened Anchor
  import opened Store
  import opened CallParams
  import opened View
  import Identity
  import Json
  import Limits

  const VELOCITY_WINDOW: nat := 60

  datatype AgentCfg = AgentCfg(
    perRequest: Money,
    dailyCap: Money,
    allowed: seq<string>,
    frozen: bool,
    maxPerMinute: Option<nat>,
    approveAbove: Option<Money>)

  datatype ActionCfg = ActionCfg(price: Money, schema: Schema)

  datatype Policy = Policy(agents: map<string, AgentCfg>, actions: map<string, ActionCfg>)

  // The agent is present, unfrozen, and allowed an action that exists.
  predicate Permits(p: Policy, agent: string, action: string) {
    agent in p.agents && action in p.actions && !p.agents[agent].frozen && action in p.agents[agent].allowed
  }

  predicate NeedsApproval(cfg: AgentCfg, amount: Money) {
    cfg.approveAbove.Some? && amount > cfg.approveAbove.value
  }

  // ---- the gate in front of try_reserve ----

  datatype SpendReq = SpendReq(
    agent: string,
    action: string,
    amount: Option<Money>,
    params: Params,
    keyOnFile: bool,
    nonce: string,
    timestamp: int,
    signature: Identity.Signature)

  // The request gets as far as the signature check.
  predicate Checked(p: Policy, req: SpendReq) {
    req.agent in p.agents && req.action in p.actions && req.keyOnFile
  }

  function Signed(req: SpendReq): Identity.Request {
    Identity.Request((req.agent, req.nonce), req.timestamp, req.signature)
  }

  // verify_request, when it is called: its answer, and what it remembers.
  function CheckSignature(p: Policy, seen: Identity.Seen, req: SpendReq, clock: int): (bool, Identity.Seen) {
    if Checked(p, req) then
      var (answer, after) := Identity.Verify(seen, Signed(req), clock);
      (answer == Identity.Accepted, after)
    else (false, seen)
  }

  datatype Gate =
    | Refuse(amount: Money, params: Params, code: string)
    | Proceed(ask: Ask)

  function Decide(p: Policy, req: SpendReq, signed: bool): Gate {
    if req.agent !in p.agents then Refuse(0, req.params, "unknown_agent")
    else if req.action !in p.actions then Refuse(0, req.params, "unknown_action")
    else
      var cfg, action := p.agents[req.agent], p.actions[req.action];
      var amount := if req.amount.Some? then req.amount.value else action.price;
      if !req.keyOnFile then Refuse(amount, req.params, "no_signing_key")
      else if !signed then Refuse(amount, req.params, "identity_failed")
      else if cfg.frozen then Refuse(amount, req.params, "frozen")
      else if req.action !in cfg.allowed then Refuse(amount, req.params, "action_not_allowed")
      else match Resolve(action.schema, req.params)
        case Resolved(params) =>
          if amount > cfg.perRequest then Refuse(amount, params, "over_per_request_limit")
          else Proceed(Ask(req.agent, req.action, amount, cfg.dailyCap,
                           if NeedsApproval(cfg, amount) then AwaitingApproval else Pending,
                           params, cfg.maxPerMinute, VELOCITY_WINDOW))
        case _ => Refuse(amount, req.params, "invalid_params")
  }

  // ---- the payment leg ----

  datatype Outcome =
    | NoSession(why: string)
    | NoResponse(why: string)
    | Failed(status: nat, why: string)
    | Paid(settlement: Option<string>, why: string)

  // Past an ok response nothing may deny: losing the settlement details
  // loses only the transaction id.
  function Closing(outcome: Outcome): (Decision, string, Option<string>) {
    match outcome
    case NoSession(why) => (Denied, why, None)
    case NoResponse(why) => (Denied, why, None)
    case Failed(_, why) => (Denied, why, None)
    case Paid(settlement, why) => (Approved, why, settlement)
  }

  // ---- the state machine ----

  // flights are the payments under way, each with the reservation it pays;
  // labels are the requests that have reserved a hold and not yet labelled it;
  // seen is the memory of the replay guard; history lists the storage
  // operations committed so far.
  datatype State = State(
    db: Db,
    policy: Policy,
    flights: map<nat, RowView>,
    labels: map<nat, RowView>,
    seen: Identity.Seen,
    history: seq<Op>)

  const START := State(EMPTY, Policy(map[], map[]), map[], map[], map[], [])

  datatype Action =
    | SetPolicy(policy: Policy)
    | Spend(req: SpendReq, clock: int, now: Instant, stamp: Instant, why: string)
    | Label(id: nat, why: string, stamp: Instant)
    | Pay(id: nat, outcome: Outcome, stamp: Instant)
    | Approve(id: nat, stamp: Instant, why: string)
    | Reject(id: nat, stamp: Instant, why: string)
    | Restart(olderThan: nat, now: Instant, stamp: Instant)
    | Wipe(stamp: Instant)
    | Note(eventType: string, payload: Json.Value, stamp: Instant)

  const GRANTED := "approval.granted"
  const BLOCKED := "approval.blocked"
  const REJECTED := "approval.rejected"

  predicate WellTimed(a: Action) {
    match a
    case Spend(req, _, now, _, _) => VELOCITY_WINDOW * US <= now && (req.amount.Some? ==> req.amount.value >= 0)
    case Restart(olderThan, now, _) => olderThan * US <= now
    case SetPolicy(p) => forall k :: k in p.actions ==> p.actions[k].price >= 0
    case Note(t, _, _) => NoBar(t) && t != RESERVED && t != DECIDED && t != RESET && t != GRANTED
    case _ => true
  }

  function Push(H: HashFn, s: State, op: Op): State
    requires Legal(op)
  {
    s.(db := Apply(H, s.db, op), history := s.history + [op])
  }

  function GrantPayload(v: RowView): Json.Value {
    Json.Obj(map["request_id" := Json.Num(v.id), "agent_id" := Json.Str(v.agent), "params" := v.params])
  }

  // An unresolved hold that no payment has been started for.
  predicate Holdable(s: State, id: nat) {
    && HasRow(s.db.requests, id) && id !in s.flights
    && s.db.requests[RowIndex(s.db.requests, id)].decision == AwaitingApproval
    && ParamsParse(s.db.requests[RowIndex(s.db.requests, id)])
  }

  function Reserved(r: Request, ask: Ask): RowView {
    RowView(r.id, r.agent, r.action, r.amount, ParamsValue(ask.params), r.decision, None)
  }

  // The state after reserving for a payment that starts at once.
  function Departed(H: HashFn, s: State, ask: Ask, now: Instant, stamp: Instant): State
    requires Legal(OpReserve(ask, now, stamp))
  {
    var v := Reserved(ReservedRow(s.db, ask, now), ask);
    var reserved := Push(H, s, OpReserve(ask, now, stamp));
    reserved.(flights := reserved.flights[s.db.lastId + 1 := v])
  }

  // The state after reserving for a hold, committed and still to be labelled.
  function Parked(H: HashFn, s: State, ask: Ask, now: Instant, stamp: Instant): State
    requires Legal(OpReserve(ask, now, stamp))
  {
    var v := Reserved(ReservedRow(s.db, ask, now), ask);
    var reserved := Push(H, s, OpReserve(ask, now, stamp));
    reserved.(labels := reserved.labels[s.db.lastId + 1 := v])
  }

  function FireAsk(H: HashFn, s: State, ask: Ask, now: Instant, stamp: Instant, why: string): State
    requires Legal(OpReserve(ask, now, stamp))
  {
    if !Test(s.db, ask, now).Admitted?
    then Push(H, s, OpDeny(ask.agent, ask.action, ask.amount, why, ask.params, now, stamp))
    else if ask.state == AwaitingApproval then Parked(H, s, ask, now, stamp)
    else Departed(H, s, ask, now, stamp)
  }

  function FireSpend(H: HashFn, s: State, req: SpendReq, clock: int, now: Instant, stamp: Instant, why: string): State
    requires VELOCITY_WINDOW * US <= now
  {
    var (signed, seen) := CheckSignature(s.policy, s.seen, req, clock);
    var s0 := s.(seen := seen);
    match Decide(s.policy, req, signed)
    case Refuse(amount, params, _) => Push(H, s0, OpDeny(req.agent, req.action, amount, why, params, now, stamp))
    case Proceed(ask) => FireAsk(H, s0, ask, now, stamp, why)
  }

  // The second half of a request that was parked: its hold is finalized to
  // awaiting approval, whatever has become of it in the meantime.
  function FireLabel(H: HashFn, s: State, id: nat, why: string, stamp: Instant): State {
    if id in s.labels
    then Push(H, s, OpFinalize(id, AwaitingApproval, why, None, stamp)).(labels := s.labels - {id})
    else s
  }

  function FirePay(H: HashFn, s: State, id: nat, outcome: Outcome, stamp: Instant): State {
    if id in s.flights then
      var (decision, why, tx) := Closing(outcome);
      Push(H, s, OpFinalize(id, decision, why, tx, stamp)).(flights := s.flights - {id})
    else s
  }

  function BlockedPayload(id: nat, why: string): Json.Value {
    Json.Obj(map["request_id" := Json.Num(id), "reason" := Json.Str(why)])
  }

  function RejectedPayload(v: RowView): Json.Value {
    Json.Obj(map["request_id" := Json.Num(v.id), "agent_id" := Json.Str(v.agent)])
  }

  // Log an operator's decision and deny the hold.
  function Refusal(H: HashFn, s: State, id: nat, eventType: string, payload: Json.Value, why: string, stamp: Instant): State
    requires Legal(OpEvent(eventType, payload, stamp))
  {
    Push(H, Push(H, s, OpEvent(eventType, payload, stamp)), OpFinalize(id, Denied, why, None, stamp))
  }

  function Blocked(H: HashFn, s: State, id: nat, why: string, stamp: Instant): State {
    Refusal(H, s, id, BLOCKED, BlockedPayload(id, why), why, stamp)
  }

  function Rejected(H: HashFn, s: State, v: RowView, id: nat, why: string, stamp: Instant): State {
    Refusal(H, s, id, REJECTED, RejectedPayload(v), why, stamp)
  }

  // An operator's grant, and the payment it starts.
  function Released(H: HashFn, s: State, v: RowView, stamp: Instant): State
    requires v.id >= 0
  {
    Push(H, s, OpEvent(GRANTED, GrantPayload(v), stamp)).(flights := s.flights[v.id := v])
  }

  function FireApprove(H: HashFn, s: State, id: nat, stamp: Instant, why: string): State {
    if Holdable(s, id) then
      var v := ViewOf(s.db.requests[RowIndex(s.db.requests, id)]);
      if Permits(s.policy, v.agent, v.action)
      then Released(H, s, v, stamp)
      else Blocked(H, s, id, why, stamp)
    else s
  }

  function FireReject(H: HashFn, s: State, id: nat, stamp: Instant, why: string): State {
    if Holdable(s, id)
    then Rejected(H, s, ViewOf(s.db.requests[RowIndex(s.db.requests, id)]), id, why, stamp)
    else s
  }

  // The process dies with every call it was serving and all it remembered,
  // and comes back.
  function FireRestart(H: HashFn, s: State, olderThan: nat, now: Instant, stamp: Instant): State
    requires olderThan * US <= now
  {
    Push(H, s.(flights := map[], labels := map[], seen := map[]), OpReap(olderThan, now, stamp))
  }

  function Fire(H: HashFn, s: State, a: Action): State
    requires WellTimed(a)
  {
    match a
    case SetPolicy(policy) => s.(policy := policy)
    case Spend(req, clock, now, stamp, why) => FireSpend(H, s, req, clock, now, stamp, why)
    case Label(id, why, stamp) => FireLabel(H, s, id, why, stamp)
    case Pay(id, outcome, stamp) => FirePay(H, s, id, outcome, stamp)
    case Approve(id, stamp, why) => FireApprove(H, s, id, stamp, why)
    case Reject(id, stamp, why) => FireReject(H, s, id, stamp, why)
    case Restart(olderThan, now, stamp) => FireRestart(H, s, olderThan, now, stamp)
    case Wipe(stamp) => Push(H, s, OpReset(|s.db.requests|, stamp))
    case Note(t, payload, stamp) => Push(H, s, OpEvent(t, payload, stamp))
  }

  ghost predicate AllTimed(actions: seq<Action>) {
    forall a :: a in actions ==> WellTimed(a)
  }

  function RunAll(H: HashFn, actions: seq<Action>): State
    requires AllTimed(actions)
  {
    if actions == [] then START
    else Fire(H, RunAll(H, actions[..|actions| - 1]), actions[|actions| - 1])
  }

  lemma RunMore(H: HashFn, actions: seq<Action>, a: Action)
    requires AllTimed(actions) && WellTimed(a)
    ensures AllTimed(actions + [a]) && RunAll(H, actions + [a]) == Fire(H, RunAll(H, actions), a)
  {
    hide Fire;
    assert (actions + [a])[..|actions|] == actions;
  }

  // The signature check comes out well exactly for a valid signature dated
  // within 60 seconds of the clock whose nonce was not accepted in the last 60
  // seconds; it is remembered from then on, and otherwise no nonce is.
  lemma SignatureMeaning(p: Policy, seen: Identity.Seen, req: SpendReq, clock: int)
    requires Checked(p, req)
    ensures var (signed, after) := CheckSignature(p, seen, req, clock);
            var key := (req.agent, req.nonce);
            && (signed <==>
                  req.signature == Identity.Valid && clock - 60_000_000 <= req.timestamp <= clock + 60_000_000
                  && (key in seen ==> clock - seen[key] > 60_000_000))
            && (signed ==> key in after && after[key] == clock)
            && (forall k :: k in after && !(signed && k == key) ==> k in seen && after[k] == seen[k])
  {
  }

  // A request that reaches the store comes from a known, unfrozen agent that
  // is allowed the action, with a valid signature that is neither stale nor
  // used; it is within the agent's limit, its arguments are resolved, and it
  // is to be held exactly when there is a threshold and the amount exceeds it.
  lemma {:induction false} GateSound(p: Policy, seen: Identity.Seen, req: SpendReq, clock: int)
    requires Decide(p, req, CheckSignature(p, seen, req, clock).0).Proceed?
    ensures var ask, after := Decide(p, req, CheckSignature(p, seen, req, clock).0).ask, CheckSignature(p, seen, req, clock).1;
            && ask.agent == req.agent && ask.action == req.action
            && req.signature == Identity.Valid && clock - 60_000_000 <= req.timestamp <= clock + 60_000_000
            && ((req.agent, req.nonce) in seen ==> clock - seen[(req.agent, req.nonce)] > 60_000_000)
            && (req.agent, req.nonce) in after && after[(req.agent, req.nonce)] == clock
            && req.agent in p.agents && req.action in p.actions
            && ask.amount == (if req.amount.Some? then req.amount.value else p.actions[req.action].price)
            && Resolve(p.actions[req.action].schema, req.params) == Resolved(ask.params)
            && ask.window == 60 && (ask.state == AwaitingApproval || ask.state == Pending)
    ensures var ask, cfg := Decide(p, req, CheckSignature(p, seen, req, clock).0).ask, p.agents[req.agent];
            && !cfg.frozen && req.action in cfg.allowed && ask.amount <= cfg.perRequest
            && ask.cap == cfg.dailyCap && ask.limit == cfg.maxPerMinute
            && (ask.state == AwaitingApproval <==> cfg.approveAbove.Some? && ask.amount > cfg.approveAbove.value)
  {
    hide CheckSignature;
    hide Decide;
    hide Resolve;
    GateFacts(p, req, CheckSignature(p, seen, req, clock).0);
    SignatureMeaning(p, seen, req, clock);
  }

  // What the request costs: what it names, or the action's price.
  function Cost(p: Policy, req: SpendReq): Money
    requires req.action in p.actions
  {
    if req.amount.Some? then req.amount.value else p.actions[req.action].price
  }

  // The gate, both ways: it answers with the first thing that is wrong, in
  // this order, and lets a request through when nothing is.
  lemma {:induction false} GateExact(p: Policy, seen: Identity.Seen, req: SpendReq, clock: int)
    ensures var signed := CheckSignature(p, seen, req, clock).0;
            var g := Decide(p, req, signed);
            var code := if g.Refuse? then g.code else "";
            && (code == "unknown_agent" <==> req.agent !in p.agents)
            && (code == "unknown_action" <==> req.agent in p.agents && req.action !in p.actions)
            && (req.agent in p.agents && req.action in p.actions ==>
                  var cfg, resolution := p.agents[req.agent], Resolve(p.actions[req.action].schema, req.params);
                  && (code == "no_signing_key" <==> !req.keyOnFile)
                  && (code == "identity_failed" <==> req.keyOnFile && !signed)
                  && (code == "frozen" <==> signed && cfg.frozen)
                  && (code == "action_not_allowed" <==> signed && !cfg.frozen && req.action !in cfg.allowed)
                  && (code == "invalid_params" <==> signed && !cfg.frozen && req.action in cfg.allowed && !resolution.Resolved?)
                  && (code == "over_per_request_limit" <==>
                        signed && !cfg.frozen && req.action in cfg.allowed && resolution.Resolved? && Cost(p, req) > cfg.perRequest)
                  && (g.Proceed? <==>
                        signed && !cfg.frozen && req.action in cfg.allowed && resolution.Resolved? && Cost(p, req) <= cfg.perRequest)
                  && (g.Refuse? ==> g.amount == Cost(p, req))
                  && (g.Refuse? ==> g.params == if code == "over_per_request_limit" then resolution.params else req.params))
            && (req.agent !in p.agents || req.action !in p.actions ==> g.Refuse? && g.amount == 0 && g.params == req.params)
  {
    hide Resolve;
    CodesDiffer();
    if Checked(p, req) { SignatureMeaning(p, seen, req, clock); }
  }

  // The codes are told apart by where they differ.
  lemma CodesDiffer()
    ensures |"unknown_agent"| == 13 && |"unknown_action"| == 14 && |"no_signing_key"| == 14 && |"identity_failed"| == 15
    ensures |"frozen"| == 6 && |"action_not_allowed"| == 18 && |"invalid_params"| == 14 && |"over_per_request_limit"| == 22
    ensures "unknown_action"[0] != "no_signing_key"[0] && "unknown_action"[0] != "invalid_params"[0] && "no_signing_key"[0] != "invalid_params"[0]
  {
  }

  // The gate, given the outcome of the signature check.
  lemma GateFacts(p: Policy, req: SpendReq, signed: bool)
    requires Decide(p, req, signed).Proceed?
    ensures var ask := Decide(p, req, signed).ask;
            && ask.agent == req.agent && ask.action == req.action && Checked(p, req) && signed
            && Permits(p, ask.agent, ask.action) && ask.amount <= p.agents[ask.agent].perRequest
            && ask.amount == (if req.amount.Some? then req.amount.value else p.actions[req.action].price)
            && Resolve(p.actions[req.action].schema, req.params) == Resolved(ask.params)
            && ask.cap == p.agents[ask.agent].dailyCap && ask.limit == p.agents[ask.agent].maxPerMinute
            && ask.window == VELOCITY_WINDOW
            && (ask.state == AwaitingApproval <==>
                  p.agents[ask.agent].approveAbove.Some? && ask.amount > p.agents[ask.agent].approveAbove.value)
            && (ask.state == Pending || ask.state == AwaitingApproval)
  {
    hide Resolve;
  }

  lemma RefusedAmount(p: Policy, req: SpendReq, signed: bool)
    requires (forall k :: k in p.actions ==> p.actions[k].price >= 0) && (req.amount.Some? ==> req.amount.value >= 0)
    ensures match Decide(p, req, signed) case Refuse(amount, _, _) => amount >= 0 case Proceed(ask) => ask.amount >= 0
  {
    hide Resolve;
  }

  // ---- what each operation writes ----

  predicate Unresolved(r: Request) {
    r.decision == Pending || r.decision == AwaitingApproval
  }

  predicate ReservedAt(events: seq<Event>, r: nat, v: RowView) {
    r < |events| && ReadChange(events[r].eventType, events[r].payload) == Insert(v)
  }

  predicate ApprovedAt(events: seq<Event>, j: nat, v: RowView) {
    j < |events| && ReadChange(events[j].eventType, events[j].payload) == Settle(v) && v.decision == Approved
  }

  // An event that settles a request as denied.
  predicate Denying(e: Event) {
    var c := ReadChange(e.eventType, e.payload);
    c.Settle? && c.view.decision == Denied
  }

  lemma LastEvent(H: HashFn, db: Db, eventType: string, payload: Json.Value, stamp: Instant)
    ensures var after := LogEvent(H, db, eventType, payload, stamp).events;
            && |after| == |db.events| + 1 && db.events <= after
            && after[|db.events|].eventType == eventType && after[|db.events|].payload == Json.Dumps(payload)
  {
    hide Iso;
    hide Json.Dumps;
    hide Link;
  }

  lemma {:induction false} ReapOnlyDenies(H: HashFn, db: Db, i: nat, cutoff: string, stamp: Instant, j: nat)
    requires ReapFrom(H, db, i, cutoff, stamp).Some?
    requires |db.events| <= j < |ReapFrom(H, db, i, cutoff, stamp).value.events|
    ensures Denying(ReapFrom(H, db, i, cutoff, stamp).value.events[j])
    decreases |db.requests| - i
  {
    hide Json.Loads;
    hide Json.Dumps;
    hide LogEvent;
    hide Less;
    hide ReadChange;
    hide DecidedFields;
    if i < |db.requests| {
      if !Stale(db.requests[i], cutoff) {
        ReapOnlyDenies(H, db, i + 1, cutoff, stamp, j);
      } else {
        var r := db.requests[i].(decision := Denied, reason := ABANDONED);
        var p, t := Json.Loads(r.params).value, r.(txId := None);
        var mid := db.(requests := db.requests[i := r]);
        var fields := DecidedFields(t.id, t.agent, t.action, t.amount, p, t.decision, t.reason, t.txId);
        var next := LogDecision(H, mid, t, p, stamp);
        LastEvent(H, mid, DECIDED, fields, stamp);
        Limits.LogOnly(H, mid, DECIDED, fields, stamp);
        ReadBackDecided(t.id, t.agent, t.action, t.amount, p, t.decision, t.reason, t.txId);
        ReapExtends(H, next, i + 1, cutoff, stamp);
        if j > |db.events| { ReapOnlyDenies(H, next, i + 1, cutoff, stamp, j); }
      }
    }
  }

  lemma {:induction false} ReapExtends(H: HashFn, db: Db, i: nat, cutoff: string, stamp: Instant)
    requires ReapFrom(H, db, i, cutoff, stamp).Some?
    ensures db.events <= ReapFrom(H, db, i, cutoff, stamp).value.events
    decreases |db.requests| - i
  {
    hide Json.Loads;
    hide Json.Dumps;
    hide LogEvent;
    hide Less;
    hide DecidedFields;
    if i < |db.requests| {
      if !Stale(db.requests[i], cutoff) {
        ReapExtends(H, db, i + 1, cutoff, stamp);
      } else {
        var r := db.requests[i].(decision := Denied, reason := ABANDONED);
        var p, t := Json.Loads(r.params).value, r.(txId := None);
        var mid := db.(requests := db.requests[i := r]);
        var fields := DecidedFields(t.id, t.agent, t.action, t.amount, p, t.decision, t.reason, t.txId);
        LastEvent(H, mid, DECIDED, fields, stamp);
        Limits.LogOnly(H, mid, DECIDED, fields, stamp);
        ReapExtends(H, LogDecision(H, mid, t, p, stamp), i + 1, cutoff, stamp);
      }
    }
  }

  // Only an admitted reservation writes an inserting event, with its own view;
  // only a finalize to approved writes an approving one, with the view of the
  // row it finalized.
  lemma Writes(H: HashFn, db: Db, op: Op, j: nat)
    requires Legal(op) && Mirrored(db) && |db.events| <= j < |Apply(H, db, op).events|
    ensures var e := Apply(H, db, op).events[j];
            var c := ReadChange(e.eventType, e.payload);
            && (c.Insert? ==>
                  op.OpReserve? && Test(db, op.ask, op.now).Admitted? && j == |db.events|
                  && c.view == Reserved(ReservedRow(db, op.ask, op.now), op.ask))
            && (c.Settle? && c.view.decision == Approved ==>
                  op.OpFinalize? && op.decision == Approved && HasRow(db.requests, op.id) && j == |db.events|
                  && var r := db.requests[RowIndex(db.requests, op.id)];
                     ParamsParse(r) && c.view == ViewOf(r).(decision := Approved, txId := op.txId))
  {
    hide Json.Loads;
    hide Json.Dumps;
    hide LogEvent;
    hide ReapFrom;
    hide Less;
    hide Iso;
    hide ReadChange;
    hide DecidedFields;
    hide ReservedFields;
    hide CountSince;
    hide SpentOn;
    hide Fold;
    match op
    case OpDeny(agent, action, amount, reason, params, now, stamp) =>
      var r := Request(db.lastId + 1, Iso(now), agent, action, amount, Denied, reason, None, CanonicalParams(params));
      LastEvent(H, db.(requests := db.requests + [r], lastId := r.id), DECIDED,
                DecidedFields(r.id, r.agent, r.action, r.amount, ParamsValue(params), r.decision, r.reason, r.txId), stamp);
      ReadBackDecided(r.id, r.agent, r.action, r.amount, ParamsValue(params), r.decision, r.reason, r.txId);
    case OpReserve(ask, now, stamp) =>
      if Test(db, ask, now).Admitted? {
        var r := ReservedRow(db, ask, now);
        LastEvent(H, db.(requests := db.requests + [r], lastId := r.id), RESERVED,
                  ReservedFields(r.id, r.agent, r.action, r.amount, ParamsValue(ask.params), r.decision), stamp);
        ReadBackReserved(r.id, r.agent, r.action, r.amount, ParamsValue(ask.params), r.decision);
      }
    case OpFinalize(id, decision, reason, txId, stamp) =>
      if HasRow(db.requests, id) {
        var k := RowIndex(db.requests, id);
        var r := db.requests[k].(decision := decision, reason := reason, txId := txId);
        assert ParamsParse(db.requests[k]);
        var p := Json.Loads(r.params).value;
        LastEvent(H, db.(requests := db.requests[k := r]), DECIDED,
                  DecidedFields(r.id, r.agent, r.action, r.amount, p, r.decision, r.reason, r.txId), stamp);
        ReadBackDecided(r.id, r.agent, r.action, r.amount, p, r.decision, r.reason, r.txId);
      }
    case OpReap(olderThan, now, stamp) =>
      if ReapFrom(H, db, 0, WindowCutoff(now, olderThan), stamp).Some? {
        ReapOnlyDenies(H, db, 0, WindowCutoff(now, olderThan), stamp, j);
      }
    case OpReset(cleared, stamp) =>
      LastEvent(H, db.(requests := []), RESET, ClearedFields(cleared), stamp);
      IgnoredTypes(RESET, Apply(H, db, op).events[j].payload);
    case OpAnchor(s, headHash, txId, note, stamp) =>
      var a := AnchorRow(db.lastAnchorId + 1, s, headHash, txId, note);
      LastEvent(H, db.(anchors := db.anchors + [a], lastAnchorId := a.id), ANCHORED, AnchorFields(s, headHash, txId), stamp);
      IgnoredTypes(ANCHORED, Apply(H, db, op).events[j].payload);
    case OpEvent(t, payload, stamp) =>
      LastEvent(H, db, t, payload, stamp);
      IgnoredTypes(t, Apply(H, db, op).events[j].payload);
  }

  lemma IgnoredTypes(eventType: string, payload: string)
    requires eventType != RESERVED && eventType != DECIDED
    ensures !ReadChange(eventType, payload).Settle? && !ReadChange(eventType, payload).Insert?
    ensures ANCHORED != RESERVED && ANCHORED != DECIDED && RESET != RESERVED && RESET != DECIDED
  {
    assert ANCHORED[0] != RESERVED[0] && ANCHORED[0] != DECIDED[0];
  }

  // ---- unresolved rows look like their reservations ----

  ghost predicate Backed(events: seq<Event>, rows: seq<Request>) {
    forall i :: 0 <= i < |rows| && Unresolved(rows[i]) ==>
      ParamsParse(rows[i]) && HasReservation(events, ViewOf(rows[i]))
  }

  ghost predicate HasReservation(events: seq<Event>, v: RowView) {
    exists r :: ReservedAt(events, r, v)
  }

  lemma ReservationStays(before: seq<Event>, after: seq<Event>, v: RowView)
    requires HasReservation(before, v) && before <= after
    ensures HasReservation(after, v)
  {
    hide ReadChange;
    var r: nat :| ReservedAt(before, r, v);
    assert after[r] == before[r];
    assert ReservedAt(after, r, v);
  }

  // A reservation carries no transaction.
  lemma ReservationUnpaid(events: seq<Event>, v: RowView)
    requires HasReservation(events, v)
    ensures v.txId == None
  {
    hide Json.Loads;
  }

  // The view of a row as a hold.
  function AsHold(v: RowView): RowView {
    v.(decision := AwaitingApproval, txId := None)
  }

  // Rows after an operation, unresolved ones seen as before -- or put back to
  // awaiting approval by a finalize, or just added by a reservation.
  lemma RowsAfter(H: HashFn, db: Db, op: Op, i: nat)
    requires Legal(op) && Mirrored(db)
    requires i < |Apply(H, db, op).requests| && Unresolved(Apply(H, db, op).requests[i])
    ensures var after := Apply(H, db, op);
            ParamsParse(after.requests[i]) &&
            if i < |db.requests|
            then
              var r, r' := db.requests[i], after.requests[i];
              && ParamsParse(r) && r'.id == r.id
              && ((Unresolved(r) && ViewOf(r') == ViewOf(r))
                  || (op.OpFinalize? && op.decision == AwaitingApproval && op.id == r.id
                      && ViewOf(r') == ViewOf(r).(decision := AwaitingApproval, txId := op.txId)))
            else op.OpReserve? && i == |db.requests| && Test(db, op.ask, op.now).Admitted?
                 && after.requests[i] == ReservedRow(db, op.ask, op.now)
  {
    hide Json.Loads;
    hide Apply;
    hide Iso;
    hide Fold;
    hide CountSince;
    hide SpentOn;
    hide CanonicalParams;
    hide Pow2;
    var after := Apply(H, db, op);
    Limits.StepTable(H, db, op);
    MirroredNumbered(db);
    match op
    case OpDeny(_, _, _, _, _, _, _) =>
      assert i < |db.requests| ==> after.requests[..|db.requests|][i] == db.requests[i];
    case OpReserve(ask, _, _) => CanonicalParse(ask.params);
    case OpFinalize(id, _, _, _, _) =>
      if after.requests != db.requests {
        var k := RowIndex(db.requests, id);
        assert db.requests[i].id == id ==> i == k;
        assert Limits.SameRequest(db.requests[i], after.requests[i]);
      }
    case OpReap(_, _, _) => assert Limits.SameRequest(db.requests[i], after.requests[i]);
    case _ =>
  }

  lemma MirroredNumbered(db: Db)
    requires Mirrored(db)
    ensures Numbered(db)
  {
  }

  // ---- what every state keeps ----

  // A payment under way is for a row that is still unresolved and still
  // looks as it did when the payment was started -- or that was wiped.
  ghost predicate FlightsMatch(db: Db, flights: map<nat, RowView>) {
    forall id :: id in flights ==>
      && flights[id].id == id && id <= db.lastId && flights[id].txId == None
      && forall i :: 0 <= i < |db.requests| && db.requests[i].id == id ==>
           Unresolved(db.requests[i]) && ParamsParse(db.requests[i]) && ViewOf(db.requests[i]) == flights[id]
  }

  // A request still to be labelled has a reservation as a hold; its row, if
  // not wiped, may have been resolved, but is that same call.
  ghost predicate LabelsMatch(db: Db, labels: map<nat, RowView>) {
    forall id :: id in labels ==>
      && labels[id].id == id && id <= db.lastId && HasReservation(db.events, labels[id]) && AsHold(labels[id]) == labels[id]
      && forall i :: 0 <= i < |db.requests| && db.requests[i].id == id ==>
           db.requests[i].decision != Pending && ParamsParse(db.requests[i]) && AsHold(ViewOf(db.requests[i])) == labels[id]
  }

  ghost predicate Core(H: HashFn, s: State) {
    && AllLegal(s.history) && s.db == Exec(H, s.history)
    && (forall op :: op in s.history ==> Limits.NonNegative(op))
    && Backed(s.db.events, s.db.requests)
    && FlightsMatch(s.db, s.flights)
    && LabelsMatch(s.db, s.labels)
    && (forall k :: k in s.policy.actions ==> s.policy.actions[k].price >= 0)
  }

  // What the engine asks of the store: a finalize of no payment under way
  // other than by a label that is due, and no reap but after a restart.
  predicate Due(s: State, op: Op) {
    match op
    case OpFinalize(id, decision, _, txId, _) =>
      if decision == AwaitingApproval then txId == None && id in s.labels else id !in s.flights
    case OpReap(_, _, _) => s.flights == map[] && s.labels == map[]
    case _ => true
  }

  lemma CoreFacts(H: HashFn, s: State)
    requires Core(H, s)
    ensures Mirrored(s.db) && Numbered(s.db) && Honest(H, s.db.events)
  {
    hide Exec;
    TableIsReplay(H, s.history);
    Limits.LedgerGrows(H, s.history, |s.history|);
    MirroredNumbered(s.db);
  }

  lemma CoreParts(H: HashFn, s: State)
    requires Core(H, s)
    ensures Backed(s.db.events, s.db.requests) && FlightsMatch(s.db, s.flights) && LabelsMatch(s.db, s.labels)
    ensures AllLegal(s.history) && s.db == Exec(H, s.history)
    ensures forall op :: op in s.history ==> Limits.NonNegative(op)
    ensures forall k :: k in s.policy.actions ==> s.policy.actions[k].price >= 0
  {
  }

  lemma StepBacked(H: HashFn, s: State, op: Op)
    requires Legal(op) && Mirrored(s.db) && Due(s, op) && Honest(H, s.db.events)
    requires Backed(s.db.events, s.db.requests) && LabelsMatch(s.db, s.labels)
    ensures Backed(Apply(H, s.db, op).events, Apply(H, s.db, op).requests)
  {
    hide Apply;
    hide Mirrored;
    hide ReadChange;
    hide Honest;
    hide ViewOf;
    hide ParamsParse;
    hide HasReservation;
    hide Test;
    hide ReservedRow;
    var db, after := s.db, Apply(H, s.db, op);
    Limits.StepHonest(H, db, op);
    forall i | 0 <= i < |after.requests| && Unresolved(after.requests[i])
      ensures ParamsParse(after.requests[i]) && HasReservation(after.events, ViewOf(after.requests[i]))
    {
      RowsAfter(H, db, op, i);
      if i < |db.requests| {
        ReservationStays(db.events, after.events, ViewOf(after.requests[i]));
      } else {
        NewReservation(H, db, op.ask, op.now, op.stamp);
      }
    }
  }

  // The state right after an admitted reservation.
  lemma AfterReserve(H: HashFn, db: Db, ask: Ask, now: Instant, stamp: Instant)
    requires Legal(OpReserve(ask, now, stamp)) && Mirrored(db) && Test(db, ask, now).Admitted?
    ensures var after, r := Apply(H, db, OpReserve(ask, now, stamp)), ReservedRow(db, ask, now);
            && Test(db, ask, now).row == r && r.id == db.lastId + 1 == after.lastId
            && after.requests == db.requests + [r]
            && HasRow(after.requests, r.id) && after.requests[RowIndex(after.requests, r.id)] == r
            && ParamsParse(r) && ViewOf(r) == Reserved(r, ask)
            && ReservedAt(after.events, |db.events|, Reserved(r, ask))
            && |after.events| == |db.events| + 1
  {
    hide Json.Loads;
    hide Json.Dumps;
    hide LogEvent;
    hide Iso;
    hide ReadChange;
    hide ReservedFields;
    hide CountSince;
    hide SpentOn;
    hide CanonicalParams;
    hide Fold;
    var r := ReservedRow(db, ask, now);
    var mid := db.(requests := db.requests + [r], lastId := r.id);
    var fields := ReservedFields(r.id, r.agent, r.action, r.amount, ParamsValue(ask.params), r.decision);
    Limits.LogOnly(H, mid, RESERVED, fields, stamp);
    LastEvent(H, mid, RESERVED, fields, stamp);
    ReadBackReserved(r.id, r.agent, r.action, r.amount, ParamsValue(ask.params), r.decision);
    CanonicalParse(ask.params);
    assert mid.requests[|db.requests|].id == r.id;
  }

  lemma NewReservation(H: HashFn, db: Db, ask: Ask, now: Instant, stamp: Instant)
    requires Legal(OpReserve(ask, now, stamp)) && Mirrored(db) && Test(db, ask, now).Admitted?
    ensures var r := ReservedRow(db, ask, now);
            ParamsParse(r) && HasReservation(Apply(H, db, OpReserve(ask, now, stamp)).events, ViewOf(r))
  {
    hide Apply;
    hide Mirrored;
    hide ReservedAt;
    hide Test;
    hide ReservedRow;
    AfterReserve(H, db, ask, now, stamp);
  }

  lemma TestedRow(db: Db, ask: Ask, now: Instant)
    requires ask.window * US <= now
    ensures Test(db, ask, now).Admitted? ==> Test(db, ask, now).row == ReservedRow(db, ask, now)
  {
  }

  lemma ReservedView(db: Db, ask: Ask, now: Instant)
    ensures var r := ReservedRow(db, ask, now);
            var v := Reserved(r, ask);
            && v.id == r.id == db.lastId + 1 && v.agent == ask.agent && v.action == ask.action && v.amount == ask.amount
            && v.decision == ask.state == r.decision && v.txId == r.txId == None && r.amount == ask.amount
  {
  }

  // A row with an id that was already given out is an old row: unchanged, or
  // the one that is finalized, or -- without a reap -- gone.
  lemma OldRow(H: HashFn, db: Db, op: Op, i: nat)
    requires Legal(op) && Numbered(db) && !op.OpReap?
    requires i < |Apply(H, db, op).requests| && Apply(H, db, op).requests[i].id <= db.lastId
    ensures var after := Apply(H, db, op);
            i < |db.requests| && after.requests[i].id == db.requests[i].id &&
            (after.requests[i] == db.requests[i] ||
               (op.OpFinalize? && op.id == db.requests[i].id && Limits.SameRequest(db.requests[i], after.requests[i])
                && after.requests[i].decision == op.decision && after.requests[i].txId == op.txId))
  {
    hide Apply;
    hide Iso;
    hide CountSince;
    hide SpentOn;
    hide Pow2;
    var after := Apply(H, db, op);
    Limits.StepTable(H, db, op);
    match op
    case OpDeny(_, _, _, _, _, _, _) =>
      assert i < |db.requests| ==> after.requests[..|db.requests|][i] == db.requests[i];
    case OpFinalize(id, _, _, _, _) =>
      if after.requests != db.requests { assert i != RowIndex(db.requests, id) ==> after.requests[i] == db.requests[i]; }
    case _ =>
  }

  lemma SameCallView(r: Request, s: Request)
    requires Limits.SameRequest(r, s) && ParamsParse(r)
    ensures ParamsParse(s) && ViewOf(s) == ViewOf(r).(decision := s.decision, txId := s.txId)
    ensures ViewOf(r).decision == r.decision && ViewOf(r).txId == r.txId
  {
  }

  lemma FlightsKept(H: HashFn, s: State, op: Op)
    requires Legal(op) && Due(s, op) && Numbered(s.db) && FlightsMatch(s.db, s.flights) && LabelsMatch(s.db, s.labels)
    ensures FlightsMatch(Apply(H, s.db, op), s.flights)
  {
    hide Apply;
    hide ViewOf;
    hide ParamsParse;
    hide Numbered;
    hide HasReservation;
    var db, after := s.db, Apply(H, s.db, op);
    if !op.OpReap? {
      Limits.StepTable(H, db, op);
      TableGrows(db, op, after);
      forall id, i | id in s.flights && 0 <= i < |after.requests| && after.requests[i].id == id
        ensures Unresolved(after.requests[i]) && ParamsParse(after.requests[i]) && ViewOf(after.requests[i]) == s.flights[id]
      {
        OldRow(H, db, op, i);
        if after.requests[i] != db.requests[i] { SameCallView(db.requests[i], after.requests[i]); }
      }
    }
  }

  lemma TableGrows(db: Db, op: Op, after: Db)
    requires Legal(op) && Limits.TableStep(db, op, after)
    ensures db.lastId <= after.lastId
  {
    hide Test;
  }

  lemma LabelsKept(H: HashFn, s: State, op: Op)
    requires Legal(op) && Due(s, op) && Numbered(s.db) && LabelsMatch(s.db, s.labels) && Honest(H, s.db.events)
    ensures LabelsMatch(Apply(H, s.db, op), s.labels)
  {
    hide Apply;
    hide ViewOf;
    hide ParamsParse;
    hide Numbered;
    hide HasReservation;
    hide Honest;
    var db, after := s.db, Apply(H, s.db, op);
    if !op.OpReap? {
      Limits.StepTable(H, db, op);
      Limits.StepHonest(H, db, op);
      TableGrows(db, op, after);
      forall id | id in s.labels ensures HasReservation(after.events, s.labels[id]) {
        ReservationStays(db.events, after.events, s.labels[id]);
      }
      forall id, i | id in s.labels && 0 <= i < |after.requests| && after.requests[i].id == id
        ensures after.requests[i].decision != Pending && ParamsParse(after.requests[i])
        ensures AsHold(ViewOf(after.requests[i])) == s.labels[id]
      {
        OldRow(H, db, op, i);
        if after.requests[i] != db.requests[i] { SameCallView(db.requests[i], after.requests[i]); }
      }
    }
  }

  // One operation that is due.
  lemma CorePush(H: HashFn, s: State, op: Op)
    requires Core(H, s) && Legal(op) && Limits.NonNegative(op) && Due(s, op)
    ensures Core(H, Push(H, s, op))
    ensures s.db.events <= Push(H, s, op).db.events
  {
    hide Apply;
    hide Backed;
    hide FlightsMatch;
    hide LabelsMatch;
    hide Due;
    hide Mirrored;
    hide Numbered;
    hide Honest;
    hide Limits.NonNegative;
    var s' := Push(H, s, op);
    CoreFacts(H, s);
    Limits.StepHonest(H, s.db, op);
    StepBacked(H, s, op);
    FlightsKept(H, s, op);
    LabelsKept(H, s, op);
    assert s'.history[..|s.history|] == s.history;
  }

  // Anything else about a state may change.
  lemma CoreWith(H: HashFn, s: State, flights: map<nat, RowView>, labels: map<nat, RowView>, seen: Identity.Seen)
    requires Core(H, s) && FlightsMatch(s.db, flights) && LabelsMatch(s.db, labels)
    ensures Core(H, s.(flights := flights, labels := labels, seen := seen))
  {
    hide Exec;
    hide Backed;
    hide FlightsMatch;
    hide LabelsMatch;
  }

  lemma CoreFewer(H: HashFn, s: State, flights: map<nat, RowView>, labels: map<nat, RowView>, seen: Identity.Seen)
    requires Core(H, s)
    requires forall id :: id in flights ==> id in s.flights && flights[id] == s.flights[id]
    requires forall id :: id in labels ==> id in s.labels && labels[id] == s.labels[id]
    ensures Core(H, s.(flights := flights, labels := labels, seen := seen))
  {
    hide Exec;
    hide Backed;
    hide HasReservation;
    hide AsHold;
    hide ViewOf;
    hide ParamsParse;
  }

  lemma FlightAdded(db: Db, flights: map<nat, RowView>, id: nat, v: RowView)
    requires FlightsMatch(db, flights) && Numbered(db) && HasRow(db.requests, id) && v.txId == None
    requires var r := db.requests[RowIndex(db.requests, id)]; Unresolved(r) && ParamsParse(r) && ViewOf(r) == v
    ensures FlightsMatch(db, flights[id := v])
  {
    hide ParamsParse;
    var k := RowIndex(db.requests, id);
    assert forall i :: 0 <= i < |db.requests| && db.requests[i].id == id ==> i == k;
    assert id <= db.lastId;
  }

  lemma LabelAdded(db: Db, labels: map<nat, RowView>, id: nat, v: RowView)
    requires LabelsMatch(db, labels) && Numbered(db) && HasRow(db.requests, id) && HasReservation(db.events, v)
    requires var r := db.requests[RowIndex(db.requests, id)];
             r.decision == AwaitingApproval && r.txId == None && ParamsParse(r) && ViewOf(r) == v
    ensures LabelsMatch(db, labels[id := v])
  {
    hide ParamsParse;
    hide HasReservation;
    var k := RowIndex(db.requests, id);
    assert forall i :: 0 <= i < |db.requests| && db.requests[i].id == id ==> i == k;
    assert id <= db.lastId;
  }

  lemma SlotReserved(H: HashFn, s: State, ask: Ask, now: Instant, stamp: Instant)
    requires Core(H, s) && Legal(OpReserve(ask, now, stamp)) && ask.amount >= 0 && Test(s.db, ask, now).Admitted?
    ensures var mid, id, v := Push(H, s, OpReserve(ask, now, stamp)), s.db.lastId + 1, Reserved(ReservedRow(s.db, ask, now), ask);
            && Core(H, mid) && s.db.events <= mid.db.events && |mid.db.events| == |s.db.events| + 1
            && ReservedAt(mid.db.events, |s.db.events|, v)
            && (ask.state == AwaitingApproval ==> LabelsMatch(mid.db, mid.labels[id := v]))
            && FlightsMatch(mid.db, mid.flights[id := v])
  {
    hide Apply;
    hide ReadChange;
    hide Test;
    hide Core;
    hide Mirrored;
    hide Numbered;
    hide Reserved;
    hide ReservedRow;
    hide ViewOf;
    hide ParamsParse;
    hide FlightsMatch;
    hide LabelsMatch;
    CoreFacts(H, s);
    AfterReserve(H, s.db, ask, now, stamp);
    CorePush(H, s, OpReserve(ask, now, stamp));
    var mid, v := Push(H, s, OpReserve(ask, now, stamp)), Reserved(ReservedRow(s.db, ask, now), ask);
    CoreFacts(H, mid);
    CoreParts(H, mid);
    ReservedView(s.db, ask, now);
    FlightAdded(mid.db, mid.flights, s.db.lastId + 1, v);
    if ask.state == AwaitingApproval { LabelAdded(mid.db, mid.labels, s.db.lastId + 1, v); }
  }

  lemma DepartedCore(H: HashFn, s: State, ask: Ask, now: Instant, stamp: Instant)
    requires Core(H, s) && Legal(OpReserve(ask, now, stamp)) && ask.amount >= 0 && Test(s.db, ask, now).Admitted?
    ensures Core(H, Departed(H, s, ask, now, stamp))
    ensures ask.state == AwaitingApproval ==> Core(H, Parked(H, s, ask, now, stamp))
  {
    hide Apply;
    hide Test;
    hide Core;
    hide Reserved;
    hide ReservedRow;
    hide ReservedAt;
    hide FlightsMatch;
    hide LabelsMatch;
    SlotReserved(H, s, ask, now, stamp);
    var mid, v := Push(H, s, OpReserve(ask, now, stamp)), Reserved(ReservedRow(s.db, ask, now), ask);
    CoreParts(H, mid);
    CoreWith(H, mid, mid.flights[s.db.lastId + 1 := v], mid.labels, mid.seen);
    if ask.state == AwaitingApproval { CoreWith(H, mid, mid.flights, mid.labels[s.db.lastId + 1 := v], mid.seen); }
  }

  // A hold that can be released is as it was reserved.
  lemma HoldFacts(H: HashFn, s: State, id: nat)
    requires Core(H, s) && Holdable(s, id)
    ensures var v := ViewOf(s.db.requests[RowIndex(s.db.requests, id)]);
            v.id == id && v.decision == AwaitingApproval && v.txId == None && HasReservation(s.db.events, v)
  {
    hide ReservedAt;
    var i := RowIndex(s.db.requests, id);
    assert Unresolved(s.db.requests[i]);
    ReservationUnpaid(s.db.events, ViewOf(s.db.requests[i]));
  }

  // A grant keeps the core: the hold's payment joins those under way.
  lemma GrantCore(H: HashFn, s: State, id: nat, v: RowView, stamp: Instant)
    requires Core(H, s) && Holdable(s, id) && v == ViewOf(s.db.requests[RowIndex(s.db.requests, id)])
    ensures v.id == id && Core(H, Released(H, s, v, stamp))
    ensures s.db.events <= Released(H, s, v, stamp).db.events && HasReservation(s.db.events, v)
    ensures var after := Released(H, s, v, stamp).db.events;
            |after| == |s.db.events| + 1
            && after[|s.db.events|].eventType == GRANTED && after[|s.db.events|].payload == Json.Dumps(GrantPayload(v))
  {
    hide Core;
    hide ReadChange;
    hide ViewOf;
    hide ParamsParse;
    hide LogEvent;
    hide Mirrored;
    hide Numbered;
    hide HasReservation;
    hide FlightsMatch;
    hide LabelsMatch;
    hide Json.Dumps;
    var op := OpEvent(GRANTED, GrantPayload(v), stamp);
    var mid := Push(H, s, op);
    HoldFacts(H, s, id);
    CorePush(H, s, op);
    LastEvent(H, s.db, GRANTED, GrantPayload(v), stamp);
    Limits.LogOnly(H, s.db, GRANTED, GrantPayload(v), stamp);
    CoreFacts(H, mid);
    CoreParts(H, mid);
    FlightAdded(mid.db, mid.flights, id, v);
    CoreWith(H, mid, mid.flights[id := v], mid.labels, mid.seen);
  }

  // The row a payment finalizes, if it has not been wiped.
  lemma FlightRow(H: HashFn, s: State, id: nat)
    requires Core(H, s) && id in s.flights
    ensures HasRow(s.db.requests, id) ==>
              (var r := s.db.requests[RowIndex(s.db.requests, id)];
               Unresolved(r) && ParamsParse(r) && ViewOf(r) == s.flights[id])
  {
    CoreParts(H, s);
  }
}
