/** The spend, approve and reject endpoints as they run, cut where other calls
    can get in between: one check after another and a reservation; a payment
    that ends later; a label. Each piece is proved to be a step of the decision
    state machine, so that every theorem about its runs holds of the gateway. */
module Gateway {
  import opened Text
  import opened Clock
  import opened Ledger
  import opened Anchor
  import opened Store
  import opened View
  import opened CallParams
  import opened Engine
  import opened Provenance
  import Database
  import Identity
  import Json
  import Limits

  datatype Answer = Answer(decision: Decision, code: string)

  // What a call has come to so far.
  datatype Progress = Answered(answer: Answer) | Paying(id: nat) | Holding(id: nat)

  // A new last row, of this agent and decision.
  predicate Adds(before: seq<Request>, after: seq<Request>, agent: string, decision: Decision) {
    && |after| == |before| + 1 && after[..|before|] == before
    && after[|before|].agent == agent && after[|before|].decision == decision
  }

  // The row is of this call, made then.
  predicate Says(r: Request, action: string, amount: Money, params: Params, now: Instant) {
    r.action == action && r.amount == amount && r.params == CanonicalParams(params) && r.timestamp == Iso(now) && r.txId == None
  }

  // How a request is answered: refused with the gate's code or the store's,
  // held exactly when there is a threshold and the cost exceeds it, paid for
  // otherwise; its row is of the action, at the cost, of the moment.
  ghost predicate Answers(policy: Policy, db: Db, signed: bool, req: SpendReq, now: Instant, r: Request, next: Progress)
    requires VELOCITY_WINDOW * US <= now
  {
    && r.action == req.action && r.timestamp == Iso(now)
    && r.amount == (if req.agent in policy.agents && req.action in policy.actions then Cost(policy, req) else 0)
    && match Decide(policy, req, signed)
       case Refuse(_, params, code) => next == Answered(Answer(Denied, code)) && r.params == CanonicalParams(params)
       case Proceed(ask) =>
         && req.agent in policy.agents && req.action in policy.actions && ask.window == VELOCITY_WINDOW
         && r.params == CanonicalParams(ask.params)
         && match Test(db, ask, now)
            case OverVelocity(_, _) => next == Answered(Answer(Denied, "over_velocity_limit"))
            case OverCap(_) => next == Answered(Answer(Denied, "over_daily_cap"))
            case Admitted(_) =>
              var above := policy.agents[req.agent].approveAbove;
              if above.Some? && Cost(policy, req) > above.value then next.Holding? else next.Paying?
  }

  // The row of the id takes the decision; the call it stands for and every
  // other row stay as they were.
  predicate Resolves(before: seq<Request>, after: seq<Request>, id: nat, decision: Decision) {
    HasRow(before, id) &&
    var k := RowIndex(before, id);
    && |after| == |before| && after == before[k := after[k]]
    && Limits.SameRequest(before[k], after[k]) && after[k].decision == decision
  }

  predicate Held(rows: seq<Request>, id: nat) {
    HasRow(rows, id) && rows[RowIndex(rows, id)].decision == AwaitingApproval
  }

  // No row is left pending but by a payment that is still under way.
  ghost predicate PendingCovered(rows: seq<Request>, flights: map<nat, RowView>) {
    forall i :: 0 <= i < |rows| && rows[i].decision == Pending ==> rows[i].id in flights
  }

  // The gate or the store turns the request away, with that code.
  predicate TurnedAway(policy: Policy, db: Db, signed: bool, a: Action, amount: Money, params: Params, code: string)
    requires a.Spend? && WellTimed(a)
  {
    match Decide(policy, a.req, signed)
    case Refuse(m, p, c) => m == amount && p == params && c == code
    case Proceed(ask) =>
      && ask.amount == amount && ask.params == params && ask.window == VELOCITY_WINDOW
      && match Test(db, ask, a.now)
         case OverVelocity(_, _) => code == "over_velocity_limit"
         case OverCap(_) => code == "over_daily_cap"
         case Admitted(_) => false
  }

  // ---- the steps, as the endpoints take them ----

  lemma RefusedStep(H: HashFn, s: State, a: Action, amount: Money, params: Params, code: string)
    requires a.Spend? && WellTimed(a)
    requires TurnedAway(s.policy, s.db, CheckSignature(s.policy, s.seen, a.req, a.clock).0, a, amount, params, code)
    ensures var s', db' := Fire(H, s, a), LogDenial(H, s.db, a.req.agent, a.req.action, amount, a.why, params, a.now, a.stamp);
            s' == s.(db := db', seen := CheckSignature(s.policy, s.seen, a.req, a.clock).1, history := s'.history)
  {
    hide LogDenial;
    hide Test;
    hide Decide;
    hide CheckSignature;
    var signed := CheckSignature(s.policy, s.seen, a.req, a.clock).0;
    if Decide(s.policy, a.req, signed).Proceed? { GateFacts(s.policy, a.req, signed); }
  }

  lemma AdmittedStep(H: HashFn, s: State, a: Action, ask: Ask)
    requires a.Spend? && WellTimed(a) && Decide(s.policy, a.req, CheckSignature(s.policy, s.seen, a.req, a.clock).0) == Proceed(ask)
    requires Legal(OpReserve(ask, a.now, a.stamp)) && Test(s.db, ask, a.now).Admitted?
    ensures var s', id, v := Fire(H, s, a), s.db.lastId + 1, Reserved(ReservedRow(s.db, ask, a.now), ask);
            s' == s.(db := Store.TryReserve(H, s.db, ask, a.now, a.stamp), seen := CheckSignature(s.policy, s.seen, a.req, a.clock).1,
                     flights := if ask.state == AwaitingApproval then s.flights else s.flights[id := v],
                     labels := if ask.state == AwaitingApproval then s.labels[id := v] else s.labels,
                     history := s'.history)
  {
    hide Store.TryReserve;
    hide Test;
    hide Decide;
    hide CheckSignature;
    hide Reserved;
    hide ReservedRow;
  }

  // An operator's release: a grant and a payment begun ...
  lemma ReleasedStep(H: HashFn, s: State, a: Action, v: RowView)
    requires Core(H, s) && a.Approve? && Holdable(s, a.id)
    requires v == ViewOf(s.db.requests[RowIndex(s.db.requests, a.id)]) && Permits(s.policy, v.agent, v.action)
    ensures v.id == a.id
    ensures Fire(H, s, a) ==
      s.(db := LogEvent(H, s.db, GRANTED, GrantPayload(v), a.stamp), flights := s.flights[a.id := v], history := Fire(H, s, a).history)
  {
    hide LogEvent;
    hide Refusal;
    hide Core;
    hide ViewOf;
    hide ParamsParse;
    hide Permits;
    hide HasReservation;
    HoldFacts(H, s, a.id);
  }

  // ... or a refusal.
  lemma BlockedStep(H: HashFn, s: State, a: Action, v: RowView)
    requires a.Approve? && Holdable(s, a.id)
    requires v == ViewOf(s.db.requests[RowIndex(s.db.requests, a.id)]) && !Permits(s.policy, v.agent, v.action)
    ensures Fire(H, s, a) == Blocked(H, s, a.id, a.why, a.stamp)
  {
    hide Blocked;
    hide ViewOf;
    hide ParamsParse;
    hide Permits;
  }

  lemma RejectedStep(H: HashFn, s: State, a: Action, v: RowView)
    requires a.Reject? && Holdable(s, a.id) && v == ViewOf(s.db.requests[RowIndex(s.db.requests, a.id)])
    ensures Fire(H, s, a) == Rejected(H, s, v, a.id, a.why, a.stamp)
  {
    hide Rejected;
    hide ViewOf;
    hide ParamsParse;
  }

  lemma ReservedAdds(H: HashFn, db: Db, ask: Ask, now: Instant, stamp: Instant)
    requires Legal(OpReserve(ask, now, stamp)) && Mirrored(db) && Test(db, ask, now).Admitted?
    ensures var after := Store.TryReserve(H, db, ask, now, stamp);
            && Adds(db.requests, after.requests, ask.agent, ask.state) && after.requests[|db.requests|].id == db.lastId + 1 == after.lastId
            && Says(after.requests[|db.requests|], ask.action, ask.amount, ask.params, now)
  {
    hide Test;
    hide Mirrored;
    hide Store.TryReserve;
    hide ViewOf;
    hide ParamsParse;
    hide ReservedAt;
    hide Iso;
    hide CanonicalParams;
    AfterReserve(H, db, ask, now, stamp);
    var mid := Apply(H, db, OpReserve(ask, now, stamp));
    assert mid == Store.TryReserve(H, db, ask, now, stamp);
  }

  // An admitted request, as one step and as one row.
  lemma AdmittedRow(H: HashFn, s: State, a: Action, ask: Ask)
    requires a.Spend? && WellTimed(a) && Mirrored(s.db)
    requires Decide(s.policy, a.req, CheckSignature(s.policy, s.seen, a.req, a.clock).0) == Proceed(ask)
    requires Legal(OpReserve(ask, a.now, a.stamp)) && Test(s.db, ask, a.now).Admitted?
    ensures var s', id, v := Fire(H, s, a), s.db.lastId + 1, Reserved(ReservedRow(s.db, ask, a.now), ask);
            && s'.db == Store.TryReserve(H, s.db, ask, a.now, a.stamp) && s'.policy == s.policy
            && s'.seen == CheckSignature(s.policy, s.seen, a.req, a.clock).1
            && s'.flights == (if ask.state == AwaitingApproval then s.flights else s.flights[id := v])
            && s'.labels == (if ask.state == AwaitingApproval then s.labels[id := v] else s.labels)
            && Adds(s.db.requests, s'.db.requests, ask.agent, ask.state) && s'.db.requests[|s.db.requests|].id == id
            && Says(s'.db.requests[|s.db.requests|], ask.action, ask.amount, ask.params, a.now)
            && Test(s.db, ask, a.now).row.id == id
  {
    hide Store.TryReserve;
    hide Test;
    hide Decide;
    hide CheckSignature;
    hide Reserved;
    hide ReservedRow;
    hide Mirrored;
    hide Adds;
    hide Says;
    AdmittedStep(H, s, a, ask);
    ReservedAdds(H, s.db, ask, a.now, a.stamp);
    TestedRow(s.db, ask, a.now);
    ReservedView(s.db, ask, a.now);
  }

  lemma DeniedAdds(H: HashFn, db: Db, agent: string, action: string, amount: Money, why: string, params: Params, now: Instant, stamp: Instant)
    ensures var after := LogDenial(H, db, agent, action, amount, why, params, now, stamp).requests;
            Adds(db.requests, after, agent, Denied) && Says(after[|db.requests|], action, amount, params, now)
  {
    hide LogEvent;
    hide Iso;
    hide CanonicalParams;
    var r := Request(db.lastId + 1, Iso(now), agent, action, amount, Denied, why, None, CanonicalParams(params));
    Limits.LogOnly(H, db.(requests := db.requests + [r], lastId := r.id), DECIDED,
                   DecidedFields(r.id, agent, action, amount, ParamsValue(params), Denied, why, None), stamp);
  }

  // In every state a finalize fails exactly when its row is gone.
  lemma FinalizeResolves(H: HashFn, db: Db, id: nat, decision: Decision, why: string, tx: Option<string>, stamp: Instant)
    requires Mirrored(db)
    ensures match Store.Finalize(H, db, id, decision, why, tx, stamp)
            case None => !HasRow(db.requests, id)
            case Some(after) => HasRow(db.requests, id) && Resolves(db.requests, after.requests, id, decision)
  {
    hide LogEvent;
    hide Json.Loads;
    hide DecidedFields;
    hide Fold;
    if HasRow(db.requests, id) {
      var k := RowIndex(db.requests, id);
      var r := db.requests[k].(decision := decision, reason := why, txId := tx);
      assert ParamsParse(db.requests[k]);
      Limits.LogOnly(H, db.(requests := db.requests[k := r]), DECIDED,
                     DecidedFields(r.id, r.agent, r.action, r.amount, Json.Loads(r.params).value, r.decision, r.reason, r.txId), stamp);
    }
  }

  lemma RunFacts(H: HashFn, trace: seq<Action>)
    requires AllTimed(trace)
    ensures Core(H, RunAll(H, trace)) && Mirrored(RunAll(H, trace).db) && Numbered(RunAll(H, trace).db)
    ensures forall id :: id in RunAll(H, trace).labels ==> id <= RunAll(H, trace).db.lastId
  {
    hide RunAll;
    hide Core;
    hide Trace;
    hide ViewOf;
    hide ParamsParse;
    hide HasReservation;
    AlwaysKept(H, trace);
    CoreFacts(H, RunAll(H, trace));
    CoreParts(H, RunAll(H, trace));
  }

  lemma CoveredAdd(before: seq<Request>, after: seq<Request>, agent: string, decision: Decision,
                   flights: map<nat, RowView>, flights': map<nat, RowView>)
    requires PendingCovered(before, flights) && Adds(before, after, agent, decision) && flights.Keys <= flights'.Keys
    requires decision == Pending ==> after[|before|].id in flights'
    ensures PendingCovered(after, flights')
  {
    assert forall i :: 0 <= i < |before| ==> after[i] == after[..|before|][i];
  }

  lemma CoveredResolve(db: Db, after: seq<Request>, id: nat, decision: Decision, flights: map<nat, RowView>, flights': map<nat, RowView>)
    requires PendingCovered(db.requests, flights) && Numbered(db) && decision != Pending
    requires if HasRow(db.requests, id) then Resolves(db.requests, after, id, decision) else after == db.requests
    requires flights.Keys <= flights'.Keys + {id}
    ensures PendingCovered(after, flights')
  {
    forall i | 0 <= i < |after| && after[i].decision == Pending ensures after[i].id in flights' {
      if HasRow(db.requests, id) {
        var k := RowIndex(db.requests, id);
        assert i != k && after[i] == db.requests[i];
      } else {
        assert db.requests[i].id != id;
      }
    }
  }

  // A row just added and then resolved is a row added resolved.
  lemma AddsResolved(db: Db, mid: Db, after: seq<Request>, agent: string, first: Decision, id: nat, last: Decision)
    requires Numbered(mid) && Adds(db.requests, mid.requests, agent, first) && mid.requests[|db.requests|].id == id
    requires Resolves(mid.requests, after, id, last)
    ensures Adds(db.requests, after, agent, last)
  {
    assert RowIndex(mid.requests, id) == |db.requests|;
  }

  // The next event after these is of this type and payload.
  ghost predicate Noted(before: seq<Event>, after: seq<Event>, eventType: string, payload: Json.Value) {
    && |before| < |after| && after[..|before|] == before
    && after[|before|].eventType == eventType && after[|before|].payload == Json.Dumps(payload)
  }

  lemma LogNoted(H: HashFn, db: Db, eventType: string, payload: Json.Value, stamp: Instant)
    ensures Noted(db.events, LogEvent(H, db, eventType, payload, stamp).events, eventType, payload)
  {
    hide Iso;
    hide Json.Dumps;
    hide EntryHash;
  }

  // A finalize adds to the ledger and changes nothing in it.
  lemma FinalizeAppends(H: HashFn, db: Db, id: nat, decision: Decision, why: string, tx: Option<string>, stamp: Instant)
    ensures match Store.Finalize(H, db, id, decision, why, tx, stamp)
            case None => true
            case Some(after) => db.events <= after.events
  {
    hide Iso;
    hide Json.Dumps;
    hide Json.Loads;
    hide EntryHash;
    hide DecidedFields;
  }

  lemma NotedBelow(before: seq<Event>, mid: seq<Event>, after: seq<Event>, eventType: string, payload: Json.Value)
    requires Noted(before, mid, eventType, payload) && mid <= after
    ensures Noted(before, after, eventType, payload)
  {
    hide Json.Dumps;
    assert after[..|before|] == mid[..|before|];
    assert after[|before|] == mid[|before|];
  }

  class Endpoints {
    const db: Database.Sqlite
    const guard: Identity.ReplayGuard
    var policy: Policy
    // The calls that are between two pieces.
    ghost var flights: map<nat, RowView>
    ghost var labels: map<nat, RowView>
    ghost var trace: seq<Action>

    // The objects are what the steps so far have made of them, the guard
    // remembering what it did then.
    ghost predicate At(seen: Identity.Seen)
      reads this, db
    {
      AllTimed(trace) && RunAll(db.H, trace) == State(db.Value(), policy, flights, labels, seen, RunAll(db.H, trace).history)
    }

    ghost predicate Valid()
      reads this, db, guard
    {
      At(guard.seen) && PendingCovered(db.requests, flights)
    }

    constructor (H: HashFn)
      ensures Valid() && fresh(db) && fresh(guard) && trace == [] && db.Value() == EMPTY && db.H == H
      ensures flights == map[] && labels == map[]
    {
      db := new Database.Sqlite(H);
      guard := new Identity.ReplayGuard();
      policy := Policy(map[], map[]);
      flights, labels, trace := map[], map[], [];
    }

    method LoadPolicy(latest: Policy)
      requires Valid() && WellTimed(SetPolicy(latest))
      modifies this`policy, this`trace
      ensures Valid() && trace == old(trace) + [SetPolicy(latest)] && policy == latest
    {
      hide RunAll;
      RunMore(db.H, trace, SetPolicy(latest));
      policy, trace := latest, trace + [SetPolicy(latest)];
    }

    // _deny
    method Deny(ghost a: Action, ghost seen: Identity.Seen, agent: string, action: string, amount: Money, why: string, code: string,
                params: Params, now: Instant, stamp: Instant) returns (answer: Answer)
      requires At(seen) && PendingCovered(db.requests, flights) && a.Spend? && WellTimed(a)
      requires a == Action.Spend(a.req, a.clock, now, stamp, why) && a.req.agent == agent && a.req.action == action
      requires var (signed, after) := CheckSignature(policy, seen, a.req, a.clock);
               guard.seen == after && TurnedAway(policy, db.Value(), signed, a, amount, params, code)
      modifies this`trace, db
      ensures Valid() && trace == old(trace) + [a] && answer == Answer(Denied, code)
      ensures Adds(old(db.requests), db.requests, agent, Denied) && flights == old(flights) && labels == old(labels)
      ensures Answers(policy, old(db.Value()), CheckSignature(policy, seen, a.req, a.clock).0, a.req, now,
                      db.requests[|old(db.requests)|], Answered(answer))
    {
      hide RunAll;
      hide Says;
      hide Answers;
      hide LogRow;
      hide TurnedAway;
      hide CheckSignature;
      hide Fire;
      hide Adds;
      hide PendingCovered;
      RunMore(db.H, trace, a);
      RefusedStep(db.H, RunAll(db.H, trace), a, amount, params, code);
      ghost var before, signed := db.Value(), CheckSignature(policy, seen, a.req, a.clock).0;
      DeniedAdds(db.H, db.Value(), agent, action, amount, why, params, now, stamp);
      trace := trace + [a];
      var row := db.LogRequest(agent, action, amount, Denied, why, None, params, now, stamp);
      CoveredAdd(old(db.requests), db.requests, agent, Denied, flights, flights);
      AddsOne(before.requests, db.requests, agent);
      AwayAnswers(policy, before, signed, a, amount, params, code, db.requests[|before.requests|]);
      answer := Answer(Denied, code);
    }

    // spend, up to the reservation. Whatever happens, the request leaves one
    // new row: denied with its answer, or reserved and permitted.
    method BeginSpend(req: SpendReq, clock: int, now: Instant, stamp: Instant, why: string) returns (next: Progress)
      requires Valid() && WellTimed(Action.Spend(req, clock, now, stamp, why))
      modifies this`trace, this`flights, this`labels, guard, db
      ensures Valid() && trace == old(trace) + [Action.Spend(req, clock, now, stamp, why)]
      ensures match next
              case Answered(answer) =>
                answer.decision == Denied && Adds(old(db.requests), db.requests, req.agent, Denied)
                && flights == old(flights) && labels == old(labels)
              case Paying(id) =>
                Adds(old(db.requests), db.requests, req.agent, Pending) && Permits(policy, req.agent, req.action)
                && id == old(db.lastId) + 1 == db.requests[|old(db.requests)|].id && flights.Keys == old(flights.Keys) + {id} && labels == old(labels)
              case Holding(id) =>
                Adds(old(db.requests), db.requests, req.agent, AwaitingApproval) && Permits(policy, req.agent, req.action)
                && id == old(db.lastId) + 1 == db.requests[|old(db.requests)|].id && flights == old(flights) && labels.Keys == old(labels.Keys) + {id}
      ensures Answers(policy, old(db.Value()), CheckSignature(policy, old(guard.seen), req, clock).0, req, now,
                      db.requests[|old(db.requests)|], next)
    {
      hide RunAll;
      hide TurnedAway;
      hide Resolve;
      hide Test;
      hide Adds;
      hide PendingCovered;
      hide At;
      hide Identity.Verify;
      hide Answers;
      hide Says;
      ghost var a, seen := Action.Spend(req, clock, now, stamp, why), guard.seen;
      if req.agent !in policy.agents {
        AwayRefused(policy, db.Value(), false, a);
        var denied := Deny(a, seen, req.agent, req.action, 0, why, "unknown_agent", req.params, now, stamp);
        return Answered(denied);
      }
      if req.action !in policy.actions {
        AwayRefused(policy, db.Value(), false, a);
        var denied := Deny(a, seen, req.agent, req.action, 0, why, "unknown_action", req.params, now, stamp);
        return Answered(denied);
      }
      var cfg, action := policy.agents[req.agent], policy.actions[req.action];
      var amount := if req.amount.Some? then req.amount.value else action.price;
      if !req.keyOnFile {
        AwayRefused(policy, db.Value(), false, a);
        var denied := Deny(a, seen, req.agent, req.action, amount, why, "no_signing_key", req.params, now, stamp);
        return Answered(denied);
      }
      var verdict := guard.VerifyRequest(Signed(req), clock);
      if verdict != Identity.Accepted {
        AwayRefused(policy, db.Value(), false, a);
        var denied := Deny(a, seen, req.agent, req.action, amount, why, "identity_failed", req.params, now, stamp);
        return Answered(denied);
      }
      if cfg.frozen {
        AwayRefused(policy, db.Value(), true, a);
        var denied := Deny(a, seen, req.agent, req.action, amount, why, "frozen", req.params, now, stamp);
        return Answered(denied);
      }
      if req.action !in cfg.allowed {
        AwayRefused(policy, db.Value(), true, a);
        var denied := Deny(a, seen, req.agent, req.action, amount, why, "action_not_allowed", req.params, now, stamp);
        return Answered(denied);
      }
      var resolution := ResolveParams(action.schema, req.params);
      if !resolution.Resolved? {
        AwayRefused(policy, db.Value(), true, a);
        var denied := Deny(a, seen, req.agent, req.action, amount, why, "invalid_params", req.params, now, stamp);
        return Answered(denied);
      }
      var params := resolution.params;
      if amount > cfg.perRequest {
        AwayRefused(policy, db.Value(), true, a);
        var denied := Deny(a, seen, req.agent, req.action, amount, why, "over_per_request_limit", params, now, stamp);
        return Answered(denied);
      }
      var needsApproval := cfg.approveAbove.Some? && amount > cfg.approveAbove.value;
      var ask := Ask(req.agent, req.action, amount, cfg.dailyCap, if needsApproval then AwaitingApproval else Pending, params,
                     cfg.maxPerMinute, VELOCITY_WINDOW);
      assert Decide(policy, req, true) == Proceed(ask);
      next := Admit(a, seen, ask, now, stamp, why);
    }

    // The reservation, and which way it goes.
    method Admit(ghost a: Action, ghost seen: Identity.Seen, ask: Ask, now: Instant, stamp: Instant, why: string) returns (next: Progress)
      requires At(seen) && PendingCovered(db.requests, flights) && a.Spend? && WellTimed(a)
      requires a == Action.Spend(a.req, a.clock, now, stamp, why)
      requires var (signed, after) := CheckSignature(policy, seen, a.req, a.clock);
               guard.seen == after && Decide(policy, a.req, signed) == Proceed(ask) && ask.window == VELOCITY_WINDOW
      modifies this`trace, this`flights, this`labels, db
      ensures Valid() && trace == old(trace) + [a]
      ensures match next
              case Answered(answer) =>
                answer.decision == Denied && Adds(old(db.requests), db.requests, ask.agent, Denied)
                && flights == old(flights) && labels == old(labels)
              case Paying(id) =>
                ask.state == Pending && Adds(old(db.requests), db.requests, ask.agent, Pending)
                && id == old(db.lastId) + 1 == db.requests[|old(db.requests)|].id && flights.Keys == old(flights.Keys) + {id} && labels == old(labels)
              case Holding(id) =>
                ask.state == AwaitingApproval && Adds(old(db.requests), db.requests, ask.agent, AwaitingApproval)
                && id == old(db.lastId) + 1 == db.requests[|old(db.requests)|].id && flights == old(flights) && labels.Keys == old(labels.Keys) + {id}
      ensures Answers(policy, old(db.Value()), CheckSignature(policy, seen, a.req, a.clock).0, a.req, now,
                      db.requests[|old(db.requests)|], next)
    {
      hide RunAll;
      hide Says;
      hide Answers;
      hide Adds;
      hide Decide;
      hide CheckSignature;
      hide TurnedAway;
      hide Test;
      hide PendingCovered;
      hide Store.TryReserve;
      hide Fire;
      hide Iso;
      hide CanonicalParams;
      hide Json.Dumps;
      hide Permits;
      hide Core;
      hide Mirrored;
      hide Numbered;
      hide Reserved;
      hide ReservedRow;
      ghost var s := RunAll(db.H, trace);
      AskSound(policy, a.req, CheckSignature(policy, seen, a.req, a.clock).0, ask);
      RunFacts(db.H, trace);
      var reservation := db.TryReserve(ask, now, stamp);
      if !reservation.Admitted? {
        AwayUnadmitted(policy, s.db, CheckSignature(policy, seen, a.req, a.clock).0, a, ask);
        var denied := Deny(a, seen, ask.agent, ask.action, ask.amount, why,
                           if reservation.OverVelocity? then "over_velocity_limit" else "over_daily_cap", ask.params, now, stamp);
        return Answered(denied);
      }
      RunMore(db.H, trace, a);
      var id := reservation.row.id;
      next := if ask.state == AwaitingApproval then Holding(id) else Paying(id);
      AdmittedFully(db.H, s, a, ask, next);
      ghost var v := Reserved(ReservedRow(s.db, ask, now), ask);
      trace := trace + [a];
      if ask.state == AwaitingApproval {
        labels := labels[id := v];
      } else {
        flights := flights[id := v];
      }
    }

    // _execute_payment. An ok response finalizes as approved, settlement
    // details or not; every other way out finalizes as denied. When the row
    // has been wiped meanwhile the finalize raises and nothing changes.
    method ExecutePayment(id: nat, outcome: Outcome, stamp: Instant) returns (answer: Option<Answer>)
      requires Valid() && id in flights
      modifies this`trace, this`flights, db
      ensures Valid() && trace == old(trace) + [Pay(id, outcome, stamp)] && flights == old(flights) - {id}
      ensures answer.Some? <==> HasRow(old(db.requests), id)
      ensures answer.Some? ==>
        && answer.value.decision == (if outcome.Paid? then Approved else Denied)
        && Resolves(old(db.requests), db.requests, id, answer.value.decision)
        && (answer.value.code == "payment_setup_failed" <==> outcome.NoSession?)
        && (answer.value.code == "payment_failed" <==> outcome.NoResponse?)
        && (answer.value.code == "approved" <==> outcome.Paid?)
      ensures answer == None ==> db.Value() == old(db.Value())
      ensures db.lastId == old(db.lastId)
    {
      hide RunAll;
      hide Store.Finalize;
      hide Core;
      hide Mirrored;
      hide Numbered;
      hide Resolves;
      hide PendingCovered;
      ghost var s, before := RunAll(db.H, trace), db.Value();
      ghost var (decision, why, tx) := Closing(outcome);
      RunFacts(db.H, trace);
      FinalizeResolves(db.H, s.db, id, decision, why, tx, stamp);
      RunMore(db.H, trace, Pay(id, outcome, stamp));
      var row: Option<Request>;
      var code := "approved";
      if outcome.NoSession? {
        row := db.Finalize(id, Denied, outcome.why, None, stamp);
        code := "payment_setup_failed";
      } else if outcome.NoResponse? {
        row := db.Finalize(id, Denied, outcome.why, None, stamp);
        code := "payment_failed";
      } else if outcome.Failed? {
        row := db.Finalize(id, Denied, outcome.why, None, stamp);
        code := "upstream";
      } else {
        row := db.Finalize(id, Approved, outcome.why, outcome.settlement, stamp);
      }
      FinalizeId(db.H, s.db, id, decision, why, tx, stamp);
      CoveredResolve(before, db.requests, id, decision, flights, flights - {id});
      trace, flights := trace + [Pay(id, outcome, stamp)], flights - {id};
      answer := if row == None then None else Some(Answer(if outcome.Paid? then Approved else Denied, code));
    }

    // spend, the label of a hold.
    method LabelHold(id: nat, why: string, stamp: Instant) returns (answer: Option<Answer>)
      requires Valid() && id in labels
      modifies this`trace, this`labels, db
      ensures Valid() && trace == old(trace) + [Label(id, why, stamp)] && labels == old(labels) - {id}
      ensures answer.Some? <==> HasRow(old(db.requests), id)
      ensures answer.Some? ==>
        answer.value == Answer(AwaitingApproval, "awaiting_approval") && Resolves(old(db.requests), db.requests, id, AwaitingApproval)
      ensures answer == None ==> db.Value() == old(db.Value())
    {
      hide RunAll;
      hide Store.Finalize;
      hide Core;
      hide Mirrored;
      hide Numbered;
      hide Resolves;
      hide PendingCovered;
      ghost var s, before := RunAll(db.H, trace), db.Value();
      RunFacts(db.H, trace);
      FinalizeResolves(db.H, s.db, id, AwaitingApproval, why, None, stamp);
      RunMore(db.H, trace, Label(id, why, stamp));
      var row := db.Finalize(id, AwaitingApproval, why, None, stamp);
      CoveredResolve(before, db.requests, id, AwaitingApproval, flights, flights);
      trace, labels := trace + [Label(id, why, stamp)], labels - {id};
      answer := if row == None then None else Some(Answer(AwaitingApproval, "awaiting_approval"));
    }

    // spend, undisturbed: exactly one row is added, of the decision that is
    // answered -- approved only if the payment was, never pending.
    method Spend(req: SpendReq, clock: int, now: Instant, stamp: Instant, why: string, outcome: Outcome, later: Instant) returns (answer: Answer)
      requires Valid() && WellTimed(Action.Spend(req, clock, now, stamp, why))
      modifies this`trace, this`flights, this`labels, guard, db
      ensures Valid() && old(trace) < trace
      ensures Adds(old(db.requests), db.requests, req.agent, answer.decision) && answer.decision != Pending
      ensures answer.decision == Approved ==> outcome.Paid? && Permits(policy, req.agent, req.action)
      ensures answer.decision == AwaitingApproval ==> Permits(policy, req.agent, req.action)
    {
      hide RunAll;
      hide Answers;
      hide PendingCovered;
      hide Permits;
      hide Core;
      hide Mirrored;
      ghost var before := db.Value();
      var next := BeginSpend(req, clock, now, stamp, why);
      ghost var mid := db.Value();
      RunFacts(db.H, trace);
      match next {
        case Answered(denied) => answer := denied;
        case Paying(id) =>
          assert mid.requests[|before.requests|].id == id;
          var paid := ExecutePayment(id, outcome, later);
          AddsResolved(before, mid, db.requests, req.agent, Pending, id, paid.value.decision);
          answer := paid.value;
        case Holding(id) =>
          assert mid.requests[|before.requests|].id == id;
          var held := LabelHold(id, why, stamp);
          AddsResolved(before, mid, db.requests, req.agent, AwaitingApproval, id, held.value.decision);
          answer := held.value;
      }
    }

    // approve_hold, up to the payment: authority is checked again, against
    // the policy of now, and the arguments are those the hold was made with.
    method BeginApproval(id: nat, stamp: Instant, why: string) returns (next: Option<Progress>)
      requires Valid() && id !in flights
      modifies this`trace, this`flights, db
      ensures Valid() && (next.Some? <==> Held(old(db.requests), id))
      ensures next == None ==> trace == old(trace) && db.Value() == old(db.Value()) && flights == old(flights)
      ensures next.Some? ==>
        && trace == old(trace) + [Approve(id, stamp, why)]
        && var r := old(db.requests)[RowIndex(old(db.requests), id)];
           if Permits(policy, r.agent, r.action)
           then next.value == Paying(id) && db.requests == old(db.requests) && id in flights && flights - {id} == old(flights)
                && exists params :: Json.Loads(r.params) == Some(params) && Noted(old(db.events), db.events, "approval.granted",
                     Json.Obj(map["request_id" := Json.Num(id), "agent_id" := Json.Str(r.agent), "params" := params]))
           else next.value == Answered(Answer(Denied, "approval_blocked")) && flights == old(flights)
                && Resolves(old(db.requests), db.requests, id, Denied)
                && Noted(old(db.events), db.events, "approval.blocked",
                         Json.Obj(map["request_id" := Json.Num(id), "reason" := Json.Str(why)]))
    {
      hide Noted;
      hide RunAll;
      hide Core;
      hide Mirrored;
      hide Numbered;
      hide Resolves;
      hide PendingCovered;
      hide ViewOf;
      hide ParamsParse;
      if !HasRow(db.requests, id) {
        return None;
      }
      var row := db.requests[RowIndex(db.requests, id)];
      if row.decision != AwaitingApproval {
        return None;
      }
      RunFacts(db.H, trace);
      HeldParses(db.Value(), id);
      HeldView(row);
      if row.action !in policy.actions || row.agent !in policy.agents || policy.agents[row.agent].frozen
         || row.action !in policy.agents[row.agent].allowed {
        Block(id, stamp, why);
        next := Some(Answered(Answer(Denied, "approval_blocked")));
      } else {
        Release(id, row, stamp, why);
        next := Some(Paying(id));
      }
    }

    // A refusal's two writes.
    method LogAndDeny(eventType: string, payload: Json.Value, id: nat, why: string, stamp: Instant)
      modifies db
      ensures match Store.Finalize(db.H, LogEvent(db.H, old(db.Value()), eventType, payload, stamp), id, Denied, why, None, stamp)
              case None => db.Value() == LogEvent(db.H, old(db.Value()), eventType, payload, stamp)
              case Some(after) => db.Value() == after
    {
      hide LogEvent;
      hide Store.Finalize;
      hide Json.Dumps;
      db.AppendEventLocked(eventType, payload, stamp);
      var _ := db.Finalize(id, Denied, why, None, stamp);
    }

    method Block(id: nat, stamp: Instant, why: string)
      requires Valid() && Holdable(RunAll(db.H, trace), id)
      requires var row := db.requests[RowIndex(db.requests, id)]; !Permits(policy, row.agent, row.action)
      modifies this`trace, db
      ensures Valid() && trace == old(trace) + [Approve(id, stamp, why)] && Resolves(old(db.requests), db.requests, id, Denied)
      ensures Noted(old(db.events), db.events, "approval.blocked",
                    Json.Obj(map["request_id" := Json.Num(id), "reason" := Json.Str(why)]))
    {
      hide Noted;
      hide RunAll;
      hide Store.Finalize;
      hide Core;
      hide Mirrored;
      hide Numbered;
      hide Resolves;
      hide LogEvent;
      hide PendingCovered;
      hide ViewOf;
      hide ParamsParse;
      hide Fire;
      hide Refusal;
      hide Permits;
      ghost var s, a := RunAll(db.H, trace), Approve(id, stamp, why);
      ghost var v := ViewOf(db.requests[RowIndex(db.requests, id)]);
      RunFacts(db.H, trace);
      HeldView(db.requests[RowIndex(db.requests, id)]);
      RunMore(db.H, trace, a);
      BlockedStep(db.H, s, a, v);
      HeldDenies(db.H, s, id, BLOCKED, BlockedPayload(id, why), why, stamp);
      trace := trace + [a];
      LogAndDeny(BLOCKED, Json.Obj(map["request_id" := Json.Num(id), "reason" := Json.Str(why)]), id, why, stamp);
      CoveredResolve(s.db, db.requests, id, Denied, flights, flights);
    }

    method Release(id: nat, row: Request, stamp: Instant, ghost why: string)
      requires Valid() && Holdable(RunAll(db.H, trace), id) && row == db.requests[RowIndex(db.requests, id)]
      requires Permits(policy, row.agent, row.action)
      modifies this`trace, this`flights, db
      ensures Valid() && trace == old(trace) + [Approve(id, stamp, why)]
      ensures db.requests == old(db.requests) && id in flights && flights - {id} == old(flights)
      ensures exists params :: Json.Loads(row.params) == Some(params) && Noted(old(db.events), db.events, "approval.granted",
                Json.Obj(map["request_id" := Json.Num(id), "agent_id" := Json.Str(row.agent), "params" := params]))
    {
      hide Noted;
      hide RunAll;
      hide Core;
      hide Mirrored;
      hide Numbered;
      hide LogEvent;
      hide PendingCovered;
      hide ViewOf;
      hide ParamsParse;
      hide Fire;
      hide Permits;
      hide Json.Dumps;
      ghost var s, a, v := RunAll(db.H, trace), Approve(id, stamp, why), ViewOf(row);
      RunFacts(db.H, trace);
      HeldView(row);
      RunMore(db.H, trace, a);
      ReleasedStep(db.H, s, a, v);
      Limits.LogOnly(db.H, s.db, GRANTED, GrantPayload(v), stamp);
      LogNoted(db.H, s.db, GRANTED, GrantPayload(v), stamp);
      trace := trace + [a];
      var params := Json.Loads(row.params).value;
      db.AppendEventLocked(GRANTED, Json.Obj(map["request_id" := Json.Num(id), "agent_id" := Json.Str(row.agent), "params" := params]), stamp);
      flights := flights[id := v];
      CoveredMore(db.requests, s.flights, flights);
    }

    // approve_hold, undisturbed.
    method ApproveHold(id: nat, stamp: Instant, why: string, outcome: Outcome, later: Instant) returns (answer: Option<Answer>)
      requires Valid() && id !in flights
      modifies this`trace, this`flights, db
      ensures Valid() && (answer.Some? <==> Held(old(db.requests), id)) && flights == old(flights)
      ensures answer == None ==> trace == old(trace) && db.Value() == old(db.Value())
      ensures answer.Some? ==>
        && var r := old(db.requests)[RowIndex(old(db.requests), id)];
           answer.value.decision == (if Permits(policy, r.agent, r.action) && outcome.Paid? then Approved else Denied)
           && Resolves(old(db.requests), db.requests, id, answer.value.decision)
    {
      hide RunAll;
      hide PendingCovered;
      hide Permits;
      hide Resolves;
      var next := BeginApproval(id, stamp, why);
      if next == None {
        return None;
      }
      match next.value {
        case Answered(denied) => answer := Some(denied);
        case Paying(_) =>
          answer := ExecutePayment(id, outcome, later);
      }
    }

    // reject_hold
    method RejectHold(id: nat, stamp: Instant, why: string) returns (answer: Option<Answer>)
      requires Valid() && id !in flights
      modifies this`trace, db
      ensures Valid() && (answer.Some? <==> Held(old(db.requests), id))
      ensures answer == None ==> trace == old(trace) && db.Value() == old(db.Value())
      ensures answer.Some? ==>
        && trace == old(trace) + [Reject(id, stamp, why)] && answer.value.decision == Denied
        && Resolves(old(db.requests), db.requests, id, Denied)
        && Noted(old(db.events), db.events, "approval.rejected",
                 Json.Obj(map["request_id" := Json.Num(id),
                              "agent_id" := Json.Str(old(db.requests)[RowIndex(old(db.requests), id)].agent)]))
    {
      hide Noted;
      hide RunAll;
      hide Store.Finalize;
      hide Core;
      hide Mirrored;
      hide Numbered;
      hide Resolves;
      hide LogEvent;
      hide PendingCovered;
      hide ViewOf;
      hide Fire;
      hide Refusal;
      hide ParamsParse;
      if !HasRow(db.requests, id) {
        return None;
      }
      var row := db.requests[RowIndex(db.requests, id)];
      if row.decision != AwaitingApproval {
        return None;
      }
      RunFacts(db.H, trace);
      HeldParses(db.Value(), id);
      Dismiss(id, row, stamp, why);
      answer := Some(Answer(Denied, ""));
    }

    method Dismiss(id: nat, row: Request, stamp: Instant, why: string)
      requires Valid() && Holdable(RunAll(db.H, trace), id) && row == db.requests[RowIndex(db.requests, id)]
      modifies this`trace, db
      ensures Valid() && trace == old(trace) + [Reject(id, stamp, why)] && Resolves(old(db.requests), db.requests, id, Denied)
      ensures Noted(old(db.events), db.events, "approval.rejected",
                    Json.Obj(map["request_id" := Json.Num(id), "agent_id" := Json.Str(row.agent)]))
    {
      hide Noted;
      hide RunAll;
      hide Store.Finalize;
      hide Core;
      hide Mirrored;
      hide Numbered;
      hide Resolves;
      hide LogEvent;
      hide PendingCovered;
      hide ViewOf;
      hide Fire;
      hide Refusal;
      hide ParamsParse;
      ghost var s, a := RunAll(db.H, trace), Reject(id, stamp, why);
      RunFacts(db.H, trace);
      HeldView(row);
      RunMore(db.H, trace, a);
      RejectedStep(db.H, s, a, ViewOf(row));
      HeldDenies(db.H, s, id, REJECTED, RejectedPayload(ViewOf(row)), why, stamp);
      trace := trace + [a];
      LogAndDeny(REJECTED, Json.Obj(map["request_id" := Json.Num(id), "agent_id" := Json.Str(row.agent)]), id, why, stamp);
      CoveredResolve(s.db, db.requests, id, Denied, flights, flights);
    }

    // reset, at any time: payments under way will find their rows gone.
    method Wipe(stamp: Instant)
      requires Valid()
      modifies this`trace, db
      ensures Valid() && trace == old(trace) + [Action.Wipe(stamp)] && db.requests == []
    {
      hide RunAll;
      hide LogEvent;
      hide Apply;
      WipeApplies(db.H, db.Value(), stamp);
      RunMore(db.H, trace, Action.Wipe(stamp));
      trace := trace + [Action.Wipe(stamp)];
      db.Reset(stamp);
    }
  }

  // ---- what the pieces need to know ----

  lemma AwayRefused(policy: Policy, db: Db, signed: bool, a: Action)
    requires a.Spend? && WellTimed(a) && Decide(policy, a.req, signed).Refuse?
    ensures var g := Decide(policy, a.req, signed); TurnedAway(policy, db, signed, a, g.amount, g.params, g.code)
  {
    hide Resolve;
  }

  lemma AwayUnadmitted(policy: Policy, db: Db, signed: bool, a: Action, ask: Ask)
    requires a.Spend? && WellTimed(a) && Decide(policy, a.req, signed) == Proceed(ask) && ask.window == VELOCITY_WINDOW
    requires !Test(db, ask, a.now).Admitted?
    ensures TurnedAway(policy, db, signed, a, ask.amount, ask.params,
                       if Test(db, ask, a.now).OverVelocity? then "over_velocity_limit" else "over_daily_cap")
  {
    hide Decide;
    hide Test;
  }

  lemma AwayAnswers(policy: Policy, db: Db, signed: bool, a: Action, amount: Money, params: Params, code: string, r: Request)
    requires a.Spend? && WellTimed(a) && TurnedAway(policy, db, signed, a, amount, params, code)
    requires Says(r, a.req.action, amount, params, a.now)
    ensures Answers(policy, db, signed, a.req, a.now, r, Answered(Answer(Denied, code)))
  {
    hide Resolve;
    hide Test;
    hide Iso;
    hide CanonicalParams;
  }

  // An admitted request: its row, the answer, and where its call stands.
  lemma AdmittedFully(H: HashFn, s: State, a: Action, ask: Ask, next: Progress)
    requires a.Spend? && WellTimed(a) && Mirrored(s.db) && PendingCovered(s.db.requests, s.flights)
    requires Decide(s.policy, a.req, CheckSignature(s.policy, s.seen, a.req, a.clock).0) == Proceed(ask)
    requires ask.window == VELOCITY_WINDOW && (ask.state == Pending || ask.state == AwaitingApproval)
    requires Legal(OpReserve(ask, a.now, a.stamp)) && Test(s.db, ask, a.now).Admitted?
    requires var id := Test(s.db, ask, a.now).row.id; next == if ask.state == AwaitingApproval then Holding(id) else Paying(id)
    ensures var s', id, v := Fire(H, s, a), s.db.lastId + 1, Reserved(ReservedRow(s.db, ask, a.now), ask);
            && Test(s.db, ask, a.now).row.id == id
            && s'.db == Store.TryReserve(H, s.db, ask, a.now, a.stamp) && s'.policy == s.policy
            && s'.seen == CheckSignature(s.policy, s.seen, a.req, a.clock).1
            && s'.flights == (if ask.state == AwaitingApproval then s.flights else s.flights[id := v])
            && s'.labels == (if ask.state == AwaitingApproval then s.labels[id := v] else s.labels)
            && Adds(s.db.requests, s'.db.requests, ask.agent, ask.state)
            && |s'.db.requests| == |s.db.requests| + 1 && s'.db.requests[|s.db.requests|].id == id
            && PendingCovered(s'.db.requests, s'.flights)
            && Answers(s.policy, s.db, CheckSignature(s.policy, s.seen, a.req, a.clock).0, a.req, a.now,
                       s'.db.requests[|s.db.requests|], next)
  {
    hide Store.TryReserve;
    hide Test;
    hide Decide;
    hide CheckSignature;
    hide Reserved;
    hide ReservedRow;
    hide Mirrored;
    hide Adds;
    hide Says;
    hide Answers;
    hide Fire;
    hide PendingCovered;
    AdmittedRow(H, s, a, ask);
    var s' := Fire(H, s, a);
    AddsOne(s.db.requests, s'.db.requests, ask.agent);
    CoveredAdd(s.db.requests, s'.db.requests, ask.agent, ask.state, s.flights, s'.flights);
    AdmitAnswers(s.policy, s.db, CheckSignature(s.policy, s.seen, a.req, a.clock).0, a.req, a.now, ask,
                 s'.db.requests[|s.db.requests|], next);
  }

  // What the store makes of a request that it admits.
  lemma AdmitAnswers(policy: Policy, db: Db, signed: bool, req: SpendReq, now: Instant, ask: Ask, r: Request, next: Progress)
    requires VELOCITY_WINDOW * US <= now && Decide(policy, req, signed) == Proceed(ask) && ask.window == VELOCITY_WINDOW
    requires Says(r, ask.action, ask.amount, ask.params, now) && Test(db, ask, now).Admitted?
    requires if ask.state == AwaitingApproval then next.Holding? else next.Paying?
    ensures Answers(policy, db, signed, req, now, r, next)
  {
    hide Decide;
    hide Test;
    hide Iso;
    hide CanonicalParams;
    GateFacts(policy, req, signed);
  }

  lemma AddsOne(before: seq<Request>, after: seq<Request>, agent: string)
    requires exists decision :: Adds(before, after, agent, decision)
    ensures |after| == |before| + 1
  {
  }

  lemma AskSound(policy: Policy, req: SpendReq, signed: bool, ask: Ask)
    requires Decide(policy, req, signed) == Proceed(ask)
    ensures ask.agent == req.agent && ask.action == req.action && (ask.state == Pending || ask.state == AwaitingApproval)
  {
    hide Decide;
    GateFacts(policy, req, signed);
  }

  lemma WipeApplies(H: HashFn, db: Db, stamp: Instant)
    ensures Apply(H, db, OpReset(|db.requests|, stamp)) == Store.Reset(H, db, |db.requests|, stamp)
  {
    hide LogEvent;
  }

  // In every state a row's arguments decode.
  lemma HeldParses(db: Db, id: nat)
    requires Mirrored(db) && HasRow(db.requests, id)
    ensures ParamsParse(db.requests[RowIndex(db.requests, id)])
  {
    hide Fold;
    hide ParamsParse;
  }

  lemma HeldView(r: Request)
    requires ParamsParse(r)
    ensures var v := ViewOf(r);
            v.id == r.id && v.agent == r.agent && v.action == r.action && Json.Loads(r.params) == Some(v.params)
  {
    hide Json.Loads;
  }

  lemma FinalizeId(H: HashFn, db: Db, id: nat, decision: Decision, why: string, tx: Option<string>, stamp: Instant)
    ensures match Store.Finalize(H, db, id, decision, why, tx, stamp)
            case None => true
            case Some(after) => after.lastId == db.lastId
  {
    hide Json.Loads;
    hide DecidedFields;
    hide Json.Dumps;
    hide Iso;
    hide Link;
  }

  // An operator's refusal of a hold: its event, and its row denied.
  lemma HeldDenies(H: HashFn, s: State, id: nat, eventType: string, payload: Json.Value, why: string, stamp: Instant)
    requires Core(H, s) && Holdable(s, id) && Legal(OpEvent(eventType, payload, stamp))
    ensures var logged := LogEvent(H, s.db, eventType, payload, stamp);
            var after := Store.Finalize(H, logged, id, Denied, why, None, stamp);
            && after.Some? && Refusal(H, s, id, eventType, payload, why, stamp).db == after.value
            && Refusal(H, s, id, eventType, payload, why, stamp)
                 == s.(db := after.value, history := Refusal(H, s, id, eventType, payload, why, stamp).history)
            && logged.requests == s.db.requests && Resolves(s.db.requests, after.value.requests, id, Denied)
            && Noted(s.db.events, after.value.events, eventType, payload)
  {
    hide Noted;
    hide Core;
    hide LogEvent;
    hide Mirrored;
    hide Store.Finalize;
    hide Resolves;
    hide ViewOf;
    hide ParamsParse;
    CorePush(H, s, OpEvent(eventType, payload, stamp));
    CoreFacts(H, Push(H, s, OpEvent(eventType, payload, stamp)));
    Limits.LogOnly(H, s.db, eventType, payload, stamp);
    var logged := LogEvent(H, s.db, eventType, payload, stamp);
    FinalizeResolves(H, logged, id, Denied, why, None, stamp);
    LogNoted(H, s.db, eventType, payload, stamp);
    FinalizeAppends(H, logged, id, Denied, why, None, stamp);
    NotedBelow(s.db.events, logged.events, Store.Finalize(H, logged, id, Denied, why, None, stamp).value.events, eventType, payload);
  }

  lemma CoveredMore(rows: seq<Request>, flights: map<nat, RowView>, flights': map<nat, RowView>)
    requires PendingCovered(rows, flights) && flights.Keys <= flights'.Keys
    ensures PendingCovered(rows, flights')
  {
  }
}
