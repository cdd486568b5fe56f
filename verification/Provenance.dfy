/** Where every approval comes from: the trace that each run's ledger leaves
    of the requests, policies and grants behind it. */
module Provenance {
  import opened Text
  import opened Clock
  import opened Ledger
  import opened Anchor
  import opened Store
  import opened CallParams
  import opened View
  import opened Engine
  import Json
  import Limits

  // ---- what stands behind an event ----

  // A policy under which the reservation is made as it was: pending only
  // without, awaiting approval only with, a need for approval.
  predicate Admissible(p: Policy, v: RowView) {
    && Permits(p, v.agent, v.action) && v.amount <= p.agents[v.agent].perRequest
    && var above := p.agents[v.agent].approveAbove;
       v.decision == (if above.Some? && v.amount > above.value then AwaitingApproval else Pending)
  }

  // Action i is the signed request that wrote the reservation at r, under a
  // policy that admitted it.
  ghost predicate MadeAt(H: HashFn, actions: seq<Action>, i: nat, r: nat, v: RowView)
    requires AllTimed(actions) && i < |actions|
  {
    var s, a := RunAll(H, actions[..i]), actions[i];
    && a.Spend? && a.req.agent == v.agent && a.req.action == v.action && CheckSignature(s.policy, s.seen, a.req, a.clock).0
    && |s.db.events| == r && Admissible(s.policy, v)
  }

  ghost predicate Made(H: HashFn, actions: seq<Action>, r: nat, v: RowView)
    requires AllTimed(actions)
  {
    exists i: nat :: i < |actions| && MadeAt(H, actions, i, r, v)
  }

  predicate GrantEntry(events: seq<Event>, g: nat, v: RowView) {
    g < |events| && events[g].eventType == GRANTED && events[g].payload == Json.Dumps(GrantPayload(v))
  }

  // Action i is an operator's grant of the hold, written between r and j
  // under a policy that still permitted the call.
  ghost predicate GrantedAt(H: HashFn, actions: seq<Action>, events: seq<Event>, i: nat, r: nat, v: RowView, j: nat)
    requires AllTimed(actions) && i < |actions|
  {
    var s := RunAll(H, actions[..i]);
    && actions[i].Approve? && actions[i].id == v.id && Permits(s.policy, v.agent, v.action)
    && r < |s.db.events| < j && GrantEntry(events, |s.db.events|, v)
  }

  ghost predicate Granted(H: HashFn, actions: seq<Action>, events: seq<Event>, r: nat, v: RowView, j: nat)
    requires AllTimed(actions)
  {
    exists i: nat :: i < |actions| && GrantedAt(H, actions, events, i, r, v, j)
  }

  // A payment of v, started before j, had a reservation made by a request,
  // and a grant if that reservation was a hold.
  ghost predicate Justified(H: HashFn, actions: seq<Action>, events: seq<Event>, v: RowView, j: nat)
    requires AllTimed(actions)
  {
    exists r: nat :: r < j && ReservedAt(events, r, v) && Made(H, actions, r, v)
      && (v.decision == AwaitingApproval ==> Granted(H, actions, events, r, v, j))
  }

  // An approval repeats its reservation, decision and transaction apart.
  predicate SameSubject(reserved: RowView, approved: RowView) {
    reserved.(decision := approved.decision, txId := approved.txId) == approved
  }

  ghost predicate Trace(H: HashFn, actions: seq<Action>, events: seq<Event>, flights: map<nat, RowView>)
    requires AllTimed(actions)
  {
    && (forall id :: id in flights ==> Justified(H, actions, events, flights[id], |events|))
    && (forall j: nat, v :: ApprovedAt(events, j, v) ==>
          exists u :: SameSubject(u, v) && Justified(H, actions, events, u, j))
    && (forall r: nat, v :: ReservedAt(events, r, v) ==> Made(H, actions, r, v))
  }

  // ---- nothing behind an event is lost ----

  lemma MadeStays(H: HashFn, actions: seq<Action>, a: Action, r: nat, v: RowView)
    requires AllTimed(actions) && AllTimed(actions + [a]) && Made(H, actions, r, v)
    ensures Made(H, actions + [a], r, v)
  {
    hide RunAll;
    hide CheckSignature;
    hide Admissible;
    var i: nat :| i < |actions| && MadeAt(H, actions, i, r, v);
    var more := actions + [a];
    assert more[..i] == actions[..i] && more[i] == actions[i];
    assert MadeAt(H, more, i, r, v);
  }

  lemma GrantedStays(H: HashFn, actions: seq<Action>, a: Action, before: seq<Event>, after: seq<Event>, r: nat, v: RowView, j: nat, k: nat)
    requires AllTimed(actions) && AllTimed(actions + [a]) && before <= after && j <= k
    requires Granted(H, actions, before, r, v, j)
    ensures Granted(H, actions + [a], after, r, v, k)
  {
    hide RunAll;
    hide Permits;
    hide GrantPayload;
    hide Json.Dumps;
    var i: nat :| i < |actions| && GrantedAt(H, actions, before, i, r, v, j);
    var more, g := actions + [a], |RunAll(H, actions[..i]).db.events|;
    assert more[..i] == actions[..i] && more[i] == actions[i];
    assert after[g] == before[g];
    assert GrantedAt(H, more, after, i, r, v, k);
  }

  lemma JustifiedStays(H: HashFn, actions: seq<Action>, a: Action, before: seq<Event>, after: seq<Event>, v: RowView, j: nat, k: nat)
    requires AllTimed(actions) && AllTimed(actions + [a]) && before <= after && j <= k && Justified(H, actions, before, v, j)
    ensures Justified(H, actions + [a], after, v, k)
  {
    hide Made;
    hide Granted;
    hide ReadChange;
    var r: nat :| r < j && ReservedAt(before, r, v) && Made(H, actions, r, v)
      && (v.decision == AwaitingApproval ==> Granted(H, actions, before, r, v, j));
    MadeStays(H, actions, a, r, v);
    if v.decision == AwaitingApproval { GrantedStays(H, actions, a, before, after, r, v, j, k); }
    assert after[r] == before[r];
    assert ReservedAt(after, r, v);
  }

  // One more action: everything new is justified, everything old still is.
  lemma TraceKept(H: HashFn, actions: seq<Action>, a: Action, events: seq<Event>, flights: map<nat, RowView>,
                  events': seq<Event>, flights': map<nat, RowView>)
    requires AllTimed(actions) && AllTimed(actions + [a]) && Trace(H, actions, events, flights) && events <= events'
    requires forall j: nat, v :: ApprovedAt(events', j, v) ==>
               ApprovedAt(events, j, v) || exists u :: SameSubject(u, v) && Justified(H, actions + [a], events', u, j)
    requires forall r: nat, v :: ReservedAt(events', r, v) ==> ReservedAt(events, r, v) || Made(H, actions + [a], r, v)
    requires forall id :: id in flights' ==>
               (id in flights && flights'[id] == flights[id]) || Justified(H, actions + [a], events', flights'[id], |events'|)
    ensures Trace(H, actions + [a], events', flights')
  {
    hide ApprovedAt;
    hide ReservedAt;
    hide Justified;
    hide Made;
    forall id | id in flights' ensures Justified(H, actions + [a], events', flights'[id], |events'|) {
      if id in flights && flights'[id] == flights[id] {
        JustifiedStays(H, actions, a, events, events', flights[id], |events|, |events'|);
      }
    }
    forall j: nat, v | ApprovedAt(events', j, v)
      ensures exists u :: SameSubject(u, v) && Justified(H, actions + [a], events', u, j)
    {
      if ApprovedAt(events, j, v) {
        var u :| SameSubject(u, v) && Justified(H, actions, events, u, j);
        JustifiedStays(H, actions, a, events, events', u, j, j);
      }
    }
    forall r: nat, v | ReservedAt(events', r, v) ensures Made(H, actions + [a], r, v) {
      if ReservedAt(events, r, v) { MadeStays(H, actions, a, r, v); }
    }
  }

  // ---- one operation at a time ----

  // No operation but an approving finalize approves; none but a reservation
  // reserves.
  lemma QuietPush(H: HashFn, s: State, op: Op)
    requires Core(H, s) && Legal(op)
    ensures s.db.events <= Push(H, s, op).db.events
    ensures !(op.OpFinalize? && op.decision == Approved) ==>
              forall j: nat, v :: ApprovedAt(Push(H, s, op).db.events, j, v) ==> ApprovedAt(s.db.events, j, v)
    ensures !op.OpReserve? ==> forall r: nat, v :: ReservedAt(Push(H, s, op).db.events, r, v) ==> ReservedAt(s.db.events, r, v)
  {
    hide Core;
    hide Apply;
    hide ReadChange;
    hide Mirrored;
    hide Numbered;
    hide Honest;
    var before, after := s.db.events, Push(H, s, op).db.events;
    CoreFacts(H, s);
    Limits.StepHonest(H, s.db, op);
    if !(op.OpFinalize? && op.decision == Approved) {
      forall j: nat, v | ApprovedAt(after, j, v) ensures ApprovedAt(before, j, v) {
        if j >= |before| { Writes(H, s.db, op, j); } else { assert after[j] == before[j]; }
      }
    }
    if !op.OpReserve? {
      forall r: nat, v | ReservedAt(after, r, v) ensures ReservedAt(before, r, v) {
        if r >= |before| { Writes(H, s.db, op, r); } else { assert after[r] == before[r]; }
      }
    }
  }

  predicate Quiet(op: Op) {
    !op.OpReserve? && !(op.OpFinalize? && op.decision == Approved)
  }

  lemma QuietTrace(H: HashFn, actions: seq<Action>, a: Action, s: State, op: Op, flights: map<nat, RowView>)
    requires AllTimed(actions) && AllTimed(actions + [a]) && Core(H, s) && Trace(H, actions, s.db.events, flights)
    requires Legal(op) && Quiet(op)
    ensures Trace(H, actions + [a], Push(H, s, op).db.events, flights)
  {
    hide Core;
    hide Apply;
    hide Trace;
    hide ApprovedAt;
    hide ReservedAt;
    QuietPush(H, s, op);
    TraceKept(H, actions, a, s.db.events, flights, Push(H, s, op).db.events, flights);
  }

  // Two quiet operations in one action.
  lemma QuietPair(H: HashFn, actions: seq<Action>, a: Action, s: State, op: Op, op': Op)
    requires AllTimed(actions) && AllTimed(actions + [a]) && Core(H, s) && Trace(H, actions, s.db.events, s.flights)
    requires Legal(op) && Quiet(op) && Legal(op') && Quiet(op') && Core(H, Push(H, s, op))
    ensures Trace(H, actions + [a], Push(H, Push(H, s, op), op').db.events, s.flights)
  {
    hide Core;
    hide Apply;
    hide Trace;
    hide ApprovedAt;
    hide ReservedAt;
    QuietPush(H, s, op);
    QuietPush(H, Push(H, s, op), op');
    TraceKept(H, actions, a, s.db.events, s.flights, Push(H, Push(H, s, op), op').db.events, s.flights);
  }

  lemma FewerFlights(H: HashFn, actions: seq<Action>, events: seq<Event>, flights: map<nat, RowView>, flights': map<nat, RowView>)
    requires AllTimed(actions) && Trace(H, actions, events, flights)
    requires forall id :: id in flights' ==> id in flights && flights'[id] == flights[id]
    ensures Trace(H, actions, events, flights')
  {
    hide Justified;
    hide Made;
    hide ApprovedAt;
    hide ReservedAt;
  }

  lemma Unmoved(H: HashFn, actions: seq<Action>, a: Action, events: seq<Event>, flights: map<nat, RowView>)
    requires AllTimed(actions) && AllTimed(actions + [a]) && Trace(H, actions, events, flights)
    ensures Trace(H, actions + [a], events, flights)
  {
    hide Trace;
    hide ApprovedAt;
    hide ReservedAt;
    hide Justified;
    hide Made;
    TraceKept(H, actions, a, events, flights, events, flights);
  }

  // ---- every action ----

  ghost predicate Kept(H: HashFn, actions: seq<Action>, s: State)
    requires AllTimed(actions)
  {
    Core(H, s) && Trace(H, actions, s.db.events, s.flights)
  }

  // The reservation that a signed request makes.
  lemma NewMade(H: HashFn, actions: seq<Action>, a: Action, ask: Ask)
    requires AllTimed(actions) && WellTimed(a) && AllTimed(actions + [a]) && a.Spend?
    requires var s := RunAll(H, actions);
             var (signed, _) := CheckSignature(s.policy, s.seen, a.req, a.clock);
             Decide(s.policy, a.req, signed) == Proceed(ask)
    ensures Made(H, actions + [a], |RunAll(H, actions).db.events|, Reserved(ReservedRow(RunAll(H, actions).db, ask, a.now), ask))
  {
    hide RunAll;
    hide Decide;
    hide CheckSignature;
    hide Permits;
    hide Reserved;
    hide ReservedRow;
    var s, more := RunAll(H, actions), actions + [a];
    GateFacts(s.policy, a.req, CheckSignature(s.policy, s.seen, a.req, a.clock).0);
    ReservedView(s.db, ask, a.now);
    assert more[..|actions|] == actions && more[|actions|] == a;
    assert MadeAt(H, more, |actions|, |s.db.events|, Reserved(ReservedRow(s.db, ask, a.now), ask));
  }

  // An admitted reservation reserves once.
  lemma ReserveWrites(H: HashFn, s: State, ask: Ask, now: Instant, stamp: Instant)
    requires Core(H, s) && Legal(OpReserve(ask, now, stamp)) && ask.amount >= 0 && Test(s.db, ask, now).Admitted?
    ensures var after, v := Push(H, s, OpReserve(ask, now, stamp)).db.events, Reserved(ReservedRow(s.db, ask, now), ask);
            && s.db.events <= after && |after| == |s.db.events| + 1 && ReservedAt(after, |s.db.events|, v)
            && forall r: nat, u :: ReservedAt(after, r, u) ==> ReservedAt(s.db.events, r, u) || (r == |s.db.events| && u == v)
  {
    hide Core;
    hide Apply;
    hide Test;
    hide Reserved;
    hide ReservedRow;
    hide ReadChange;
    hide FlightsMatch;
    hide LabelsMatch;
    SlotReserved(H, s, ask, now, stamp);
    var before, after := s.db.events, Push(H, s, OpReserve(ask, now, stamp)).db.events;
    assert forall j :: 0 <= j < |before| ==> after[j] == before[j];
  }

  lemma AskTrace(H: HashFn, actions: seq<Action>, a: Action, ask: Ask)
    requires AllTimed(actions) && WellTimed(a) && AllTimed(actions + [a]) && a.Spend? && Kept(H, actions, RunAll(H, actions))
    requires var s := RunAll(H, actions);
             var (signed, _) := CheckSignature(s.policy, s.seen, a.req, a.clock);
             Decide(s.policy, a.req, signed) == Proceed(ask)
    requires Legal(OpReserve(ask, a.now, a.stamp)) && ask.amount >= 0 && Test(RunAll(H, actions).db, ask, a.now).Admitted?
    ensures var s, v := RunAll(H, actions), Reserved(ReservedRow(RunAll(H, actions).db, ask, a.now), ask);
            var after := Push(H, s, OpReserve(ask, a.now, a.stamp)).db.events;
            && Trace(H, actions + [a], after, s.flights)
            && (ask.state == Pending ==> Trace(H, actions + [a], after, s.flights[s.db.lastId + 1 := v]))
  {
    hide RunAll;
    hide Core;
    hide Apply;
    hide Test;
    hide Decide;
    hide CheckSignature;
    hide Reserved;
    hide ReservedRow;
    hide ReservedAt;
    hide ApprovedAt;
    hide Trace;
    hide Made;
    hide Granted;
    var s, op := RunAll(H, actions), OpReserve(ask, a.now, a.stamp);
    var v, before, after := Reserved(ReservedRow(s.db, ask, a.now), ask), s.db.events, Push(H, s, op).db.events;
    QuietPush(H, s, op);
    ReserveWrites(H, s, ask, a.now, a.stamp);
    NewMade(H, actions, a, ask);
    TraceKept(H, actions, a, before, s.flights, after, s.flights);
    if ask.state == Pending {
      ReservedView(s.db, ask, a.now);
      assert Justified(H, actions + [a], after, v, |after|);
      TraceKept(H, actions, a, before, s.flights, after, s.flights[s.db.lastId + 1 := v]);
    }
  }

  lemma SpendStep(H: HashFn, actions: seq<Action>, a: Action)
    requires AllTimed(actions) && WellTimed(a) && AllTimed(actions + [a]) && a.Spend? && Kept(H, actions, RunAll(H, actions))
    ensures Kept(H, actions + [a], Fire(H, RunAll(H, actions), a))
  {
    hide RunAll;
    hide Core;
    hide Apply;
    hide Test;
    hide Decide;
    hide CheckSignature;
    hide Trace;
    hide Reserved;
    hide ReservedRow;
    var s := RunAll(H, actions);
    var (signed, seen) := CheckSignature(s.policy, s.seen, a.req, a.clock);
    var s0 := s.(seen := seen);
    CoreParts(H, s);
    CoreFewer(H, s, s.flights, s.labels, seen);
    RefusedAmount(s.policy, a.req, signed);
    match Decide(s.policy, a.req, signed)
    case Refuse(amount, params, _) =>
      var op := OpDeny(a.req.agent, a.req.action, amount, a.why, params, a.now, a.stamp);
      CorePush(H, s0, op);
      QuietTrace(H, actions, a, s0, op, s.flights);
    case Proceed(ask) =>
      GateFacts(s.policy, a.req, signed);
      if !Test(s.db, ask, a.now).Admitted? {
        var op := OpDeny(ask.agent, ask.action, ask.amount, a.why, ask.params, a.now, a.stamp);
        CorePush(H, s0, op);
        QuietTrace(H, actions, a, s0, op, s.flights);
      } else {
        AskTrace(H, actions, a, ask);
        DepartedCore(H, s0, ask, a.now, a.stamp);
      }
  }

  lemma LabelStep(H: HashFn, actions: seq<Action>, a: Action, s: State)
    requires AllTimed(actions) && AllTimed(actions + [a]) && a.Label? && Kept(H, actions, s)
    ensures Kept(H, actions + [a], FireLabel(H, s, a.id, a.why, a.stamp))
  {
    hide Core;
    hide Apply;
    hide Trace;
    if a.id in s.labels {
      var op := OpFinalize(a.id, AwaitingApproval, a.why, None, a.stamp);
      CorePush(H, s, op);
      QuietTrace(H, actions, a, s, op, s.flights);
      CoreFewer(H, Push(H, s, op), s.flights, s.labels - {a.id}, s.seen);
    } else {
      Unmoved(H, actions, a, s.db.events, s.flights);
    }
  }

  // The approving finalize of a payment under way is justified by whatever
  // started that payment.
  lemma ApprovalJustified(H: HashFn, actions: seq<Action>, a: Action, s: State, id: nat, op: Op)
    requires AllTimed(actions) && AllTimed(actions + [a]) && Kept(H, actions, s)
    requires id in s.flights && op.OpFinalize? && op.id == id && op.decision == Approved
    ensures Trace(H, actions + [a], Apply(H, s.db, op).events, s.flights - {id})
  {
    hide Apply;
    hide Core;
    hide ReadChange;
    hide ViewOf;
    hide ParamsParse;
    hide Justified;
    hide Made;
    hide Mirrored;
    hide Numbered;
    hide Honest;
    var e, e' := s.db.events, Apply(H, s.db, op).events;
    CoreFacts(H, s);
    FlightRow(H, s, id);
    Limits.StepHonest(H, s.db, op);
    QuietPush(H, s, op);
    forall j: nat, v | ApprovedAt(e', j, v)
      ensures ApprovedAt(e, j, v) || exists u :: SameSubject(u, v) && Justified(H, actions + [a], e', u, j)
    {
      if j < |e| {
        assert e'[j] == e[j];
      } else {
        Writes(H, s.db, op, j);
        JustifiedStays(H, actions, a, e, e', s.flights[id], |e|, j);
        assert SameSubject(s.flights[id], v);
      }
    }
    TraceKept(H, actions, a, e, s.flights, e', s.flights - {id});
  }

  lemma PayStep(H: HashFn, actions: seq<Action>, a: Action, s: State)
    requires AllTimed(actions) && AllTimed(actions + [a]) && a.Pay? && Kept(H, actions, s)
    ensures Kept(H, actions + [a], FirePay(H, s, a.id, a.outcome, a.stamp))
  {
    hide Apply;
    hide Core;
    hide Trace;
    if a.id in s.flights {
      var (decision, why, tx) := Closing(a.outcome);
      var op, fewer := OpFinalize(a.id, decision, why, tx, a.stamp), s.flights - {a.id};
      CoreFewer(H, s, fewer, s.labels, s.seen);
      CorePush(H, s.(flights := fewer), op);
      if decision == Approved {
        ApprovalJustified(H, actions, a, s, a.id, op);
      } else {
        FewerFlights(H, actions, s.db.events, s.flights, fewer);
        QuietTrace(H, actions, a, s, op, fewer);
      }
      assert FirePay(H, s, a.id, a.outcome, a.stamp) == Push(H, s.(flights := fewer), op);
    } else {
      Unmoved(H, actions, a, s.db.events, s.flights);
    }
  }

  lemma RefusalStep(H: HashFn, actions: seq<Action>, a: Action, s: State, id: nat, eventType: string, payload: Json.Value,
                    why: string, stamp: Instant)
    requires AllTimed(actions) && AllTimed(actions + [a]) && Kept(H, actions, s)
    requires id !in s.flights && Legal(OpEvent(eventType, payload, stamp))
    ensures Kept(H, actions + [a], Refusal(H, s, id, eventType, payload, why, stamp))
  {
    hide Apply;
    hide Core;
    hide Trace;
    var op, op' := OpEvent(eventType, payload, stamp), OpFinalize(id, Denied, why, None, stamp);
    CorePush(H, s, op);
    CorePush(H, Push(H, s, op), op');
    QuietPair(H, actions, a, s, op, op');
  }

  // The grant that an operator's release writes.
  lemma NewGranted(H: HashFn, actions: seq<Action>, a: Action, v: RowView, r: nat, after: seq<Event>)
    requires AllTimed(actions) && AllTimed(actions + [a]) && a.Approve? && a.id == v.id
    requires var s := RunAll(H, actions);
             && Permits(s.policy, v.agent, v.action) && r < |s.db.events| < |after| && GrantEntry(after, |s.db.events|, v)
    ensures Granted(H, actions + [a], after, r, v, |after|)
  {
    hide RunAll;
    hide Permits;
    hide GrantEntry;
    var more := actions + [a];
    assert more[..|actions|] == actions && more[|actions|] == a;
    assert GrantedAt(H, more, after, |actions|, r, v, |after|);
  }

  lemma GrantStep(H: HashFn, actions: seq<Action>, a: Action, v: RowView)
    requires AllTimed(actions) && WellTimed(a) && AllTimed(actions + [a]) && Kept(H, actions, RunAll(H, actions))
    requires a.Approve? && Holdable(RunAll(H, actions), a.id)
    requires var s := RunAll(H, actions);
             v == ViewOf(s.db.requests[RowIndex(s.db.requests, a.id)]) && Permits(s.policy, v.agent, v.action)
    ensures v.id == a.id && Kept(H, actions + [a], Released(H, RunAll(H, actions), v, a.stamp))
  {
    hide Core;
    hide RunAll;
    hide ReadChange;
    hide ViewOf;
    hide ParamsParse;
    hide Apply;
    hide Permits;
    hide Json.Dumps;
    hide ApprovedAt;
    hide Trace;
    hide Made;
    hide Granted;
    var s := RunAll(H, actions);
    HoldFacts(H, s, a.id);
    var op, after := OpEvent(GRANTED, GrantPayload(v), a.stamp), Released(H, s, v, a.stamp).db.events;
    GrantCore(H, s, a.id, v, a.stamp);
    QuietPush(H, s, op);
    var r: nat :| ReservedAt(s.db.events, r, v);
    assert after[r] == s.db.events[r];
    NewGranted(H, actions, a, v, r, after);
    ReservedMade(H, actions, a, s.db.events, s.flights, r, v);
    assert Justified(H, actions + [a], after, v, |after|) by { assert ReservedAt(after, r, v); }
    TraceKept(H, actions, a, s.db.events, s.flights, after, s.flights[v.id := v]);
  }

  lemma ReservedMade(H: HashFn, actions: seq<Action>, a: Action, events: seq<Event>, flights: map<nat, RowView>, r: nat, v: RowView)
    requires AllTimed(actions) && AllTimed(actions + [a]) && Trace(H, actions, events, flights) && ReservedAt(events, r, v)
    ensures Made(H, actions + [a], r, v)
  {
    hide ReservedAt;
    hide ApprovedAt;
    hide Justified;
    hide Made;
    MadeStays(H, actions, a, r, v);
  }

  lemma ApproveStep(H: HashFn, actions: seq<Action>, a: Action)
    requires AllTimed(actions) && WellTimed(a) && AllTimed(actions + [a]) && a.Approve? && Kept(H, actions, RunAll(H, actions))
    ensures Kept(H, actions + [a], FireApprove(H, RunAll(H, actions), a.id, a.stamp, a.why))
  {
    hide Kept;
    hide RunAll;
    hide ViewOf;
    hide ParamsParse;
    hide Permits;
    hide Released;
    hide Refusal;
    var s := RunAll(H, actions);
    if Holdable(s, a.id) {
      var v := ViewOf(s.db.requests[RowIndex(s.db.requests, a.id)]);
      if Permits(s.policy, v.agent, v.action) {
        GrantStep(H, actions, a, v);
      } else {
        RefusalStep(H, actions, a, s, a.id, BLOCKED, BlockedPayload(a.id, a.why), a.why, a.stamp);
      }
    } else {
      KeptUnmoved(H, actions, a, s);
    }
  }

  lemma KeptUnmoved(H: HashFn, actions: seq<Action>, a: Action, s: State)
    requires AllTimed(actions) && AllTimed(actions + [a]) && Kept(H, actions, s)
    ensures Kept(H, actions + [a], s)
  {
    hide Core;
    hide Trace;
    Unmoved(H, actions, a, s.db.events, s.flights);
  }

  lemma OtherStep(H: HashFn, actions: seq<Action>, a: Action, s: State)
    requires AllTimed(actions) && WellTimed(a) && AllTimed(actions + [a]) && Kept(H, actions, s)
    requires a.SetPolicy? || a.Restart? || a.Wipe? || a.Note?
    ensures Kept(H, actions + [a], Fire(H, s, a))
  {
    hide Apply;
    hide Trace;
    hide Core;
    match a
    case SetPolicy(policy) =>
      Repriced(H, s, policy);
      Unmoved(H, actions, a, s.db.events, s.flights);
    case Restart(olderThan, now, stamp) =>
      var s0 := s.(flights := map[], labels := map[], seen := map[]);
      CoreFewer(H, s, map[], map[], map[]);
      FewerFlights(H, actions, s.db.events, s.flights, map[]);
      CorePush(H, s0, OpReap(olderThan, now, stamp));
      QuietTrace(H, actions, a, s0, OpReap(olderThan, now, stamp), map[]);
    case Wipe(stamp) =>
      CorePush(H, s, OpReset(|s.db.requests|, stamp));
      QuietTrace(H, actions, a, s, OpReset(|s.db.requests|, stamp), s.flights);
    case Note(t, payload, stamp) =>
      CorePush(H, s, OpEvent(t, payload, stamp));
      QuietTrace(H, actions, a, s, OpEvent(t, payload, stamp), s.flights);
  }

  lemma Repriced(H: HashFn, s: State, policy: Policy)
    requires Core(H, s) && forall k :: k in policy.actions ==> policy.actions[k].price >= 0
    ensures Core(H, s.(policy := policy))
  {
    hide Exec;
    hide Backed;
    hide FlightsMatch;
    hide LabelsMatch;
  }

  lemma StepKeeps(H: HashFn, actions: seq<Action>, a: Action)
    requires AllTimed(actions) && WellTimed(a) && AllTimed(actions + [a]) && Kept(H, actions, RunAll(H, actions))
    ensures Kept(H, actions + [a], Fire(H, RunAll(H, actions), a))
  {
    hide Kept;
    hide RunAll;
    hide FireSpend;
    hide FireLabel;
    hide FirePay;
    hide FireApprove;
    hide Refusal;
    hide ViewOf;
    hide ParamsParse;
    var s := RunAll(H, actions);
    match a
    case Spend(_, _, _, _, _) => SpendStep(H, actions, a);
    case Label(_, _, _) => LabelStep(H, actions, a, s);
    case Pay(_, _, _) => PayStep(H, actions, a, s);
    case Approve(_, _, _) => ApproveStep(H, actions, a);
    case Reject(id, stamp, why) =>
      if Holdable(s, id) {
        RefusalStep(H, actions, a, s, id, REJECTED, RejectedPayload(ViewOf(s.db.requests[RowIndex(s.db.requests, id)])), why, stamp);
      } else {
        KeptUnmoved(H, actions, a, s);
      }
    case _ => OtherStep(H, actions, a, s);
  }

  // Every state of every run.
  lemma {:induction false} AlwaysKept(H: HashFn, actions: seq<Action>)
    requires AllTimed(actions)
    ensures Core(H, RunAll(H, actions)) && Trace(H, actions, RunAll(H, actions).db.events, RunAll(H, actions).flights)
  {
    hide Core;
    hide Trace;
    hide Fire;
    if actions == [] {
      StartKept(H, actions);
    } else {
      var front, a := actions[..|actions| - 1], actions[|actions| - 1];
      assert front + [a] == actions;
      AlwaysKept(H, front);
      StepKeeps(H, front, a);
    }
  }

  lemma StartKept(H: HashFn, actions: seq<Action>)
    requires AllTimed(actions)
    ensures Core(H, START) && Trace(H, actions, START.db.events, START.flights)
  {
  }

  // ---- what every run shows ----

  // In every run's ledger, an approved decision repeats -- agent, action,
  // amount and arguments -- a reservation made earlier in the ledger, by a
  // request whose signature was accepted, under a policy that had the agent
  // present, unfrozen, allowed the action, within its per-request limit, and
  // that decided whether approval was needed. If it was, an operator's grant
  // of that reservation stands in between, given when the policy still had the
  // agent present, unfrozen and allowed.
  lemma {:induction false} ApprovalsAreAuthorised(H: HashFn, actions: seq<Action>, j: nat, v: RowView)
    requires AllTimed(actions) && ApprovedAt(RunAll(H, actions).db.events, j, v)
    ensures exists u :: SameSubject(u, v) && Justified(H, actions, RunAll(H, actions).db.events, u, j)
  {
    hide RunAll;
    hide Core;
    hide ApprovedAt;
    hide Justified;
    AlwaysKept(H, actions);
  }

  // The threshold in numbers: behind every approval is the request that made
  // it, and if the policy it was made under has a threshold for the agent and
  // the amount exceeds it, an operator's grant stands between reservation and
  // approval.
  lemma {:induction false} LargeApprovalsGranted(H: HashFn, actions: seq<Action>, j: nat, v: RowView) returns (i: nat, r: nat, u: RowView)
    requires AllTimed(actions) && ApprovedAt(RunAll(H, actions).db.events, j, v)
    ensures i < |actions| && actions[i].Spend? && actions[i].req.agent == v.agent && actions[i].req.action == v.action
    ensures r < j && ReservedAt(RunAll(H, actions).db.events, r, u) && SameSubject(u, v)
    ensures var p := RunAll(H, actions[..i]).policy;
            && |RunAll(H, actions[..i]).db.events| == r && v.agent in p.agents && v.amount <= p.agents[v.agent].perRequest
            && (p.agents[v.agent].approveAbove.Some? && v.amount > p.agents[v.agent].approveAbove.value ==>
                  Granted(H, actions, RunAll(H, actions).db.events, r, u, j))
  {
    hide RunAll;
    hide ApprovedAt;
    hide ReservedAt;
    hide Granted;
    hide CheckSignature;
    ApprovalsAreAuthorised(H, actions, j, v);
    var events := RunAll(H, actions).db.events;
    u :| SameSubject(u, v) && Justified(H, actions, events, u, j);
    r :| r < j && ReservedAt(events, r, u) && Made(H, actions, r, u)
      && (u.decision == AwaitingApproval ==> Granted(H, actions, events, r, u, j));
    i :| i < |actions| && MadeAt(H, actions, i, r, u);
  }
}
