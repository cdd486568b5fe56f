/** Two runs of the engine's own calls in which a hold is resolved before the
    request that made it gets round to labelling it. */
module LateLabel {
  import opened Text
  import opened Clock
  import opened Ledger
  import opened Anchor
  import opened Store
  import opened CallParams
  import opened View
  import opened Engine
  import opened Provenance
  import opened Settlement
  import opened Holds
  import Identity
  import Json
  import Limits

  // ---- a rejected hold that counts again ----

  // The request is signed, allowed, and admitted by the store.
  predicate Admitted(s: State, a: Action, ask: Ask) {
    && a.Spend? && WellTimed(a)
    && Decide(s.policy, a.req, CheckSignature(s.policy, s.seen, a.req, a.clock).0) == Proceed(ask)
    && Legal(OpReserve(ask, a.now, a.stamp)) && Test(s.db, ask, a.now).Admitted?
  }

  // The row of a request: its agent, amount and day.
  ghost predicate RowIs(s: State, id: nat, ask: Ask, day: string, decision: Decision) {
    && HasRow(s.db.requests, id)
    && var r := s.db.requests[RowIndex(s.db.requests, id)];
       r.agent == ask.agent && r.amount == ask.amount && DayOf(r) == day && r.decision == decision
  }

  lemma AdmittedMoves(H: HashFn, actions: seq<Action>, a: Action, ask: Ask)
    requires AllTimed(actions) && Admitted(RunAll(H, actions), a, ask)
    ensures var s, s', day := RunAll(H, actions), Fire(H, RunAll(H, actions), a), Iso(a.now)[..10];
            && s'.db == Apply(H, s.db, OpReserve(ask, a.now, a.stamp))
            && SpentOn(s'.db.requests, ask.agent, day) == SpentOn(s.db.requests, ask.agent, day) + ask.amount
            && s'.flights.Keys <= s.flights.Keys + {s.db.lastId + 1}
            && (forall id :: id in s.labels ==> id in s'.labels)
            && (ask.state == AwaitingApproval ==> s.db.lastId + 1 in s'.labels && s'.flights == s.flights)
  {
    hide RunAll;
    hide Core;
    hide Trace;
    hide Apply;
    hide Decide;
    hide CheckSignature;
    hide Test;
    hide SpentOn;
    hide Iso;
    hide Mirrored;
    hide Numbered;
    hide Reserved;
    hide ReservedRow;
    AlwaysKept(H, actions);
    var s := RunAll(H, actions);
    CoreFacts(H, s);
    GateFacts(s.policy, a.req, CheckSignature(s.policy, s.seen, a.req, a.clock).0);
    ReservedSpent(H, s.db, ask, a.now, a.stamp);
  }

  lemma NewHold(H: HashFn, actions: seq<Action>, a: Action, ask: Ask)
    requires AllTimed(actions) && Admitted(RunAll(H, actions), a, ask) && ask.state == AwaitingApproval
    ensures var s, s', id := RunAll(H, actions), Fire(H, RunAll(H, actions), a), RunAll(H, actions).db.lastId + 1;
            && id in s'.labels && Holdable(s', id) && RowIs(s', id, ask, Iso(a.now)[..10], AwaitingApproval)
  {
    hide RunAll;
    hide Core;
    hide Trace;
    hide Apply;
    hide Decide;
    hide CheckSignature;
    hide Test;
    hide SpentOn;
    hide Iso;
    hide Mirrored;
    hide Numbered;
    hide ViewOf;
    hide ParamsParse;
    hide ReservedAt;
    AdmittedMoves(H, actions, a, ask);
    AlwaysKept(H, actions);
    var s := RunAll(H, actions);
    CoreFacts(H, s);
    CoreParts(H, s);
    AfterReserve(H, s.db, ask, a.now, a.stamp);
  }

  // A request admitted while a denied hold waits for its label.
  lemma DeniedStays(H: HashFn, actions: seq<Action>, b: Action, other: Ask, id: nat, ask: Ask, day: string)
    requires AllTimed(actions) && Admitted(RunAll(H, actions), b, other)
    requires RowIs(RunAll(H, actions), id, ask, day, Denied) && id in RunAll(H, actions).labels
    ensures RowIs(Fire(H, RunAll(H, actions), b), id, ask, day, Denied) && id in Fire(H, RunAll(H, actions), b).labels
  {
    hide RunAll;
    hide Core;
    hide Trace;
    hide Apply;
    hide Fire;
    hide Decide;
    hide CheckSignature;
    hide Test;
    hide SpentOn;
    hide Iso;
    hide DayOf;
    hide Mirrored;
    hide ViewOf;
    hide ParamsParse;
    hide ReservedAt;
    AdmittedMoves(H, actions, b, other);
    AlwaysKept(H, actions);
    var s := RunAll(H, actions);
    CoreFacts(H, s);
    CoreParts(H, s);
    var s' := Fire(H, s, b);
    var k := RowIndex(s.db.requests, id);
    AppendedRow(H, s.db, other, b);
    assert s'.db.requests[k] == s.db.requests[k];
    assert forall i :: 0 <= i < |s'.db.requests| && s'.db.requests[i].id == id ==> i == k;
  }

  lemma AppendedRow(H: HashFn, db: Db, ask: Ask, b: Action)
    requires b.Spend? && Legal(OpReserve(ask, b.now, b.stamp)) && Mirrored(db) && Test(db, ask, b.now).Admitted?
    ensures var after := Apply(H, db, OpReserve(ask, b.now, b.stamp));
            |after.requests| == |db.requests| + 1 && after.requests[..|db.requests|] == db.requests
            && after.requests[|db.requests|].id == db.lastId + 1
  {
    hide Apply;
    hide Mirrored;
    hide Test;
    hide ViewOf;
    hide ParamsParse;
    hide ReservedAt;
    AfterReserve(H, db, ask, b.now, b.stamp);
  }

  // A hold is reserved, rejected before it is labelled, its budget given to a
  // second request -- and then labelled. Both amounts count.
  lemma {:induction false} RejectedHoldRevives(
      H: HashFn, actions: seq<Action>, a: Action, ask: Ask, no: Action, b: Action, other: Ask, late: Action)
    requires AllTimed(actions) && Admitted(RunAll(H, actions), a, ask) && ask.state == AwaitingApproval
    requires no.Reject? && late.Label? && no.id == late.id == RunAll(H, actions).db.lastId + 1
    requires AllTimed(actions + [a] + [no]) && Admitted(RunAll(H, actions + [a] + [no]), b, other)
    requires other.agent == ask.agent && Iso(b.now)[..10] == Iso(a.now)[..10]
    ensures AllTimed(actions + [a] + [no] + [b]) && AllTimed(actions + [a] + [no] + [b] + [late])
    ensures var s, s3, s4 := RunAll(H, actions), RunAll(H, actions + [a] + [no] + [b]), RunAll(H, actions + [a] + [no] + [b] + [late]);
            var day := Iso(a.now)[..10];
            && Finds(s3, late, Denied)
            && SpentOn(s4.db.requests, ask.agent, day) == SpentOn(s.db.requests, ask.agent, day) + ask.amount + other.amount
  {
    hide RunAll;
    hide Fire;
    hide Admitted;
    hide SpentOn;
    hide RowIs;
    hide Iso;
    hide Holdable;
    AdmittedTimed(RunAll(H, actions), a, ask);
    AdmittedTimed(RunAll(H, actions + [a] + [no]), b, other);
    var id, day := RunAll(H, actions).db.lastId + 1, Iso(a.now)[..10];
    RunMore(H, actions, a);
    AdmittedMoves(H, actions, a, ask);
    NewHold(H, actions, a, ask);
    var one := actions + [a];
    RunMore(H, one, no);
    RejectedRow(H, one, no, ask, day);
    var two := one + [no];
    RunMore(H, two, b);
    AdmittedMoves(H, two, b, other);
    DeniedStays(H, two, b, other, id, ask, day);
    var three := two + [b];
    RunMore(H, three, late);
    RevivedRow(H, three, late, ask, day);
  }

  lemma AdmittedTimed(s: State, a: Action, ask: Ask)
    requires Admitted(s, a, ask)
    ensures a.Spend? && WellTimed(a)
  {
    hide Decide;
    hide CheckSignature;
    hide Test;
  }

  lemma RejectedRow(H: HashFn, actions: seq<Action>, no: Action, ask: Ask, day: string)
    requires AllTimed(actions) && no.Reject? && Holdable(RunAll(H, actions), no.id) && no.id in RunAll(H, actions).labels
    requires RowIs(RunAll(H, actions), no.id, ask, day, AwaitingApproval)
    ensures var s, s' := RunAll(H, actions), Fire(H, RunAll(H, actions), no);
            && RowIs(s', no.id, ask, day, Denied) && no.id in s'.labels
            && SpentOn(s'.db.requests, ask.agent, day) == SpentOn(s.db.requests, ask.agent, day) - ask.amount
  {
    hide RunAll;
    hide Core;
    hide Trace;
    hide SpentOn;
    hide LogEvent;
    hide ViewOf;
    hide ParamsParse;
    hide Permits;
    hide Numbered;
    hide Mirrored;
    hide Honest;
    RefusalReturnsBudget(H, actions, no);
    AlwaysKept(H, actions);
    var s, s' := RunAll(H, actions), Fire(H, RunAll(H, actions), no);
    var k := RowIndex(s.db.requests, no.id);
    RefusedRows(H, s, no);
    CoreNumbered(H, s);
    assert s'.db.requests[k].id == no.id;
    assert forall i :: 0 <= i < |s'.db.requests| && s'.db.requests[i].id == no.id ==> i == k;
  }

  // A rejection changes one row's verdict.
  lemma RefusedRows(H: HashFn, s: State, no: Action)
    requires Core(H, s) && no.Reject? && Holdable(s, no.id)
    ensures var k, s' := RowIndex(s.db.requests, no.id), Fire(H, s, no);
            && s'.db.requests == s.db.requests[k := s.db.requests[k].(decision := Denied, reason := no.why, txId := None)]
            && s'.labels == s.labels
  {
    hide Core;
    hide SpentOn;
    hide LogEvent;
    hide ViewOf;
    hide ParamsParse;
    var v := ViewOf(s.db.requests[RowIndex(s.db.requests, no.id)]);
    var op := OpEvent(REJECTED, RejectedPayload(v), no.stamp);
    CorePush(H, s, op);
    Limits.LogOnly(H, s.db, REJECTED, RejectedPayload(v), no.stamp);
    ResolvingMoves(H, Push(H, s, op), no.id, Denied, no.why, None, no.stamp);
  }

  lemma RevivedRow(H: HashFn, actions: seq<Action>, late: Action, ask: Ask, day: string)
    requires AllTimed(actions) && late.Label? && late.id in RunAll(H, actions).labels
    requires RowIs(RunAll(H, actions), late.id, ask, day, Denied)
    ensures var s, s' := RunAll(H, actions), Fire(H, RunAll(H, actions), late);
            && Finds(s, late, Denied)
            && SpentOn(s'.db.requests, ask.agent, day) == SpentOn(s.db.requests, ask.agent, day) + ask.amount
  {
    hide RunAll;
    hide SpentOn;
    hide Apply;
    LabelMoves(H, actions, late.id, late.why, late.stamp);
  }

  // ---- such a run, from nothing ----

  function OneAgent(cap: Money): Policy {
    Policy(map["a" := AgentCfg(cap, cap, ["x"], false, None, Some(0))], map["x" := ActionCfg(cap, [])])
  }

  function Ask1(cap: Money): Ask {
    Ask("a", "x", cap, cap, AwaitingApproval, map[], None, VELOCITY_WINDOW)
  }

  function SpendOnce(nonce: string, t: Instant): Action {
    Spend(SpendReq("a", "x", None, map[], true, nonce, t, Identity.Valid), t, t, t, "")
  }

  lemma OneAgentProceeds(cap: Money, seen: Identity.Seen, nonce: string, t: Instant)
    requires cap > 0 && ("a", nonce) !in seen && VELOCITY_WINDOW * US <= t
    ensures var a := SpendOnce(nonce, t);
            WellTimed(a) && Decide(OneAgent(cap), a.req, CheckSignature(OneAgent(cap), seen, a.req, a.clock).0) == Proceed(Ask1(cap))
  {
    assert OneAgent(cap).agents["a"].allowed[0] == "x";
  }

  lemma RoomAdmits(db: Db, cap: nat, t: Instant)
    requires VELOCITY_WINDOW * US <= t && SpentOn(db.requests, "a", Iso(t)[..10]) == 0
    ensures Test(db, Ask1(cap), t).Admitted?
  {
    hide Iso;
    hide SpentOn;
    hide Pow2;
  }

  // From the empty database, one agent whose every request needs approval
  // and whose cap is one request: after five of the engine's calls it holds
  // twice the cap.
  lemma {:induction false} TwiceTheCap(H: HashFn, cap: nat, t: Instant)
    requires cap > 0 && VELOCITY_WINDOW * US <= t
    ensures var actions := [SetPolicy(OneAgent(cap))] + [SpendOnce("1", t)] + [Reject(1, t, "")] + [SpendOnce("2", t)] + [Label(1, "", t)];
            && AllTimed(actions)
            && SpentOn(RunAll(H, actions).db.requests, "a", Iso(t)[..10]) == 2 * cap
  {
    hide RunAll;
    hide Decide;
    hide CheckSignature;
    hide Test;
    hide SpentOn;
    hide Iso;
    hide Fire;
    var first, a, no, b, late := SetPolicy(OneAgent(cap)), SpendOnce("1", t), Reject(1, t, ""), SpendOnce("2", t), Label(1, "", t);
    var s := Repolicied(H, cap);
    OneAgentProceeds(cap, s.seen, "1", t);
    Limits.NothingSpent("a", Iso(t)[..10]);
    RoomAdmits(s.db, cap, t);
    SecondAdmitted(H, cap, t);
    RejectedHoldRevives(H, [first], a, Ask1(cap), no, b, Ask1(cap), late);
  }

  // The state after the policy is set.
  lemma Repolicied(H: HashFn, cap: nat) returns (s: State)
    requires cap > 0
    ensures AllTimed([SetPolicy(OneAgent(cap))]) && s == RunAll(H, [SetPolicy(OneAgent(cap))])
    ensures s == START.(policy := OneAgent(cap))
  {
    assert [SetPolicy(OneAgent(cap))][..0] == [];
    s := RunAll(H, [SetPolicy(OneAgent(cap))]);
  }

  lemma SecondAdmitted(H: HashFn, cap: nat, t: Instant)
    requires cap > 0 && VELOCITY_WINDOW * US <= t
    ensures var actions := [SetPolicy(OneAgent(cap))] + [SpendOnce("1", t)] + [Reject(1, t, "")];
            AllTimed(actions) && Admitted(RunAll(H, actions), SpendOnce("2", t), Ask1(cap))
  {
    hide RunAll;
    hide Decide;
    hide Test;
    hide SpentOn;
    hide Iso;
    hide Apply;
    hide RowIs;
    hide ViewOf;
    hide ParamsParse;
    hide Core;
    var one, a, no := [SetPolicy(OneAgent(cap))], SpendOnce("1", t), Reject(1, t, "");
    var s := Repolicied(H, cap);
    OneAgentProceeds(cap, s.seen, "1", t);
    Limits.NothingSpent("a", Iso(t)[..10]);
    RoomAdmits(s.db, cap, t);
    RunMore(H, one, a);
    RunMore(H, one + [a], no);
    AdmittedMoves(H, one, a, Ask1(cap));
    NewHold(H, one, a, Ask1(cap));
    RejectedRow(H, one + [a], no, Ask1(cap), Iso(t)[..10]);
    var s2 := RunAll(H, one + [a] + [no]);
    assert s2.policy == OneAgent(cap) && ("a", "2") !in s2.seen;
    OneAgentProceeds(cap, s2.seen, "2", t);
    RoomAdmits(s2.db, cap, t);
  }

  // ---- an approved hold that is approved again ----

  // A row that the replay shows approved was approved, or reserved so.
  lemma {:induction false} FoldApproved(events: seq<Event>, i: nat)
    requires i < |Fold(events)| && Fold(events)[i].decision == Approved
    ensures exists j: nat :: ApprovedAt(events, j, Fold(events)[i]) || ReservedAt(events, j, Fold(events)[i])
  {
    hide ReadChange;
    var n := |events| - 1;
    var views, c := Fold(events[..n]), ReadChange(events[n].eventType, events[n].payload);
    var v := Fold(events)[i];
    if c == Insert(v) {
      assert ReservedAt(events, n, v);
    } else if c == Settle(v) {
      assert ApprovedAt(events, n, v);
    } else {
      assert i < |views| && views[i] == v;
      FoldApproved(events[..n], i);
      var j: nat :| ApprovedAt(events[..n], j, v) || ReservedAt(events[..n], j, v);
      assert events[..n][j] == events[j];
      assert ApprovedAt(events, j, v) || ReservedAt(events, j, v);
    }
  }

  // An approved row has its approval in the ledger.
  lemma ApprovalOf(H: HashFn, actions: seq<Action>, i: nat)
    requires AllTimed(actions) && i < |RunAll(H, actions).db.requests| && RunAll(H, actions).db.requests[i].decision == Approved
    ensures var s := RunAll(H, actions); exists j: nat, v :: ApprovedAt(s.db.events, j, v) && v.id == s.db.requests[i].id
  {
    hide RunAll;
    hide Core;
    hide Fold;
    hide ReadChange;
    hide Justified;
    hide Numbered;
    hide Honest;
    hide RunAll;
    AlwaysKept(H, actions);
    var s := RunAll(H, actions);
    CoreFacts(H, s);
    var v := Fold(s.db.events)[i];
    assert v == ViewOf(s.db.requests[i]);
    FoldApproved(s.db.events, i);
    var j: nat :| ApprovedAt(s.db.events, j, v) || ReservedAt(s.db.events, j, v);
    if ReservedAt(s.db.events, j, v) { MadeUnresolved(H, actions, j, v); }
  }

  // Nothing is reserved as already approved.
  lemma MadeUnresolved(H: HashFn, actions: seq<Action>, r: nat, v: RowView)
    requires AllTimed(actions) && Made(H, actions, r, v)
    ensures v.decision != Approved
  {
    hide RunAll;
    hide CheckSignature;
    hide Permits;
    var i: nat :| i < |actions| && MadeAt(H, actions, i, r, v);
  }

  // The label of a hold that was released and paid for in the meantime puts
  // it back on the queue: if the policy permits the call by then, an operator
  // can release it a second time, and it is paid and approved a second time.
  lemma {:induction false} ApprovedHoldPaidTwice(
      H: HashFn, actions: seq<Action>, late: Action, policy: Policy, yes: Action, pay: Action)
    requires AllTimed(actions) && late.Label? && yes.Approve? && pay.Pay? && pay.outcome.Paid? && late.id == yes.id == pay.id
    requires WellTimed(SetPolicy(policy))
    requires var s := RunAll(H, actions);
             Finds(s, late, Approved) && Permits(policy, s.labels[late.id].agent, s.labels[late.id].action)
    ensures var run := actions + [late] + [SetPolicy(policy)] + [yes] + [pay];
            AllTimed(run) && ApprovedTwice(RunAll(H, run).db.events, late.id)
  {
    hide RunAll;
    hide Fire;
    hide ApprovedAt;
    hide Holdable;
    hide Permits;
    var s := RunAll(H, actions);
    var i := RowIndex(s.db.requests, late.id);
    ApprovalOf(H, actions, i);
    var j: nat, v :| ApprovedAt(s.db.events, j, v) && v.id == late.id;
    RunMore(H, actions, late);
    Requeued(H, actions, late);
    var one := actions + [late];
    RunMore(H, one, SetPolicy(policy));
    PolicySwapped(H, RunAll(H, one), policy);
    var two := one + [SetPolicy(policy)];
    RunMore(H, two, yes);
    Rereleased(H, two, yes);
    var three := two + [yes];
    RunMore(H, three, pay);
    Repaid(H, three, pay);
    var e0, e3, e4 := s.db.events, RunAll(H, three).db.events, RunAll(H, three + [pay]).db.events;
    var w :| ApprovedAt(e4, |e3|, w) && w.id == late.id;
    assert j < |e0| <= |e3| by { ApprovedInside(e0, j, v); }
    ApprovalStays(e0, e4, j, v);
  }

  // Two approvals of one request.
  ghost predicate ApprovedTwice(events: seq<Event>, id: int) {
    exists j: nat, k: nat, v, w :: j < k && ApprovedAt(events, j, v) && ApprovedAt(events, k, w) && v.id == w.id == id
  }

  // A change of policy moves no table.
  lemma PolicySwapped(H: HashFn, s: State, policy: Policy)
    requires WellTimed(SetPolicy(policy))
    ensures var s' := Fire(H, s, SetPolicy(policy)); s'.db == s.db && s'.policy == policy
    ensures forall id :: Holdable(s, id) ==> Holdable(Fire(H, s, SetPolicy(policy)), id)
  {
    hide ParamsParse;
  }

  // ---- exactly when requests are approved once ----

  predicate Unlabelled(actions: seq<Action>) {
    forall a :: a in actions ==> !a.Label?
  }

  lemma {:induction false} NeverMore(H: HashFn, actions: seq<Action>, more: seq<Action>)
    requires AllTimed(actions) && AllTimed(actions + more) && Never(H, actions, Approved) && Unlabelled(more)
    ensures Never(H, actions + more, Approved)
  {
    hide RunAll;
    if more == [] {
      assert actions + more == actions;
    } else {
      var front := more[..|more| - 1];
      assert (actions + more)[..|actions + more| - 1] == actions + front;
      NeverMore(H, actions, front);
      assert (actions + more)[|actions + more| - 1] in more;
    }
  }

  lemma {:induction false} NeverPrefix(H: HashFn, actions: seq<Action>, n: nat)
    requires AllTimed(actions) && Never(H, actions, Approved) && n <= |actions|
    ensures Never(H, actions[..n], Approved)
  {
    hide RunAll;
    hide Finds;
    if n == |actions| {
      assert actions[..n] == actions;
    } else {
      assert actions[..|actions| - 1][..n] == actions[..n];
      NeverPrefix(H, actions[..|actions| - 1], n);
    }
  }

  // The first label, or any, that finds its hold approved.
  lemma {:induction false} SomeLabelFinds(H: HashFn, actions: seq<Action>) returns (n: nat)
    requires AllTimed(actions) && !Never(H, actions, Approved)
    ensures n < |actions| && Finds(RunAll(H, actions[..n]), actions[n], Approved)
  {
    hide RunAll;
    hide Finds;
    var last := |actions| - 1;
    if Finds(RunAll(H, actions[..last]), actions[last], Approved) {
      n := last;
    } else {
      n := SomeLabelFinds(H, actions[..last]);
      assert actions[..last][..n] == actions[..n];
    }
  }

  // No label of a run finds its hold approved if and only if, however the run
  // goes on from any of its states without another label, no request is ever
  // approved twice.
  lemma {:induction false} ApprovedOnceIff(H: HashFn, actions: seq<Action>)
    requires AllTimed(actions)
    ensures Never(H, actions, Approved) <==>
              forall n: nat, more, id :: n <= |actions| && AllTimed(actions[..n] + more) && Unlabelled(more)
                ==> !ApprovedTwice(RunAll(H, actions[..n] + more).db.events, id)
  {
    hide RunAll;
    hide Finds;
    hide ApprovedTwice;
    if Never(H, actions, Approved) {
      forall n: nat, more, id | n <= |actions| && AllTimed(actions[..n] + more) && Unlabelled(more)
        ensures !ApprovedTwice(RunAll(H, actions[..n] + more).db.events, id)
      {
        NeverPrefix(H, actions, n);
        NeverMore(H, actions[..n], more);
        ApprovedOnce(H, actions[..n] + more);
        OnceNotTwice(RunAll(H, actions[..n] + more), id);
      }
    } else {
      var i := SomeLabelFinds(H, actions);
      LabelAlreadyApproved(H, actions, i);
    }
  }

  lemma OnceNotTwice(s: State, id: int)
    requires Once(s)
    ensures !ApprovedTwice(s.db.events, id)
  {
    hide ApprovedAt;
  }

  // A policy that allows one agent one action.
  function Allowing(agent: string, action: string): Policy {
    Policy(map[agent := AgentCfg(0, 0, [action], false, None, None)], map[action := ActionCfg(0, [])])
  }

  lemma AllowingPermits(agent: string, action: string)
    ensures Permits(Allowing(agent, action), agent, action) && WellTimed(SetPolicy(Allowing(agent, action)))
  {
    assert [action][0] == action;
  }

  lemma LabelAlreadyApproved(H: HashFn, actions: seq<Action>, i: nat)
    requires AllTimed(actions) && i < |actions| && Finds(RunAll(H, actions[..i]), actions[i], Approved)
    ensures exists n: nat, more, id :: n <= |actions| && AllTimed(actions[..n] + more) && Unlabelled(more)
              && ApprovedTwice(RunAll(H, actions[..n] + more).db.events, id)
  {
    hide RunAll;
    hide ApprovedTwice;
    hide Permits;
    hide Allowing;
    var late, v := actions[i], RunAll(H, actions[..i]).labels[actions[i].id];
    var policy := Allowing(v.agent, v.action);
    AllowingPermits(v.agent, v.action);
    var yes, pay := Approve(late.id, 0, ""), Pay(late.id, Paid(None, ""), 0);
    ApprovedHoldPaidTwice(H, actions[..i], late, policy, yes, pay);
    var more := [SetPolicy(policy), yes, pay];
    assert actions[..i] + [late] + [SetPolicy(policy)] + [yes] + [pay] == actions[..i + 1] + more;
  }

  // ... and if and only if every state of the run itself has each approved
  // request closed: no payment of it under way, and its row approved.
  lemma {:induction false} OnceIffNever(H: HashFn, actions: seq<Action>)
    requires AllTimed(actions)
    ensures Never(H, actions, Approved) <==> forall n: nat :: n <= |actions| ==> Once(RunAll(H, actions[..n]))
  {
    hide RunAll;
    hide Finds;
    hide Once;
    if Never(H, actions, Approved) {
      forall n: nat | n <= |actions| ensures Once(RunAll(H, actions[..n])) {
        NeverPrefix(H, actions, n);
        ApprovedOnce(H, actions[..n]);
      }
    } else {
      var i := SomeLabelFinds(H, actions);
      var front := actions[..i];
      assert actions[..i + 1] == front + [actions[i]];
      RunMore(H, front, actions[i]);
      LabelOpens(H, front, actions[i]);
    }
  }

  lemma LabelOpens(H: HashFn, actions: seq<Action>, late: Action)
    requires AllTimed(actions) && Finds(RunAll(H, actions), late, Approved)
    ensures !Once(Fire(H, RunAll(H, actions), late))
  {
    hide RunAll;
    hide Fire;
    hide ApprovedAt;
    var s := RunAll(H, actions);
    ApprovalOf(H, actions, RowIndex(s.db.requests, late.id));
    var j: nat, v :| ApprovedAt(s.db.events, j, v) && v.id == late.id;
    Requeued(H, actions, late);
    var s' := Fire(H, s, late);
    ApprovalStays(s.db.events, s'.db.events, j, v);
    assert s'.db.requests[RowIndex(s'.db.requests, late.id)].decision == AwaitingApproval;
  }

  lemma ApprovedInside(events: seq<Event>, j: nat, v: RowView)
    requires ApprovedAt(events, j, v)
    ensures j < |events|
  {
    hide ReadChange;
  }

  lemma ApprovalStays(before: seq<Event>, after: seq<Event>, j: nat, v: RowView)
    requires ApprovedAt(before, j, v) && before <= after
    ensures ApprovedAt(after, j, v)
  {
    hide ReadChange;
    assert after[j] == before[j];
  }

  lemma Requeued(H: HashFn, actions: seq<Action>, late: Action)
    requires AllTimed(actions) && Finds(RunAll(H, actions), late, Approved)
    ensures var s, s' := RunAll(H, actions), Fire(H, RunAll(H, actions), late);
            && s.db.events <= s'.db.events && Holdable(s', late.id)
            && var v := ViewOf(s'.db.requests[RowIndex(s'.db.requests, late.id)]);
               v.agent == s.labels[late.id].agent && v.action == s.labels[late.id].action
  {
    hide RunAll;
    hide Core;
    hide Trace;
    hide Apply;
    hide Mirrored;
    hide Honest;
    hide SpentOn;
    hide ParamsParse;
    hide HasReservation;
    AlwaysKept(H, actions);
    var s, s' := RunAll(H, actions), Fire(H, RunAll(H, actions), late);
    CoreFacts(H, s);
    CoreParts(H, s);
    var k := RowIndex(s.db.requests, late.id);
    LabelMoves(H, actions, late.id, late.why, late.stamp);
    Limits.StepHonest(H, s.db, OpFinalize(late.id, AwaitingApproval, late.why, None, late.stamp));
    assert s'.db.requests[k].id == late.id;
    assert forall i :: 0 <= i < |s'.db.requests| && s'.db.requests[i].id == late.id ==> i == k;
    SameCallView(s.db.requests[k], s'.db.requests[k]);
  }

  lemma Rereleased(H: HashFn, actions: seq<Action>, yes: Action)
    requires AllTimed(actions) && yes.Approve? && Holdable(RunAll(H, actions), yes.id)
    requires var s := RunAll(H, actions);
             var v := ViewOf(s.db.requests[RowIndex(s.db.requests, yes.id)]); Permits(s.policy, v.agent, v.action)
    ensures var s, s' := RunAll(H, actions), Fire(H, RunAll(H, actions), yes);
            && s.db.events <= s'.db.events && yes.id in s'.flights && HasRow(s'.db.requests, yes.id)
            && s'.labels == s.labels && s'.policy == s.policy
  {
    hide RunAll;
    hide Core;
    hide Trace;
    hide LogEvent;
    hide ViewOf;
    hide ParamsParse;
    hide Permits;
    AlwaysKept(H, actions);
    var s := RunAll(H, actions);
    var k := RowIndex(s.db.requests, yes.id);
    var v := ViewOf(s.db.requests[k]);
    GrantCore(H, s, yes.id, v, yes.stamp);
    Limits.LogOnly(H, s.db, GRANTED, GrantPayload(v), yes.stamp);
    assert Fire(H, s, yes).db.requests[k].id == yes.id;
  }

  lemma Repaid(H: HashFn, actions: seq<Action>, pay: Action)
    requires AllTimed(actions) && pay.Pay? && pay.outcome.Paid? && pay.id in RunAll(H, actions).flights
    requires HasRow(RunAll(H, actions).db.requests, pay.id)
    ensures var s, s' := RunAll(H, actions), Fire(H, RunAll(H, actions), pay);
            s.db.events <= s'.db.events && exists w :: ApprovedAt(s'.db.events, |s.db.events|, w) && w.id == pay.id
  {
    hide RunAll;
    hide Core;
    hide Trace;
    hide LogEvent;
    hide ViewOf;
    hide ReadChange;
    hide DecidedFields;
    hide Json.Loads;
    hide Json.Dumps;
    AlwaysKept(H, actions);
    var s := RunAll(H, actions);
    FlightRow(H, s, pay.id);
    var (decision, why, tx) := Closing(pay.outcome);
    var k := RowIndex(s.db.requests, pay.id);
    var r := s.db.requests[k].(decision := decision, reason := why, txId := tx);
    var p := Json.Loads(r.params).value;
    var fields := DecidedFields(r.id, r.agent, r.action, r.amount, p, r.decision, r.reason, r.txId);
    LastEvent(H, s.db.(requests := s.db.requests[k := r]), DECIDED, fields, pay.stamp);
    ReadBackDecided(r.id, r.agent, r.action, r.amount, p, r.decision, r.reason, r.txId);
    assert ApprovedAt(Fire(H, s, pay).db.events, |s.db.events|, RowView(r.id, r.agent, r.action, r.amount, p, Approved, tx));
  }

  // ---- such a run, from nothing ----

  // A hold released and paid for before its label: the label then finds it
  // approved.
  lemma PaidBeforeLabel(H: HashFn, actions: seq<Action>, yes: Action, pay: Action, late: Action)
    requires AllTimed(actions) && yes.Approve? && pay.Pay? && pay.outcome.Paid? && late.Label? && yes.id == pay.id == late.id
    requires Holdable(RunAll(H, actions), yes.id) && yes.id in RunAll(H, actions).labels
    requires var s := RunAll(H, actions);
             var v := ViewOf(s.db.requests[RowIndex(s.db.requests, yes.id)]); Permits(s.policy, v.agent, v.action)
    ensures AllTimed(actions + [yes] + [pay])
    ensures var s, s' := RunAll(H, actions), RunAll(H, actions + [yes] + [pay]);
            Finds(s', late, Approved) && s'.policy == s.policy && s'.labels == s.labels
  {
    hide RunAll;
    hide Apply;
    hide SpentOn;
    hide ViewOf;
    hide ParamsParse;
    hide Permits;
    RunMore(H, actions, yes);
    Rereleased(H, actions, yes);
    var one := actions + [yes];
    RunMore(H, one, pay);
    PaymentResolves(H, one, pay.id, pay.outcome, pay.stamp);
    PaidIds(H, one, pay.id, pay.outcome, pay.stamp);
  }

  // From the empty database: one request, held, released and paid for before
  // its label, then labelled, released and paid for again -- approved twice.
  lemma {:induction false} OneRequestPaidTwice(H: HashFn, cap: nat, t: Instant)
    requires cap > 0 && VELOCITY_WINDOW * US <= t
    ensures var policy, yes, pay := SetPolicy(OneAgent(cap)), Approve(1, t, ""), Pay(1, Paid(None, ""), t);
            var before := [policy] + [SpendOnce("1", t)] + [yes] + [pay];
            var run := before + [Label(1, "", t)] + [policy] + [yes] + [pay];
            && AllTimed(before) && Finds(RunAll(H, before), Label(1, "", t), Approved)
            && AllTimed(run) && ApprovedTwice(RunAll(H, run).db.events, 1)
  {
    hide RunAll;
    hide Decide;
    hide CheckSignature;
    hide Test;
    hide SpentOn;
    hide Iso;
    hide Finds;
    hide ApprovedTwice;
    hide Admitted;
    hide Permits;
    hide ViewOf;
    hide ParamsParse;
    hide Apply;
    hide Reserved;
    hide ReservedRow;
    var policy, a, yes, pay, late := SetPolicy(OneAgent(cap)), SpendOnce("1", t), Approve(1, t, ""), Pay(1, Paid(None, ""), t), Label(1, "", t);
    var held := [policy] + [a];
    OneHeld(H, cap, t);
    PaidBeforeLabel(H, held, yes, pay, late);
    ApprovedHoldPaidTwice(H, held + [yes] + [pay], late, OneAgent(cap), yes, pay);
  }

  // The request held: its row, its label and the policy that permits it.
  lemma OneHeld(H: HashFn, cap: nat, t: Instant)
    requires cap > 0 && VELOCITY_WINDOW * US <= t
    ensures var held := [SetPolicy(OneAgent(cap))] + [SpendOnce("1", t)];
            && AllTimed(held) && Holdable(RunAll(H, held), 1) && 1 in RunAll(H, held).labels
            && var s := RunAll(H, held);
               var v := ViewOf(s.db.requests[RowIndex(s.db.requests, 1)]);
               && Permits(s.policy, v.agent, v.action) && Permits(OneAgent(cap), s.labels[1].agent, s.labels[1].action)
  {
    hide RunAll;
    hide Decide;
    hide CheckSignature;
    hide Test;
    hide SpentOn;
    hide Iso;
    hide Fire;
    hide RowIs;
    hide Holdable;
    hide ViewOf;
    hide ParamsParse;
    var one, a := [SetPolicy(OneAgent(cap))], SpendOnce("1", t);
    var s0 := Repolicied(H, cap);
    OneAgentProceeds(cap, s0.seen, "1", t);
    Limits.NothingSpent("a", Iso(t)[..10]);
    RoomAdmits(s0.db, cap, t);
    RunMore(H, one, a);
    NewHold(H, one, a, Ask1(cap));
    HeldLabel(H, s0, a, Ask1(cap));
    HeldAsLabelled(H, one + [a], 1);
    assert OneAgent(cap).agents["a"].allowed[0] == "x";
  }

  // A hold still to be labelled is the call its label is for.
  lemma HeldAsLabelled(H: HashFn, actions: seq<Action>, id: nat)
    requires AllTimed(actions) && Holdable(RunAll(H, actions), id) && id in RunAll(H, actions).labels
    ensures var s := RunAll(H, actions);
            var v := ViewOf(s.db.requests[RowIndex(s.db.requests, id)]);
            v.agent == s.labels[id].agent && v.action == s.labels[id].action
  {
    hide RunAll;
    hide Core;
    hide Trace;
    hide ViewOf;
    hide ParamsParse;
    hide HasReservation;
    AlwaysKept(H, actions);
    var s := RunAll(H, actions);
    CoreParts(H, s);
    assert AsHold(ViewOf(s.db.requests[RowIndex(s.db.requests, id)])) == s.labels[id];
  }

  // The label to come is for the call that was reserved.
  lemma HeldLabel(H: HashFn, s: State, a: Action, ask: Ask)
    requires Admitted(s, a, ask) && ask.state == AwaitingApproval
    ensures var s', id := Fire(H, s, a), s.db.lastId + 1;
            && id in s'.labels && s'.labels[id].agent == ask.agent && s'.labels[id].action == ask.action && s'.policy == s.policy
  {
    hide Apply;
    hide Decide;
    hide CheckSignature;
    hide Test;
    ReservedView(s.db, ask, a.now);
  }
}
