/** Reservations that no payment will ever resolve: exactly those that a
    restart found too young to abandon. */
module Stranded {
  import opened Text
  import opened Clock
  import opened Ledger
  import opened Anchor
  import opened Store
  import opened View
  import opened Engine
  import opened Provenance
  import opened Settlement
  import Limits
  import Timeline

  // Action i is the request that was given the id.
  ghost predicate BornAt(H: HashFn, actions: seq<Action>, i: nat, id: nat)
    requires AllTimed(actions)
  {
    && i < |actions| && actions[i].Spend?
    && RunAll(H, actions[..i]).db.lastId + 1 == id == RunAll(H, actions[..i + 1]).db.lastId
  }

  // Every restart since then came before the reservation was old enough.
  predicate TooYoung(actions: seq<Action>, i: nat)
    requires i < |actions| && actions[i].Spend?
  {
    forall m :: i < m < |actions| && actions[m].Restart? ==> actions[i].now > actions[m].now - actions[m].olderThan * US
  }

  predicate Restarted(actions: seq<Action>, i: nat) {
    exists m :: i < m < |actions| && actions[m].Restart?
  }

  // What stands behind a pending row: the request that made it, restarts that
  // found it too young, and a payment under way unless there was one.
  ghost predicate Explained(H: HashFn, actions: seq<Action>, i: nat, r: Request)
    requires AllTimed(actions)
  {
    && BornAt(H, actions, i, r.id) && r.timestamp == Iso(actions[i].now) && TooYoung(actions, i)
    && (r.id in RunAll(H, actions).flights <==> !Restarted(actions, i))
  }

  lemma PendingOp(H: HashFn, db: Db, op: Op, k: nat)
    requires Legal(op) && k < |Apply(H, db, op).requests| && Apply(H, db, op).requests[k].decision == Pending
    ensures var after := Apply(H, db, op);
            if k < |db.requests| then after.requests[k] == db.requests[k]
            else op.OpReserve? && Test(db, op.ask, op.now).Admitted? && after.requests[k] == ReservedRow(db, op.ask, op.now)
                 && after.lastId == db.lastId + 1 == after.requests[k].id
  {
    hide Apply;
    hide Iso;
    hide CountSince;
    hide SpentOn;
    hide Pow2;
    Limits.StepTable(H, db, op);
    var after := Apply(H, db, op);
    match op
    case OpDeny(_, _, _, _, _, _, _) => assert k < |db.requests| ==> after.requests[..|db.requests|][k] == db.requests[k];
    case OpFinalize(id, decision, _, _, _) =>
      if after.requests != db.requests { assert k != RowIndex(db.requests, id) ==> after.requests[k] == db.requests[k]; }
    case _ =>
  }

  // A row still pending after an action is as it was, or this very request's.
  ghost predicate Same(s: State, s': State, k: nat) {
    k < |s.db.requests| && k < |s'.db.requests| && s'.db.requests[k] == s.db.requests[k]
  }

  ghost predicate Begun(s: State, a: Action, s': State, k: nat) {
    && a.Spend? && k < |s'.db.requests| && s'.db.requests[k].id == s.db.lastId + 1 == s'.db.lastId
    && s'.db.requests[k].timestamp == Iso(a.now) && s'.db.requests[k].id in s'.flights
  }

  // What a request does to the store, and the payment it begins.
  lemma SpendMeans(H: HashFn, s: State, a: Action)
    requires a.Spend? && WellTimed(a)
    ensures var op, s' := SpendOp(s, a), Fire(H, s, a);
            && s'.db == Apply(H, s.db, op)
            && (op.OpReserve? && op.ask.state == Pending ==> op.now == a.now && s.db.lastId + 1 in s'.flights)
  {
    hide Apply;
    hide Test;
    hide Decide;
    hide CheckSignature;
    hide Reserved;
    hide ReservedRow;
    var (signed, _) := CheckSignature(s.policy, s.seen, a.req, a.clock);
    if Decide(s.policy, a.req, signed).Proceed? { GateFacts(s.policy, a.req, signed); }
  }

  lemma PendingSpend(H: HashFn, s: State, a: Action, k: nat)
    requires a.Spend? && WellTimed(a)
    requires k < |Fire(H, s, a).db.requests| && Fire(H, s, a).db.requests[k].decision == Pending
    ensures Same(s, Fire(H, s, a), k) || Begun(s, a, Fire(H, s, a), k)
  {
    hide Apply;
    hide Fire;
    hide SpendOp;
    hide Test;
    hide Iso;
    SpendMeans(H, s, a);
    PendingOp(H, s.db, SpendOp(s, a), k);
  }

  lemma PendingRefusal(H: HashFn, s: State, op: Op, op': Op, k: nat)
    requires Legal(op) && Legal(op') && !op.OpReserve? && !op'.OpReserve?
    requires k < |Push(H, Push(H, s, op), op').db.requests| && Push(H, Push(H, s, op), op').db.requests[k].decision == Pending
    ensures Same(s, Push(H, Push(H, s, op), op'), k)
  {
    hide Apply;
    var mid := Push(H, s, op);
    PendingOp(H, mid.db, op', k);
    PendingOp(H, s.db, op, k);
  }

  lemma PendingAction(H: HashFn, s: State, a: Action, k: nat)
    requires WellTimed(a) && k < |Fire(H, s, a).db.requests| && Fire(H, s, a).db.requests[k].decision == Pending
    ensures Same(s, Fire(H, s, a), k) || Begun(s, a, Fire(H, s, a), k)
  {
    hide Apply;
    hide FireSpend;
    hide FirePay;
    hide FireApprove;
    hide ViewOf;
    hide ParamsParse;
    hide Permits;
    hide Begun;
    match a
    case SetPolicy(_) =>
    case Spend(_, _, _, _, _) => PendingSpend(H, s, a, k);
    case Label(id, why, stamp) => if id in s.labels { PendingOp(H, s.db, OpFinalize(id, AwaitingApproval, why, None, stamp), k); }
    case Pay(_, _, _) => PendingPay(H, s, a, k);
    case Approve(_, _, _) => PendingApprove(H, s, a, k);
    case Reject(id, stamp, why) =>
      if Holdable(s, id) {
        var v := ViewOf(s.db.requests[RowIndex(s.db.requests, id)]);
        PendingRefusal(H, s, OpEvent(REJECTED, RejectedPayload(v), stamp), OpFinalize(id, Denied, why, None, stamp), k);
      }
    case Restart(olderThan, now, stamp) => PendingOp(H, s.db, OpReap(olderThan, now, stamp), k);
    case Wipe(stamp) => PendingOp(H, s.db, OpReset(|s.db.requests|, stamp), k);
    case Note(t, payload, stamp) => PendingOp(H, s.db, OpEvent(t, payload, stamp), k);
  }

  lemma PendingApprove(H: HashFn, s: State, a: Action, k: nat)
    requires a.Approve?
    requires k < |Fire(H, s, a).db.requests| && Fire(H, s, a).db.requests[k].decision == Pending
    ensures Same(s, Fire(H, s, a), k)
  {
    hide Apply;
    hide ViewOf;
    hide ParamsParse;
    hide Permits;
    if Holdable(s, a.id) {
      var v := ViewOf(s.db.requests[RowIndex(s.db.requests, a.id)]);
      if Permits(s.policy, v.agent, v.action) {
        PendingOp(H, s.db, OpEvent(GRANTED, GrantPayload(v), a.stamp), k);
      } else {
        PendingRefusal(H, s, OpEvent(BLOCKED, BlockedPayload(a.id, a.why), a.stamp), OpFinalize(a.id, Denied, a.why, None, a.stamp), k);
      }
    }
  }

  lemma PendingPay(H: HashFn, s: State, a: Action, k: nat)
    requires a.Pay?
    requires k < |Fire(H, s, a).db.requests| && Fire(H, s, a).db.requests[k].decision == Pending
    ensures Same(s, Fire(H, s, a), k)
  {
    hide Apply;
    if a.id in s.flights {
      var (decision, why, tx) := Closing(a.outcome);
      PendingOp(H, s.db, OpFinalize(a.id, decision, why, tx, a.stamp), k);
    }
  }

  // An old row that stays pending keeps its payment, but for a restart.
  lemma FlightOfPending(H: HashFn, actions: seq<Action>, a: Action, k: nat)
    requires AllTimed(actions) && WellTimed(a) && Same(RunAll(H, actions), Fire(H, RunAll(H, actions), a), k)
    requires RunAll(H, actions).db.requests[k].decision == Pending
    ensures var s, s', id := RunAll(H, actions), Fire(H, RunAll(H, actions), a), RunAll(H, actions).db.requests[k].id;
            id in s'.flights <==> id in s.flights && !a.Restart?
  {
    hide RunAll;
    hide Core;
    hide Trace;
    hide Mirrored;
    hide Honest;
    hide Apply;
    hide FireSpend;
    hide Test;
    hide ViewOf;
    hide ParamsParse;
    hide HasReservation;
    AlwaysKept(H, actions);
    var s := RunAll(H, actions);
    CoreFacts(H, s);
    CoreParts(H, s);
    var id := s.db.requests[k].id;
    match a
    case Spend(_, _, _, _, _) => SpendFlights(H, s, a);
    case Pay(id', outcome, stamp) => if id' == id && id in s.flights { PaidNotPending(H, actions, a, k); }
    case Approve(id', _, _) => if Holdable(s, id') { HeldElsewhere(H, actions, id', k); }
    case _ =>
  }

  lemma SpendFlights(H: HashFn, s: State, a: Action)
    requires a.Spend? && WellTimed(a)
    ensures forall id :: id in Fire(H, s, a).flights <==> id in s.flights || (id == s.db.lastId + 1 && id in Fire(H, s, a).flights)
  {
    hide Apply;
    hide Test;
    hide Decide;
    hide CheckSignature;
    hide Reserved;
    hide ReservedRow;
  }

  lemma PaidNotPending(H: HashFn, actions: seq<Action>, a: Action, k: nat)
    requires AllTimed(actions) && a.Pay? && a.id in RunAll(H, actions).flights
    requires k < |RunAll(H, actions).db.requests| && RunAll(H, actions).db.requests[k].id == a.id
    ensures var s' := FirePay(H, RunAll(H, actions), a.id, a.outcome, a.stamp);
            k < |s'.db.requests| && s'.db.requests[k].decision != Pending
  {
    hide RunAll;
    hide Apply;
    hide SpentOn;
    hide DayOf;
    hide Core;
    hide Trace;
    hide Mirrored;
    AlwaysKept(H, actions);
    CoreFacts(H, RunAll(H, actions));
    PaymentResolves(H, actions, a.id, a.outcome, a.stamp);
    assert RowIndex(RunAll(H, actions).db.requests, a.id) == k;
  }

  // The hold an operator releases is no pending row.
  lemma HeldElsewhere(H: HashFn, actions: seq<Action>, hold: nat, k: nat)
    requires AllTimed(actions) && Holdable(RunAll(H, actions), hold)
    requires k < |RunAll(H, actions).db.requests| && RunAll(H, actions).db.requests[k].decision == Pending
    ensures var s := RunAll(H, actions);
            hold != s.db.requests[k].id && ViewOf(s.db.requests[RowIndex(s.db.requests, hold)]).id == hold
  {
    hide RunAll;
    hide Core;
    hide Trace;
    hide Mirrored;
    hide HasReservation;
    AlwaysKept(H, actions);
    var s := RunAll(H, actions);
    CoreFacts(H, s);
    HoldFacts(H, s, hold);
  }

  // A restart drops every payment under way and denies exactly the pending
  // rows that are old enough: a younger one goes on counting, unpaid.
  lemma {:induction false} RestartStrands(H: HashFn, actions: seq<Action>, a: Action, k: nat, born: Instant)
    requires AllTimed(actions) && a.Restart? && WellTimed(a) && k < |RunAll(H, actions).db.requests|
    requires var r := RunAll(H, actions).db.requests[k]; r.decision == Pending && r.timestamp == Iso(born)
    ensures var s, s' := RunAll(H, actions), Fire(H, RunAll(H, actions), a);
            && s'.flights == map[] && k < |s'.db.requests|
            && s'.db.requests[k] == (if born > a.now - a.olderThan * US then s.db.requests[k]
                                     else s.db.requests[k].(decision := Denied, reason := ABANDONED))
  {
    hide RunAll;
    hide Core;
    hide Trace;
    hide Iso;
    hide Less;
    hide ReapFrom;
    hide ParamsParse;
    hide Fold;
    AlwaysKept(H, actions);
    var s := RunAll(H, actions);
    CoreFacts(H, s);
    var cutoff: Instant := a.now - a.olderThan * US;
    Timeline.ReapFromExact(H, s.db, 0, WindowCutoff(a.now, a.olderThan), a.stamp);
    IsoOrder(cutoff, born);
  }

  // In every state of every decision run, each pending row was made by a
  // request of the run, found too young by every restart since, and has its
  // payment under way exactly if there was none. So a pending row that no
  // payment will resolve is one that a restart left, and the next restart that
  // finds it old enough is what frees its budget.
  lemma {:induction false} PendingIff(H: HashFn, actions: seq<Action>, k: nat) returns (i: nat)
    requires AllTimed(actions)
    requires k < |RunAll(H, actions).db.requests| && RunAll(H, actions).db.requests[k].decision == Pending
    ensures Explained(H, actions, i, RunAll(H, actions).db.requests[k])
  {
    hide RunAll;
    hide Fire;
    hide Iso;
    if actions == [] { NothingPending(H, k); }
    var front, a := actions[..|actions| - 1], actions[|actions| - 1];
    assert front + [a] == actions;
    var s := RunAll(H, front);
    RunMore(H, front, a);
    PendingAction(H, s, a, k);
    if Same(s, Fire(H, s, a), k) {
      i := PendingIff(H, front, k);
      FlightOfPending(H, front, a, k);
      if a.Restart? { RestartStrands(H, front, a, k, front[i].now); }
      ExplainedMore(H, front, a, i, k);
    } else {
      i := |front|;
      assert actions[..i] == front && actions[..i + 1] == actions;
    }
  }

  lemma NothingPending(H: HashFn, k: nat)
    ensures k >= |RunAll(H, []).db.requests|
  {
  }

  lemma ExplainedMore(H: HashFn, actions: seq<Action>, a: Action, i: nat, k: nat)
    requires AllTimed(actions) && WellTimed(a) && Same(RunAll(H, actions), Fire(H, RunAll(H, actions), a), k)
    requires Explained(H, actions, i, RunAll(H, actions).db.requests[k])
    requires a.Restart? ==> actions[i].now > a.now - a.olderThan * US
    requires var s, id := RunAll(H, actions), RunAll(H, actions).db.requests[k].id;
             id in Fire(H, s, a).flights <==> id in s.flights && !a.Restart?
    ensures AllTimed(actions + [a]) && Explained(H, actions + [a], i, Fire(H, RunAll(H, actions), a).db.requests[k])
  {
    hide RunAll;
    hide Fire;
    hide Iso;
    RunMore(H, actions, a);
    var more := actions + [a];
    assert more[..i] == actions[..i] && more[..i + 1] == actions[..i + 1] && more[i] == actions[i] && more[|actions|] == a;
    assert Restarted(more, i) <==> Restarted(actions, i) || a.Restart? by {
      if Restarted(actions, i) {
        var m :| i < m < |actions| && actions[m].Restart?;
        assert more[m].Restart?;
      }
      if a.Restart? { assert more[|actions|].Restart?; }
    }
  }
}
