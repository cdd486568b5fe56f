/** What a hold that is labelled late can do. A request reserves its hold and
    labels it in a second transaction; an operator may resolve the hold in
    between. The daily cap holds exactly of runs in which no label finds its
    hold denied, and requests are approved at most once in runs in which no
    label finds its hold approved. */
module Holds {
  import opened Text
  import opened Clock
  import opened Ledger
  import opened Anchor
  import opened Store
  import opened CallParams
  import opened View
  import opened Engine
  import opened Provenance
  import opened Settlement
  import opened Tolerance
  import Json
  import Limits

  // The label finds a row that is already of that decision.
  predicate Finds(s: State, a: Action, d: Decision) {
    a.Label? && a.id in s.labels && HasRow(s.db.requests, a.id) && s.db.requests[RowIndex(s.db.requests, a.id)].decision == d
  }

  ghost predicate Never(H: HashFn, actions: seq<Action>, d: Decision)
    requires AllTimed(actions)
  {
    actions == [] ||
      (Never(H, actions[..|actions| - 1], d) && !Finds(RunAll(H, actions[..|actions| - 1]), actions[|actions| - 1], d))
  }

  // ---- the cap ----

  lemma PushGuarded(H: HashFn, s: State, op: Op)
    requires AllLegal(s.history) && s.db == Exec(H, s.history) && Legal(op)
    ensures AllLegal(Push(H, s, op).history) && Push(H, s, op).db == Exec(H, Push(H, s, op).history)
    ensures Limits.AllGuarded(H, Push(H, s, op).history) <==> Limits.AllGuarded(H, s.history) && Limits.Guarded(s.db, op)
  {
    hide Apply;
    hide Limits.Guarded;
    var ops, more := s.history, s.history + [op];
    assert more[..|ops|] == ops;
    assert forall i :: 0 <= i < |ops| ==> more[..i] == ops[..i] && more[i] == ops[i];
    if Limits.AllGuarded(H, more) {
      assert Limits.Guarded(Exec(H, more[..|ops|]), more[|ops|]);
      forall i | 0 <= i < |ops| ensures Limits.Guarded(Exec(H, ops[..i]), ops[i]) {
        assert Limits.Guarded(Exec(H, more[..i]), more[i]);
      }
    }
  }

  lemma GuardedFlight(H: HashFn, s: State, a: Action)
    requires Core(H, s) && a.Pay? && a.id in s.flights
    ensures var (decision, why, tx) := Closing(a.outcome); Limits.Guarded(s.db, OpFinalize(a.id, decision, why, tx, a.stamp))
  {
    hide Core;
    hide ViewOf;
    hide ParamsParse;
    FlightRow(H, s, a.id);
  }

  lemma GuardedRefusal(H: HashFn, s: State, id: nat, eventType: string, payload: Json.Value, why: string, stamp: Instant)
    requires AllLegal(s.history) && s.db == Exec(H, s.history) && Legal(OpEvent(eventType, payload, stamp))
    ensures var s' := Refusal(H, s, id, eventType, payload, why, stamp);
            AllLegal(s'.history) && (Limits.AllGuarded(H, s'.history) <==> Limits.AllGuarded(H, s.history))
  {
    hide Apply;
    hide Exec;
    hide Limits.AllGuarded;
    var op := OpEvent(eventType, payload, stamp);
    PushGuarded(H, s, op);
    PushGuarded(H, Push(H, s, op), OpFinalize(id, Denied, why, None, stamp));
  }

  lemma GuardedSpend(H: HashFn, s: State, a: Action)
    requires AllLegal(s.history) && s.db == Exec(H, s.history) && a.Spend? && WellTimed(a)
    ensures AllLegal(Fire(H, s, a).history)
    ensures Limits.AllGuarded(H, Fire(H, s, a).history) <==> Limits.AllGuarded(H, s.history)
  {
    hide Apply;
    hide Exec;
    hide Limits.AllGuarded;
    hide Test;
    hide Decide;
    hide CheckSignature;
    PushGuarded(H, s, SpendOp(s, a));
  }

  lemma GuardedPay(H: HashFn, s: State, a: Action)
    requires Core(H, s) && a.Pay? && AllLegal(s.history)
    ensures AllLegal(Fire(H, s, a).history)
    ensures Limits.AllGuarded(H, Fire(H, s, a).history) <==> Limits.AllGuarded(H, s.history)
  {
    hide Apply;
    hide Exec;
    hide Core;
    hide Limits.AllGuarded;
    CoreParts(H, s);
    if a.id in s.flights {
      GuardedFlight(H, s, a);
      var (decision, why, tx) := Closing(a.outcome);
      PushGuarded(H, s, OpFinalize(a.id, decision, why, tx, a.stamp));
    }
  }

  lemma GuardedApprove(H: HashFn, s: State, a: Action)
    requires AllLegal(s.history) && s.db == Exec(H, s.history) && a.Approve?
    ensures AllLegal(Fire(H, s, a).history)
    ensures Limits.AllGuarded(H, Fire(H, s, a).history) <==> Limits.AllGuarded(H, s.history)
  {
    hide Apply;
    hide Exec;
    hide Limits.AllGuarded;
    hide ViewOf;
    hide ParamsParse;
    hide Permits;
    hide Refusal;
    if Holdable(s, a.id) {
      var v := ViewOf(s.db.requests[RowIndex(s.db.requests, a.id)]);
      if Permits(s.policy, v.agent, v.action) {
        PushGuarded(H, s, OpEvent(GRANTED, GrantPayload(v), a.stamp));
      } else {
        GuardedRefusal(H, s, a.id, BLOCKED, BlockedPayload(a.id, a.why), a.why, a.stamp);
      }
    }
  }

  lemma GuardedReject(H: HashFn, s: State, a: Action)
    requires AllLegal(s.history) && s.db == Exec(H, s.history) && a.Reject?
    ensures AllLegal(Fire(H, s, a).history)
    ensures Limits.AllGuarded(H, Fire(H, s, a).history) <==> Limits.AllGuarded(H, s.history)
  {
    hide Apply;
    hide Exec;
    hide Limits.AllGuarded;
    hide ViewOf;
    hide ParamsParse;
    hide Refusal;
    if Holdable(s, a.id) {
      GuardedRefusal(H, s, a.id, REJECTED, RejectedPayload(ViewOf(s.db.requests[RowIndex(s.db.requests, a.id)])), a.why, a.stamp);
    }
  }

  lemma StepGuarded(H: HashFn, s: State, a: Action)
    requires Core(H, s) && WellTimed(a) && AllLegal(s.history) && AllLegal(Fire(H, s, a).history)
    ensures Limits.AllGuarded(H, Fire(H, s, a).history) <==> Limits.AllGuarded(H, s.history) && !Finds(s, a, Denied)
  {
    hide Apply;
    hide Exec;
    hide Core;
    hide Limits.AllGuarded;
    hide Test;
    hide Decide;
    hide CheckSignature;
    hide ViewOf;
    hide ParamsParse;
    hide Permits;
    hide Refusal;
    hide FireSpend;
    hide FirePay;
    hide FireApprove;
    hide FireReject;
    CoreParts(H, s);
    match a
    case SetPolicy(_) =>
    case Spend(_, _, _, _, _) => GuardedSpend(H, s, a);
    case Label(id, why, stamp) => PushGuarded(H, s, OpFinalize(id, AwaitingApproval, why, None, stamp));
    case Pay(_, _, _) => GuardedPay(H, s, a);
    case Approve(_, _, _) => GuardedApprove(H, s, a);
    case Reject(_, _, _) => GuardedReject(H, s, a);
    case Restart(olderThan, now, stamp) => PushGuarded(H, s.(flights := map[], labels := map[], seen := map[]), OpReap(olderThan, now, stamp));
    case Wipe(stamp) => PushGuarded(H, s, OpReset(|s.db.requests|, stamp));
    case Note(t, payload, stamp) => PushGuarded(H, s, OpEvent(t, payload, stamp));
  }

  // The engine makes a finalize that revives money exactly when a label finds
  // its hold denied.
  lemma {:induction false} GuardedIffNever(H: HashFn, actions: seq<Action>)
    requires AllTimed(actions)
    ensures AllLegal(RunAll(H, actions).history)
    ensures Limits.AllGuarded(H, RunAll(H, actions).history) <==> Never(H, actions, Denied)
  {
    hide Fire;
    hide Core;
    hide Trace;
    hide Limits.AllGuarded;
    hide Finds;
    AlwaysKept(H, actions);
    CoreParts(H, RunAll(H, actions));
    if actions == [] {
      NothingGuarded(H);
    } else {
      var front := actions[..|actions| - 1];
      GuardedIffNever(H, front);
      AlwaysKept(H, front);
      CoreParts(H, RunAll(H, front));
      StepGuarded(H, RunAll(H, front), actions[|actions| - 1]);
    }
  }

  lemma NothingGuarded(H: HashFn)
    ensures AllLegal([]) && Limits.AllGuarded(H, [])
  {
  }

  // Every decision run is a run of storage operations with its table
  // replaying from its ledger; and where no label finds its hold denied, the
  // daily cap holds in every state.
  lemma {:induction false} RunsStayWithinCap(H: HashFn, actions: seq<Action>, agent: string, day: string)
    requires AllTimed(actions)
    ensures var s := RunAll(H, actions);
            && AllLegal(s.history) && s.db == Exec(H, s.history) && Mirrored(s.db)
            && (Never(H, actions, Denied) ==>
                  match Limits.LatestCap(H, s.history, agent, day)
                  case Some(cap) => WithinCap(SpentOn(s.db.requests, agent, day), cap)
                  case None => SpentOn(s.db.requests, agent, day) <= 0)
  {
    hide RunAll;
    hide Exec;
    hide Core;
    hide Trace;
    hide Mirrored;
    hide Numbered;
    hide SpentOn;
    hide Limits.LatestCap;
    hide Limits.AllGuarded;
    hide Never;
    hide WithinCap;
    AlwaysKept(H, actions);
    var s := RunAll(H, actions);
    CoreFacts(H, s);
    CoreParts(H, s);
    GuardedIffNever(H, actions);
    if Never(H, actions, Denied) { Limits.CapHolds(H, s.history, agent, day); }
  }

  // ---- no request is approved twice, but for a late label ----

  // Nothing can approve the request again but a label: no payment of it is
  // under way, its row is approved if it is still there, nor will its id come
  // back.
  ghost predicate Closed(s: State, id: int) {
    && id <= s.db.lastId && id !in s.flights
    && forall i :: 0 <= i < |s.db.requests| && s.db.requests[i].id == id ==> s.db.requests[i].decision == Approved
  }

  ghost predicate Once(s: State) {
    && (forall j: nat, v :: ApprovedAt(s.db.events, j, v) ==> Closed(s, v.id))
    && (forall j: nat, k: nat, v, w :: ApprovedAt(s.db.events, j, v) && ApprovedAt(s.db.events, k, w) && v.id == w.id ==> j == k)
  }

  // An operation that finalizes no row of it keeps a closed request closed.
  lemma ClosedStays(H: HashFn, s: State, op: Op, id: int)
    requires Core(H, s) && Legal(op) && Closed(s, id)
    requires op.OpFinalize? && op.id == id ==> !HasRow(s.db.requests, op.id) || op.decision == Approved
    ensures Closed(Push(H, s, op), id)
  {
    hide Apply;
    hide Core;
    hide Mirrored;
    hide Honest;
    hide Test;
    CoreFacts(H, s);
    var db, after := s.db, Push(H, s, op).db;
    Limits.StepTable(H, db, op);
    TableGrows(db, op, after);
    forall i | 0 <= i < |after.requests| && after.requests[i].id == id ensures after.requests[i].decision == Approved {
      if op.OpReap? {
        assert Limits.SameRequest(db.requests[i], after.requests[i]);
      } else {
        OldRow(H, db, op, i);
      }
    }
  }

  // A quiet operation, finalizing nothing that is closed.
  lemma OnceQuiet(H: HashFn, s: State, op: Op)
    requires Core(H, s) && Once(s) && Legal(op) && !(op.OpFinalize? && op.decision == Approved)
    requires op.OpFinalize? && HasRow(s.db.requests, op.id) ==> s.db.requests[RowIndex(s.db.requests, op.id)].decision != Approved
    ensures Once(Push(H, s, op))
  {
    hide Apply;
    hide Core;
    hide ApprovedAt;
    var s' := Push(H, s, op);
    QuietPush(H, s, op);
    forall j: nat, v | ApprovedAt(s'.db.events, j, v) ensures ApprovedAt(s.db.events, j, v) && Closed(s', v.id) {
      assert Closed(s, v.id);
      ClosedStays(H, s, op, v.id);
    }
  }

  // Anything but the tables and the payments may change, and payments may
  // start of what is not closed.
  lemma OnceWith(s: State, s': State)
    requires Once(s) && s'.db == s.db
    requires forall id :: id in s'.flights && id !in s.flights ==> !Closed(s, id)
    ensures Once(s')
  {
    hide ApprovedAt;
    forall j: nat, v | ApprovedAt(s'.db.events, j, v) ensures Closed(s', v.id) {
      assert Closed(s, v.id);
    }
  }

  // After its approving finalize the row is approved.
  lemma PaidRow(H: HashFn, db: Db, op: Op, i: nat)
    requires Legal(op) && op.OpFinalize? && op.decision == Approved && Mirrored(db)
    requires i < |Apply(H, db, op).requests| && Apply(H, db, op).requests[i].id == op.id
    ensures Apply(H, db, op).requests[i].decision == Approved && i < |db.requests| && db.requests[i].id == op.id
    ensures HasRow(db.requests, op.id)
  {
    hide Json.Loads;
    hide LogEvent;
    hide Fold;
    if HasRow(db.requests, op.id) {
      var k := RowIndex(db.requests, op.id);
      var r := db.requests[k].(decision := Approved, reason := op.reason, txId := op.txId);
      assert ParamsParse(db.requests[k]);
      Limits.LogOnly(H, db.(requests := db.requests[k := r]), DECIDED,
                     DecidedFields(r.id, r.agent, r.action, r.amount, Json.Loads(r.params).value, r.decision, r.reason, r.txId), op.stamp);
      MirroredNumbered(db);
    }
  }

  lemma OncePaid(H: HashFn, s: State, id: nat, op: Op)
    requires Core(H, s) && Once(s) && id in s.flights && op.OpFinalize? && op.id == id && op.decision == Approved
    ensures Once(Push(H, s.(flights := s.flights - {id}), op))
  {
    hide Apply;
    hide Core;
    hide ReadChange;
    hide Mirrored;
    hide Numbered;
    hide Honest;
    hide ViewOf;
    hide ParamsParse;
    var s0 := s.(flights := s.flights - {id});
    var s' := Push(H, s0, op);
    CoreFacts(H, s);
    CoreParts(H, s);
    Limits.StepHonest(H, s.db, op);
    Limits.StepTable(H, s.db, op);
    CoreFewer(H, s, s0.flights, s.labels, s.seen);
    forall j: nat, v | ApprovedAt(s'.db.events, j, v)
      ensures Closed(s', v.id) && (if j < |s.db.events| then ApprovedAt(s.db.events, j, v) && v.id != id else v.id == id && j == |s.db.events|)
    {
      if j < |s.db.events| {
        assert s'.db.events[j] == s.db.events[j];
        assert ApprovedAt(s.db.events, j, v);
        assert Closed(s, v.id) && Closed(s0, v.id);
        ClosedStays(H, s0, op, v.id);
      } else {
        Writes(H, s.db, op, j);
        ViewId(s.db.requests[RowIndex(s.db.requests, id)]);
        PaidClosed(H, s0, op);
      }
    }
  }

  lemma PaidClosed(H: HashFn, s: State, op: Op)
    requires Core(H, s) && Legal(op) && op.OpFinalize? && op.decision == Approved && op.id !in s.flights && op.id <= s.db.lastId
    ensures Closed(Push(H, s, op), op.id)
  {
    hide Apply;
    hide Core;
    hide Mirrored;
    hide Numbered;
    hide Honest;
    CoreFacts(H, s);
    Limits.StepTable(H, s.db, op);
    var after := Push(H, s, op).db;
    forall i | 0 <= i < |after.requests| && after.requests[i].id == op.id ensures after.requests[i].decision == Approved {
      PaidRow(H, s.db, op, i);
    }
  }

  lemma ViewId(r: Request)
    requires ParamsParse(r)
    ensures ViewOf(r).id == r.id
  {
  }

  lemma OnceSpend(H: HashFn, s: State, a: Action)
    requires Core(H, s) && Once(s) && a.Spend? && WellTimed(a)
    ensures Once(Fire(H, s, a))
  {
    hide Apply;
    hide Core;
    hide Once;
    hide Test;
    hide Decide;
    hide CheckSignature;
    hide Reserved;
    hide ReservedRow;
    var op := SpendOp(s, a);
    var mid := Push(H, s, op);
    OnceQuiet(H, s, op);
    assert forall id :: id in Fire(H, s, a).flights && id !in s.flights ==> id == s.db.lastId + 1 && op.OpReserve?;
    if op.OpReserve? {
      CoreFacts(H, s);
      ReservedOpen(H, s, op);
    }
    OnceWith(mid, Fire(H, s, a));
  }

  lemma ReservedOpen(H: HashFn, s: State, op: Op)
    requires Core(H, s) && Legal(op) && op.OpReserve? && Test(s.db, op.ask, op.now).Admitted?
    ensures !Closed(Push(H, s, op), s.db.lastId + 1)
  {
    hide Apply;
    hide Core;
    hide Test;
    hide Mirrored;
    hide Numbered;
    hide Honest;
    hide ReservedAt;
    hide ViewOf;
    hide ParamsParse;
    hide Reserved;
    CoreFacts(H, s);
    AfterReserve(H, s.db, op.ask, op.now, op.stamp);
    ReservedView(s.db, op.ask, op.now);
    assert Push(H, s, op).db.requests[|s.db.requests|].id == s.db.lastId + 1;
  }

  lemma OnceRefusal(H: HashFn, s: State, id: nat, eventType: string, payload: Json.Value, why: string, stamp: Instant)
    requires Core(H, s) && Once(s) && Holdable(s, id) && Legal(OpEvent(eventType, payload, stamp))
    ensures Once(Refusal(H, s, id, eventType, payload, why, stamp))
  {
    hide LogEvent;
    hide Core;
    hide Once;
    hide ParamsParse;
    var op := OpEvent(eventType, payload, stamp);
    OnceQuiet(H, s, op);
    CorePush(H, s, op);
    Limits.LogOnly(H, s.db, eventType, payload, stamp);
    OnceQuiet(H, Push(H, s, op), OpFinalize(id, Denied, why, None, stamp));
  }

  lemma OnceApprove(H: HashFn, s: State, a: Action)
    requires Core(H, s) && Once(s) && a.Approve?
    ensures Once(Fire(H, s, a))
  {
    hide Core;
    hide Once;
    hide LogEvent;
    hide ViewOf;
    hide ParamsParse;
    hide Permits;
    hide Refusal;
    if Holdable(s, a.id) {
      var k := RowIndex(s.db.requests, a.id);
      var v := ViewOf(s.db.requests[k]);
      ViewId(s.db.requests[k]);
      if Permits(s.policy, v.agent, v.action) {
        var op := OpEvent(GRANTED, GrantPayload(v), a.stamp);
        OnceQuiet(H, s, op);
        Limits.LogOnly(H, s.db, GRANTED, GrantPayload(v), a.stamp);
        assert Push(H, s, op).db.requests[k].decision == AwaitingApproval;
        OnceWith(Push(H, s, op), Fire(H, s, a));
      } else {
        OnceRefusal(H, s, a.id, BLOCKED, BlockedPayload(a.id, a.why), a.why, a.stamp);
      }
    }
  }

  lemma OncePay(H: HashFn, s: State, a: Action)
    requires Core(H, s) && Once(s) && a.Pay?
    ensures Once(Fire(H, s, a))
  {
    hide Apply;
    hide Core;
    hide Once;
    hide ViewOf;
    hide ParamsParse;
    if a.id in s.flights {
      var (decision, why, tx) := Closing(a.outcome);
      var op := OpFinalize(a.id, decision, why, tx, a.stamp);
      if decision == Approved {
        OncePaid(H, s, a.id, op);
      } else {
        FlightRow(H, s, a.id);
        OnceQuiet(H, s, op);
        OnceWith(Push(H, s, op), Fire(H, s, a));
      }
    }
  }

  lemma OnceLabel(H: HashFn, s: State, a: Action)
    requires Core(H, s) && Once(s) && a.Label? && !Finds(s, a, Approved)
    ensures Once(Fire(H, s, a))
  {
    hide Apply;
    hide Core;
    hide Once;
    if a.id in s.labels {
      var op := OpFinalize(a.id, AwaitingApproval, a.why, None, a.stamp);
      OnceQuiet(H, s, op);
      OnceWith(Push(H, s, op), Fire(H, s, a));
    }
  }

  lemma OnceReject(H: HashFn, s: State, a: Action)
    requires Core(H, s) && Once(s) && a.Reject?
    ensures Once(Fire(H, s, a))
  {
    hide Core;
    hide Once;
    hide Refusal;
    hide ViewOf;
    hide ParamsParse;
    if Holdable(s, a.id) {
      OnceRefusal(H, s, a.id, REJECTED, RejectedPayload(ViewOf(s.db.requests[RowIndex(s.db.requests, a.id)])), a.why, a.stamp);
    }
  }

  lemma OnceRestart(H: HashFn, s: State, a: Action)
    requires Core(H, s) && Once(s) && a.Restart? && WellTimed(a)
    ensures Once(Fire(H, s, a))
  {
    hide Apply;
    hide Core;
    hide Once;
    var s0 := s.(flights := map[], labels := map[], seen := map[]);
    OnceWith(s, s0);
    CoreFewer(H, s, map[], map[], map[]);
    OnceQuiet(H, s0, OpReap(a.olderThan, a.now, a.stamp));
  }

  lemma OnceStep(H: HashFn, s: State, a: Action)
    requires Core(H, s) && Once(s) && WellTimed(a) && !Finds(s, a, Approved)
    ensures Once(Fire(H, s, a))
  {
    hide Apply;
    hide Core;
    hide Once;
    hide FireSpend;
    hide FireLabel;
    hide FirePay;
    hide FireApprove;
    hide FireReject;
    hide FireRestart;
    match a
    case SetPolicy(policy) => OnceWith(s, s.(policy := policy));
    case Spend(_, _, _, _, _) => OnceSpend(H, s, a);
    case Label(_, _, _) => OnceLabel(H, s, a);
    case Pay(_, _, _) => OncePay(H, s, a);
    case Approve(_, _, _) => OnceApprove(H, s, a);
    case Reject(_, _, _) => OnceReject(H, s, a);
    case Restart(_, _, _) => OnceRestart(H, s, a);
    case Wipe(stamp) => OnceQuiet(H, s, OpReset(|s.db.requests|, stamp));
    case Note(t, payload, stamp) => OnceQuiet(H, s, OpEvent(t, payload, stamp));
  }

  // Where no label finds its hold approved, a request is approved at most
  // once in the ledger, and once it is, no payment of it is under way and its
  // row, if still there, says so.
  lemma {:induction false} ApprovedOnce(H: HashFn, actions: seq<Action>)
    requires AllTimed(actions) && Never(H, actions, Approved)
    ensures Once(RunAll(H, actions))
  {
    hide Core;
    hide Trace;
    hide Once;
    hide Fire;
    hide Finds;
    if actions == [] {
      OnceStart();
    } else {
      var front := actions[..|actions| - 1];
      ApprovedOnce(H, front);
      AlwaysKept(H, front);
      OnceStep(H, RunAll(H, front), actions[|actions| - 1]);
    }
  }

  lemma OnceStart()
    ensures Once(START)
  {
  }
}
