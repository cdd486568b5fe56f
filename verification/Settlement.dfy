/** What each decision leaves behind: requests, payments, refusals and labels
    each move the agent's total of the day by a known amount, whatever else
    goes on in between. */
module Settlement {
  import opened Text
  import opened Clock
  import opened Ledger
  import opened Anchor
  import opened Store
  import opened View
  import opened Engine
  import opened Provenance
  import Json
  import Limits

  // ---- totals ----

  // The row's own agent and day, the only total a finalize can move.
  function DayOf(r: Request): string {
    if |r.timestamp| >= 10 then r.timestamp[..10] else ""
  }

  predicate Dated(rows: seq<Request>) {
    forall i :: 0 <= i < |rows| ==> |rows[i].timestamp| >= 10
  }

  lemma {:induction false} AlwaysDated(H: HashFn, ops: seq<Op>)
    requires AllLegal(ops)
    ensures Dated(Exec(H, ops).requests)
  {
    hide Apply;
    hide Iso;
    hide Test;
    if ops != [] {
      var front, op := ops[..|ops| - 1], ops[|ops| - 1];
      AlwaysDated(H, front);
      assert Legal(op);
      Limits.StepTable(H, Exec(H, front), op);
      if op.OpReserve? { TestedRow(Exec(H, front), op.ask, op.now); }
      DatedStep(Exec(H, front), op, Exec(H, ops));
    }
  }

  lemma DatedStep(before: Db, op: Op, after: Db)
    requires Legal(op) && Dated(before.requests) && Limits.TableStep(before, op, after)
    requires op.OpReserve? && Test(before, op.ask, op.now).Admitted? ==> Test(before, op.ask, op.now).row == ReservedRow(before, op.ask, op.now)
    ensures Dated(after.requests)
  {
    hide Iso;
    hide Test;
    forall i | 0 <= i < |after.requests| ensures |after.requests[i].timestamp| >= 10 {
      match op
      case OpDeny(_, _, _, _, _, _, _) =>
        if i < |before.requests| { assert after.requests[..|before.requests|][i] == before.requests[i]; }
      case OpReap(_, _, _) => assert Limits.SameRequest(before.requests[i], after.requests[i]);
      case _ =>
    }
  }

  // An unresolved row finalized to approved or denied: it is resolved, every
  // other row is as before, and its agent's total of its day falls by the
  // amount when denied and stays put when approved.
  lemma ResolvingMoves(H: HashFn, s: State, id: nat, decision: Decision, why: string, tx: Option<string>, stamp: Instant)
    requires Core(H, s) && HasRow(s.db.requests, id) && Unresolved(s.db.requests[RowIndex(s.db.requests, id)])
    requires decision == Approved || decision == Denied
    ensures var k := RowIndex(s.db.requests, id);
            var r, after := s.db.requests[k], Push(H, s, OpFinalize(id, decision, why, tx, stamp)).db;
            && after.requests == s.db.requests[k := r.(decision := decision, reason := why, txId := tx)]
            && SpentOn(after.requests, r.agent, DayOf(r))
                 == SpentOn(s.db.requests, r.agent, DayOf(r)) - (if decision == Denied then r.amount else 0)
  {
    hide LogEvent;
    hide Json.Loads;
    hide Exec;
    hide Core;
    hide SpentOn;
    hide Fold;
    hide Honest;
    CoreParts(H, s);
    AlwaysDated(H, s.history);
    CoreFacts(H, s);
    var k := RowIndex(s.db.requests, id);
    var r := s.db.requests[k];
    assert ParamsParse(r);
    var r' := r.(decision := decision, reason := why, txId := tx);
    Limits.LogOnly(H, s.db.(requests := s.db.requests[k := r']), DECIDED,
                   DecidedFields(id, r.agent, r.action, r.amount, Json.Loads(r.params).value, decision, why, tx), stamp);
    Limits.SpentUpdate(s.db.requests, k, r', r.agent, DayOf(r));
  }

  // Whatever becomes of a payment under way, its reservation ends resolved:
  // approved exactly when the response was ok, with or without settlement
  // details, and denied otherwise, giving its budget back.
  lemma {:induction false} PaymentResolves(H: HashFn, actions: seq<Action>, id: nat, outcome: Outcome, stamp: Instant)
    requires AllTimed(actions) && id in RunAll(H, actions).flights && HasRow(RunAll(H, actions).db.requests, id)
    ensures var s := RunAll(H, actions);
            var s', k := Fire(H, s, Pay(id, outcome, stamp)), RowIndex(s.db.requests, id);
            var r := s.db.requests[k];
            && id !in s'.flights
            && |s'.db.requests| == |s.db.requests|
            && s'.db.requests[k].decision == (if outcome.Paid? then Approved else Denied)
            && s'.db.requests[k].txId == (if outcome.Paid? then outcome.settlement else None)
            && SpentOn(s'.db.requests, r.agent, DayOf(r))
                 == SpentOn(s.db.requests, r.agent, DayOf(r)) - (if outcome.Paid? then 0 else r.amount)
  {
    hide RunAll;
    hide Core;
    hide SpentOn;
    hide Apply;
    hide ViewOf;
    hide Trace;
    AlwaysKept(H, actions);
    var s := RunAll(H, actions);
    FlightRow(H, s, id);
    var (decision, why, tx) := Closing(outcome);
    ResolvingMoves(H, s, id, decision, why, tx, stamp);
  }

  // ---- a request and its payment, whatever happens in between ----

  // The total of the agent's day goes up by the amount when the request is
  // admitted, and its row is the one the payment is for.
  ghost predicate TookOff(s: State, s1: State, ask: Ask, day: string) {
    var id := s.db.lastId + 1;
    && id in s1.flights && HasRow(s1.db.requests, id)
    && SpentOn(s1.db.requests, ask.agent, day) == SpentOn(s.db.requests, ask.agent, day) + ask.amount
    && var r := s1.db.requests[RowIndex(s1.db.requests, id)];
       r.agent == ask.agent && DayOf(r) == day && r.decision == Pending && r.amount == ask.amount
  }

  // When the payment ends, its row -- unless wiped -- is resolved, and the
  // total stays if the response was ok and falls by the amount if not.
  ghost predicate Landed(s2: State, s3: State, id: nat, agent: string, amount: Money, day: string, paid: bool) {
    && id in s2.flights && id !in s3.flights
    && (HasRow(s2.db.requests, id) ==>
          && HasRow(s3.db.requests, id)
          && s3.db.requests[RowIndex(s3.db.requests, id)].decision == (if paid then Approved else Denied)
          && SpentOn(s3.db.requests, agent, day) == SpentOn(s2.db.requests, agent, day) - (if paid then 0 else amount))
  }

  // The engine's other business: anything but a restart, or the end of this
  // very payment.
  predicate Elsewhere(a: Action, id: nat) {
    !a.Restart? && !(a.Pay? && a.id == id)
  }

  lemma FlightStays(H: HashFn, s: State, a: Action, id: nat)
    requires WellTimed(a) && id in s.flights && Elsewhere(a, id)
    ensures id in Fire(H, s, a).flights
  {
    hide Apply;
    hide Test;
    hide Decide;
    hide CheckSignature;
    hide ViewOf;
    hide ParamsParse;
    hide Permits;
    hide ReservedRow;
    hide Reserved;
  }

  // A row whose payment is under way keeps its agent, amount and day, and
  // only a wipe removes it.
  ghost predicate Carried(s: State, id: nat, agent: string, amount: Money, day: string) {
    id in s.flights &&
    forall i :: 0 <= i < |s.db.requests| && s.db.requests[i].id == id ==>
      s.db.requests[i].agent == agent && s.db.requests[i].amount == amount && DayOf(s.db.requests[i]) == day
  }

  lemma CarriedPush(H: HashFn, s: State, op: Op, id: nat, agent: string, amount: Money, day: string)
    requires Core(H, s) && Legal(op) && !op.OpReap? && Carried(s, id, agent, amount, day)
    ensures Carried(Push(H, s, op), id, agent, amount, day)
    ensures !op.OpReset? && HasRow(s.db.requests, id) ==> HasRow(Push(H, s, op).db.requests, id)
  {
    hide Apply;
    hide Core;
    hide Mirrored;
    hide Honest;
    hide Test;
    CoreFacts(H, s);
    CoreParts(H, s);
    var after := Push(H, s, op).db;
    forall i | 0 <= i < |after.requests| && after.requests[i].id == id
      ensures after.requests[i].agent == agent && after.requests[i].amount == amount && DayOf(after.requests[i]) == day
    {
      OldRow(H, s.db, op, i);
    }
    if !op.OpReset? && HasRow(s.db.requests, id) {
      var k := RowIndex(s.db.requests, id);
      RowStays(H, s.db, op, k);
      assert after.requests[k].id == id;
    }
  }

  lemma RowStays(H: HashFn, db: Db, op: Op, k: nat)
    requires Legal(op) && !op.OpReap? && !op.OpReset? && k < |db.requests|
    ensures k < |Apply(H, db, op).requests| && Apply(H, db, op).requests[k].id == db.requests[k].id
  {
    hide Apply;
    hide Iso;
    hide CountSince;
    hide SpentOn;
    hide Pow2;
    Limits.StepTable(H, db, op);
    if op.OpDeny? { assert Apply(H, db, op).requests[..|db.requests|][k] == db.requests[k]; }
  }

  lemma CarriedStep(H: HashFn, actions: seq<Action>, a: Action, id: nat, agent: string, amount: Money, day: string)
    requires AllTimed(actions) && WellTimed(a) && Elsewhere(a, id) && Carried(RunAll(H, actions), id, agent, amount, day)
    ensures var s, s' := RunAll(H, actions), Fire(H, RunAll(H, actions), a);
            && Carried(s', id, agent, amount, day)
            && (!a.Wipe? && HasRow(s.db.requests, id) ==> HasRow(s'.db.requests, id))
  {
    hide RunAll;
    hide Apply;
    hide Core;
    hide Trace;
    hide Test;
    hide Decide;
    hide CheckSignature;
    hide ViewOf;
    hide ParamsParse;
    hide Permits;
    hide ReservedRow;
    hide Reserved;
    hide Carried;
    hide FireSpend;
    hide FireApprove;
    hide Refusal;
    var s := RunAll(H, actions);
    AlwaysKept(H, actions);
    CarriedAs(s, s, id, agent, amount, day);
    FlightStays(H, s, a, id);
    var s' := Fire(H, s, a);
    match a
    case SetPolicy(_) => CarriedAs(s, s', id, agent, amount, day);
    case Spend(_, _, _, _, _) => CarriedSpend(H, s, a, id, agent, amount, day);
    case Label(id', why, stamp) =>
      CarriedPush(H, s, OpFinalize(id', AwaitingApproval, why, None, stamp), id, agent, amount, day);
      if id' in s.labels { CarriedAs(Push(H, s, OpFinalize(id', AwaitingApproval, why, None, stamp)), s', id, agent, amount, day); }
    case Pay(id', outcome, stamp) =>
      var (decision, why, tx) := Closing(outcome);
      CarriedPush(H, s, OpFinalize(id', decision, why, tx, stamp), id, agent, amount, day);
      if id' in s.flights { CarriedAs(Push(H, s, OpFinalize(id', decision, why, tx, stamp)), s', id, agent, amount, day); }
    case Approve(_, _, _) => CarriedApprove(H, s, a, id, agent, amount, day);
    case Reject(id', stamp, why) =>
      if Holdable(s, id') {
        CarriedRefusal(H, s, id', REJECTED, RejectedPayload(ViewOf(s.db.requests[RowIndex(s.db.requests, id')])), why, stamp,
                       id, agent, amount, day);
      }
    case Wipe(stamp) => CarriedPush(H, s, OpReset(|s.db.requests|, stamp), id, agent, amount, day);
    case Note(t, payload, stamp) => CarriedPush(H, s, OpEvent(t, payload, stamp), id, agent, amount, day);
  }

  lemma CarriedSpend(H: HashFn, s: State, a: Action, id: nat, agent: string, amount: Money, day: string)
    requires Core(H, s) && WellTimed(a) && a.Spend? && Carried(s, id, agent, amount, day) && id in Fire(H, s, a).flights
    ensures Carried(Fire(H, s, a), id, agent, amount, day)
    ensures HasRow(s.db.requests, id) ==> HasRow(Fire(H, s, a).db.requests, id)
  {
    hide Apply;
    hide Core;
    hide Test;
    hide Decide;
    hide CheckSignature;
    hide ReservedRow;
    hide Reserved;
    hide Carried;
    var op := SpendOp(s, a);
    CarriedPush(H, s, op, id, agent, amount, day);
    CarriedAs(Push(H, s, op), Fire(H, s, a), id, agent, amount, day);
  }

  lemma CarriedApprove(H: HashFn, s: State, a: Action, id: nat, agent: string, amount: Money, day: string)
    requires Core(H, s) && a.Approve? && Carried(s, id, agent, amount, day) && id in Fire(H, s, a).flights
    ensures Carried(Fire(H, s, a), id, agent, amount, day)
    ensures HasRow(s.db.requests, id) ==> HasRow(Fire(H, s, a).db.requests, id)
  {
    hide Apply;
    hide Core;
    hide ViewOf;
    hide ParamsParse;
    hide Permits;
    hide Carried;
    if Holdable(s, a.id) {
      var v := ViewOf(s.db.requests[RowIndex(s.db.requests, a.id)]);
      if Permits(s.policy, v.agent, v.action) {
        CarriedPush(H, s, OpEvent(GRANTED, GrantPayload(v), a.stamp), id, agent, amount, day);
        CarriedAs(Push(H, s, OpEvent(GRANTED, GrantPayload(v), a.stamp)), Fire(H, s, a), id, agent, amount, day);
      } else {
        CarriedRefusal(H, s, a.id, BLOCKED, BlockedPayload(a.id, a.why), a.why, a.stamp, id, agent, amount, day);
      }
    }
  }

  // The storage operation of a request.
  function SpendOp(s: State, a: Action): (op: Op)
    requires a.Spend? && WellTimed(a)
    ensures Legal(op) && !op.OpReap? && !op.OpReset? && !op.OpFinalize?
  {
    var (signed, _) := CheckSignature(s.policy, s.seen, a.req, a.clock);
    match Decide(s.policy, a.req, signed)
    case Refuse(amount, params, _) => OpDeny(a.req.agent, a.req.action, amount, a.why, params, a.now, a.stamp)
    case Proceed(ask) =>
      GateFacts(s.policy, a.req, signed);
      if Test(s.db, ask, a.now).Admitted? then OpReserve(ask, a.now, a.stamp)
      else OpDeny(ask.agent, ask.action, ask.amount, a.why, ask.params, a.now, a.stamp)
  }

  lemma CarriedAs(s: State, s': State, id: nat, agent: string, amount: Money, day: string)
    requires Carried(s, id, agent, amount, day) && s'.db == s.db
    ensures id in s.flights && (id in s'.flights ==> Carried(s', id, agent, amount, day))
  {
  }

  lemma CarriedRefusal(H: HashFn, s: State, hold: nat, eventType: string, payload: Json.Value, why: string, stamp: Instant,
                       id: nat, agent: string, amount: Money, day: string)
    requires Core(H, s) && Legal(OpEvent(eventType, payload, stamp)) && Carried(s, id, agent, amount, day)
    ensures var s' := Refusal(H, s, hold, eventType, payload, why, stamp);
            Carried(s', id, agent, amount, day) && (HasRow(s.db.requests, id) ==> HasRow(s'.db.requests, id))
  {
    hide Apply;
    hide Core;
    hide Carried;
    var op := OpEvent(eventType, payload, stamp);
    CarriedPush(H, s, op, id, agent, amount, day);
    CorePush(H, s, op);
    CarriedPush(H, Push(H, s, op), OpFinalize(hold, Denied, why, None, stamp), id, agent, amount, day);
  }

  lemma {:induction false} CarriedOn(H: HashFn, actions: seq<Action>, between: seq<Action>, id: nat, agent: string, amount: Money, day: string)
    requires AllTimed(actions) && AllTimed(between) && Carried(RunAll(H, actions), id, agent, amount, day)
    requires forall a :: a in between ==> Elsewhere(a, id)
    ensures AllTimed(actions + between) && Carried(RunAll(H, actions + between), id, agent, amount, day)
    ensures HasRow(RunAll(H, actions).db.requests, id) && (forall a :: a in between ==> !a.Wipe?) ==>
              HasRow(RunAll(H, actions + between).db.requests, id)
  {
    hide RunAll;
    hide Fire;
    hide Carried;
    if between == [] {
      assert actions + between == actions;
    } else {
      var front, a := between[..|between| - 1], between[|between| - 1];
      assert actions + between == actions + front + [a];
      CarriedOn(H, actions, front, id, agent, amount, day);
      CarriedStep(H, actions + front, a, id, agent, amount, day);
      RunMore(H, actions + front, a);
    }
  }

  // A request that goes straight through, with anything else but a restart
  // between it and the end of its payment: at the request its agent's total
  // of the day rises by the amount; at the end of the payment it stays when
  // the response was ok and falls by the amount when not, and the row is
  // resolved accordingly -- unless the table was wiped in between, and only then.
  lemma {:induction false} StraightThrough(
      H: HashFn, actions: seq<Action>, a: Action, ask: Ask, between: seq<Action>, outcome: Outcome, later: Instant)
    requires AllTimed(actions) && a.Spend? && WellTimed(a) && AllTimed(between)
    requires var s := RunAll(H, actions);
             && Decide(s.policy, a.req, CheckSignature(s.policy, s.seen, a.req, a.clock).0) == Proceed(ask) && ask.state == Pending
             && Legal(OpReserve(ask, a.now, a.stamp)) && Test(s.db, ask, a.now).Admitted?
    requires forall b :: b in between ==> Elsewhere(b, RunAll(H, actions).db.lastId + 1)
    ensures AllTimed(actions + [a]) && AllTimed(actions + [a] + between)
    ensures var s, id, day := RunAll(H, actions), RunAll(H, actions).db.lastId + 1, Iso(a.now)[..10];
            var s1, s2 := RunAll(H, actions + [a]), RunAll(H, actions + [a] + between);
            && TookOff(s, s1, ask, day)
            && ((forall b :: b in between ==> !b.Wipe?) ==> HasRow(s2.db.requests, id))
            && Landed(s2, FirePay(H, s2, id, outcome, later), id, ask.agent, ask.amount, day, outcome.Paid?)
  {
    hide RunAll;
    hide Core;
    hide Trace;
    hide FirePay;
    hide FireSpend;
    hide Test;
    hide Decide;
    hide CheckSignature;
    hide TookOff;
    hide Carried;
    hide Landed;
    hide Iso;
    var s, id, day := RunAll(H, actions), RunAll(H, actions).db.lastId + 1, Iso(a.now)[..10];
    RunMore(H, actions, a);
    TakesOff(H, actions, a, ask);
    TookOffCarried(H, actions + [a], s, RunAll(H, actions + [a]), ask, day);
    CarriedOn(H, actions + [a], between, id, ask.agent, ask.amount, day);
    Lands(H, actions + [a] + between, id, ask.agent, ask.amount, day, outcome, later);
  }

  lemma TakesOff(H: HashFn, actions: seq<Action>, a: Action, ask: Ask)
    requires AllTimed(actions) && a.Spend? && WellTimed(a)
    requires var s := RunAll(H, actions);
             && Decide(s.policy, a.req, CheckSignature(s.policy, s.seen, a.req, a.clock).0) == Proceed(ask) && ask.state == Pending
             && Legal(OpReserve(ask, a.now, a.stamp)) && Test(s.db, ask, a.now).Admitted?
    ensures TookOff(RunAll(H, actions), Fire(H, RunAll(H, actions), a), ask, Iso(a.now)[..10])
  {
    hide RunAll;
    hide Core;
    hide Trace;
    hide Test;
    hide Decide;
    hide CheckSignature;
    hide TookOff;
    hide Departed;
    hide Iso;
    AlwaysKept(H, actions);
    var s := RunAll(H, actions);
    var (signed, seen) := CheckSignature(s.policy, s.seen, a.req, a.clock);
    var s0 := s.(seen := seen);
    assert Fire(H, s, a) == Departed(H, s0, ask, a.now, a.stamp);
    CoreFacts(H, s);
    ReservedSpent(H, s.db, ask, a.now, a.stamp);
    DepartedTookOff(H, s, s0, ask, a.now, a.stamp);
  }

  // An admitted reservation raises its agent's total of the day by its amount.
  lemma ReservedSpent(H: HashFn, db: Db, ask: Ask, now: Instant, stamp: Instant)
    requires Legal(OpReserve(ask, now, stamp)) && Mirrored(db) && Test(db, ask, now).Admitted?
    ensures var after, day := Apply(H, db, OpReserve(ask, now, stamp)), Iso(now)[..10];
            SpentOn(after.requests, ask.agent, day) == SpentOn(db.requests, ask.agent, day) + ask.amount
  {
    hide Apply;
    hide Iso;
    hide SpentOn;
    hide Test;
    hide Mirrored;
    hide ViewOf;
    hide ParamsParse;
    hide ReservedAt;
    AfterReserve(H, db, ask, now, stamp);
    Limits.SpentAppend(db.requests, ReservedRow(db, ask, now), ask.agent, Iso(now)[..10]);
  }

  lemma DepartedTookOff(H: HashFn, s: State, s0: State, ask: Ask, now: Instant, stamp: Instant)
    requires Legal(OpReserve(ask, now, stamp)) && Mirrored(s.db) && Test(s.db, ask, now).Admitted? && ask.state == Pending
    requires s0.db == s.db
    requires SpentOn(Apply(H, s.db, OpReserve(ask, now, stamp)).requests, ask.agent, Iso(now)[..10])
          == SpentOn(s.db.requests, ask.agent, Iso(now)[..10]) + ask.amount
    ensures TookOff(s, Departed(H, s0, ask, now, stamp), ask, Iso(now)[..10])
  {
    hide Apply;
    hide Iso;
    hide SpentOn;
    hide Test;
    hide Mirrored;
    hide ViewOf;
    hide ParamsParse;
    hide ReservedAt;
    AfterReserve(H, s.db, ask, now, stamp);
  }

  lemma TookOffCarried(H: HashFn, actions: seq<Action>, s: State, s1: State, ask: Ask, day: string)
    requires AllTimed(actions) && s1 == RunAll(H, actions) && TookOff(s, s1, ask, day)
    ensures Carried(s1, s.db.lastId + 1, ask.agent, ask.amount, day) && HasRow(s1.db.requests, s.db.lastId + 1)
  {
    hide RunAll;
    hide Core;
    hide Trace;
    hide SpentOn;
    hide DayOf;
    AlwaysKept(H, actions);
    CoreNumbered(H, s1);
  }

  lemma Lands(H: HashFn, actions: seq<Action>, id: nat, agent: string, amount: Money, day: string, outcome: Outcome, later: Instant)
    requires AllTimed(actions) && Carried(RunAll(H, actions), id, agent, amount, day)
    ensures var s2 := RunAll(H, actions); Landed(s2, FirePay(H, s2, id, outcome, later), id, agent, amount, day, outcome.Paid?)
  {
    hide RunAll;
    hide Apply;
    hide SpentOn;
    hide DayOf;
    var s2 := RunAll(H, actions);
    if HasRow(s2.db.requests, id) {
      PaymentResolves(H, actions, id, outcome, later);
      var s3, k := FirePay(H, s2, id, outcome, later), RowIndex(s2.db.requests, id);
      PaidIds(H, actions, id, outcome, later);
      assert s3.db.requests[k].id == id;
    }
  }

  // A payment's end leaves every id where it was.
  lemma PaidIds(H: HashFn, actions: seq<Action>, id: nat, outcome: Outcome, later: Instant)
    requires AllTimed(actions) && id in RunAll(H, actions).flights && HasRow(RunAll(H, actions).db.requests, id)
    ensures var s2 := RunAll(H, actions);
            var s3 := FirePay(H, s2, id, outcome, later);
            && HasRow(s3.db.requests, id) && RowIndex(s3.db.requests, id) == RowIndex(s2.db.requests, id)
  {
    hide RunAll;
    hide Core;
    hide Trace;
    hide Apply;
    hide SpentOn;
    hide ViewOf;
    hide DayOf;
    AlwaysKept(H, actions);
    var s2 := RunAll(H, actions);
    FlightRow(H, s2, id);
    var (decision, why, tx) := Closing(outcome);
    ResolvingMoves(H, s2, id, decision, why, tx, later);
    var k, s3 := RowIndex(s2.db.requests, id), FirePay(H, s2, id, outcome, later);
    assert s3.db.requests[k].id == id;
    CoreNumbered(H, s2);
    assert forall i :: 0 <= i < |s3.db.requests| && s3.db.requests[i].id == id ==> i == k;
  }

  lemma CoreNumbered(H: HashFn, s: State)
    requires Core(H, s)
    ensures forall i, j :: 0 <= i < |s.db.requests| && 0 <= j < |s.db.requests| && s.db.requests[i].id == s.db.requests[j].id ==> i == j
  {
    hide Core;
    hide Honest;
    hide Mirrored;
    CoreFacts(H, s);
  }

  // ---- a label ----

  // A label moves the total of the hold's day only when the hold was denied
  // before it was labelled: then by the whole amount, upwards.
  lemma {:induction false} LabelMoves(H: HashFn, actions: seq<Action>, id: nat, why: string, stamp: Instant)
    requires AllTimed(actions) && id in RunAll(H, actions).labels && HasRow(RunAll(H, actions).db.requests, id)
    ensures var s := RunAll(H, actions);
            var s', k := FireLabel(H, s, id, why, stamp), RowIndex(s.db.requests, id);
            var r := s.db.requests[k];
            && s'.db.requests == s.db.requests[k := r.(decision := AwaitingApproval, reason := why, txId := None)]
            && SpentOn(s'.db.requests, r.agent, DayOf(r))
                 == SpentOn(s.db.requests, r.agent, DayOf(r)) + (if r.decision == Denied then r.amount else 0)
  {
    hide RunAll;
    hide Core;
    hide Trace;
    hide SpentOn;
    hide LogEvent;
    hide Json.Loads;
    hide Fold;
    hide Exec;
    hide Honest;
    AlwaysKept(H, actions);
    var s := RunAll(H, actions);
    CoreParts(H, s);
    CoreFacts(H, s);
    AlwaysDated(H, s.history);
    var k := RowIndex(s.db.requests, id);
    var r := s.db.requests[k];
    var r' := r.(decision := AwaitingApproval, reason := why, txId := None);
    assert ParamsParse(r);
    Limits.LogOnly(H, s.db.(requests := s.db.requests[k := r']), DECIDED,
                   DecidedFields(id, r.agent, r.action, r.amount, Json.Loads(r.params).value, AwaitingApproval, why, None), stamp);
    Limits.SpentUpdate(s.db.requests, k, r', r.agent, DayOf(r));
  }

  // An operator's rejection, and a release that the policy of the moment
  // blocks, each deny the hold and give its whole amount back.
  lemma {:induction false} RefusalReturnsBudget(H: HashFn, actions: seq<Action>, a: Action)
    requires AllTimed(actions) && WellTimed(a) && (a.Reject? || a.Approve?) && Holdable(RunAll(H, actions), a.id)
    requires var s := RunAll(H, actions);
             var v := ViewOf(s.db.requests[RowIndex(s.db.requests, a.id)]);
             a.Approve? ==> !Permits(s.policy, v.agent, v.action)
    ensures var s := RunAll(H, actions);
            var s', k := Fire(H, s, a), RowIndex(s.db.requests, a.id);
            var r := s.db.requests[k];
            && |s'.db.requests| == |s.db.requests| && s'.db.requests[k].decision == Denied && a.id !in s'.flights
            && SpentOn(s'.db.requests, r.agent, DayOf(r)) == SpentOn(s.db.requests, r.agent, DayOf(r)) - r.amount
  {
    hide RunAll;
    hide Core;
    hide SpentOn;
    hide LogEvent;
    hide Permits;
    hide ViewOf;
    hide ParamsParse;
    hide Trace;
    AlwaysKept(H, actions);
    var s := RunAll(H, actions);
    var v := ViewOf(s.db.requests[RowIndex(s.db.requests, a.id)]);
    if a.Approve? {
      RefusalMoves(H, s, a.id, BLOCKED, BlockedPayload(a.id, a.why), a.why, a.stamp);
    } else {
      RefusalMoves(H, s, a.id, REJECTED, RejectedPayload(v), a.why, a.stamp);
    }
  }

  lemma RefusalMoves(H: HashFn, s: State, id: nat, eventType: string, payload: Json.Value, why: string, stamp: Instant)
    requires Core(H, s) && Holdable(s, id) && Legal(OpEvent(eventType, payload, stamp))
    ensures var s', k := Refusal(H, s, id, eventType, payload, why, stamp), RowIndex(s.db.requests, id);
            var r := s.db.requests[k];
            && |s'.db.requests| == |s.db.requests| && s'.db.requests[k].decision == Denied && s'.flights == s.flights
            && SpentOn(s'.db.requests, r.agent, DayOf(r)) == SpentOn(s.db.requests, r.agent, DayOf(r)) - r.amount
  {
    hide Core;
    hide SpentOn;
    hide LogEvent;
    hide ViewOf;
    hide ParamsParse;
    var mid := Push(H, s, OpEvent(eventType, payload, stamp));
    CorePush(H, s, OpEvent(eventType, payload, stamp));
    Limits.LogOnly(H, s.db, eventType, payload, stamp);
    ResolvingMoves(H, mid, id, Denied, why, None, stamp);
  }
}
