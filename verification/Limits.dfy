/** What every run of storage operations keeps: an append-only valid chain,
    ids that are never handed out twice, the daily cap, and the rate limit. */
module Limits {
  import opened Text
  import opened Clock
  import opened Ledger
  import opened Anchor
  import opened Store
  import opened Tolerance
  import Json

  // ---- the chain ----

  lemma LogHonest(H: HashFn, db: Db, eventType: string, payload: Json.Value, stamp: Instant)
    requires Honest(H, db.events) && NoBar(eventType)
    ensures var after := LogEvent(H, db, eventType, payload, stamp).events;
            Honest(H, after) && db.events <= after && |after| == |db.events| + 1
  {
    hide Iso;
    hide Json.Dumps;
    hide Link;
    IsoNoBar(stamp);
    AppendValid(H, db.events, Iso(stamp), eventType, Json.Dumps(payload));
  }

  lemma OwnTypesUnbarred()
    ensures NoBar(RESERVED) && NoBar(DECIDED) && NoBar(RESET) && NoBar(ANCHORED)
  {
  }

  lemma DecisionHonest(H: HashFn, db: Db, r: Request, params: Json.Value, stamp: Instant)
    requires Honest(H, db.events)
    ensures var after := LogDecision(H, db, r, params, stamp);
            && Honest(H, after.events) && db.events < after.events
            && after == db.(events := after.events)
  {
    hide LogEvent;
    hide DecidedFields;
    OwnTypesUnbarred();
    LogHonest(H, db, DECIDED, DecidedFields(r.id, r.agent, r.action, r.amount, params, r.decision, r.reason, r.txId), stamp);
    LogOnly(H, db, DECIDED, DecidedFields(r.id, r.agent, r.action, r.amount, params, r.decision, r.reason, r.txId), stamp);
  }

  lemma LogOnly(H: HashFn, db: Db, eventType: string, payload: Json.Value, stamp: Instant)
    ensures var after := LogEvent(H, db, eventType, payload, stamp); after == db.(events := after.events)
  {
  }

  lemma {:induction false} ReapHonest(H: HashFn, db: Db, i: nat, cutoff: string, stamp: Instant)
    requires Honest(H, db.events)
    ensures match ReapFrom(H, db, i, cutoff, stamp)
            case None => true
            case Some(after) => Honest(H, after.events) && db.events <= after.events
    decreases |db.requests| - i
  {
    hide Json.Loads;
    hide LogDecision;
    hide Less;
    if i < |db.requests| {
      if !Stale(db.requests[i], cutoff) {
        ReapHonest(H, db, i + 1, cutoff, stamp);
      } else {
        var r := db.requests[i].(decision := Denied, reason := ABANDONED);
        if Json.Loads(r.params).Some? {
          var p := Json.Loads(r.params).value;
          var mid := db.(requests := db.requests[i := r]);
          DecisionHonest(H, mid, r.(txId := None), p, stamp);
          ReapHonest(H, LogDecision(H, mid, r.(txId := None), p, stamp), i + 1, cutoff, stamp);
        }
      }
    }
  }

  lemma StepHonest(H: HashFn, db: Db, op: Op)
    requires Honest(H, db.events) && Legal(op)
    ensures Honest(H, Apply(H, db, op).events) && db.events <= Apply(H, db, op).events
  {
    hide LogEvent;
    hide LogDecision;
    hide Json.Loads;
    hide Json.Dumps;
    hide ReapFrom;
    hide Less;
    hide Iso;
    OwnTypesUnbarred();
    match op
    case OpDeny(agent, action, amount, reason, params, now, stamp) =>
      var r := Request(db.lastId + 1, Iso(now), agent, action, amount, Denied, reason, None, CanonicalParams(params));
      DecisionHonest(H, db.(requests := db.requests + [r], lastId := r.id), r, ParamsValue(params), stamp);
    case OpReserve(ask, now, stamp) =>
      if Test(db, ask, now).Admitted? {
        var r := ReservedRow(db, ask, now);
        LogHonest(H, db.(requests := db.requests + [r], lastId := r.id), RESERVED,
                  ReservedFields(r.id, r.agent, r.action, r.amount, ParamsValue(ask.params), r.decision), stamp);
      }
    case OpFinalize(id, decision, reason, txId, stamp) =>
      if HasRow(db.requests, id) {
        var k := RowIndex(db.requests, id);
        var r := db.requests[k].(decision := decision, reason := reason, txId := txId);
        if Json.Loads(r.params).Some? {
          DecisionHonest(H, db.(requests := db.requests[k := r]), r, Json.Loads(r.params).value, stamp);
        }
      }
    case OpReap(olderThan, now, stamp) => ReapHonest(H, db, 0, WindowCutoff(now, olderThan), stamp);
    case OpReset(cleared, stamp) =>
      LogHonest(H, db.(requests := []), RESET, ClearedFields(cleared), stamp);
    case OpAnchor(s, headHash, txId, note, stamp) =>
      var a := AnchorRow(db.lastAnchorId + 1, s, headHash, txId, note);
      LogHonest(H, db.(anchors := db.anchors + [a], lastAnchorId := a.id), ANCHORED,
                AnchorFields(s, headHash, txId), stamp);
    case OpEvent(t, payload, stamp) => LogHonest(H, db, t, payload, stamp);
  }

  // In every state of every run the ledger verifies, every timestamp and
  // type is free of bars, and no earlier event has changed.
  lemma {:induction false} LedgerGrows(H: HashFn, ops: seq<Op>, n: nat)
    requires AllLegal(ops) && n <= |ops|
    ensures Honest(H, Exec(H, ops).events)
    ensures Exec(H, ops[..n]).events <= Exec(H, ops).events
  {
    hide Apply;
    hide Honest;
    if ops == [] {
      EmptyHonest(H);
    } else {
      var front := ops[..|ops| - 1];
      if n < |ops| {
        LedgerGrows(H, front, n);
        assert front[..n] == ops[..n];
      } else {
        LedgerGrows(H, front, n - 1);
        assert ops[..n] == ops;
      }
      StepHonest(H, Exec(H, front), ops[|ops| - 1]);
    }
  }

  lemma EmptyHonest(H: HashFn)
    ensures Honest(H, EMPTY.events)
  {
  }

  // ---- the requests table under each operation ----

  // The same call: nothing after the insert changes any of these columns.
  predicate SameRequest(r: Request, s: Request) {
    && r.id == s.id && r.timestamp == s.timestamp && r.agent == s.agent && r.action == s.action
    && r.amount == s.amount && r.params == s.params
  }

  lemma {:induction false} SpentUpdate(rows: seq<Request>, k: nat, r: Request, agent: string, day: string)
    requires k < |rows|
    ensures SpentOn(rows[k := r], agent, day)
         == SpentOn(rows, agent, day) - Weight(rows[k], agent, day) + Weight(r, agent, day)
  {
    hide Weight;
    var n := |rows| - 1;
    if k < n {
      SpentUpdate(rows[..n], k, r, agent, day);
      assert rows[k := r][..n] == rows[..n][k := r];
    } else {
      assert rows[k := r][..n] == rows[..n];
    }
  }

  lemma SpentAppend(rows: seq<Request>, r: Request, agent: string, day: string)
    ensures SpentOn(rows + [r], agent, day) == SpentOn(rows, agent, day) + Weight(r, agent, day)
  {
    assert (rows + [r])[..|rows|] == rows;
  }

  // Updates that only ever deny rows.
  ghost predicate OnlyDenies(before: seq<Request>, after: seq<Request>) {
    && |after| == |before|
    && forall i :: 0 <= i < |before| ==>
         SameRequest(before[i], after[i]) && (after[i].decision == before[i].decision || after[i].decision == Denied)
  }

  // A reap denies pending rows and nothing else.
  ghost predicate OnlyReaps(before: seq<Request>, after: seq<Request>) {
    && OnlyDenies(before, after)
    && forall i :: 0 <= i < |before| ==> after[i] == before[i] || (before[i].decision == Pending && after[i].decision == Denied)
  }

  lemma {:induction false} ReapDenies(H: HashFn, db: Db, i: nat, cutoff: string, stamp: Instant)
    ensures match ReapFrom(H, db, i, cutoff, stamp)
            case None => true
            case Some(after) => OnlyReaps(db.requests, after.requests) && after.lastId == db.lastId
    decreases |db.requests| - i
  {
    hide Json.Loads;
    hide LogEvent;
    hide Less;
    if i < |db.requests| {
      if !Stale(db.requests[i], cutoff) {
        ReapDenies(H, db, i + 1, cutoff, stamp);
      } else {
        var r := db.requests[i].(decision := Denied, reason := ABANDONED);
        if Json.Loads(r.params).Some? {
          var p, s := Json.Loads(r.params).value, r.(txId := None);
          var mid := db.(requests := db.requests[i := r]);
          LogOnly(H, mid, DECIDED, DecidedFields(s.id, s.agent, s.action, s.amount, p, s.decision, s.reason, s.txId), stamp);
          ReapDenies(H, LogDecision(H, mid, s, p, stamp), i + 1, cutoff, stamp);
        }
      }
    }
  }

  // What an operation does to the requests table, kind by kind.
  ghost predicate TableStep(before: Db, op: Op, after: Db)
    requires Legal(op)
  {
    match op
    case OpDeny(agent, _, amount, _, _, now, _) =>
      && |after.requests| == |before.requests| + 1 && after.requests[..|before.requests|] == before.requests
      && (var r := after.requests[|before.requests|];
          r.id == before.lastId + 1 == after.lastId && r.agent == agent && r.amount == amount
          && r.timestamp == Iso(now) && r.decision == Denied)
    case OpReserve(ask, now, _) =>
      (match Test(before, ask, now)
       case Admitted(r) => after.requests == before.requests + [r] && after.lastId == before.lastId + 1
       case _ => after.requests == before.requests && after.lastId == before.lastId)
    case OpFinalize(id, decision, _, txId, _) =>
      && after.lastId == before.lastId
      && (after.requests == before.requests
          || (HasRow(before.requests, id)
              && var k := RowIndex(before.requests, id);
                 exists r :: after.requests == before.requests[k := r] && SameRequest(before.requests[k], r) && r.decision == decision && r.txId == txId))
    case OpReap(_, _, _) => OnlyReaps(before.requests, after.requests) && after.lastId == before.lastId
    case OpReset(_, _) => after.requests == [] && after.lastId == before.lastId
    case _ => after.requests == before.requests && after.lastId == before.lastId
  }

  lemma StepTable(H: HashFn, db: Db, op: Op)
    requires Legal(op)
    ensures TableStep(db, op, Apply(H, db, op))
  {
    hide LogEvent;
    hide Json.Loads;
    hide Json.Dumps;
    hide ReapFrom;
    hide Less;
    hide Iso;
    match op
    case OpDeny(agent, action, amount, reason, params, now, stamp) =>
      var r := Request(db.lastId + 1, Iso(now), agent, action, amount, Denied, reason, None, CanonicalParams(params));
      LogOnly(H, db.(requests := db.requests + [r], lastId := r.id), DECIDED,
              DecidedFields(r.id, r.agent, r.action, r.amount, ParamsValue(params), r.decision, r.reason, r.txId), stamp);
    case OpReserve(ask, now, stamp) =>
      if Test(db, ask, now).Admitted? {
        var r := ReservedRow(db, ask, now);
        LogOnly(H, db.(requests := db.requests + [r], lastId := r.id), RESERVED,
                ReservedFields(r.id, r.agent, r.action, r.amount, ParamsValue(ask.params), r.decision), stamp);
      }
    case OpFinalize(id, decision, reason, txId, stamp) =>
      if HasRow(db.requests, id) {
        var k := RowIndex(db.requests, id);
        var r := db.requests[k].(decision := decision, reason := reason, txId := txId);
        if Json.Loads(r.params).Some? {
          LogOnly(H, db.(requests := db.requests[k := r]), DECIDED,
                  DecidedFields(r.id, r.agent, r.action, r.amount, Json.Loads(r.params).value, r.decision, r.reason, r.txId), stamp);
          assert SameRequest(db.requests[k], r);
        }
      }
    case OpReap(olderThan, now, stamp) =>
      ReapDenies(H, db, 0, WindowCutoff(now, olderThan), stamp);
      assert OnlyReaps(db.requests, db.requests);
    case OpReset(cleared, stamp) =>
      LogOnly(H, db.(requests := []), RESET, ClearedFields(cleared), stamp);
    case OpAnchor(s, headHash, txId, note, stamp) =>
      var a := AnchorRow(db.lastAnchorId + 1, s, headHash, txId, note);
      LogOnly(H, db.(anchors := db.anchors + [a], lastAnchorId := a.id), ANCHORED,
              AnchorFields(s, headHash, txId), stamp);
    case OpEvent(t, payload, stamp) => LogOnly(H, db, t, payload, stamp);
  }

  // ---- ids ----

  // An id that was handed out and wiped never comes back, so a finalize of
  // it aborts in every later state.
  lemma {:induction false} WipedStaysWiped(H: HashFn, ops: seq<Op>, n: nat, id: nat)
    requires AllLegal(ops) && n <= |ops|
    requires id <= Exec(H, ops[..n]).lastId && !HasRow(Exec(H, ops[..n]).requests, id)
    ensures id <= Exec(H, ops).lastId && !HasRow(Exec(H, ops).requests, id)
    ensures forall decision, reason, txId, stamp ::
              Finalize(H, Exec(H, ops), id, decision, reason, txId, stamp) == None
  {
    hide Apply;
    if n == |ops| {
      assert ops[..n] == ops;
    } else {
      var front, op := ops[..|ops| - 1], ops[|ops| - 1];
      assert front[..n] == ops[..n];
      WipedStaysWiped(H, front, n, id);
      StepTable(H, Exec(H, front), op);
      NoNewRow(Exec(H, front), op, Exec(H, ops), id);
    }
  }

  lemma NoNewRow(before: Db, op: Op, after: Db, id: nat)
    requires Legal(op) && TableStep(before, op, after)
    requires id <= before.lastId && !HasRow(before.requests, id)
    ensures id <= after.lastId && !HasRow(after.requests, id)
  {
    hide Less;
    hide Iso;
    hide SpentOn;
    assert forall i :: 0 <= i < |before.requests| ==> before.requests[i].id != id;
    match op
    case OpDeny(_, _, _, _, _, _, _) =>
      forall i | 0 <= i < |before.requests| ensures after.requests[i].id != id {
        assert after.requests[..|before.requests|][i] == before.requests[i];
      }
    case OpReap(_, _, _) =>
      forall i | 0 <= i < |after.requests| ensures after.requests[i].id != id {
        assert SameRequest(before.requests[i], after.requests[i]);
      }
    case _ =>
  }

  // ---- the daily cap ----

  predicate NonNegative(op: Op) {
    match op
    case OpDeny(_, _, amount, _, _, _, _) => amount >= 0
    case OpReserve(ask, _, _) => ask.amount >= 0
    case _ => true
  }

  // A finalize that counts money again that had stopped counting is the one
  // thing no cap test ever sees.
  predicate Guarded(db: Db, op: Op) {
    (op.OpFinalize? && HasRow(db.requests, op.id) && op.decision.Counts()) ==>
      db.requests[RowIndex(db.requests, op.id)].decision.Counts()
  }

  ghost predicate AllGuarded(H: HashFn, ops: seq<Op>)
    requires AllLegal(ops)
  {
    forall i :: 0 <= i < |ops| ==> Guarded(Exec(H, ops[..i]), ops[i])
  }

  predicate RowsNonNegative(rows: seq<Request>) {
    forall i :: 0 <= i < |rows| ==> rows[i].amount >= 0
  }

  lemma {:induction false} DeniesLower(before: seq<Request>, after: seq<Request>, agent: string, day: string)
    requires OnlyDenies(before, after) && RowsNonNegative(before)
    ensures SpentOn(after, agent, day) <= SpentOn(before, agent, day)
  {
    if before != [] {
      var n := |before| - 1;
      DeniesLower(before[..n], after[..n], agent, day);
      assert SameRequest(before[n], after[n]);
    }
  }

  // A finalize moves the total by exactly what the row weighs now less what
  // it weighed before; it raises it exactly when it is unguarded and the row
  // holds money.
  lemma FinalizeMoves(H: HashFn, db: Db, id: nat, decision: Decision, reason: string, txId: Option<string>, stamp: Instant)
    requires HasRow(db.requests, id) && Finalize(H, db, id, decision, reason, txId, stamp).Some?
    requires var r := db.requests[RowIndex(db.requests, id)]; r.amount >= 0 && |r.timestamp| >= 10
    ensures var r := db.requests[RowIndex(db.requests, id)];
            var after := Finalize(H, db, id, decision, reason, txId, stamp).value;
            var day := r.timestamp[..10];
            && SpentOn(after.requests, r.agent, day) == SpentOn(db.requests, r.agent, day)
                 + (if decision.Counts() then r.amount else 0) - (if r.decision.Counts() then r.amount else 0)
            && (SpentOn(after.requests, r.agent, day) <= SpentOn(db.requests, r.agent, day)
                <==> Guarded(db, OpFinalize(id, decision, reason, txId, stamp)) || r.amount == 0)
  {
    hide LogEvent;
    hide Json.Loads;
    var k := RowIndex(db.requests, id);
    var held := db.requests[k];
    var r := held.(decision := decision, reason := reason, txId := txId);
    SpentUpdate(db.requests, k, r, held.agent, held.timestamp[..10]);
    LogOnly(H, db.(requests := db.requests[k := r]), DECIDED,
            DecidedFields(r.id, r.agent, r.action, r.amount, Json.Loads(r.params).value, r.decision, r.reason, r.txId), stamp);
  }

  // The operation reserves for the agent on the day, and is admitted.
  predicate Admits(db: Db, op: Op, agent: string, day: string)
    requires Legal(op)
  {
    op.OpReserve? && op.ask.agent == agent && Iso(op.now)[..10] == day && Test(db, op.ask, op.now).Admitted?
  }

  // The cap that the agent's latest admission of a day was tested against.
  ghost function LatestCap(H: HashFn, ops: seq<Op>, agent: string, day: string): Option<Money>
    requires AllLegal(ops)
  {
    if ops == [] then None
    else
      var front, op := ops[..|ops| - 1], ops[|ops| - 1];
      assert Legal(op);
      if op.OpReset? then None
      else if Admits(Exec(H, front), op, agent, day) then Some(op.ask.cap)
      else LatestCap(H, front, agent, day)
  }

  lemma StepSpent(before: Db, op: Op, after: Db, agent: string, day: string)
    requires Legal(op) && NonNegative(op) && Guarded(before, op) && TableStep(before, op, after)
    requires RowsNonNegative(before.requests)
    ensures RowsNonNegative(after.requests)
    ensures if op.OpReset? then SpentOn(after.requests, agent, day) == 0
            else if Admits(before, op, agent, day)
            then SpentOn(after.requests, agent, day) <= op.ask.cap + TOLERANCE && WithinCap(SpentOn(after.requests, agent, day), op.ask.cap)
            else SpentOn(after.requests, agent, day) <= SpentOn(before.requests, agent, day)
  {
    hide Less;
    hide Iso;
    hide Pow2;
    match op
    case OpDeny(_, _, _, _, _, _, _) =>
      var r := after.requests[|before.requests|];
      assert after.requests == before.requests + [r];
      SpentAppend(before.requests, r, agent, day);
    case OpReserve(ask, now, _) =>
      if Test(before, ask, now).Admitted? {
        SpentAppend(before.requests, Test(before, ask, now).row, agent, day);
        if Admits(before, op, agent, day) { ToleratedWithin(SpentOn(after.requests, agent, day), ask.cap); }
      }
    case OpFinalize(id, decision, _, _, _) =>
      if after.requests != before.requests {
        var k := RowIndex(before.requests, id);
        var r :| after.requests == before.requests[k := r] && SameRequest(before.requests[k], r) && r.decision == decision;
        SpentUpdate(before.requests, k, r, agent, day);
      }
    case OpReap(_, _, _) => DeniesLower(before.requests, after.requests, agent, day);
    case _ =>
  }

  // In every state of every guarded run, an agent's counted total of a UTC
  // day is within the tolerance of the cap its latest admission of that day
  // was tested against, however often caps were raised or lowered; without
  // an admission nothing counts.
  lemma {:induction false} CapHolds(H: HashFn, ops: seq<Op>, agent: string, day: string)
    requires AllLegal(ops) && AllGuarded(H, ops) && forall op :: op in ops ==> NonNegative(op)
    ensures RowsNonNegative(Exec(H, ops).requests)
    ensures match LatestCap(H, ops, agent, day)
            case Some(cap) =>
              && SpentOn(Exec(H, ops).requests, agent, day) <= cap + TOLERANCE
              && WithinCap(SpentOn(Exec(H, ops).requests, agent, day), cap)
            case None => SpentOn(Exec(H, ops).requests, agent, day) <= 0
  {
    hide Apply;
    hide Guarded;
    hide SpentOn;
    hide Admits;
    hide Pow2;
    hide WithinCap;
    if ops == [] {
      assert SpentOn([], agent, day) == 0 by { NothingSpent(agent, day); }
    } else {
      var n := |ops| - 1;
      var front, op := ops[..n], ops[n];
      GuardedPrefix(H, ops);
      CapHolds(H, front, agent, day);
      StepTable(H, Exec(H, front), op);
      StepSpent(Exec(H, front), op, Exec(H, ops), agent, day);
    }
    if LatestCap(H, ops, agent, day).Some? {
      ToleratedWithin(SpentOn(Exec(H, ops).requests, agent, day), LatestCap(H, ops, agent, day).value);
    }
  }

  lemma NothingSpent(agent: string, day: string)
    ensures SpentOn([], agent, day) == 0
  {
  }

  lemma GuardedPrefix(H: HashFn, ops: seq<Op>)
    requires AllLegal(ops) && AllGuarded(H, ops) && ops != []
    ensures AllGuarded(H, ops[..|ops| - 1]) && Guarded(Exec(H, ops[..|ops| - 1]), ops[|ops| - 1])
  {
    hide Exec;
    hide Guarded;
    var n := |ops| - 1;
    forall i | 0 <= i < n ensures Guarded(Exec(H, ops[..n][..i]), ops[..n][i]) {
      assert ops[..n][..i] == ops[..i];
    }
  }

  // ---- the unguarded finalize ----

  const PLAIN_ASK := Ask("a", "x", 0, 0, Pending, map[], None, 0)

  lemma ReserveRow(H: HashFn, db: Db, cap: Money, t: Instant)
    requires SpentOn(db.requests, "a", Iso(t)[..10]) <= 0 && cap >= 0
    ensures var ask := PLAIN_ASK.(amount := cap, cap := cap);
            var r := ReservedRow(db, ask, t);
            && Test(db, ask, t) == Admitted(r)
            && TryReserve(H, db, ask, t, t).requests == db.requests + [r]
            && TryReserve(H, db, ask, t, t).lastId == db.lastId + 1
  {
    hide LogEvent;
    hide Iso;
    hide Pow2;
    var ask := PLAIN_ASK.(amount := cap, cap := cap);
    var r := ReservedRow(db, ask, t);
    LogOnly(H, db.(requests := db.requests + [r], lastId := r.id), RESERVED,
            ReservedFields(r.id, r.agent, r.action, r.amount, ParamsValue(ask.params), r.decision), t);
  }

  lemma FinalizeRow(H: HashFn, db: Db, k: nat, decision: Decision, t: Instant)
    requires k < |db.requests| && forall i :: 0 <= i < |db.requests| && db.requests[i].id == db.requests[k].id ==> i == k
    requires Json.Loads(db.requests[k].params).Some?
    ensures Finalize(H, db, db.requests[k].id, decision, "", None, t).Some?
    ensures var after := Finalize(H, db, db.requests[k].id, decision, "", None, t).value;
            && after.requests == db.requests[k := db.requests[k].(decision := decision, reason := "", txId := None)]
            && after.lastId == db.lastId
  {
    hide LogEvent;
    hide Json.Loads;
    var r := db.requests[k].(decision := decision, reason := "", txId := None);
    assert HasRow(db.requests, r.id);
    LogOnly(H, db.(requests := db.requests[k := r]), DECIDED,
            DecidedFields(r.id, r.agent, r.action, r.amount, Json.Loads(r.params).value, r.decision, r.reason, r.txId), t);
  }

  lemma SpentFew(r: Request, s: Request, agent: string, day: string)
    ensures SpentOn([r], agent, day) == Weight(r, agent, day)
    ensures SpentOn([r, s], agent, day) == Weight(r, agent, day) + Weight(s, agent, day)
  {
    hide Weight;
    NothingSpent(agent, day);
    SpentAppend([], r, agent, day);
    SpentAppend([r], s, agent, day);
    assert [] + [r] == [r] && [r] + [s] == [r, s];
  }

  lemma WeightOfAsk(db: Db, cap: nat, decision: Decision, t: Instant)
    ensures var r := ReservedRow(db, PLAIN_ASK.(amount := cap, cap := cap), t);
            Weight(r.(decision := decision, reason := "", txId := None), "a", Iso(t)[..10]) == (if decision == Denied then 0 else cap)
            && Weight(r, "a", Iso(t)[..10]) == cap && Json.Loads(r.params) == Some(ParamsValue(map[]))
  {
    hide Iso;
    hide Json.Loads;
    hide Json.Dumps;
    Json.LoadsDumps(ParamsValue(map[]));
  }

  // One run with an unguarded finalize: a reservation is denied, its budget
  // is given to a second one, and then the first is finalized as approved, or
  // labelled as awaiting approval. Each step is a call the store accepts, and
  // the total is twice the cap.
  lemma {:induction false} LateFinalizeDoublesSpend(H: HashFn, cap: nat, late: Decision, t: Instant)
    requires late == Approved || late == AwaitingApproval
    ensures var ask := PLAIN_ASK.(amount := cap, cap := cap);
            var s1 := TryReserve(H, EMPTY, ask, t, t);
            var s2 := Finalize(H, s1, 1, Denied, "", None, t);
            s2.Some? &&
            var s3 := TryReserve(H, s2.value, ask, t, t);
            var s4 := Finalize(H, s3, 1, late, "", None, t);
            s4.Some? && SpentOn(s4.value.requests, "a", Iso(t)[..10]) == 2 * cap
  {
    hide Iso;
    hide Test;
    hide TryReserve;
    hide Finalize;
    hide Json.Loads;
    hide Json.Dumps;
    hide SpentOn;
    hide Weight;
    hide CanonicalParams;
    var ask, day := PLAIN_ASK.(amount := cap, cap := cap), Iso(t)[..10];
    NothingSpent("a", day);
    ReserveRow(H, EMPTY, cap, t);
    WeightOfAsk(EMPTY, cap, Denied, t);
    WeightOfAsk(EMPTY, cap, late, t);
    var r := ReservedRow(EMPTY, ask, t);
    var s1 := TryReserve(H, EMPTY, ask, t, t);
    assert s1.requests == [r];
    FinalizeRow(H, s1, 0, Denied, t);
    var s2 := Finalize(H, s1, 1, Denied, "", None, t).value;
    assert s2.requests == [r.(decision := Denied, reason := "", txId := None)];
    SpentFew(s2.requests[0], r, "a", day);
    ReserveRow(H, s2, cap, t);
    WeightOfAsk(s2, cap, Denied, t);
    var q := ReservedRow(s2, ask, t);
    var s3 := TryReserve(H, s2, ask, t, t);
    assert s3.requests == [s2.requests[0], q];
    FinalizeRow(H, s3, 0, late, t);
    var last := r.(decision := late, reason := "", txId := None);
    assert Finalize(H, s3, 1, late, "", None, t).value.requests == [last, q];
    SpentFew(last, q, "a", day);
  }

  // ---- the rate limit ----

  // Rows of an agent that are not before an instant.
  function CountFrom(rows: seq<Request>, agent: string, start: string): nat {
    if rows == [] then 0
    else
      var r := rows[|rows| - 1];
      CountFrom(rows[..|rows| - 1], agent, start) + if r.agent == agent && !Less(r.timestamp, start) then 1 else 0
  }

  lemma CountFromAppend(rows: seq<Request>, r: Request, agent: string, start: string)
    ensures CountFrom(rows + [r], agent, start)
         == CountFrom(rows, agent, start) + if r.agent == agent && !Less(r.timestamp, start) then 1 else 0
  {
    assert (rows + [r])[..|rows|] == rows;
  }

  // Resolving rows leaves who asked and when alone.
  lemma {:induction false} CountFromSame(before: seq<Request>, after: seq<Request>, agent: string, start: string)
    requires |after| == |before| && forall i :: 0 <= i < |before| ==> SameRequest(before[i], after[i])
    ensures CountFrom(after, agent, start) == CountFrom(before, agent, start)
  {
    hide Less;
    if before != [] {
      var n := |before| - 1;
      CountFromSame(before[..n], after[..n], agent, start);
      assert SameRequest(before[n], after[n]);
    }
  }

  // Every row from the start on is after an earlier cutoff.
  lemma {:induction false} CountFromWithin(rows: seq<Request>, agent: string, cutoff: string, start: string)
    requires Less(cutoff, start)
    ensures CountFrom(rows, agent, start) <= CountSince(rows, agent, cutoff)
  {
    hide Less;
    if rows != [] {
      CountFromWithin(rows[..|rows| - 1], agent, cutoff, start);
      var ts := rows[|rows| - 1].timestamp;
      LessTotal(ts, start);
      if Less(start, ts) { LessTransitive(cutoff, start, ts); }
    }
  }

  predicate AdmitsIn(db: Db, op: Op, agent: string, start: Instant, window: nat)
    requires Legal(op)
  {
    op.OpReserve? && op.ask.agent == agent && Test(db, op.ask, op.now).Admitted? && start <= op.now < start + window * US
  }

  // How many reservations a run has admitted for an agent, since the last
  // reset, at times in the half-open window from start.
  ghost function Admissions(H: HashFn, ops: seq<Op>, agent: string, start: Instant, window: nat): nat
    requires AllLegal(ops)
  {
    if ops == [] then 0
    else
      var front, op := ops[..|ops| - 1], ops[|ops| - 1];
      assert Legal(op);
      if op.OpReset? then 0
      else Admissions(H, front, agent, start, window) + if AdmitsIn(Exec(H, front), op, agent, start, window) then 1 else 0
  }

  predicate Paced(op: Op, agent: string, limit: nat, window: nat) {
    (op.OpReserve? && op.ask.agent == agent) ==>
      op.ask.limit.Some? && op.ask.limit.value <= limit && op.ask.window == window
  }

  lemma StepCount(before: Db, op: Op, after: Db, agent: string, start: string)
    requires Legal(op) && TableStep(before, op, after)
    ensures if op.OpReset? then CountFrom(after.requests, agent, start) == 0
            else CountFrom(after.requests, agent, start) >= CountFrom(before.requests, agent, start)
    ensures (op.OpReserve? && op.ask.agent == agent && Test(before, op.ask, op.now).Admitted? && !Less(Iso(op.now), start)) ==>
              CountFrom(after.requests, agent, start) == CountFrom(before.requests, agent, start) + 1
  {
    hide Less;
    hide Iso;
    hide SpentOn;
    hide Pow2;
    match op
    case OpDeny(_, _, _, _, _, _, _) =>
      var r := after.requests[|before.requests|];
      assert after.requests == before.requests + [r];
      CountFromAppend(before.requests, r, agent, start);
    case OpReserve(ask, now, _) =>
      if Test(before, ask, now).Admitted? {
        CountFromAppend(before.requests, Test(before, ask, now).row, agent, start);
      }
    case OpFinalize(id, decision, _, _, _) =>
      if after.requests != before.requests {
        var k := RowIndex(before.requests, id);
        var r :| after.requests == before.requests[k := r] && SameRequest(before.requests[k], r) && r.decision == decision;
        CountFromSame(before.requests, after.requests, agent, start);
      }
    case OpReap(_, _, _) => CountFromSame(before.requests, after.requests, agent, start);
    case _ =>
  }

  // An admission inside the window found fewer than the limit there.
  lemma AdmittedBelowLimit(db: Db, op: Op, agent: string, start: Instant, limit: nat, window: nat)
    requires Legal(op) && Paced(op, agent, limit, window) && AdmitsIn(db, op, agent, start, window)
    ensures CountFrom(db.requests, agent, Iso(start)) < limit
    ensures !Less(Iso(op.now), Iso(start))
  {
    hide Less;
    hide Iso;
    hide SpentOn;
    hide Pow2;
    var from: Instant := op.now - window * US;
    IsoOrder(from, start);
    IsoOrder(op.now, start);
    CountFromWithin(db.requests, agent, Iso(from), Iso(start));
  }

  lemma {:induction false} AdmissionsCounted(H: HashFn, ops: seq<Op>, agent: string, start: Instant, window: nat)
    requires AllLegal(ops)
    ensures Admissions(H, ops, agent, start, window) <= CountFrom(Exec(H, ops).requests, agent, Iso(start))
  {
    hide Apply;
    hide Test;
    hide Less;
    hide Iso;
    if ops != [] {
      var front, op := ops[..|ops| - 1], ops[|ops| - 1];
      assert Legal(op);
      AdmissionsCounted(H, front, agent, start, window);
      StepTable(H, Exec(H, front), op);
      StepCount(Exec(H, front), op, Exec(H, ops), agent, Iso(start));
      if op.OpReserve? { IsoOrder(op.now, start); }
    }
  }

  // When an agent's reservations are all tested against limits up to L over
  // one window length, every half-open window of that length, anywhere on the
  // time line, holds at most L admissions between resets -- for any clock.
  lemma {:induction false} EveryWindowWithinLimit(
      H: HashFn, ops: seq<Op>, agent: string, start: Instant, limit: nat, window: nat)
    requires AllLegal(ops) && forall op :: op in ops ==> Paced(op, agent, limit, window)
    ensures Admissions(H, ops, agent, start, window) <= limit
  {
    hide Exec;
    hide Less;
    hide Iso;
    if ops != [] {
      var front, op := ops[..|ops| - 1], ops[|ops| - 1];
      assert Legal(op) && Paced(op, agent, limit, window);
      EveryWindowWithinLimit(H, front, agent, start, limit, window);
      if AdmitsIn(Exec(H, front), op, agent, start, window) {
        AdmittedBelowLimit(Exec(H, front), op, agent, start, limit, window);
        AdmissionsCounted(H, front, agent, start, window);
      }
    }
  }
}
