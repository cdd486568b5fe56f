/** What the store's text comparisons come to in time: which requests it
    admits, and which reservations a restart abandons, in terms of the instants
    the rows were stamped at and of nothing in the store's own queries. */
module Timeline {
  import opened Text
  import opened Clock
  import opened Ledger
  import opened Store
  import opened View
  import opened Tolerance
  import Json
  import Limits

  ghost predicate Stamped(r: Request) {
    exists t: Instant :: r.timestamp == Iso(t)
  }

  // Different instants never share a text, so this is the instant.
  ghost function TimeOf(r: Request): (t: Instant)
    requires Stamped(r)
    ensures r.timestamp == Iso(t)
  {
    var t: Instant :| r.timestamp == Iso(t);
    t
  }

  ghost predicate AllStamped(rows: seq<Request>) {
    forall i :: 0 <= i < |rows| ==> Stamped(rows[i])
  }

  lemma {:induction false} AlwaysStamped(H: HashFn, ops: seq<Op>)
    requires AllLegal(ops)
    ensures AllStamped(Exec(H, ops).requests)
  {
    hide Apply;
    hide Iso;
    hide Test;
    if ops != [] {
      var front, op := ops[..|ops| - 1], ops[|ops| - 1];
      AlwaysStamped(H, front);
      assert Legal(op);
      Limits.StepTable(H, Exec(H, front), op);
      StampedStep(Exec(H, front), op, Exec(H, ops));
    }
  }

  lemma StampedStep(before: Db, op: Op, after: Db)
    requires Legal(op) && AllStamped(before.requests) && Limits.TableStep(before, op, after)
    ensures AllStamped(after.requests)
  {
    hide Iso;
    hide CountSince;
    hide SpentOn;
    hide Pow2;
    forall i | 0 <= i < |after.requests| ensures Stamped(after.requests[i]) {
      match op
      case OpDeny(_, _, _, _, _, _, _) =>
        if i < |before.requests| { assert after.requests[..|before.requests|][i] == before.requests[i]; }
      case OpReap(_, _, _) => assert Limits.SameRequest(before.requests[i], after.requests[i]);
      case _ =>
    }
  }

  // ---- what try_reserve decides ----

  // The agent's rows younger than the window, whatever became of them.
  ghost function Recent(rows: seq<Request>, agent: string, now: Instant, window: nat): set<int>
    requires AllStamped(rows)
  {
    set i | 0 <= i < |rows| && rows[i].agent == agent && TimeOf(rows[i]) > now - window * US
  }

  // The agent's rows of the UTC day that are not denied.
  ghost function DayTotal(rows: seq<Request>, agent: string, day: nat): Money
    requires AllStamped(rows)
  {
    if rows == [] then 0
    else
      var n := |rows| - 1;
      DayTotal(rows[..n], agent, day)
        + if rows[n].agent == agent && rows[n].decision != Denied && DayNumber(TimeOf(rows[n])) == day then rows[n].amount else 0
  }

  lemma RecentGrows(rows: seq<Request>, agent: string, now: Instant, window: nat)
    requires AllStamped(rows) && rows != []
    ensures var n := |rows| - 1;
            Recent(rows, agent, now, window) == Recent(rows[..n], agent, now, window)
              + if rows[n].agent == agent && TimeOf(rows[n]) > now - window * US then {n} else {}
  {
    hide Iso;
    hide Stamped;
    assert forall i :: 0 <= i < |rows| - 1 ==> rows[..|rows| - 1][i] == rows[i];
  }

  lemma {:induction false} CountIsRecent(rows: seq<Request>, agent: string, now: Instant, window: nat)
    requires AllStamped(rows) && window * US <= now
    ensures CountSince(rows, agent, WindowCutoff(now, window)) == |Recent(rows, agent, now, window)|
  {
    hide Less;
    hide Iso;
    hide Stamped;
    if rows != [] {
      var n := |rows| - 1;
      CountIsRecent(rows[..n], agent, now, window);
      RecentGrows(rows, agent, now, window);
      var cutoff: Instant := now - window * US;
      IsoOrder(cutoff, TimeOf(rows[n]));
    }
  }

  lemma {:induction false} SpentIsDayTotal(rows: seq<Request>, agent: string, now: Instant)
    requires AllStamped(rows)
    ensures SpentOn(rows, agent, Iso(now)[..10]) == DayTotal(rows, agent, DayNumber(now))
  {
    hide Iso;
    if rows != [] {
      var n := |rows| - 1;
      SpentIsDayTotal(rows[..n], agent, now);
      IsoDay(TimeOf(rows[n]), now);
    }
  }

  // In every state of every run, a request is admitted exactly when fewer
  // rows of its agent than the limit are younger than the window, and its
  // amount fits, within the tolerance, under the cap of the UTC day -- which
  // leaves the day less than two billionths of a dollar over it. The rate is
  // tested first, and each refusal says what it found.
  lemma {:induction false} AdmittedInTime(H: HashFn, ops: seq<Op>, ask: Ask, now: Instant)
    requires AllLegal(ops) && ask.window * US <= now
    ensures AllStamped(Exec(H, ops).requests)
    ensures var db := Exec(H, ops);
            var recent, spent := |Recent(db.requests, ask.agent, now, ask.window)|, DayTotal(db.requests, ask.agent, DayNumber(now));
            var outcome := Test(db, ask, now);
            && (outcome.OverVelocity? <==> ask.limit.Some? && recent >= ask.limit.value)
            && (outcome.OverCap? <==> !outcome.OverVelocity? && spent + ask.amount > ask.cap + TOLERANCE)
            && (outcome.OverVelocity? ==> outcome.recent == recent && outcome.limit == ask.limit.value)
            && (outcome.OverCap? ==> outcome.spent == spent && spent + ask.amount > ask.cap)
            && (outcome.Admitted? ==> WithinCap(spent + ask.amount, ask.cap))
  {
    hide Exec;
    hide Iso;
    hide CountSince;
    hide SpentOn;
    hide Pow2;
    hide WithinCap;
    AlwaysStamped(H, ops);
    CountIsRecent(Exec(H, ops).requests, ask.agent, now, ask.window);
    SpentIsDayTotal(Exec(H, ops).requests, ask.agent, now);
    var spent := DayTotal(Exec(H, ops).requests, ask.agent, DayNumber(now));
    if spent + ask.amount <= ask.cap + TOLERANCE { ToleratedWithin(spent + ask.amount, ask.cap); }
  }

  // ---- what a restart abandons ----

  function Abandon(r: Request, cutoff: string): Request {
    if Stale(r, cutoff) then r.(decision := Denied, reason := ABANDONED) else r
  }

  // Rows from i on are abandoned or left alone, each with an event of its own.
  ghost predicate Reaped(before: Db, i: nat, cutoff: string, after: Db) {
    && |after.requests| == |before.requests|
    && (forall j :: 0 <= j < i && j < |before.requests| ==> after.requests[j] == before.requests[j])
    && (forall j :: i <= j < |before.requests| ==> after.requests[j] == Abandon(before.requests[j], cutoff))
    && |after.events| == |before.events| + StaleFrom(before.requests, i, cutoff)
  }

  function StaleFrom(rows: seq<Request>, i: nat, cutoff: string): nat
    decreases |rows| - i
  {
    if i >= |rows| then 0 else (if Stale(rows[i], cutoff) then 1 else 0) + StaleFrom(rows, i + 1, cutoff)
  }

  lemma {:induction false} StaleFromSame(before: seq<Request>, after: seq<Request>, i: nat, cutoff: string)
    requires |before| == |after| && forall j :: i <= j < |before| ==> before[j] == after[j]
    ensures StaleFrom(before, i, cutoff) == StaleFrom(after, i, cutoff)
    decreases |before| - i
  {
    hide Less;
    if i < |before| { StaleFromSame(before, after, i + 1, cutoff); }
  }

  lemma {:induction false} ReapFromExact(H: HashFn, db: Db, i: nat, cutoff: string, stamp: Instant)
    requires forall j :: 0 <= j < |db.requests| ==> ParamsParse(db.requests[j])
    ensures ReapFrom(H, db, i, cutoff, stamp).Some? && Reaped(db, i, cutoff, ReapFrom(H, db, i, cutoff, stamp).value)
    decreases |db.requests| - i
  {
    hide Json.Loads;
    hide LogEvent;
    hide Less;
    hide DecidedFields;
    if i < |db.requests| {
      if !Stale(db.requests[i], cutoff) {
        ReapFromExact(H, db, i + 1, cutoff, stamp);
      } else {
        var r := db.requests[i].(decision := Denied, reason := ABANDONED);
        assert ParamsParse(db.requests[i]);
        var p, t := Json.Loads(r.params).value, r.(txId := None);
        var mid := db.(requests := db.requests[i := r]);
        var fields := DecidedFields(t.id, t.agent, t.action, t.amount, p, t.decision, t.reason, t.txId);
        Limits.LogOnly(H, mid, DECIDED, fields, stamp);
        OneMore(H, mid, fields, stamp);
        ReapFromExact(H, LogDecision(H, mid, t, p, stamp), i + 1, cutoff, stamp);
        StaleFromSame(db.requests, mid.requests, i + 1, cutoff);
      }
    }
  }

  lemma OneMore(H: HashFn, db: Db, fields: Json.Value, stamp: Instant)
    ensures |LogEvent(H, db, DECIDED, fields, stamp).events| == |db.events| + 1
  {
    hide Iso;
    hide Json.Dumps;
    hide Link;
  }

  // The pending reservations at least as old as the timeout, from row i on.
  ghost function Overdue(rows: seq<Request>, i: nat, now: Instant, olderThan: nat): set<int>
    requires AllStamped(rows)
  {
    set j | i <= j < |rows| && rows[j].decision == Pending && TimeOf(rows[j]) <= now - olderThan * US
  }

  lemma OverdueFirst(rows: seq<Request>, i: nat, now: Instant, olderThan: nat)
    requires AllStamped(rows) && i < |rows|
    ensures var rest := Overdue(rows, i + 1, now, olderThan);
            i !in rest && Overdue(rows, i, now, olderThan) ==
              if rows[i].decision == Pending && TimeOf(rows[i]) <= now - olderThan * US then rest + {i} else rest
  {
    hide Stamped;
    hide Iso;
  }

  lemma {:induction false} StaleIsOverdue(rows: seq<Request>, i: nat, now: Instant, olderThan: nat)
    requires AllStamped(rows) && olderThan * US <= now && i <= |rows|
    ensures StaleFrom(rows, i, WindowCutoff(now, olderThan)) == |Overdue(rows, i, now, olderThan)|
    decreases |rows| - i
  {
    hide Less;
    hide Iso;
    hide Stamped;
    hide Overdue;
    if i < |rows| {
      StaleIsOverdue(rows, i + 1, now, olderThan);
      OverdueFirst(rows, i, now, olderThan);
      var cutoff: Instant := now - olderThan * US;
      IsoOrder(cutoff, TimeOf(rows[i]));
    } else {
      OverdueNone(rows, now, olderThan);
    }
  }

  lemma OverdueNone(rows: seq<Request>, now: Instant, olderThan: nat)
    requires AllStamped(rows)
    ensures Overdue(rows, |rows|, now, olderThan) == {}
  {
  }

  // In every state of every run a restart never fails: it denies exactly the
  // pending reservations at least as old as the timeout, touches no other row
  // and no other column, and writes one event for each.
  lemma {:induction false} ReapInTime(H: HashFn, ops: seq<Op>, olderThan: nat, now: Instant, stamp: Instant)
    requires AllLegal(ops) && olderThan * US <= now
    ensures AllStamped(Exec(H, ops).requests)
    ensures var db, r := Exec(H, ops), Reap(H, Exec(H, ops), olderThan, now, stamp);
            var late := Overdue(db.requests, 0, now, olderThan);
            && r.Some? && |r.value.requests| == |db.requests|
            && (forall i :: 0 <= i < |db.requests| ==>
                  r.value.requests[i] ==
                    if i in late then db.requests[i].(decision := Denied, reason := ABANDONED) else db.requests[i])
            && |r.value.events| == |db.events| + |late|
  {
    hide Exec;
    hide Iso;
    hide Less;
    hide ReapFrom;
    hide StaleFrom;
    hide Stamped;
    AlwaysStamped(H, ops);
    var db, cutoff: Instant := Exec(H, ops), now - olderThan * US;
    ParsedRows(H, ops);
    ReapFromExact(H, db, 0, WindowCutoff(now, olderThan), stamp);
    forall i | 0 <= i < |db.requests|
      ensures Less(WindowCutoff(now, olderThan), db.requests[i].timestamp) <==> cutoff < TimeOf(db.requests[i])
    {
      IsoOrder(cutoff, TimeOf(db.requests[i]));
    }
    StaleIsOverdue(db.requests, 0, now, olderThan);
  }

  lemma ParsedRows(H: HashFn, ops: seq<Op>)
    requires AllLegal(ops)
    ensures forall j :: 0 <= j < |Exec(H, ops).requests| ==> ParamsParse(Exec(H, ops).requests[j])
  {
    hide Exec;
    hide ParamsParse;
    hide Fold;
    TableIsReplay(H, ops);
  }
}
