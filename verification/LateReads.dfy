/** Runs of the threads, statement by statement, in which a read made before
    the lock is out of date when the lock is taken. */
module LateReads {
  import opened Text
  import opened Clock
  import opened Ledger
  import opened Anchor
  import opened Store
  import opened View
  import opened Statements
  import opened Threads
  import opened Interleave
  import Json
  import Limits

  // ---- one thread's transaction, undisturbed ----

  function OneOp(u: Tid, op: Op): seq<Action> {
    [Begin(u, op), Write(u), LogWrite(u), Commit(u)]
  }

  ghost predicate Ready(s: System, t: Tid) {
    s.lock == None && At(s, t) == Idle
  }

  // The next state, every thread but u as it was.
  ghost predicate Apart(s: System, s': System, u: Tid) {
    forall t :: t != u ==> At(s', t) == At(s, t)
  }

  lemma FourMore(H: HashFn, actions: seq<Action>, a: Action, b: Action, c: Action, d: Action)
    ensures RunAll(H, actions + [a, b, c, d]) == Fire(H, Fire(H, Fire(H, Fire(H, RunAll(H, actions), a), b), c), d)
  {
    hide Fire;
    hide RunAll;
    OneMore(H, actions, a);
    OneMore(H, actions + [a], b);
    OneMore(H, actions + [a] + [b], c);
    OneMore(H, actions + [a] + [b] + [c], d);
    assert actions + [a] + [b] + [c] + [d] == actions + [a, b, c, d];
  }

  lemma OneOpRuns(H: HashFn, actions: seq<Action>, u: Tid, op: Op)
    requires Ready(RunAll(H, actions), u) && TwoPart(op) && !op.OpReset? && !op.OpReserve?
    requires InTwo(H, RunAll(H, actions).committed, op).Some?
    ensures var s, s' := RunAll(H, actions), RunAll(H, actions + OneOp(u, op));
            && s'.committed == Apply(H, s.committed, op) && s'.history == s.history + [Ran(op)]
            && Ready(s', u) && Apart(s, s', u)
  {
    hide RunAll;
    hide LogEvent;
    hide Entry;
    hide Statements.Change;
    hide TwoPart;
    hide Apply;
    var s := RunAll(H, actions);
    FourMore(H, actions, Begin(u, op), Write(u), LogWrite(u), Commit(u));
    AppliesInTwo(H, s.committed, op);
    var s1 := Goto(s, u, Working(op)).(lock := Some(u), work := s.committed);
    assert Fire(H, s, Begin(u, op)) == s1;
    var s2 := Goto(s1, u, Changed(op)).(work := Statements.Change(s.committed, op));
    assert Fire(H, s1, Write(u)) == s2;
    var (eventType, payload) := Entry(s2.work, op).value;
    var s3 := Goto(s2, u, Done(Ran(op))).(work := LogEvent(H, s2.work, eventType, payload, op.stamp));
    assert Fire(H, s2, LogWrite(u)) == s3;
    assert Fire(H, s3, Commit(u)) == Publish(s3, u, Ran(op), s3.work);
  }

  // ---- a payment approved under a sweep that has already selected it ----

  function LatePayment(t: Tid, u: Tid, op: Op, pay: Op): seq<Action> {
    [ReadStale(t, op)] + OneOp(u, pay) + [BeginSweep(t), SweepNext(t), SweepNext(t), Commit(t)]
  }

  lemma SweepRuns(H: HashFn, actions: seq<Action>, t: Tid, r: Request, op: Op)
    requires Legal(op) && op.OpReap? && At(RunAll(H, actions), t) == PickRead([r], op) && RunAll(H, actions).lock == None
    requires ReapRow(H, RunAll(H, actions).committed, r, op.stamp).Some?
    ensures var s, s' := RunAll(H, actions), RunAll(H, actions + [BeginSweep(t), SweepNext(t), SweepNext(t), Commit(t)]);
            && s'.committed == Effect(H, s.committed, Swept([r], op)) && s'.history == s.history + [Swept([r], op)]
            && Ready(s', t) && Apart(s, s', t)
  {
    hide RunAll;
    hide ReapRow;
    var s := RunAll(H, actions);
    FourMore(H, actions, BeginSweep(t), SweepNext(t), SweepNext(t), Commit(t));
    OneRow(H, s.committed, r, op.stamp);
    var s1 := Goto(s, t, Sweeping([r], op, 0)).(lock := Some(t), work := s.committed);
    assert Fire(H, s, BeginSweep(t)) == s1;
    var s2 := Goto(s1, t, Sweeping([r], op, 1)).(work := ReapRow(H, s.committed, r, op.stamp).value);
    assert Fire(H, s1, SweepNext(t)) == s2;
    var s3 := Goto(s2, t, Done(Swept([r], op)));
    assert Fire(H, s2, SweepNext(t)) == s3;
    assert Fire(H, s3, Commit(t)) == Publish(s3, t, Swept([r], op), s3.work);
  }

  // From any state with one old pending row and two threads free: one selects
  // it for a sweep, the other commits the approval of its payment, and the
  // sweep denies it all the same. Table and ledger then disagree.
  lemma {:induction false} LateSweepRuns(
      H: HashFn, actions: seq<Action>, t: Tid, u: Tid, op: Op, k: nat, why: string, tx: string, stamp: Instant)
    requires t != u && Ready(RunAll(H, actions), t) && Ready(RunAll(H, actions), u)
    requires Legal(op) && op.OpReap? && Mirrored(RunAll(H, actions).committed)
    requires k < |RunAll(H, actions).committed.requests|
    requires PickedFor(RunAll(H, actions).committed, op) == [RunAll(H, actions).committed.requests[k]]
    ensures var db := RunAll(H, actions).committed;
            var pay := OpFinalize(db.requests[k].id, Approved, why, Some(tx), stamp);
            var after := RunAll(H, actions + LatePayment(t, u, op, pay)).committed;
            && Shows(RunAll(H, actions + [ReadStale(t, op)] + OneOp(u, pay)).committed, k, Approved, tx)
            && Shows(after, k, Denied, tx) && !Mirrored(after)
  {
    hide RunAll;
    hide Fire;
    hide Apply;
    hide Effect;
    hide Mirrored;
    hide PickedFor;
    hide ReapRow;
    hide InTwo;
    hide LatePayment;
    hide OneOp;
    var db := RunAll(H, actions).committed;
    var r, pay := db.requests[k], OpFinalize(db.requests[k].id, Approved, why, Some(tx), stamp);
    LateSweepDenies(H, db, op, k, why, tx, stamp);
    OneMore(H, actions, ReadStale(t, op));
    var asked := actions + [ReadStale(t, op)];
    StaleRead(H, RunAll(H, actions), t, u, op);
    RowParses(db, k);
    FinalizesInTwo(H, db, k, pay);
    OneOpRuns(H, asked, u, pay);
    var paid := asked + OneOp(u, pay);
    assert At(RunAll(H, paid), t) == PickRead([r], op);
    RowSweeps(H, RunAll(H, paid).committed, r, op.stamp);
    SweepRuns(H, paid, t, r, op);
    LatePaymentIs(actions, t, u, op, pay);
  }

  lemma LatePaymentIs(actions: seq<Action>, t: Tid, u: Tid, op: Op, pay: Op)
    ensures actions + [ReadStale(t, op)] + OneOp(u, pay) + [BeginSweep(t), SweepNext(t), SweepNext(t), Commit(t)]
         == actions + LatePayment(t, u, op, pay)
  {
  }

  lemma StaleRead(H: HashFn, s: System, t: Tid, u: Tid, op: Op)
    requires t != u && Ready(s, t) && Ready(s, u) && Legal(op) && op.OpReap?
    ensures var s' := Fire(H, s, ReadStale(t, op));
            s'.committed == s.committed && Ready(s', u) && At(s', t) == PickRead(PickedFor(s.committed, op), op)
  {
    hide PickedFor;
  }

  lemma FinalizesInTwo(H: HashFn, db: Db, k: nat, op: Op)
    requires k < |db.requests| && ParamsParse(db.requests[k]) && Mirrored(db)
    requires op.OpFinalize? && op.decision != Pending && op.id == db.requests[k].id
    ensures TwoPart(op) && InTwo(H, db, op).Some?
  {
    hide Json.Loads;
    hide LogEvent;
    hide Fold;
    var r := db.requests[k].(decision := op.decision, reason := op.reason, txId := op.txId);
    assert RowIndex(db.requests, op.id) == k;
    UpdatedIndex(db.requests, op.id, r);
  }

  lemma RowSweeps(H: HashFn, db: Db, r: Request, stamp: Instant)
    requires ParamsParse(r)
    ensures ReapRow(H, db, r, stamp).Some?
  {
    hide Json.Loads;
    hide LogEvent;
  }

  // ---- a reset that counted too early ----

  function LateCount(t: Tid, u: Tid, deny: Op, stamp: Instant): seq<Action> {
    [ReadCount(t, stamp)] + OneOp(u, deny) + [Delete(t), LogWrite(t), Commit(t)]
  }

  lemma ThreeMore(H: HashFn, actions: seq<Action>, a: Action, b: Action, c: Action)
    ensures RunAll(H, actions + [a, b, c]) == Fire(H, Fire(H, Fire(H, RunAll(H, actions), a), b), c)
  {
    hide Fire;
    hide RunAll;
    OneMore(H, actions, a);
    OneMore(H, actions + [a], b);
    OneMore(H, actions + [a] + [b], c);
    assert actions + [a] + [b] + [c] == actions + [a, b, c];
  }

  lemma ResetRuns(H: HashFn, actions: seq<Action>, t: Tid, cleared: nat, stamp: Instant)
    requires At(RunAll(H, actions), t) == CountRead(OpReset(cleared, stamp)) && RunAll(H, actions).lock == None
    ensures var s, s' := RunAll(H, actions), RunAll(H, actions + [Delete(t), LogWrite(t), Commit(t)]);
            s'.committed == Apply(H, s.committed, OpReset(cleared, stamp)) && s'.history == s.history + [Ran(OpReset(cleared, stamp))]
  {
    hide RunAll;
    hide LogEvent;
    var s, op := RunAll(H, actions), OpReset(cleared, stamp);
    ThreeMore(H, actions, Delete(t), LogWrite(t), Commit(t));
    var s1 := Goto(s, t, Changed(op)).(lock := Some(t), work := s.committed.(requests := []));
    assert Fire(H, s, Delete(t)) == s1;
    var s2 := Goto(s1, t, Done(Ran(op))).(work := LogEvent(H, s1.work, RESET, ClearedFields(cleared), stamp));
    assert Fire(H, s1, LogWrite(t)) == s2;
    assert Fire(H, s2, Commit(t)) == Publish(s2, t, Ran(op), s2.work);
  }

  // What a denial and a reset leave, one after the other.
  lemma DenialAdds(H: HashFn, db: Db, deny: Op)
    requires Legal(deny) && deny.OpDeny?
    ensures TwoPart(deny) && InTwo(H, db, deny).Some?
    ensures var after := Apply(H, db, deny);
            && |after.requests| == |db.requests| + 1 && |after.events| == |db.events| + 1
            && after.events[|db.events|].eventType == DECIDED
  {
    hide Json.Dumps;
    hide Iso;
    hide Link;
    hide DecidedFields;
  }

  lemma ResetAdds(H: HashFn, db: Db, cleared: nat, stamp: Instant)
    ensures var after := Apply(H, db, OpReset(cleared, stamp));
            && after.requests == [] && |after.events| == |db.events| + 1
            && after.events[|db.events|].eventType == RESET && after.events[|db.events|].payload == Json.Dumps(ClearedFields(cleared))
  {
    hide Json.Dumps;
    hide Iso;
    hide Link;
  }

  lemma CountsDiffer(m: nat, n: nat)
    requires m != n
    ensures Json.Dumps(ClearedFields(m)) != Json.Dumps(ClearedFields(n))
  {
    hide Json.Dumps;
    Json.DumpsInjective(ClearedFields(m), ClearedFields(n));
    assert ClearedFields(m).fields["requests_cleared"] != ClearedFields(n).fields["requests_cleared"];
  }

  // From any state with two threads free: one counts the rows for a reset,
  // the other commits a denial, and the reset deletes one row more than it
  // records. Neither order of the two transactions, each whole and counting
  // for itself, writes this ledger.
  lemma {:induction false} MiscountedReset(H: HashFn, actions: seq<Action>, t: Tid, u: Tid, deny: Op, stamp: Instant)
    requires t != u && Ready(RunAll(H, actions), t) && Ready(RunAll(H, actions), u) && Legal(deny) && deny.OpDeny?
    ensures var db := RunAll(H, actions).committed;
            var n, after := |db.requests|, RunAll(H, actions + LateCount(t, u, deny, stamp)).committed;
            var denied, reset := Apply(H, db, deny), Apply(H, db, OpReset(n, stamp));
            && after == Apply(H, denied, OpReset(n, stamp)) && |denied.requests| == n + 1
            && after.events != Apply(H, denied, OpReset(n + 1, stamp)).events
            && after.events != Apply(H, reset, deny).events
  {
    hide RunAll;
    hide Fire;
    hide Apply;
    hide InTwo;
    hide TwoPart;
    hide Json.Dumps;
    hide OneOp;
    var db := RunAll(H, actions).committed;
    var n, asked := |db.requests|, actions + [ReadCount(t, stamp)];
    OneMore(H, actions, ReadCount(t, stamp));
    CountedRead(H, RunAll(H, actions), t, u, stamp);
    DenialAdds(H, db, deny);
    OneOpRuns(H, asked, u, deny);
    var denied := Apply(H, db, deny);
    ResetRuns(H, asked + OneOp(u, deny), t, n, stamp);
    assert asked + OneOp(u, deny) + [Delete(t), LogWrite(t), Commit(t)] == actions + LateCount(t, u, deny, stamp);
    ResetAdds(H, denied, n, stamp);
    ResetAdds(H, denied, n + 1, stamp);
    CountsDiffer(n, n + 1);
    var reset := Apply(H, db, OpReset(n, stamp));
    ResetAdds(H, db, n, stamp);
    DenialAdds(H, reset, deny);
    assert |DECIDED| != |RESET|;
  }

  lemma CountedRead(H: HashFn, s: System, t: Tid, u: Tid, stamp: Instant)
    requires t != u && Ready(s, t) && Ready(s, u)
    ensures var s' := Fire(H, s, ReadCount(t, stamp));
            s'.committed == s.committed && Ready(s', u) && At(s', t) == CountRead(OpReset(|s.committed.requests|, stamp))
  {
  }

  // ---- the late sweep, from nothing ----

  const PLAIN := Limits.PLAIN_ASK

  function Testing(u: Tid, t0: Instant): seq<Action> {
    [Begin(u, OpReserve(PLAIN, t0, t0)), TestRate(u), TestCap(u)]
  }

  function Reserving(u: Tid, t0: Instant): seq<Action> {
    Testing(u, t0) + [Write(u), LogWrite(u), Commit(u)]
  }

  lemma PlainAdmitted(H: HashFn, t0: Instant)
    ensures Legal(OpReserve(PLAIN, t0, t0)) && Test(EMPTY, PLAIN, t0) == Admitted(ReservedRow(EMPTY, PLAIN, t0))
    ensures Apply(H, EMPTY, OpReserve(PLAIN, t0, t0)).requests == [ReservedRow(EMPTY, PLAIN, t0)]
  {
    hide Iso;
    hide Pow2;
    hide LogEvent;
    hide Test;
    Limits.NothingSpent("a", Iso(t0)[..10]);
    Limits.ReserveRow(H, EMPTY, 0, t0);
    assert PLAIN.(amount := 0, cap := 0) == PLAIN;
    assert EMPTY.requests + [ReservedRow(EMPTY, PLAIN, t0)] == [ReservedRow(EMPTY, PLAIN, t0)];
  }

  lemma TestingRuns(H: HashFn, u: Tid, t0: Instant)
    ensures RunAll(H, Testing(u, t0)) == START.(lock := Some(u), pcs := START.pcs[u := CapTested(OpReserve(PLAIN, t0, t0))])
  {
    hide RunAll;
    hide Iso;
    hide Pow2;
    hide LogEvent;
    var op, s := OpReserve(PLAIN, t0, t0), START;
    NoActions(H);
    PlainAdmitted(H, t0);
    ThreeMore(H, [], Begin(u, op), TestRate(u), TestCap(u));
    assert [] + Testing(u, t0) == Testing(u, t0);
    var s1 := Goto(s, u, Working(op)).(lock := Some(u));
    assert Fire(H, s, Begin(u, op)) == s1;
    var s2 := Goto(s1, u, RateTested(op));
    assert Fire(H, s1, TestRate(u)) == s2;
  }

  lemma ReservingRuns(H: HashFn, u: Tid, t0: Instant)
    ensures var s := RunAll(H, Reserving(u, t0));
            && s.committed == Apply(H, EMPTY, OpReserve(PLAIN, t0, t0)) && s.lock == None && (forall t :: At(s, t) == Idle)
  {
    hide RunAll;
    hide LogEvent;
    hide Apply;
    hide Entry;
    hide Statements.Change;
    hide Iso;
    hide Test;
    hide Testing;
    var op := OpReserve(PLAIN, t0, t0);
    PlainAdmitted(H, t0);
    TestingRuns(H, u, t0);
    ThreeMore(H, Testing(u, t0), Write(u), LogWrite(u), Commit(u));
    AppliesInTwo(H, EMPTY, op);
    ReserveEntry(t0);
    var s3 := RunAll(H, Testing(u, t0));
    var s4 := Goto(s3, u, Changed(op)).(work := Statements.Change(EMPTY, op));
    assert Fire(H, s3, Write(u)) == s4;
    var (eventType, payload) := Entry(s4.work, op).value;
    var s5 := Goto(s4, u, Done(Ran(op))).(work := LogEvent(H, s4.work, eventType, payload, t0));
    assert Fire(H, s4, LogWrite(u)) == s5;
    assert Fire(H, s5, Commit(u)) == Publish(s5, u, Ran(op), s5.work);
  }

  lemma NoActions(H: HashFn)
    ensures RunAll(H, []) == START
  {
  }

  lemma ReserveEntry(t0: Instant)
    ensures Legal(OpReserve(PLAIN, t0, t0))
    ensures Entry(Statements.Change(EMPTY, OpReserve(PLAIN, t0, t0)), OpReserve(PLAIN, t0, t0)).Some?
  {
    hide Iso;
  }

  // The reserved row is there, and old enough for a restart that waits for
  // nothing.
  lemma PlainSelected(H: HashFn, t0: Instant)
    ensures Legal(OpReserve(PLAIN, t0, t0)) && Legal(OpReap(0, t0, t0))
    ensures var db := Apply(H, EMPTY, OpReserve(PLAIN, t0, t0));
            && |db.requests| == 1 && db.requests[0].id == 1 && Mirrored(db)
            && PickedFor(db, OpReap(0, t0, t0)) == [db.requests[0]]
  {
    hide Apply;
    hide Iso;
    hide Less;
    hide Test;
    PlainAdmitted(H, t0);
    TableIsReplay(H, []);
    StepMirrored(H, EMPTY, OpReserve(PLAIN, t0, t0));
    var r := ReservedRow(EMPTY, PLAIN, t0);
    LessIrreflexive(Iso(t0));
    assert Picked([r], Iso(t0)) == [r] + Picked([], Iso(t0));
  }

  // Fifteen statements of two threads, from the empty database: a request
  // reserved, selected, approved and then denied.
  lemma {:induction false} ApprovedThenAbandoned(H: HashFn, t: Tid, u: Tid, t0: Instant, tx: string)
    requires t != u
    ensures var pay := OpFinalize(1, Approved, "", Some(tx), t0);
            var after := RunAll(H, Reserving(u, t0) + LatePayment(t, u, OpReap(0, t0, t0), pay)).committed;
            Shows(after, 0, Denied, tx) && !Mirrored(after)
  {
    hide RunAll;
    hide Reserving;
    hide LatePayment;
    hide Apply;
    hide Mirrored;
    hide PickedFor;
    hide Iso;
    ReservingRuns(H, u, t0);
    PlainSelected(H, t0);
    LateSweepRuns(H, Reserving(u, t0), t, u, OpReap(0, t0, t0), 0, "", tx, t0);
  }
}
