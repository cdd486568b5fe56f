/** What the interleavings of Threads are worth: when they are runs of plain
    operations, what differs when a reset or a sweep worked from an old read,
    and the daily cap, which holds either way. */
module Interleave {
  import opened Text
  import opened Clock
  import opened Ledger
  import opened Anchor
  import opened Store
  import opened View
  import opened Sweep
  import opened Tolerance
  import opened Statements
  import opened Threads
  import Json
  import Limits

  // ---- when a sweep is the sequential one ----

  // The selection lists what it would list now.
  predicate Current(db: Db, x: Txn)
    requires Proper(x)
  {
    x.Swept? ==> SameSweep(x.picked, PickedFor(db, x.op))
  }

  ghost predicate AllCurrent(H: HashFn, txns: seq<Txn>)
    requires AllProper(txns)
  {
    txns == [] || (AllCurrent(H, txns[..|txns| - 1]) && Current(Replay(H, txns[..|txns| - 1]), txns[|txns| - 1]))
  }

  function Ops(txns: seq<Txn>): (ops: seq<Op>)
    ensures |ops| == |txns|
  {
    if txns == [] then [] else Ops(txns[..|txns| - 1]) + [txns[|txns| - 1].op]
  }

  lemma {:induction false} OpsLegal(txns: seq<Txn>)
    requires AllProper(txns)
    ensures AllLegal(Ops(txns))
  {
    if txns != [] {
      OpsLegal(txns[..|txns| - 1]);
      assert Proper(txns[|txns| - 1]);
    }
  }

  // On a table in step with its ledger, a sweep that goes through does what
  // the sequential operation does exactly when its selection is current.
  lemma {:induction false} SweepExactIff(H: HashFn, db: Db, x: Txn)
    requires Proper(x) && x.Swept? && Mirrored(db) && ReapRows(H, db, x.picked, x.op.stamp).Some?
    ensures Effect(H, db, x) == Apply(H, db, x.op) <==> Current(db, x)
  {
    hide Less;
    hide Iso;
    hide Json.Loads;
    hide ReapFrom;
    hide ReapRows;
    hide Fold;
    var cutoff := WindowCutoff(x.op.now, x.op.olderThan);
    assert db.requests[0..] == db.requests;
    SweepIsReap(H, db, 0, cutoff, x.op.stamp);
    PickedParse(H, db, db.requests, cutoff, x.op.stamp);
    SweepsAlikeIff(H, db, x.picked, PickedFor(db, x.op), x.op.stamp);
  }

  lemma {:induction false} ReapRowsParse(H: HashFn, db: Db, picked: seq<Request>, stamp: Instant)
    requires forall i :: 0 <= i < |picked| ==> ParamsParse(picked[i])
    ensures ReapRows(H, db, picked, stamp).Some?
  {
    hide LogEvent;
    hide Json.Loads;
    if picked != [] {
      ReapRowsParse(H, db, picked[..|picked| - 1], stamp);
      assert ParamsParse(picked[|picked| - 1]);
    }
  }

  lemma {:induction false} PickedAmong(rows: seq<Request>, cutoff: string)
    ensures forall i :: 0 <= i < |Picked(rows, cutoff)| ==> Picked(rows, cutoff)[i] in rows
  {
    hide Stale;
    if rows != [] { PickedAmong(rows[1..], cutoff); }
  }

  lemma PickedParse(H: HashFn, db: Db, rows: seq<Request>, cutoff: string, stamp: Instant)
    requires forall i :: 0 <= i < |rows| ==> ParamsParse(rows[i])
    ensures ReapRows(H, db, Picked(rows, cutoff), stamp).Some?
  {
    hide ReapRows;
    hide Picked;
    hide ParamsParse;
    PickedAmong(rows, cutoff);
    ReapRowsParse(H, db, Picked(rows, cutoff), stamp);
  }

  lemma {:induction false} CurrentIsOps(H: HashFn, txns: seq<Txn>)
    requires AllProper(txns) && AllCurrent(H, txns)
    ensures AllLegal(Ops(txns)) && Replay(H, txns) == Exec(H, Ops(txns)) && Mirrored(Replay(H, txns))
  {
    hide Apply;
    hide Effect;
    hide Mirrored;
    hide SameSweep;
    OpsLegal(txns);
    if txns == [] {
      TableIsReplay(H, []);
    } else {
      var front, x := txns[..|txns| - 1], txns[|txns| - 1];
      CurrentIsOps(H, front);
      assert Proper(x) && Ops(txns)[..|txns| - 1] == Ops(front);
      CurrentEffect(H, Replay(H, front), x);
      StepMirrored(H, Replay(H, front), x.op);
    }
  }

  lemma CurrentEffect(H: HashFn, db: Db, x: Txn)
    requires Proper(x) && Mirrored(db) && Current(db, x)
    ensures Effect(H, db, x) == Apply(H, db, x.op)
  {
    hide Apply;
    hide Mirrored;
    hide ReapRows;
    hide PickedFor;
    if x.Swept? {
      CurrentParses(H, db, x);
      SweepExactIff(H, db, x);
    }
  }

  lemma CurrentParses(H: HashFn, db: Db, x: Txn)
    requires Proper(x) && x.Swept? && Mirrored(db) && Current(db, x)
    ensures ReapRows(H, db, x.picked, x.op.stamp).Some?
  {
    hide Less;
    hide Iso;
    hide ReapRows;
    hide Fold;
    hide Json.Loads;
    PickedParse(H, db, db.requests, WindowCutoff(x.op.now, x.op.olderThan), x.op.stamp);
    SameSweepSame(H, db, x.picked, PickedFor(db, x.op), x.op.stamp);
  }

  // When every sweep's selection was still current as it took the lock, an
  // interleaving is a run of plain operations: whatever is proved of those
  // holds of it, the table replaying from the ledger among the rest.
  lemma {:induction false} CurrentSerializes(H: HashFn, actions: seq<Action>)
    requires AllProper(RunAll(H, actions).history) && AllCurrent(H, RunAll(H, actions).history)
    ensures var s := RunAll(H, actions);
            AllLegal(Ops(s.history)) && s.committed == Exec(H, Ops(s.history)) && Mirrored(s.committed)
  {
    hide RunAll;
    hide Replay;
    hide Exec;
    hide Mirrored;
    Serializable(H, actions);
    CurrentIsOps(H, RunAll(H, actions).history);
  }

  // The one pending row that is old enough, selected for a sweep; then its
  // payment settles; then the sweep takes the lock. The approved row is
  // denied, keeps its transaction, and no longer is what its ledger says.
  lemma {:induction false} LateSweepDenies(
      H: HashFn, db: Db, op: Op, k: nat, why: string, tx: string, stamp: Instant)
    requires Legal(op) && op.OpReap? && Mirrored(db)
    requires k < |db.requests| && PickedFor(db, op) == [db.requests[k]]
    ensures var paid := Apply(H, db, OpFinalize(db.requests[k].id, Approved, why, Some(tx), stamp));
            && Mirrored(paid) && Shows(paid, k, Approved, tx)
            && var after := Effect(H, paid, Swept(PickedFor(db, op), op));
               Shows(after, k, Denied, tx) && !Mirrored(after)
  {
    hide LogEvent;
    hide Json.Loads;
    hide Mirrored;
    hide PickedFor;
    hide ReapRow;
    hide Store.Finalize;
    var r := db.requests[k];
    assert ParamsParse(r) by { RowParses(db, k); }
    var paid := Apply(H, db, OpFinalize(r.id, Approved, why, Some(tx), stamp));
    StepMirrored(H, db, OpFinalize(r.id, Approved, why, Some(tx), stamp));
    PaidRow(H, db, k, why, tx, stamp);
    OneRow(H, paid, r, op.stamp);
    OverwrittenRow(H, paid, k, r, op.stamp);
  }

  predicate Shows(db: Db, k: nat, decision: Decision, tx: string) {
    k < |db.requests| && db.requests[k].decision == decision && db.requests[k].txId == Some(tx)
  }

  lemma RowParses(db: Db, k: nat)
    requires Mirrored(db) && k < |db.requests|
    ensures ParamsParse(db.requests[k])
  {
    hide Fold;
    hide ParamsParse;
  }

  lemma PaidRow(H: HashFn, db: Db, k: nat, why: string, tx: string, stamp: Instant)
    requires Mirrored(db) && k < |db.requests|
    ensures var r := db.requests[k];
            Apply(H, db, OpFinalize(r.id, Approved, why, Some(tx), stamp)).requests
              == db.requests[k := r.(decision := Approved, reason := why, txId := Some(tx))]
  {
    hide Json.Loads;
    hide LogEvent;
    hide Fold;
    hide DecidedFields;
    var r := db.requests[k];
    assert ParamsParse(r) && RowIndex(db.requests, r.id) == k;
    var r' := r.(decision := Approved, reason := why, txId := Some(tx));
    Limits.LogOnly(H, db.(requests := db.requests[k := r']), DECIDED,
                   DecidedFields(r.id, r.agent, r.action, r.amount, Json.Loads(r.params).value, Approved, why, Some(tx)), stamp);
  }

  lemma OneRow(H: HashFn, db: Db, r: Request, stamp: Instant)
    ensures ReapRows(H, db, [r], stamp) == ReapRow(H, db, r, stamp)
  {
    hide ReapRow;
    assert [r][..0] == [];
    assert ReapRows(H, db, [], stamp) == Some(db);
  }

  // A row that carries a transaction, swept on an older reading of it.
  lemma OverwrittenRow(H: HashFn, db: Db, k: nat, r: Request, stamp: Instant)
    requires Mirrored(db) && k < |db.requests| && db.requests[k].id == r.id && db.requests[k].txId.Some? && ParamsParse(r)
    ensures ReapRow(H, db, r, stamp).Some?
    ensures var after := ReapRow(H, db, r, stamp).value;
            && k < |after.requests| && after.requests[k].decision == Denied && after.requests[k].txId == db.requests[k].txId
            && !Mirrored(after)
  {
    hide Json.Loads;
    hide LogEvent;
    hide Fold;
    hide DecidedFields;
    hide ReadChange;
    var after := ReapRow(H, db, r, stamp).value;
    var p := Json.Loads(r.params).value;
    assert RowIndex(db.requests, r.id) == k;
    var mid := db.(requests := ReapedTable(db.requests, r));
    Limits.LogOnly(H, mid, DECIDED, AbandonedFields(r, p), stamp);
    FoldLogged(H, mid, DECIDED, AbandonedFields(r, p), stamp);
    ReadBackDecided(r.id, r.agent, r.action, r.amount, p, Denied, ABANDONED, None);
    var views, v := Fold(db.events), RowView(r.id, r.agent, r.action, r.amount, p, Denied, None);
    assert views[k].id == r.id;
    assert Fold(after.events) == Replace(views, v);
    assert Replace(views, v)[k].txId == None;
  }

  // ---- the count a reset records ----

  // The transactions with every reset counting the table it empties.
  function Recounted(H: HashFn, txns: seq<Txn>): (counted: seq<Txn>)
    requires AllProper(txns)
    ensures AllProper(counted) && |counted| == |txns|
  {
    if txns == [] then []
    else
      var front, x := txns[..|txns| - 1], txns[|txns| - 1];
      assert Proper(x);
      Recounted(H, front) + [if x.op.OpReset? then Ran(x.op.(cleared := |Replay(H, front).requests|)) else x]
  }

  // The same event but for its hashes, and for the count of a reset.
  predicate SameButCount(e: Event, f: Event) {
    e.seqNo == f.seqNo && e.timestamp == f.timestamp && e.eventType == f.eventType && (e.payload == f.payload || e.eventType == RESET)
  }

  ghost predicate Alike(a: Db, b: Db) {
    && a.(events := []) == b.(events := []) && |a.events| == |b.events|
    && forall i :: 0 <= i < |a.events| ==> SameButCount(a.events[i], b.events[i])
  }

  lemma LogAlike(H: HashFn, a: Db, b: Db, eventType: string, v: Json.Value, w: Json.Value, stamp: Instant)
    requires Alike(a, b) && (v == w || eventType == RESET)
    ensures Alike(LogEvent(H, a, eventType, v, stamp), LogEvent(H, b, eventType, w, stamp))
  {
    hide Iso;
    hide Json.Dumps;
    hide Link;
  }

  lemma InTwoAlike(H: HashFn, a: Db, b: Db, op: Op, op': Op)
    requires Alike(a, b) && TwoPart(op) && (op' == op || (op.OpReset? && op'.OpReset? && op'.stamp == op.stamp))
    ensures match InTwo(H, a, op)
            case None => InTwo(H, b, op') == None
            case Some(after) => InTwo(H, b, op').Some? && Alike(after, InTwo(H, b, op').value)
  {
    hide LogEvent;
    hide Json.Loads;
    hide DecidedFields;
    hide ReservedFields;
    hide Iso;
    hide CanonicalParams;
    hide SameButCount;
    var c, d := Statements.Change(a, op), Statements.Change(b, op');
    assert Alike(c, d);
    match Entry(c, op) {
      case None => assert Entry(d, op') == None;
      case Some((eventType, payload)) =>
        assert Entry(d, op').Some? && Entry(d, op').value.0 == eventType;
        LogAlike(H, c, d, eventType, payload, Entry(d, op').value.1, op.stamp);
    }
  }

  lemma {:induction false} SweepAlike(H: HashFn, a: Db, b: Db, picked: seq<Request>, stamp: Instant)
    requires Alike(a, b)
    ensures match ReapRows(H, a, picked, stamp)
            case None => ReapRows(H, b, picked, stamp) == None
            case Some(after) => ReapRows(H, b, picked, stamp).Some? && Alike(after, ReapRows(H, b, picked, stamp).value)
  {
    hide LogEvent;
    hide Json.Loads;
    hide DecidedFields;
    hide SameButCount;
    if picked != [] {
      var n := |picked| - 1;
      SweepAlike(H, a, b, picked[..n], stamp);
      var mid := ReapRows(H, a, picked[..n], stamp);
      if mid.Some? && Json.Loads(picked[n].params).Some? {
        var c, d := mid.value, ReapRows(H, b, picked[..n], stamp).value;
        var rows := ReapedTable(c.requests, picked[n]);
        LogAlike(H, c.(requests := rows), d.(requests := rows), DECIDED,
                 AbandonedFields(picked[n], Json.Loads(picked[n].params).value),
                 AbandonedFields(picked[n], Json.Loads(picked[n].params).value), stamp);
      }
    }
  }

  lemma SameTest(a: Db, b: Db, ask: Ask, now: Instant)
    requires a.(events := []) == b.(events := []) && ask.window * US <= now
    ensures Test(a, ask, now) == Test(b, ask, now)
  {
    hide Iso;
    hide Pow2;
    assert a.requests == b.requests && a.lastId == b.lastId;
  }

  lemma EffectAlike(H: HashFn, a: Db, b: Db, x: Txn, y: Txn)
    requires Alike(a, b) && Proper(x) && Proper(y)
    requires x == y || (x.op.OpReset? && y.op.OpReset? && x.op.stamp == y.op.stamp)
    ensures Alike(Effect(H, a, x), Effect(H, b, y))
  {
    hide Apply;
    hide LogEvent;
    hide ReapRows;
    hide Test;
    hide InTwo;
    hide SameButCount;
    if x.Swept? {
      SweepAlike(H, a, b, x.picked, x.op.stamp);
    } else if x.op.OpEvent? {
      EventApplies(H, a, x.op);
      EventApplies(H, b, x.op);
      LogAlike(H, a, b, x.op.eventType, x.op.payload, x.op.payload, x.op.stamp);
    } else {
      if x.op.OpReserve? { SameTest(a, b, x.op.ask, x.op.now); }
      if x.op.OpReserve? && !Test(a, x.op.ask, x.op.now).Admitted? {
        RejectedChangesNothing(H, a, x.op);
        RejectedChangesNothing(H, b, x.op);
      } else {
        AppliesInTwo(H, a, x.op);
        AppliesInTwo(H, b, y.op);
        InTwoAlike(H, a, b, x.op, y.op);
      }
    }
  }

  lemma EventApplies(H: HashFn, db: Db, op: Op)
    requires Legal(op) && op.OpEvent?
    ensures Apply(H, db, op) == LogEvent(H, db, op.eventType, op.payload, op.stamp)
  {
  }

  lemma {:induction false} RecountedAlike(H: HashFn, txns: seq<Txn>)
    requires AllProper(txns)
    ensures Alike(Replay(H, txns), Replay(H, Recounted(H, txns)))
  {
    hide Effect;
    hide SameButCount;
    if txns != [] {
      var front, x := txns[..|txns| - 1], txns[|txns| - 1];
      RecountedAlike(H, front);
      var counted := Recounted(H, txns);
      assert counted[..|txns| - 1] == Recounted(H, front);
      assert Proper(x) && Proper(counted[|txns| - 1]);
      EffectAlike(H, Replay(H, front), Replay(H, Recounted(H, front)), x, counted[|txns| - 1]);
    }
  }

  // Counts aside, nothing shows that a reset counted before it had the lock:
  // with every count taken afresh the transactions give the same tables and
  // the same events -- and the very same database when every count was right.
  lemma {:induction false} CountsAside(H: HashFn, actions: seq<Action>)
    requires AllProper(RunAll(H, actions).history)
    ensures var s := RunAll(H, actions);
            && Alike(s.committed, Replay(H, Recounted(H, s.history)))
            && (Recounted(H, s.history) == s.history ==> s.committed == Replay(H, Recounted(H, s.history)))
  {
    hide RunAll;
    hide Replay;
    hide Alike;
    Serializable(H, actions);
    RecountedAlike(H, RunAll(H, actions).history);
  }

  // A reset's count is the size of the table it empties exactly when rows
  // have not come or gone since it was read.
  lemma {:induction false} CountRightIff(H: HashFn, actions: seq<Action>, t: Tid, stamp: Instant, between: seq<Action>)
    requires At(RunAll(H, actions), t) == Idle
    requires forall a :: a in between ==> a.t != t
    ensures var read := RunAll(H, actions);
            var s := RunAll(H, actions + [ReadCount(t, stamp)] + between);
            At(s, t) == CountRead(OpReset(|read.committed.requests|, stamp))
            && (s.lock == None ==>
                  var s' := Fire(H, s, Delete(t));
                  && At(s', t).Changed? && At(s', t).op.OpReset?
                  && (At(s', t).op.cleared == |s.committed.requests| <==> |read.committed.requests| == |s.committed.requests|))
  {
    hide RunAll;
    var asked := actions + [ReadCount(t, stamp)];
    var s0 := RunAll(H, asked);
    OneMore(H, actions, ReadCount(t, stamp));
    OthersLeave(H, asked, between, t);
  }

  lemma OneMore(H: HashFn, actions: seq<Action>, a: Action)
    ensures RunAll(H, actions + [a]) == Fire(H, RunAll(H, actions), a)
  {
    hide Fire;
    assert (actions + [a])[..|actions|] == actions;
  }

  lemma {:induction false} OthersLeave(H: HashFn, actions: seq<Action>, between: seq<Action>, t: Tid)
    requires forall a :: a in between ==> a.t != t
    ensures At(RunAll(H, actions + between), t) == At(RunAll(H, actions), t)
  {
    hide RunAll;
    hide Fire;
    if between == [] {
      assert actions + between == actions;
    } else {
      var n := |between| - 1;
      OthersLeave(H, actions, between[..n], t);
      assert actions + between == actions + between[..n] + [between[n]];
      OneMore(H, actions + between[..n], between[n]);
      OtherLeaves(H, RunAll(H, actions + between[..n]), between[n], t);
    }
  }

  lemma OtherLeaves(H: HashFn, s: System, a: Action, t: Tid)
    requires a.t != t
    ensures At(Fire(H, s, a), t) == At(s, t)
  {
    hide LogEvent;
    hide ReapRow;
    hide Statements.Change;
    hide Entry;
    hide CountSince;
    hide SpentOn;
    hide Iso;
    hide Successor;
    hide PickedFor;
    hide InsertByKey;
    hide KeyTaken;
  }

  // ---- the daily cap, over threads ----

  predicate Guarded(db: Db, x: Txn) {
    Limits.Guarded(db, x.op) && Limits.NonNegative(x.op)
  }

  ghost predicate AllGuarded(H: HashFn, txns: seq<Txn>)
    requires AllProper(txns)
  {
    txns == [] || (AllGuarded(H, txns[..|txns| - 1]) && Guarded(Replay(H, txns[..|txns| - 1]), txns[|txns| - 1]))
  }

  ghost function LatestCap(H: HashFn, txns: seq<Txn>, agent: string, day: string): Option<Money>
    requires AllProper(txns)
  {
    if txns == [] then None
    else
      var front, x := txns[..|txns| - 1], txns[|txns| - 1];
      assert Proper(x);
      if x.op.OpReset? then None
      else if Limits.Admits(Replay(H, front), x.op, agent, day) then Some(x.op.ask.cap)
      else LatestCap(H, front, agent, day)
  }

  lemma {:induction false} SweepDenies(H: HashFn, db: Db, picked: seq<Request>, stamp: Instant)
    requires ReapRows(H, db, picked, stamp).Some?
    ensures Limits.OnlyDenies(db.requests, ReapRows(H, db, picked, stamp).value.requests)
  {
    hide LogEvent;
    hide Json.Loads;
    hide DecidedFields;
    if picked != [] {
      var n := |picked| - 1;
      SweepDenies(H, db, picked[..n], stamp);
      var mid := ReapRows(H, db, picked[..n], stamp).value;
      Limits.LogOnly(H, mid.(requests := ReapedTable(mid.requests, picked[n])), DECIDED,
                     AbandonedFields(picked[n], Json.Loads(picked[n].params).value), stamp);
    }
  }

  lemma EffectSpent(H: HashFn, db: Db, x: Txn, agent: string, day: string)
    requires Proper(x) && Guarded(db, x) && Limits.RowsNonNegative(db.requests)
    ensures var after := Effect(H, db, x);
            && Limits.RowsNonNegative(after.requests)
            && if x.op.OpReset? then SpentOn(after.requests, agent, day) == 0
               else if Limits.Admits(db, x.op, agent, day) then SpentOn(after.requests, agent, day) <= x.op.ask.cap + TOLERANCE
               else SpentOn(after.requests, agent, day) <= SpentOn(db.requests, agent, day)
  {
    hide Apply;
    hide ReapRows;
    hide Iso;
    hide SpentOn;
    hide Test;
    hide Pow2;
    match x
    case Ran(op) =>
      Limits.StepTable(H, db, op);
      Limits.StepSpent(db, op, Apply(H, db, op), agent, day);
    case Swept(picked, op) =>
      if ReapRows(H, db, picked, op.stamp).Some? {
        SweepDenies(H, db, picked, op.stamp);
        Limits.DeniesLower(db.requests, ReapRows(H, db, picked, op.stamp).value.requests, agent, day);
      }
  }

  lemma {:induction false} CapReplayed(H: HashFn, txns: seq<Txn>, agent: string, day: string)
    requires AllProper(txns) && AllGuarded(H, txns)
    ensures Limits.RowsNonNegative(Replay(H, txns).requests)
    ensures SpentOn(Replay(H, txns).requests, agent, day)
         <= match LatestCap(H, txns, agent, day) case Some(cap) => cap + TOLERANCE case None => 0
  {
    hide Effect;
    hide Guarded;
    hide SpentOn;
    hide Limits.Admits;
    hide Pow2;
    if txns == [] {
      Limits.NothingSpent(agent, day);
    } else {
      var front, x := txns[..|txns| - 1], txns[|txns| - 1];
      CapReplayed(H, front, agent, day);
      assert Proper(x);
      EffectSpent(H, Replay(H, front), x, agent, day);
    }
  }

  // Any number of threads, statement by statement, sweeps on old selections
  // included: the committed table of a guarded history never counts more for
  // an agent's UTC day than the cap of its latest admission, within the
  // tolerance.
  lemma {:induction false} CapHoldsOverThreads(H: HashFn, actions: seq<Action>, agent: string, day: string)
    requires AllProper(RunAll(H, actions).history) && AllGuarded(H, RunAll(H, actions).history)
    ensures var s := RunAll(H, actions);
            match LatestCap(H, s.history, agent, day)
            case Some(cap) => WithinCap(SpentOn(s.committed.requests, agent, day), cap)
            case None => SpentOn(s.committed.requests, agent, day) <= 0
  {
    hide RunAll;
    hide Replay;
    hide SpentOn;
    hide LatestCap;
    hide WithinCap;
    hide Pow2;
    Serializable(H, actions);
    var s := RunAll(H, actions);
    CapReplayed(H, s.history, agent, day);
    if LatestCap(H, s.history, agent, day).Some? {
      ToleratedWithin(SpentOn(s.committed.requests, agent, day), LatestCap(H, s.history, agent, day).value);
    }
  }
}
