/** When a sweep that was selected before it had the lock leaves table and
    ledger in step, and when it spares what was decided in the meantime. */
module LateSweep {
  import opened Text
  import opened Clock
  import opened Ledger
  import opened Anchor
  import opened Store
  import opened View
  import opened Sweep
  import opened Statements
  import opened Threads
  import opened Interleave
  import Json
  import Limits

  // ---- one sweep ----

  // What a selection always is: readable rows, each of its own id.
  predicate Selection(picked: seq<Request>) {
    && (forall i :: 0 <= i < |picked| ==> ParamsParse(picked[i]))
    && (forall i, j :: 0 <= i < j < |picked| ==> picked[i].id != picked[j].id)
  }

  predicate Among(picked: seq<Request>, id: int) {
    exists i :: 0 <= i < |picked| && picked[i].id == id
  }

  // The selected row is still there, is the call that was selected, and
  // carries no transaction.
  predicate Clean(db: Db, r: Request) {
    HasRow(db.requests, r.id) && SameEntry(db.requests[RowIndex(db.requests, r.id)], r)
    && db.requests[RowIndex(db.requests, r.id)].txId == None
  }

  // A trace that no later row of the sweep removes: the ledger tells of a row
  // that is gone, or something else of a row already swept.
  ghost predicate Broken(db: Db, done: seq<Request>) {
    var views := Fold(db.events);
    || |views| > |db.requests|
    || exists k :: 0 <= k < |db.requests| && k < |views| && views[k].id == db.requests[k].id && Among(done, db.requests[k].id)
         && ParamsParse(db.requests[k]) && views[k] != ViewOf(db.requests[k])
  }

  lemma BrokenShows(db: Db, done: seq<Request>)
    requires Broken(db, done)
    ensures !Mirrored(db)
  {
    hide Fold;
    hide ViewOf;
    hide ParamsParse;
    hide Among;
  }

  function AbandonedView(r: Request): RowView
    requires ParamsParse(r)
  {
    RowView(r.id, r.agent, r.action, r.amount, Json.Loads(r.params).value, Denied, None)
  }

  // What one row of a sweep does to the table and to the replay.
  lemma SweptRow(H: HashFn, db: Db, r: Request, stamp: Instant)
    requires ParamsParse(r)
    ensures ReapRow(H, db, r, stamp).Some?
    ensures var after, views := ReapRow(H, db, r, stamp).value, Fold(db.events);
            && after.requests == ReapedTable(db.requests, r) && after.lastId == db.lastId
            && Fold(after.events) == if Listed(views, r.id) then Replace(views, AbandonedView(r)) else views + [AbandonedView(r)]
  {
    hide Json.Loads;
    hide LogEvent;
    hide Fold;
    hide DecidedFields;
    hide ReadChange;
    hide ReapedTable;
    var p := Json.Loads(r.params).value;
    var mid := db.(requests := ReapedTable(db.requests, r));
    Limits.LogOnly(H, mid, DECIDED, AbandonedFields(r, p), stamp);
    FoldLogged(H, mid, DECIDED, AbandonedFields(r, p), stamp);
    ReadBackDecided(r.id, r.agent, r.action, r.amount, p, Denied, ABANDONED, None);
  }

  lemma BrokenStays(H: HashFn, db: Db, done: seq<Request>, r: Request, stamp: Instant)
    requires Broken(db, done) && ParamsParse(r) && !Among(done, r.id) && ReapRow(H, db, r, stamp).Some?
    ensures Broken(ReapRow(H, db, r, stamp).value, done + [r])
  {
    hide ReapRow;
    hide Fold;
    hide ViewOf;
    hide ParamsParse;
    hide Json.Loads;
    SweptRow(H, db, r, stamp);
    var after, views, views' := ReapRow(H, db, r, stamp).value, Fold(db.events), Fold(ReapRow(H, db, r, stamp).value.events);
    if |views| <= |db.requests| {
      var k :| 0 <= k < |db.requests| && k < |views| && views[k].id == db.requests[k].id && Among(done, db.requests[k].id)
        && ParamsParse(db.requests[k]) && views[k] != ViewOf(db.requests[k]);
      AmongMore(done, r, db.requests[k].id);
      assert after.requests[k] == db.requests[k] && views'[k] == views[k];
    }
  }

  lemma AmongMore(done: seq<Request>, r: Request, id: int)
    ensures Among(done + [r], id) <==> Among(done, id) || r.id == id
  {
    if Among(done, id) {
      var i :| 0 <= i < |done| && done[i].id == id;
      assert (done + [r])[i].id == id;
    }
    if r.id == id { assert (done + [r])[|done|].id == id; }
  }

  lemma CleanStaysMirrored(H: HashFn, db: Db, r: Request, stamp: Instant)
    requires Mirrored(db) && ParamsParse(r) && Clean(db, r) && ReapRow(H, db, r, stamp).Some?
    ensures Mirrored(ReapRow(H, db, r, stamp).value)
  {
    hide Json.Loads;
    hide ReapRow;
    hide Fold;
    SweptRow(H, db, r, stamp);
    var k := RowIndex(db.requests, r.id);
    var row := db.requests[k].(decision := Denied, reason := ABANDONED);
    assert AbandonedView(r) == ViewOf(row);
    SettleRow(db, Fold(db.events), k, row);
  }

  lemma UncleanBreaks(H: HashFn, db: Db, done: seq<Request>, r: Request, stamp: Instant)
    requires Mirrored(db) && ParamsParse(r) && !Clean(db, r) && ReapRow(H, db, r, stamp).Some?
    ensures Broken(ReapRow(H, db, r, stamp).value, done + [r])
  {
    hide Json.Loads;
    hide ReapRow;
    hide Fold;
    SweptRow(H, db, r, stamp);
    var after, views := ReapRow(H, db, r, stamp).value, Fold(db.events);
    AmongMore(done, r, r.id);
    if HasRow(db.requests, r.id) {
      var k := RowIndex(db.requests, r.id);
      assert views[k].id == r.id;
      assert Fold(after.events)[k] == AbandonedView(r) != ViewOf(after.requests[k]);
    } else {
      assert !Listed(views, r.id);
    }
  }

  // A swept row is no other row's business.
  lemma OthersCleanStay(H: HashFn, db: Db, r: Request, q: Request, stamp: Instant)
    requires Numbered(db) && ParamsParse(r) && r.id != q.id && ReapRow(H, db, r, stamp).Some?
    ensures Clean(ReapRow(H, db, r, stamp).value, q) <==> Clean(db, q)
  {
    hide ReapRow;
    hide Fold;
    hide SameEntry;
    hide ParamsParse;
    SweptRow(H, db, r, stamp);
    var after := ReapRow(H, db, r, stamp).value;
    assert forall i :: 0 <= i < |db.requests| ==> after.requests[i].id == db.requests[i].id;
    if HasRow(db.requests, q.id) {
      var k := RowIndex(db.requests, q.id);
      assert after.requests[k] == db.requests[k];
    }
  }

  // Either every row of the selection is clean and the sweep keeps table and
  // ledger in step, or it breaks them for good.
  lemma {:induction false} SweepOutcome(H: HashFn, db: Db, picked: seq<Request>, stamp: Instant)
    requires Mirrored(db) && Selection(picked)
    ensures ReapRows(H, db, picked, stamp).Some?
    ensures var after := ReapRows(H, db, picked, stamp).value;
            if forall i :: 0 <= i < |picked| ==> Clean(db, picked[i])
            then Mirrored(after) && forall q: Request :: !Among(picked, q.id) ==> (Clean(after, q) <==> Clean(db, q))
            else Broken(after, picked)
  {
    hide ReapRow;
    hide Mirrored;
    hide Broken;
    hide Clean;
    hide ParamsParse;
    hide Among;
    if picked == [] {
      assert ReapRows(H, db, picked, stamp) == Some(db);
    } else {
      var n := |picked| - 1;
      var done, r := picked[..n], picked[n];
      assert Selection(done) && ParamsParse(r);
      SweepOutcome(H, db, done, stamp);
      assert done + [r] == picked;
      var mid := ReapRows(H, db, done, stamp).value;
      SweptRow(H, mid, r, stamp);
      NotAmong(picked);
      if forall i :: 0 <= i < n ==> Clean(db, done[i]) {
        if Clean(mid, r) {
          CleanStaysMirrored(H, mid, r, stamp);
          MirroredIds(mid);
          forall q: Request | !Among(picked, q.id)
            ensures Clean(ReapRow(H, mid, r, stamp).value, q) <==> Clean(db, q)
          {
            AmongMore(done, r, q.id);
            OthersCleanStay(H, mid, r, q, stamp);
          }
        } else {
          UncleanBreaks(H, mid, done, r, stamp);
        }
      } else {
        BrokenStays(H, mid, done, r, stamp);
      }
    }
  }

  lemma NotAmong(picked: seq<Request>)
    requires Selection(picked) && picked != []
    ensures !Among(picked[..|picked| - 1], picked[|picked| - 1].id)
  {
    hide ParamsParse;
  }

  lemma MirroredIds(db: Db)
    requires Mirrored(db)
    ensures Numbered(db)
  {
  }

  // A sweep of a table in step with its ledger leaves them in step exactly
  // when every row it selected is still there and carries no transaction.
  lemma {:induction false} SweepMirrorsIff(H: HashFn, db: Db, picked: seq<Request>, stamp: Instant)
    requires Mirrored(db) && Selection(picked)
    ensures ReapRows(H, db, picked, stamp).Some?
    ensures Mirrored(ReapRows(H, db, picked, stamp).value) <==> forall r :: r in picked ==> Clean(db, r)
  {
    hide ReapRows;
    hide Mirrored;
    hide Broken;
    hide Clean;
    hide Selection;
    SweepOutcome(H, db, picked, stamp);
    if !forall i :: 0 <= i < |picked| ==> Clean(db, picked[i]) {
      BrokenShows(ReapRows(H, db, picked, stamp).value, picked);
    }
  }

  // ---- what a sweep spares ----

  // The row of the id, if there is one, is pending, or abandoned already.
  predicate Spareable(db: Db, r: Request) {
    HasRow(db.requests, r.id) ==>
      var row := db.requests[RowIndex(db.requests, r.id)];
      row.decision == Pending || (row.decision == Denied && row.reason == ABANDONED)
  }

  lemma {:induction false} SweptTable(H: HashFn, db: Db, picked: seq<Request>, stamp: Instant, k: nat)
    requires Numbered(db) && Selection(picked) && k < |db.requests| && ReapRows(H, db, picked, stamp).Some?
    ensures var after := ReapRows(H, db, picked, stamp).value;
            && |after.requests| == |db.requests| && after.lastId == db.lastId
            && (forall i :: 0 <= i < |db.requests| ==> after.requests[i].id == db.requests[i].id)
            && after.requests[k] ==
                 if Among(picked, db.requests[k].id) then db.requests[k].(decision := Denied, reason := ABANDONED) else db.requests[k]
  {
    hide ReapRow;
    hide ParamsParse;
    hide Fold;
    if picked != [] {
      var n := |picked| - 1;
      var done, r := picked[..n], picked[n];
      assert Selection(done) && ParamsParse(r) && done + [r] == picked;
      SweptTable(H, db, done, stamp, k);
      var mid := ReapRows(H, db, done, stamp).value;
      SweptRow(H, mid, r, stamp);
      AmongMore(done, r, db.requests[k].id);
    }
  }

  // A sweep changes no row that was resolved by then exactly when each of its
  // selected rows is gone, still pending, or abandoned already.
  lemma {:induction false} SweepSparesIff(H: HashFn, db: Db, picked: seq<Request>, stamp: Instant)
    requires Numbered(db) && Selection(picked) && ReapRows(H, db, picked, stamp).Some?
    ensures |ReapRows(H, db, picked, stamp).value.requests| == |db.requests|
    ensures (forall k :: 0 <= k < |db.requests| && db.requests[k].decision != Pending
               ==> ReapRows(H, db, picked, stamp).value.requests[k] == db.requests[k])
       <==> forall r :: r in picked ==> Spareable(db, r)
  {
    hide ReapRows;
    hide Selection;
    hide Among;
    var after := ReapRows(H, db, picked, stamp).value;
    SweptLength(H, db, picked, stamp);
    forall k | 0 <= k < |db.requests|
      ensures after.requests[k] == if Among(picked, db.requests[k].id) then db.requests[k].(decision := Denied, reason := ABANDONED) else db.requests[k]
    {
      SweptTable(H, db, picked, stamp, k);
    }
    if forall r :: r in picked ==> Spareable(db, r) {
      forall k | 0 <= k < |db.requests| && db.requests[k].decision != Pending ensures after.requests[k] == db.requests[k] {
        if Among(picked, db.requests[k].id) { AmongRow(db, picked, k); }
      }
    } else {
      var r :| r in picked && !Spareable(db, r);
      InAmong(picked, r);
      var k := RowIndex(db.requests, r.id);
      assert after.requests[k] != db.requests[k];
    }
  }

  lemma {:induction false} SweptLength(H: HashFn, db: Db, picked: seq<Request>, stamp: Instant)
    requires ReapRows(H, db, picked, stamp).Some?
    ensures |ReapRows(H, db, picked, stamp).value.requests| == |db.requests|
  {
    hide LogEvent;
    hide Json.Loads;
    hide DecidedFields;
    SweepDenies(H, db, picked, stamp);
  }

  lemma AmongRow(db: Db, picked: seq<Request>, k: nat)
    requires Numbered(db) && k < |db.requests| && Among(picked, db.requests[k].id)
    ensures exists r :: r in picked && r.id == db.requests[k].id && HasRow(db.requests, r.id) && RowIndex(db.requests, r.id) == k
  {
    var i :| 0 <= i < |picked| && picked[i].id == db.requests[k].id;
    assert picked[i] in picked && HasRow(db.requests, picked[i].id);
  }

  lemma InAmong(picked: seq<Request>, r: Request)
    requires r in picked
    ensures Among(picked, r.id)
  {
  }

  // ---- what every interleaving keeps, broken or not ----

  ghost predicate Tidy(db: Db) {
    Numbered(db) && forall i :: 0 <= i < |db.requests| ==> ParamsParse(db.requests[i])
  }

  lemma DeniedParses(H: HashFn, db: Db, op: Op)
    requires Legal(op) && op.OpDeny?
    ensures Apply(H, db, op).requests == db.requests + [DeniedRow(db, op)] && ParamsParse(DeniedRow(db, op))
  {
    hide LogEvent;
    hide Json.Loads;
    hide Iso;
    CanonicalParse(op.params);
    var r := DeniedRow(db, op);
    Limits.LogOnly(H, db.(requests := db.requests + [r], lastId := r.id), DECIDED,
                   DecidedFields(r.id, r.agent, r.action, r.amount, ParamsValue(op.params), r.decision, r.reason, r.txId), op.stamp);
  }

  lemma TidyOp(H: HashFn, db: Db, op: Op)
    requires Tidy(db) && Legal(op)
    ensures Tidy(Apply(H, db, op))
  {
    hide Apply;
    hide Json.Loads;
    hide Iso;
    hide CountSince;
    hide SpentOn;
    hide Pow2;
    hide CanonicalParams;
    var after := Apply(H, db, op);
    Limits.StepTable(H, db, op);
    match op
    case OpDeny(_, _, _, _, _, _, _) => DeniedParses(H, db, op);
    case OpReserve(ask, _, _) => CanonicalParse(ask.params);
    case OpFinalize(id, _, _, _, _) =>
      assert after.requests != db.requests ==> Limits.SameRequest(db.requests[RowIndex(db.requests, id)], after.requests[RowIndex(db.requests, id)]);
    case OpReap(_, _, _) => assert forall i :: 0 <= i < |db.requests| ==> Limits.SameRequest(db.requests[i], after.requests[i]);
    case _ =>
  }

  lemma {:induction false} TidySweep(H: HashFn, db: Db, picked: seq<Request>, stamp: Instant)
    requires Tidy(db) && ReapRows(H, db, picked, stamp).Some?
    ensures Tidy(ReapRows(H, db, picked, stamp).value)
  {
    hide LogEvent;
    hide Json.Loads;
    hide DecidedFields;
    if picked != [] {
      var n := |picked| - 1;
      TidySweep(H, db, picked[..n], stamp);
      var mid := ReapRows(H, db, picked[..n], stamp).value;
      Limits.LogOnly(H, mid.(requests := ReapedTable(mid.requests, picked[n])), DECIDED,
                     AbandonedFields(picked[n], Json.Loads(picked[n].params).value), stamp);
    }
  }

  lemma TidyEffect(H: HashFn, db: Db, x: Txn)
    requires Tidy(db) && Proper(x)
    ensures Tidy(Effect(H, db, x))
  {
    hide Tidy;
    hide Apply;
    hide ReapRows;
    match x
    case Ran(op) => TidyOp(H, db, op);
    case Swept(picked, op) => if ReapRows(H, db, picked, op.stamp).Some? { TidySweep(H, db, picked, op.stamp); }
  }

  lemma {:induction false} TidyReplay(H: HashFn, txns: seq<Txn>)
    requires AllProper(txns)
    ensures Tidy(Replay(H, txns))
  {
    hide Tidy;
    hide Effect;
    if txns == [] {
      TidyStart();
    } else {
      TidyReplay(H, txns[..|txns| - 1]);
      assert Proper(txns[|txns| - 1]);
      TidyEffect(H, Replay(H, txns[..|txns| - 1]), txns[|txns| - 1]);
    }
  }

  lemma TidyStart()
    ensures Tidy(EMPTY)
  {
  }

  // ---- selections are made of committed tables ----

  lemma {:induction false} PickedSelection(rows: seq<Request>, cutoff: string)
    requires forall i :: 0 <= i < |rows| ==> ParamsParse(rows[i])
    requires forall i, j :: 0 <= i < j < |rows| ==> rows[i].id < rows[j].id
    ensures Selection(Picked(rows, cutoff))
    ensures forall i :: 0 <= i < |Picked(rows, cutoff)| && rows != [] ==> Picked(rows, cutoff)[i].id >= rows[0].id
  {
    hide ParamsParse;
    hide Stale;
    if rows != [] {
      PickedSelection(rows[1..], cutoff);
    }
  }

  predicate PickedBy(pc: Pc) {
    match pc
    case PickRead(picked, _) => Selection(picked)
    case Sweeping(picked, _, _) => Selection(picked)
    case Done(Swept(picked, _)) => Selection(picked)
    case _ => true
  }

  ghost predicate Selected(s: System) {
    && (forall t :: t in s.pcs ==> PickedBy(s.pcs[t]))
    && (forall x: Txn :: x in s.history && x.Swept? ==> Selection(x.picked))
  }

  lemma SelectedStep(H: HashFn, s: System, a: Action)
    requires Selected(s) && Tidy(s.committed)
    ensures Selected(Fire(H, s, a))
  {
    hide Selection;
    hide LogEvent;
    hide ReapRow;
    hide Statements.Change;
    hide Entry;
    hide CountSince;
    hide SpentOn;
    hide Iso;
    hide Successor;
    hide InsertByKey;
    hide KeyTaken;
    hide PickedFor;
    var pc := At(s, a.t);
    assert PickedBy(pc);
    if a.ReadStale? && Legal(a.op) && a.op.OpReap? { PickedForSelection(s.committed, a.op); }
  }

  lemma PickedForSelection(db: Db, op: Op)
    requires Tidy(db) && Legal(op) && op.OpReap?
    ensures Selection(PickedFor(db, op))
  {
    hide Selection;
    hide Iso;
    PickedSelection(db.requests, WindowCutoff(op.now, op.olderThan));
  }

  lemma {:induction false} AlwaysSelected(H: HashFn, actions: seq<Action>)
    ensures Selected(RunAll(H, actions)) && Tidy(RunAll(H, actions).committed)
  {
    hide Fire;
    hide Selected;
    hide Tidy;
    hide Replay;
    Serializable(H, actions);
    TidyReplay(H, RunAll(H, actions).history);
    if actions == [] {
      SelectedStart();
    } else {
      AlwaysSelected(H, actions[..|actions| - 1]);
      SelectedStep(H, RunAll(H, actions[..|actions| - 1]), actions[|actions| - 1]);
    }
  }

  lemma SelectedStart()
    ensures Selected(START)
  {
  }

  // ---- a step commits nothing, or one transaction ----

  lemma CommitStep(H: HashFn, s: System, a: Action)
    requires Inv(H, s)
    ensures var s' := Fire(H, s, a);
            || (s'.history == s.history && s'.committed == s.committed)
            || exists x :: Proper(x) && s'.history == s.history + [x] && s'.committed == Effect(H, s.committed, x)
  {
    hide Inv;
    hide Effect;
    hide LogEvent;
    hide ReapRow;
    hide Statements.Change;
    hide Entry;
    hide CountSince;
    hide SpentOn;
    hide Iso;
    hide Successor;
    hide InsertByKey;
    hide KeyTaken;
    hide PickedFor;
    hide Honest;
    hide WasHead;
    hide ReapRows;
    hide Pow2;
    Placed(H, s, a.t);
    var pc := At(s, a.t);
    match a
    case TestRate(_) =>
      if pc.Working? && pc.op.OpReserve? && Test(s.committed, pc.op.ask, pc.op.now).OverVelocity? {
        RejectedChangesNothing(H, s.committed, pc.op);
        assert Proper(Ran(pc.op));
      }
    case TestCap(_) =>
      if pc.RateTested? && Test(s.committed, pc.op.ask, pc.op.now).OverCap? {
        RejectedChangesNothing(H, s.committed, pc.op);
        assert Proper(Ran(pc.op));
      }
    case Commit(_) => assert pc.Done? ==> Proper(pc.txn);
    case _ =>
  }

  // ---- table and ledger over a whole interleaving ----

  // A sweep, as committed, found every row of its selection clean.
  ghost predicate CleanTxn(db: Db, x: Txn) {
    x.Swept? ==> forall r :: r in x.picked ==> Clean(db, r)
  }

  ghost predicate AllClean(H: HashFn, txns: seq<Txn>)
    requires AllProper(txns)
  {
    txns == [] || (AllClean(H, txns[..|txns| - 1]) && CleanTxn(Replay(H, txns[..|txns| - 1]), txns[|txns| - 1]))
  }

  lemma CleanEffect(H: HashFn, db: Db, x: Txn)
    requires Proper(x) && Mirrored(db) && (x.Swept? ==> Selection(x.picked))
    ensures Mirrored(Effect(H, db, x)) <==> CleanTxn(db, x)
  {
    hide Apply;
    hide ReapRows;
    hide Mirrored;
    hide Clean;
    hide Selection;
    match x
    case Ran(op) => StepMirrored(H, db, op);
    case Swept(picked, op) => SweepMirrorsIff(H, db, picked, op.stamp);
  }

  lemma AllCleanMore(H: HashFn, txns: seq<Txn>, x: Txn)
    requires AllProper(txns) && Proper(x)
    ensures AllProper(txns + [x]) && Replay(H, txns + [x]) == Effect(H, Replay(H, txns), x)
    ensures AllClean(H, txns + [x]) <==> AllClean(H, txns) && CleanTxn(Replay(H, txns), x)
  {
    hide Effect;
    hide CleanTxn;
    assert (txns + [x])[..|txns|] == txns;
  }

  ghost predicate AlwaysMirrored(H: HashFn, actions: seq<Action>) {
    forall n: nat :: n <= |actions| ==> Mirrored(RunAll(H, actions[..n]).committed)
  }

  // In every state of an interleaving the committed table is the replay of
  // its ledger, if and only if every sweep it committed found each row it had
  // selected still there, the same call, and without a transaction.
  lemma {:induction false} AlwaysReplaysIff(H: HashFn, actions: seq<Action>)
    ensures AllProper(RunAll(H, actions).history)
    ensures AlwaysMirrored(H, actions) <==> AllClean(H, RunAll(H, actions).history)
  {
    hide Fire;
    hide Replay;
    hide Effect;
    hide Mirrored;
    hide CleanTxn;
    hide Selection;
    hide Proper;
    hide AlwaysMirrored;
    Serializable(H, actions);
    if actions == [] {
      StartMirrored(H);
    } else {
      var front, a := actions[..|actions| - 1], actions[|actions| - 1];
      var s, s' := RunAll(H, front), RunAll(H, actions);
      AlwaysReplaysIff(H, front);
      Serializable(H, front);
      AlwaysSelected(H, actions);
      AlwaysInv(H, front);
      CommitStep(H, s, a);
      MirroredMore(H, actions);
      if s'.history != s.history || s'.committed != s.committed {
        var x :| Proper(x) && s'.history == s.history + [x] && s'.committed == Effect(H, s.committed, x);
        assert x in s'.history;
        AllCleanMore(H, s.history, x);
        if Mirrored(s.committed) { CleanEffect(H, s.committed, x); }
      }
    }
  }

  // The states of a run are those of its front, and its last.
  lemma MirroredMore(H: HashFn, actions: seq<Action>)
    requires actions != []
    ensures AlwaysMirrored(H, actions) <==>
              AlwaysMirrored(H, actions[..|actions| - 1]) && Mirrored(RunAll(H, actions).committed)
    ensures AlwaysMirrored(H, actions[..|actions| - 1]) ==> Mirrored(RunAll(H, actions[..|actions| - 1]).committed)
  {
    hide RunAll;
    hide Mirrored;
    var front := actions[..|actions| - 1];
    assert actions[..|actions|] == actions && front[..|front|] == front;
    assert forall n: nat :: n <= |front| ==> front[..n] == actions[..n];
  }

  lemma StartMirrored(H: HashFn)
    ensures AlwaysMirrored(H, []) && RunAll(H, []).history == [] && AllClean(H, [])
  {
    TableIsReplay(H, []);
  }

  // ---- when an interleaving is a sequential run ----

  // After each committed transaction the database is what the operations so
  // far give, each taken whole.
  ghost predicate Sequential(H: HashFn, txns: seq<Txn>)
    requires AllProper(txns)
  {
    OpsLegal(txns);
    Replay(H, txns) == Exec(H, Ops(txns)) && (txns == [] || Sequential(H, txns[..|txns| - 1]))
  }

  lemma {:induction false} SequentialTxns(H: HashFn, txns: seq<Txn>)
    requires AllProper(txns) && forall x: Txn :: x in txns && x.Swept? ==> Selection(x.picked)
    ensures Sequential(H, txns) <==> AllCurrent(H, txns)
  {
    hide Apply;
    hide Effect;
    hide Current;
    hide Selection;
    hide Mirrored;
    OpsLegal(txns);
    if txns != [] {
      var front, x := txns[..|txns| - 1], txns[|txns| - 1];
      OpsLegal(front);
      SequentialTxns(H, front);
      assert Ops(txns)[..|front|] == Ops(front) && Ops(txns)[|front|] == x.op;
      assert Proper(x) && (x.Swept? ==> Selection(x.picked));
      if AllCurrent(H, front) {
        CurrentIsOps(H, front);
        SameEffectIff(H, Replay(H, front), x);
      }
    }
  }

  lemma SameEffectIff(H: HashFn, db: Db, x: Txn)
    requires Proper(x) && Mirrored(db) && (x.Swept? ==> Selection(x.picked))
    ensures Effect(H, db, x) == Apply(H, db, x.op) <==> Current(db, x)
  {
    hide Apply;
    hide Mirrored;
    hide ReapRows;
    hide PickedFor;
    hide ParamsParse;
    if x.Swept? {
      ReapRowsParse(H, db, x.picked, x.op.stamp);
      SweepExactIff(H, db, x);
    }
  }

  // An interleaving is, transaction by transaction, the sequential run of its
  // operations if and only if every sweep it committed was of a selection
  // still current as it took the lock.
  lemma {:induction false} SequentialIff(H: HashFn, actions: seq<Action>)
    ensures AllProper(RunAll(H, actions).history)
    ensures Sequential(H, RunAll(H, actions).history) <==> AllCurrent(H, RunAll(H, actions).history)
  {
    hide RunAll;
    hide Replay;
    hide Sequential;
    hide AllCurrent;
    hide Selection;
    Serializable(H, actions);
    AlwaysSelected(H, actions);
    SequentialTxns(H, RunAll(H, actions).history);
  }

  // In every state of an interleaving, a thread about to sweep will get
  // through, and will spare what is resolved by then exactly when each row it
  // had selected is gone, still pending, or abandoned already.
  lemma {:induction false} ReadySweepSpares(H: HashFn, actions: seq<Action>, t: Tid)
    requires At(RunAll(H, actions), t).PickRead?
    ensures var db, picked, stamp := RunAll(H, actions).committed, At(RunAll(H, actions), t).picked, At(RunAll(H, actions), t).op.stamp;
            var after := ReapRows(H, db, picked, stamp);
            && after.Some? && |after.value.requests| == |db.requests|
            && ((forall k :: 0 <= k < |db.requests| && db.requests[k].decision != Pending ==> after.value.requests[k] == db.requests[k])
                <==> forall r :: r in picked ==> Spareable(db, r))
  {
    hide RunAll;
    hide ReapRows;
    hide Spareable;
    hide ParamsParse;
    PickReadReap(H, actions, t);
    AlwaysSelected(H, actions);
    var s := RunAll(H, actions);
    assert PickedBy(s.pcs[t]);
    ReapRowsParse(H, s.committed, At(s, t).picked, At(s, t).op.stamp);
    SweepSparesIff(H, s.committed, At(s, t).picked, At(s, t).op.stamp);
  }

  lemma PickReadReap(H: HashFn, actions: seq<Action>, t: Tid)
    requires At(RunAll(H, actions), t).PickRead?
    ensures At(RunAll(H, actions), t).op.OpReap?
  {
    hide RunAll;
    hide Inv;
    hide WasHead;
    hide Honest;
    hide Effect;
    hide ReapRows;
    hide Test;
    hide Statements.Change;
    AlwaysInv(H, actions);
    Placed(H, RunAll(H, actions), t);
  }
}
