/** Any number of threads interleaving statement by statement over one
    database: one write lock, working copies that only a commit publishes, and
    the three reads that are made before the lock is held -- the head for an
    unlocked append, the count for a reset, the selection for a sweep. */
module Threads {
  import opened Text
  import opened Clock
  import opened Ledger
  import opened Anchor
  import opened Store
  import opened Statements
  import Json
  import Limits

  type Tid = nat

  // A transaction as committed: an operation, or a sweep of the rows that
  // were picked for it.
  datatype Txn = Ran(op: Op) | Swept(picked: seq<Request>, op: Op)

  predicate Proper(x: Txn) {
    Legal(x.op) && (x.Swept? <==> x.op.OpReap?)
  }

  function Effect(H: HashFn, db: Db, x: Txn): Db
    requires Proper(x)
  {
    match x
    case Ran(op) => Apply(H, db, op)
    case Swept(picked, op) =>
      match ReapRows(H, db, picked, op.stamp)
      case None => db
      case Some(after) => after
  }

  ghost predicate AllProper(txns: seq<Txn>) {
    forall x :: x in txns ==> Proper(x)
  }

  // The transactions one after another, each whole.
  function Replay(H: HashFn, txns: seq<Txn>): Db
    requires AllProper(txns)
  {
    if txns == [] then EMPTY
    else Effect(H, Replay(H, txns[..|txns| - 1]), txns[|txns| - 1])
  }

  // Where a thread is. Everything from Working on holds the write lock.
  datatype Pc =
    | Idle
    | HeadRead(headSeq: int, headHash: string, op: Op)
    | CountRead(op: Op)
    | PickRead(picked: seq<Request>, op: Op)
    | Working(op: Op)
    | RateTested(op: Op)
    | CapTested(op: Op)
    | Changed(op: Op)
    | Sweeping(picked: seq<Request>, op: Op, done: nat)
    | Done(txn: Txn)

  datatype System = System(
    committed: Db,
    work: Db,
    lock: Option<Tid>,
    pcs: map<Tid, Pc>,
    history: seq<Txn>)

  const START := System(EMPTY, EMPTY, None, map[], [])

  function At(s: System, t: Tid): Pc {
    if t in s.pcs then s.pcs[t] else Idle
  }

  function Goto(s: System, t: Tid, pc: Pc): System {
    s.(pcs := s.pcs[t := pc])
  }

  function Release(s: System, t: Tid): System {
    Goto(s, t, Idle).(lock := None)
  }

  // Publish a database as the result of a transaction.
  function Publish(s: System, t: Tid, x: Txn, after: Db): System {
    Release(s, t).(committed := after, history := s.history + [x])
  }

  // INSERT of a row at the place its key has in key order.
  function InsertByKey(rows: seq<Event>, e: Event): seq<Event> {
    if rows == [] then [e]
    else
      var last := rows[|rows| - 1];
      if last.seqNo < e.seqNo then rows + [e]
      else InsertByKey(rows[..|rows| - 1], e) + [last]
  }

  predicate KeyTaken(rows: seq<Event>, key: int) {
    exists i :: 0 <= i < |rows| && rows[i].seqNo == key
  }

  datatype Action =
    | Begin(t: Tid, op: Op)
    | TestRate(t: Tid)
    | TestCap(t: Tid)
    | Write(t: Tid)
    | LogWrite(t: Tid)
    | Commit(t: Tid)
    | Abort(t: Tid)
    | ReadHead(t: Tid, op: Op)
    | InsertEvent(t: Tid)
    | ReadCount(t: Tid, stamp: Instant)
    | Delete(t: Tid)
    | ReadStale(t: Tid, op: Op)
    | BeginSweep(t: Tid)
    | SweepNext(t: Tid)

  // The selection a sweep should be working from.
  function PickedFor(db: Db, op: Op): seq<Request>
    requires Legal(op) && op.OpReap?
  {
    Picked(db.requests, WindowCutoff(op.now, op.olderThan))
  }

  // One statement of one thread; nothing happens when it is not its turn.
  function Fire(H: HashFn, s: System, a: Action): System {
    match a
    case Begin(t, op) => FireBegin(s, t, op)
    case TestRate(t) => FireRate(s, t)
    case TestCap(t) => FireCap(s, t)
    case Write(t) => FireWrite(s, t)
    case LogWrite(t) => FireLog(H, s, t)
    case Commit(t) => if At(s, t).Done? then Publish(s, t, At(s, t).txn, s.work) else s
    case Abort(t) => if s.lock == Some(t) then Release(s, t) else Goto(s, t, Idle)
    case ReadHead(t, op) =>
      // append_event reads whatever is committed, lock or no lock
      if At(s, t) == Idle && Legal(op) && op.OpEvent?
      then Goto(s, t, HeadRead(HeadSeq(s.committed.events), HeadHash(s.committed.events), op)) else s
    case InsertEvent(t) => FireInsert(H, s, t)
    case ReadCount(t, stamp) =>
      // reset counts the rows it is about to delete
      if At(s, t) == Idle then Goto(s, t, CountRead(OpReset(|s.committed.requests|, stamp))) else s
    case Delete(t) =>
      var pc := At(s, t);
      if pc.CountRead? && s.lock == None && TwoPart(pc.op)
      then Goto(s, t, Changed(pc.op)).(lock := Some(t), work := Change(s.committed, pc.op)) else s
    case ReadStale(t, op) =>
      if At(s, t) == Idle && Legal(op) && op.OpReap? then Goto(s, t, PickRead(PickedFor(s.committed, op), op)) else s
    case BeginSweep(t) =>
      // the first UPDATE takes the lock; without one there is no transaction
      var pc := At(s, t);
      if pc.PickRead? && pc.picked == [] then Goto(s, t, Idle)
      else if pc.PickRead? && s.lock == None
      then Goto(s, t, Sweeping(pc.picked, pc.op, 0)).(lock := Some(t), work := s.committed) else s
    case SweepNext(t) => FireSweep(H, s, t)
  }

  function FireBegin(s: System, t: Tid, op: Op): System {
    // BEGIN IMMEDIATE, or the lock taken by a first write
    if At(s, t) == Idle && s.lock == None && TwoPart(op) && !op.OpReset?
    then Goto(s, t, Working(op)).(lock := Some(t), work := s.committed) else s
  }

  function FireRate(s: System, t: Tid): System {
    var pc := At(s, t);
    if pc.Working? && pc.op.OpReserve? && Legal(pc.op) then
      var ask := pc.op.ask;
      var recent := CountSince(s.work.requests, ask.agent, WindowCutoff(pc.op.now, ask.window));
      if ask.limit.Some? && recent >= ask.limit.value then Publish(s, t, Ran(pc.op), s.committed)
      else Goto(s, t, RateTested(pc.op))
    else s
  }

  function FireCap(s: System, t: Tid): System {
    var pc := At(s, t);
    if pc.RateTested? && pc.op.OpReserve? then
      var spent := SpentOn(s.work.requests, pc.op.ask.agent, Iso(pc.op.now)[..10]);
      if spent + pc.op.ask.amount > pc.op.ask.cap + TOLERANCE then Publish(s, t, Ran(pc.op), s.committed)
      else Goto(s, t, CapTested(pc.op))
    else s
  }

  function FireWrite(s: System, t: Tid): System {
    var pc := At(s, t);
    if ((pc.Working? && !pc.op.OpReserve?) || pc.CapTested?) && TwoPart(pc.op)
    then Goto(s, t, Changed(pc.op)).(work := Change(s.work, pc.op)) else s
  }

  function FireLog(H: HashFn, s: System, t: Tid): System {
    var pc := At(s, t);
    if pc.Changed? && TwoPart(pc.op) then
      match Entry(s.work, pc.op)
      case None => Release(s, t)
      case Some((eventType, payload)) =>
        Goto(s, t, Done(Ran(pc.op))).(work := LogEvent(H, s.work, eventType, payload, pc.op.stamp))
    else s
  }

  function FireInsert(H: HashFn, s: System, t: Tid): System {
    var pc := At(s, t);
    if pc.HeadRead? && pc.op.OpEvent? && s.lock == None then
      if KeyTaken(s.committed.events, pc.headSeq + 1) then Goto(s, t, Idle)
      else
        var e := Successor(H, pc.headSeq, pc.headHash, Iso(pc.op.stamp), pc.op.eventType, Json.Dumps(pc.op.payload));
        Goto(s, t, Done(Ran(pc.op))).(lock := Some(t),
          work := s.committed.(events := InsertByKey(s.committed.events, e)))
    else s
  }

  function FireSweep(H: HashFn, s: System, t: Tid): System {
    var pc := At(s, t);
    if pc.Sweeping? && pc.op.OpReap? then
      if pc.done >= |pc.picked| then Goto(s, t, Done(Swept(pc.picked, pc.op)))
      else
        match ReapRow(H, s.work, pc.picked[pc.done], pc.op.stamp)
        case None => Release(s, t)
        case Some(after) => Goto(s, t, pc.(done := pc.done + 1)).(work := after)
    else s
  }

  function RunAll(H: HashFn, actions: seq<Action>): System {
    if actions == [] then START
    else Fire(H, RunAll(H, actions[..|actions| - 1]), actions[|actions| - 1])
  }

  // ---- the invariant ----

  predicate HoldsLock(pc: Pc) {
    !pc.Idle? && !pc.HeadRead? && !pc.CountRead? && !pc.PickRead?
  }

  // A head that was read is, or once was, a head of the committed chain.
  predicate WasHead(rows: seq<Event>, headSeq: int, headHash: string) {
    0 <= headSeq <= |rows| && headHash == HashBefore(rows, headSeq)
  }

  predicate RatePassed(db: Db, op: Op)
    requires op.OpReserve? && Legal(op)
  {
    !Test(db, op.ask, op.now).OverVelocity?
  }

  predicate Passed(db: Db, op: Op)
    requires op.OpReserve? && Legal(op)
  {
    Test(db, op.ask, op.now).Admitted?
  }

  // How far a thread has got, and what its working copy is.
  predicate OnCourse(H: HashFn, s: System, pc: Pc) {
    match pc
    case Idle => true
    case HeadRead(headSeq, headHash, op) =>
      Legal(op) && op.OpEvent? && WasHead(s.committed.events, headSeq, headHash)
    case CountRead(op) => op.OpReset?
    case PickRead(_, op) => Legal(op) && op.OpReap?
    case Working(op) => TwoPart(op) && s.work == s.committed
    case RateTested(op) => Legal(op) && op.OpReserve? && s.work == s.committed && RatePassed(s.committed, op)
    case CapTested(op) => Legal(op) && op.OpReserve? && s.work == s.committed && Passed(s.committed, op)
    case Changed(op) =>
      TwoPart(op) && (op.OpReserve? ==> Passed(s.committed, op)) && s.work == Change(s.committed, op)
    case Sweeping(picked, op, done) =>
      Legal(op) && op.OpReap? && done <= |picked| && ReapRows(H, s.committed, picked[..done], op.stamp) == Some(s.work)
    case Done(x) => Proper(x) && s.work == Effect(H, s.committed, x)
  }

  ghost predicate Inv(H: HashFn, s: System) {
    && AllProper(s.history)
    && s.committed == Replay(H, s.history)
    && Honest(H, s.committed.events)
    && (forall t :: t in s.pcs && HoldsLock(s.pcs[t]) ==> s.lock == Some(t))
    && (forall t :: t in s.pcs ==> OnCourse(H, s, s.pcs[t]))
  }

  // ---- the head read without the lock ----

  lemma WasHeadStays(H: HashFn, before: seq<Event>, after: seq<Event>, headSeq: int, headHash: string)
    requires WasHead(before, headSeq, headHash) && before <= after
    ensures WasHead(after, headSeq, headHash)
  {
    if headSeq > 0 { assert after[headSeq - 1] == before[headSeq - 1]; }
  }

  // Inserting on a head read earlier: the key is free exactly when the head
  // is still the head, and then the insert is the append of that moment.
  lemma InsertIsAppend(H: HashFn, rows: seq<Event>, headSeq: int, headHash: string, timestamp: string, eventType: string, payload: string)
    requires ValidChain(H, rows) && WasHead(rows, headSeq, headHash)
    ensures KeyTaken(rows, headSeq + 1) <==> headSeq < |rows|
    ensures headSeq == |rows| ==>
              (InsertByKey(rows, Successor(H, headSeq, headHash, timestamp, eventType, payload))
               == Ledger.Append(H, rows, timestamp, eventType, payload))
  {
    forall i | 0 <= i < |rows| ensures rows[i].seqNo == i + 1 {
      assert !Bad(H, rows, i);
    }
    if headSeq < |rows| {
      assert rows[headSeq].seqNo == headSeq + 1;
    } else {
      ValidHead(H, rows);
    }
  }

  // ---- every transaction only adds to the ledger ----

  lemma SweptRowHonest(H: HashFn, db: Db, r: Request, stamp: Instant)
    requires Honest(H, db.events) && ReapRow(H, db, r, stamp).Some?
    ensures var after := ReapRow(H, db, r, stamp).value.events; Honest(H, after) && db.events <= after
  {
    hide Json.Loads;
    hide LogEvent;
    hide HasRow;
    hide Honest;
    Limits.OwnTypesUnbarred();
    var rows := ReapedTable(db.requests, r);
    var fields := AbandonedFields(r, Json.Loads(r.params).value);
    Limits.LogHonest(H, db.(requests := rows), DECIDED, fields, stamp);
  }

  lemma {:induction false} SweepHonest(H: HashFn, db: Db, picked: seq<Request>, stamp: Instant)
    requires Honest(H, db.events) && ReapRows(H, db, picked, stamp).Some?
    ensures var after := ReapRows(H, db, picked, stamp).value.events; Honest(H, after) && db.events <= after
  {
    hide ReapRow;
    hide Honest;
    if picked != [] {
      var n := |picked| - 1;
      SweepHonest(H, db, picked[..n], stamp);
      SweptRowHonest(H, ReapRows(H, db, picked[..n], stamp).value, picked[n], stamp);
    }
  }

  lemma EffectHonest(H: HashFn, db: Db, x: Txn)
    requires Proper(x) && Honest(H, db.events)
    ensures Honest(H, Effect(H, db, x).events) && db.events <= Effect(H, db, x).events
  {
    hide Apply;
    hide Honest;
    hide ReapRows;
    match x
    case Ran(op) => Limits.StepHonest(H, db, op);
    case Swept(picked, op) => if ReapRows(H, db, picked, op.stamp).Some? { SweepHonest(H, db, picked, op.stamp); }
  }

  // ---- one step at a time ----

  // A step that only moves thread t, and keeps it on course.
  lemma GotoInv(H: HashFn, s: System, t: Tid, pc: Pc, work: Db, lock: Option<Tid>)
    requires Inv(H, s)
    requires OnCourse(H, s.(work := work), pc) && (HoldsLock(pc) ==> lock == Some(t))
    requires forall u :: u in s.pcs && u != t ==> !HoldsLock(s.pcs[u])
    ensures Inv(H, Goto(s, t, pc).(work := work, lock := lock))
  {
    hide Effect;
    hide Replay;
    hide Test;
    hide Honest;
    hide WasHead;
    hide Change;
    hide TwoPart;
    hide ReapRows;
    var s' := Goto(s, t, pc).(work := work, lock := lock);
    forall u | u in s'.pcs ensures OnCourse(H, s', s'.pcs[u]) && (HoldsLock(s'.pcs[u]) ==> s'.lock == Some(u)) {
      if u != t {
        assert u in s.pcs && s'.pcs[u] == s.pcs[u];
      }
    }
  }

  // A step outside the lock moves no other thread, whoever has the lock.
  lemma ReadInv(H: HashFn, s: System, t: Tid, pc: Pc)
    requires Inv(H, s) && !HoldsLock(pc) && OnCourse(H, s, pc)
    ensures Inv(H, Goto(s, t, pc))
  {
    hide Effect;
    hide Replay;
    hide Test;
    hide Honest;
    hide WasHead;
    hide Change;
    hide TwoPart;
    hide ReapRows;
    var s' := Goto(s, t, pc);
    forall u | u in s'.pcs ensures OnCourse(H, s', s'.pcs[u]) && (HoldsLock(s'.pcs[u]) ==> s'.lock == Some(u)) {
      if u != t { assert u in s.pcs && s'.pcs[u] == s.pcs[u]; }
    }
  }

  // While a thread holds the lock, no other does.
  lemma OthersOut(H: HashFn, s: System, t: Tid)
    requires Inv(H, s) && (s.lock == None || s.lock == Some(t))
    ensures forall u :: u in s.pcs && u != t ==> !HoldsLock(s.pcs[u])
  {
  }

  lemma Placed(H: HashFn, s: System, t: Tid)
    requires Inv(H, s)
    ensures OnCourse(H, s, At(s, t)) && (HoldsLock(At(s, t)) ==> s.lock == Some(t))
    ensures Honest(H, s.committed.events)
  {
  }

  lemma ReplayMore(H: HashFn, txns: seq<Txn>, x: Txn)
    requires AllProper(txns) && Proper(x)
    ensures AllProper(txns + [x]) && Replay(H, txns + [x]) == Effect(H, Replay(H, txns), x)
  {
    hide Effect;
    hide Proper;
    assert (txns + [x])[..|txns|] == txns;
  }

  // A thread without the lock stays on course while the ledger grows.
  lemma CourseStays(H: HashFn, s: System, s': System, pc: Pc)
    requires OnCourse(H, s, pc) && !HoldsLock(pc) && s.committed.events <= s'.committed.events
    ensures OnCourse(H, s', pc)
  {
    hide Effect;
    hide Test;
    hide Change;
    hide TwoPart;
    hide ReapRows;
    hide Legal;
    hide WasHead;
    if pc.HeadRead? { WasHeadStays(H, s.committed.events, s'.committed.events, pc.headSeq, pc.headHash); }
  }

  lemma IdleOnCourse(H: HashFn, s: System)
    ensures OnCourse(H, s, Idle) && !HoldsLock(Idle)
  {
  }

  // Publishing the effect of a transaction extends the history.
  lemma PublishInv(H: HashFn, s: System, t: Tid, x: Txn, after: Db)
    requires Inv(H, s) && Proper(x) && after == Effect(H, s.committed, x)
    requires forall u :: u in s.pcs && u != t ==> !HoldsLock(s.pcs[u])
    ensures Inv(H, Publish(s, t, x, after))
  {
    hide Effect;
    hide Replay;
    hide Proper;
    hide OnCourse;
    hide HoldsLock;
    hide Honest;
    var s' := Publish(s, t, x, after);
    ReplayMore(H, s.history, x);
    EffectHonest(H, s.committed, x);
    IdleOnCourse(H, s');
    forall u | u in s'.pcs ensures OnCourse(H, s', s'.pcs[u]) && !HoldsLock(s'.pcs[u]) {
      if u != t {
        assert u in s.pcs && s'.pcs[u] == s.pcs[u];
        CourseStays(H, s, s', s.pcs[u]);
      }
    }
  }

  lemma RejectedChangesNothing(H: HashFn, db: Db, op: Op)
    requires op.OpReserve? && Legal(op) && !Passed(db, op)
    ensures Effect(H, db, Ran(op)) == db
  {
  }

  lemma RateStep(H: HashFn, s: System, t: Tid)
    requires Inv(H, s)
    ensures Inv(H, FireRate(s, t))
  {
    hide Effect;
    hide Replay;
    hide CountSince;
    hide SpentOn;
    hide Iso;
    hide Inv;
    hide Honest;
    hide Change;
    hide ReapRows;
    Placed(H, s, t);
    var pc := At(s, t);
    if pc.Working? && pc.op.OpReserve? {
      OthersOut(H, s, t);
      if Test(s.committed, pc.op.ask, pc.op.now).OverVelocity? {
        RejectedChangesNothing(H, s.committed, pc.op);
        PublishInv(H, s, t, Ran(pc.op), s.committed);
      } else {
        GotoInv(H, s, t, RateTested(pc.op), s.work, s.lock);
      }
    }
  }

  lemma CapStep(H: HashFn, s: System, t: Tid)
    requires Inv(H, s)
    ensures Inv(H, FireCap(s, t))
  {
    hide Effect;
    hide Replay;
    hide CountSince;
    hide SpentOn;
    hide Iso;
    hide Inv;
    hide Pow2;
    hide Honest;
    hide Change;
    hide ReapRows;
    Placed(H, s, t);
    var pc := At(s, t);
    if pc.RateTested? {
      OthersOut(H, s, t);
      if Test(s.committed, pc.op.ask, pc.op.now).OverCap? {
        RejectedChangesNothing(H, s.committed, pc.op);
        PublishInv(H, s, t, Ran(pc.op), s.committed);
      } else {
        GotoInv(H, s, t, CapTested(pc.op), s.work, s.lock);
      }
    }
  }

  lemma WriteStep(H: HashFn, s: System, t: Tid)
    requires Inv(H, s)
    ensures Inv(H, FireWrite(s, t))
  {
    hide Effect;
    hide Replay;
    hide Test;
    hide Change;
    hide Inv;
    hide Honest;
    hide ReapRows;
    Placed(H, s, t);
    var pc := At(s, t);
    if (pc.Working? && !pc.op.OpReserve?) || pc.CapTested? {
      OthersOut(H, s, t);
      GotoInv(H, s, t, Changed(pc.op), Change(s.committed, pc.op), s.lock);
    }
  }

  lemma LogStep(H: HashFn, s: System, t: Tid)
    requires Inv(H, s)
    ensures Inv(H, FireLog(H, s, t))
  {
    hide Replay;
    hide LogEvent;
    hide Entry;
    hide Change;
    hide Test;
    hide Apply;
    hide Inv;
    hide Honest;
    hide ReapRows;
    Placed(H, s, t);
    var pc := At(s, t);
    if pc.Changed? {
      OthersOut(H, s, t);
      AppliesInTwo(H, s.committed, pc.op);
      match Entry(s.work, pc.op)
      case None => GotoInv(H, s, t, Idle, s.work, None);
      case Some((eventType, payload)) =>
        GotoInv(H, s, t, Done(Ran(pc.op)), LogEvent(H, s.work, eventType, payload, pc.op.stamp), s.lock);
    }
  }

  lemma InsertStep(H: HashFn, s: System, t: Tid)
    requires Inv(H, s)
    ensures Inv(H, FireInsert(H, s, t))
    ensures var pc := At(s, t);
            pc.HeadRead? && s.lock == None ==>
              if pc.headSeq == |s.committed.events|
              then FireInsert(H, s, t).work == Apply(H, s.committed, pc.op) && At(FireInsert(H, s, t), t) == Done(Ran(pc.op))
              else FireInsert(H, s, t) == Goto(s, t, Idle)
  {
    hide Replay;
    hide Successor;
    hide InsertByKey;
    hide KeyTaken;
    hide Iso;
    hide Json.Dumps;
    hide Inv;
    hide Honest;
    hide Change;
    hide ReapRows;
    Placed(H, s, t);
    var pc := At(s, t);
    if pc.HeadRead? && s.lock == None {
      OthersOut(H, s, t);
      HonestValid(H, s.committed.events);
      InsertIsAppend(H, s.committed.events, pc.headSeq, pc.headHash, Iso(pc.op.stamp), pc.op.eventType, Json.Dumps(pc.op.payload));
      if pc.headSeq == |s.committed.events| {
        GotoInv(H, s, t, Done(Ran(pc.op)), Apply(H, s.committed, pc.op), Some(t));
      } else {
        ReadInv(H, s, t, Idle);
      }
    }
  }

  lemma HonestValid(H: HashFn, rows: seq<Event>)
    requires Honest(H, rows)
    ensures ValidChain(H, rows)
  {
  }

  lemma SweepStep(H: HashFn, s: System, t: Tid)
    requires Inv(H, s)
    ensures Inv(H, FireSweep(H, s, t))
  {
    hide Replay;
    hide ReapRow;
    hide Apply;
    hide Test;
    hide Change;
    hide Inv;
    hide Honest;
    Placed(H, s, t);
    var pc := At(s, t);
    if pc.Sweeping? {
      OthersOut(H, s, t);
      if pc.done == |pc.picked| {
        assert pc.picked[..pc.done] == pc.picked;
        GotoInv(H, s, t, Done(Swept(pc.picked, pc.op)), s.work, s.lock);
      } else {
        assert pc.picked[..pc.done + 1][..pc.done] == pc.picked[..pc.done];
        match ReapRow(H, s.work, pc.picked[pc.done], pc.op.stamp)
        case None => GotoInv(H, s, t, Idle, s.work, None);
        case Some(after) => GotoInv(H, s, t, pc.(done := pc.done + 1), after, s.lock);
      }
    }
  }

  // Taking the lock for a reset or a sweep.
  lemma LateStep(H: HashFn, s: System, t: Tid)
    requires Inv(H, s)
    ensures Inv(H, Fire(H, s, Delete(t))) && Inv(H, Fire(H, s, BeginSweep(t)))
  {
    hide Replay;
    hide ReapRow;
    hide Effect;
    hide Test;
    hide Change;
    hide Inv;
    hide Honest;
    Placed(H, s, t);
    var pc := At(s, t);
    if pc.CountRead? && s.lock == None {
      OthersOut(H, s, t);
      if TwoPart(pc.op) { GotoInv(H, s, t, Changed(pc.op), Change(s.committed, pc.op), Some(t)); }
    }
    if pc.PickRead? {
      if pc.picked == [] {
        ReadInv(H, s, t, Idle);
      } else if s.lock == None {
        OthersOut(H, s, t);
        assert pc.picked[..0] == [];
        GotoInv(H, s, t, Sweeping(pc.picked, pc.op, 0), s.committed, Some(t));
      }
    }
  }

  lemma StepInv(H: HashFn, s: System, a: Action)
    requires Inv(H, s)
    ensures Inv(H, Fire(H, s, a))
  {
    hide Effect;
    hide Replay;
    hide Inv;
    hide HeadSeq;
    hide HeadHash;
    hide Honest;
    hide FireRate;
    hide FireCap;
    hide FireWrite;
    hide FireLog;
    hide FireInsert;
    hide FireSweep;
    hide PickedFor;
    hide Test;
    hide Change;
    hide ReapRows;
    var t := a.t;
    Placed(H, s, t);
    var pc := At(s, t);
    match a
    case Begin(_, op) =>
      if s.lock == None && TwoPart(op) { OthersOut(H, s, t); GotoInv(H, s, t, Working(op), s.committed, Some(t)); }
    case TestRate(_) => RateStep(H, s, t);
    case TestCap(_) => CapStep(H, s, t);
    case Write(_) => WriteStep(H, s, t);
    case LogWrite(_) => LogStep(H, s, t);
    case Commit(_) =>
      if pc.Done? { OthersOut(H, s, t); PublishInv(H, s, t, pc.txn, s.work); }
    case Abort(_) =>
      if s.lock == Some(t) { OthersOut(H, s, t); GotoInv(H, s, t, Idle, s.work, None); } else { ReadInv(H, s, t, Idle); }
    case ReadHead(_, op) =>
      if pc == Idle && Legal(op) && op.OpEvent? { ReadStep(H, s, t, op); }
    case InsertEvent(_) => InsertStep(H, s, t);
    case ReadCount(_, stamp) =>
      if pc == Idle { ReadInv(H, s, t, CountRead(OpReset(|s.committed.requests|, stamp))); }
    case Delete(_) => LateStep(H, s, t);
    case ReadStale(_, op) =>
      if pc == Idle && Legal(op) && op.OpReap? { ReadInv(H, s, t, PickRead(PickedFor(s.committed, op), op)); }
    case BeginSweep(_) => LateStep(H, s, t);
    case SweepNext(_) => SweepStep(H, s, t);
  }

  lemma ReadStep(H: HashFn, s: System, t: Tid, op: Op)
    requires Inv(H, s) && At(s, t) == Idle && Legal(op) && op.OpEvent?
    ensures Inv(H, Goto(s, t, HeadRead(HeadSeq(s.committed.events), HeadHash(s.committed.events), op)))
  {
    hide Effect;
    hide Replay;
    hide Test;
    hide Inv;
    hide Honest;
    Placed(H, s, t);
    HonestValid(H, s.committed.events);
    ValidHead(H, s.committed.events);
    ReadInv(H, s, t, HeadRead(HeadSeq(s.committed.events), HeadHash(s.committed.events), op));
  }

  lemma {:induction false} AlwaysInv(H: HashFn, actions: seq<Action>)
    ensures Inv(H, RunAll(H, actions))
  {
    hide Fire;
    hide Inv;
    if actions == [] {
      StartInv(H);
    } else {
      AlwaysInv(H, actions[..|actions| - 1]);
      StepInv(H, RunAll(H, actions[..|actions| - 1]), actions[|actions| - 1]);
    }
  }

  lemma StartInv(H: HashFn)
    ensures Inv(H, START)
  {
    Limits.EmptyHonest(H);
  }

  // ---- what every interleaving keeps ----

  // Whatever the threads did, the committed database is what the committed
  // transactions give one after another, each whole -- a reset with the count
  // and a sweep with the selection that it had read -- and its ledger verifies.
  lemma {:induction false} Serializable(H: HashFn, actions: seq<Action>)
    ensures var s := RunAll(H, actions);
            && AllProper(s.history) && s.committed == Replay(H, s.history)
            && Honest(H, s.committed.events) && Explains(H, s.committed.events, Intact)
  {
    hide RunAll;
    hide Replay;
    AlwaysInv(H, actions);
    HonestValid(H, RunAll(H, actions).committed.events);
  }

  // An append that read the head without the lock either goes on to write
  // the true successor of the head it finds, or aborts on the key and
  // changes nothing: it writes exactly when the head has not moved.
  lemma {:induction false} UnlockedAppend(H: HashFn, actions: seq<Action>, t: Tid)
    requires var s := RunAll(H, actions); At(s, t).HeadRead? && s.lock == None
    ensures var s := RunAll(H, actions);
            var pc, s' := At(s, t), Fire(H, s, InsertEvent(t));
            && s'.committed == s.committed
            && (pc.headSeq == HeadSeq(s.committed.events) <==> At(s', t).Done?)
            && (At(s', t).Done? ==>
                  s'.work.events == Ledger.Append(H, s.committed.events, Iso(pc.op.stamp), pc.op.eventType, Json.Dumps(pc.op.payload)))
            && (!At(s', t).Done? ==> s' == Goto(s, t, Idle))
  {
    hide RunAll;
    hide Inv;
    hide Json.Dumps;
    hide Iso;
    hide Honest;
    hide Replay;
    AlwaysInv(H, actions);
    var s := RunAll(H, actions);
    Placed(H, s, t);
    HonestValid(H, s.committed.events);
    ValidHead(H, s.committed.events);
    InsertStep(H, s, t);
  }
}
