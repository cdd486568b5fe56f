/** Anchoring while the ledger grows: one anchor in flight at a time, its
    steps interleaved with every other operation, failing at any point. */
module Notary {
  import opened Text
  import opened Clock
  import opened Ledger
  import opened Anchor
  import opened Store
  import Json
  import Limits

  // How far the one in-flight call of anchor_now has got.
  datatype Flight =
    | Grounded
    | HeadTaken(seqNo: int, headHash: string)
    | Cleared(seqNo: int, headHash: string)
    | Submitted(seqNo: int, headHash: string, txId: string)

  // The chain maps a confirmed transaction to its note, whoever posted it;
  // nothing removes one. ours are the transactions that anchor_now sent.
  datatype State = State(db: Db, chain: map<string, string>, ours: set<string>, flight: Flight)

  const START := State(EMPTY, map[], {}, Grounded)

  datatype Action =
    | Other(op: Op)
    | TakeHead
    | CheckLatest
    | Submit(txId: string)
    | Record(stamp: Instant)
    | Fail
    | Foreign(txId: string, note: string)

  function Fire(H: HashFn, s: State, a: Action): State {
    match a
    case Other(op) => if Legal(op) && !op.OpAnchor? then s.(db := Apply(H, s.db, op)) else s
    case TakeHead =>
      if s.flight == Grounded && s.db.events != []
      then s.(flight := HeadTaken(HeadSeq(s.db.events), HeadHash(s.db.events))) else s
    case CheckLatest =>
      if s.flight.HeadTaken? then
        if s.db.anchors != [] && s.db.anchors[|s.db.anchors| - 1].seqNo == s.flight.seqNo then s.(flight := Grounded)
        else s.(flight := Cleared(s.flight.seqNo, s.flight.headHash))
      else s
    case Submit(txId) =>
      if s.flight.Cleared? && txId !in s.chain
      then s.(chain := s.chain[txId := BuildNote(s.flight.seqNo, s.flight.headHash)], ours := s.ours + {txId},
              flight := Submitted(s.flight.seqNo, s.flight.headHash, txId)) else s
    case Record(stamp) =>
      if s.flight.Submitted? then
        var note := BuildNote(s.flight.seqNo, s.flight.headHash);
        s.(db := Apply(H, s.db, OpAnchor(s.flight.seqNo, s.flight.headHash, s.flight.txId, note, stamp)), flight := Grounded)
      else s
    case Fail => s.(flight := Grounded)
    case Foreign(txId, note) => if txId !in s.chain then s.(chain := s.chain[txId := note]) else s
  }

  function RunAll(H: HashFn, actions: seq<Action>): State {
    if actions == [] then START
    else Fire(H, RunAll(H, actions[..|actions| - 1]), actions[|actions| - 1])
  }

  // s and h name a head the ledger has, or had.
  predicate Reached(rows: seq<Event>, s: int, h: string) {
    1 <= s <= |rows| && h == rows[s - 1].entryHash
  }

  predicate Sound(db: Db, chain: map<string, string>, ours: set<string>, a: AnchorRow) {
    && Reached(db.events, a.seqNo, a.headHash) && a.seqNo < |db.events|
    && a.note == BuildNote(a.seqNo, a.headHash)
    && a.txId in ours && a.txId in chain && chain[a.txId] == a.note
  }

  predicate Airborne(s: State) {
    match s.flight
    case Grounded => true
    case HeadTaken(n, h) => Reached(s.db.events, n, h) && Past(s.db.anchors, n)
    case Cleared(n, h) => Reached(s.db.events, n, h) && Past(s.db.anchors, n)
    case Submitted(n, h, tx) =>
      Reached(s.db.events, n, h) && Past(s.db.anchors, n) && tx in s.ours && tx in s.chain && s.chain[tx] == BuildNote(n, h)
  }

  predicate Past(anchors: seq<AnchorRow>, n: int) {
    forall i :: 0 <= i < |anchors| ==> anchors[i].seqNo < n
  }

  predicate Climbing(anchors: seq<AnchorRow>) {
    forall i, j :: 0 <= i < j < |anchors| ==> anchors[i].seqNo < anchors[j].seqNo && anchors[i].id < anchors[j].id
  }

  ghost predicate Inv(H: HashFn, s: State) {
    && Honest(H, s.db.events)
    && (forall a :: a in s.db.anchors ==> Sound(s.db, s.chain, s.ours, a) && a.id <= s.db.lastAnchorId)
    && Climbing(s.db.anchors)
    && s.ours <= s.chain.Keys
    && Airborne(s)
  }

  // Only an anchor op touches the anchors table.
  lemma {:induction false} ReapLeavesAnchors(H: HashFn, db: Db, i: nat, cutoff: string, stamp: Instant)
    ensures match ReapFrom(H, db, i, cutoff, stamp)
            case None => true
            case Some(after) => after.anchors == db.anchors && after.lastAnchorId == db.lastAnchorId
    decreases |db.requests| - i
  {
    hide Less;
    hide Json.Loads;
    hide Json.Dumps;
    hide Iso;
    if i < |db.requests| {
      if !Stale(db.requests[i], cutoff) {
        ReapLeavesAnchors(H, db, i + 1, cutoff, stamp);
      } else {
        var r := db.requests[i].(decision := Denied, reason := ABANDONED);
        if Json.Loads(r.params).Some? {
          ReapLeavesAnchors(H, LogDecision(H, db.(requests := db.requests[i := r]), r.(txId := None), Json.Loads(r.params).value, stamp),
                            i + 1, cutoff, stamp);
        }
      }
    }
  }

  lemma OtherLeavesAnchors(H: HashFn, db: Db, op: Op)
    requires Legal(op) && !op.OpAnchor?
    ensures Apply(H, db, op).anchors == db.anchors && Apply(H, db, op).lastAnchorId == db.lastAnchorId
  {
    hide ReapFrom;
    hide Less;
    hide Json.Loads;
    hide Json.Dumps;
    hide Iso;
    hide Test;
    if op.OpReap? { ReapLeavesAnchors(H, db, 0, WindowCutoff(op.now, op.olderThan), op.stamp); }
  }

  lemma SoundStays(before: Db, after: Db, chain: map<string, string>, ours: set<string>, a: AnchorRow)
    requires Sound(before, chain, ours, a) && before.events <= after.events
    ensures Sound(after, chain, ours, a)
  {
    assert after.events[a.seqNo - 1] == before.events[a.seqNo - 1];
  }

  lemma ReachedStays(before: seq<Event>, after: seq<Event>, n: int, h: string)
    requires Reached(before, n, h) && before <= after
    ensures Reached(after, n, h)
  {
    assert after[n - 1] == before[n - 1];
  }

  lemma OtherInv(H: HashFn, s: State, op: Op)
    requires Inv(H, s) && Legal(op) && !op.OpAnchor?
    ensures Inv(H, s.(db := Apply(H, s.db, op)))
  {
    hide Apply;
    hide Honest;
    hide BuildNote;
    var after := Apply(H, s.db, op);
    Limits.StepHonest(H, s.db, op);
    OtherLeavesAnchors(H, s.db, op);
    forall a | a in after.anchors ensures Sound(after, s.chain, s.ours, a) {
      SoundStays(s.db, after, s.chain, s.ours, a);
    }
    if s.flight != Grounded { ReachedStays(s.db.events, after.events, s.flight.seqNo, s.flight.headHash); }
  }

  lemma RecordInv(H: HashFn, s: State, stamp: Instant)
    requires Inv(H, s) && s.flight.Submitted?
    ensures Inv(H, Fire(H, s, Record(stamp)))
  {
    hide Honest;
    hide BuildNote;
    hide LogEvent;
    var n, h, tx := s.flight.seqNo, s.flight.headHash, s.flight.txId;
    var op := OpAnchor(n, h, tx, BuildNote(n, h), stamp);
    var after := Apply(H, s.db, op);
    Limits.StepHonest(H, s.db, op);
    var a := AnchorRow(s.db.lastAnchorId + 1, n, h, tx, BuildNote(n, h));
    var mid := s.db.(anchors := s.db.anchors + [a], lastAnchorId := a.id);
    var payload := AnchorFields(n, h, tx);
    Limits.LogOnly(H, mid, ANCHORED, payload, stamp);
    LogAddsOne(H, mid, ANCHORED, payload, stamp);
    assert after == LogEvent(H, mid, ANCHORED, payload, stamp);
    ReachedStays(s.db.events, after.events, n, h);
    forall b | b in after.anchors ensures Sound(after, s.chain, s.ours, b) && b.id <= after.lastAnchorId {
      if b != a { SoundStays(s.db, after, s.chain, s.ours, b); }
    }
    assert forall i :: 0 <= i < |s.db.anchors| ==> s.db.anchors[i] in s.db.anchors;
  }

  lemma LogAddsOne(H: HashFn, db: Db, eventType: string, payload: Json.Value, stamp: Instant)
    ensures |LogEvent(H, db, eventType, payload, stamp).events| == |db.events| + 1
  {
  }

  lemma StepInv(H: HashFn, s: State, a: Action)
    requires Inv(H, s)
    ensures Inv(H, Fire(H, s, a))
  {
    hide Apply;
    hide BuildNote;
    match a
    case Other(op) => if Legal(op) && !op.OpAnchor? { OtherInv(H, s, op); }
    case TakeHead =>
      ValidHead(H, s.db.events);
      assert forall i :: 0 <= i < |s.db.anchors| ==> s.db.anchors[i] in s.db.anchors;
    case Record(stamp) => if s.flight.Submitted? { RecordInv(H, s, stamp); }
    case _ =>
  }

  lemma {:induction false} AlwaysInv(H: HashFn, actions: seq<Action>)
    ensures Inv(H, RunAll(H, actions))
  {
    hide Fire;
    hide Inv;
    if actions == [] {
      StartInv(H);
    } else {
      AlwaysInv(H, actions[..|actions| - 1]);
      StepInv(H, RunAll(H, actions[..|actions| - 1]), actions[|actions| - 1]);
    }
  }

  lemma StartInv(H: HashFn)
    ensures Inv(H, START)
  {
  }

  // ---- what an honest run promises ----

  function MaxSeq(anchors: seq<AnchorRow>): int {
    if anchors == [] then 0
    else
      var rest, last := MaxSeq(anchors[..|anchors| - 1]), anchors[|anchors| - 1].seqNo;
      if last > rest then last else rest
  }

  // unanchored_event_count
  function UnanchoredCount(db: Db): int {
    var d := HeadSeq(db.events) - MaxSeq(db.anchors);
    if d > 0 then d else 0
  }

  lemma {:induction false} MaxIsLast(anchors: seq<AnchorRow>)
    requires Climbing(anchors) && anchors != [] && anchors[0].seqNo >= 1
    ensures MaxSeq(anchors) == anchors[|anchors| - 1].seqNo
  {
    var n := |anchors| - 1;
    if n > 0 { MaxIsLast(anchors[..n]); }
  }

  // Every anchor ever recorded still recomputes to the hash it committed,
  // anchors climb strictly, so the latest one by id is also the highest, and
  // the count of unanchored events is the distance from it to the head.
  lemma {:induction false} AnchorsHold(H: HashFn, actions: seq<Action>)
    ensures var db := RunAll(H, actions).db;
            && (forall a :: a in db.anchors ==> HashAtSeq(H, db.events, a.seqNo) == Some(a.headHash) && ParseNote(a.note) == Some((a.seqNo, a.headHash)))
            && Climbing(db.anchors)
            && (db.anchors != [] ==>
                  var latest := db.anchors[|db.anchors| - 1];
                  && MaxSeq(db.anchors) == latest.seqNo < HeadSeq(db.events)
                  && UnanchoredCount(db) == |db.events| - latest.seqNo)
  {
    hide RunAll;
    hide BuildNote;
    hide ParseNote;
    hide HashAtSeq;
    AlwaysInv(H, actions);
    var s := RunAll(H, actions);
    ValidHead(H, s.db.events);
    forall a | a in s.db.anchors
      ensures HashAtSeq(H, s.db.events, a.seqNo) == Some(a.headHash) && ParseNote(a.note) == Some((a.seqNo, a.headHash))
    {
      assert Sound(s.db, s.chain, s.ours, a);
      HashAtSeqValid(H, s.db.events, a.seqNo);
      assert !Bad(H, s.db.events, a.seqNo - 1);
      NoteRoundTrip(a.seqNo, a.headHash);
    }
    if s.db.anchors != [] {
      assert s.db.anchors[0] in s.db.anchors && s.db.anchors[|s.db.anchors| - 1] in s.db.anchors;
      MaxIsLast(s.db.anchors);
    }
  }

  // The indexer may lag or answer nothing, and may say what it likes of other
  // people's transactions; for one of ours it gives the note that is there.
  ghost predicate Truthful(indexer: Indexer, s: State) {
    forall tx :: tx in s.ours && tx in s.chain && indexer(tx).Some? ==> indexer(tx).value == s.chain[tx]
  }

  function Newest(anchors: seq<AnchorRow>, limit: nat): seq<AnchorRow> {
    if |anchors| <= limit then anchors else anchors[|anchors| - limit..]
  }

  // The last ones recorded, at most so many of them.
  lemma NewestMeaning(anchors: seq<AnchorRow>, limit: nat)
    ensures forall a :: a in Newest(anchors, limit) <==>
              exists i :: 0 <= i < |anchors| && |anchors| - i <= limit && anchors[i] == a
    ensures |Newest(anchors, limit)| == if |anchors| < limit then |anchors| else limit
  {
    var recent, skipped := Newest(anchors, limit), |anchors| - |Newest(anchors, limit)|;
    forall i | 0 <= i < |anchors| && |anchors| - i <= limit ensures anchors[i] in recent {
      assert recent[i - skipped] == anchors[i];
    }
    forall a | a in recent ensures exists i :: 0 <= i < |anchors| && |anchors| - i <= limit && anchors[i] == a {
      var j :| 0 <= j < |recent| && recent[j] == a;
      assert anchors[j + skipped] == a;
    }
  }

  // In an honest run the verdict is never "tampered", however slow or
  // unreachable the indexer: it is "verified" exactly when the indexer
  // answers for one of the recent anchors, and "unanchored" otherwise.
  lemma {:induction false} HonestVerdict(H: HashFn, actions: seq<Action>, indexer: Indexer, checkOnchain: bool, limit: nat)
    requires Truthful(indexer, RunAll(H, actions))
    ensures var db := RunAll(H, actions).db;
            var recent := Newest(db.anchors, limit);
            IntegrityVerdict(H, db.events, recent, indexer, checkOnchain)
              == if checkOnchain && exists a :: a in recent && indexer(a.txId).Some? then Verified else Unanchored
  {
    hide RunAll;
    hide BuildNote;
    hide ParseNote;
    hide HashAtSeq;
    AnchorsHold(H, actions);
    AlwaysInv(H, actions);
    var s := RunAll(H, actions);
    var recent := Newest(s.db.anchors, limit);
    forall a | a in recent
      ensures VerifyAnchor(H, s.db.events, a, indexer, checkOnchain).Ok()
      ensures Confirmed(H, s.db.events, a, indexer, checkOnchain) <==> checkOnchain && indexer(a.txId).Some?
    {
      assert a in s.db.anchors;
      assert Sound(s.db, s.chain, s.ours, a);
    }
  }

  // ---- the anchors against a database edited afterwards ----

  predicate NotesHead(events: seq<Event>, note: string, n: nat) {
    1 <= n <= |events| && note == HeadNote(events[..n])
  }

  lemma HeadNoteOf(H: HashFn, events: seq<Event>, n: int, h: string)
    requires ValidChain(H, events) && Reached(events, n, h)
    ensures NotesHead(events, BuildNote(n, h), n)
  {
    ValidPrefix(H, events, n);
    ValidHead(H, events[..n]);
  }

  lemma NotesHeadStays(before: seq<Event>, after: seq<Event>, note: string, n: nat)
    requires NotesHead(before, note, n) && before <= after
    ensures NotesHead(after, note, n)
  {
    assert after[..n] == before[..n];
  }

  lemma StepGrows(H: HashFn, s: State, a: Action)
    requires Honest(H, s.db.events)
    ensures s.db.events <= Fire(H, s, a).db.events
  {
    hide Apply;
    hide Honest;
    match a
    case Other(op) => if Legal(op) { Limits.StepHonest(H, s.db, op); }
    case Record(stamp) =>
      if s.flight.Submitted? {
        Limits.StepHonest(H, s.db, OpAnchor(s.flight.seqNo, s.flight.headHash, s.flight.txId,
                                            BuildNote(s.flight.seqNo, s.flight.headHash), stamp));
      }
    case _ =>
  }

  // Every note that anchor_now ever put on chain, recorded or not, is the
  // note of a prefix of the honest ledger.
  lemma {:induction false} NotesAreOfHistory(H: HashFn, actions: seq<Action>, tx: string)
    requires tx in RunAll(H, actions).ours
    ensures tx in RunAll(H, actions).chain
    ensures exists n :: NotesHead(RunAll(H, actions).db.events, RunAll(H, actions).chain[tx], n)
  {
    hide Apply;
    hide Honest;
    hide HeadNote;
    hide BuildNote;
    if actions != [] {
      var front, a := actions[..|actions| - 1], actions[|actions| - 1];
      var before, after := RunAll(H, front), RunAll(H, actions);
      AlwaysInv(H, front);
      StepGrows(H, before, a);
      if tx in before.ours {
        NotesAreOfHistory(H, front, tx);
        var n: nat :| NotesHead(before.db.events, before.chain[tx], n);
        NotesHeadStays(before.db.events, after.db.events, before.chain[tx], n);
      } else {
        ValidOf(H, before.db.events);
        HeadNoteOf(H, before.db.events, before.flight.seqNo, before.flight.headHash);
      }
    }
  }

  lemma ValidOf(H: HashFn, rows: seq<Event>)
    requires Honest(H, rows)
    ensures ValidChain(H, rows)
  {
  }

  // The present ledger still begins with the honest one as it was at the
  // anchored seq, up to barred rows or an exhibited hash collision.
  ghost predicate Pinned(H: HashFn, honest: seq<Event>, present: seq<Event>, a: AnchorRow) {
    1 <= a.seqNo <= |honest| && Preserved(H, honest[..a.seqNo], present)
  }

  // A confirmed anchor pins history exactly when what it recorded is a head
  // the honest ledger had, whoever posted its note.
  lemma {:induction false} PinnedIffReached(
      H: HashFn, honest: seq<Event>, present: seq<Event>, a: AnchorRow, indexer: Indexer)
    requires Honest(H, honest) && ValidChain(H, present) && Confirmed(H, present, a, indexer, true)
    ensures Pinned(H, honest, present, a) <==> Reached(honest, a.seqNo, a.headHash)
  {
    hide ParseNote;
    hide Rehash;
    hide HashAtSeq;
    HashAtSeqValid(H, present, a.seqNo);
    if 1 <= a.seqNo <= |honest| {
      var n: nat := a.seqNo;
      ValidPrefix(H, honest, n);
      PreservedIffHead(H, honest[..n], present);
    }
  }

  // After an honest run, let the whole database be replaced by any other
  // tables at all, while other accounts post whatever they like. If the
  // verdict on those tables is "verified", some anchor was confirmed; each
  // confirmed anchor pins the honest ledger exactly when it records a head
  // that ledger had; and one whose transaction anchor_now sent always does.
  lemma {:induction false} VerifiedPinsHistory(
      H: HashFn, actions: seq<Action>, present: seq<Event>, anchors: seq<AnchorRow>, indexer: Indexer)
    requires Truthful(indexer, RunAll(H, actions))
    requires IntegrityVerdict(H, present, anchors, indexer, true) == Verified
    ensures exists a :: a in anchors && Confirmed(H, present, a, indexer, true)
    ensures var s := RunAll(H, actions);
            forall a :: a in anchors && Confirmed(H, present, a, indexer, true) ==>
              && (Pinned(H, s.db.events, present, a) <==> Reached(s.db.events, a.seqNo, a.headHash))
              && (a.txId in s.ours ==> Pinned(H, s.db.events, present, a))
  {
    hide RunAll;
    hide Pinned;
    hide HashAtSeq;
    hide ParseNote;
    var s := RunAll(H, actions);
    AlwaysInv(H, actions);
    forall a | a in anchors && Confirmed(H, present, a, indexer, true)
      ensures Pinned(H, s.db.events, present, a) <==> Reached(s.db.events, a.seqNo, a.headHash)
      ensures a.txId in s.ours ==> Reached(s.db.events, a.seqNo, a.headHash)
    {
      PinnedIffReached(H, s.db.events, present, a, indexer);
      if a.txId in s.ours {
        NotesAreOfHistory(H, actions, a.txId);
        var n: nat :| NotesHead(s.db.events, s.chain[a.txId], n);
        ConfirmedReached(H, s.db.events, present, a, indexer, n);
      }
    }
  }

  // A confirmed anchor records what its note says.
  lemma ConfirmedReached(H: HashFn, honest: seq<Event>, present: seq<Event>, a: AnchorRow, indexer: Indexer, n: nat)
    requires Honest(H, honest) && Confirmed(H, present, a, indexer, true)
    requires indexer(a.txId).Some? && NotesHead(honest, indexer(a.txId).value, n)
    ensures Reached(honest, a.seqNo, a.headHash)
  {
    hide HashAtSeq;
    hide ParseNote;
    hide BuildNote;
    ValidPrefix(H, honest, n);
    ValidHead(H, honest[..n]);
    assert !Bad(H, honest, n - 1);
    NoteRoundTrip(n, honest[n - 1].entryHash);
  }

  // ---- a note posted by somebody else ----

  // What a public indexer that is up to date answers.
  function PublicIndexer(chain: map<string, string>): Indexer {
    tx => if tx in chain then Some(chain[tx]) else None
  }

  // Neither check looks at who sent the transaction. After any honest run,
  // one transaction from any account carrying the note of any valid ledger's
  // head, and one anchor row for it, make the verdict on that ledger
  // "verified" -- and when it is longer than the honest one, or has another
  // head hash where it ends, nothing of the honest ledger is pinned.
  lemma {:induction false} ForeignNoteVerifies(H: HashFn, actions: seq<Action>, present: seq<Event>, tx: string)
    requires ValidChain(H, present) && present != [] && tx !in RunAll(H, actions).chain
    ensures var s := Fire(H, RunAll(H, actions), Foreign(tx, HeadNote(present)));
            var a := AnchorRow(1, HeadSeq(present), HeadHash(present), tx, HeadNote(present));
            && s.db == RunAll(H, actions).db && Truthful(PublicIndexer(s.chain), s)
            && IntegrityVerdict(H, present, [a], PublicIndexer(s.chain), true) == Verified
            && (Pinned(H, s.db.events, present, a) <==>
                  |present| <= |s.db.events| && present[|present| - 1].entryHash == s.db.events[|present| - 1].entryHash)
  {
    hide RunAll;
    hide HashAtSeq;
    hide ParseNote;
    hide BuildNote;
    hide Pinned;
    var before, n := RunAll(H, actions), |present|;
    AlwaysInv(H, actions);
    var s := Fire(H, before, Foreign(tx, HeadNote(present)));
    var a := AnchorRow(1, HeadSeq(present), HeadHash(present), tx, HeadNote(present));
    ValidHead(H, present);
    HashAtSeqValid(H, present, n);
    assert !Bad(H, present, n - 1);
    NoteRoundTrip(n, present[n - 1].entryHash);
    assert Confirmed(H, present, a, PublicIndexer(s.chain), true);
    assert a in [a];
    PinnedIffReached(H, s.db.events, present, a, PublicIndexer(s.chain));
  }

  // ---- rows that no anchor can tell apart ----

  // A denial of an agent whose name has a bar in it -- an unknown agent will
  // do -- is an event the engine itself writes and whose row can afterwards be
  // changed with no verdict changing.
  lemma {:induction false} DenialCanBeShifted(
      H: HashFn, ops: seq<Op>, op: Op, anchors: seq<AnchorRow>, indexer: Indexer, checkOnchain: bool)
    requires AllLegal(ops) && op.OpDeny? && '|' in op.agent
    ensures var rows := Apply(H, Exec(H, ops), op).events;
            && Honest(H, rows)
            && exists edited ::
                 && !(rows <= edited)
                 && IntegrityVerdict(H, edited, anchors, indexer, checkOnchain)
                      == IntegrityVerdict(H, rows, anchors, indexer, checkOnchain)
  {
    hide Apply;
    hide Exec;
    hide IntegrityVerdict;
    hide Shifted;
    var db := Exec(H, ops);
    var rows, i := Apply(H, db, op).events, |db.events|;
    Limits.LedgerGrows(H, ops, |ops|);
    Limits.StepHonest(H, db, op);
    DenialBarred(H, db, op);
    var j :| 0 <= j < |rows[i].payload| && rows[i].payload[j] == '|';
    BarShiftUnseen(H, rows, i, j, anchors, indexer, checkOnchain);
    var edited := rows[i := Shifted(rows[i], j)];
    assert !(rows <= edited);
  }

  lemma DenialBarred(H: HashFn, db: Db, op: Op)
    requires op.OpDeny? && '|' in op.agent
    ensures var rows := Apply(H, db, op).events; |rows| == |db.events| + 1 && '|' in rows[|db.events|].payload
  {
    hide Iso;
    hide Json.Dumps;
    hide Link;
    var r := Request(db.lastId + 1, Iso(op.now), op.agent, op.action, op.amount, Denied, op.reason, None, CanonicalParams(op.params));
    var fields := DecidedFields(r.id, r.agent, r.action, r.amount, ParamsValue(op.params), Denied, r.reason, None);
    Json.DumpsShowsBars(fields, "agent_id", op.agent);
    LogAddsOne(H, db.(requests := db.requests + [r], lastId := r.id), DECIDED, fields, op.stamp);
  }
}
