/** common/anchor.py as it runs: taking an anchor, checking one, and the
    report over the recent ones. Calls to anchor_now are proved to be steps of
    the anchoring protocol. */
module Station {
  import opened Text
  import opened Clock
  import opened Ledger
  import opened Anchor
  import opened Store
  import opened Verdicts
  import Database
  import Json
  import Notary

  // What becomes of the transaction: never sent, sent and then an exception,
  // or confirmed.
  datatype Submission = Unsent | Unconfirmed(txId: string) | Landed(txId: string) {
    function Tx(): Option<string> {
      if Unsent? then None else Some(txId)
    }
  }

  datatype Status = Disabled | Busy | NothingToAnchor | Anchored(anchor: AnchorRow) | Error

  lemma RunMore(H: HashFn, trace: seq<Notary.Action>, a: Notary.Action)
    ensures Notary.RunAll(H, trace + [a]) == Notary.Fire(H, Notary.RunAll(H, trace), a)
  {
    hide Notary.Fire;
    assert (trace + [a])[..|trace|] == trace;
  }

  // In an honest run a head that was read is past the newest anchor, whatever
  // happened since, because recording an anchor appends an event of its own.
  lemma HeadPast(H: HashFn, trace: seq<Notary.Action>)
    ensures var s := Notary.RunAll(H, trace);
            s.db.anchors != [] ==>
              var latest := s.db.anchors[|s.db.anchors| - 1];
              && s.db.events != [] && latest.seqNo < HeadSeq(s.db.events)
              && (s.flight != Notary.Grounded ==> latest.seqNo < s.flight.seqNo)
  {
    hide Notary.RunAll;
    Notary.AnchorsHold(H, trace);
    Notary.AlwaysInv(H, trace);
  }

  lemma AppliesAnchor(H: HashFn, db: Db, n: int, h: string, tx: string, note: string, stamp: Instant)
    ensures Apply(H, db, OpAnchor(n, h, tx, note, stamp)) == Store.RecordAnchor(H, db, n, h, tx, note, stamp)
  {
  }

  lemma IntactMeansValid(H: HashFn, rows: seq<Event>, fault: Fault)
    requires Explains(H, rows, fault)
    ensures fault == Intact <==> ValidChain(H, rows)
  {
    hide Link;
    if fault != Intact {
      var k: nat :| FirstBad(H, rows, k) && fault == FaultAt(rows, k);
      assert Bad(H, rows, k);
    }
  }

  class Notarizer {
    const db: Database.Sqlite
    // The call under way and what it has read so far; Grounded when the lock
    // is free.
    var flight: Notary.Flight
    ghost var chain: map<string, string>
    ghost var ours: set<string>
    ghost var trace: seq<Notary.Action>

    ghost predicate Valid()
      reads this, db
    {
      Notary.RunAll(db.H, trace) == Notary.State(db.Value(), chain, ours, flight)
    }

    constructor (H: HashFn)
      ensures Valid() && fresh(db) && chain == map[] && ours == {} && trace == [] && flight == Notary.Grounded
    {
      db := new Database.Sqlite(H);
      flight, chain, ours, trace := Notary.Grounded, map[], {}, [];
    }

    // Everybody else, between any two steps of a call: an event appended, and
    // a transaction posted from another account.
    method AppendEvent(eventType: string, payload: Json.Value, stamp: Instant)
      requires Valid() && Legal(OpEvent(eventType, payload, stamp))
      modifies this`trace, db
      ensures Valid() && trace == old(trace) + [Notary.Other(OpEvent(eventType, payload, stamp))]
      ensures db.Value() == LogEvent(db.H, old(db.Value()), eventType, payload, stamp)
    {
      hide Notary.RunAll;
      hide LogEvent;
      var a := Notary.Other(OpEvent(eventType, payload, stamp));
      RunMore(db.H, trace, a);
      trace := trace + [a];
      db.AppendEventLocked(eventType, payload, stamp);
    }

    ghost method Post(txId: string, note: string)
      requires Valid() && txId !in chain
      modifies this`trace, this`chain
      ensures Valid() && chain == old(chain)[txId := note]
    {
      hide Notary.RunAll;
      RunMore(db.H, trace, Notary.Foreign(txId, note));
      trace, chain := trace + [Notary.Foreign(txId, note)], chain[txId := note];
    }

    // anchor_now up to reading the head: the switch, the lock, the ledger.
    method ReadHead(disabled: bool) returns (refused: Option<Status>)
      requires Valid()
      modifies this`flight, this`trace
      ensures Valid()
      ensures refused == if disabled then Some(Disabled) else if old(flight) != Notary.Grounded then Some(Busy)
                         else if db.events == [] then Some(NothingToAnchor) else None
      ensures flight == if refused == None then Notary.HeadTaken(HeadSeq(db.events), HeadHash(db.events)) else old(flight)
    {
      hide Notary.RunAll;
      if disabled { return Some(Disabled); }
      if flight != Notary.Grounded { return Some(Busy); }
      if db.events == [] { return Some(NothingToAnchor); }
      RunMore(db.H, trace, Notary.TakeHead);
      trace := trace + [Notary.TakeHead];
      flight := Notary.HeadTaken(HeadSeq(db.events), HeadHash(db.events));
      refused := None;
    }

    // The look at the latest anchor. HeadPast says that it is never already
    // at the head that was read.
    method CheckLatest() returns (refused: Option<Status>)
      requires Valid() && flight.HeadTaken?
      modifies this`flight, this`trace
      ensures Valid()
      ensures refused == if db.anchors != [] && db.anchors[|db.anchors| - 1].seqNo == old(flight).seqNo
                         then Some(NothingToAnchor) else None
      ensures flight == if refused == None then Notary.Cleared(old(flight).seqNo, old(flight).headHash) else Notary.Grounded
    {
      hide Notary.RunAll;
      RunMore(db.H, trace, Notary.CheckLatest);
      trace := trace + [Notary.CheckLatest];
      if db.anchors != [] && db.anchors[|db.anchors| - 1].seqNo == flight.seqNo {
        flight := Notary.Grounded;
        return Some(NothingToAnchor);
      }
      flight := Notary.Cleared(flight.seqNo, flight.headHash);
      refused := None;
    }

    // Building, sending and confirming the transaction.
    method Send(sent: Submission) returns (refused: Option<Status>)
      requires Valid() && flight.Cleared? && (sent.Tx().Some? ==> sent.Tx().value !in chain)
      modifies this`flight, this`trace, this`chain, this`ours
      ensures Valid() && refused == if sent.Landed? then None else Some(Error)
      ensures flight == if sent.Landed? then Notary.Submitted(old(flight).seqNo, old(flight).headHash, sent.txId) else Notary.Grounded
      ensures var note := BuildNote(old(flight).seqNo, old(flight).headHash);
              if sent.Unsent? then chain == old(chain) && ours == old(ours)
              else chain == old(chain)[sent.txId := note] && ours == old(ours) + {sent.txId}
    {
      hide Notary.RunAll;
      hide BuildNote;
      if sent.Tx().Some? {
        RunMore(db.H, trace, Notary.Submit(sent.txId));
        trace := trace + [Notary.Submit(sent.txId)];
        chain, ours := chain[sent.txId := BuildNote(flight.seqNo, flight.headHash)], ours + {sent.txId};
      }
      if !sent.Landed? {
        RunMore(db.H, trace, Notary.Fail);
        trace := trace + [Notary.Fail];
        flight := Notary.Grounded;
        return Some(Error);
      }
      flight := Notary.Submitted(flight.seqNo, flight.headHash, sent.txId);
      refused := None;
    }

    // record_anchor, and the lock released: however far the ledger has grown,
    // the anchor is of the head that was read.
    method Finish(stamp: Instant) returns (a: AnchorRow)
      requires Valid() && flight.Submitted?
      modifies this`flight, this`trace, db
      ensures Valid() && flight == Notary.Grounded && db.anchors == old(db.anchors) + [a]
      ensures a.seqNo == old(flight).seqNo && a.headHash == old(flight).headHash && a.txId == old(flight).txId
      ensures a.note == BuildNote(a.seqNo, a.headHash)
    {
      hide Notary.RunAll;
      hide BuildNote;
      hide Store.RecordAnchor;
      var f := flight;
      var note := BuildNote(f.seqNo, f.headHash);
      RunMore(db.H, trace, Notary.Record(stamp));
      AppliesAnchor(db.H, db.Value(), f.seqNo, f.headHash, f.txId, note, stamp);
      hide Apply;
      trace := trace + [Notary.Record(stamp)];
      a := db.RecordAnchor(f.seqNo, f.headHash, f.txId, note, stamp);
      flight := Notary.Grounded;
    }

    // anchor_now undisturbed: a transaction sent but not confirmed leaves its
    // note on the chain and no row behind.
    method AnchorNow(disabled: bool, sent: Submission, stamp: Instant) returns (status: Status)
      requires Valid() && (sent.Tx().Some? ==> sent.Tx().value !in chain)
      modifies this, db
      ensures Valid()
      ensures status == Disabled <==> disabled
      ensures status == Busy <==> !disabled && old(flight) != Notary.Grounded
      ensures status == NothingToAnchor <==> !disabled && old(flight) == Notary.Grounded && old(db.events) == []
      ensures status.Anchored? <==> !disabled && old(flight) == Notary.Grounded && old(db.events) != [] && sent.Landed?
      ensures status.Anchored? ==>
        && db.anchors == old(db.anchors) + [status.anchor] && status.anchor.txId == sent.txId
        && status.anchor.note == HeadNote(old(db.events))
      ensures flight == old(flight)
      ensures chain == if (status.Anchored? || status == Error) && !sent.Unsent?
                       then old(chain)[sent.txId := HeadNote(old(db.events))] else old(chain)
    {
      hide Notary.RunAll;
      hide BuildNote;
      var refused := ReadHead(disabled);
      if refused.Some? { return refused.value; }
      HeadPast(db.H, trace);
      refused := CheckLatest();
      assert refused == None;
      refused := Send(sent);
      if refused.Some? { return refused.value; }
      var a := Finish(stamp);
      status := Anchored(a);
    }

    // verify_anchor: the local recomputation, then the note on chain.
    method VerifyAnchor(a: AnchorRow, indexer: Indexer, checkOnchain: bool) returns (r: AnchorResult)
      ensures r == Anchor.VerifyAnchor(db.H, db.events, a, indexer, checkOnchain)
    {
      hide HashAtSeq;
      hide ParseNote;
      r := AnchorResult(false, Unchecked);
      var recomputed := db.HashAt(a.seqNo);
      if recomputed.Some? {
        r := r.(localMatch := recomputed.value == a.headHash);
      }
      if checkOnchain {
        var note := indexer(a.txId);
        if note.Some? {
          var parsed := ParseNote(note.value);
          if parsed == None {
            r := r.(onchain := Differs);
          } else {
            var (onchainSeq, onchainHash) := parsed.value;
            r := r.(onchain := if onchainSeq == a.seqNo && onchainHash == a.headHash then Matches else Differs);
          }
        }
      }
    }

    // integrity_report: the chain, then every recent anchor. "Tampered" is
    // the answer exactly when a row is out of place, unlinked or rewritten, or
    // the recomputed hash or the note on chain contradicts a recent anchor.
    method IntegrityReport(indexer: Indexer, checkOnchain: bool, limit: nat) returns (verdict: Verdict)
      ensures verdict == IntegrityVerdict(db.H, db.events, Notary.Newest(db.anchors, limit), indexer, checkOnchain)
      ensures verdict == Tampered <==>
                || (exists i :: 0 <= i < |db.events| && Bad(db.H, db.events, i))
                || (exists i :: 0 <= i < |db.anchors| && |db.anchors| - i <= limit
                                && Contradicted(db.H, db.events, db.anchors[i], indexer, checkOnchain))
      ensures verdict == Verified <==>
                verdict != Tampered && checkOnchain
                && exists i :: 0 <= i < |db.anchors| && |db.anchors| - i <= limit && indexer(db.anchors[i].txId).Some?
    {
      hide Anchor.VerifyAnchor;
      hide Link;
      hide Contradicted;
      hide HashAtSeq;
      hide ParseNote;
      var fault, _, _, _ := db.VerifyChain();
      IntactMeansValid(db.H, db.events, fault);
      var recent := Notary.Newest(db.anchors, limit);
      var failed, confirmed := false, false;
      for i := 0 to |recent|
        invariant failed <==> exists j :: 0 <= j < i && !Anchor.VerifyAnchor(db.H, db.events, recent[j], indexer, checkOnchain).Ok()
        invariant confirmed <==> exists j :: 0 <= j < i && Confirmed(db.H, db.events, recent[j], indexer, checkOnchain)
      {
        var r := VerifyAnchor(recent[i], indexer, checkOnchain);
        failed := failed || !r.Ok();
        confirmed := confirmed || (r.Ok() && r.onchain == Matches);
      }
      VerdictMeaning(db.H, db.events, recent, indexer, checkOnchain);
      Notary.NewestMeaning(db.anchors, limit);
      verdict := if fault != Intact || failed then Tampered else if confirmed then Verified else Unanchored;
    }
  }
}
