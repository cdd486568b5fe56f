/** The storage functions as they run: tables updated in place, loops over
    rows, early exits and rollbacks, each proved to be the atomic step that
    the run theorems are about. */
module Database {
  import opened Text
  import opened Clock
  import opened Ledger
  import opened Anchor
  import opened Tamper
  import opened Store
  import opened CallParams
  import opened View
  import opened Sweep
  import Json
  import Notary

  class Sqlite {
    const H: HashFn
    var requests: seq<Request>
    var lastId: nat
    var events: seq<Event>
    var anchors: seq<AnchorRow>
    var lastAnchorId: nat
    var backups: seq<Backup>

    constructor (H: HashFn)
      ensures Value() == EMPTY && this.H == H
    {
      this.H := H;
      requests, lastId, events, anchors, lastAnchorId, backups := [], 0, [], [], 0, [];
    }

    function Value(): Db
      reads this
    {
      Db(requests, lastId, events, anchors, lastAnchorId, backups)
    }

    method AppendEventLocked(eventType: string, payload: Json.Value, stamp: Instant)
      modifies this`events
      ensures Value() == LogEvent(H, old(Value()), eventType, payload, stamp)
      ensures |events| == |old(events)| + 1 && events[..|old(events)|] == old(events)
      ensures events[|old(events)|].eventType == eventType && events[|old(events)|].payload == Json.Dumps(payload)
    {
      var s := 1;
      var prevHash: string := GENESIS_HASH;
      if events != [] {
        var row := events[|events| - 1];
        s, prevHash := row.seqNo + 1, row.entryHash;
      }
      var e := Event(s, Iso(stamp), eventType, Json.Dumps(payload), prevHash, "");
      events := events + [e.(entryHash := EntryHash(H, e, prevHash))];
    }

    // verify_chain: the first break, tested in the source's order.
    method VerifyChain() returns (fault: Fault, eventCount: nat, headSeq: int, headHash: Option<string>)
      ensures Explains(H, events, fault)
      ensures eventCount == |events| && headSeq == HeadSeq(events)
      ensures headHash == if events == [] then None else Some(HeadHash(events))
    {
      hide Link;
      hide Zeros;
      eventCount, headSeq, headHash := |events|, 0, None;
      if events != [] {
        headSeq, headHash := events[|events| - 1].seqNo, Some(events[|events| - 1].entryHash);
      }
      var prevHash: string := GENESIS_HASH;
      var expected := 1;
      for i := 0 to |events|
        invariant expected == i + 1
        invariant prevHash == HashBefore(events, i)
        invariant forall j :: 0 <= j < i ==> !Bad(H, events, j)
      {
        var row := events[i];
        if row.seqNo != expected {
          fault := Gap(row.seqNo, row.seqNo - expected);
          assert FirstBad(H, events, i) && fault == FaultAt(events, i);
          return;
        }
        if row.prevHash != prevHash {
          fault := BrokenLink(row.seqNo);
          assert FirstBad(H, events, i) && fault == FaultAt(events, i);
          return;
        }
        if EntryHash(H, row, row.prevHash) != row.entryHash {
          fault := Modified(row.seqNo);
          assert FirstBad(H, events, i) && fault == FaultAt(events, i);
          return;
        }
        prevHash := row.entryHash;
        expected := expected + 1;
      }
      fault := Intact;
    }

    // hash_at_seq: select, then carry the hash forward row by row.
    method HashAt(s: int) returns (r: Option<Digest>)
      ensures r == HashAtSeq(H, events, s)
    {
      var rows := UpTo(events, s);
      if rows == [] || rows[|rows| - 1].seqNo != s {
        return None;
      }
      var prevHash := GENESIS_HASH;
      for i := 0 to |rows|
        invariant prevHash == Rehash(H, rows, i)
      {
        prevHash := EntryHash(H, rows[i], prevHash);
      }
      r := Some(prevHash);
    }

    method RecordAnchor(s: int, headHash: string, txId: string, note: string, stamp: Instant) returns (a: AnchorRow)
      modifies this`anchors, this`lastAnchorId, this`events
      ensures Value() == Store.RecordAnchor(H, old(Value()), s, headHash, txId, note, stamp)
      ensures |events| == |old(events)| + 1 && events[|old(events)|].eventType == "audit.anchored"
      ensures events[|old(events)|].payload ==
                Json.Dumps(Json.Obj(map["seq" := Json.Num(s), "head_hash" := Json.Str(headHash), "tx_id" := Json.Str(txId)]))
      ensures anchors == old(anchors) + [a] && a.seqNo == s && a.headHash == headHash && a.txId == txId && a.note == note
    {
      hide LogEvent;
      hide Iso;
      hide Json.Dumps;
      a := AnchorRow(lastAnchorId + 1, s, headHash, txId, note);
      anchors, lastAnchorId := anchors + [a], a.id;
      AppendEventLocked(ANCHORED, AnchorFields(s, headHash, txId), stamp);
    }

    method LogRequest(agent: string, action: string, amount: Money, decision: Decision, reason: string, txId: Option<string>,
                      params: Params, now: Instant, stamp: Instant) returns (row: Request)
      modifies this`requests, this`lastId, this`events
      ensures Value() == LogRow(H, old(Value()), agent, action, amount, decision, reason, txId, params, now, stamp)
      ensures requests == old(requests) + [row] && lastId == old(lastId) + 1
      ensures row == Request(old(lastId) + 1, Iso(now), agent, action, amount, decision, reason, txId, CanonicalParams(params))
    {
      hide LogEvent;
      hide Iso;
      hide Json.Dumps;
      hide DecidedFields;
      row := Request(lastId + 1, Iso(now), agent, action, amount, decision, reason, txId, CanonicalParams(params));
      requests, lastId := requests + [row], row.id;
      AppendEventLocked(DECIDED, DecidedFields(row.id, agent, action, amount, ParamsValue(params), decision, reason, txId), stamp);
    }

    // try_reserve: BEGIN IMMEDIATE, two tests that may roll back, an insert
    // and its event, COMMIT.
    method TryReserve(ask: Ask, now: Instant, stamp: Instant) returns (outcome: Reservation)
      requires ask.window * US <= now
      modifies this`requests, this`lastId, this`events
      ensures outcome == Test(old(Value()), ask, now)
      ensures Value() == Store.TryReserve(H, old(Value()), ask, now, stamp)
      ensures !outcome.Admitted? ==> Value() == old(Value())
      ensures outcome.Admitted? ==>
        && requests == old(requests) + [outcome.row] && lastId == old(lastId) + 1
        && outcome.row == Request(old(lastId) + 1, Iso(now), ask.agent, ask.action, ask.amount, ask.state,
                                  if ask.state == Pending then "reserved, awaiting payment settlement"
                                  else "reserved, awaiting human approval", None, CanonicalParams(ask.params))
    {
      hide LogEvent;
      hide Iso;
      hide Json.Dumps;
      hide ReservedFields;
      hide CountSince;
      hide SpentOn;
      hide Pow2;
      var ts := Iso(now);
      if ask.limit.Some? {
        var recent := CountSince(requests, ask.agent, WindowCutoff(now, ask.window));
        if recent >= ask.limit.value {
          return OverVelocity(recent, ask.limit.value);
        }
      }
      var spent := SpentOn(requests, ask.agent, ts[..10]);
      if spent + ask.amount > ask.cap + TOLERANCE {
        return OverCap(spent);
      }
      var row := Request(lastId + 1, ts, ask.agent, ask.action, ask.amount, ask.state, HoldReason(ask.state), None,
                         CanonicalParams(ask.params));
      requests, lastId := requests + [row], row.id;
      AppendEventLocked(RESERVED, ReservedFields(row.id, ask.agent, ask.action, ask.amount, ParamsValue(ask.params), ask.state), stamp);
      outcome := Admitted(row);
    }

    // finalize: a missing row, or params that do not parse, rolls back.
    method Finalize(id: nat, decision: Decision, reason: string, txId: Option<string>, stamp: Instant) returns (row: Option<Request>)
      modifies this`requests, this`events
      ensures match Store.Finalize(H, old(Value()), id, decision, reason, txId, stamp)
              case None => row == None && Value() == old(Value())
              case Some(after) => row.Some? && row.value.id == id && row.value in requests && Value() == after
      ensures row.Some? ==> HasRow(old(requests), id) && var k := RowIndex(old(requests), id);
              && row.value == old(requests)[k].(decision := decision, reason := reason, txId := txId)
              && requests == old(requests)[k := row.value]
    {
      hide LogEvent;
      hide Iso;
      hide Json.Dumps;
      hide DecidedFields;
      hide Json.Loads;
      if !HasRow(requests, id) {
        return None;
      }
      var saved := requests;
      var k := RowIndex(requests, id);
      var r := requests[k].(decision := decision, reason := reason, txId := txId);
      requests := requests[k := r];
      var params := Json.Loads(r.params);
      if params == None {
        requests := saved;
        return None;
      }
      AppendEventLocked(DECIDED, DecidedFields(id, r.agent, r.action, r.amount, params.value, decision, reason, txId), stamp);
      assert requests[k] == r;
      row := Some(r);
    }

    // reap_stale_reservations: select, then resolve what was selected row by
    // row, in one transaction.
    method ReapStale(olderThan: nat, now: Instant, stamp: Instant) returns (ok: bool)
      requires olderThan * US <= now && Numbered(Value())
      modifies this`requests, this`events
      ensures match Reap(H, old(Value()), olderThan, now, stamp)
              case None => !ok && Value() == old(Value())
              case Some(after) => ok && Value() == after
    {
      hide LogEvent;
      hide Iso;
      hide Json.Dumps;
      hide DecidedFields;
      hide Json.Loads;
      hide Less;
      hide ReapFrom;
      hide ReapRow;
      hide ReapRows;
      hide Numbered;
      SweepNothing(H, Value(), stamp);
      var savedRequests, savedEvents := requests, events;
      ghost var start := Value();
      var cutoff := WindowCutoff(now, olderThan);
      var rows := Select(cutoff);
      assert requests[0..] == requests;
      SweepIsReap(H, start, 0, cutoff, stamp);
      assert rows[..0] == [];
      for j := 0 to |rows|
        invariant lastId == start.lastId && anchors == start.anchors && lastAnchorId == start.lastAnchorId && backups == start.backups
        invariant ReapRows(H, start, rows[..j], stamp) == Some(Value())
      {
        SweepNext(H, start, rows, j, stamp);
        ok := Abandon(rows[j], stamp);
        if !ok {
          SweepStops(H, start, rows, j + 1, stamp);
          requests, events := savedRequests, savedEvents;
          return;
        }
      }
      assert rows[..|rows|] == rows;
      ok := true;
    }

    // One selected row: its UPDATE and its event.
    method Abandon(r: Request, stamp: Instant) returns (ok: bool)
      modifies this`requests, this`events
      ensures match ReapRow(H, old(Value()), r, stamp)
              case None => !ok && Value() == old(Value())
              case Some(after) => ok && Value() == after
    {
      hide LogEvent;
      hide Json.Dumps;
      hide Json.Loads;
      hide DecidedFields;
      var params := Json.Loads(r.params);
      if params == None {
        return false;
      }
      if HasRow(requests, r.id) {
        var k := RowIndex(requests, r.id);
        requests := requests[k := requests[k].(decision := Denied, reason := ABANDONED)];
      }
      AppendEventLocked(DECIDED, AbandonedFields(r, params.value), stamp);
      ok := true;
    }

    method Select(cutoff: string) returns (rows: seq<Request>)
      ensures rows == Picked(requests, cutoff)
    {
      hide Picked;
      hide Stale;
      rows := [];
      PickedNext(requests, 0, cutoff);
      assert requests[0..] == requests;
      for i := 0 to |requests|
        invariant rows + Picked(requests[i..], cutoff) == Picked(requests, cutoff)
      {
        PickedNext(requests, i, cutoff);
        if Stale(requests[i], cutoff) {
          rows := rows + [requests[i]];
        }
      }
      PickedNext(requests, |requests|, cutoff);
    }

    method Reset(stamp: Instant)
      modifies this`requests, this`events
      ensures Value() == Store.Reset(H, old(Value()), |old(requests)|, stamp) && requests == []
      ensures |events| == |old(events)| + 1 && events[|old(events)|].eventType == "audit.reset"
      ensures events[|old(events)|].payload == Json.Dumps(Json.Obj(map["requests_cleared" := Json.Num(|old(requests)|)]))
    {
      hide Json.Dumps;
      var n := |requests|;
      requests := [];
      AppendEventLocked(RESET, ClearedFields(n), stamp);
    }

    method UnanchoredEventCount() returns (n: int)
      ensures n == Notary.UnanchoredCount(Value())
    {
      var d := HeadSeq(events) - Notary.MaxSeq(anchors);
      n := if d < 0 then 0 else d;
    }

    // tamper_with_event: back up, doctor the payload, recompute its hash.
    method TamperWithEvent(s: int, fragment: map<string, Json.Value>) returns (ok: bool)
      requires Keyed(events)
      modifies this`events, this`backups
      ensures Doctoring(events, backups) == TamperWith(H, old(Doctoring(events, backups)), s, fragment)
      ensures !ok ==> Value() == old(Value())
    {
      var i := 0;
      while i < |events| && events[i].seqNo != s
        invariant 0 <= i <= |events|
        invariant forall j :: 0 <= j < i ==> events[j].seqNo != s
      {
        i := i + 1;
      }
      if i == |events| {
        return false;
      }
      var row := events[i];
      assert HasSeq(events, s);
      assert row == RowAt(events, s);
      var doctored := Doctored(row.payload, fragment);
      if doctored == None {
        return false;
      }
      backups := backups + [Backup(s, row.payload, row.entryHash)];
      var newHash := EntryHash(H, row.(payload := doctored.value), row.prevHash);
      events := Put(events, s, doctored.value, newHash);
      ok := true;
    }

    // restore_tampered: every backup put back, newest first.
    method RestoreTampered()
      modifies this`events, this`backups
      ensures Doctoring(events, backups) == Restore(old(Doctoring(events, backups)))
    {
      hide Undo;
      hide Put;
      var k := |backups|;
      assert backups[..k] == backups;
      while k > 0
        invariant 0 <= k <= |backups| && backups == old(backups)
        invariant Undo(events, backups[..k]) == Undo(old(events), old(backups))
      {
        var b := backups[k - 1];
        UndoOne(events, backups[..k]);
        assert backups[..k][..k - 1] == backups[..k - 1];
        events := Put(events, b.seqNo, b.payload, b.entryHash);
        k := k - 1;
      }
      UndoNone(events);
      backups := [];
    }
  }

  lemma PickedNext(rows: seq<Request>, i: nat, cutoff: string)
    requires i <= |rows|
    ensures Picked(rows[i..], cutoff) ==
            if i == |rows| then [] else (if Stale(rows[i], cutoff) then [rows[i]] else []) + Picked(rows[i + 1..], cutoff)
  {
    hide Stale;
    if i < |rows| { assert rows[i..][0] == rows[i] && rows[i..][1..] == rows[i + 1..]; }
  }

  lemma UndoOne(rows: seq<Event>, backups: seq<Backup>)
    requires backups != []
    ensures var n := |backups| - 1;
            Undo(rows, backups) == Undo(Put(rows, backups[n].seqNo, backups[n].payload, backups[n].entryHash), backups[..n])
  {
  }

  lemma UndoNone(rows: seq<Event>)
    ensures Undo(rows, []) == rows
  {
  }
}
