/** The demo tamper button and its undo log: events edited in place with
    their hashes recomputed, appends going on meanwhile, and a restore that
    replays the backups newest first. */
module Tamper {
  import opened Text
  import opened Ledger
  import Json

  datatype Backup = Backup(seqNo: int, payload: string, entryHash: string)

  // UPDATE audit_events SET payload, entry_hash WHERE seq = s
  function Put(rows: seq<Event>, s: int, payload: string, entryHash: string): (r: seq<Event>)
    ensures |r| == |rows|
    ensures forall i :: 0 <= i < |rows| ==>
              r[i] == if rows[i].seqNo == s then rows[i].(payload := payload, entryHash := entryHash) else rows[i]
  {
    if rows == [] then []
    else
      var n := |rows| - 1;
      var e := rows[n];
      Put(rows[..n], s, payload, entryHash)
        + [if e.seqNo == s then e.(payload := payload, entryHash := entryHash) else e]
  }

  // The payload with some of its members replaced, if it is an object.
  function Doctored(payload: string, fragment: map<string, Json.Value>): Option<string> {
    match Json.Loads(payload)
    case Some(Obj(fields)) => Some(Json.Dumps(Json.Obj(fields + fragment)))
    case _ => None
  }

  // Doctoring reads the payload, lets each member of the fragment win over
  // the payload's own, keeps the rest and writes the canonical text of that.
  lemma DoctoredMeaning(payload: string, fragment: map<string, Json.Value>)
    ensures var doctored := Doctored(payload, fragment);
            match Json.Loads(payload)
            case Some(Obj(fields)) =>
              && doctored.Some?
              && exists after: map<string, Json.Value> ::
                   && doctored.value == Json.Dumps(Json.Obj(after)) && Json.Loads(doctored.value) == Some(Json.Obj(after))
                   && (forall k :: k in after <==> k in fields || k in fragment)
                   && (forall k :: k in fragment ==> after[k] == fragment[k])
                   && (forall k :: k in fields && k !in fragment ==> after[k] == fields[k])
            case _ => doctored == None
  {
    hide Json.Dumps;
    hide Json.Loads;
    match Json.Loads(payload)
    case Some(Obj(fields)) => Json.LoadsDumps(Json.Obj(fields + fragment));
    case _ =>
  }

  // A fragment that says something new changes the payload.
  lemma DoctoredDiffers(payload: string, fields: map<string, Json.Value>, fragment: map<string, Json.Value>, k: string)
    requires Json.Loads(payload) == Some(Json.Obj(fields))
    requires k in fragment && (k !in fields || fields[k] != fragment[k])
    ensures Doctored(payload, fragment).Some? && Doctored(payload, fragment).value != payload
  {
    hide Json.Dumps;
    hide Json.Loads;
    hide Doctored;
    DoctoredMeaning(payload, fragment);
  }

  datatype Doctoring = Doctoring(rows: seq<Event>, backups: seq<Backup>)

  predicate HasSeq(rows: seq<Event>, s: int) {
    exists i :: 0 <= i < |rows| && rows[i].seqNo == s
  }

  ghost function RowAt(rows: seq<Event>, s: int): (e: Event)
    requires HasSeq(rows, s)
    ensures e in rows && e.seqNo == s
  {
    var i :| 0 <= i < |rows| && rows[i].seqNo == s;
    rows[i]
  }

  // A missing seq or a payload that is no object raises and rolls back.
  ghost function TamperWith(H: HashFn, d: Doctoring, s: int, fragment: map<string, Json.Value>): Doctoring {
    if !HasSeq(d.rows, s) then d
    else
      var e := RowAt(d.rows, s);
      match Doctored(e.payload, fragment)
      case None => d
      case Some(payload) =>
        Doctoring(Put(d.rows, s, payload, EntryHash(H, e.(payload := payload), e.prevHash)),
                  d.backups + [Backup(s, e.payload, e.entryHash)])
  }

  // The button rewrites that row alone, as a competent forger would, and
  // backs up what it overwrote.
  lemma TamperAt(H: HashFn, d: Doctoring, i: nat, fragment: map<string, Json.Value>)
    requires Keyed(d.rows) && i < |d.rows| && Doctored(d.rows[i].payload, fragment).Some?
    ensures var e := d.rows[i];
            var after := TamperWith(H, d, e.seqNo, fragment);
            && after.rows == EditCompetently(H, d.rows, i, Doctored(e.payload, fragment).value)
            && after.backups == d.backups + [Backup(e.seqNo, e.payload, e.entryHash)]
  {
    hide Doctored;
    hide EntryHash;
    var e := d.rows[i];
    assert HasSeq(d.rows, e.seqNo);
    var f := RowAt(d.rows, e.seqNo);
    var j: nat :| j < |d.rows| && d.rows[j] == f;
    assert i == j;
  }

  function Undo(rows: seq<Event>, backups: seq<Backup>): (r: seq<Event>)
    ensures |r| == |rows|
    ensures forall i :: 0 <= i < |rows| ==> r[i].seqNo == rows[i].seqNo
    decreases |backups|
  {
    if backups == [] then rows
    else
      var b := backups[|backups| - 1];
      Undo(Put(rows, b.seqNo, b.payload, b.entryHash), backups[..|backups| - 1])
  }

  function Restore(d: Doctoring): Doctoring {
    Doctoring(Undo(d.rows, d.backups), [])
  }

  // ---- runs of tampering and appending ----

  datatype Step =
    | Append(timestamp: string, eventType: string, payload: string)
    | Tamper(seqNo: int, fragment: map<string, Json.Value>)

  ghost function Next(H: HashFn, d: Doctoring, step: Step): Doctoring {
    match step
    case Append(t, k, p) => d.(rows := Ledger.Append(H, d.rows, t, k, p))
    case Tamper(s, fragment) => TamperWith(H, d, s, fragment)
  }

  ghost function Run(H: HashFn, start: seq<Event>, steps: seq<Step>): Doctoring
    decreases |steps|
  {
    if steps == [] then Doctoring(start, [])
    else Next(H, Run(H, start, steps[..|steps| - 1]), steps[|steps| - 1])
  }

  // The events the appends of a run wrote, as they were first written.
  ghost function Written(H: HashFn, start: seq<Event>, steps: seq<Step>): seq<Event>
    decreases |steps|
  {
    if steps == [] then []
    else
      var n := |steps| - 1;
      var before := Run(H, start, steps[..n]).rows;
      Written(H, start, steps[..n])
        + match steps[n]
          case Append(t, k, p) => [Successor(H, HeadSeq(before), HeadHash(before), t, k, p)]
          case Tamper(_, _) => []
  }

  // Backups name rows that exist, and the keys are still in order.
  ghost predicate Tracked(d: Doctoring) {
    && Keyed(d.rows)
    && forall b :: b in d.backups ==> b.seqNo <= HeadSeq(d.rows) && HasSeq(d.rows, b.seqNo)
  }

  lemma KeyedAppend(rows: seq<Event>, e: Event)
    requires Keyed(rows) && (rows != [] ==> e.seqNo > HeadSeq(rows))
    ensures Keyed(rows + [e])
  {
    var longer := rows + [e];
    forall i, j | 0 <= i < j < |longer| ensures longer[i].seqNo < longer[j].seqNo {
      if j == |rows| && i < |rows| - 1 { assert rows[i].seqNo < rows[|rows| - 1].seqNo; }
    }
  }

  lemma {:induction false} UndoAppend(rows: seq<Event>, e: Event, backups: seq<Backup>)
    requires forall b :: b in backups ==> b.seqNo != e.seqNo
    ensures Undo(rows + [e], backups) == Undo(rows, backups) + [e]
    decreases |backups|
  {
    if backups != [] {
      var n := |backups| - 1;
      var b := backups[n];
      assert b in backups;
      assert Put(rows + [e], b.seqNo, b.payload, b.entryHash) == Put(rows, b.seqNo, b.payload, b.entryHash) + [e];
      forall c | c in backups[..n] ensures c.seqNo != e.seqNo {
        assert c in backups;
      }
      UndoAppend(Put(rows, b.seqNo, b.payload, b.entryHash), e, backups[..n]);
    }
  }

  // Putting a row's old payload and hash back undoes one edit of it.
  lemma PutBack(rows: seq<Event>, e: Event, payload: string, entryHash: string)
    requires Keyed(rows) && e in rows
    ensures Put(Put(rows, e.seqNo, payload, entryHash), e.seqNo, e.payload, e.entryHash) == rows
  {
    var k :| 0 <= k < |rows| && rows[k] == e;
    assert forall i :: 0 <= i < |rows| && rows[i].seqNo == e.seqNo ==> i == k;
  }

  lemma PutTracked(d: Doctoring, s: int, payload: string, entryHash: string, b: Backup)
    requires Tracked(d) && HasSeq(d.rows, s) && b.seqNo == s
    ensures Tracked(Doctoring(Put(d.rows, s, payload, entryHash), d.backups + [b]))
  {
    var f := Put(d.rows, s, payload, entryHash);
    forall c | c in d.backups + [b] ensures c.seqNo <= HeadSeq(f) && HasSeq(f, c.seqNo) {
      assert HasSeq(d.rows, c.seqNo);
      var i :| 0 <= i < |d.rows| && d.rows[i].seqNo == c.seqNo;
      assert f[i].seqNo == c.seqNo;
    }
  }

  lemma TamperUndone(H: HashFn, d: Doctoring, s: int, fragment: map<string, Json.Value>)
    requires Tracked(d)
    ensures Tracked(TamperWith(H, d, s, fragment))
    ensures Restore(TamperWith(H, d, s, fragment)) == Restore(d)
  {
    hide Doctored;
    hide EntryHash;
    if HasSeq(d.rows, s) {
      var e := RowAt(d.rows, s);
      if Doctored(e.payload, fragment).Some? {
        var payload := Doctored(e.payload, fragment).value;
        EditUndone(d, e, payload, EntryHash(H, e.(payload := payload), e.prevHash));
      }
    }
  }

  lemma EditUndone(d: Doctoring, e: Event, payload: string, entryHash: string)
    requires Tracked(d) && e in d.rows
    ensures var d' := Doctoring(Put(d.rows, e.seqNo, payload, entryHash),
                                d.backups + [Backup(e.seqNo, e.payload, e.entryHash)]);
            Tracked(d') && Restore(d') == Restore(d)
  {
    hide Tracked;
    hide Put;
    hide Undo;
    assert Keyed(d.rows) by { TrackedKeyed(d); }
    hide Keyed;
    PresentSeq(d.rows, e);
    PutTracked(d, e.seqNo, payload, entryHash, Backup(e.seqNo, e.payload, e.entryHash));
    PutBack(d.rows, e, payload, entryHash);
    UndoLatest(Put(d.rows, e.seqNo, payload, entryHash), d.backups, Backup(e.seqNo, e.payload, e.entryHash));
  }

  lemma TrackedKeyed(d: Doctoring)
    requires Tracked(d)
    ensures Keyed(d.rows)
  {
  }

  lemma PresentSeq(rows: seq<Event>, e: Event)
    requires e in rows
    ensures HasSeq(rows, e.seqNo)
  {
  }

  lemma UndoLatest(rows: seq<Event>, backups: seq<Backup>, b: Backup)
    ensures Undo(rows, backups + [b]) == Undo(Put(rows, b.seqNo, b.payload, b.entryHash), backups)
  {
    hide Put;
    assert (backups + [b])[..|backups|] == backups;
  }

  lemma AppendUndone(H: HashFn, d: Doctoring, t: string, k: string, p: string)
    requires Tracked(d)
    ensures var d' := Next(H, d, Append(t, k, p));
            && Tracked(d')
            && Restore(d').rows == Restore(d).rows + [Successor(H, HeadSeq(d.rows), HeadHash(d.rows), t, k, p)]
  {
    hide Undo;
    hide EntryHash;
    var e := Successor(H, HeadSeq(d.rows), HeadHash(d.rows), t, k, p);
    AppendTracked(d, e);
    UndoAppend(d.rows, e, d.backups);
  }

  lemma AppendTracked(d: Doctoring, e: Event)
    requires Tracked(d) && e.seqNo == HeadSeq(d.rows) + 1
    ensures Tracked(d.(rows := d.rows + [e]))
  {
    KeyedAppend(d.rows, e);
    hide Keyed;
    forall b | b in d.backups ensures b.seqNo <= HeadSeq(d.rows + [e]) && HasSeq(d.rows + [e], b.seqNo) {
      var i :| 0 <= i < |d.rows| && d.rows[i].seqNo == b.seqNo;
      assert (d.rows + [e])[i].seqNo == b.seqNo;
    }
  }

  // After any run of edits and appends, restoring yields the original rows
  // followed by the appended ones, unchanged in every column.
  lemma {:induction false} RestoreIsExact(H: HashFn, start: seq<Event>, steps: seq<Step>)
    requires Keyed(start)
    ensures Tracked(Run(H, start, steps))
    ensures Restore(Run(H, start, steps)) == Doctoring(start + Written(H, start, steps), [])
    decreases |steps|
  {
    if steps == [] {
      assert start + [] == start;
    } else {
      var n := |steps| - 1;
      RestoreIsExact(H, start, steps[..n]);
      var d := Run(H, start, steps[..n]);
      match steps[n]
      case Append(t, k, p) =>
        AppendUndone(H, d, t, k, p);
        var e := Successor(H, HeadSeq(d.rows), HeadHash(d.rows), t, k, p);
        assert start + Written(H, start, steps) == (start + Written(H, start, steps[..n])) + [e];
      case Tamper(s, fragment) =>
        TamperUndone(H, d, s, fragment);
        assert Written(H, start, steps) == Written(H, start, steps[..n]);
    }
  }

  // Whether each append found the head's hash as it was first written.
  ghost predicate BuiltOnTruth(H: HashFn, start: seq<Event>, steps: seq<Step>) {
    forall i :: 0 <= i < |steps| && steps[i].Append?
      ==> HeadHash(Run(H, start, steps[..i]).rows) == HeadHash(start + Written(H, start, steps[..i]))
  }

  // The restored ledger verifies exactly when no append happened while the
  // then-head carried a changed hash.
  lemma {:induction false} RestoredVerifies(H: HashFn, start: seq<Event>, steps: seq<Step>)
    requires ValidChain(H, start)
    ensures ValidChain(H, Restore(Run(H, start, steps)).rows) <==> BuiltOnTruth(H, start, steps)
    decreases |steps|
  {
    ValidChainKeyed(H, start);
    RestoreIsExact(H, start, steps);
    if steps == [] {
      assert start + [] == start;
    } else {
      var n := |steps| - 1;
      RestoredVerifies(H, start, steps[..n]);
      RestoreIsExact(H, start, steps[..n]);
      TruthStep(H, start, steps);
      var d, truth := Run(H, start, steps[..n]), start + Written(H, start, steps[..n]);
      match steps[n]
      case Tamper(_, _) => TamperUndone(H, d, steps[n].seqNo, steps[n].fragment);
      case Append(t, k, p) =>
        AppendUndone(H, d, t, k, p);
        SameHeadSeq(d);
        var e := Successor(H, HeadSeq(d.rows), HeadHash(d.rows), t, k, p);
        assert (truth + [e])[..|truth|] == truth;
        if ValidChain(H, truth + [e]) { ValidPrefix(H, truth + [e], |truth|); }
        if ValidChain(H, truth) { ExtendValid(H, truth, e); }
    }
  }

  lemma SameHeadSeq(d: Doctoring)
    ensures HeadSeq(Restore(d).rows) == HeadSeq(d.rows)
  {
  }

  lemma TruthStep(H: HashFn, start: seq<Event>, steps: seq<Step>)
    requires steps != []
    ensures var n := |steps| - 1;
            BuiltOnTruth(H, start, steps) <==>
              && BuiltOnTruth(H, start, steps[..n])
              && (steps[n].Append? ==>
                    HeadHash(Run(H, start, steps[..n]).rows) == HeadHash(start + Written(H, start, steps[..n])))
  {
    hide Run;
    hide Written;
    var n := |steps| - 1;
    assert forall i :: 0 <= i < n ==> steps[..n][..i] == steps[..i] && steps[..n][i] == steps[i];
    if BuiltOnTruth(H, start, steps) {
      forall i | 0 <= i < n && steps[..n][i].Append?
        ensures HeadHash(Run(H, start, steps[..n][..i]).rows) == HeadHash(start + Written(H, start, steps[..n][..i]))
      {
        assert steps[i].Append?;
      }
    } else {
      var i :| 0 <= i < |steps| && steps[i].Append?
        && HeadHash(Run(H, start, steps[..i]).rows) != HeadHash(start + Written(H, start, steps[..i]));
      if i < n { assert steps[..n][i].Append?; }
    }
  }
}
