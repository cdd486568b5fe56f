/** The restart's sweep in its two phases: a selection made without the lock,
    then one update and one event for each selected row. */
module Sweep {
  import opened Text
  import opened Clock
  import opened Ledger
  import opened Store
  import opened View
  import Json
  import Limits

  lemma {:induction false} SweepFirst(H: HashFn, db: Db, picked: seq<Request>, stamp: Instant)
    requires picked != []
    ensures ReapRows(H, db, picked, stamp) ==
            match ReapRow(H, db, picked[0], stamp)
            case None => None
            case Some(mid) => ReapRows(H, mid, picked[1..], stamp)
  {
    hide ReapRow;
    var n := |picked| - 1;
    if n > 0 {
      SweepFirst(H, db, picked[..n], stamp);
      assert picked[..n][1..] == picked[1..][..n - 1];
    }
  }

  lemma SweepNothing(H: HashFn, db: Db, stamp: Instant)
    ensures ReapRows(H, db, [], stamp) == Some(db)
  {
  }

  // Nothing having changed since the selection, the two phases are the one
  // pass over the rows.
  lemma {:induction false} SweepIsReap(H: HashFn, db: Db, i: nat, cutoff: string, stamp: Instant)
    requires Numbered(db) && i <= |db.requests|
    ensures ReapFrom(H, db, i, cutoff, stamp) == ReapRows(H, db, Picked(db.requests[i..], cutoff), stamp)
    decreases |db.requests| - i
  {
    hide LogEvent;
    hide Json.Loads;
    hide Less;
    hide DecidedFields;
    hide ReapRow;
    hide ReapRows;
    if i == |db.requests| {
      SweepNothing(H, db, stamp);
    } else {
      var rows, rest := db.requests, db.requests[i + 1..];
      assert rows[i..][0] == rows[i] && rows[i..][1..] == rest;
      if !Stale(rows[i], cutoff) {
        assert Picked(rows[i..], cutoff) == Picked(rest, cutoff);
        assert ReapFrom(H, db, i, cutoff, stamp) == ReapFrom(H, db, i + 1, cutoff, stamp);
        SweepIsReap(H, db, i + 1, cutoff, stamp);
      } else {
        var picked := Picked(rows[i..], cutoff);
        assert picked[0] == rows[i] && picked[1..] == Picked(rest, cutoff);
        SweepFirst(H, db, picked, stamp);
        SweepRow(H, db, i, stamp);
        var loaded := Json.Loads(rows[i].params);
        if loaded.Some? {
          var next := ReapRow(H, db, rows[i], stamp).value;
          SweepIsReap(H, next, i + 1, cutoff, stamp);
        }
      }
    }
  }

  // Row i swept is row i reaped in place, and the rows after it are as before.
  lemma SweepRow(H: HashFn, db: Db, i: nat, stamp: Instant)
    requires Numbered(db) && i < |db.requests|
    ensures var rows, swept := db.requests, ReapRow(H, db, db.requests[i], stamp);
            match Json.Loads(rows[i].params)
            case None => swept == None
            case Some(params) =>
              var r := rows[i].(decision := Denied, reason := ABANDONED);
              && swept == Some(LogDecision(H, db.(requests := rows[i := r]), r.(txId := None), params, stamp))
              && Numbered(swept.value) && swept.value.requests == rows[i := r] && swept.value.requests[i + 1..] == rows[i + 1..]
  {
    hide LogEvent;
    hide Json.Loads;
    hide DecidedFields;
    var rows := db.requests;
    assert RowIndex(rows, rows[i].id) == i;
    var loaded := Json.Loads(rows[i].params);
    if loaded.Some? {
      var r := rows[i].(decision := Denied, reason := ABANDONED);
      Limits.LogOnly(H, db.(requests := rows[i := r]), DECIDED, AbandonedFields(rows[i], loaded.value), stamp);
    }
  }

  // What a sweep writes of a row.
  predicate SameEntry(r: Request, s: Request) {
    r.id == s.id && r.agent == s.agent && r.action == s.action && r.amount == s.amount && Json.Loads(r.params) == Json.Loads(s.params)
  }

  predicate SameSweep(p: seq<Request>, q: seq<Request>) {
    |p| == |q| && forall i :: 0 <= i < |p| ==> SameEntry(p[i], q[i])
  }

  // A swept row adds one event, with the row's entry.
  lemma ReapRowLogs(H: HashFn, db: Db, r: Request, stamp: Instant)
    requires ReapRow(H, db, r, stamp).Some?
    ensures var after := ReapRow(H, db, r, stamp).value.events;
            && |after| == |db.events| + 1 && db.events <= after
            && after[|db.events|].payload == Json.Dumps(AbandonedFields(r, Json.Loads(r.params).value))
  {
    hide Iso;
    hide Json.Dumps;
    hide Json.Loads;
    hide Link;
    hide HasRow;
  }

  lemma {:induction false} SweepLogs(H: HashFn, db: Db, picked: seq<Request>, stamp: Instant, i: nat)
    requires ReapRows(H, db, picked, stamp).Some? && i < |picked|
    ensures var after := ReapRows(H, db, picked, stamp).value.events;
            && |after| == |db.events| + |picked| && db.events <= after && Json.Loads(picked[i].params).Some?
            && after[|db.events| + i].payload == Json.Dumps(AbandonedFields(picked[i], Json.Loads(picked[i].params).value))
  {
    hide ReapRow;
    hide Json.Dumps;
    hide AbandonedFields;
    var n := |picked| - 1;
    var mid := ReapRows(H, db, picked[..n], stamp).value;
    if n == 0 { assert picked[..n] == []; } else { SweepLogs(H, db, picked[..n], stamp, if i < n then i else 0); }
    ReapRowLogs(H, mid, picked[n], stamp);
    assert Json.Loads(picked[n].params).Some? by { ReapRowParses(H, mid, picked[n], stamp); }
  }

  lemma ReapRowParses(H: HashFn, db: Db, r: Request, stamp: Instant)
    requires ReapRow(H, db, r, stamp).Some?
    ensures Json.Loads(r.params).Some?
  {
  }

  lemma SameEntrySwept(H: HashFn, db: Db, r: Request, s: Request, stamp: Instant)
    requires SameEntry(r, s)
    ensures ReapRow(H, db, r, stamp) == ReapRow(H, db, s, stamp)
  {
    hide Json.Loads;
    hide LogEvent;
  }

  lemma {:induction false} SameSweepSame(H: HashFn, db: Db, p: seq<Request>, q: seq<Request>, stamp: Instant)
    requires SameSweep(p, q)
    ensures ReapRows(H, db, p, stamp) == ReapRows(H, db, q, stamp)
  {
    hide ReapRow;
    hide SameEntry;
    if p != [] {
      var n := |p| - 1;
      SameSweepSame(H, db, p[..n], q[..n], stamp);
      assert SameEntry(p[n], q[n]);
      forall mid ensures ReapRow(H, mid, p[n], stamp) == ReapRow(H, mid, q[n], stamp) {
        SameEntrySwept(H, mid, p[n], q[n], stamp);
      }
    }
  }

  lemma EntryFromText(r: Request, s: Request)
    requires Json.Loads(r.params).Some? && Json.Loads(s.params).Some?
    requires Json.Dumps(AbandonedFields(r, Json.Loads(r.params).value)) == Json.Dumps(AbandonedFields(s, Json.Loads(s.params).value))
    ensures SameEntry(r, s)
  {
    hide Json.Dumps;
    hide Json.Loads;
    var v, w := AbandonedFields(r, Json.Loads(r.params).value), AbandonedFields(s, Json.Loads(s.params).value);
    Json.DumpsInjective(v, w);
    assert v.fields["request_id"] == w.fields["request_id"] && v.fields["agent_id"] == w.fields["agent_id"];
    assert v.fields["action"] == w.fields["action"] && v.fields["amount_usd"] == w.fields["amount_usd"];
    assert v.fields["params"] == w.fields["params"];
  }

  // Two selections sweep a database alike exactly when they list the same
  // entries in the same order.
  lemma {:induction false} SweepsAlikeIff(H: HashFn, db: Db, p: seq<Request>, q: seq<Request>, stamp: Instant)
    requires ReapRows(H, db, p, stamp).Some? && ReapRows(H, db, q, stamp).Some?
    ensures ReapRows(H, db, p, stamp) == ReapRows(H, db, q, stamp) <==> SameSweep(p, q)
  {
    hide ReapRows;
    hide SameEntry;
    hide AbandonedFields;
    hide Json.Dumps;
    hide Json.Loads;
    if SameSweep(p, q) {
      SameSweepSame(H, db, p, q, stamp);
    } else if ReapRows(H, db, p, stamp) == ReapRows(H, db, q, stamp) {
      SweepLength(H, db, p, stamp);
      SweepLength(H, db, q, stamp);
      forall i | 0 <= i < |p| ensures SameEntry(p[i], q[i]) {
        SweepLogs(H, db, p, stamp, i);
        SweepLogs(H, db, q, stamp, i);
        EntryFromText(p[i], q[i]);
      }
    }
  }

  lemma SweepLength(H: HashFn, db: Db, picked: seq<Request>, stamp: Instant)
    requires ReapRows(H, db, picked, stamp).Some?
    ensures |ReapRows(H, db, picked, stamp).value.events| == |db.events| + |picked|
  {
    hide ReapRow;
    if picked != [] { SweepLogs(H, db, picked, stamp, 0); }
  }

  lemma SweepNext(H: HashFn, db: Db, picked: seq<Request>, n: nat, stamp: Instant)
    requires n < |picked|
    ensures ReapRows(H, db, picked[..n + 1], stamp) ==
            match ReapRows(H, db, picked[..n], stamp) case None => None case Some(mid) => ReapRow(H, mid, picked[n], stamp)
  {
    hide ReapRow;
    assert picked[..n + 1][..n] == picked[..n];
  }

  // A sweep that fails part of the way fails altogether.
  lemma {:induction false} SweepStops(H: HashFn, db: Db, picked: seq<Request>, n: nat, stamp: Instant)
    requires n <= |picked| && ReapRows(H, db, picked[..n], stamp) == None
    ensures ReapRows(H, db, picked, stamp) == None
    decreases |picked| - n
  {
    hide ReapRow;
    if n == |picked| {
      assert picked[..n] == picked;
    } else {
      assert picked[..n + 1][..n] == picked[..n];
      SweepStops(H, db, picked, n + 1, stamp);
    }
  }
}
