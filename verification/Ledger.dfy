/** The audit ledger: a table of events in key order, each committing to the
    one before it. The hash is a parameter; results that need it to be
    collision-free exhibit the two strings that collide instead. */
module Ledger {
  import opened Text

  function Zeros(n: nat): (s: string)
    ensures |s| == n && NoBar(s)
  {
    if n == 0 then "" else "0" + Zeros(n - 1)
  }

  const DIGEST_LENGTH: nat := 64

  type Digest = s: string | |s| == DIGEST_LENGTH && NoBar(s) witness Zeros(DIGEST_LENGTH)
  type HashFn = string -> Digest

  const GENESIS_HASH: Digest := Zeros(DIGEST_LENGTH)

  datatype Event = Event(
    seqNo: int,
    timestamp: string,
    eventType: string,
    payload: string,
    prevHash: string,
    entryHash: string)

  function Material(seqNo: int, timestamp: string, eventType: string, payload: string, prevHash: string): string {
    DecInt(seqNo) + "|" + (timestamp + "|" + (eventType + "|" + (payload + "|" + prevHash)))
  }

  function EntryHash(H: HashFn, e: Event, prevHash: string): Digest {
    H(Link(e, prevHash))
  }

  // The text an event is hashed as when it follows prevHash.
  function Link(e: Event, prevHash: string): string {
    Material(e.seqNo, e.timestamp, e.eventType, e.payload, prevHash)
  }

  predicate Collides(H: HashFn, x: string, y: string) {
    x != y && H(x) == H(y)
  }

  predicate Unbarred(e: Event) {
    NoBar(e.timestamp) && NoBar(e.eventType)
  }

  predicate SameFields(e: Event, f: Event) {
    e.seqNo == f.seqNo && e.timestamp == f.timestamp && e.eventType == f.eventType && e.payload == f.payload
  }

  lemma LinkSuffix(e: Event, p: string)
    ensures Link(e, p) == (DecInt(e.seqNo) + "|" + (e.timestamp + "|" + (e.eventType + "|" + e.payload))) + "|" + p
  {
    var n, t, k := DecInt(e.seqNo), e.timestamp, e.eventType;
    assert e.payload + "|" + p == e.payload + ("|" + p);
    assert k + "|" + (e.payload + ("|" + p)) == (k + "|" + e.payload) + ("|" + p);
    assert t + "|" + ((k + "|" + e.payload) + ("|" + p)) == (t + "|" + (k + "|" + e.payload)) + ("|" + p);
  }

  // When an unbarred event and another event hash the same text after
  // equally long predecessors, they follow the same predecessor, and they
  // carry the same fields exactly when the other event is unbarred too.
  lemma LinkInjective(e: Event, p: string, f: Event, q: string)
    requires |p| == |q| && Unbarred(e) && Link(e, p) == Link(f, q)
    ensures p == q && e.seqNo == f.seqNo
    ensures SameFields(e, f) <==> Unbarred(f)
  {
    LinkSuffix(e, p);
    LinkSuffix(f, q);
    SuffixSplit(DecInt(e.seqNo) + "|" + (e.timestamp + "|" + (e.eventType + "|" + e.payload)), p,
                DecInt(f.seqNo) + "|" + (f.timestamp + "|" + (f.eventType + "|" + f.payload)), q);
    BarSplit(DecInt(e.seqNo), e.timestamp + "|" + (e.eventType + "|" + e.payload),
             DecInt(f.seqNo), f.timestamp + "|" + (f.eventType + "|" + f.payload));
    DecIntInjective(e.seqNo, f.seqNo);
    if Unbarred(f) {
      BarSplit(e.timestamp, e.eventType + "|" + e.payload, f.timestamp, f.eventType + "|" + f.payload);
      BarSplit(e.eventType, e.payload, f.eventType, f.payload);
    }
  }

  // Changing the payload alone always changes the hashed text.
  lemma PayloadChangesLink(e: Event, payload: string)
    ensures Link(e.(payload := payload), e.prevHash) == Link(e, e.prevHash) <==> payload == e.payload
  {
    var f := e.(payload := payload);
    LinkSuffix(e, e.prevHash);
    LinkSuffix(f, e.prevHash);
    var head := DecInt(e.seqNo) + "|" + (e.timestamp + "|" + (e.eventType + "|"));
    assert head + e.payload == DecInt(e.seqNo) + "|" + (e.timestamp + "|" + (e.eventType + "|" + e.payload));
    assert head + payload == DecInt(e.seqNo) + "|" + (e.timestamp + "|" + (e.eventType + "|" + payload));
    assert e.payload == (head + e.payload)[|head|..] && payload == (head + payload)[|head|..];
    if Link(f, e.prevHash) == Link(e, e.prevHash) {
      SuffixSplit(head + e.payload, e.prevHash, head + payload, e.prevHash);
    }
  }

  // ---- valid chains and what verify_chain reports ----

  // The primary key keeps the rows in ascending order, one per seq.
  predicate Keyed(rows: seq<Event>) {
    forall i, j :: 0 <= i < j < |rows| ==> rows[i].seqNo < rows[j].seqNo
  }

  function HashBefore(rows: seq<Event>, i: nat): string
    requires i <= |rows|
  {
    if i == 0 then GENESIS_HASH else rows[i - 1].entryHash
  }

  predicate OutOfPlace(rows: seq<Event>, i: nat)
    requires i < |rows|
  {
    rows[i].seqNo != i + 1
  }

  predicate Unlinked(rows: seq<Event>, i: nat)
    requires i < |rows|
  {
    rows[i].prevHash != HashBefore(rows, i)
  }

  predicate Rewritten(H: HashFn, rows: seq<Event>, i: nat)
    requires i < |rows|
  {
    EntryHash(H, rows[i], rows[i].prevHash) != rows[i].entryHash
  }

  predicate Bad(H: HashFn, rows: seq<Event>, i: nat)
    requires i < |rows|
  {
    OutOfPlace(rows, i) || Unlinked(rows, i) || Rewritten(H, rows, i)
  }

  ghost predicate ValidChain(H: HashFn, rows: seq<Event>) {
    forall i :: 0 <= i < |rows| ==> !Bad(H, rows, i)
  }

  datatype Fault =
    | Intact
    | Gap(at: int, missing: int)
    | BrokenLink(at: int)
    | Modified(at: int)

  ghost predicate FirstBad(H: HashFn, rows: seq<Event>, k: nat) {
    && k < |rows| && Bad(H, rows, k)
    && forall i :: 0 <= i < k ==> !Bad(H, rows, i)
  }

  // What is wrong with row k, the sequence tested before the link and the
  // link before the contents.
  function FaultAt(rows: seq<Event>, k: nat): Fault
    requires k < |rows|
  {
    if OutOfPlace(rows, k) then Gap(rows[k].seqNo, rows[k].seqNo - (k + 1))
    else if Unlinked(rows, k) then BrokenLink(rows[k].seqNo)
    else Modified(rows[k].seqNo)
  }

  ghost predicate Explains(H: HashFn, rows: seq<Event>, fault: Fault) {
    if fault.Intact? then ValidChain(H, rows)
    else exists k :: FirstBad(H, rows, k) && fault == FaultAt(rows, k)
  }

  // Every table has one explanation, and it names the least bad seq.
  lemma OneExplanation(H: HashFn, rows: seq<Event>, f: Fault, g: Fault)
    requires Explains(H, rows, f) && Explains(H, rows, g)
    ensures f == g
  {
    if !f.Intact? && !g.Intact? {
      var j: nat :| FirstBad(H, rows, j) && f == FaultAt(rows, j);
      var k: nat :| FirstBad(H, rows, k) && g == FaultAt(rows, k);
      assert j == k;
    }
  }

  lemma LeastBadSeq(H: HashFn, rows: seq<Event>, fault: Fault, i: nat)
    requires Keyed(rows) && Explains(H, rows, fault) && i < |rows| && Bad(H, rows, i)
    ensures !fault.Intact? && fault.at <= rows[i].seqNo
    ensures exists k :: 0 <= k < |rows| && Bad(H, rows, k) && rows[k].seqNo == fault.at
  {
    var k: nat :| FirstBad(H, rows, k) && fault == FaultAt(rows, k);
    assert k <= i;
  }

  lemma ValidChainKeyed(H: HashFn, rows: seq<Event>)
    requires ValidChain(H, rows)
    ensures Keyed(rows)
  {
    forall i, j | 0 <= i < j < |rows| ensures rows[i].seqNo < rows[j].seqNo {
      assert !Bad(H, rows, i) && !Bad(H, rows, j);
    }
  }

  lemma ValidPrefix(H: HashFn, rows: seq<Event>, n: nat)
    requires ValidChain(H, rows) && n <= |rows|
    ensures ValidChain(H, rows[..n])
  {
    forall i | 0 <= i < n ensures !Bad(H, rows[..n], i) {
      assert !Bad(H, rows, i);
    }
  }

  // ---- appending ----

  function HeadSeq(rows: seq<Event>): int {
    if rows == [] then 0 else rows[|rows| - 1].seqNo
  }

  function HeadHash(rows: seq<Event>): string {
    if rows == [] then GENESIS_HASH else rows[|rows| - 1].entryHash
  }

  // The event an append builds on top of a head it has read.
  function Successor(H: HashFn, headSeq: int, headHash: string, timestamp: string, eventType: string, payload: string): Event {
    var e := Event(headSeq + 1, timestamp, eventType, payload, headHash, "");
    e.(entryHash := EntryHash(H, e, headHash))
  }

  function Append(H: HashFn, rows: seq<Event>, timestamp: string, eventType: string, payload: string): (r: seq<Event>) {
    rows + [Successor(H, HeadSeq(rows), HeadHash(rows), timestamp, eventType, payload)]
  }

  lemma ValidHead(H: HashFn, rows: seq<Event>)
    requires ValidChain(H, rows)
    ensures HeadSeq(rows) == |rows|
  {
    if rows != [] { assert !Bad(H, rows, |rows| - 1); }
  }

  // One more event on a valid chain leaves a valid chain exactly when that
  // event is the successor of the chain's own head.
  lemma ExtendValid(H: HashFn, rows: seq<Event>, e: Event)
    requires ValidChain(H, rows)
    ensures ValidChain(H, rows + [e])
       <==> e == Successor(H, HeadSeq(rows), HeadHash(rows), e.timestamp, e.eventType, e.payload)
  {
    var longer := rows + [e];
    ValidHead(H, rows);
    forall i | 0 <= i < |rows| ensures !Bad(H, longer, i) {
      assert !Bad(H, rows, i);
    }
    var s := Successor(H, HeadSeq(rows), HeadHash(rows), e.timestamp, e.eventType, e.payload);
    assert Link(s, s.prevHash) == Link(Event(s.seqNo, e.timestamp, e.eventType, e.payload, s.prevHash, ""), s.prevHash);
    assert HashBefore(longer, |rows|) == HeadHash(rows);
    assert !Bad(H, longer, |rows|) <==> e == s by {
      if !Bad(H, longer, |rows|) {
        assert longer[|rows|] == e && e.seqNo == |rows| + 1 && e.prevHash == HeadHash(rows);
        assert Link(e, e.prevHash) == Link(s, s.prevHash);
        assert e.entryHash == s.entryHash;
      }
    }
  }

  lemma AppendValid(H: HashFn, rows: seq<Event>, timestamp: string, eventType: string, payload: string)
    requires ValidChain(H, rows)
    ensures ValidChain(H, Append(H, rows, timestamp, eventType, payload))
  {
    ExtendValid(H, rows, Successor(H, HeadSeq(rows), HeadHash(rows), timestamp, eventType, payload));
  }

  // ---- recomputing the head at a seq ----

  // The hash after the first n rows, carried forward from the genesis hash.
  function Rehash(H: HashFn, rows: seq<Event>, n: nat): Digest
    requires n <= |rows|
  {
    if n == 0 then GENESIS_HASH else EntryHash(H, rows[n - 1], Rehash(H, rows, n - 1))
  }

  // SELECT ... WHERE seq <= s, in key order.
  function UpTo(rows: seq<Event>, s: int): seq<Event> {
    if rows == [] then []
    else UpTo(rows[..|rows| - 1], s) + (if rows[|rows| - 1].seqNo <= s then [rows[|rows| - 1]] else [])
  }

  function HashAtSeq(H: HashFn, rows: seq<Event>, s: int): Option<Digest> {
    var selected := UpTo(rows, s);
    if selected == [] || selected[|selected| - 1].seqNo != s then None
    else Some(Rehash(H, selected, |selected|))
  }

  lemma {:induction false} UpToAll(rows: seq<Event>, s: int)
    requires forall i :: 0 <= i < |rows| ==> rows[i].seqNo <= s
    ensures UpTo(rows, s) == rows
  {
    if rows != [] {
      var n := |rows| - 1;
      UpToAll(rows[..n], s);
      assert rows[..n] + [rows[n]] == rows;
    }
  }

  lemma {:induction false} UpToCut(rows: seq<Event>, n: nat, s: int)
    requires n <= |rows|
    requires forall i :: 0 <= i < n ==> rows[i].seqNo <= s
    requires forall i :: n <= i < |rows| ==> rows[i].seqNo > s
    ensures UpTo(rows, s) == rows[..n]
  {
    if n == |rows| {
      UpToAll(rows, s);
      assert rows[..n] == rows;
    } else {
      var front := rows[..|rows| - 1];
      UpToCut(front, n, s);
      assert front[..n] == rows[..n];
    }
  }

  lemma UpToPrefix(rows: seq<Event>, s: nat)
    requires forall i :: 0 <= i < |rows| ==> rows[i].seqNo == i + 1
    ensures UpTo(rows, s) == if s <= |rows| then rows[..s] else rows
  {
    hide UpTo;
    if s <= |rows| { UpToCut(rows, s, s); } else { UpToAll(rows, s); }
  }

  lemma {:induction false} RehashPrefix(H: HashFn, rows: seq<Event>, more: seq<Event>, n: nat)
    requires n <= |rows|
    ensures Rehash(H, rows + more, n) == Rehash(H, rows, n)
  {
    if n > 0 { RehashPrefix(H, rows, more, n - 1); }
  }

  lemma {:induction false} RehashValid(H: HashFn, rows: seq<Event>, n: nat)
    requires ValidChain(H, rows) && n <= |rows|
    ensures Rehash(H, rows, n) == HashBefore(rows, n)
  {
    if n > 0 {
      RehashValid(H, rows, n - 1);
      assert !Bad(H, rows, n - 1);
    }
  }

  // On a valid chain the recomputed head at s is the hash stored there, and
  // there is none outside the chain.
  lemma HashAtSeqValid(H: HashFn, rows: seq<Event>, s: int)
    requires ValidChain(H, rows)
    ensures 1 <= s <= |rows| ==> HashAtSeq(H, rows, s) == Some(rows[s - 1].entryHash)
    ensures !(1 <= s <= |rows|) ==> HashAtSeq(H, rows, s) == None
  {
    forall i | 0 <= i < |rows| ensures rows[i].seqNo == i + 1 {
      assert !Bad(H, rows, i);
    }
    if s < 1 {
      NothingBelow(rows, s);
    } else {
      UpToPrefix(rows, s);
      if s <= |rows| {
        RehashValid(H, rows, s);
        assert rows == rows[..s] + rows[s..];
        RehashPrefix(H, rows[..s], rows[s..], s);
      }
    }
  }

  lemma {:induction false} NothingBelow(rows: seq<Event>, s: int)
    requires forall i :: 0 <= i < |rows| ==> rows[i].seqNo > s
    ensures UpTo(rows, s) == []
  {
    if rows != [] { NothingBelow(rows[..|rows| - 1], s); }
  }

  // ---- two ledgers with the same head ----

  // Searching back from a common head for the two texts that collide.
  function FindCollision(H: HashFn, a: seq<Event>, b: seq<Event>, n: nat): Option<(string, string)>
    requires n <= |a| && n <= |b|
  {
    if n == 0 then None
    else
      var x, y := Link(a[n - 1], Rehash(H, a, n - 1)), Link(b[n - 1], Rehash(H, b, n - 1));
      if x != y then Some((x, y)) else FindCollision(H, a, b, n - 1)
  }

  // A row has the honest row's fields exactly when it is unbarred.
  predicate RowAgrees(e: Event, f: Event) {
    e.seqNo == f.seqNo && (SameFields(e, f) <==> Unbarred(f))
  }

  ghost predicate CommonOrCollision(H: HashFn, a: seq<Event>, b: seq<Event>, n: nat, c: Option<(string, string)>)
    requires n <= |a| && n <= |b|
  {
    match c
    case Some((x, y)) => Collides(H, x, y)
    case None => forall i :: 0 <= i < n ==> RowAgrees(a[i], b[i])
  }

  // One step back: the two rows collide, or they hash the same text and
  // follow a common head of their own.
  lemma CommonLink(H: HashFn, a: seq<Event>, b: seq<Event>, n: nat)
    requires 0 < n <= |a| && n <= |b| && Rehash(H, a, n) == Rehash(H, b, n)
    ensures var x, y := Link(a[n - 1], Rehash(H, a, n - 1)), Link(b[n - 1], Rehash(H, b, n - 1));
            if x != y then Collides(H, x, y) && FindCollision(H, a, b, n) == Some((x, y))
            else Rehash(H, a, n - 1) == Rehash(H, b, n - 1) && FindCollision(H, a, b, n) == FindCollision(H, a, b, n - 1)
  {
    var p, q := Rehash(H, a, n - 1), Rehash(H, b, n - 1);
    if Link(a[n - 1], p) == Link(b[n - 1], q) {
      SameLinkSameHash(a[n - 1], p, b[n - 1], q);
    }
  }

  lemma {:induction false} CollisionFound(H: HashFn, a: seq<Event>, b: seq<Event>, n: nat)
    requires n <= |a| && n <= |b| && Rehash(H, a, n) == Rehash(H, b, n)
    ensures match FindCollision(H, a, b, n)
            case Some((x, y)) => Collides(H, x, y)
            case None => true
  {
    hide Link;
    if n > 0 {
      CommonLink(H, a, b, n);
      if Rehash(H, a, n - 1) == Rehash(H, b, n - 1) {
        CollisionFound(H, a, b, n - 1);
      }
    }
  }

  lemma SameLinkSameHash(e: Event, p: Digest, f: Event, q: Digest)
    requires Link(e, p) == Link(f, q)
    ensures p == q
  {
    LinkSuffix(e, p);
    LinkSuffix(f, q);
    SuffixSplit(DecInt(e.seqNo) + "|" + (e.timestamp + "|" + (e.eventType + "|" + e.payload)), p,
                DecInt(f.seqNo) + "|" + (f.timestamp + "|" + (f.eventType + "|" + f.payload)), q);
  }

  // Walking back from the common head to row i.
  lemma {:induction false} CommonRow(H: HashFn, a: seq<Event>, b: seq<Event>, n: nat, i: nat)
    requires i < n <= |a| && n <= |b| && Rehash(H, a, n) == Rehash(H, b, n)
    requires FindCollision(H, a, b, n) == None && Unbarred(a[i])
    ensures RowAgrees(a[i], b[i])
  {
    hide Link;
    CommonLink(H, a, b, n);
    if i == n - 1 {
      LinkInjective(a[i], Rehash(H, a, i), b[i], Rehash(H, b, i));
    } else {
      CommonRow(H, a, b, n - 1, i);
    }
  }

  // Either the search finds two different texts with one hash, or every row
  // below the common head hashes the same text and, where the first ledger
  // is unbarred, the second has the same fields exactly when it is too.
  lemma CommonHead(H: HashFn, a: seq<Event>, b: seq<Event>, n: nat)
    requires n <= |a| && n <= |b| && Rehash(H, a, n) == Rehash(H, b, n)
    requires forall i :: 0 <= i < n ==> Unbarred(a[i])
    ensures CommonOrCollision(H, a, b, n, FindCollision(H, a, b, n))
  {
    CollisionFound(H, a, b, n);
    if FindCollision(H, a, b, n) == None {
      forall i | 0 <= i < n ensures RowAgrees(a[i], b[i]) {
        CommonRow(H, a, b, n, i);
      }
    }
  }

  // ---- moving the separator ----

  // The event whose type takes over its payload up to the bar at j.
  function Shifted(e: Event, j: nat): Event
    requires j < |e.payload|
  {
    e.(eventType := e.eventType + "|" + e.payload[..j], payload := e.payload[j + 1..])
  }

  lemma ShiftedLink(e: Event, j: nat, p: string)
    requires j < |e.payload| && e.payload[j] == '|'
    ensures Link(Shifted(e, j), p) == Link(e, p)
  {
    var u, w, k := e.payload[..j], e.payload[j + 1..], e.eventType;
    assert e.payload == u + "|" + w;
    assert k + "|" + (e.payload + "|" + p) == (k + "|" + u) + "|" + (w + "|" + p);
  }

  // A payload with a bar in it lets the type of any event of any valid chain
  // be rewritten: the table verifies as before, every recomputed head is what
  // it was, and yet the row is a different one.
  lemma BarredTypeShifts(H: HashFn, rows: seq<Event>, i: nat, j: nat)
    requires ValidChain(H, rows) && i < |rows| && j < |rows[i].payload| && rows[i].payload[j] == '|'
    ensures var edited := rows[i := Shifted(rows[i], j)];
            && ValidChain(H, edited) && !(rows <= edited) && !SameFields(rows[i], edited[i])
            && forall s :: HashAtSeq(H, edited, s) == HashAtSeq(H, rows, s)
  {
    hide Link;
    hide HashAtSeq;
    var e, edited := rows[i], rows[i := Shifted(rows[i], j)];
    ShiftedLink(e, j, e.prevHash);
    forall k | 0 <= k < |rows| ensures !Bad(H, edited, k) {
      assert !Bad(H, rows, k);
      assert HashBefore(edited, k) == HashBefore(rows, k);
    }
    forall s ensures HashAtSeq(H, edited, s) == HashAtSeq(H, rows, s) {
      HashAtSeqValid(H, rows, s);
      HashAtSeqValid(H, edited, s);
      if 1 <= s <= |rows| { assert edited[s - 1].entryHash == rows[s - 1].entryHash; }
    }
    assert |edited[i].eventType| > |e.eventType|;
  }

  // ---- what each kind of edit does to an honest ledger ----

  function EditLazily(rows: seq<Event>, i: nat, payload: string): seq<Event>
    requires i < |rows|
  {
    rows[i := rows[i].(payload := payload)]
  }

  function EditCompetently(H: HashFn, rows: seq<Event>, i: nat, payload: string): seq<Event>
    requires i < |rows|
  {
    var e := rows[i].(payload := payload);
    rows[i := e.(entryHash := EntryHash(H, e, e.prevHash))]
  }

  // A payload edited under its old hash is reported at that very seq, except
  // for a collision.
  lemma LazyEdit(H: HashFn, rows: seq<Event>, i: nat, payload: string)
    requires ValidChain(H, rows) && i < |rows| && payload != rows[i].payload
    ensures var e := rows[i];
            var x, y := Link(e, e.prevHash), Link(e.(payload := payload), e.prevHash);
            && (Explains(H, EditLazily(rows, i, payload), Modified(i + 1)) <==> !Collides(H, x, y))
            && (ValidChain(H, EditLazily(rows, i, payload)) <==> Collides(H, x, y))
  {
    var edited := EditLazily(rows, i, payload);
    PayloadChangesLink(rows[i], payload);
    forall j | 0 <= j < |rows| && j != i ensures !Bad(H, edited, j) {
      assert !Bad(H, rows, j);
      assert HashBefore(edited, j) == HashBefore(rows, j);
    }
    assert !Bad(H, rows, i);
    assert HashBefore(edited, i) == HashBefore(rows, i);
    if Rewritten(H, edited, i) {
      assert FirstBad(H, edited, i) && FaultAt(edited, i) == Modified(i + 1);
    } else {
      assert ValidChain(H, edited);
    }
  }

  // A payload edited together with its own hash is reported at the next seq
  // -- except at the head, where the table verifies and only an anchor taken
  // there disagrees.
  lemma CompetentEdit(H: HashFn, rows: seq<Event>, i: nat, payload: string)
    requires ValidChain(H, rows) && i < |rows| && payload != rows[i].payload
    ensures var e, edited := rows[i], EditCompetently(H, rows, i, payload);
            var x, y := Link(e, e.prevHash), Link(e.(payload := payload), e.prevHash);
            && (i + 1 < |rows| ==>
                  && (Explains(H, edited, BrokenLink(i + 2)) <==> !Collides(H, x, y))
                  && (ValidChain(H, edited) <==> Collides(H, x, y)))
            && (i + 1 == |rows| ==>
                  && ValidChain(H, edited)
                  && (HashAtSeq(H, edited, i + 1) != Some(e.entryHash) <==> !Collides(H, x, y)))
  {
    var e, edited := rows[i], EditCompetently(H, rows, i, payload);
    var f := edited[i];
    PayloadChangesLink(e, payload);
    assert Link(f, f.prevHash) == Link(e.(payload := payload), e.prevHash);
    assert !Bad(H, rows, i);
    forall j | 0 <= j < |rows| && j != i + 1 ensures !Bad(H, edited, j) {
      assert !Bad(H, rows, j);
      assert HashBefore(edited, j) == HashBefore(rows, j);
    }
    if i + 1 < |rows| {
      assert !Bad(H, rows, i + 1);
      assert HashBefore(edited, i + 1) == f.entryHash && HashBefore(rows, i + 1) == e.entryHash;
      if f.entryHash != e.entryHash {
        assert FirstBad(H, edited, i + 1) && FaultAt(edited, i + 1) == BrokenLink(i + 2);
      } else {
        assert !Bad(H, edited, i + 1);
        assert ValidChain(H, edited);
      }
    } else {
      assert ValidChain(H, edited);
      HashAtSeqValid(H, edited, i + 1);
    }
  }

  // Deleting rows i..j-1 from the middle is reported at the first survivor,
  // with the exact number of rows that are gone.
  lemma InteriorDeletion(H: HashFn, rows: seq<Event>, i: nat, j: nat)
    requires ValidChain(H, rows) && i < j < |rows|
    ensures Explains(H, rows[..i] + rows[j..], Gap(j + 1, j - i))
  {
    var left := rows[..i] + rows[j..];
    forall k | 0 <= k < i ensures !Bad(H, left, k) {
      assert !Bad(H, rows, k);
    }
    assert !Bad(H, rows, j);
    assert left[i] == rows[j];
    assert FirstBad(H, left, i) && FaultAt(left, i) == Gap(j + 1, j - i);
  }

  // Cutting the tail off leaves a table that verifies, but no anchor past
  // the cut finds its seq any more.
  lemma TailTruncation(H: HashFn, rows: seq<Event>, n: nat, s: int)
    requires ValidChain(H, rows) && n < s <= |rows|
    ensures ValidChain(H, rows[..n])
    ensures HashAtSeq(H, rows, s).Some? && HashAtSeq(H, rows[..n], s) == None
  {
    ValidPrefix(H, rows, n);
    HashAtSeqValid(H, rows, s);
    HashAtSeqValid(H, rows[..n], s);
  }
}
