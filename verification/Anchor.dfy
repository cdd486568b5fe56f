/** Anchor notes, the two checks made of every anchor, and the verdict. The
    chain is whatever the public indexer answers for a transaction id. */
module Anchor {
  import opened Text
  import opened Ledger

  const NOTE_PREFIX := "ASPE1"

  datatype AnchorRow = AnchorRow(id: nat, seqNo: int, headHash: string, txId: string, note: string)

  function BuildNote(s: int, headHash: string): string {
    NOTE_PREFIX + "|" + (DecInt(s) + "|" + headHash)
  }

  // Python's int() on ASCII text: surrounding whitespace, one sign, and
  // digits with single underscores between them.
  predicate IsSpace(c: char) {
    c == ' ' || 9 <= c as int <= 13 || 28 <= c as int <= 31
  }

  function StripLeft(s: string): string {
    if s != "" && IsSpace(s[0]) then StripLeft(s[1..]) else s
  }

  function StripRight(s: string): string {
    if s != "" && IsSpace(s[|s| - 1]) then StripRight(s[..|s| - 1]) else s
  }

  // The digits of s with its underscores dropped, if they are well placed.
  function Digits(s: string, afterDigit: bool): (r: Option<string>)
    ensures r.Some? ==> AllDigits(r.value)
  {
    if s == "" then if afterDigit then Some("") else None
    else if s[0] == '_' then if afterDigit then Digits(s[1..], false) else None
    else if !IsDigit(s[0]) then None
    else match Digits(s[1..], true)
      case None => None
      case Some(rest) => Some([s[0]] + rest)
  }

  function PyInt(text: string): Option<int> {
    var s := StripRight(StripLeft(text));
    var negative := s != "" && s[0] == '-';
    var signed := s != "" && (s[0] == '-' || s[0] == '+');
    match Digits(if signed then s[1..] else s, false)
    case None => None
    case Some(d) => var n: int := ParseNat(d); Some(if negative then -n else n)
  }

  function ParseNote(note: string): Option<(int, string)> {
    var parts := Split(note);
    if |parts| != 3 || parts[0] != NOTE_PREFIX then None
    else match PyInt(parts[1])
      case None => None
      case Some(s) => Some((s, parts[2]))
  }

  lemma {:induction false} DigitsOf(s: string, afterDigit: bool)
    requires AllDigits(s) && (s != "" || afterDigit)
    ensures Digits(s, afterDigit) == Some(s)
  {
    if s != "" {
      DigitsOf(s[1..], true);
      assert [s[0]] + s[1..] == s;
    }
  }

  // Text that neither starts nor ends with white space is left alone.
  lemma NothingToStrip(s: string)
    requires s != "" && !IsSpace(s[0]) && !IsSpace(s[|s| - 1])
    ensures StripRight(StripLeft(s)) == s
  {
  }

  lemma DigitsOnly(d: string)
    requires AllDigits(d) && d != ""
    ensures NothingIsSpace(d) && Digits(d, false) == Some(d) && d[0] != '-' && d[0] != '+'
  {
    DigitsOf(d, false);
  }

  predicate NothingIsSpace(s: string) {
    forall i :: 0 <= i < |s| ==> !IsSpace(s[i])
  }

  lemma PyIntSigned(d: string, negative: bool)
    requires d != "" && AllDigits(d)
    ensures var n: int := ParseNat(d); PyInt((if negative then "-" else "") + d) == Some(if negative then -n else n)
  {
    hide ParseNat;
    hide Digits;
    hide StripLeft;
    hide StripRight;
    var s := (if negative then "-" else "") + d;
    DigitsOnly(d);
    assert s[|s| - 1] == d[|d| - 1];
    NothingToStrip(s);
    assert d == if negative then s[1..] else s;
  }

  lemma {:induction false} PyIntDecInt(n: int)
    ensures PyInt(DecInt(n)) == Some(n)
  {
    hide PyInt;
    hide Dec;
    var a: nat := if n < 0 then -n else n;
    ParseDec(a);
    PyIntSigned(Dec(a), n < 0);
    assert "" + Dec(a) == Dec(a);
  }

  // Parsing a built note gives its sequence number and hash back.
  lemma {:induction false} NoteRoundTrip(s: int, h: string)
    requires NoBar(h)
    ensures ParseNote(BuildNote(s, h)) == Some((s, h))
  {
    SplitFirst(NOTE_PREFIX, DecInt(s) + "|" + h);
    SplitFirst(DecInt(s), h);
    SplitNoBar(h);
    PyIntDecInt(s);
  }

  // ---- checking one anchor ----

  type Indexer = string -> Option<string>

  datatype Check = Unchecked | Matches | Differs

  datatype AnchorResult = AnchorResult(localMatch: bool, onchain: Check) {
    // An answer that never came is not a mismatch.
    predicate Ok() {
      localMatch && onchain != Differs
    }
  }

  function VerifyAnchor(H: HashFn, rows: seq<Event>, a: AnchorRow, indexer: Indexer, checkOnchain: bool): AnchorResult {
    var recomputed := HashAtSeq(H, rows, a.seqNo);
    var localMatch := recomputed.Some? && recomputed.value == a.headHash;
    var onchain :=
      if !checkOnchain then Unchecked
      else match indexer(a.txId)
        case None => Unchecked
        case Some(note) =>
          match ParseNote(note)
          case None => Differs
          case Some((s, h)) => if s == a.seqNo && h == a.headHash then Matches else Differs;
    AnchorResult(localMatch, onchain)
  }

  predicate Confirmed(H: HashFn, rows: seq<Event>, a: AnchorRow, indexer: Indexer, checkOnchain: bool) {
    var r := VerifyAnchor(H, rows, a, indexer, checkOnchain);
    r.Ok() && r.onchain == Matches
  }

  datatype Verdict = Verified | Unanchored | Tampered

  // anchors are the recent ones; their order decides only which detail shows.
  ghost function IntegrityVerdict(H: HashFn, rows: seq<Event>, anchors: seq<AnchorRow>, indexer: Indexer, checkOnchain: bool): Verdict {
    if !ValidChain(H, rows) then Tampered
    else if exists a :: a in anchors && !VerifyAnchor(H, rows, a, indexer, checkOnchain).Ok() then Tampered
    else if exists a :: a in anchors && Confirmed(H, rows, a, indexer, checkOnchain) then Verified
    else Unanchored
  }

  // ---- what "verified" is worth ----

  // The note of a ledger's head, as anchor_now builds it.
  function HeadNote(rows: seq<Event>): string {
    BuildNote(HeadSeq(rows), HeadHash(rows))
  }

  ghost predicate Honest(H: HashFn, rows: seq<Event>) {
    ValidChain(H, rows) && forall i :: 0 <= i < |rows| ==> Unbarred(rows[i])
  }

  // The present ledger reaches the original's head, and each row up to there
  // is the original row exactly when its timestamp and type are free of bars
  // -- or the two ledgers contain two texts with one hash, and these are they.
  ghost predicate Preserved(H: HashFn, original: seq<Event>, present: seq<Event>) {
    && |original| <= |present|
    && match FindCollision(H, original, present, |original|)
       case Some((x, y)) => Collides(H, x, y)
       case None => original <= present <==> forall i :: 0 <= i < |original| ==> Unbarred(present[i])
  }

  // A valid chain preserves an honest ledger exactly when the hash it gives at
  // that ledger's end is that ledger's head.
  lemma {:induction false} PreservedIffHead(H: HashFn, original: seq<Event>, present: seq<Event>)
    requires original != [] && Honest(H, original) && ValidChain(H, present)
    ensures Preserved(H, original, present) <==> HashAtSeq(H, present, |original|) == Some(HeadHash(original))
  {
    var n := |original|;
    ValidHead(H, original);
    RehashValid(H, original, n);
    HashAtSeqValid(H, present, n);
    if n <= |present| {
      RehashValid(H, present, n);
      if Rehash(H, original, n) == Rehash(H, present, n) {
        CommonHead(H, original, present, n);
        if FindCollision(H, original, present, n) == None {
          RowsDecide(H, original, present);
        }
      } else {
        assert FindCollision(H, original, present, n) ==
          Some((Link(original[n - 1], Rehash(H, original, n - 1)), Link(present[n - 1], Rehash(H, present, n - 1))));
      }
    }
  }

  // However the database and the anchor row were edited since the note went
  // on chain, a confirmed anchor means the noted ledger is preserved.
  lemma {:induction false} ConfirmedMeansPreserved(
      H: HashFn, original: seq<Event>, present: seq<Event>, a: AnchorRow, indexer: Indexer, checkOnchain: bool)
    requires original != [] && Honest(H, original)
    requires ValidChain(H, present) && Confirmed(H, present, a, indexer, checkOnchain)
    requires indexer(a.txId) == Some(HeadNote(original))
    ensures Preserved(H, original, present)
  {
    hide HashAtSeq;
    hide ParseNote;
    hide BuildNote;
    hide Preserved;
    var n := |original|;
    ValidHead(H, original);
    assert !Bad(H, original, n - 1);
    NoteRoundTrip(n, original[n - 1].entryHash);
    PreservedIffHead(H, original, present);
  }

  lemma RowsDecide(H: HashFn, original: seq<Event>, present: seq<Event>)
    requires Honest(H, original) && ValidChain(H, present) && |original| <= |present|
    requires forall i :: 0 <= i < |original| ==> RowAgrees(original[i], present[i])
    ensures original <= present <==> forall i :: 0 <= i < |original| ==> Unbarred(present[i])
  {
    if forall i :: 0 <= i < |original| ==> Unbarred(present[i]) {
      forall i | 0 <= i < |original| ensures SameFields(original[i], present[i]) {
        assert RowAgrees(original[i], present[i]);
      }
      SameRows(H, original, present);
    }
  }

  // Equal fields in every row force equal link columns as well.
  lemma {:induction false} SameRows(H: HashFn, original: seq<Event>, present: seq<Event>)
    requires ValidChain(H, original) && ValidChain(H, present) && |original| <= |present|
    requires forall i :: 0 <= i < |original| ==> SameFields(original[i], present[i])
    ensures original <= present
  {
    if original != [] {
      var n := |original| - 1;
      var front := original[..n];
      ValidPrefix(H, original, n);
      SameRows(H, front, present);
      assert !Bad(H, original, n) && !Bad(H, present, n);
      assert SameFields(original[n], present[n]);
      assert HashBefore(original, n) == HashBefore(present, n) by {
        if n > 0 { assert original[n - 1] == front[n - 1] == present[n - 1]; }
      }
      assert Link(original[n], original[n].prevHash) == Link(present[n], present[n].prevHash);
      assert original[n] == present[n];
      assert original == front + [original[n]];
    }
  }

  // A "verified" verdict stands on an intact chain, on no failed anchor, and
  // on at least one confirmed one; and for every confirmed anchor and every
  // honest ledger its note was built from, that ledger is preserved.
  lemma {:induction false} VerifiedMeansPreserved(
      H: HashFn, present: seq<Event>, anchors: seq<AnchorRow>, indexer: Indexer, checkOnchain: bool)
    requires IntegrityVerdict(H, present, anchors, indexer, checkOnchain) == Verified
    ensures exists a :: a in anchors && Confirmed(H, present, a, indexer, checkOnchain)
    ensures forall a :: a in anchors ==> VerifyAnchor(H, present, a, indexer, checkOnchain).Ok()
    ensures forall a, original :: a in anchors && Confirmed(H, present, a, indexer, checkOnchain)
              && original != [] && Honest(H, original) && indexer(a.txId) == Some(HeadNote(original))
              ==> Preserved(H, original, present)
  {
    forall a, original | a in anchors && Confirmed(H, present, a, indexer, checkOnchain)
        && original != [] && Honest(H, original) && indexer(a.txId) == Some(HeadNote(original))
      ensures Preserved(H, original, present)
    {
      ConfirmedMeansPreserved(H, original, present, a, indexer, checkOnchain);
    }
  }

  // The condition on bars is what a tamperer breaks: with one in a payload,
  // rewriting that row's type changes no verdict, whatever the anchors and
  // whatever the chain answers.
  lemma {:induction false} BarShiftUnseen(
      H: HashFn, rows: seq<Event>, i: nat, j: nat, anchors: seq<AnchorRow>, indexer: Indexer, checkOnchain: bool)
    requires ValidChain(H, rows) && i < |rows| && j < |rows[i].payload| && rows[i].payload[j] == '|'
    ensures var edited := rows[i := Shifted(rows[i], j)];
            && !(rows <= edited)
            && IntegrityVerdict(H, edited, anchors, indexer, checkOnchain)
                 == IntegrityVerdict(H, rows, anchors, indexer, checkOnchain)
  {
    hide HashAtSeq;
    hide ParseNote;
    hide Shifted;
    hide Bad;
    BarredTypeShifts(H, rows, i, j);
    var edited := rows[i := Shifted(rows[i], j)];
    assert forall a :: VerifyAnchor(H, edited, a, indexer, checkOnchain) == VerifyAnchor(H, rows, a, indexer, checkOnchain);
  }
}
