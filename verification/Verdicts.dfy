/** When the report says "tampered", and that it says so of every edit and
    deletion that no collision hides. */
module Verdicts {
  import opened Text
  import opened Ledger
  import opened Anchor
  import opened Tamper
  import Json

  // What the anchor check can find wrong: the recomputed hash is missing or
  // another, or the chain answers with a note that says something else.
  ghost predicate Contradicted(H: HashFn, rows: seq<Event>, a: AnchorRow, indexer: Indexer, checkOnchain: bool) {
    || HashAtSeq(H, rows, a.seqNo) == None
    || HashAtSeq(H, rows, a.seqNo).value != a.headHash
    || (checkOnchain && indexer(a.txId).Some? && ParseNote(indexer(a.txId).value) != Some((a.seqNo, a.headHash)))
  }

  // The three verdicts, each said outright.
  lemma {:induction false} VerdictMeaning(H: HashFn, rows: seq<Event>, anchors: seq<AnchorRow>, indexer: Indexer, checkOnchain: bool)
    ensures var v := IntegrityVerdict(H, rows, anchors, indexer, checkOnchain);
            && (v == Tampered <==>
                  !ValidChain(H, rows) || exists a :: a in anchors && Contradicted(H, rows, a, indexer, checkOnchain))
            && (v == Verified <==>
                  && v != Tampered && checkOnchain
                  && exists a :: a in anchors && indexer(a.txId).Some?)
  {
    hide HashAtSeq;
    hide ParseNote;
    hide ValidChain;
    forall a ensures VerifyAnchor(H, rows, a, indexer, checkOnchain).Ok() <==> !Contradicted(H, rows, a, indexer, checkOnchain) {
    }
    if ValidChain(H, rows) && forall a :: a in anchors ==> !Contradicted(H, rows, a, indexer, checkOnchain) {
      assert forall a :: a in anchors ==>
        (Confirmed(H, rows, a, indexer, checkOnchain) <==> checkOnchain && indexer(a.txId).Some?);
    }
  }

  // A table with a fault is reported, whatever its anchors say.
  lemma FaultTampered(H: HashFn, rows: seq<Event>, fault: Fault, anchors: seq<AnchorRow>, indexer: Indexer, checkOnchain: bool)
    requires Explains(H, rows, fault) && fault != Intact
    ensures IntegrityVerdict(H, rows, anchors, indexer, checkOnchain) == Tampered
  {
    hide HashAtSeq;
    hide ParseNote;
    hide Link;
    VerdictMeaning(H, rows, anchors, indexer, checkOnchain);
    var k: nat :| FirstBad(H, rows, k) && fault == FaultAt(rows, k);
    assert Bad(H, rows, k);
  }

  lemma MissingTampered(H: HashFn, rows: seq<Event>, a: AnchorRow, anchors: seq<AnchorRow>, indexer: Indexer, checkOnchain: bool)
    requires a in anchors && HashAtSeq(H, rows, a.seqNo) != Some(a.headHash)
    ensures IntegrityVerdict(H, rows, anchors, indexer, checkOnchain) == Tampered
  {
    hide HashAtSeq;
    hide ParseNote;
    hide ValidChain;
    VerdictMeaning(H, rows, anchors, indexer, checkOnchain);
    assert Contradicted(H, rows, a, indexer, checkOnchain);
  }

  // A payload edited under its old hash: "tampered", but for a collision.
  lemma {:induction false} LazyEditTampered(
      H: HashFn, rows: seq<Event>, i: nat, payload: string, anchors: seq<AnchorRow>, indexer: Indexer, checkOnchain: bool)
    requires ValidChain(H, rows) && i < |rows| && payload != rows[i].payload
    ensures var e := rows[i];
            || IntegrityVerdict(H, EditLazily(rows, i, payload), anchors, indexer, checkOnchain) == Tampered
            || Collides(H, Link(e, e.prevHash), Link(e.(payload := payload), e.prevHash))
  {
    hide ValidChain;
    hide IntegrityVerdict;
    hide Link;
    hide Explains;
    hide EditLazily;
    LazyEdit(H, rows, i, payload);
    var e := rows[i];
    if !Collides(H, Link(e, e.prevHash), Link(e.(payload := payload), e.prevHash)) {
      FaultTampered(H, EditLazily(rows, i, payload), Modified(i + 1), anchors, indexer, checkOnchain);
    }
  }

  // A payload edited with its hash recomputed: "tampered" below the head on
  // any account, and at the head when one of the anchors was taken there.
  lemma {:induction false} CompetentEditTampered(
      H: HashFn, rows: seq<Event>, i: nat, payload: string, anchors: seq<AnchorRow>, indexer: Indexer, checkOnchain: bool)
    requires ValidChain(H, rows) && i < |rows| && payload != rows[i].payload
    requires i + 1 == |rows| ==> exists a :: a in anchors && a.seqNo == |rows| && a.headHash == rows[i].entryHash
    ensures var e := rows[i];
            || IntegrityVerdict(H, EditCompetently(H, rows, i, payload), anchors, indexer, checkOnchain) == Tampered
            || Collides(H, Link(e, e.prevHash), Link(e.(payload := payload), e.prevHash))
  {
    hide ValidChain;
    hide IntegrityVerdict;
    hide Link;
    hide Explains;
    hide EditCompetently;
    hide HashAtSeq;
    CompetentEdit(H, rows, i, payload);
    var e, edited := rows[i], EditCompetently(H, rows, i, payload);
    if !Collides(H, Link(e, e.prevHash), Link(e.(payload := payload), e.prevHash)) {
      if i + 1 < |rows| {
        FaultTampered(H, edited, BrokenLink(i + 2), anchors, indexer, checkOnchain);
      } else {
        var a :| a in anchors && a.seqNo == |rows| && a.headHash == rows[i].entryHash;
        MissingTampered(H, edited, a, anchors, indexer, checkOnchain);
      }
    }
  }

  // The demo's own tampering, whenever its fragment says something new: the
  // report is "tampered", and after the restore it is what it was before.
  lemma {:induction false} ButtonTampered(
      H: HashFn, rows: seq<Event>, i: nat, fields: map<string, Json.Value>, fragment: map<string, Json.Value>, k: string,
      anchors: seq<AnchorRow>, indexer: Indexer, checkOnchain: bool)
    requires ValidChain(H, rows) && i < |rows| && Json.Loads(rows[i].payload) == Some(Json.Obj(fields))
    requires k in fragment && (k !in fields || fields[k] != fragment[k])
    requires i + 1 == |rows| ==> exists a :: a in anchors && a.seqNo == |rows| && a.headHash == rows[i].entryHash
    ensures var e, d := rows[i], TamperWith(H, Doctoring(rows, []), i + 1, fragment);
            && Restore(d).rows == rows
            && (|| IntegrityVerdict(H, d.rows, anchors, indexer, checkOnchain) == Tampered
                || exists payload :: Collides(H, Link(e, e.prevHash), Link(e.(payload := payload), e.prevHash)))
  {
    hide IntegrityVerdict;
    hide Link;
    hide EditCompetently;
    hide Doctored;
    hide Json.Loads;
    hide Restore;
    hide TamperWith;
    var e, d := rows[i], Doctoring(rows, []);
    ValidChainKeyed(H, rows);
    ValidSeq(H, rows, i);
    hide ValidChain;
    TamperUndone(H, d, i + 1, fragment);
    RestoreNothing(rows);
    DoctoredDiffers(e.payload, fields, fragment, k);
    TamperAt(H, d, i, fragment);
    CompetentEditTampered(H, rows, i, Doctored(e.payload, fragment).value, anchors, indexer, checkOnchain);
  }

  lemma RestoreNothing(rows: seq<Event>)
    ensures Restore(Doctoring(rows, [])).rows == rows
  {
  }

  lemma ValidSeq(H: HashFn, rows: seq<Event>, i: nat)
    requires ValidChain(H, rows) && i < |rows|
    ensures rows[i].seqNo == i + 1
  {
    hide Link;
    assert !Bad(H, rows, i);
  }

  // Rows deleted from the middle, and a tail cut off below a recent anchor.
  lemma {:induction false} DeletionTampered(
      H: HashFn, rows: seq<Event>, i: nat, j: nat, anchors: seq<AnchorRow>, indexer: Indexer, checkOnchain: bool)
    requires ValidChain(H, rows) && i < j <= |rows|
    requires j == |rows| ==> exists a :: a in anchors && i < a.seqNo <= |rows|
    ensures IntegrityVerdict(H, rows[..i] + rows[j..], anchors, indexer, checkOnchain) == Tampered
  {
    hide ValidChain;
    hide IntegrityVerdict;
    hide Explains;
    hide HashAtSeq;
    if j < |rows| {
      InteriorDeletion(H, rows, i, j);
      FaultTampered(H, rows[..i] + rows[j..], Gap(j + 1, j - i), anchors, indexer, checkOnchain);
    } else {
      assert rows[..i] + rows[j..] == rows[..i];
      var a :| a in anchors && i < a.seqNo <= |rows|;
      TailTruncation(H, rows, i, a.seqNo);
      MissingTampered(H, rows[..i], a, anchors, indexer, checkOnchain);
    }
  }

  // ---- reading a note ----

  // A text is read as an anchor note exactly when it is three fields, the
  // first of them "ASPE1" and the second a number to Python.
  lemma {:induction false} NoteMeaning(note: string, s: int, h: string)
    ensures ParseNote(note) == Some((s, h)) <==>
              exists number: string :: NoBar(number) && NoBar(h) && note == "ASPE1|" + number + "|" + h && PyInt(number) == Some(s)
  {
    hide PyInt;
    if ParseNote(note) == Some((s, h)) {
      var parts := Split(note);
      SplitJoined(note);
      SplitParts(note);
      assert parts[1..] == [parts[1], h] && parts[1..][1..] == [h];
      assert Join(parts[1..]) == parts[1] + "|" + h;
      assert note == "ASPE1" + "|" + (parts[1] + "|" + h);
      assert note == "ASPE1|" + parts[1] + "|" + h;
    }
    if number: string :| NoBar(number) && NoBar(h) && note == "ASPE1|" + number + "|" + h && PyInt(number) == Some(s) {
      assert note == "ASPE1" + "|" + (number + "|" + h);
      SplitFirst("ASPE1", number + "|" + h);
      SplitFirst(number, h);
      SplitNoBar(h);
    }
  }

  function Join(parts: seq<string>): string
    requires parts != []
  {
    if |parts| == 1 then parts[0] else parts[0] + "|" + Join(parts[1..])
  }

  lemma {:induction false} SplitJoined(s: string)
    ensures Join(Split(s)) == s
  {
    if s != "" {
      SplitJoined(s[1..]);
      var rest := Split(s[1..]);
      if s[0] == '|' {
        assert Split(s)[1..] == rest;
        assert s == "" + "|" + s[1..];
      } else {
        assert Split(s)[1..] == rest[1..];
        if |rest| == 1 {
          assert s == [s[0]] + s[1..];
        } else {
          assert s == [s[0]] + (rest[0] + "|" + Join(rest[1..]));
          assert s == ([s[0]] + rest[0]) + "|" + Join(rest[1..]);
        }
      }
    }
  }

  lemma {:induction false} SplitParts(s: string)
    ensures forall i :: 0 <= i < |Split(s)| ==> NoBar(Split(s)[i])
  {
    if s != "" { SplitParts(s[1..]); }
  }

  // ---- what int() reads ----

  predicate AllSpace(s: string) {
    forall i :: 0 <= i < |s| ==> IsSpace(s[i])
  }

  // Digits, with single underscores between them.
  predicate Grouped(b: string) {
    && b != "" && IsDigit(b[0]) && IsDigit(b[|b| - 1])
    && (forall i :: 0 <= i < |b| ==> IsDigit(b[i]) || b[i] == '_')
    && (forall i :: 0 <= i < |b| - 1 ==> IsDigit(b[i]) || IsDigit(b[i + 1]))
  }

  function Ungrouped(b: string): string {
    if b == "" then "" else (if b[0] == '_' then "" else [b[0]]) + Ungrouped(b[1..])
  }

  lemma {:induction false} UngroupedDigits(b: string)
    requires forall i :: 0 <= i < |b| ==> IsDigit(b[i]) || b[i] == '_'
    ensures AllDigits(Ungrouped(b))
  {
    if b != "" { UngroupedDigits(b[1..]); }
  }

  lemma {:induction false} DigitsGrouped(b: string, afterDigit: bool)
    ensures Digits(b, afterDigit) ==
            if Grouped(b) || (afterDigit && (b == "" || (b[0] == '_' && Grouped(b[1..])))) then Some(Ungrouped(b)) else None
  {
    if b != "" {
      DigitsGrouped(b[1..], b[0] != '_');
      if IsDigit(b[0]) {
        GroupedTail(b);
        assert |b| > 1 ==> b[1..][0] == b[1] && b[1..][1..] == b[2..];
        assert Ungrouped(b) == [b[0]] + Ungrouped(b[1..]);
      } else {
        assert !Grouped(b);
        assert b[0] == '_' ==> Ungrouped(b) == Ungrouped(b[1..]);
      }
    }
  }

  lemma GroupedTail(b: string)
    requires b != "" && IsDigit(b[0])
    ensures Grouped(b) <==> (b[1..] == "" || Grouped(b[1..]) || (b[1] == '_' && Grouped(b[2..])))
  {
    var c := b[1..];
    if c != "" {
      assert b[|b| - 1] == c[|c| - 1];
      assert c[1..] == b[2..];
      assert forall i :: 0 <= i < |c| ==> c[i] == b[i + 1];
      assert c[0] == b[1];
      if Grouped(b) && b[1] == '_' {
        assert |b| > 2;
        assert IsDigit(b[1]) || IsDigit(b[2]);
      }
      if b[1] == '_' && Grouped(b[2..]) {
        var d := b[2..];
        assert forall i :: 0 <= i < |d| ==> d[i] == b[i + 2];
        forall i | 0 <= i < |b| - 1 ensures IsDigit(b[i]) || IsDigit(b[i + 1]) {
          if i >= 2 { assert IsDigit(d[i - 2]) || IsDigit(d[i - 1]); }
        }
      }
      if Grouped(c) {
        forall i | 0 <= i < |b| - 1 ensures IsDigit(b[i]) || IsDigit(b[i + 1]) {
          if i >= 1 { assert IsDigit(c[i - 1]) || IsDigit(c[i]); }
        }
      }
    }
  }

  lemma {:induction false} LeftStripped(s: string) returns (left: string)
    ensures s == left + StripLeft(s) && AllSpace(left)
    ensures StripLeft(s) == "" || !IsSpace(StripLeft(s)[0])
  {
    if s != "" && IsSpace(s[0]) {
      var more := LeftStripped(s[1..]);
      left := [s[0]] + more;
    } else {
      left := "";
    }
  }

  lemma {:induction false} RightStripped(s: string) returns (right: string)
    ensures s == StripRight(s) + right && AllSpace(right)
  {
    if s != "" && IsSpace(s[|s| - 1]) {
      var more := RightStripped(s[..|s| - 1]);
      right := more + [s[|s| - 1]];
    } else {
      right := "";
    }
  }

  lemma {:induction false} StripsLeft(left: string, s: string)
    requires AllSpace(left) && s != "" && !IsSpace(s[0])
    ensures StripLeft(left + s) == s
  {
    if left == "" {
      assert left + s == s;
    } else {
      assert (left + s)[1..] == left[1..] + s;
      StripsLeft(left[1..], s);
    }
  }

  lemma {:induction false} StripsRight(s: string, right: string)
    requires AllSpace(right) && s != "" && !IsSpace(s[|s| - 1])
    ensures StripRight(s + right) == s
  {
    if right == "" {
      assert s + right == s;
    } else {
      assert (s + right)[..|s + right| - 1] == s + right[..|right| - 1];
      StripsRight(s, right[..|right| - 1]);
    }
  }

  function Signless(sign: string, body: string): Option<int>
    requires Grouped(body)
  {
    UngroupedDigits(body);
    var n: int := ParseNat(Ungrouped(body));
    Some(if sign == "-" then -n else n)
  }

  predicate IsSign(sign: string) {
    sign == "" || sign == "+" || sign == "-"
  }

  // What is left between the white space is a sign and grouped digits.
  lemma PyIntInner(text: string) returns (sign: string, body: string)
    requires PyInt(text).Some?
    ensures IsSign(sign) && Grouped(body) && StripRight(StripLeft(text)) == sign + body
  {
    hide StripLeft;
    hide StripRight;
    hide Grouped;
    hide Ungrouped;
    hide ParseNat;
    hide Digits;
    var s := StripRight(StripLeft(text));
    var signed := s != "" && (s[0] == '-' || s[0] == '+');
    sign, body := if signed then s[..1] else "", if signed then s[1..] else s;
    DigitsGrouped(body, false);
  }

  lemma {:induction false} PyIntParts(text: string) returns (left: string, sign: string, body: string, right: string)
    requires PyInt(text).Some?
    ensures AllSpace(left) && AllSpace(right) && IsSign(sign) && Grouped(body)
    ensures text == left + sign + body + right
  {
    hide PyInt;
    hide Grouped;
    hide IsSign;
    hide AllSpace;
    hide StripLeft;
    hide StripRight;
    left := LeftStripped(text);
    right := RightStripped(StripLeft(text));
    sign, body := PyIntInner(text);
    assert text == left + ((sign + body) + right);
    assert left + ((sign + body) + right) == left + sign + body + right;
  }

  // A text is a number to Python exactly when it is white space, a sign or
  // none, digits with single underscores between them, and white space.
  lemma {:induction false} PyIntMeaning(text: string, n: int)
    ensures PyInt(text) == Some(n) <==>
              exists left, sign, body, right ::
                && AllSpace(left) && AllSpace(right) && IsSign(sign) && Grouped(body)
                && text == left + sign + body + right && Signless(sign, body) == Some(n)
  {
    hide Grouped;
    hide Signless;
    hide PyInt;
    hide AllSpace;
    if PyInt(text) == Some(n) {
      var left, sign, body, right := PyIntParts(text);
      PyIntOf(left, sign, body, right);
    }
    if left, sign, body, right :| && AllSpace(left) && AllSpace(right) && IsSign(sign) && Grouped(body)
                                  && text == left + sign + body + right && Signless(sign, body) == Some(n) {
      PyIntOf(left, sign, body, right);
    }
  }

  lemma PyIntOf(left: string, sign: string, body: string, right: string)
    requires AllSpace(left) && AllSpace(right) && IsSign(sign) && Grouped(body)
    ensures PyInt(left + sign + body + right) == Signless(sign, body)
  {
    hide Ungrouped;
    hide ParseNat;
    hide StripLeft;
    hide StripRight;
    hide Digits;
    hide PyInt;
    var s := sign + body;
    assert left + sign + body + right == left + (s + right);
    assert s[|s| - 1] == body[|body| - 1];
    StripsLeft(left, s + right);
    StripsRight(s, right);
    DigitsGrouped(body, false);
    assert s[0] == if sign == "" then body[0] else sign[0];
    assert body == if sign == "" then s else s[1..];
    PyIntCore(left + (s + right), s);
  }

  lemma PyIntCore(text: string, s: string)
    requires StripRight(StripLeft(text)) == s && s != ""
    ensures PyInt(text) ==
            match Digits(if s[0] == '-' || s[0] == '+' then s[1..] else s, false)
            case None => None
            case Some(d) => var n: int := ParseNat(d); Some(if s[0] == '-' then -n else n)
  {
    hide StripLeft;
    hide StripRight;
    hide Digits;
    hide ParseNat;
  }
}
