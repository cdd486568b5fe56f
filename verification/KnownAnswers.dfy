/** The texts this system writes, as fixed samples: what other programs read
    and what signatures, hashes and anchors already in the world were made of. */
module KnownAnswers {
  import opened Text
  import opened Clock
  import opened Ledger
  import opened Store
  import Anchor
  import Engine
  import Identity
  import Json

  lemma Decimals()
    ensures Dec(0) == "0" && Dec(42) == "42" && Dec(1042) == "1042" && DecInt(-305) == "-305"
  {
    assert Dec(1) == "1" && Dec(4) == "4" && Dec(3) == "3";
    assert Dec(10) == "10" && Dec(30) == "30";
    assert Dec(104) == "104";
  }

  // The days of a year before each month, as the calendar has them.
  lemma MonthTable()
    ensures forall m :: 1 <= m <= 12 ==>
              && DaysBeforeMonth(2023, m) == [0, 31, 59, 90, 120, 151, 181, 212, 243, 273, 304, 334][m - 1]
              && DaysBeforeMonth(2024, m) == [0, 31, 60, 91, 121, 152, 182, 213, 244, 274, 305, 335][m - 1]
  {
    assert DaysBeforeMonth(2023, 3) == 59 && DaysBeforeMonth(2024, 3) == 60;
    assert DaysBeforeMonth(2023, 5) == 120 && DaysBeforeMonth(2024, 5) == 121;
    assert DaysBeforeMonth(2023, 7) == 181 && DaysBeforeMonth(2024, 7) == 182;
    assert DaysBeforeMonth(2023, 9) == 243 && DaysBeforeMonth(2024, 9) == 244;
    assert DaysBeforeMonth(2023, 11) == 304 && DaysBeforeMonth(2024, 11) == 305;
  }

  // A leap day, a microsecond-bearing instant and a whole second.
  lemma {:induction false} LeapDay()
    ensures DateOf(738944) == Date(2024, 2, 29) && DateOf(738945) == Date(2024, 3, 1)
  {
    assert DaysBeforeYear(2024) == 738885;
    SplitYearAt(2024, 59);
    SplitYearAt(2024, 60);
    hide SplitYear;
    assert SplitMonth(2024, 1, 59) == (2, 28) && SplitMonth(2024, 1, 60) == (3, 0);
  }

  lemma SplitYearAt(y: nat, d: nat)
    requires y >= 1 && d < YearLength(y)
    ensures SplitYear(1, DaysBeforeYear(y) + d) == (y, d)
  {
    var n := DaysBeforeYear(y) + d;
    SplitYearCounts(1, n);
    var (z, e) := SplitYear(1, n);
    if z < y { DaysBeforeYearGrows(z + 1, y); DaysBeforeNextYear(z); }
    if y < z { DaysBeforeYearGrows(y + 1, z); DaysBeforeNextYear(y); }
  }

  lemma Padded()
    ensures Pad(2024, 4) == "2024" && Pad(2, 2) == "02" && Pad(29, 2) == "29" && Pad(7, 6) == "000007" && Pad(0, 2) == "00"
    ensures Pad(3, 2) == "03" && Pad(1, 2) == "01" && Pad(23, 2) == "23" && Pad(59, 2) == "59"
  {
    assert Pad(20, 2) == "20" && Pad(202, 3) == "202" && Pad(0, 5) == "00000";
  }

  lemma DateSamples()
    ensures DateText(738944) == "2024-02-29" && DateText(738945) == "2024-03-01"
  {
    hide DateOf;
    hide Pad;
    LeapDay();
    Padded();
    assert "2024" + ("-" + ("02" + ("-" + "29"))) == "2024-02-29";
    assert "2024" + ("-" + ("03" + ("-" + "01"))) == "2024-03-01";
  }

  lemma TimeSamples()
    ensures TimeText(86399) == "23:59:59" && TimeText(0) == "00:00:00"
  {
    hide Pad;
    Padded();
    assert "23" + (":" + ("59" + (":" + "59"))) == "23:59:59";
    assert "00" + (":" + ("00" + (":" + "00"))) == "00:00:00";
  }

  lemma FractionSamples()
    ensures Fraction(7) == ".000007" && Fraction(0) == ""
  {
    hide Pad;
    Padded();
  }

  lemma IsoSamples()
    ensures Iso((738944 * 86400 + 86399) * 1_000_000 + 7) == "2024-02-29T23:59:59.000007+00:00"
    ensures Iso(738945 * 86400 * 1_000_000) == "2024-03-01T00:00:00+00:00"
  {
    hide DateText;
    hide TimeText;
    hide Fraction;
    DateSamples();
    TimeSamples();
    FractionSamples();
    assert "2024-02-29" + ("T" + ("23:59:59" + (".000007" + "+00:00"))) == "2024-02-29T23:59:59.000007+00:00";
    assert "2024-03-01" + ("T" + ("00:00:00" + ("" + "+00:00"))) == "2024-03-01T00:00:00+00:00";
  }

  lemma PairFields(v: Json.Value, a: string, b: string)
    requires v.Obj? && a in v.fields && b in v.fields
    ensures Json.DumpFields(v, [a, b], true) ==
            Json.Quote(a) + ":" + Json.Dumps(v.fields[a]) + ("," + Json.Quote(b) + ":" + Json.Dumps(v.fields[b]) + "}")
  {
    MemberFirst(v, [a, b], true);
    MemberFirst(v, [b], false);
    LastField(v);
    hide Json.Dumps;
    hide Json.DumpFields;
    hide Json.Quote;
    assert [a, b][1..] == [b] && [b][1..] == [];
    assert "" + Json.Quote(a) == Json.Quote(a);
  }

  lemma LastField(v: Json.Value)
    requires v.Obj?
    ensures Json.DumpFields(v, [], false) == "}"
  {
  }

  // Keys in order, whichever was inserted first, and no white space.
  lemma {:induction false} TwoMembers(a: string, b: string, u: Json.Value, w: Json.Value)
    requires Less(a, b)
    ensures Json.Dumps(Json.Obj(map[b := w, a := u]))
         == "{" + (Json.Quote(a) + ":" + Json.Dumps(u) + ("," + Json.Quote(b) + ":" + Json.Dumps(w) + "}"))
  {
    hide Json.SortedKeys;
    hide Json.Quote;
    hide Json.DumpFields;
    var v := Json.Obj(map[b := w, a := u]);
    LessIrreflexive(a);
    SortedTwo(a, b);
    hide Less;
    assert v.fields.Keys == {a, b};
    assert v.fields[a] == u && v.fields[b] == w;
    DumpsMembers(v, [a, b]);
    hide Json.Dumps;
    PairFields(v, a, b);
  }

  lemma Words()
    ensures Json.Dumps(Json.Bool(true)) == "true" && Json.Dumps(Json.Null) == "null"
  {
  }

  lemma {:induction false} DumpsSample()
    ensures Json.Dumps(Json.Obj(map["y" := Json.Null, "x" := Json.Bool(true)])) == "{\"x\":true,\"y\":null}"
  {
    hide Json.Dumps;
    hide Json.Quote;
    TwoMembers("x", "y", Json.Bool(true), Json.Null);
    StringSample();
    Words();
    assert "\"x\"" + ":" + "true" == "\"x\":true";
    assert "," + "\"y\"" + ":" + "null" + "}" == ",\"y\":null}";
    assert "{" + ("\"x\":true" + ",\"y\":null}") == "{\"x\":true,\"y\":null}";
  }

  lemma DumpsMembers(v: Json.Value, ks: seq<string>)
    requires v.Obj? && ks == Json.SortedKeys(v.fields.Keys)
    ensures Json.Dumps(v) == "{" + Json.DumpFields(v, ks, true)
  {
  }

  lemma MemberFirst(v: Json.Value, ks: seq<string>, first: bool)
    requires v.Obj? && ks != [] && forall k :: k in ks ==> k in v.fields
    ensures Json.DumpFields(v, ks, first) ==
            (if first then "" else ",") + Json.Quote(ks[0]) + ":" + Json.Dumps(v.fields[ks[0]]) + Json.DumpFields(v, ks[1..], false)
  {
    hide Json.Dumps;
    hide Json.Quote;
  }

  lemma ArraySample()
    ensures Json.Dumps(Json.Arr([Json.Num(42), Json.Null, Json.Bool(true)])) == "[42,null,true]"
  {
    var v := Json.Arr([Json.Num(42), Json.Null, Json.Bool(true)]);
    Decimals();
    assert Json.DumpItems(v, 3) == "]";
    assert Json.DumpItems(v, 2) == ",true]";
    assert Json.DumpItems(v, 1) == ",null,true]";
  }

  // Quotes and controls are escaped, bars are not.
  lemma StringSample()
    ensures Json.Quote("a\"|\n") == "\"a\\\"|\\n\"" && Json.Quote("x") == "\"x\"" && Json.Quote("y") == "\"y\""
  {
    assert Json.EscapeAll("\n") == "\\n";
    assert Json.EscapeAll("|\n") == "|\\n";
    assert Json.EscapeAll("\"|\n") == "\\\"|\\n";
  }

  lemma SortedTwo(a: string, b: string)
    requires Less(a, b)
    ensures Json.SortedKeys({a, b}) == [a, b]
  {
    LessAsymmetric(a, b);
    LessIrreflexive(a);
    LessIrreflexive(b);
    Json.FirstKey({a, b});
    Json.FirstKey({b});
    assert {a, b} - {a} == {b};
    assert {b} - {b} == {};
  }

  lemma NoteSample(h: string)
    ensures Anchor.BuildNote(42, h) == "ASPE1|42|" + h
  {
    Decimals();
    assert "ASPE1" + "|" + ("42" + "|" + h) == "ASPE1|42|" + h;
  }

  // The signed text, without arguments and with one.
  lemma {:induction false} MessageSamples()
    ensures Identity.CanonicalMessage("a", "act", 42, 1042, "n", map[]) == "a|act|42|1042|n"
    ensures Identity.CanonicalMessage("a", "act", 42, 1042, "n", map["x" := "y"]) == "a|act|42|1042|n|{\"x\":\"y\"}"
  {
    hide Dec;
    Decimals();
    ParamsSample();
    hide CanonicalParams;
    assert "a" + "|" + ("act" + "|" + ("42" + "|" + ("1042" + "|" + "n"))) == "a|act|42|1042|n";
    var params := map["x" := "y"];
    assert "x" in params;
    var p := "n" + "|" + "{\"x\":\"y\"}";
    assert Identity.Tail("n", params) == p;
    assert p == "n|{\"x\":\"y\"}";
    assert "a" + "|" + ("act" + "|" + ("42" + "|" + ("1042" + "|" + p))) == "a|act|42|1042|n|{\"x\":\"y\"}";
  }

  lemma ParamsSample()
    ensures CanonicalParams(map["x" := "y"]) == "{\"x\":\"y\"}"
  {
    var v := ParamsValue(map["x" := "y"]);
    assert v.fields.Keys == {"x"};
    LessIrreflexive("x");
    Json.FirstKey({"x"});
    assert {"x"} - {"x"} == {};
    assert Json.SortedKeys({"x"}) == ["x"];
    StringSample();
    assert Json.DumpFields(v, [], false) == "}";
  }

  // What an event is hashed as, and what the first one stands on.
  lemma LinkSample(h: string)
    ensures Link(Event(42, "t", "k", "p", "ignored", "ignored"), h) == "42|t|k|p|" + h
    ensures |GENESIS_HASH| == 64 && forall i :: 0 <= i < 64 ==> GENESIS_HASH[i] == '0'
  {
    Decimals();
    assert "42" + "|" + ("t" + "|" + ("k" + "|" + ("p" + "|" + h))) == "42|t|k|p|" + h;
    ZerosAll(64);
  }

  lemma {:induction false} ZerosAll(n: nat)
    ensures forall i :: 0 <= i < n ==> Zeros(n)[i] == '0'
  {
    if n > 0 { ZerosAll(n - 1); }
  }

  // The names under which the ledger says things.
  lemma LedgerNames(id: nat, agent: string, action: string, amount: Money, params: Json.Value, decision: Decision,
                    reason: string, txId: Option<string>)
    ensures RESERVED == "request.reserved" && DECIDED == "request.decided" && RESET == "audit.reset" && ANCHORED == "audit.anchored"
    ensures Engine.GRANTED == "approval.granted" && Engine.BLOCKED == "approval.blocked" && Engine.REJECTED == "approval.rejected"
    ensures ReservedFields(id, agent, action, amount, params, decision).fields.Keys ==
              {"request_id", "agent_id", "action", "amount_usd", "params", "state"}
    ensures DecidedFields(id, agent, action, amount, params, decision, reason, txId).fields.Keys ==
              {"request_id", "agent_id", "action", "amount_usd", "params", "decision", "reason", "tx_id"}
    ensures AnchorFields(id, reason, action).fields.Keys == {"seq", "head_hash", "tx_id"}
    ensures ClearedFields(id).fields.Keys == {"requests_cleared"}
  {
  }
}
