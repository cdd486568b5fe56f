/** The size of the cap tolerance in dollars, and what the cap test decides
    about whole cents. */
module Tolerance {
  import opened Text
  import opened Clock
  import opened Store

  lemma {:induction false} PowSum(m: nat, n: nat)
    ensures Pow2(m + n) == Pow2(m) * Pow2(n)
  {
    if m > 0 { PowSum(m - 1, n); }
  }

  lemma PowLiterals()
    ensures Pow2(10) == 1024 && Pow2(41) == 2199023255552 && Pow2(82) == 4835703278458516698824704 && Pow2(53) == 9007199254740992
  {
    assert Pow2(1) == 2 && Pow2(5) == 32;
    PowSum(5, 5);
    PowSum(10, 10);
    PowSum(20, 20);
    PowSum(1, 40);
    PowSum(41, 41);
    PowSum(10, 1);
    PowSum(11, 1);
    PowSum(12, 41);
  }

  // In units of the tolerance's last place, a dollar is 2^82.
  lemma DollarUnits()
    ensures DOLLAR == 4835703278458516698824704 * Pow2(992)
    ensures 1_000_000_000 * TOLERANCE == DOLLAR + 301175296 * Pow2(992)
    ensures Pow2(992) > 0
  {
    hide Pow2;
    PowLiterals();
    PowSum(82, 992);
    PowPositive(992);
  }

  lemma {:induction false} PowPositive(n: nat)
    ensures Pow2(n) > 0
  {
    if n > 0 { PowPositive(n - 1); }
  }

  // The tolerance is the double nearest to a billionth of a dollar: no further
  // from it than half a unit in its last place, which is 2^-82 of a dollar.
  lemma {:induction false} BillionthOfADollar()
    ensures var last := DOLLAR / 4835703278458516698824704;
            && last * 4835703278458516698824704 == DOLLAR && last > 0
            && (exists mantissa :: 4503599627370496 <= mantissa < 9007199254740992 && TOLERANCE == mantissa * last)
            && -1_000_000_000 * last <= 2 * (1_000_000_000 * TOLERANCE - DOLLAR) <= 1_000_000_000 * last
  {
    hide Pow2;
    DollarUnits();
    var last := Pow2(992);
    assert DOLLAR / 4835703278458516698824704 == last;
    assert TOLERANCE == 4835703278458517 * last;
  }

  // Below two billionths of a dollar over the cap.
  predicate WithinCap(spent: int, cap: int) {
    1_000_000_000 * spent < 1_000_000_000 * cap + 2 * DOLLAR
  }

  lemma {:induction false} ToleratedWithin(spent: int, cap: int)
    requires spent <= cap + TOLERANCE
    ensures WithinCap(spent, cap)
  {
    hide Pow2;
    DollarUnits();
  }

  // ---- whole cents ----

  // The amount is within one rounding, a part in 2^53, of that many cents.
  predicate NearCents(amount: Money, cents: nat) {
    -(cents * DOLLAR) <= (100 * amount - cents * DOLLAR) * 9007199254740992 <= cents * DOLLAR
  }

  ghost predicate AllNearCents(rows: seq<Request>, cents: seq<nat>) {
    |cents| == |rows| && forall i :: 0 <= i < |rows| ==> NearCents(rows[i].amount, cents[i])
  }

  // The whole cents of an agent's undenied rows of a day.
  function CentsOn(rows: seq<Request>, cents: seq<nat>, agent: string, day: string): nat
    requires |cents| == |rows|
  {
    if rows == [] then 0
    else
      var n := |rows| - 1;
      var r := rows[n];
      CentsOn(rows[..n], cents[..n], agent, day)
        + if r.agent == agent && r.decision != Denied && |r.timestamp| >= 10 && r.timestamp[..10] == day then cents[n] else 0
  }

  lemma NearSum(a: Money, m: nat, b: Money, n: nat)
    requires NearCents(a, m) && NearCents(b, n)
    ensures NearCents(a + b, m + n)
  {
    hide Pow2;
    assert (m + n) * DOLLAR == m * DOLLAR + n * DOLLAR;
  }

  lemma NearNothing()
    ensures NearCents(0, 0)
  {
  }

  lemma {:induction false} SpentNearCents(rows: seq<Request>, cents: seq<nat>, agent: string, day: string)
    requires AllNearCents(rows, cents)
    ensures NearCents(SpentOn(rows, agent, day), CentsOn(rows, cents, agent, day))
  {
    hide NearCents;
    NearNothing();
    if rows != [] {
      var n := |rows| - 1;
      SpentNearCents(rows[..n], cents[..n], agent, day);
      var w := Weight(rows[n], agent, day);
      var c := if w == rows[n].amount && rows[n].agent == agent && rows[n].decision != Denied && |rows[n].timestamp| >= 10
                  && rows[n].timestamp[..10] == day then cents[n] else 0;
      NearSum(SpentOn(rows[..n], agent, day), CentsOn(rows[..n], cents[..n], agent, day), w, c);
    }
  }

  // Up to 1000 dollars, the tolerance absorbs every rounding and never a cent.
  lemma CentsFit(spent: Money, spentCents: nat, cap: Money, capCents: nat)
    requires NearCents(spent, spentCents) && NearCents(cap, capCents) && capCents <= 100000
    ensures spent > cap + TOLERANCE <==> spentCents > capCents
  {
    hide Pow2;
    DollarUnits();
    var u := Pow2(992);
    assert DOLLAR == 4835703278458516698824704 * u;
    if spentCents > capCents {
      assert spentCents * DOLLAR >= capCents * DOLLAR + DOLLAR by { Larger(spentCents, capCents, DOLLAR); }
      assert capCents * DOLLAR <= 100000 * DOLLAR by { AtMost(capCents, 100000, DOLLAR); }
    } else {
      assert spentCents * DOLLAR <= capCents * DOLLAR by { AtMost(spentCents, capCents, DOLLAR); }
      assert capCents * DOLLAR <= 100000 * DOLLAR by { AtMost(capCents, 100000, DOLLAR); }
    }
  }

  lemma Larger(m: nat, n: nat, k: nat)
    requires m > n
    ensures m * k >= n * k + k
  {
    var d: nat := m - n - 1;
    assert m * k == (n + 1 + d) * k == n * k + k + d * k;
  }

  lemma AtMost(m: nat, n: nat, k: nat)
    requires m <= n
    ensures m * k <= n * k
  {
    var d: nat := n - m;
    assert n * k == (m + d) * k == m * k + d * k;
  }

  // On a table whose amounts are whole cents, each rounded once, and for any
  // amount and a cap of up to 1000 dollars: the store admits exactly when the
  // rate allows it and the cents fit under the cap, to the cent.
  lemma {:induction false} AdmitsWholeCents(db: Db, cents: seq<nat>, ask: Ask, askCents: nat, capCents: nat, now: Instant)
    requires ask.window * US <= now && AllNearCents(db.requests, cents)
    requires NearCents(ask.amount, askCents) && NearCents(ask.cap, capCents) && capCents <= 100000
    ensures Test(db, ask, now).Admitted? <==>
              && (ask.limit.Some? ==> CountSince(db.requests, ask.agent, WindowCutoff(now, ask.window)) < ask.limit.value)
              && CentsOn(db.requests, cents, ask.agent, Iso(now)[..10]) + askCents <= capCents
  {
    hide NearCents;
    hide Iso;
    hide CountSince;
    hide SpentOn;
    hide CentsOn;
    hide Pow2;
    var day := Iso(now)[..10];
    var spent, spentCents := SpentOn(db.requests, ask.agent, day), CentsOn(db.requests, cents, ask.agent, day);
    SpentNearCents(db.requests, cents, ask.agent, day);
    NearSum(spent, spentCents, ask.amount, askCents);
    CentsFit(spent + ask.amount, spentCents + askCents, ask.cap, capCents);
  }
}
