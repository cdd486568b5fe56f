/** Signed requests: the exact text that is signed, and the guard that keeps
    a signed request from being used twice. Times are whole microseconds. */
module Identity {
  import opened Text
  import opened CallParams
  import opened Store
  import Json

  const TTL := 60_000_000

  // ---- the signed text ----

  function CanonicalMessage(agent: string, action: string, amount: Money, timestamp: int, nonce: string, params: Params): string {
    agent + "|" + (action + "|" + (DecInt(amount) + "|" + (DecInt(timestamp) + "|" + Tail(nonce, params))))
  }

  // The nonce, and the arguments when there are any.
  function Tail(nonce: string, params: Params): string {
    if params == map[] then nonce else nonce + "|" + CanonicalParams(params)
  }

  lemma ParamsInjective(p: Params, q: Params)
    requires CanonicalParams(p) == CanonicalParams(q)
    ensures p == q
  {
    hide Json.Dumps;
    Json.DumpsInjective(ParamsValue(p), ParamsValue(q));
    var v, w := ParamsValue(p), ParamsValue(q);
    assert v.fields == w.fields;
    assert p.Keys == v.fields.Keys && q.Keys == w.fields.Keys;
    forall k | k in p ensures p[k] == q[k] {
      assert v.fields[k] == Json.Str(p[k]) && w.fields[k] == Json.Str(q[k]);
    }
  }

  lemma TailBars(n: string, p: Params)
    requires NoBar(n)
    ensures NoBar(Tail(n, p)) <==> p == map[]
  {
    hide CanonicalParams;
    if p != map[] { assert Tail(n, p)[|n|] == '|'; }
  }

  lemma TailInjective(n: string, p: Params, m: string, q: Params)
    requires NoBar(n) && NoBar(m) && Tail(n, p) == Tail(m, q)
    ensures n == m && p == q
  {
    hide CanonicalParams;
    TailBars(n, p);
    TailBars(m, q);
    if p != map[] {
      BarSplit(n, CanonicalParams(p), m, CanonicalParams(q));
      ParamsInjective(p, q);
    }
  }

  // Two requests with bar-free agents and actions that sign one text agree in
  // agent, action, amount and time; and when the first one's nonce is free of
  // bars they agree in nonce and arguments exactly when the second one's is.
  lemma {:induction false} MessageInjective(
      a: string, x: string, amount: Money, t: int, n: string, p: Params,
      b: string, y: string, amount': Money, t': int, m: string, q: Params)
    requires NoBar(a) && NoBar(x) && NoBar(b) && NoBar(y) && NoBar(n)
    requires CanonicalMessage(a, x, amount, t, n, p) == CanonicalMessage(b, y, amount', t', m, q)
    ensures a == b && x == y && amount == amount' && t == t'
    ensures n == m && p == q <==> NoBar(m)
  {
    hide Tail;
    var e, e' := DecInt(t) + "|" + Tail(n, p), DecInt(t') + "|" + Tail(m, q);
    var d, d' := DecInt(amount) + "|" + e, DecInt(amount') + "|" + e';
    BarSplit(a, x + "|" + d, b, y + "|" + d');
    BarSplit(x, d, y, d');
    BarSplit(DecInt(amount), e, DecInt(amount'), e');
    BarSplit(DecInt(t), Tail(n, p), DecInt(t'), Tail(m, q));
    DecIntInjective(amount, amount');
    DecIntInjective(t, t');
    if NoBar(m) { TailInjective(n, p, m, q); }
  }

  // A nonce with a bar in it can absorb the arguments: a request with any
  // arguments at all is signed by the text of one with none.
  lemma {:induction false} BarredNonceAbsorbs(a: string, x: string, amount: Money, t: int, n: string, p: Params)
    requires p != map[]
    ensures var absorbed := n + "|" + CanonicalParams(p);
            && absorbed != n
            && CanonicalMessage(a, x, amount, t, absorbed, map[]) == CanonicalMessage(a, x, amount, t, n, p)
  {
    hide CanonicalParams;
    assert |n + "|" + CanonicalParams(p)| > |n|;
  }

  // The arguments a hold is paid with are the ones it was reserved with.
  lemma {:induction false} HeldParamsReadBack(p: Params)
    ensures Json.Loads(CanonicalParams(p)) == Some(ParamsValue(p))
    ensures forall q: Params :: ParamsValue(q) == ParamsValue(p) ==> q == p
  {
    hide Json.Dumps;
    hide Json.Loads;
    Json.LoadsDumps(ParamsValue(p));
    forall q: Params | ParamsValue(q) == ParamsValue(p) ensures q == p {
      ParamsInjective(q, p);
    }
  }

  // ---- the replay guard ----

  type Key = (string, string)
  type Seen = map<Key, int>

  datatype Signature = Valid | Invalid | Malformed

  datatype Request = Request(key: Key, timestamp: int, signature: Signature)

  datatype Answer = Accepted | Stale | BadSignature | Replayed

  function Pruned(seen: Seen, now: int): Seen {
    map k | k in seen && now - seen[k] <= TTL :: seen[k]
  }

  predicate Fresh(r: Request, now: int) {
    -TTL <= now - r.timestamp <= TTL
  }

  function Verify(seen: Seen, r: Request, now: int): (Answer, Seen) {
    if !Fresh(r, now) then (Stale, seen)
    else if r.signature != Valid then (BadSignature, seen)
    else if r.key in Pruned(seen, now) then (Replayed, Pruned(seen, now))
    else (Accepted, Pruned(seen, now)[r.key := now])
  }

  // Which answer a request gets: the window is a minute either way, and a
  // nonce counts as used for a minute.
  predicate Judged(seen: Seen, r: Request, now: int, answer: Answer) {
    var timely := now - r.timestamp <= 60_000_000 && r.timestamp - now <= 60_000_000;
    var used := r.key in seen && now - seen[r.key] <= 60_000_000;
    && (answer == Stale <==> !timely)
    && (answer == BadSignature <==> timely && r.signature != Valid)
    && (answer == Replayed <==> timely && r.signature == Valid && used)
    && (answer == Accepted <==> timely && r.signature == Valid && !used)
  }

  // What is remembered after an answer: an accepted nonce from now on, no
  // other nonce newly or at another time, and none forgotten inside its minute.
  predicate Kept(seen: Seen, r: Request, now: int, answer: Answer, after: Seen) {
    && (answer == Accepted ==> r.key in after && after[r.key] == now)
    && (forall k :: k in after && !(answer == Accepted && k == r.key) ==> k in seen && after[k] == seen[k])
    && (forall k :: k in seen && now - seen[k] <= 60_000_000 ==> k in after)
    && (answer == Stale || answer == BadSignature ==> after == seen)
    && (answer == Accepted || answer == Replayed ==> forall k :: k in after ==> now - after[k] <= 60_000_000)
  }

  lemma VerifyMeaning(seen: Seen, r: Request, now: int)
    ensures var (answer, after) := Verify(seen, r, now);
            Judged(seen, r, now, answer) && Kept(seen, r, now, answer, after)
  {
  }

  // The guard as it runs, its dictionary updated in place.
  class ReplayGuard {
    var seen: Seen

    constructor ()
      ensures seen == map[]
    {
      seen := map[];
    }

    // _prune_expired: collect the expired keys, then delete them one by one.
    method PruneExpired(now: int)
      modifies this
      ensures seen == Pruned(old(seen), now)
    {
      var expired := set k | k in seen && now - seen[k] > TTL;
      var left := expired;
      while left != {}
        invariant left <= expired
        invariant seen == old(seen) - (expired - left)
        decreases |left|
      {
        var k :| k in left;
        left := left - {k};
        seen := seen - {k};
      }
    }

    method VerifyRequest(r: Request, now: int) returns (answer: Answer)
      modifies this
      ensures (answer, seen) == Verify(old(seen), r, now)
      ensures Judged(old(seen), r, now, answer) && Kept(old(seen), r, now, answer, seen)
    {
      VerifyMeaning(seen, r, now);
      if now - r.timestamp > TTL || r.timestamp - now > TTL {
        return Stale;
      }
      if r.signature != Valid {
        return BadSignature;
      }
      PruneExpired(now);
      if r.key in seen {
        return Replayed;
      }
      seen := seen[r.key := now];
      answer := Accepted;
    }
  }

  // ---- runs of the guard ----

  datatype Call = Call(request: Request, now: int)

  function After(calls: seq<Call>): Seen {
    if calls == [] then map[]
    else
      var c := calls[|calls| - 1];
      Verify(After(calls[..|calls| - 1]), c.request, c.now).1
  }

  predicate AcceptedAt(calls: seq<Call>, i: nat)
    requires i < |calls|
  {
    Verify(After(calls[..i]), calls[i].request, calls[i].now).0 == Accepted
  }

  predicate ClockForward(calls: seq<Call>) {
    forall i, j :: 0 <= i < j < |calls| ==> calls[i].now <= calls[j].now
  }

  // Every prune leaves only nonces at most 60 seconds old.
  lemma {:induction false} KeptAreRecent(calls: seq<Call>, r: Request, now: int)
    requires Verify(After(calls), r, now).0 == Accepted || Verify(After(calls), r, now).0 == Replayed
    ensures var kept := Verify(After(calls), r, now).1; forall k :: k in kept ==> now - kept[k] <= 60_000_000
  {
    hide After;
  }

  // An accepted nonce is remembered until the clock is past its window.
  lemma {:induction false} Remembered(calls: seq<Call>, i: nat)
    requires ClockForward(calls) && i < |calls| && AcceptedAt(calls, i)
    ensures var k, seen := calls[i].request.key, After(calls);
            (k in seen && seen[k] >= calls[i].now) || calls[|calls| - 1].now - calls[i].now > 60_000_000
    decreases |calls|
  {
    var n := |calls| - 1;
    var front := calls[..n];
    assert calls[..i] == front[..i] || i == n;
    if i < n {
      assert front[i] == calls[i] && front[..i] == calls[..i];
      Remembered(front, i);
      assert front[|front| - 1].now <= calls[n].now;
    }
  }

  // Only accepted requests are remembered, each at the time it was accepted.
  lemma {:induction false} OnlyAccepted(calls: seq<Call>, k: Key)
    requires k in After(calls)
    ensures exists i :: 0 <= i < |calls| && AcceptedAt(calls, i) && calls[i].request.key == k && calls[i].now == After(calls)[k]
  {
    if calls != [] {
      var n := |calls| - 1;
      var front, c := calls[..n], calls[n];
      VerifyMeaning(After(front), c.request, c.now);
      if AcceptedAt(calls, n) && c.request.key == k {
      } else {
        OnlyAccepted(front, k);
        var i :| 0 <= i < n && AcceptedAt(front, i) && front[i].request.key == k && front[i].now == After(front)[k];
        assert front[..i] == calls[..i] && front[i] == calls[i];
        assert AcceptedAt(calls, i);
      }
    }
  }

  // An earlier request of the key was accepted less than a minute ago.
  ghost predicate UsedWithin(calls: seq<Call>, key: Key, now: int) {
    exists i :: 0 <= i < |calls| && AcceptedAt(calls, i) && calls[i].request.key == key && now - calls[i].now <= 60_000_000
  }

  // Refused as a replay only for an accepted use; and with a clock that never
  // runs backwards the guard's memory is exactly that: each answer follows
  // from the request and the requests accepted before it.
  lemma {:induction false} ReplayedIff(calls: seq<Call>, r: Request, now: int)
    ensures var answer := Verify(After(calls), r, now).0;
            && (answer == Replayed ==> UsedWithin(calls, r.key, now))
            && (ClockForward(calls + [Call(r, now)]) && r.signature == Valid && -60_000_000 <= now - r.timestamp <= 60_000_000 ==>
                  && (answer == Replayed <==> UsedWithin(calls, r.key, now))
                  && (answer == Accepted <==> !UsedWithin(calls, r.key, now)))
  {
    var seen := After(calls);
    VerifyMeaning(seen, r, now);
    hide After;
    hide Verify;
    if r.key in seen { OnlyAccepted(calls, r.key); }
    var all := calls + [Call(r, now)];
    if ClockForward(all) && UsedWithin(calls, r.key, now) {
      var i :| 0 <= i < |calls| && AcceptedAt(calls, i) && calls[i].request.key == r.key && now - calls[i].now <= 60_000_000;
      assert forall j :: 0 <= j < |calls| ==> all[j] == calls[j];
      assert all[|calls|].now == now;
      Remembered(calls, i);
    }
  }

  // With a clock that never runs backwards, a request whose timestamp was not
  // ahead of the clock when it was first accepted is never accepted again --
  // nor is any other request with its key and no later timestamp.
  lemma {:induction false} NoReplay(calls: seq<Call>, i: nat, j: nat)
    requires ClockForward(calls) && i < j < |calls| && AcceptedAt(calls, i)
    requires calls[j].request.key == calls[i].request.key && calls[j].request.timestamp <= calls[i].now
    ensures !AcceptedAt(calls, j)
  {
    hide After;
    var before := calls[..j];
    assert before[..i] == calls[..i] && before[i] == calls[i];
    assert AcceptedAt(before, i);
    Remembered(before, i);
    assert before[|before| - 1].now <= calls[j].now;
  }

  // The limit is exact: right after a request is accepted, some later moment
  // accepts it again if and only if its timestamp was ahead of the clock.
  lemma {:induction false} ReplayableIffAhead(calls: seq<Call>, r: Request, now: int)
    requires Verify(After(calls), r, now).0 == Accepted
    ensures (exists later :: later >= now && Verify(Verify(After(calls), r, now).1, r, later).0 == Accepted)
       <==> r.timestamp > now
  {
    hide After;
    var seen := Verify(After(calls), r, now).1;
    if r.timestamp > now {
      var later := r.timestamp + TTL;
      assert Verify(seen, r, later).0 == Accepted;
    }
  }
}
