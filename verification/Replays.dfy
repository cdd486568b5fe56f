/** One signed request, one reservation: the replay guard over whole decision
    runs, and the two ways around it. */
module Replays {
  import opened Text
  import opened Clock
  import opened Ledger
  import opened Store
  import opened CallParams
  import opened View
  import opened Engine
  import Identity

  // Action i is a request whose signature was accepted.
  ghost predicate AcceptedAt(H: HashFn, actions: seq<Action>, i: nat)
    requires AllTimed(actions) && i < |actions|
  {
    var s := RunAll(H, actions[..i]);
    actions[i].Spend? && CheckSignature(s.policy, s.seen, actions[i].req, actions[i].clock).0
  }

  predicate ClocksForward(actions: seq<Action>) {
    forall i, j :: 0 <= i < j < |actions| && actions[i].Spend? && actions[j].Spend? ==> actions[i].clock <= actions[j].clock
  }

  predicate NoRestart(actions: seq<Action>, i: nat, j: nat) {
    forall k :: i < k < j && k < |actions| ==> !actions[k].Restart?
  }

  // Nothing but a request or a restart touches the guard's memory.
  lemma SeenStep(H: HashFn, s: State, a: Action)
    requires WellTimed(a)
    ensures Fire(H, s, a).seen == if a.Restart? then map[] else if a.Spend? then CheckSignature(s.policy, s.seen, a.req, a.clock).1 else s.seen
  {
    hide Apply;
    hide Test;
    hide Decide;
    hide CheckSignature;
    hide ViewOf;
    hide ParamsParse;
    hide Permits;
    hide ReservedRow;
    hide Reserved;
  }

  // A key seen at t0 or later is still remembered while the clock is within
  // the window of t0.
  lemma CheckKeeps(p: Policy, seen: Identity.Seen, req: SpendReq, clock: int, key: Identity.Key, t0: int)
    requires key in seen && seen[key] >= t0 && t0 <= clock <= t0 + Identity.TTL
    ensures var after := CheckSignature(p, seen, req, clock).1; key in after && after[key] >= t0
  {
  }

  // A later request to be checked, after the window of t0 has closed.
  ghost predicate WindowOver(actions: seq<Action>, i: nat, m: nat, t0: int) {
    exists k :: i < k < m && k < |actions| && actions[k].Spend? && actions[k].clock > t0 + Identity.TTL
  }

  lemma {:induction false} Remembered(H: HashFn, actions: seq<Action>, i: nat, m: nat)
    requires AllTimed(actions) && i < m <= |actions| && AcceptedAt(H, actions, i) && ClocksForward(actions) && NoRestart(actions, i, m)
    ensures var key, t0, seen := Signed(actions[i].req).key, actions[i].clock, RunAll(H, actions[..m]).seen;
            (key in seen && seen[key] >= t0) || WindowOver(actions, i, m, t0)
    decreases m
  {
    hide Fire;
    hide CheckSignature;
    hide Checked;
    var key, t0 := Signed(actions[i].req).key, actions[i].clock;
    var n := m - 1;
    var s, a := RunAll(H, actions[..n]), actions[n];
    assert actions[..m][..n] == actions[..n] && actions[..m][n] == a;
    SeenStep(H, s, a);
    if n == i {
      AcceptedSeen(s, a);
    } else {
      Remembered(H, actions, i, n);
      if WindowOver(actions, i, n, t0) {
        var k :| i < k < n && k < |actions| && actions[k].Spend? && actions[k].clock > t0 + Identity.TTL;
        assert WindowOver(actions, i, m, t0);
      } else if a.Spend? {
        if a.clock > t0 + Identity.TTL {
          assert WindowOver(actions, i, m, t0);
        } else {
          CheckKeeps(s.policy, s.seen, a.req, a.clock, key, t0);
        }
      }
    }
  }

  lemma AcceptedSeen(s: State, a: Action)
    requires a.Spend? && CheckSignature(s.policy, s.seen, a.req, a.clock).0
    ensures var after, key := CheckSignature(s.policy, s.seen, a.req, a.clock).1, Signed(a.req).key;
            key in after && after[key] == a.clock
  {
  }

  lemma SeenOrStale(p: Policy, seen: Identity.Seen, req: SpendReq, clock: int, t0: int)
    requires (Signed(req).key in seen && seen[Signed(req).key] >= t0) || clock > t0 + Identity.TTL
    requires req.timestamp <= t0 <= clock
    ensures !CheckSignature(p, seen, req, clock).0
  {
  }

  // Over any run whose clock does not run backwards, a request that was
  // accepted and not dated ahead of that moment -- or any with its agent and
  // nonce and no later date -- is refused ever after, until a restart: it
  // reserves nothing a second time.
  lemma {:induction false} OneReservation(H: HashFn, actions: seq<Action>, i: nat, j: nat)
    requires AllTimed(actions) && i < j < |actions| && AcceptedAt(H, actions, i) && actions[j].Spend?
    requires ClocksForward(actions) && NoRestart(actions, i, j)
    requires Signed(actions[j].req).key == Signed(actions[i].req).key && actions[j].req.timestamp <= actions[i].clock
    ensures var s, a := RunAll(H, actions[..j]), actions[j];
            && !AcceptedAt(H, actions, j)
            && var g := Decide(s.policy, a.req, CheckSignature(s.policy, s.seen, a.req, a.clock).0);
               g.Refuse? && (Checked(s.policy, a.req) ==> g.code == "identity_failed")
  {
    hide RunAll;
    hide CheckSignature;
    hide Resolve;
    var s, a, t0 := RunAll(H, actions[..j]), actions[j], actions[i].clock;
    Remembered(H, actions, i, j);
    if WindowOver(actions, i, j, t0) {
      var k :| i < k < j && k < |actions| && actions[k].Spend? && actions[k].clock > t0 + Identity.TTL;
      assert actions[k].clock <= a.clock;
    }
    SeenOrStale(s.policy, s.seen, a.req, a.clock, t0);
  }

  predicate BarFree(req: SpendReq) {
    NoBar(req.agent) && NoBar(req.action) && NoBar(req.nonce)
  }

  // In terms of what is signed: one text, however often it is sent and
  // whatever price it is read with, is accepted once.
  lemma {:induction false} OneTextOnce(H: HashFn, actions: seq<Action>, i: nat, j: nat, amount: Money, amount': Money)
    requires AllTimed(actions) && i < j < |actions| && AcceptedAt(H, actions, i) && actions[j].Spend?
    requires ClocksForward(actions) && NoRestart(actions, i, j)
    requires BarFree(actions[i].req) && BarFree(actions[j].req) && actions[i].req.timestamp <= actions[i].clock
    requires var r, q := actions[i].req, actions[j].req;
             Identity.CanonicalMessage(r.agent, r.action, amount, r.timestamp, r.nonce, r.params)
               == Identity.CanonicalMessage(q.agent, q.action, amount', q.timestamp, q.nonce, q.params)
    ensures !AcceptedAt(H, actions, j)
  {
    hide RunAll;
    hide CheckSignature;
    hide AcceptedAt;
    assert actions[i].Spend? by { AcceptedSpend(H, actions, i); }
    var r, q := actions[i].req, actions[j].req;
    Identity.MessageInjective(r.agent, r.action, amount, r.timestamp, r.nonce, r.params,
                              q.agent, q.action, amount', q.timestamp, q.nonce, q.params);
    OneReservation(H, actions, i, j);
  }

  lemma AcceptedSpend(H: HashFn, actions: seq<Action>, i: nat)
    requires AllTimed(actions) && i < |actions| && AcceptedAt(H, actions, i)
    ensures actions[i].Spend?
  {
    hide RunAll;
    hide CheckSignature;
  }

  // The memory does not survive a restart: whatever was accepted before it,
  // any request that is validly signed and within the window is accepted after.
  lemma {:induction false} RestartForgets(H: HashFn, actions: seq<Action>, restart: Action, req: SpendReq, clock: int)
    requires AllTimed(actions) && restart.Restart? && WellTimed(restart)
    requires Checked(RunAll(H, actions).policy, req) && req.signature == Identity.Valid && Identity.Fresh(Signed(req), clock)
    ensures AllTimed(actions + [restart])
    ensures var s := RunAll(H, actions + [restart]); CheckSignature(s.policy, s.seen, req, clock).0
  {
    hide RunAll;
    hide Apply;
    RunMore(H, actions, restart);
  }

  // A nonce that takes in the arguments is another key for the same signed
  // text, so the guard accepts that text a second time, stripped of them.
  lemma {:induction false} AbsorbedNonceReplays(p: Policy, seen: Identity.Seen, req: SpendReq, clock: int)
    requires CheckSignature(p, seen, req, clock).0 && req.params != map[]
    requires (req.agent, req.nonce + "|" + CanonicalParams(req.params)) !in seen
    ensures var stripped := req.(nonce := req.nonce + "|" + CanonicalParams(req.params), params := map[]);
            && (forall amount :: Identity.CanonicalMessage(stripped.agent, stripped.action, amount, stripped.timestamp, stripped.nonce, stripped.params)
                                 == Identity.CanonicalMessage(req.agent, req.action, amount, req.timestamp, req.nonce, req.params))
            && CheckSignature(p, CheckSignature(p, seen, req, clock).1, stripped, clock).0
  {
    hide CanonicalParams;
    var absorbed := req.nonce + "|" + CanonicalParams(req.params);
    assert |absorbed| > |req.nonce|;
  }
}
