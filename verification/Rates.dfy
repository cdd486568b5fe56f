/** The rate limit where it is meant to hold: over decision runs with a policy
    that changes, and over any interleaving of threads. */
module Rates {
  import opened Text
  import opened Clock
  import opened Ledger
  import opened Anchor
  import opened Store
  import opened View
  import opened Statements
  import Engine
  import Interleave
  import Limits
  import Provenance
  import Settlement
  import Threads

  // ---- decision runs ----

  // The policy limits the agent to that many requests a minute, or fewer.
  predicate Limited(p: Engine.Policy, agent: string, limit: nat) {
    agent in p.agents ==> p.agents[agent].maxPerMinute.Some? && p.agents[agent].maxPerMinute.value <= limit
  }

  // An action reserves at most once, by the request itself.
  lemma ReservesBySpend(H: HashFn, s: Engine.State, a: Engine.Action)
    requires Engine.WellTimed(a)
    ensures forall op :: op in Engine.Fire(H, s, a).history ==>
              op in s.history || !op.OpReserve? || (a.Spend? && op == Settlement.SpendOp(s, a))
    ensures Engine.Fire(H, s, a).policy == if a.SetPolicy? then a.policy else s.policy
  {
    hide Apply;
    hide Test;
    hide Engine.Decide;
    hide Engine.CheckSignature;
    hide ViewOf;
    hide ParamsParse;
    hide Engine.Permits;
    hide Engine.Reserved;
    hide ReservedRow;
  }

  lemma SpendPaced(s: Engine.State, a: Engine.Action, agent: string, limit: nat)
    requires a.Spend? && Engine.WellTimed(a) && Limited(s.policy, agent, limit)
    ensures Limits.Paced(Settlement.SpendOp(s, a), agent, limit, Engine.VELOCITY_WINDOW)
  {
    hide Engine.Decide;
    hide Engine.CheckSignature;
    hide Test;
    var signed := Engine.CheckSignature(s.policy, s.seen, a.req, a.clock).0;
    if Engine.Decide(s.policy, a.req, signed).Proceed? { Engine.GateFacts(s.policy, a.req, signed); }
  }

  lemma {:induction false} RunsPaced(H: HashFn, actions: seq<Engine.Action>, agent: string, limit: nat)
    requires Engine.AllTimed(actions)
    requires forall a :: a in actions && a.SetPolicy? ==> Limited(a.policy, agent, limit)
    ensures var s := Engine.RunAll(H, actions);
            Limited(s.policy, agent, limit) && forall op :: op in s.history ==> Limits.Paced(op, agent, limit, Engine.VELOCITY_WINDOW)
  {
    hide Engine.Fire;
    hide Limits.Paced;
    hide Limited;
    if actions == [] {
      NoPolicy(H, agent, limit);
    } else {
      var front, a := actions[..|actions| - 1], actions[|actions| - 1];
      RunsPaced(H, front, agent, limit);
      var s := Engine.RunAll(H, front);
      ReservesBySpend(H, s, a);
      if a.Spend? { SpendPaced(s, a, agent, limit); }
      assert a in actions;
      forall op | op in Engine.Fire(H, s, a).history ensures Limits.Paced(op, agent, limit, Engine.VELOCITY_WINDOW) {
        if op !in s.history && !op.OpReserve? { OthersPaced(op, agent, limit); }
      }
    }
  }

  lemma NoPolicy(H: HashFn, agent: string, limit: nat)
    ensures var s := Engine.RunAll(H, []); s.history == [] && Limited(s.policy, agent, limit)
  {
  }

  lemma OthersPaced(op: Op, agent: string, limit: nat)
    requires !op.OpReserve?
    ensures Limits.Paced(op, agent, limit, Engine.VELOCITY_WINDOW)
  {
  }

  // However the policy changes during a run, as long as it never allows the
  // agent more than L a minute: every half-open minute anywhere on the time
  // line holds at most L of its admissions between wipes, for any clock.
  lemma {:induction false} EveryMinuteWithinLimit(H: HashFn, actions: seq<Engine.Action>, agent: string, start: Instant, limit: nat)
    requires Engine.AllTimed(actions)
    requires forall a :: a in actions && a.SetPolicy? ==> Limited(a.policy, agent, limit)
    ensures var s := Engine.RunAll(H, actions);
            AllLegal(s.history) && Limits.Admissions(H, s.history, agent, start, 60) <= limit
  {
    hide Engine.RunAll;
    hide Engine.Core;
    hide Provenance.Trace;
    hide Limits.Paced;
    hide Limits.Admissions;
    hide Limited;
    Provenance.AlwaysKept(H, actions);
    Engine.CoreParts(H, Engine.RunAll(H, actions));
    RunsPaced(H, actions, agent, limit);
    Limits.EveryWindowWithinLimit(H, Engine.RunAll(H, actions).history, agent, start, limit, Engine.VELOCITY_WINDOW);
  }

  // ---- threads ----

  // How many reservations the committed transactions admitted for an agent,
  // since the last reset, at times in the half-open window from start.
  ghost function Admissions(H: HashFn, txns: seq<Threads.Txn>, agent: string, start: Instant, window: nat): nat
    requires Threads.AllProper(txns)
  {
    if txns == [] then 0
    else
      var front, x := txns[..|txns| - 1], txns[|txns| - 1];
      assert Threads.Proper(x);
      if x.op.OpReset? then 0
      else Admissions(H, front, agent, start, window)
             + if Limits.AdmitsIn(Threads.Replay(H, front), x.op, agent, start, window) then 1 else 0
  }

  lemma EffectCount(H: HashFn, db: Db, x: Threads.Txn, agent: string, start: string)
    requires Threads.Proper(x)
    ensures var after := Threads.Effect(H, db, x);
            if x.op.OpReset? then Limits.CountFrom(after.requests, agent, start) == 0
            else Limits.CountFrom(after.requests, agent, start) >= Limits.CountFrom(db.requests, agent, start)
    ensures (x.op.OpReserve? && x.op.ask.agent == agent && Test(db, x.op.ask, x.op.now).Admitted? && !Less(Iso(x.op.now), start)) ==>
              Limits.CountFrom(Threads.Effect(H, db, x).requests, agent, start) == Limits.CountFrom(db.requests, agent, start) + 1
  {
    hide Apply;
    hide ReapRows;
    hide Test;
    hide Less;
    hide Iso;
    match x
    case Ran(op) =>
      Limits.StepTable(H, db, op);
      Limits.StepCount(db, op, Apply(H, db, op), agent, start);
    case Swept(picked, op) =>
      if ReapRows(H, db, picked, op.stamp).Some? {
        Interleave.SweepDenies(H, db, picked, op.stamp);
        Limits.CountFromSame(db.requests, ReapRows(H, db, picked, op.stamp).value.requests, agent, start);
      }
  }

  lemma {:induction false} AdmissionsCounted(H: HashFn, txns: seq<Threads.Txn>, agent: string, start: Instant, window: nat)
    requires Threads.AllProper(txns)
    ensures Admissions(H, txns, agent, start, window) <= Limits.CountFrom(Threads.Replay(H, txns).requests, agent, Iso(start))
  {
    hide Threads.Effect;
    hide Test;
    hide Less;
    hide Iso;
    if txns != [] {
      var front, x := txns[..|txns| - 1], txns[|txns| - 1];
      assert Threads.Proper(x);
      AdmissionsCounted(H, front, agent, start, window);
      EffectCount(H, Threads.Replay(H, front), x, agent, Iso(start));
      if x.op.OpReserve? { IsoOrder(x.op.now, start); }
    }
  }

  lemma {:induction false} ReplaysWithinLimit(H: HashFn, txns: seq<Threads.Txn>, agent: string, start: Instant, limit: nat, window: nat)
    requires Threads.AllProper(txns) && forall x :: x in txns ==> Limits.Paced(x.op, agent, limit, window)
    ensures Admissions(H, txns, agent, start, window) <= limit
  {
    hide Threads.Replay;
    hide Less;
    hide Iso;
    hide Test;
    if txns != [] {
      var front, x := txns[..|txns| - 1], txns[|txns| - 1];
      assert Threads.Proper(x) && Limits.Paced(x.op, agent, limit, window);
      ReplaysWithinLimit(H, front, agent, start, limit, window);
      if Limits.AdmitsIn(Threads.Replay(H, front), x.op, agent, start, window) {
        Limits.AdmittedBelowLimit(Threads.Replay(H, front), x.op, agent, start, limit, window);
        AdmissionsCounted(H, front, agent, start, window);
      }
    }
  }

  // Any number of threads, statement by statement: when an agent's committed
  // reservations were all tested against limits up to L over one window
  // length, every half-open window of that length holds at most L admissions
  // between resets.
  lemma {:induction false} EveryWindowOverThreads(
      H: HashFn, actions: seq<Threads.Action>, agent: string, start: Instant, limit: nat, window: nat)
    requires forall x :: x in Threads.RunAll(H, actions).history ==> Limits.Paced(x.op, agent, limit, window)
    ensures var s := Threads.RunAll(H, actions);
            Threads.AllProper(s.history) && Admissions(H, s.history, agent, start, window) <= limit
  {
    hide Threads.RunAll;
    hide Threads.Replay;
    hide Admissions;
    hide Limits.Paced;
    Threads.Serializable(H, actions);
    ReplaysWithinLimit(H, Threads.RunAll(H, actions).history, agent, start, limit, window);
  }
}
