/** The policy a request reads is the cached dictionary itself, which an edit
    changes in place: what that does to the promise that each request is judged
    by one consistent view. */
module Snapshot {
  import opened Text
  import opened Store
  import opened CallParams
  import opened Engine

  // The agent's settings as a request gets to see them when an edit changes
  // them from c to d after its first k reads: the freeze first, then the
  // allowed actions, the limit per request, the approval threshold, the daily
  // cap and the rate.
  function Torn(c: AgentCfg, d: AgentCfg, k: nat): AgentCfg {
    AgentCfg(
      (if k > 2 then c else d).perRequest,
      (if k > 4 then c else d).dailyCap,
      (if k > 1 then c else d).allowed,
      (if k > 0 then c else d).frozen,
      (if k > 5 then c else d).maxPerMinute,
      (if k > 3 then c else d).approveAbove)
  }

  function With(p: Policy, agent: string, cfg: AgentCfg): Policy {
    p.(agents := p.agents[agent := cfg])
  }

  // A request gets past the freeze and the list of allowed actions though the
  // policy permitted it neither before nor after the edit, exactly when the
  // edit lands between those two reads, freezes the agent, and allows it the
  // action that it was not allowed.
  lemma {:induction false} TornIff(p: Policy, agent: string, action: string, c: AgentCfg, d: AgentCfg, k: nat)
    ensures Permits(With(p, agent, Torn(c, d, k)), agent, action)
              && !Permits(With(p, agent, c), agent, action) && !Permits(With(p, agent, d), agent, action)
       <==> k == 1 && action in p.actions && !c.frozen && d.frozen && action !in c.allowed && action in d.allowed
  {
  }

  // Such a request: the edit allows the action and freezes the agent at once,
  // and the request goes on to reserve budget.
  lemma {:induction false} TornRequestProceeds(req: SpendReq, price: nat)
    requires req.keyOnFile && req.amount == None && req.params == map[]
    ensures var c := AgentCfg(price, price, [], false, None, None);
            var d := AgentCfg(price, price, [req.action], true, None, None);
            var p := Policy(map[req.agent := c], map[req.action := ActionCfg(price, [])]);
            && Decide(With(p, req.agent, Torn(c, d, 1)), req, true)
                 == Proceed(Ask(req.agent, req.action, price, price, Pending, map[], None, VELOCITY_WINDOW))
            && !Permits(p, req.agent, req.action) && !Permits(With(p, req.agent, d), req.agent, req.action)
  {
    assert [req.action][0] == req.action;
    assert Names([]) == {};
    assert Resolve([], map[]) == Resolved(map[]);
  }
}
