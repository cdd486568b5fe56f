/** The hot-reloading policy: a cache keyed by the file's modification time,
    edits made through this process, and edits made to the file behind it. */
module PolicyFile {
  import opened Text
  import Json

  type Fields = map<string, Json.Value>

  // The parsed file: its agents, and the rest, which nothing here reads.
  datatype Doc = Doc(agents: map<string, Fields>, rest: Json.Value)

  datatype Content = Garbage | Parsed(doc: Doc)

  const AGENT_DEFAULTS: Fields := map[
    "frozen" := Json.Bool(false),
    "max_requests_per_minute" := Json.Null,
    "require_approval_above_usd" := Json.Null]

  const MUTABLE_FIELDS := {
    "per_request_limit_usd", "daily_cap_usd", "allowed_actions", "frozen",
    "max_requests_per_minute", "require_approval_above_usd"}

  // setdefault of every default in every agent.
  function Fill(doc: Doc): Doc {
    doc.(agents := map id | id in doc.agents :: AGENT_DEFAULTS + doc.agents[id])
  }

  // The document with every control it leaves out added as the permissive
  // default, and not another word changed.
  ghost predicate FilledIn(doc: Doc, served: Doc) {
    && served.rest == doc.rest && served.agents.Keys == doc.agents.Keys
    && forall id :: id in doc.agents ==> FieldsFilledIn(doc.agents[id], served.agents[id])
  }

  ghost predicate FieldsFilledIn(had: Fields, has: Fields) {
    && has.Keys == had.Keys + {"frozen", "max_requests_per_minute", "require_approval_above_usd"}
    && (forall k :: k in had ==> has[k] == had[k])
    && ("frozen" !in had ==> has["frozen"] == Json.Bool(false))
    && ("max_requests_per_minute" !in had ==> has["max_requests_per_minute"] == Json.Null)
    && ("require_approval_above_usd" !in had ==> has["require_approval_above_usd"] == Json.Null)
  }

  lemma FieldsFilled(had: Fields, has: Fields)
    ensures has == AGENT_DEFAULTS + had <==> FieldsFilledIn(had, has)
  {
    var filled := AGENT_DEFAULTS + had;
    assert AGENT_DEFAULTS.Keys == {"frozen", "max_requests_per_minute", "require_approval_above_usd"};
    assert filled.Keys == AGENT_DEFAULTS.Keys + had.Keys;
    assert FieldsFilledIn(had, filled);
    if FieldsFilledIn(had, has) {
      assert has.Keys == filled.Keys;
      forall k | k in has ensures has[k] == filled[k] {
        if k !in had { assert k in AGENT_DEFAULTS; }
      }
    }
  }

  lemma FillMeaning(doc: Doc, served: Doc)
    ensures served == Fill(doc) <==> FilledIn(doc, served)
  {
    hide FieldsFilledIn;
    forall id | id in doc.agents && id in served.agents
      ensures served.agents[id] == AGENT_DEFAULTS + doc.agents[id] <==> FieldsFilledIn(doc.agents[id], served.agents[id])
    {
      FieldsFilled(doc.agents[id], served.agents[id]);
    }
    if FilledIn(doc, served) {
      assert served.agents == Fill(doc).agents;
    }
  }

  lemma FillIdempotent(doc: Doc)
    ensures Fill(Fill(doc)) == Fill(doc)
  {
    forall id | id in doc.agents
      ensures AGENT_DEFAULTS + (AGENT_DEFAULTS + doc.agents[id]) == AGENT_DEFAULTS + doc.agents[id]
    {
    }
    assert Fill(Fill(doc)).agents == Fill(doc).agents;
  }

  // The cache, and the file it is a cache of.
  datatype State = State(cacheTime: Option<int>, cache: Option<Doc>, file: Content, fileTime: int)

  function Load(s: State): State {
    if s.cache != None && s.cacheTime == Some(s.fileTime) then s
    else match s.file
      case Garbage => s
      case Parsed(doc) => s.(cache := Some(Fill(doc)), cacheTime := Some(s.fileTime))
  }

  datatype Change =
    | Update(agent: string, fields: Fields)
    | Add(agent: string, displayName: string, fields: Fields)
    | Remove(agent: string)

  predicate Allowed(doc: Doc, change: Change) {
    match change
    case Update(agent, fields) => fields.Keys <= MUTABLE_FIELDS && agent in doc.agents
    case Add(agent, _, fields) => fields.Keys <= MUTABLE_FIELDS && agent !in doc.agents
    case Remove(agent) => agent in doc.agents
  }

  function Changed(doc: Doc, change: Change): Doc
    requires Allowed(doc, change)
  {
    match change
    case Update(agent, fields) => doc.(agents := doc.agents[agent := doc.agents[agent] + fields])
    case Add(agent, displayName, fields) =>
      doc.(agents := doc.agents[agent := AGENT_DEFAULTS["display_name" := Json.Str(displayName)] + fields])
    case Remove(agent) => doc.(agents := doc.agents - {agent})
  }

  predicate Editable(field: string) {
    || field == "per_request_limit_usd" || field == "daily_cap_usd" || field == "allowed_actions"
    || field == "frozen" || field == "max_requests_per_minute" || field == "require_approval_above_usd"
  }

  // Which edits are accepted: of editable fields, on agents that are there,
  // or not there yet.
  ghost predicate Permitted(doc: Doc, change: Change) {
    && (!change.Remove? ==> forall k :: k in change.fields ==> Editable(k))
    && (change.Add? <==> change.agent !in doc.agents)
  }

  lemma AllowedMeaning(doc: Doc, change: Change)
    ensures Allowed(doc, change) <==> Permitted(doc, change)
  {
    assert forall k :: k in MUTABLE_FIELDS <==> Editable(k);
  }

  // What an edit makes of the document: every other agent as it was, and of
  // this one each field given as given, each field not given as it was -- or,
  // on a new agent, the display name and the permissive defaults.
  ghost predicate Carried(doc: Doc, change: Change, after: Doc) {
    var agent := change.agent;
    && after.rest == doc.rest
    && (forall id :: id != agent ==> (id in after.agents <==> id in doc.agents))
    && (forall id :: id != agent && id in doc.agents ==> after.agents[id] == doc.agents[id])
    && (agent in after.agents <==> !change.Remove?)
    && match change
       case Update(_, fields) => agent in doc.agents && FieldsOver(doc.agents[agent], fields, after.agents[agent])
       case Add(_, displayName, fields) => FieldsOfNew(displayName, fields, after.agents[agent])
       case Remove(_) => true
  }

  ghost predicate FieldsOver(had: Fields, given: Fields, has: Fields) {
    && (forall k :: k in has <==> k in had || k in given)
    && (forall k :: k in given ==> has[k] == given[k])
    && (forall k :: k in had && k !in given ==> has[k] == had[k])
  }

  ghost predicate FieldsOfNew(displayName: string, given: Fields, has: Fields) {
    && has.Keys == given.Keys + {"display_name", "frozen", "max_requests_per_minute", "require_approval_above_usd"}
    && (forall k :: k in given ==> has[k] == given[k])
    && ("display_name" !in given ==> has["display_name"] == Json.Str(displayName))
    && ("frozen" !in given ==> has["frozen"] == Json.Bool(false))
    && ("max_requests_per_minute" !in given ==> has["max_requests_per_minute"] == Json.Null)
    && ("require_approval_above_usd" !in given ==> has["require_approval_above_usd"] == Json.Null)
  }

  lemma ChangedMeaning(doc: Doc, change: Change, after: Doc)
    requires Allowed(doc, change)
    ensures after == Changed(doc, change) <==> Carried(doc, change, after)
  {
    hide Allowed;
    ChangedCarried(doc, change);
    if Carried(doc, change, after) { CarriedAlike(doc, change, after, Changed(doc, change)); }
  }

  // An edit can be carried out in one way only.
  lemma CarriedAlike(doc: Doc, change: Change, one: Doc, other: Doc)
    requires Carried(doc, change, one) && Carried(doc, change, other)
    ensures one == other
  {
    var agent := change.agent;
    if !change.Remove? { FieldsAlike(doc, change, one, other); }
    hide FieldsOver;
    hide FieldsOfNew;
    assert forall id :: id in one.agents <==> id in other.agents;
    forall id | id in one.agents ensures one.agents[id] == other.agents[id] {
      if id != agent { assert id in doc.agents; }
    }
    assert one.agents == other.agents;
  }

  lemma FieldsAlike(doc: Doc, change: Change, one: Doc, other: Doc)
    requires Carried(doc, change, one) && Carried(doc, change, other) && !change.Remove?
    ensures one.agents[change.agent] == other.agents[change.agent]
  {
    var a, b := one.agents[change.agent], other.agents[change.agent];
    match change
    case Update(agent, fields) =>
      assert FieldsOver(doc.agents[agent], fields, a) && FieldsOver(doc.agents[agent], fields, b);
      assert forall k :: k in a <==> k in b;
      assert a == b;
    case Add(_, displayName, fields) =>
      assert FieldsOfNew(displayName, fields, a) && FieldsOfNew(displayName, fields, b);
      assert a.Keys == b.Keys;
      assert a == b;
  }

  lemma ChangedCarried(doc: Doc, change: Change)
    requires Allowed(doc, change)
    ensures Carried(doc, change, Changed(doc, change))
  {
  }

  // One edit through this process. The cached dictionary is changed in place
  // first; a write that fails leaves the file and its time alone.
  function Edit(s: State, change: Change, writeOk: bool, time: int): State {
    if change.Update? && !(change.fields.Keys <= MUTABLE_FIELDS) then s
    else if change.Add? && !(change.fields.Keys <= MUTABLE_FIELDS) then s
    else
      var loaded := Load(s);
      if loaded.cache == None || !Allowed(loaded.cache.value, change) then loaded
      else
        var doc := Changed(loaded.cache.value, change);
        if writeOk then State(Some(time), Some(doc), Parsed(doc), time)
        else loaded.(cache := Some(doc))
  }

  class PolicyStore {
    var cacheTime: Option<int>
    var cache: Option<Doc>
    var file: Content
    var fileTime: int

    constructor (file: Content, fileTime: int)
      ensures Value() == State(None, None, file, fileTime)
    {
      cacheTime, cache, this.file, this.fileTime := None, None, file, fileTime;
    }

    function Value(): State
      reads this
    {
      State(cacheTime, cache, file, fileTime)
    }

    // _load_locked and get_policy; None is the exception on an unparsable
    // file that was never read before.
    method GetPolicy() returns (policy: Option<Doc>)
      modifies this`cacheTime, this`cache
      ensures Value() == Load(old(Value())) && policy == Load(old(Value())).cache
    {
      if cache == None || cacheTime != Some(fileTime) {
        if file.Parsed? {
          cache, cacheTime := Some(Fill(file.doc)), Some(fileTime);
        }
      }
      policy := cache;
    }

    method WriteLocked(doc: Doc, time: int)
      modifies this
      ensures Value() == State(Some(time), Some(doc), Parsed(doc), time)
    {
      file, fileTime := Parsed(doc), time;
      cache, cacheTime := Some(doc), Some(time);
    }

    // update_agent, add_agent, remove_agent
    method EditPolicy(change: Change, writeOk: bool, time: int) returns (ok: bool)
      modifies this
      ensures Value() == Edit(old(Value()), change, writeOk, time)
      ensures var before := Load(old(Value())).cache;
              && (ok <==> writeOk && before.Some? && Permitted(before.value, change))
              && (ok ==> cache.Some? && Carried(before.value, change, cache.value)
                         && file == Parsed(cache.value) && fileTime == time && cacheTime == Some(time))
              && (!ok ==> file == old(file) && fileTime == old(fileTime))
              && (!ok && !(before.Some? && Permitted(before.value, change)) ==> cache == old(cache) || cache == before)
    {
      hide Fill;
      hide Changed;
      hide Permitted;
      hide Carried;
      ghost var before := Load(Value()).cache;
      if before.Some? {
        AllowedMeaning(before.value, change);
        if Allowed(before.value, change) { ChangedMeaning(before.value, change, Changed(before.value, change)); }
      }
      if (change.Update? || change.Add?) && !(change.fields.Keys <= MUTABLE_FIELDS) {
        return false;
      }
      var data := GetPolicy();
      if data == None || !Allowed(data.value, change) {
        return false;
      }
      var doc := Changed(data.value, change);
      cache := Some(doc);
      if !writeOk {
        return false;
      }
      WriteLocked(doc, time);
      ok := true;
    }
  }

  // ---- runs of reads and edits ----

  datatype Step =
    | Get
    | Through(change: Change, time: int)
    | Behind(content: Content, time: int)

  function Next(s: State, step: Step): State {
    match step
    case Get => Load(s)
    case Through(change, time) => Edit(s, change, true, time)
    case Behind(content, time) => s.(file := content, fileTime := time)
  }

  // An edit behind the process gives the file a time other than the cached
  // one, or says what the cache says, or does not parse.
  predicate Noticed(s: State, step: Step) {
    match step
    case Behind(Parsed(doc), time) => s.cacheTime != Some(time) || s.cache == Some(Fill(doc))
    case _ => true
  }

  function Run(s: State, steps: seq<Step>): State {
    if steps == [] then s else Next(Run(s, steps[..|steps| - 1]), steps[|steps| - 1])
  }

  predicate AllNoticed(s: State, steps: seq<Step>) {
    steps == [] || (AllNoticed(s, steps[..|steps| - 1]) && Noticed(Run(s, steps[..|steps| - 1]), steps[|steps| - 1]))
  }

  // The last policy this process read or wrote, from what happened alone:
  // the filled-in parse of the file whenever it looked and could parse it.
  function LastGood(s: State, steps: seq<Step>): Option<Doc> {
    if steps == [] then s.cache
    else
      var front := steps[..|steps| - 1];
      match steps[|steps| - 1]
      case Behind(_, _) => LastGood(s, front)
      case Get => Seen(Run(s, front).file, LastGood(s, front))
      case Through(change, _) =>
        if (change.Update? || change.Add?) && !(change.fields.Keys <= MUTABLE_FIELDS) then LastGood(s, front)
        else
          var seen := Seen(Run(s, front).file, LastGood(s, front));
          if seen != None && Allowed(seen.value, change) then Some(Changed(seen.value, change)) else seen
  }

  // What a reader should get: the file's own policy, or else the last good.
  function Seen(file: Content, lastGood: Option<Doc>): Option<Doc> {
    match file
    case Parsed(doc) => Some(Fill(doc))
    case Garbage => lastGood
  }

  // The cache is trusted only for the file it was read from.
  predicate Coherent(s: State) {
    && (s.cacheTime.Some? ==> s.cache.Some?)
    && (s.cacheTime == Some(s.fileTime) && s.file.Parsed? ==> s.cache == Some(Fill(s.file.doc)))
  }

  predicate Filled(s: State) {
    s.cache.Some? ==> Fill(s.cache.value) == s.cache.value
  }

  lemma ChangedFilled(doc: Doc, change: Change)
    requires Allowed(doc, change) && Fill(doc) == doc
    ensures Fill(Changed(doc, change)) == Changed(doc, change)
  {
    var after := Changed(doc, change);
    forall id | id in after.agents ensures AGENT_DEFAULTS + after.agents[id] == after.agents[id] {
      if id in doc.agents {
        assert Fill(doc).agents[id] == AGENT_DEFAULTS + doc.agents[id];
      }
    }
    assert Fill(after).agents == after.agents;
  }

  lemma NextCoherent(s: State, step: Step)
    requires Coherent(s) && Filled(s) && Noticed(s, step)
    ensures Coherent(Next(s, step)) && Filled(Next(s, step))
  {
    hide Fill;
    hide Changed;
    hide Allowed;
    if s.file.Parsed? { FillIdempotent(s.file.doc); }
    match step
    case Through(change, _) =>
      var loaded := Load(s);
      if loaded.cache.Some? && Allowed(loaded.cache.value, change) { ChangedFilled(loaded.cache.value, change); }
    case _ =>
  }

  lemma LoadSees(s: State)
    requires Coherent(s)
    ensures Load(s).cache == Seen(s.file, s.cache)
  {
  }

  // Across any run of edits through this process and noticed edits behind it,
  // the policy served is always the defaults-filled parse of the file on
  // disk, or the last good one while the file does not parse; and edits build
  // on exactly that policy.
  lemma {:induction false} ServesTheFile(file: Content, time: int, steps: seq<Step>)
    requires AllNoticed(State(None, None, file, time), steps)
    ensures var s := Run(State(None, None, file, time), steps);
            && Coherent(s) && Filled(s)
            && s.cache == LastGood(State(None, None, file, time), steps)
            && Load(s).cache == Seen(s.file, LastGood(State(None, None, file, time), steps))
  {
    hide Fill;
    hide Changed;
    hide Allowed;
    var start := State(None, None, file, time);
    if steps != [] {
      var front, step := steps[..|steps| - 1], steps[|steps| - 1];
      ServesTheFile(file, time, front);
      NextCoherent(Run(start, front), step);
      LoadSees(Run(start, front));
    }
    LoadSees(Run(start, steps));
  }

  // An edit that is refused leaves the file and everything a reader gets as
  // they were; one that is accepted puts exactly the change on disk.
  lemma EditEffect(s: State, change: Change, time: int)
    requires Coherent(s) && Filled(s)
    ensures var before, after := Load(s).cache, Edit(s, change, true, time);
            if before != None && Permitted(before.value, change)
            then Load(after).cache.Some? && Carried(before.value, change, Load(after).cache.value)
                 && after.file == Parsed(Load(after).cache.value)
            else after.file == s.file && after.fileTime == s.fileTime && Load(after).cache == before
  {
    hide Fill;
    hide Changed;
    hide Permitted;
    hide Carried;
    var before := Load(s).cache;
    if before != None {
      AllowedMeaning(before.value, change);
      if Allowed(before.value, change) { ChangedMeaning(before.value, change, Changed(before.value, change)); }
    }
  }

  // The steps that leave one field of one agent alone: reads, edits of
  // something else, and files that do not parse.
  predicate Spares(step: Step, agent: string, field: string) {
    match step
    case Get => true
    case Through(Update(a, fields), _) => a != agent || field !in fields
    case Through(Add(_, _, _), _) => true
    case Through(Remove(a), _) => a != agent
    case Behind(content, _) => content.Garbage?
  }

  ghost predicate Reads(s: State, agent: string, field: string, v: Json.Value) {
    && s.cache.Some? && (s.file.Garbage? || s.cacheTime == Some(s.fileTime))
    && agent in s.cache.value.agents && field in s.cache.value.agents[agent] && s.cache.value.agents[agent][field] == v
  }

  lemma SparedStep(s: State, step: Step, agent: string, field: string, v: Json.Value)
    requires Reads(s, agent, field, v) && Spares(step, agent, field)
    ensures Reads(Next(s, step), agent, field, v)
  {
    hide Fill;
    if step.Through? && Allowed(s.cache.value, step.change) {
      ChangedCarried(s.cache.value, step.change);
      hide Changed;
    }
  }

  // The kill switch holds: a field set by an accepted update is what every
  // later reader gets for it, until it is set again, the agent is removed or
  // the file is edited behind the process.
  lemma {:induction false} EditHolds(s: State, agent: string, fields: Fields, time: int, steps: seq<Step>, field: string)
    requires Coherent(s) && Filled(s) && field in fields
    requires Load(s).cache.Some? && Permitted(Load(s).cache.value, Update(agent, fields))
    requires forall step :: step in steps ==> Spares(step, agent, field)
    ensures var policy := Load(Run(Edit(s, Update(agent, fields), true, time), steps)).cache;
            && policy.Some? && agent in policy.value.agents && field in policy.value.agents[agent]
            && policy.value.agents[agent][field] == fields[field]
  {
    var start := Edit(s, Update(agent, fields), true, time);
    EditEffect(s, Update(agent, fields), time);
    AllowedMeaning(Load(s).cache.value, Update(agent, fields));
    assert Reads(start, agent, field, fields[field]);
    ReadsHold(start, steps, agent, field, fields[field]);
    hide Fill;
  }

  lemma {:induction false} ReadsHold(s: State, steps: seq<Step>, agent: string, field: string, v: Json.Value)
    requires Reads(s, agent, field, v) && forall step :: step in steps ==> Spares(step, agent, field)
    ensures Reads(Run(s, steps), agent, field, v)
  {
    hide Reads;
    hide Next;
    if steps != [] {
      ReadsHold(s, steps[..|steps| - 1], agent, field, v);
      SparedStep(Run(s, steps[..|steps| - 1]), steps[|steps| - 1], agent, field, v);
    }
  }

  // A write that fails after the cached dictionary was changed is served all
  // the same, exactly when the change was a real one: the reader then sees a
  // policy that is not the file's.
  lemma FailedWriteShows(s: State, change: Change, time: int)
    requires Coherent(s) && s.file.Parsed? && Allowed(Fill(s.file.doc), change)
    ensures Load(Edit(s, change, false, time)).cache == Some(Fill(s.file.doc))
       <==> Changed(Fill(s.file.doc), change) == Fill(s.file.doc)
  {
    hide Fill;
    hide Changed;
  }

  // An edit behind the cache is seen exactly when it is noticed.
  lemma BehindSeenIff(s: State, doc: Doc, time: int)
    requires Coherent(s) && s.cache.Some?
    ensures Load(Next(s, Behind(Parsed(doc), time))).cache == Some(Fill(doc)) <==> Noticed(s, Behind(Parsed(doc), time))
  {
    hide Fill;
  }
}
