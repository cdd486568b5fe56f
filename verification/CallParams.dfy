/** Call arguments against an action's declared schema: unknown keys refused,
    defaults filled in from policy, required and length rules enforced. */
module CallParams {
  import opened Text

  type Params = map<string, string>

  datatype Rule = Rule(default: Option<string>, required: bool, maxLength: Option<nat>)

  // A dictionary in its insertion order.
  type Schema = seq<(string, Rule)>

  predicate DistinctNames(schema: Schema) {
    forall i, j :: 0 <= i < j < |schema| ==> schema[i].0 != schema[j].0
  }

  datatype Resolution =
    | Resolved(params: Params)
    | Unknown(names: set<string>)
    | Missing(name: string)
    | TooLong(name: string)

  function Names(schema: Schema): set<string> {
    set i | 0 <= i < |schema| :: schema[i].0
  }

  // What the call carries for a parameter, an empty text standing for none.
  function Effective(entry: (string, Rule), supplied: Params): Option<string> {
    if entry.0 in supplied && supplied[entry.0] != "" then Some(supplied[entry.0])
    else if entry.1.default.Some? && entry.1.default.value != "" then entry.1.default
    else None
  }

  // Why an entry refuses the call, if it does.
  function Objection(entry: (string, Rule), supplied: Params): (o: Option<Resolution>)
    ensures o.Some? ==> o.value.Missing? || o.value.TooLong?
  {
    match Effective(entry, supplied)
    case None => if entry.1.required then Some(Missing(entry.0)) else None
    case Some(v) =>
      if entry.1.maxLength.Some? && |v| > entry.1.maxLength.value then Some(TooLong(entry.0)) else None
  }

  // The first n entries, in order: the first objection, or the values so far.
  function Gather(schema: Schema, supplied: Params, n: nat): Resolution
    requires n <= |schema|
  {
    if n == 0 then Resolved(map[])
    else
      var before := Gather(schema, supplied, n - 1);
      var entry := schema[n - 1];
      if !before.Resolved? then before
      else match Objection(entry, supplied)
        case Some(o) => o
        case None =>
          match Effective(entry, supplied)
          case None => before
          case Some(v) => Resolved(before.params[entry.0 := v])
  }

  function Resolve(schema: Schema, supplied: Params): Resolution {
    if supplied.Keys - Names(schema) != {} then Unknown(supplied.Keys - Names(schema))
    else Gather(schema, supplied, |schema|)
  }

  // _resolve_params
  method ResolveParams(schema: Schema, supplied: Params) returns (r: Resolution)
    ensures r == Resolve(schema, supplied)
    ensures DistinctNames(schema) ==> Meant(schema, supplied, r)
  {
    hide Meant;
    if DistinctNames(schema) { ResolveMeaning(schema, supplied); }
    var unknown := supplied.Keys - Names(schema);
    if unknown != {} {
      return Unknown(unknown);
    }
    var resolved: Params := map[];
    for i := 0 to |schema|
      invariant Gather(schema, supplied, i) == Resolved(resolved)
    {
      var name, rule := schema[i].0, schema[i].1;
      var value := if name in supplied then Some(supplied[name]) else None;
      if value == None || value == Some("") {
        value := rule.default;
      }
      if value == None || value == Some("") {
        if rule.required {
          GatherStops(schema, supplied, i + 1, |schema|);
          return Missing(name);
        }
      } else {
        if rule.maxLength.Some? && |value.value| > rule.maxLength.value {
          GatherStops(schema, supplied, i + 1, |schema|);
          return TooLong(name);
        }
        resolved := resolved[name := value.value];
      }
    }
    r := Resolved(resolved);
  }

  lemma {:induction false} GatherStops(schema: Schema, supplied: Params, m: nat, n: nat)
    requires m <= n <= |schema| && !Gather(schema, supplied, m).Resolved?
    ensures Gather(schema, supplied, n) == Gather(schema, supplied, m)
    decreases n - m
  {
    if m < n { GatherStops(schema, supplied, m, n - 1); }
  }

  // The call is accepted exactly when every supplied name is declared and no
  // entry objects; then each declared name carries its effective value and
  // nothing else is passed on. Otherwise the first objection in schema order
  // is the error.
  lemma {:induction false} GatherMeaning(schema: Schema, supplied: Params, n: nat)
    requires n <= |schema| && DistinctNames(schema)
    ensures match Gather(schema, supplied, n)
            case Resolved(params) =>
              && (forall i :: 0 <= i < n ==> Objection(schema[i], supplied) == None)
              && (forall i :: 0 <= i < n ==>
                    if Effective(schema[i], supplied) == None then schema[i].0 !in params
                    else schema[i].0 in params && Some(params[schema[i].0]) == Effective(schema[i], supplied))
              && (forall name :: name in params ==> exists i :: 0 <= i < n && schema[i].0 == name)
            case error => exists k :: 0 <= k < n && Objection(schema[k], supplied) == Some(error)
                            && forall i :: 0 <= i < k ==> Objection(schema[i], supplied) == None
  {
    hide Objection;
    hide Effective;
    if n > 0 {
      GatherMeaning(schema, supplied, n - 1);
      var before := Gather(schema, supplied, n - 1);
      if before.Resolved? {
        assert schema[n - 1].0 !in before.params;
      }
    }
  }

  lemma ResolveSteps(schema: Schema, supplied: Params)
    requires DistinctNames(schema)
    ensures match Resolve(schema, supplied)
            case Resolved(params) =>
              && supplied.Keys <= Names(schema)
              && (forall i :: 0 <= i < |schema| ==> Objection(schema[i], supplied) == None)
              && params.Keys <= Names(schema)
              && (forall i :: 0 <= i < |schema| ==>
                    if Effective(schema[i], supplied) == None then schema[i].0 !in params
                    else schema[i].0 in params && Some(params[schema[i].0]) == Effective(schema[i], supplied))
            case Unknown(names) => names != {} && names == supplied.Keys - Names(schema)
            case error =>
              && supplied.Keys <= Names(schema)
              && exists k :: 0 <= k < |schema| && Objection(schema[k], supplied) == Some(error)
                   && forall i :: 0 <= i < k ==> Objection(schema[i], supplied) == None
  {
    GatherMeaning(schema, supplied, |schema|);
    var unknown := supplied.Keys - Names(schema);
    if unknown == {} {
      assert forall k :: k in supplied.Keys && k !in Names(schema) ==> k in unknown;
    }
  }

  // ---- what a resolution means, said outright ----

  predicate Given(name: string, supplied: Params) {
    name in supplied && supplied[name] != ""
  }

  predicate HasDefault(rule: Rule) {
    rule.default.Some? && rule.default.value != ""
  }

  // The parameter's value, if it is to have this one: the caller's text when
  // there is one, the policy's otherwise.
  predicate IsValue(name: string, rule: Rule, supplied: Params, value: string) {
    || (Given(name, supplied) && value == supplied[name])
    || (!Given(name, supplied) && HasDefault(rule) && value == rule.default.value)
  }

  predicate Fits(rule: Rule, value: string) {
    rule.maxLength.Some? ==> |value| <= rule.maxLength.value
  }

  // Nothing is wrong with the parameter.
  ghost predicate Fine(name: string, rule: Rule, supplied: Params) {
    || (exists value :: IsValue(name, rule, supplied, value) && Fits(rule, value))
    || (!Given(name, supplied) && !HasDefault(rule) && !rule.required)
  }

  ghost predicate Meant(schema: Schema, supplied: Params, r: Resolution) {
    match r
    case Unknown(names) =>
      names != {} && forall name :: name in names <==> name in supplied && forall i :: 0 <= i < |schema| ==> schema[i].0 != name
    case Resolved(params) =>
      && (forall name :: name in supplied ==> exists i :: 0 <= i < |schema| && schema[i].0 == name)
      && (forall i :: 0 <= i < |schema| ==> Fine(schema[i].0, schema[i].1, supplied))
      && (forall name :: name in params ==>
            exists i :: 0 <= i < |schema| && schema[i].0 == name && IsValue(name, schema[i].1, supplied, params[name]))
      && (forall i :: 0 <= i < |schema| && (Given(schema[i].0, supplied) || HasDefault(schema[i].1)) ==> schema[i].0 in params)
    case Missing(name) =>
      exists k :: 0 <= k < |schema| && schema[k].0 == name && schema[k].1.required
        && !Given(name, supplied) && !HasDefault(schema[k].1)
        && forall i :: 0 <= i < k ==> Fine(schema[i].0, schema[i].1, supplied)
    case TooLong(name) =>
      exists k, value :: 0 <= k < |schema| && schema[k].0 == name && IsValue(name, schema[k].1, supplied, value) && !Fits(schema[k].1, value)
        && forall i :: 0 <= i < k ==> Fine(schema[i].0, schema[i].1, supplied)
  }

  lemma EntryMeaning(entry: (string, Rule), supplied: Params)
    ensures forall value :: IsValue(entry.0, entry.1, supplied, value) <==> Effective(entry, supplied) == Some(value)
    ensures Objection(entry, supplied) == None <==> Fine(entry.0, entry.1, supplied)
    ensures Objection(entry, supplied).Some? && Objection(entry, supplied).value.Missing? ==>
              Objection(entry, supplied).value.name == entry.0 && entry.1.required && !Given(entry.0, supplied) && !HasDefault(entry.1)
    ensures Objection(entry, supplied).Some? && Objection(entry, supplied).value.TooLong? ==>
              Objection(entry, supplied).value.name == entry.0
              && exists value :: IsValue(entry.0, entry.1, supplied, value) && !Fits(entry.1, value)
  {
    if Effective(entry, supplied).Some? {
      assert IsValue(entry.0, entry.1, supplied, Effective(entry, supplied).value);
    }
  }

  // A supplied text is the value, and the default only where there is none;
  // the names accepted are the declared ones; too long is what is longer than
  // its limit, missing is what is required and has neither; and the error is
  // the first there is, in schema order.
  lemma {:induction false} ResolveMeaning(schema: Schema, supplied: Params)
    requires DistinctNames(schema)
    ensures Meant(schema, supplied, Resolve(schema, supplied))
  {
    hide Resolve;
    hide Effective;
    hide Objection;
    hide Fine;
    hide Given;
    hide HasDefault;
    hide IsValue;
    hide Fits;
    ResolveSteps(schema, supplied);
    forall i | 0 <= i < |schema|
      ensures Objection(schema[i], supplied) == None <==> Fine(schema[i].0, schema[i].1, supplied)
    {
      EntryMeaning(schema[i], supplied);
    }
    var r := Resolve(schema, supplied);
    match r
    case Unknown(names) =>
    case Resolved(params) => ResolvedMeaning(schema, supplied, params);
    case Missing(_) =>
      var k :| 0 <= k < |schema| && Objection(schema[k], supplied) == Some(r)
        && forall i :: 0 <= i < k ==> Objection(schema[i], supplied) == None;
      EntryMeaning(schema[k], supplied);
    case TooLong(_) =>
      var k :| 0 <= k < |schema| && Objection(schema[k], supplied) == Some(r)
        && forall i :: 0 <= i < k ==> Objection(schema[i], supplied) == None;
      EntryMeaning(schema[k], supplied);
      var value :| IsValue(schema[k].0, schema[k].1, supplied, value) && !Fits(schema[k].1, value);
  }

  lemma ResolvedMeaning(schema: Schema, supplied: Params, params: Params)
    requires supplied.Keys <= Names(schema) && params.Keys <= Names(schema)
    requires forall i :: 0 <= i < |schema| ==> Objection(schema[i], supplied) == None
    requires forall i :: 0 <= i < |schema| ==>
               if Effective(schema[i], supplied) == None then schema[i].0 !in params
               else schema[i].0 in params && Some(params[schema[i].0]) == Effective(schema[i], supplied)
    ensures Meant(schema, supplied, Resolved(params))
  {
    hide Effective;
    hide Objection;
    hide Fine;
    hide IsValue;
    hide Fits;
    forall i | 0 <= i < |schema|
      ensures Fine(schema[i].0, schema[i].1, supplied)
      ensures schema[i].0 in params ==> IsValue(schema[i].0, schema[i].1, supplied, params[schema[i].0])
      ensures Given(schema[i].0, supplied) || HasDefault(schema[i].1) ==> schema[i].0 in params
    {
      EntryMeaning(schema[i], supplied);
      if Given(schema[i].0, supplied) || HasDefault(schema[i].1) { SomeValue(schema[i], supplied); }
    }
    forall name | name in supplied ensures exists i :: 0 <= i < |schema| && schema[i].0 == name {
      assert name in Names(schema);
    }
    forall name | name in params
      ensures exists i :: 0 <= i < |schema| && schema[i].0 == name && IsValue(name, schema[i].1, supplied, params[name])
    {
      assert name in Names(schema);
      var i :| 0 <= i < |schema| && schema[i].0 == name;
    }
  }

  lemma SomeValue(entry: (string, Rule), supplied: Params)
    requires Given(entry.0, supplied) || HasDefault(entry.1)
    ensures Effective(entry, supplied).Some?
  {
  }
}
