/** Company search: exact ticker, exact title, title prefix, title substring,
    in that order, the shortest title winning inside the last two. */
module Company {
  import opened Text

  datatype Filer = Filer(cik: int, ticker: string, title: string)

  // str.lower, which is not spelled out here
  type Lower = string -> string

  predicate Contains(s: string, q: string) {
    q <= s || (s != "" && Contains(s[1..], q))
  }

  lemma {:induction false} ContainsMeaning(s: string, q: string)
    ensures Contains(s, q) <==> exists before: string, after: string :: s == before + q + after
  {
    if q <= s {
      assert s == "" + q + s[|q|..];
    } else if s != "" {
      ContainsMeaning(s[1..], q);
      if Contains(s[1..], q) {
        var before: string, after: string :| s[1..] == before + q + after;
        assert s == ([s[0]] + before) + q + after;
      }
      forall before: string, after: string | s == before + q + after ensures Contains(s[1..], q) {
        assert before == "" ==> s == q + after;
        assert s[1..] == before[1..] + q + after;
      }
    }
  }

  const NO_MATCH := 4

  // The best way a row matches: 0 ticker, 1 title, 2 prefix, 3 substring.
  function Tier(lower: Lower, r: Filer, q: string): (t: nat)
    ensures t <= NO_MATCH
  {
    if lower(r.ticker) == q then 0
    else if lower(r.title) == q then 1
    else if q <= lower(r.title) then 2
    else if Contains(lower(r.title), q) then 3
    else NO_MATCH
  }

  // Title length counts only among prefix and among substring matches.
  function Weight(lower: Lower, r: Filer, q: string): nat {
    if Tier(lower, r, q) >= 2 then |r.title| else 0
  }

  // Row i is the better answer than row j.
  predicate Better(lower: Lower, index: seq<Filer>, q: string, i: nat, j: nat)
    requires i < |index| && j < |index|
  {
    var t, u := Tier(lower, index[i], q), Tier(lower, index[j], q);
    var v, w := Weight(lower, index[i], q), Weight(lower, index[j], q);
    t < u || (t == u && (v < w || (v == w && i < j)))
  }

  ghost predicate IsBest(lower: Lower, index: seq<Filer>, q: string, k: nat) {
    && k < |index| && Tier(lower, index[k], q) < NO_MATCH
    && forall i :: 0 <= i < |index| && i != k ==> Better(lower, index, q, k, i)
  }

  lemma BetterAsymmetric(lower: Lower, index: seq<Filer>, q: string, i: nat, j: nat)
    requires i < |index| && j < |index|
    ensures !(Better(lower, index, q, i, j) && Better(lower, index, q, j, i))
  {
  }

  // At most one row is best: the ranking is a strict order.
  lemma BestUnique(lower: Lower, index: seq<Filer>, q: string, j: nat, k: nat)
    requires IsBest(lower, index, q, j) && IsBest(lower, index, q, k)
    ensures j == k
  {
    hide Better;
    if j != k { BetterAsymmetric(lower, index, q, j, k); }
  }

  // min(candidates, key = title length): the first of the shortest.
  method Shortest(index: seq<Filer>, candidates: seq<nat>) returns (k: nat)
    requires candidates != [] && forall c :: c in candidates ==> c < |index|
    requires forall i, j :: 0 <= i < j < |candidates| ==> candidates[i] < candidates[j]
    ensures k in candidates
    ensures forall c :: c in candidates && c != k ==>
              |index[k].title| < |index[c].title| || (|index[k].title| == |index[c].title| && k < c)
  {
    k := candidates[0];
    assert k in candidates;
    for i := 1 to |candidates|
      invariant k in candidates[..i] && k < |index|
      invariant forall c :: c in candidates[..i] ==> c < |index| && c <= candidates[i - 1]
      invariant forall c :: c in candidates[..i] && c != k ==>
                  |index[k].title| < |index[c].title| || (|index[k].title| == |index[c].title| && k < c)
    {
      assert candidates[..i + 1] == candidates[..i] + [candidates[i]];
      assert candidates[i] in candidates;
      if |index[candidates[i]].title| < |index[k].title| {
        k := candidates[i];
      }
    }
    assert candidates[..|candidates|] == candidates;
  }

  // [r for r in index if r matches at this tier or a stricter one], by position
  method Select(lower: Lower, index: seq<Filer>, q: string, substring: bool) returns (picked: seq<nat>)
    ensures forall c: nat :: c in picked <==> c < |index| && Hit(lower, index[c], q, substring)
    ensures forall i, j :: 0 <= i < j < |picked| ==> picked[i] < picked[j]
  {
    picked := [];
    for i := 0 to |index|
      invariant forall c: nat :: c in picked <==> c < i && Hit(lower, index[c], q, substring)
      invariant forall a, b :: 0 <= a < b < |picked| ==> picked[a] < picked[b]
    {
      if Hit(lower, index[i], q, substring) {
        assert forall a :: 0 <= a < |picked| ==> picked[a] in picked;
        picked := picked + [i];
      }
    }
  }

  predicate Hit(lower: Lower, r: Filer, q: string, substring: bool) {
    if substring then Contains(lower(r.title), q) else q <= lower(r.title)
  }

  ghost predicate FirstSuch(index: seq<Filer>, p: Filer -> bool, k: nat) {
    && k < |index| && p(index[k])
    && forall j :: 0 <= j < k ==> !p(index[j])
  }

  // The first of those with the shortest titles.
  ghost predicate ShortestSuch(index: seq<Filer>, p: Filer -> bool, k: nat) {
    && k < |index| && p(index[k])
    && (forall j :: 0 <= j < |index| && p(index[j]) ==> |index[k].title| <= |index[j].title|)
    && (forall j :: 0 <= j < k && p(index[j]) ==> |index[k].title| < |index[j].title|)
  }

  ghost predicate NoneSuch(index: seq<Filer>, p: Filer -> bool) {
    forall j :: 0 <= j < |index| ==> !p(index[j])
  }

  // The answer to a query: a ticker, else a whole title, else a title that
  // begins with it, else a title with it inside.
  ghost predicate Resolved(lower: Lower, index: seq<Filer>, q: string, best: Option<nat>) {
    var ticker := (r: Filer) => lower(r.ticker) == q;
    var title := (r: Filer) => lower(r.title) == q;
    var begins := (r: Filer) => q <= lower(r.title);
    var within := (r: Filer) => Contains(lower(r.title), q);
    if !NoneSuch(index, ticker) then best.Some? && FirstSuch(index, ticker, best.value)
    else if !NoneSuch(index, title) then best.Some? && FirstSuch(index, title, best.value)
    else if !NoneSuch(index, begins) then best.Some? && ShortestSuch(index, begins, best.value)
    else if !NoneSuch(index, within) then best.Some? && ShortestSuch(index, within, best.value)
    else best == None
  }

  // _resolve_company on the folded query: the unique best row of the whole
  // index, or nothing exactly when no row matches at any tier.
  method ResolveCompany(lower: Lower, index: seq<Filer>, q: string) returns (best: Option<nat>)
    ensures best.Some? ==> IsBest(lower, index, q, best.value)
    ensures best.None? <==> forall i :: 0 <= i < |index| ==> Tier(lower, index[i], q) == NO_MATCH
    ensures Resolved(lower, index, q, best)
  {
    for i := 0 to |index|
      invariant forall j :: 0 <= j < i ==> Tier(lower, index[j], q) > 0
    {
      if lower(index[i].ticker) == q {
        return Some(i);
      }
    }
    for i := 0 to |index|
      invariant forall j :: 0 <= j < i ==> Tier(lower, index[j], q) > 1
    {
      if lower(index[i].title) == q {
        return Some(i);
      }
    }
    var prefix := Select(lower, index, q, false);
    if prefix != [] {
      assert prefix[0] in prefix;
      var k := Shortest(index, prefix);
      return Some(k);
    }
    var containing := Select(lower, index, q, true);
    if containing != [] {
      assert containing[0] in containing;
      var k := Shortest(index, containing);
      return Some(k);
    }
    best := None;
  }
}
