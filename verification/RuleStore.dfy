/** The rule store: a list edited in place, and what edits in clock order
    promise about ties between equally specific rules. */
module RuleStore {
  import opened Basics
  import opened Rules

  /** Position of the first rule with this ID, or the length when there is none. */
  function IndexOf(rules: seq<Rule>, id: string): (i: nat)
    ensures i <= |rules|
    ensures i < |rules| ==> rules[i].id == id
    ensures forall j :: 0 <= j < i ==> rules[j].id != id
  {
    if rules == [] then 0
    else if rules[0].id == id then 0
    else 1 + IndexOf(rules[1..], id)
  }

  lemma IndexOfIs(rules: seq<Rule>, id: string, i: nat)
    requires i <= |rules| && (i < |rules| ==> rules[i].id == id)
    requires forall j :: 0 <= j < i ==> rules[j].id != id
    ensures IndexOf(rules, id) == i
  {
  }

  function Created(rule: Rule, freshId: string, now: int): Rule {
    rule.(id := if rule.id == "" then freshId else rule.id, createdAt := now, updatedAt := now)
  }

  function Rewritten(former: Rule, rule: Rule, now: int): Rule {
    rule.(id := former.id, createdAt := former.createdAt, updatedAt := now)
  }

  function Added(rules: seq<Rule>, rule: Rule, freshId: string, now: int): seq<Rule> {
    rules + [Created(rule, freshId, now)]
  }

  function Updated(rules: seq<Rule>, id: string, rule: Rule, now: int): seq<Rule> {
    var i := IndexOf(rules, id);
    if i == |rules| then rules else rules[i := Rewritten(rules[i], rule, now)]
  }

  function Removed(rules: seq<Rule>, id: string): seq<Rule> {
    var i := IndexOf(rules, id);
    if i == |rules| then rules else rules[..i] + rules[i + 1..]
  }

  /** The store and the file it writes through to; a write may fail, which the
      caller is told, with the list in memory already changed. */
  class Store {
    var rules: seq<Rule>
    var saved: seq<Rule>

    constructor (items: seq<Rule>)
      ensures rules == items && saved == items
    {
      rules := items;
      saved := items;
    }

    method Persist(writes: bool) returns (ok: bool)
      modifies this`saved
      ensures ok == writes
      ensures saved == if ok then rules else old(saved)
    {
      ok := writes;
      if writes { saved := rules; }
    }

    method Add(rule: Rule, freshId: string, now: int, writes: bool) returns (created: Rule, ok: bool)
      modifies this
      ensures rules == Added(old(rules), rule, freshId, now)
      ensures created == rules[|rules| - 1]
      ensures ok == writes && saved == if ok then rules else old(saved)
    {
      created := rule;
      if created.id == "" { created := created.(id := freshId); }
      created := created.(createdAt := now);
      created := created.(updatedAt := now);
      rules := rules + [created];
      ok := Persist(writes);
    }

    method Update(id: string, rule: Rule, now: int, writes: bool) returns (updated: Option<Rule>, ok: bool)
      modifies this
      ensures rules == Updated(old(rules), id, rule, now)
      ensures updated == var i := IndexOf(old(rules), id); if i < |rules| then Some(rules[i]) else None
      ensures updated.None? ==> ok && saved == old(saved)
      ensures updated.Some? ==> ok == writes && saved == if ok then rules else old(saved)
    {
      for i := 0 to |rules|
        invariant unchanged(this)
        invariant forall j :: 0 <= j < i ==> rules[j].id != id
      {
        if rules[i].id == id {
          IndexOfIs(rules, id, i);
          var changed := rule.(id := id, createdAt := rules[i].createdAt, updatedAt := now);
          rules := rules[i := changed];
          ok := Persist(writes);
          return Some(changed), ok;
        }
      }
      IndexOfIs(rules, id, |rules|);
      return None, true;
    }

    method Remove(id: string, writes: bool) returns (found: bool, ok: bool)
      modifies this
      ensures rules == Removed(old(rules), id)
      ensures found == (IndexOf(old(rules), id) < |old(rules)|)
      ensures ok == (!found || writes)
      ensures saved == if found && ok then rules else old(saved)
    {
      for i := 0 to |rules|
        invariant unchanged(this)
        invariant forall j :: 0 <= j < i ==> rules[j].id != id
      {
        if rules[i].id == id {
          IndexOfIs(rules, id, i);
          rules := rules[..i] + rules[i + 1..];
          ok := Persist(writes);
          return true, ok;
        }
      }
      IndexOfIs(rules, id, |rules|);
      return false, true;
    }

    method ReplaceAll(items: seq<Rule>, writes: bool) returns (ok: bool)
      modifies this
      ensures rules == items
      ensures ok == writes && saved == if ok then rules else old(saved)
    {
      rules := items;
      ok := Persist(writes);
    }
  }

  // ---- What an edit does to each rule -------------------------------------

  /** An added rule is last, as given but for its times, and its ID if it had none. */
  lemma AddIs(rules: seq<Rule>, rule: Rule, freshId: string, now: int)
    ensures var after := Added(rules, rule, freshId, now);
            && |after| == |rules| + 1 && after[..|rules|] == rules
            && after[|rules|].id == (if rule.id == "" then freshId else rule.id)
            && after[|rules|].createdAt == after[|rules|].updatedAt == now
            && after[|rules|].(id := rule.id, createdAt := rule.createdAt, updatedAt := rule.updatedAt) == rule
  {
  }

  /** An update puts the rule given in the place of the first one with the ID,
      under its ID and creation time, and touches no other. */
  lemma UpdateIs(rules: seq<Rule>, id: string, rule: Rule, now: int, k: nat)
    requires k < |rules|
    ensures var after := Updated(rules, id, rule, now);
            var first := rules[k].id == id && forall j :: 0 <= j < k ==> rules[j].id != id;
            && |after| == |rules|
            && (!first ==> after[k] == rules[k])
            && (first ==>
                 && after[k].id == id && after[k].createdAt == rules[k].createdAt && after[k].updatedAt == now
                 && after[k].(id := rule.id, createdAt := rule.createdAt, updatedAt := rule.updatedAt) == rule)
  {
  }

  /** A removal takes out the first rule with the ID and moves up those behind it. */
  lemma RemoveIs(rules: seq<Rule>, id: string, k: nat)
    requires k <= |rules| && (k < |rules| ==> rules[k].id == id) && forall j :: 0 <= j < k ==> rules[j].id != id
    ensures var after := Removed(rules, id);
            && (k == |rules| ==> after == rules)
            && (k < |rules| ==> after == rules[..k] + rules[k + 1..])
  {
    IndexOfIs(rules, id, k);
  }

  // ---- Runs of edits ----------------------------------------------------

  datatype Edit =
    | Add(rule: Rule, freshId: string, now: int)
    | Update(id: string, rule: Rule, now: int)
    | Remove(id: string, now: int)

  function Apply(rules: seq<Rule>, edit: Edit): seq<Rule> {
    match edit
    case Add(rule, freshId, now) => Added(rules, rule, freshId, now)
    case Update(id, rule, now) => Updated(rules, id, rule, now)
    case Remove(id, _) => Removed(rules, id)
  }

  /** The list after these edits to `start`. */
  function Run(start: seq<Rule>, edits: seq<Edit>): seq<Rule> {
    if edits == [] then start else Apply(Run(start, edits[..|edits| - 1]), edits[|edits| - 1])
  }

  ghost predicate ClockOrder(edits: seq<Edit>) {
    forall i, j :: 0 <= i < j < |edits| ==> edits[i].now <= edits[j].now
  }

  ghost predicate OldestFirst(rules: seq<Rule>) {
    forall i, j :: 0 <= i < j < |rules| ==> rules[i].createdAt <= rules[j].createdAt
  }

  ghost predicate CreatedBy(rules: seq<Rule>, now: int) {
    forall k :: 0 <= k < |rules| ==> rules[k].createdAt <= now
  }

  lemma EditKeepsOrder(rules: seq<Rule>, edit: Edit)
    requires OldestFirst(rules) && CreatedBy(rules, edit.now)
    ensures OldestFirst(Apply(rules, edit)) && CreatedBy(Apply(rules, edit), edit.now)
  {
  }

  lemma {:induction false} RunIsOldestFirst(start: seq<Rule>, edits: seq<Edit>)
    requires ClockOrder(edits) && OldestFirst(start) && (edits != [] ==> CreatedBy(start, edits[0].now))
    ensures OldestFirst(Run(start, edits))
    ensures edits == [] || CreatedBy(Run(start, edits), edits[|edits| - 1].now)
  {
    if edits != [] {
      var before, last := edits[..|edits| - 1], edits[|edits| - 1];
      assert before != [] ==> before[0] == edits[0] && before[|before| - 1].now <= last.now;
      RunIsOldestFirst(start, before);
      EditKeepsOrder(Run(start, before), last);
    }
  }

  /** In a list with its oldest rules first, equally specific matches carry the
      same pattern and the newest of them is the one found. */
  lemma {:induction false} OldestFirstNewestWins(rules: seq<Rule>, domain: string, queryType: string,
                                                 k: nat, pattern: string)
    requires OldestFirst(rules) && Candidate(rules, k, pattern, NormalizeDomain(domain), queryType)
    ensures var found := FindRule(rules, domain, queryType);
            found.Some? &&
            (PatternScore(pattern) == PatternScore(found.value.pattern) ==>
               pattern == found.value.pattern && rules[k].createdAt <= found.value.rule.createdAt)
  {
    hide MatchDomain, PatternScore, NormalizeDomain, FindRule;
    var at := FindRuleIsBest(rules, domain, queryType);
    var found := FindRule(rules, domain, queryType);
    assert Passed(rules, k, pattern, |rules|, 0);
    if PatternScore(pattern) == PatternScore(found.value.pattern) {
      EqualScoreSameText(pattern, found.value.pattern, NormalizeDomain(domain));
    }
  }

  /** So it is after any edits made in clock order to such a list, the empty one
      for instance. */
  lemma {:induction false} NewestWinsTies(start: seq<Rule>, edits: seq<Edit>, domain: string, queryType: string,
                                          k: nat, pattern: string)
    requires ClockOrder(edits) && OldestFirst(start) && (edits != [] ==> CreatedBy(start, edits[0].now))
    requires Candidate(Run(start, edits), k, pattern, NormalizeDomain(domain), queryType)
    ensures var rules := Run(start, edits);
            var found := FindRule(rules, domain, queryType);
            found.Some? &&
            (PatternScore(pattern) == PatternScore(found.value.pattern) ==>
               pattern == found.value.pattern && rules[k].createdAt <= found.value.rule.createdAt)
  {
    hide Run, FindRule, PatternScore, NormalizeDomain, Candidate, OldestFirst;
    RunIsOldestFirst(start, edits);
    OldestFirstNewestWins(Run(start, edits), domain, queryType, k, pattern);
  }

  /** A list installed whole by ReplaceAll keeps the creation times it came
      with, so there an older rule can win the tie, whatever the name. */
  lemma ReplacedListMayLetOlderWin(template: Rule, name: string)
    requires NormalizeDomain(name) == name && !IsWild(name)
    ensures var newer := template.(domains := [name], rtype := "A", enabled := true, createdAt := 2);
            var older := newer.(createdAt := 1);
            FindRule([newer, older], name, "A") == Some(Match(older, name))
  {
    var newer := template.(domains := [name], rtype := "A", enabled := true, createdAt := 2);
    var rules := [newer, newer.(createdAt := 1)];
    var at := FindRuleIsBest(rules, name, "A");
    assert Candidate(rules, 1, name, name, "A") && Passed(rules, 1, name, 2, 0);
  }
}
