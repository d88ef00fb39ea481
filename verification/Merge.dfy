/** The import of a rule list: merged by signature into the store, or
    installed in place of it. */
module Merge {
  import opened Basics
  import opened Text
  import opened Rules
  import opened RuleStore
  import opened Import

  // ---- The list handed in -------------------------------------------------

  /** A validated rule with what the file left out filled in. */
  function Filled(rule: Rule, at: nat, now: nat): Rule {
    rule.(id := if rule.id == "" then GivenId(now, at) else rule.id,
          updatedAt := now,
          createdAt := if rule.createdAt == 0 then now else rule.createdAt)
  }

  function Prepared(net: Addresses, given: seq<Rule>, now: nat): seq<Rule> {
    if given == [] then []
    else
      var n := |given| - 1;
      Prepared(net, given[..n], now)
      + if Problems(net, given[n]) == [] then [Filled(Validated(given[n]), n, now)] else []
  }

  /** The rules passed over, each with its place and its first problem. */
  function PassedOver(net: Addresses, given: seq<Rule>): seq<(nat, Problem)> {
    if given == [] then []
    else
      var n := |given| - 1;
      var problems := Problems(net, given[n]);
      PassedOver(net, given[..n]) + if problems == [] then [] else [(n + 1, problems[0])]
  }

  lemma {:induction false} PreparedCounts(net: Addresses, given: seq<Rule>, now: nat)
    ensures |Prepared(net, given, now)| + |PassedOver(net, given)| == |given|
    ensures forall k :: 0 <= k < |Prepared(net, given, now)| ==> Prepared(net, given, now)[k].id != ""
  {
    if given != [] { PreparedCounts(net, given[..|given| - 1], now); }
  }

  lemma {:induction false} PreparedGrows(net: Addresses, given: seq<Rule>, now: nat, n: nat)
    requires n <= |given|
    ensures Prepared(net, given[..n], now) <= Prepared(net, given, now)
    ensures PassedOver(net, given[..n]) <= PassedOver(net, given)
    decreases |given|
  {
    hide Problems, Validated, Filled;
    if n == |given| {
      assert given[..n] == given;
    } else {
      var m := |given| - 1;
      assert given[..m][..n] == given[..n];
      PreparedGrows(net, given[..m], now, n);
    }
  }

  /** Each rule handed in is taken in its turn: a valid one as it validates, with
      the ID and the creation time it lacks; any other with its place, counted
      from one, and its first problem. */
  lemma PreparedIs(net: Addresses, given: seq<Rule>, now: nat, n: nat)
    requires n < |given|
    ensures var k, rule, value := |Prepared(net, given[..n], now)|, given[n], Validated(given[n]);
            Problems(net, rule) == [] ==>
              && k < |Prepared(net, given, now)|
              && Prepared(net, given, now)[k] ==
                 value.(id := if value.id == "" then "import-" + Decimal(now) + "-" + Decimal(n) else value.id,
                        createdAt := if value.createdAt == 0 then now else value.createdAt, updatedAt := now)
    ensures var k := |PassedOver(net, given[..n])|;
            Problems(net, given[n]) != [] ==>
              k < |PassedOver(net, given)| && PassedOver(net, given)[k] == (n + 1, Problems(net, given[n])[0])
  {
    hide Problems, Validated;
    assert given[..n + 1][..n] == given[..n];
    PreparedGrows(net, given, now, n + 1);
  }

  /** The ID given to the rule at place `at` of a file. */
  function GivenId(now: nat, at: nat): string {
    "import-" + Decimal(now) + "-" + Decimal(at)
  }

  lemma GivenIdsDiffer(now: nat, i: nat, j: nat)
    requires GivenId(now, i) == GivenId(now, j)
    ensures i == j
  {
    var front := "import-" + Decimal(now) + "-";
    assert GivenId(now, i)[|front|..] == Decimal(i) && GivenId(now, j)[|front|..] == Decimal(j);
    DecimalInjective(i, j);
  }

  /** The ID of some place before `n`. */
  ghost predicate GivenBefore(id: string, now: nat, n: nat) {
    exists i: nat :: i < n && id == GivenId(now, i)
  }

  ghost predicate AllGivenBefore(rules: seq<Rule>, now: nat, n: nat) {
    forall k :: 0 <= k < |rules| ==> GivenBefore(rules[k].id, now, n)
  }

  /** Rules that come without IDs get distinct ones. */
  lemma {:induction false} GivenIdsDistinct(net: Addresses, given: seq<Rule>, now: nat)
    requires forall i :: 0 <= i < |given| ==> given[i].id == ""
    ensures DistinctIds(Prepared(net, given, now))
    ensures AllGivenBefore(Prepared(net, given, now), now, |given|)
  {
    PreparedSplit(net, given, now);
    if given != [] {
      hide Problems, Validated, Filled, Prepared, GivenId, GivenBefore, DistinctIds, AllGivenBefore;
      var n := |given| - 1;
      var front, item := given[..n], Filled(Validated(given[n]), n, now);
      assert forall i :: 0 <= i < n ==> front[i] == given[i];
      GivenIdsDistinct(net, front, now);
      FilledId(given[n], n, now);
      OneMoreGiven(Prepared(net, front, now), item, now, n);
    }
  }

  lemma PreparedSplit(net: Addresses, given: seq<Rule>, now: nat)
    ensures given == [] ==> Prepared(net, given, now) == []
    ensures given != [] ==>
              var n := |given| - 1;
              var front, item := Prepared(net, given[..n], now), Filled(Validated(given[n]), n, now);
              Prepared(net, given, now) == front || Prepared(net, given, now) == front + [item]
  {
    hide Problems, Validated, Filled;
  }

  lemma FilledId(rule: Rule, at: nat, now: nat)
    requires rule.id == ""
    ensures Filled(Validated(rule), at, now).id == GivenId(now, at)
  {
  }

  lemma OneMoreGiven(front: seq<Rule>, item: Rule, now: nat, n: nat)
    requires DistinctIds(front) && AllGivenBefore(front, now, n) && item.id == GivenId(now, n)
    ensures DistinctIds(front + [item])
    ensures AllGivenBefore(front, now, n + 1) && AllGivenBefore(front + [item], now, n + 1)
  {
    hide GivenId, GivenBefore;
    LastGiven(now, n);
    forall k | 0 <= k < |front| ensures GivenBefore(front[k].id, now, n + 1) && front[k].id != item.id {
      EarlierGiven(front[k].id, now, n);
    }
  }

  lemma EarlierGiven(id: string, now: nat, n: nat)
    requires GivenBefore(id, now, n)
    ensures GivenBefore(id, now, n + 1) && id != GivenId(now, n)
  {
    hide GivenId;
    var i: nat :| i < n && id == GivenId(now, i);
    if id == GivenId(now, n) { GivenIdsDiffer(now, i, n); }
  }

  lemma LastGiven(now: nat, n: nat)
    ensures GivenBefore(GivenId(now, n), now, n + 1)
  {
    hide GivenId;
  }

  // ---- The merge ----------------------------------------------------------

  /** Each signature's last rule. */
  function BySignature(rules: seq<Rule>): map<string, Rule> {
    if rules == [] then map[]
    else
      var n := |rules| - 1;
      BySignature(rules[..n])[Signature(rules[n]) := rules[n]]
  }

  datatype Tally = Tally(rules: seq<Rule>, added: nat, updated: nat)

  function MergeOne(known: map<string, Rule>, t: Tally, item: Rule, now: int): Tally {
    var s := Signature(item);
    if s in known
    then Tally(Updated(t.rules, known[s].id, item, now), t.added, t.updated + 1)
    else Tally(Added(t.rules, item, item.id, now), t.added + 1, t.updated)
  }

  /** One item after the other, looked up in the snapshot taken beforehand. */
  function MergeAll(known: map<string, Rule>, rules: seq<Rule>, items: seq<Rule>, clock: nat -> int): Tally {
    if items == [] then Tally(rules, 0, 0)
    else
      var n := |items| - 1;
      MergeOne(known, MergeAll(known, rules, items[..n], clock), items[n], clock(n))
  }

  function Merged(rules: seq<Rule>, items: seq<Rule>, clock: nat -> int): Tally {
    MergeAll(BySignature(rules), rules, items, clock)
  }

  // ---- What every merge keeps ---------------------------------------------

  /** Every rule is still in its place, under its ID and creation time. */
  ghost predicate InPlace(before: seq<Rule>, after: seq<Rule>) {
    |before| <= |after|
    && forall i :: 0 <= i < |before| ==> after[i].id == before[i].id && after[i].createdAt == before[i].createdAt
  }

  lemma OneKeepsPlaces(known: map<string, Rule>, rules: seq<Rule>, t: Tally, item: Rule, now: int)
    requires InPlace(rules, t.rules) && |t.rules| == |rules| + t.added
    ensures var u := MergeOne(known, t, item, now);
            InPlace(rules, u.rules) && |u.rules| == |rules| + u.added
  {
    hide Signature;
  }

  /** Every item is added or updates, the list grows by the added ones only,
      and the rules there before keep place, ID and creation time. */
  lemma {:induction false} MergeCounts(known: map<string, Rule>, rules: seq<Rule>, items: seq<Rule>, clock: nat -> int)
    ensures var t := MergeAll(known, rules, items, clock);
            t.added + t.updated == |items| && |t.rules| == |rules| + t.added && InPlace(rules, t.rules)
  {
    if items != [] {
      var n := |items| - 1;
      MergeCounts(known, rules, items[..n], clock);
      OneKeepsPlaces(known, rules, MergeAll(known, rules, items[..n], clock), items[n], clock(n));
      hide InPlace, Signature;
    }
  }

  lemma SameIndex(before: seq<Rule>, after: seq<Rule>, id: string)
    requires InPlace(before, after) && IndexOf(before, id) < |before|
    ensures IndexOf(after, id) == IndexOf(before, id)
  {
    IndexOfIs(after, id, IndexOf(before, id));
  }

  lemma {:induction false} BySignatureHolds(rules: seq<Rule>)
    ensures forall s :: s in BySignature(rules) ==>
              BySignature(rules)[s] in rules && Signature(BySignature(rules)[s]) == s
    ensures forall i :: 0 <= i < |rules| ==> Signature(rules[i]) in BySignature(rules)
  {
    hide Signature;
    if rules != [] {
      var n := |rules| - 1;
      BySignatureHolds(rules[..n]);
      assert rules == rules[..n] + [rules[n]];
    }
  }

  lemma {:induction false} BySignatureLast(rules: seq<Rule>, i: nat)
    requires i < |rules| && LastOfItsKind(rules, i)
    ensures Signature(rules[i]) in BySignature(rules) && BySignature(rules)[Signature(rules[i])] == rules[i]
  {
    hide Signature;
    var n := |rules| - 1;
    if i < n {
      assert Signature(rules[n]) != Signature(rules[i]);
      BySignatureLast(rules[..n], i);
    }
  }

  ghost predicate LastOfItsKind(rules: seq<Rule>, i: nat)
    requires i < |rules|
  {
    forall j :: i < j < |rules| ==> Signature(rules[j]) != Signature(rules[i])
  }

  lemma IdInList(rules: seq<Rule>, rule: Rule)
    requires rule in rules
    ensures IndexOf(rules, rule.id) < |rules|
  {
    var i :| 0 <= i < |rules| && rules[i] == rule;
  }

  /** The rule an item of signature `s` overwrites: the first one with the ID
      of the last one with that signature. */
  function Target(rules: seq<Rule>, s: string): (p: nat)
    requires s in BySignature(rules)
    ensures p < |rules|
  {
    BySignatureHolds(rules);
    IdInList(rules, BySignature(rules)[s]);
    IndexOf(rules, BySignature(rules)[s].id)
  }

  /** No signature leads, through a shared ID, to a rule of another signature. */
  ghost predicate TargetsOwn(rules: seq<Rule>) {
    forall s :: s in BySignature(rules) ==> Signature(rules[Target(rules, s)]) == s
  }

  ghost predicate DistinctIds(rules: seq<Rule>) {
    forall i, j :: 0 <= i < j < |rules| ==> rules[i].id != rules[j].id
  }

  lemma DistinctIdsTarget(rules: seq<Rule>, s: string)
    requires DistinctIds(rules) && s in BySignature(rules)
    ensures rules[Target(rules, s)] == BySignature(rules)[s] && Signature(rules[Target(rules, s)]) == s
  {
    hide Signature, BySignature;
    BySignatureHolds(rules);
    var i :| 0 <= i < |rules| && rules[i] == BySignature(rules)[s];
    IndexOfIs(rules, rules[i].id, i);
  }

  lemma DistinctIdsTargetOwn(rules: seq<Rule>)
    requires DistinctIds(rules)
    ensures TargetsOwn(rules)
  {
    hide Signature, BySignature, Target, DistinctIds;
    forall s | s in BySignature(rules) ensures Signature(rules[Target(rules, s)]) == s {
      DistinctIdsTarget(rules, s);
    }
  }

  // ---- What becomes of each rule ------------------------------------------

  ghost predicate SignaturesKept(before: seq<Rule>, after: seq<Rule>) {
    |before| <= |after| && forall i :: 0 <= i < |before| ==> Signature(after[i]) == Signature(before[i])
  }

  lemma OneStep(rules: seq<Rule>, t: Tally, item: Rule, now: int)
    requires InPlace(rules, t.rules)
    ensures var u := MergeOne(BySignature(rules), t, item, now);
            var s := Signature(item);
            u.rules == if s in BySignature(rules)
                       then t.rules[Target(rules, s) := Rewritten(t.rules[Target(rules, s)], item, now)]
                       else t.rules + [Created(item, item.id, now)]
  {
    hide Signature;
    var s := Signature(item);
    if s in BySignature(rules) {
      BySignatureHolds(rules);
      IdInList(rules, BySignature(rules)[s]);
      SameIndex(rules, t.rules, BySignature(rules)[s].id);
    }
  }

  lemma {:induction false} KeepsSignatures(rules: seq<Rule>, items: seq<Rule>, clock: nat -> int)
    requires TargetsOwn(rules)
    ensures SignaturesKept(rules, Merged(rules, items, clock).rules)
  {
    if items != [] {
      var n := |items| - 1;
      KeepsSignatures(rules, items[..n], clock);
      var t := Merged(rules, items[..n], clock);
      MergeCounts(BySignature(rules), rules, items[..n], clock);
      OneStep(rules, t, items[n], clock(n));
      RewrittenSignature(items[n], clock(n));
      hide Signature, InPlace, Rewritten, MergeOne, Updated, Created;
    }
  }

  lemma RewrittenSignature(item: Rule, now: int)
    ensures forall former :: Signature(Rewritten(former, item, now)) == Signature(item)
    ensures Signature(Created(item, item.id, now)) == Signature(item)
  {
  }

  function At(k: nat): int { 0 }

  /** Merging keeps each stored rule's domains and type, for every import, just
      when no signature leads to a rule of another. */
  lemma KeepsSignaturesIff(rules: seq<Rule>)
    ensures TargetsOwn(rules) <==> forall items, clock :: SignaturesKept(rules, Merged(rules, items, clock).rules)
  {
    if TargetsOwn(rules) {
      forall items, clock ensures SignaturesKept(rules, Merged(rules, items, clock).rules) {
        KeepsSignatures(rules, items, clock);
      }
    } else {
      var s :| s in BySignature(rules) && Signature(rules[Target(rules, s)]) != s;
      WrongTarget(rules, s);
    }
  }

  lemma WrongTarget(rules: seq<Rule>, s: string)
    requires s in BySignature(rules) && Signature(rules[Target(rules, s)]) != s
    ensures !SignaturesKept(rules, Merged(rules, [BySignature(rules)[s]], At).rules)
  {
    var item := BySignature(rules)[s];
    BySignatureHolds(rules);
    OneStep(rules, Tally(rules, 0, 0), item, At(0));
    assert [item][..0] == [];
    assert MergeAll(BySignature(rules), rules, [], At) == Tally(rules, 0, 0);
    RewrittenSignature(item, At(0));
    hide Signature, Rewritten, Updated;
  }

  lemma MergedOne(rules: seq<Rule>, item: Rule, clock: nat -> int)
    ensures Merged(rules, [item], clock) == MergeOne(BySignature(rules), Tally(rules, 0, 0), item, clock(0))
  {
    hide Signature, MergeOne;
    assert [item][..0] == [];
    assert MergeAll(BySignature(rules), rules, [], clock) == Tally(rules, 0, 0);
  }

  lemma SortOne(text: string)
    ensures Sort([text]) == [text]
    ensures Join([text], "|") == text
  {
    assert [text][1..] == [];
  }

  lemma SignatureOfOne(rule: Rule, text: string)
    requires rule.domains == [text]
    ensures Signature(rule) == text + "::" + rule.rtype
  {
    SortOne(text);
    hide Sort, Join;
  }

  lemma SignaturesDiffer(template: Rule)
    ensures Signature(template.(domains := ["a"])) != Signature(template.(domains := ["b"]))
  {
    SignatureOfOne(template.(domains := ["a"]), "a");
    SignatureOfOne(template.(domains := ["b"]), "b");
    hide Signature;
    assert ("a" + "::" + template.rtype)[0] != ("b" + "::" + template.rtype)[0];
  }

  /** An import that carries a stored rule's ID under another signature is
      added beside it; imported again, it overwrites that rule. */
  lemma SharedIdOverwrites(template: Rule, clock: nat -> int)
    requires template.id != ""
    ensures var stored := template.(domains := ["a"]);
            var item := template.(domains := ["b"]);
            var once := Merged([stored], [item], clock);
            once == Tally([stored, Created(item, item.id, clock(0))], 1, 0)
            && var again := Merged(once.rules, [item], clock).rules;
               again != [] && again[0] == Rewritten(stored, item, clock(0))
  {
    var stored, item := template.(domains := ["a"]), template.(domains := ["b"]);
    SignaturesDiffer(template);
    var both := [stored, Created(item, item.id, clock(0))];
    RewrittenSignature(item, clock(0));
    BySignatureHolds([stored]);
    BySignatureLast(both, 1);
    hide Signature, BySignature;
    assert forall s :: s in BySignature([stored]) ==> BySignature([stored])[s] == stored && s == Signature(stored);
    MergedOne([stored], item, clock);
    MergedOne(both, item, clock);
    IndexOfIs(both, item.id, 0);
  }

  /** A rule no item shares its signature with is left alone. */
  lemma {:induction false} LeavesOthers(rules: seq<Rule>, items: seq<Rule>, clock: nat -> int, i: nat)
    requires TargetsOwn(rules) && i < |rules|
    requires forall k :: 0 <= k < |items| ==> Signature(items[k]) != Signature(rules[i])
    ensures var after := Merged(rules, items, clock).rules; |after| >= |rules| && after[i] == rules[i]
  {
    hide Signature, InPlace, Rewritten, MergeOne, Updated, Created, BySignature, Target, TargetsOwn;
    if items != [] {
      var n := |items| - 1;
      var front := items[..n];
      assert forall k :: 0 <= k < n ==> front[k] == items[k];
      LeavesOthers(rules, front, clock, i);
      MergeCounts(BySignature(rules), rules, front, clock);
      OneStep(rules, Merged(rules, front, clock), items[n], clock(n));
      assert Signature(items[n]) != Signature(rules[i]);
      NotTheTarget(rules, i, Signature(items[n]));
    }
  }

  lemma NotTheTarget(rules: seq<Rule>, i: nat, s: string)
    requires TargetsOwn(rules) && i < |rules| && s != Signature(rules[i])
    ensures s in BySignature(rules) ==> Target(rules, s) != i
  {
    hide Signature, Target;
  }

  /** The rule its signature leads to takes over the last item of that
      signature, and keeps its own ID and creation time. */
  lemma {:induction false} LastItemWins(rules: seq<Rule>, items: seq<Rule>, clock: nat -> int, k: nat)
    requires k < |items| && LastOfItsKind(items, k) && Signature(items[k]) in BySignature(rules)
    requires TargetsOwn(rules)
    ensures var after := Merged(rules, items, clock).rules;
            var p := Target(rules, Signature(items[k]));
            |after| >= |rules| && after[p] == Rewritten(rules[p], items[k], clock(k))
  {
    hide Signature, InPlace, Rewritten, MergeOne, Updated, Created, BySignature, Target, TargetsOwn;
    var n := |items| - 1;
    var front := items[..n];
    var t := Merged(rules, front, clock);
    MergeCounts(BySignature(rules), rules, front, clock);
    OneStep(rules, t, items[n], clock(n));
    if k < n {
      assert LastOfItsKind(front, k) by { hide MergeAll; assert front[k] == items[k]; }
      LastItemWins(rules, front, clock, k);
      OtherTarget(rules, Signature(items[k]), Signature(items[n]));
    } else {
      RewrittenTwice(rules, t.rules, Target(rules, Signature(items[n])), items[n], clock(n));
    }
  }

  lemma RewrittenTwice(before: seq<Rule>, after: seq<Rule>, p: nat, item: Rule, now: int)
    requires InPlace(before, after) && p < |before|
    ensures Rewritten(after[p], item, now) == Rewritten(before[p], item, now)
  {
  }

  lemma OtherTarget(rules: seq<Rule>, s: string, t: string)
    requires TargetsOwn(rules) && s in BySignature(rules) && s != t
    ensures t in BySignature(rules) ==> Target(rules, t) != Target(rules, s)
  {
    hide Signature, Target;
  }

  /** The items the snapshot does not know, as the store creates them. */
  function NewOnes(known: map<string, Rule>, items: seq<Rule>, clock: nat -> int): seq<Rule> {
    if items == [] then []
    else
      var n := |items| - 1;
      NewOnes(known, items[..n], clock)
      + if Signature(items[n]) in known then [] else [Created(items[n], items[n].id, clock(n))]
  }

  lemma {:induction false} AppendsTheNew(rules: seq<Rule>, items: seq<Rule>, clock: nat -> int)
    ensures var t := Merged(rules, items, clock);
            |t.rules| >= |rules| && t.rules[|rules|..] == NewOnes(BySignature(rules), items, clock)
  {
    if items != [] {
      var n := |items| - 1;
      AppendsTheNew(rules, items[..n], clock);
      MergeCounts(BySignature(rules), rules, items[..n], clock);
      OneStep(rules, Merged(rules, items[..n], clock), items[n], clock(n));
      hide Signature, InPlace, Rewritten, MergeOne, Updated, Created;
    }
  }

  // ---- Importing again, importing an export -------------------------------

  lemma {:induction false} AllKnownAddsNothing(known: map<string, Rule>, rules: seq<Rule>, items: seq<Rule>,
                                               clock: nat -> int)
    ensures MergeAll(known, rules, items, clock).added == 0 <==>
            forall k :: 0 <= k < |items| ==> Signature(items[k]) in known
  {
    if items != [] {
      var n := |items| - 1;
      AllKnownAddsNothing(known, rules, items[..n], clock);
      hide Signature, Updated, Added;
      assert forall k :: 0 <= k < n ==> items[..n][k] == items[k];
    }
  }

  lemma {:induction false} NewOnesHold(known: map<string, Rule>, items: seq<Rule>, clock: nat -> int, k: nat)
    requires k < |items| && Signature(items[k]) !in known
    ensures exists j ::
      0 <= j < |NewOnes(known, items, clock)| && Signature(NewOnes(known, items, clock)[j]) == Signature(items[k])
  {
    var n := |items| - 1;
    var front := NewOnes(known, items[..n], clock);
    if k < n {
      NewOnesHold(known, items[..n], clock, k);
      var j :| 0 <= j < |front| && Signature(front[j]) == Signature(items[k]);
      assert NewOnes(known, items, clock)[j] == front[j];
    } else {
      RewrittenSignature(items[n], clock(n));
      hide Signature, Created;
      assert NewOnes(known, items, clock)[|front|] == Created(items[n], items[n].id, clock(n));
    }
  }

  /** After a merge the store knows the signature of every item. */
  lemma KnowsItems(rules: seq<Rule>, items: seq<Rule>, clock: nat -> int, k: nat)
    requires TargetsOwn(rules) && k < |items|
    ensures Signature(items[k]) in BySignature(Merged(rules, items, clock).rules)
  {
    var after := Merged(rules, items, clock).rules;
    hide Signature, MergeOne, Merged, NewOnes, BySignature, TargetsOwn;
    BySignatureHolds(after);
    AppendsTheNew(rules, items, clock);
    if Signature(items[k]) in BySignature(rules) {
      BySignatureHolds(rules);
      KeepsSignatures(rules, items, clock);
      var i :| 0 <= i < |rules| && rules[i] == BySignature(rules)[Signature(items[k])];
      assert Signature(after[i]) == Signature(rules[i]);
    } else {
      NewOnesHold(BySignature(rules), items, clock, k);
      var news := NewOnes(BySignature(rules), items, clock);
      var j :| 0 <= j < |news| && Signature(news[j]) == Signature(items[k]);
      assert after[|rules| + j] == after[|rules|..][j] == news[j];
    }
  }

  /** The same items merged once more add nothing. */
  lemma AgainAddsNothing(rules: seq<Rule>, items: seq<Rule>, clock: nat -> int, later: nat -> int)
    requires TargetsOwn(rules)
    ensures Merged(Merged(rules, items, clock).rules, items, later).added == 0
  {
    var after := Merged(rules, items, clock).rules;
    hide Signature, MergeAll, BySignature, TargetsOwn;
    forall k | 0 <= k < |items| ensures Signature(items[k]) in BySignature(after) {
      KnowsItems(rules, items, clock, k);
    }
    AllKnownAddsNothing(BySignature(after), after, items, later);
  }

  ghost predicate AllSound(net: Addresses, rules: seq<Rule>) {
    forall i :: 0 <= i < |rules| ==> Sound(net, rules[i]) && rules[i].id != ""
  }

  ghost predicate DistinctKinds(rules: seq<Rule>) {
    forall i :: 0 <= i < |rules| ==> LastOfItsKind(rules, i)
  }

  /** What a stored rule looks like to an import that finds it in a file. */
  function Reread(rule: Rule, now: nat): Rule {
    rule.(remark := Cut(rule.remark), updatedAt := now,
          createdAt := if rule.createdAt == 0 then now else rule.createdAt)
  }

  lemma SoundReread(net: Addresses, rule: Rule, at: nat, now: nat)
    requires Sound(net, rule) && rule.id != ""
    ensures Problems(net, rule) == []
    ensures Filled(Validated(rule), at, now) == Reread(rule, now)
    ensures Signature(Reread(rule, now)) == Signature(rule)
  {
    DomainsAgain(rule.domains);
    hide Problems, IsDomain, Domains, Cut;
  }

  lemma {:induction false} ExportIsPrepared(net: Addresses, rules: seq<Rule>, now: nat)
    requires AllSound(net, rules)
    ensures var items := Prepared(net, rules, now);
            |items| == |rules| && forall i :: 0 <= i < |rules| ==> items[i] == Reread(rules[i], now)
    ensures PassedOver(net, rules) == []
  {
    hide Sound, Problems, Filled, Validated, Reread;
    if rules != [] {
      var n := |rules| - 1;
      var front := rules[..n];
      assert forall i :: 0 <= i < n ==> front[i] == rules[i];
      ExportIsPrepared(net, front, now);
      SoundReread(net, rules[n], n, now);
      assert Prepared(net, rules, now) == Prepared(net, front, now) + [Reread(rules[n], now)];
    }
  }

  /** A store of valid rules, no two sharing an ID or a signature, merged with
      its own export: nothing is passed over, nothing is added, every rule is
      updated, and only its update time and the ends of its remark change. */
  lemma {:induction false} ExportComesBack(net: Addresses, rules: seq<Rule>, now: nat, clock: nat -> int)
    requires AllSound(net, rules) && DistinctIds(rules) && DistinctKinds(rules)
    ensures PassedOver(net, rules) == []
    ensures var t := Merged(rules, Prepared(net, rules, now), clock);
            t.added == 0 && t.updated == |rules| && |t.rules| == |rules|
            && forall i :: 0 <= i < |rules| ==>
                 t.rules[i] == rules[i].(remark := Cut(rules[i].remark), updatedAt := clock(i))
  {
    hide Signature, MergeAll, Prepared, PassedOver, BySignature, Cut, InPlace;
    var items := Prepared(net, rules, now);
    ExportIsPrepared(net, rules, now);
    DistinctIdsTargetOwn(rules);
    MergeCounts(BySignature(rules), rules, items, clock);
    SameKinds(net, rules, items, now);
    BySignatureHolds(rules);
    AllKnownAddsNothing(BySignature(rules), rules, items, clock);
    forall i | 0 <= i < |rules|
      ensures Merged(rules, items, clock).rules[i] == rules[i].(remark := Cut(rules[i].remark), updatedAt := clock(i))
    {
      OwnItemComesBack(rules, items, clock, now, i);
    }
  }

  lemma OwnItemComesBack(rules: seq<Rule>, items: seq<Rule>, clock: nat -> int, now: nat, i: nat)
    requires DistinctIds(rules) && TargetsOwn(rules) && DistinctKinds(rules) && DistinctKinds(items)
    requires |items| == |rules| && i < |rules| && items[i] == Reread(rules[i], now)
    requires Signature(items[i]) == Signature(rules[i])
    ensures var after := Merged(rules, items, clock).rules;
            |after| >= |rules| && after[i] == rules[i].(remark := Cut(rules[i].remark), updatedAt := clock(i))
  {
    hide Signature, Merged, BySignature, Cut, Target, TargetsOwn;
    BySignatureLast(rules, i);
    DistinctIdsTarget(rules, Signature(rules[i]));
    SamePlace(rules, Target(rules, Signature(rules[i])), i);
    LastItemWins(rules, items, clock, i);
  }

  lemma SamePlace(rules: seq<Rule>, p: nat, i: nat)
    requires DistinctIds(rules) && p < |rules| && i < |rules| && rules[p] == rules[i]
    ensures p == i
  {
  }

  lemma SameKinds(net: Addresses, rules: seq<Rule>, items: seq<Rule>, now: nat)
    requires AllSound(net, rules) && DistinctKinds(rules)
    requires |items| == |rules| && forall i :: 0 <= i < |rules| ==> items[i] == Reread(rules[i], now)
    ensures forall i :: 0 <= i < |rules| ==> Signature(items[i]) == Signature(rules[i])
    ensures DistinctKinds(items)
  {
    forall i | 0 <= i < |rules| ensures Signature(items[i]) == Signature(rules[i]) {
      SoundReread(net, rules[i], i, now);
      hide Sound, Signature, Problems;
    }
    forall i | 0 <= i < |items| ensures LastOfItsKind(items, i) {
      hide Sound, Signature, Reread;
      assert LastOfItsKind(rules, i);
    }
  }

  // ---- The request --------------------------------------------------------

  datatype Answer =
    | Refused
    | WriteFailed
    | Imported(added: nat, updated: nat, skipped: nat, errors: seq<(nat, Problem)>)

  method Prepare(net: Addresses, given: seq<Rule>, now: nat) returns (valid: seq<Rule>, problems: seq<(nat, Problem)>)
    ensures valid == Prepared(net, given, now) && problems == PassedOver(net, given)
  {
    valid, problems := [], [];
    for i := 0 to |given|
      invariant valid == Prepared(net, given[..i], now) && problems == PassedOver(net, given[..i])
    {
      assert given[..i + 1][..i] == given[..i];
      var value, errs := Validate(net, given[i]);
      hide Problems, Validated;
      if errs != [] {
        problems := problems + [(i + 1, errs[0])];
        continue;
      }
      if value.id == "" { value := value.(id := "import-" + Decimal(now) + "-" + Decimal(i)); }
      value := value.(updatedAt := now);
      if value.createdAt == 0 { value := value.(createdAt := now); }
      valid := valid + [value];
    }
    assert given[..|given|] == given;
  }

  method Index(rules: seq<Rule>) returns (existing: map<string, Rule>)
    ensures existing == BySignature(rules)
  {
    hide Signature;
    existing := map[];
    for i := 0 to |rules|
      invariant existing == BySignature(rules[..i])
    {
      assert rules[..i + 1][..i] == rules[..i];
      existing := existing[Signature(rules[i]) := rules[i]];
    }
    assert rules[..|rules|] == rules;
  }

  /** Position of the first failing write, or `n`. */
  function FirstFailure(writes: nat -> bool, n: nat): (k: nat)
    ensures k <= n && (forall j: nat :: j < k ==> writes(j)) && (k < n ==> !writes(k))
  {
    if n == 0 then 0
    else
      var k := FirstFailure(writes, n - 1);
      if k < n - 1 || !writes(n - 1) then k else n
  }

  /** Stops at the first write that fails, with that item already in memory. */
  method MergeInto(store: Store, items: seq<Rule>, clock: nat -> int, writes: nat -> bool)
      returns (ok: bool, added: nat, updated: nat)
    modifies store
    ensures var k := FirstFailure(writes, |items|);
            var done := Merged(old(store.rules), if k == |items| then items else items[..k + 1], clock);
            && ok == (k == |items|) && store.rules == done.rules
            && (ok ==> added == done.added && updated == done.updated)
            && store.saved == if k == 0 then old(store.saved) else Merged(old(store.rules), items[..k], clock).rules
  {
    hide BySignature, MergeOne;
    ghost var before, file := store.rules, store.saved;
    var existing := Index(store.rules);
    ok, added, updated := true, 0, 0;
    for i := 0 to |items|
      invariant Merged(before, items[..i], clock) == Tally(store.rules, added, updated)
      invariant forall j: nat :: j < i ==> writes(j)
      invariant store.saved == if i == 0 then file else store.rules
    {
      assert items[..i + 1][..i] == items[..i];
      MergeCounts(BySignature(before), before, items[..i], clock);
      ok, added, updated := MergeItem(store, before, existing, items[i], added, updated, clock(i), writes(i));
      if !ok { return; }
    }
    assert items[..|items|] == items;
  }

  method MergeItem(store: Store, ghost before: seq<Rule>, existing: map<string, Rule>, item: Rule,
                   a: nat, u: nat, now: int, writes: bool)
      returns (ok: bool, added: nat, updated: nat)
    requires existing == BySignature(before) && InPlace(before, store.rules)
    modifies store
    ensures ok == writes
    ensures var done := MergeOne(BySignature(before), Tally(old(store.rules), a, u), item, now);
            store.rules == done.rules && (ok ==> added == done.added && updated == done.updated)
    ensures store.saved == if ok then store.rules else old(store.saved)
  {
    hide Signature;
    added, updated := a, u;
    var s := Signature(item);
    if s in existing {
      BySignatureHolds(before);
      IdInList(before, existing[s]);
      SameIndex(before, store.rules, existing[s].id);
      var rewritten;
      rewritten, ok := store.Update(existing[s].id, item, now, writes);
      if ok { updated := updated + 1; }
    } else {
      var created;
      created, ok := store.Add(item, item.id, now, writes);
      if ok { added := added + 1; }
    }
  }

  /** The whole request. Every rule handed in is added, updates one, or is
      passed over. */
  method ImportRules(net: Addresses, store: Store, given: seq<Rule>, replace: bool,
                     now: nat, clock: nat -> int, writes: nat -> bool) returns (answer: Answer)
    modifies store
    ensures answer.Refused? <==> given == []
    ensures answer.Refused? ==> store.rules == old(store.rules) && store.saved == old(store.saved)
    ensures answer.Imported? ==>
              && answer.added + answer.updated + answer.skipped == |given|
              && answer.skipped == |PassedOver(net, given)|
              && answer.errors == PassedOver(net, given)[..Min(5, answer.skipped)]
    ensures answer.Imported? && replace ==>
              store.rules == store.saved == Prepared(net, given, now) && answer.updated == 0
    ensures answer.Imported? && !replace ==>
              && store.rules == Merged(old(store.rules), Prepared(net, given, now), clock).rules
              && |store.rules| == |old(store.rules)| + answer.added && InPlace(old(store.rules), store.rules)
              && (store.saved == store.rules || answer.skipped == |given|)
    ensures given != [] ==>
              (answer.WriteFailed? <==>
                exists k: nat :: (if replace then k == 0 else k < |Prepared(net, given, now)|) && !writes(k))
  {
    hide Problems, MergeAll, BySignature, InPlace, Prepared, PassedOver;
    if given == [] { return Refused; }
    var valid, problems := Prepare(net, given, now);
    PreparedCounts(net, given, now);
    if replace {
      var ok := store.ReplaceAll(valid, writes(0));
      if !ok { return WriteFailed; }
      return Imported(|valid|, 0, |problems|, problems[..Min(5, |problems|)]);
    }
    MergeCounts(BySignature(store.rules), store.rules, valid, clock);
    var ok, added, updated := MergeInto(store, valid, clock, writes);
    if !ok { return WriteFailed; }
    assert valid[..|valid|] == valid;
    return Imported(added, updated, |problems|, problems[..Min(5, |problems|)]);
  }
}
