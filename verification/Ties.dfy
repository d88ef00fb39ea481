/** When the newer of two equally specific rules wins: an exact condition on any
    rule list, whether edited into being, loaded or installed whole. */
module Ties {
  import opened Basics
  import opened Text
  import opened Rules

  // ---- The property and the condition ------------------------------------

  /** The rule found beats `rules[k]`, or ties with it and is no older. */
  ghost predicate Beats(rules: seq<Rule>, name: string, queryType: string, k: nat, p: string)
    requires k < |rules|
  {
    var found := FindRule(rules, name, queryType);
    && found.Some?
    && (PatternScore(p) == PatternScore(found.value.pattern) ==> rules[k].createdAt <= found.value.rule.createdAt)
  }

  /** Whatever is asked for, no equally specific match is newer than the one found. */
  ghost predicate NewestWins(rules: seq<Rule>) {
    forall name: string, queryType: string, k: nat, p: string ::
      Candidate(rules, k, p, NormalizeDomain(name), queryType) ==> Beats(rules, name, queryType, k, p)
  }

  ghost predicate Carries(rules: seq<Rule>, k: nat, p: string, queryType: string) {
    k < |rules| && Usable(rules[k], queryType) && p in rules[k].domains
  }

  /** A wildcard never wins where its base is carried too, and a text with
      capitals matches no name. */
  predicate CanWin(rules: seq<Rule>, p: string, queryType: string) {
    ToLower(p) == p && !(IsWild(p) && !IsWild(Base(p)) && Carrier(rules, Base(p), queryType).Some?)
  }

  /** Among the rules that carry a pattern, none is newer than the last. */
  ghost predicate LastIsNewest(rules: seq<Rule>) {
    forall queryType: string, p: string, k: nat :: Carries(rules, k, p, queryType) && CanWin(rules, p, queryType) ==>
      var last := Carrier(rules, p, queryType);
      last.Some? && rules[k].createdAt <= last.value.rule.createdAt
  }

  // ---- Enough -------------------------------------------------------------

  lemma LowerSuffix(s: string, suffix: string)
    requires ToLower(s) == s && HasSuffix(s, suffix)
    ensures ToLower(suffix) == suffix
  {
    forall i | 0 <= i < |suffix| ensures LowerChar(suffix[i]) == suffix[i] {
      assert suffix[i] == s[|s| - |suffix| + i];
      assert ToLower(s)[|s| - |suffix| + i] == s[|s| - |suffix| + i];
    }
  }

  lemma MatchedIsLower(p: string, domain: string)
    requires MatchDomain(p, domain) && ToLower(domain) == domain
    ensures ToLower(p) == p
  {
    if IsWild(p) {
      LowerSuffix(domain, "." + Base(p));
      assert HasSuffix("." + Base(p), Base(p));
      LowerSuffix("." + Base(p), Base(p));
      assert p == "*." + Base(p);
    } else if domain != p {
      LowerSuffix(domain, "." + p);
      assert HasSuffix("." + p, p);
      LowerSuffix("." + p, p);
    }
  }

  /** The pattern found is one that can win. */
  lemma FoundCanWin(rules: seq<Rule>, m: Match, at: nat, domain: string, queryType: string)
    requires IsBest(rules, Some(m), at, domain, queryType) && ToLower(domain) == domain
    ensures CanWin(rules, m.pattern, queryType)
  {
    var p := m.pattern;
    MatchedIsLower(p, domain);
    if IsWild(p) && !IsWild(Base(p)) && Carrier(rules, Base(p), queryType).Some? {
      CarrierIsLast(rules, Base(p), queryType);
      var k :| 0 <= k < |rules| && Usable(rules[k], queryType) && Base(p) in rules[k].domains;
      assert Candidate(rules, k, Base(p), domain, queryType) ==> Passed(rules, k, Base(p), |rules|, 0);
      assert false;
    }
  }

  lemma Enough(rules: seq<Rule>, name: string, queryType: string, k: nat, p: string)
    requires LastIsNewest(rules) && Candidate(rules, k, p, NormalizeDomain(name), queryType)
    ensures Beats(rules, name, queryType, k, p)
  {
    var domain := NormalizeDomain(name);
    NormalizedIsLower(name);
    var at := FindRuleIsBest(rules, name, queryType);
    var found := FindRule(rules, name, queryType);
    assert Passed(rules, k, p, |rules|, 0);
    if PatternScore(p) == PatternScore(found.value.pattern) {
      EqualScoreSameText(p, found.value.pattern, domain);
      BestCarrier(rules, found.value, at, domain, queryType);
      FoundCanWin(rules, found.value, at, domain, queryType);
      assert Carries(rules, k, p, queryType);
    }
  }

  // ---- Needed -------------------------------------------------------------

  function LongestOf(domains: seq<string>): (n: nat)
    ensures forall p :: p in domains ==> |p| <= n
  {
    if domains == [] then 0 else Max(LongestOf(domains[..|domains| - 1]), |domains[|domains| - 1]|)
  }

  function Longest(rules: seq<Rule>): (n: nat)
    ensures forall k, p :: 0 <= k < |rules| && p in rules[k].domains ==> |p| <= n
  {
    if rules == [] then 0
    else Max(Longest(rules[..|rules| - 1]), LongestOf(rules[|rules| - 1].domains))
  }

  /** A label longer than any pattern. */
  function NewLabel(rules: seq<Rule>): string {
    seq(Longest(rules) + 1, _ => 'a')
  }

  /** A name just below the pattern's base that no pattern spells out. */
  function Below(rules: seq<Rule>, p: string): string {
    NewLabel(rules) + "." + Base(p)
  }

  lemma BelowIsAsked(rules: seq<Rule>, p: string)
    requires ToLower(p) == p
    ensures NormalizeDomain(Below(rules, p) + ".") == Below(rules, p)
  {
    assert HasSuffix(p, Base(p));
    LowerSuffix(p, Base(p));
    NewLabelIsLower(rules);
    hide NewLabel, ToLower;
    LowerConcat(NewLabel(rules), ".");
    LowerConcat(NewLabel(rules) + ".", Base(p));
    assert ToLower(".") == "." by { DotIsLower(); }
    DotComesOff(Below(rules, p));
  }

  lemma NewLabelIsLower(rules: seq<Rule>)
    ensures ToLower(NewLabel(rules)) == NewLabel(rules)
    ensures NewLabel(rules) != "" && !IsSpace(NewLabel(rules)[0])
  {
  }

  lemma BelowLabels(rules: seq<Rule>, p: string)
    ensures Split(Below(rules, p), '.') == [NewLabel(rules)] + Split(Base(p), '.')
  {
    NewLabelIsWhole(rules);
    hide NewLabel, Split;
    SplitAppend(NewLabel(rules), '.', Base(p));
    assert NewLabel(rules) + ['.'] + Base(p) == Below(rules, p);
  }

  lemma NewLabelIsWhole(rules: seq<Rule>)
    ensures Split(NewLabel(rules), '.') == [NewLabel(rules)]
  {
    SplitWhole(NewLabel(rules), '.');
  }

  lemma MatchesBelow(rules: seq<Rule>, p: string)
    ensures MatchDomain(p, Below(rules, p))
  {
    hide NewLabel;
    var top := NewLabel(rules);
    assert Below(rules, p) == top + ("." + Base(p));
    assert (top + ("." + Base(p)))[|top|..] == "." + Base(p);
  }

  /** No carried pattern that matches there is more specific. */
  lemma BelowScore(rules: seq<Rule>, p: string, queryType: string, k: nat, q: string)
    requires Carries(rules, k, q, queryType) && MatchDomain(q, Below(rules, p)) && CanWin(rules, p, queryType)
    ensures PatternScore(q) <= PatternScore(p)
  {
    var name := Below(rules, p);
    var labels := Split(name, '.');
    BelowLabels(rules, p);
    MatchIsLabelSuffix(q, name);
    var i: nat :| SitsAt(Base(q), labels, i) && i < |labels|;
    assert |q| <= Longest(rules) < |NewLabel(rules)| < |name|;
    JoinOfSplit(name, '.');
    assert labels[0..] == labels;
    assert i != 0;
    if i == 1 {
      assert labels[1..] == Split(Base(p), '.');
      JoinOfSplit(Base(p), '.');
      assert Base(q) == Base(p);
      if IsWild(p) && !IsWild(q) { CarriedHasCarrier(rules, k, q, queryType); }
    }
  }

  lemma CarriedHasCarrier(rules: seq<Rule>, k: nat, p: string, queryType: string)
    requires Carries(rules, k, p, queryType)
    ensures Carrier(rules, p, queryType).Some?
  {
    CarrierIsLast(rules, p, queryType);
  }

  /** A pattern that can win does: its last carrier is found for a name just
      below its base. */
  lemma WinsBelow(rules: seq<Rule>, queryType: string, p: string, k: nat)
    requires Carries(rules, k, p, queryType) && CanWin(rules, p, queryType)
    ensures FindRule(rules, Below(rules, p) + ".", queryType) == Carrier(rules, p, queryType)
    ensures Carrier(rules, p, queryType).Some? && Carrier(rules, p, queryType).value.pattern == p
    ensures Candidate(rules, k, p, NormalizeDomain(Below(rules, p) + "."), queryType)
  {
    var name := Below(rules, p);
    BelowIsAsked(rules, p);
    MatchesBelow(rules, p);
    assert Candidate(rules, k, p, NormalizeDomain(name + "."), queryType);
    var at := FindRuleIsBest(rules, name + ".", queryType);
    assert Passed(rules, k, p, |rules|, 0);
    var m := FindRule(rules, name + ".", queryType).value;
    BelowScore(rules, p, queryType, at, m.pattern);
    EqualScoreSameText(p, m.pattern, name);
    BestCarrier(rules, m, at, name, queryType);
  }

  /** The patterns that are found for some name are those that can win. */
  lemma WinsIff(rules: seq<Rule>, queryType: string, p: string, k: nat)
    requires Carries(rules, k, p, queryType)
    ensures CanWin(rules, p, queryType) <==>
            exists name: string :: FindRule(rules, name, queryType).Some? &&
              FindRule(rules, name, queryType).value.pattern == p
  {
    if CanWin(rules, p, queryType) {
      WinsBelow(rules, queryType, p, k);
    }
    if name: string :| FindRule(rules, name, queryType).Some? && FindRule(rules, name, queryType).value.pattern == p {
      NormalizedIsLower(name);
      var at := FindRuleIsBest(rules, name, queryType);
      FoundCanWin(rules, FindRule(rules, name, queryType).value, at, NormalizeDomain(name), queryType);
    }
  }

  lemma Needed(rules: seq<Rule>, queryType: string, p: string, k: nat)
    requires NewestWins(rules) && Carries(rules, k, p, queryType) && CanWin(rules, p, queryType)
    ensures var last := Carrier(rules, p, queryType);
            last.Some? && rules[k].createdAt <= last.value.rule.createdAt
  {
    WinsBelow(rules, queryType, p, k);
    assert Beats(rules, Below(rules, p) + ".", queryType, k, p);
  }

  /** For every list: the newer of two equally specific rules wins, whatever is
      asked for, if and only if each pattern that can win is carried last by the
      newest of the rules that carry it. */
  lemma NewestWinsIff(rules: seq<Rule>)
    ensures NewestWins(rules) <==> LastIsNewest(rules)
  {
    if LastIsNewest(rules) {
      forall name: string, queryType: string, k: nat, p: string |
        Candidate(rules, k, p, NormalizeDomain(name), queryType)
        ensures Beats(rules, name, queryType, k, p)
      {
        Enough(rules, name, queryType, k, p);
      }
    }
    if NewestWins(rules) {
      forall queryType: string, p: string, k: nat | Carries(rules, k, p, queryType) && CanWin(rules, p, queryType)
        ensures Carrier(rules, p, queryType).Some?
        ensures rules[k].createdAt <= Carrier(rules, p, queryType).value.rule.createdAt
      {
        Needed(rules, queryType, p, k);
      }
    }
  }
}
