/** Rule records and rule selection: a single best-so-far scan with an
    arithmetic score (`Find`), proved equal to a walk over the label suffixes
    of the queried name (`LabelWalk`). */
module Rules {
  import opened Text
  import opened Basics

  datatype Rule = Rule(id: string, domains: seq<string>, rtype: string, mode: string, value: string,
                       upstream: string, ttl: nat, enabled: bool, remark: string,
                       createdAt: int, updatedAt: int)

  datatype Match = Match(rule: Rule, pattern: string)

  function NormalizeDomain(value: string): string {
    TrimSuffix(ToLower(TrimSpace(value)), ".")
  }

  // ---- Normalized names --------------------------------------------------

  lemma NormalizedIsLower(value: string)
    ensures ToLower(NormalizeDomain(value)) == NormalizeDomain(value)
  {
    var lower := ToLower(TrimSpace(value));
    assert ToLower(lower) == lower;
    var d := NormalizeDomain(value);
    assert d <= lower;
    forall i | 0 <= i < |d| ensures LowerChar(d[i]) == d[i] { assert ToLower(lower)[i] == lower[i]; }
  }

  lemma DotIsLower()
    ensures ToLower(".") == "."
  {
  }

  lemma DotComesOff(name: string)
    requires ToLower(name) == name && name != "" && !IsSpace(name[0])
    ensures NormalizeDomain(name + ".") == name
  {
    TrimSpaceTrims(name + ".");
    LowerConcat(name, ".");
    DotIsLower();
    hide TrimSpace, ToLower;
  }

  lemma LowerConcat(a: string, b: string)
    ensures ToLower(a + b) == ToLower(a) + ToLower(b)
  {
  }

  /** The names a question can have. */
  ghost predicate IsName(name: string) {
    exists raw: string :: name == NormalizeDomain(raw)
  }

  lemma NormalizedStarts(raw: string)
    ensures NormalizeDomain(raw) == "" || !IsSpace(NormalizeDomain(raw)[0])
  {
    TrimSpaceTrims(raw);
    var lower := ToLower(TrimSpace(raw));
    assert lower != "" ==> lower[0] == LowerChar(TrimSpace(raw)[0]);
    assert NormalizeDomain(raw) <= lower;
    hide TrimSpace;
  }

  /** They are the texts without capitals that do not start with a space. */
  lemma NameIff(name: string)
    ensures IsName(name) <==> ToLower(name) == name && (name == "" || !IsSpace(name[0]))
  {
    if raw: string :| name == NormalizeDomain(raw) {
      NormalizedIsLower(raw);
      NormalizedStarts(raw);
    }
    if ToLower(name) == name && (name == "" || !IsSpace(name[0])) {
      if name == "" {
        assert NormalizeDomain("") == "";
      } else {
        DotComesOff(name);
      }
    }
  }

  /** A name is compared without case, without the blanks around it and without
      one dot at its end. */
  lemma NormalizeIs(front: string, text: string, back: string)
    requires (forall c :: c in front ==> IsSpace(c)) && (forall c :: c in back ==> IsSpace(c)) && Trimmed(text)
    ensures var d := NormalizeDomain(front + text + back);
            if text != "" && text[|text| - 1] == '.' then d == ToLower(text)[..|text| - 1] else d == ToLower(text)
  {
    TrimSpaceIs(front, text, back);
    hide TrimSpace;
    var lower := ToLower(text);
    if text != "" {
      assert lower[|text| - 1..] == [lower[|text| - 1]];
      assert lower[|text| - 1] == LowerChar(text[|text| - 1]);
    }
  }

  // ---- Pattern matching as the program writes it ------------------------

  predicate IsWild(pattern: string) {
    HasPrefix(pattern, "*.")
  }

  function Base(pattern: string): string {
    TrimPrefix(pattern, "*.")
  }

  predicate MatchDomain(pattern: string, domain: string) {
    if IsWild(pattern) then HasSuffix(domain, "." + Base(pattern))
    else domain == pattern || HasSuffix(domain, "." + pattern)
  }

  function PatternScore(pattern: string): int {
    |Split(Base(pattern), '.')| * 10 + (if IsWild(pattern) then 0 else 1)
  }

  predicate Usable(rule: Rule, queryType: string) {
    rule.enabled && (rule.rtype == queryType || (rule.rtype == "CNAME" && (queryType == "A" || queryType == "AAAA")))
  }

  // ---- The reference: a walk over label suffixes ------------------------

  /** The labels of `labels` from position `i` on, as text. */
  function SuffixText(labels: seq<string>, i: nat): string
    requires i <= |labels|
  {
    Join(labels[i..], ".")
  }

  /** The last usable rule that lists exactly this pattern text. */
  function Carrier(rules: seq<Rule>, text: string, queryType: string): Option<Match> {
    if rules == [] then None
    else
      var last := rules[|rules| - 1];
      if Usable(last, queryType) && text in last.domains then Some(Match(last, text))
      else Carrier(rules[..|rules| - 1], text, queryType)
  }

  /** From the whole name to its last label: the plain pattern of each suffix
      first, then, for proper suffixes only, its wildcard. */
  function LabelWalk(rules: seq<Rule>, labels: seq<string>, i: nat, queryType: string): Option<Match>
    requires i <= |labels|
    decreases |labels| - i
  {
    if i == |labels| then None
    else
      var suffix := SuffixText(labels, i);
      var plain := if IsWild(suffix) then None else Carrier(rules, suffix, queryType);
      if plain.Some? then plain
      else
        var wild := if i == 0 then None else Carrier(rules, "*." + suffix, queryType);
        if wild.Some? then wild else LabelWalk(rules, labels, i + 1, queryType)
  }

  function FindRule(rules: seq<Rule>, domain: string, queryType: string): Option<Match> {
    LabelWalk(rules, Split(NormalizeDomain(domain), '.'), 0, queryType)
  }

  // ---- Suffix tests are label positions ---------------------------------

  /** Where a base text sits in a name: the number of labels before it. */
  ghost predicate SitsAt(base: string, labels: seq<string>, i: nat) {
    i <= |labels| && |Split(base, '.')| == |labels| - i && SuffixText(labels, i) == base
  }

  lemma SuffixSits(domain: string, base: string)
    requires HasSuffix(domain, "." + base)
    ensures var labels := Split(domain, '.');
            var n := |Split(base, '.')|;
            1 <= |labels| - n && SitsAt(base, labels, |labels| - n)
  {
    var head := domain[..|domain| - |base| - 1];
    assert "." + base == ['.'] + base;
    assert domain == head + ['.'] + base;
    SplitAppend(head, '.', base);
    JoinOfSplit(base, '.');
    var labels := Split(domain, '.');
    assert labels[|Split(head, '.')|..] == Split(base, '.');
  }

  lemma LabelsSuffix(domain: string, i: nat)
    requires 1 <= i < |Split(domain, '.')|
    ensures HasSuffix(domain, "." + SuffixText(Split(domain, '.'), i))
  {
    var labels := Split(domain, '.');
    JoinOfSplit(domain, '.');
    assert labels == labels[..i] + labels[i..];
    JoinAppend(labels[..i], labels[i..], ".");
    assert domain == Join(labels[..i], ".") + ("." + Join(labels[i..], "."));
  }

  lemma SuffixTextSits(domain: string, i: nat)
    requires i < |Split(domain, '.')|
    ensures SitsAt(SuffixText(Split(domain, '.'), i), Split(domain, '.'), i)
  {
    SplitHasNoSep(domain, '.');
    SplitOfJoin(Split(domain, '.')[i..], '.');
  }

  /** A pattern matches exactly when its base is a label suffix of the name,
      a wildcard's a proper one. */
  lemma MatchIsLabelSuffix(pattern: string, domain: string)
    ensures var labels := Split(domain, '.');
            MatchDomain(pattern, domain) <==>
            exists i: nat :: SitsAt(Base(pattern), labels, i) && i < |labels| && (IsWild(pattern) ==> 1 <= i)
  {
    var labels := Split(domain, '.');
    if MatchDomain(pattern, domain) {
      if domain == pattern && !IsWild(pattern) {
        JoinOfSplit(domain, '.');
        assert labels[0..] == labels;
        assert SitsAt(Base(pattern), labels, 0);
      } else {
        SuffixSits(domain, Base(pattern));
      }
    }
    if i: nat :| SitsAt(Base(pattern), labels, i) && i < |labels| && (IsWild(pattern) ==> 1 <= i) {
      if i == 0 {
        JoinOfSplit(domain, '.');
        assert labels[0..] == labels;
      } else {
        LabelsSuffix(domain, i);
      }
    }
  }

  /** The score names the pattern: two patterns that match one name with the
      same score are the same text. */
  lemma EqualScoreSameText(p: string, q: string, domain: string)
    requires MatchDomain(p, domain) && MatchDomain(q, domain)
    requires PatternScore(p) == PatternScore(q)
    ensures p == q
  {
    MatchIsLabelSuffix(p, domain);
    MatchIsLabelSuffix(q, domain);
    assert IsWild(p) == IsWild(q) && Base(p) == Base(q);
    if IsWild(p) {
      assert p == "*." + Base(p) && q == "*." + Base(q);
    }
  }

  // ---- The scan ---------------------------------------------------------

  ghost predicate Candidate(rules: seq<Rule>, k: nat, pattern: string, domain: string, queryType: string) {
    k < |rules| && Usable(rules[k], queryType) && pattern in rules[k].domains && MatchDomain(pattern, domain)
  }

  /** The scan has passed rules before `i` and the first `j` patterns of rule `i`. */
  ghost predicate Passed(rules: seq<Rule>, k: nat, pattern: string, i: nat, j: nat)
    requires k < |rules|
  {
    k < i || (k == i && j <= |rules[k].domains| && pattern in rules[k].domains[..j])
  }

  /** The best of the passed candidates: highest score, and among equals the last rule. */
  ghost predicate IsBestOf(rules: seq<Rule>, best: Option<Match>, at: nat, domain: string, queryType: string, i: nat,
                           j: nat) {
    match best
    case None => forall k: nat, p: string :: Candidate(rules, k, p, domain, queryType) ==> !Passed(rules, k, p, i, j)
    case Some(m) =>
      && Candidate(rules, at, m.pattern, domain, queryType) && Passed(rules, at, m.pattern, i, j)
      && m.rule == rules[at]
      && forall k: nat, p: string :: Candidate(rules, k, p, domain, queryType) && Passed(rules, k, p, i, j) ==>
           PatternScore(p) < PatternScore(m.pattern) || (PatternScore(p) == PatternScore(m.pattern) && k <= at)
  }

  ghost predicate IsBest(rules: seq<Rule>, best: Option<Match>, at: nat, domain: string, queryType: string) {
    IsBestOf(rules, best, at, domain, queryType, |rules|, 0)
  }

  lemma {:induction false} CarrierIsLast(rules: seq<Rule>, text: string, queryType: string)
    ensures match Carrier(rules, text, queryType)
            case None => forall k :: 0 <= k < |rules| ==> !(Usable(rules[k], queryType) && text in rules[k].domains)
            case Some(m) => m.pattern == text && exists k ::
              0 <= k < |rules| && m.rule == rules[k] && Usable(rules[k], queryType) && text in rules[k].domains &&
              forall j :: k < j < |rules| ==> !(Usable(rules[j], queryType) && text in rules[j].domains)
  {
    if rules != [] {
      var n := |rules| - 1;
      CarrierIsLast(rules[..n], text, queryType);
      if Usable(rules[n], queryType) && text in rules[n].domains {
        assert rules[n] == Carrier(rules, text, queryType).value.rule;
      }
    }
  }

  /** When the walk reaches position `i`, a carrier found there is a candidate. */
  lemma CarrierIsCandidate(rules: seq<Rule>, text: string, domain: string, i: nat, queryType: string)
    requires Carrier(rules, text, queryType).Some?
    requires SitsAt(Base(text), Split(domain, '.'), i) && i < |Split(domain, '.')| && (IsWild(text) ==> 1 <= i)
    ensures exists k: nat ::
      Candidate(rules, k, text, domain, queryType) && rules[k] == Carrier(rules, text, queryType).value.rule
  {
    CarrierIsLast(rules, text, queryType);
    MatchIsLabelSuffix(text, domain);
  }

  lemma WildBase(suffix: string)
    ensures IsWild("*." + suffix) && Base("*." + suffix) == suffix
  {
  }

  /** With no candidate the walk finds nothing from any position. */
  lemma {:induction false} WalkFindsNothing(rules: seq<Rule>, domain: string, i: nat, queryType: string)
    requires i <= |Split(domain, '.')|
    requires IsBest(rules, None, 0, domain, queryType)
    ensures LabelWalk(rules, Split(domain, '.'), i, queryType) == None
    decreases |Split(domain, '.')| - i
  {
    var labels := Split(domain, '.');
    if i < |labels| {
      var suffix := SuffixText(labels, i);
      SuffixTextSits(domain, i);
      WildBase(suffix);
      if !IsWild(suffix) && Carrier(rules, suffix, queryType).Some? {
        CarrierIsCandidate(rules, suffix, domain, i, queryType);
      }
      if i > 0 && Carrier(rules, "*." + suffix, queryType).Some? {
        CarrierIsCandidate(rules, "*." + suffix, domain, i, queryType);
      }
      WalkFindsNothing(rules, domain, i + 1, queryType);
    }
  }

  lemma BestCarrier(rules: seq<Rule>, m: Match, at: nat, domain: string, queryType: string)
    requires IsBest(rules, Some(m), at, domain, queryType)
    ensures Carrier(rules, m.pattern, queryType) == Some(m)
  {
    CarrierIsLast(rules, m.pattern, queryType);
    var c := Carrier(rules, m.pattern, queryType);
    assert c.Some?;
    var k :| 0 <= k < |rules| && c.value.rule == rules[k] && Usable(rules[k], queryType) &&
      m.pattern in rules[k].domains &&
      forall j :: k < j < |rules| ==> !(Usable(rules[j], queryType) && m.pattern in rules[j].domains);
    assert Candidate(rules, k, m.pattern, domain, queryType);
  }

  /** From any position up to the best pattern's, the walk stops at it. */
  lemma {:induction false} WalkFindsBest(rules: seq<Rule>, m: Match, at: nat, domain: string, home: nat, i: nat,
                                         queryType: string)
    requires IsBest(rules, Some(m), at, domain, queryType)
    requires SitsAt(Base(m.pattern), Split(domain, '.'), home) && home < |Split(domain, '.')|
    requires IsWild(m.pattern) ==> 1 <= home
    requires i <= home
    ensures LabelWalk(rules, Split(domain, '.'), i, queryType) == Some(m)
    decreases home - i
  {
    var labels := Split(domain, '.');
    var suffix := SuffixText(labels, i);
    SuffixTextSits(domain, i);
    WildBase(suffix);
    BestCarrier(rules, m, at, domain, queryType);
    if i < home || IsWild(m.pattern) {
      if !IsWild(suffix) && Carrier(rules, suffix, queryType).Some? {
        CarrierIsCandidate(rules, suffix, domain, i, queryType);
      }
    }
    if i < home {
      if i > 0 && Carrier(rules, "*." + suffix, queryType).Some? {
        CarrierIsCandidate(rules, "*." + suffix, domain, i, queryType);
      }
      WalkFindsBest(rules, m, at, domain, home, i + 1, queryType);
    } else if IsWild(m.pattern) {
      assert m.pattern == "*." + suffix;
    }
  }

  lemma WalkFindsBestFromStart(rules: seq<Rule>, m: Match, at: nat, domain: string, queryType: string)
    requires IsBest(rules, Some(m), at, domain, queryType)
    ensures LabelWalk(rules, Split(domain, '.'), 0, queryType) == Some(m)
  {
    MatchIsLabelSuffix(m.pattern, domain);
    hide SitsAt, LabelWalk;
    var home: nat :| SitsAt(Base(m.pattern), Split(domain, '.'), home) && home < |Split(domain, '.')| &&
      (IsWild(m.pattern) ==> 1 <= home);
    WalkFindsBest(rules, m, at, domain, home, 0, queryType);
  }

  /** Whatever is best by score is what the walk returns. */
  lemma BestIsWalk(rules: seq<Rule>, best: Option<Match>, at: nat, domain: string, queryType: string)
    requires IsBest(rules, best, at, domain, queryType)
    ensures LabelWalk(rules, Split(domain, '.'), 0, queryType) == best
  {
    match best
    case None => WalkFindsNothing(rules, domain, 0, queryType);
    case Some(m) => WalkFindsBestFromStart(rules, m, at, domain, queryType);
  }

  predicate Takes(best: Option<Match>, pattern: string, domain: string) {
    MatchDomain(pattern, domain) && (best.Some? ==> PatternScore(pattern) >= PatternScore(best.value.pattern))
  }

  lemma ScanPattern(rules: seq<Rule>, best: Option<Match>, at: nat, domain: string, queryType: string, i: nat, j: nat)
    requires i < |rules| && j < |rules[i].domains| && Usable(rules[i], queryType)
    requires IsBestOf(rules, best, at, domain, queryType, i, j)
    ensures var pattern := rules[i].domains[j];
            if Takes(best, pattern, domain)
            then IsBestOf(rules, Some(Match(rules[i], pattern)), i, domain, queryType, i, j + 1)
            else IsBestOf(rules, best, at, domain, queryType, i, j + 1)
  {
    assert rules[i].domains[..j + 1] == rules[i].domains[..j] + [rules[i].domains[j]];
  }

  lemma ScanRule(rules: seq<Rule>, best: Option<Match>, at: nat, domain: string, queryType: string, i: nat)
    requires i < |rules|
    requires IsBestOf(rules, best, at, domain, queryType, i,
                      if Usable(rules[i], queryType) then |rules[i].domains| else 0)
    ensures IsBestOf(rules, best, at, domain, queryType, i + 1, 0)
  {
    assert rules[i].domains[..|rules[i].domains|] == rules[i].domains;
  }

  lemma {:induction false} ScanUpTo(rules: seq<Rule>, domain: string, queryType: string, i: nat, j: nat)
      returns (best: Option<Match>, at: nat)
    requires i <= |rules| && (j > 0 ==> i < |rules| && Usable(rules[i], queryType) && j <= |rules[i].domains|)
    ensures IsBestOf(rules, best, at, domain, queryType, i, j)
    decreases i, j
  {
    hide IsBestOf, Takes, Usable;
    if j > 0 {
      best, at := ScanUpTo(rules, domain, queryType, i, j - 1);
      ScanPattern(rules, best, at, domain, queryType, i, j - 1);
      if Takes(best, rules[i].domains[j - 1], domain) {
        best, at := Some(Match(rules[i], rules[i].domains[j - 1])), i;
      }
    } else if i > 0 {
      best, at := ScanUpTo(rules, domain, queryType, i - 1,
                           if Usable(rules[i - 1], queryType) then |rules[i - 1].domains| else 0);
      ScanRule(rules, best, at, domain, queryType, i - 1);
    } else {
      best, at := None, 0;
      ScanStart(rules, domain, queryType);
    }
  }

  /** What the walk returns is the best candidate by score and position. */
  lemma FindRuleIsBest(rules: seq<Rule>, rawDomain: string, queryType: string) returns (at: nat)
    ensures IsBest(rules, FindRule(rules, rawDomain, queryType), at, NormalizeDomain(rawDomain), queryType)
  {
    var best;
    best, at := ScanUpTo(rules, NormalizeDomain(rawDomain), queryType, |rules|, 0);
    BestIsWalk(rules, best, at, NormalizeDomain(rawDomain), queryType);
  }

  function BestScore(best: Option<Match>): int {
    if best.Some? then PatternScore(best.value.pattern) else -1
  }

  lemma ScanStart(rules: seq<Rule>, domain: string, queryType: string)
    ensures IsBestOf(rules, None, 0, domain, queryType, 0, 0)
  {
  }

  lemma TakesByScore(best: Option<Match>, pattern: string, domain: string)
    ensures Takes(best, pattern, domain) <==> MatchDomain(pattern, domain) && PatternScore(pattern) >= BestScore(best)
  {
  }

  /** The best-so-far scan of `Store.Find`. */
  method Find(rules: seq<Rule>, rawDomain: string, queryType: string) returns (best: Option<Match>)
    ensures best == FindRule(rules, rawDomain, queryType)
  {
    hide IsBestOf, Takes, MatchDomain, PatternScore, Usable, NormalizeDomain, LabelWalk;
    var domain := NormalizeDomain(rawDomain);
    var bestScore := -1;
    best := None;
    ghost var at := 0;
    ScanStart(rules, domain, queryType);
    for i := 0 to |rules|
      invariant bestScore == BestScore(best)
      invariant IsBestOf(rules, best, at, domain, queryType, i, 0)
    {
      var rule := rules[i];
      if Usable(rule, queryType) {
        for j := 0 to |rule.domains|
          invariant bestScore == BestScore(best)
          invariant IsBestOf(rules, best, at, domain, queryType, i, j)
        {
          var pattern := rule.domains[j];
          ScanPattern(rules, best, at, domain, queryType, i, j);
          TakesByScore(best, pattern, domain);
          if MatchDomain(pattern, domain) && PatternScore(pattern) >= bestScore {
            best := Some(Match(rule, pattern));
            bestScore := PatternScore(pattern);
            at := i;
          }
        }
      }
      ScanRule(rules, best, at, domain, queryType, i);
    }
    BestIsWalk(rules, best, at, domain, queryType);
  }

  // ---- What is found, in terms of the rules alone -------------------------

  /** The rule found is an enabled one of the asked type, or a CNAME when an
      address is asked for, and carries the pattern, which matches; every other
      such match has fewer labels, or as many behind a wildcard where the one
      found is plain, or is the same pattern no later in the list. */
  lemma FoundIs(rules: seq<Rule>, rawName: string, queryType: string) returns (at: nat)
    ensures var found, name := FindRule(rules, rawName, queryType), NormalizeDomain(rawName);
            found.Some? ==>
              var Match(rule, pattern) := found.value;
              && at < |rules| && rules[at] == rule && rule.enabled && pattern in rule.domains
              && (rule.rtype == queryType || (rule.rtype == "CNAME" && queryType in {"A", "AAAA"}))
              && MatchDomain(pattern, name)
              && forall k: nat, p: string |
                   && k < |rules| && p in rules[k].domains && MatchDomain(p, name) && rules[k].enabled
                   && (rules[k].rtype == queryType || (rules[k].rtype == "CNAME" && queryType in {"A", "AAAA"})) ::
                   || |Split(Base(p), '.')| < |Split(Base(pattern), '.')|
                   || (|Split(Base(p), '.')| == |Split(Base(pattern), '.')| && IsWild(p) && !IsWild(pattern))
                   || (p == pattern && k <= at)
  {
    hide Split, Base, IsWild, NormalizeDomain, FindRule;
    at := FindRuleIsBest(rules, rawName, queryType);
    var found, name := FindRule(rules, rawName, queryType), NormalizeDomain(rawName);
    if found.Some? {
      var pattern := found.value.pattern;
      forall k: nat, p: string | Candidate(rules, k, p, name, queryType)
        ensures || |Split(Base(p), '.')| < |Split(Base(pattern), '.')|
                || (|Split(Base(p), '.')| == |Split(Base(pattern), '.')| && IsWild(p) && !IsWild(pattern))
                || (p == pattern && k <= at)
      {
        assert Passed(rules, k, p, |rules|, 0);
        if PatternScore(p) == PatternScore(pattern) { EqualScoreSameText(p, pattern, name); }
      }
      assert forall k: nat, p: string |
               && k < |rules| && p in rules[k].domains && MatchDomain(p, name) && rules[k].enabled
               && (rules[k].rtype == queryType || (rules[k].rtype == "CNAME" && queryType in {"A", "AAAA"})) ::
               Candidate(rules, k, p, name, queryType);
    }
  }

  /** Nothing is found exactly when no enabled rule of the asked type, or CNAME
      when an address is asked for, carries a pattern that matches. */
  lemma NoneFoundIff(rules: seq<Rule>, rawName: string, queryType: string)
    ensures FindRule(rules, rawName, queryType) == None <==>
            forall rule, p |
              && rule in rules && p in rule.domains && rule.enabled
              && (rule.rtype == queryType || (rule.rtype == "CNAME" && queryType in {"A", "AAAA"})) ::
              !MatchDomain(p, NormalizeDomain(rawName))
  {
    hide NormalizeDomain, MatchDomain, FindRule;
    var at := FindRuleIsBest(rules, rawName, queryType);
    var name := NormalizeDomain(rawName);
    if FindRule(rules, rawName, queryType) == None {
      forall k, p | 0 <= k < |rules| && p in rules[k].domains && Usable(rules[k], queryType)
        ensures !MatchDomain(p, name)
      {
        assert Passed(rules, k, p, |rules|, 0);
        assert Candidate(rules, k, p, name, queryType) ==> false;
      }
    }
  }

  lemma {:induction false} CarrierSkips(a: seq<Rule>, rule: Rule, b: seq<Rule>, text: string, queryType: string)
    requires !Usable(rule, queryType)
    ensures Carrier(a + [rule] + b, text, queryType) == Carrier(a + b, text, queryType)
  {
    hide Usable;
    if b == [] {
      assert a + [rule] + b == a + [rule] && (a + [rule])[..|a|] == a && a + b == a;
    } else {
      var n := |b| - 1;
      assert (a + [rule] + b)[..|a| + 1 + n] == a + [rule] + b[..n] && (a + b)[..|a| + n] == a + b[..n];
      CarrierSkips(a, rule, b[..n], text, queryType);
    }
  }

  lemma {:induction false} WalkSame(rules: seq<Rule>, other: seq<Rule>, labels: seq<string>, i: nat, queryType: string)
    requires i <= |labels|
    requires forall text: string :: Carrier(rules, text, queryType) == Carrier(other, text, queryType)
    ensures LabelWalk(rules, labels, i, queryType) == LabelWalk(other, labels, i, queryType)
    decreases |labels| - i
  {
    hide Carrier;
    if i < |labels| { WalkSame(rules, other, labels, i + 1, queryType); }
  }

  /** A disabled rule is as good as none: whatever is asked for, the answer is
      that of the list without it. */
  lemma DisabledIsAbsent(rules: seq<Rule>, i: nat, rawName: string, queryType: string)
    requires i < |rules|
    ensures FindRule(rules[i := rules[i].(enabled := false)], rawName, queryType)
         == FindRule(rules[..i] + rules[i + 1..], rawName, queryType)
  {
    hide Carrier, NormalizeDomain, Split;
    var off := rules[i].(enabled := false);
    var disabled, removed := rules[i := off], rules[..i] + rules[i + 1..];
    assert disabled == rules[..i] + [off] + rules[i + 1..];
    forall text: string ensures Carrier(disabled, text, queryType) == Carrier(removed, text, queryType) {
      CarrierSkips(rules[..i], off, rules[i + 1..], text, queryType);
    }
    WalkSame(disabled, removed, Split(NormalizeDomain(rawName), '.'), 0, queryType);
  }
}
