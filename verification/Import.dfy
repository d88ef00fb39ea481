/** Rule validation, and the signatures by which imported rules are told apart. */
module Import {
  import opened Basics
  import opened Text
  import opened Config
  import opened Rules

  /** Address parsers of the network library, left opaque; those for upstreams
      are the ones configurations are cleaned with. */
  datatype Addresses = Addresses(isIpv4: string -> bool, isIpv6: string -> bool, parsers: Parsers)

  // ---- Domains -----------------------------------------------------------

  predicate IsAlnum(c: char) { 'a' <= c <= 'z' || '0' <= c <= '9' }

  /** One label of a hostname. */
  predicate IsLabel(s: string) {
    1 <= |s| <= 63 && IsAlnum(s[0]) && IsAlnum(s[|s| - 1]) && forall i :: 0 <= i < |s| ==> IsAlnum(s[i]) || s[i] == '-'
  }

  /** Labels joined by dots, perhaps behind a leading `*.`. */
  predicate IsHostPattern(d: string) {
    var labels := Split(Base(d), '.');
    forall i :: 0 <= i < |labels| ==> IsLabel(labels[i])
  }

  predicate IsDomain(d: string) {
    |d| <= 253 && IsHostPattern(d)
  }

  function Parts(raws: seq<string>): seq<string> {
    if raws == [] then [] else Parts(raws[..|raws| - 1]) + Fields(raws[|raws| - 1])
  }

  /** The non-empty normalized parts, each at its first place. */
  function Normalized(parts: seq<string>): seq<string> {
    if parts == [] then []
    else
      var rest := Normalized(parts[..|parts| - 1]);
      var d := NormalizeDomain(parts[|parts| - 1]);
      if d == "" || d in rest then rest else rest + [d]
  }

  function Domains(raws: seq<string>): seq<string> {
    Normalized(Parts(raws))
  }

  // ---- Validation --------------------------------------------------------

  datatype Problem = NoDomain | TooManyDomains | BadDomain(d: string) | BadType | BadMode | BadTtl | BadUpstream
                   | NoAnswer | BadIpv4 | BadIpv6 | BadCname

  function FirstBad(domains: seq<string>): seq<Problem> {
    if domains == [] then []
    else if !IsDomain(domains[0]) then [BadDomain(domains[0])]
    else FirstBad(domains[1..])
  }

  function DomainProblems(domains: seq<string>): seq<Problem> {
    if domains == [] then [NoDomain] else if |domains| > 500 then [TooManyDomains] else FirstBad(domains)
  }

  function ValueProblems(net: Addresses, rule: Rule): seq<Problem> {
    if rule.mode != "fixed" then []
    else
      var values := Fields(rule.value);
      (if values == [] then [NoAnswer] else [])
      + (if rule.rtype == "A" && exists i :: 0 <= i < |values| && !net.isIpv4(values[i]) then [BadIpv4] else [])
      + (if rule.rtype == "AAAA" && exists i :: 0 <= i < |values| && !net.isIpv6(values[i]) then [BadIpv6] else [])
      + (if rule.rtype == "CNAME" && (|values| != 1 || !IsHostPattern(NormalizeDomain(rule.value))) then [BadCname]
         else [])
  }

  function FieldProblems(net: Addresses, rule: Rule): seq<Problem> {
    (if rule.rtype != "A" && rule.rtype != "AAAA" && rule.rtype != "CNAME" then [BadType] else [])
    + (if rule.mode != "fixed" && rule.mode != "forward" then [BadMode] else [])
    + (if rule.ttl < 1 || rule.ttl > 86400 then [BadTtl] else [])
    + (if rule.upstream != "" && !net.parsers.isUpstream(rule.upstream) then [BadUpstream] else [])
  }

  function Problems(net: Addresses, rule: Rule): seq<Problem> {
    DomainProblems(Domains(rule.domains)) + FieldProblems(net, rule) + ValueProblems(net, rule)
  }

  function Cut(remark: string): string {
    var t := TrimSpace(remark);
    if |t| > 200 then t[..200] else t
  }

  function Validated(rule: Rule): Rule {
    rule.(domains := Domains(rule.domains), remark := Cut(rule.remark))
  }

  /** The loops of `Validate` over domains. */
  method CollectDomains(raws: seq<string>) returns (domains: seq<string>)
    ensures domains == Domains(raws)
  {
    hide Normalized, Fields;
    domains := [];
    var seen := {};
    assert Normalized([]) == [] by { NormalizedNone(); }
    for i := 0 to |raws|
      invariant domains == Normalized(Parts(raws[..i])) && forall d :: d in seen <==> d in domains
    {
      assert raws[..i + 1][..i] == raws[..i];
      domains, seen := CollectParts(Fields(raws[i]), Parts(raws[..i]), domains, seen);
    }
    assert raws[..|raws|] == raws;
  }

  lemma NormalizedNone()
    ensures Normalized([]) == []
  {
  }

  method CollectParts(fields: seq<string>, ghost before: seq<string>, domains: seq<string>, seen: set<string>)
      returns (more: seq<string>, known: set<string>)
    requires domains == Normalized(before) && forall d :: d in seen <==> d in domains
    ensures more == Normalized(before + fields) && forall d :: d in known <==> d in more
  {
    hide NormalizeDomain;
    more, known := domains, seen;
    assert before + fields[..0] == before;
    for j := 0 to |fields|
      invariant more == Normalized(before + fields[..j]) && forall d :: d in known <==> d in more
    {
      assert (before + fields[..j + 1])[..|before| + j] == before + fields[..j];
      var d := NormalizeDomain(fields[j]);
      if d != "" && d !in known {
        known := known + {d};
        more := more + [d];
      }
    }
    assert fields[..|fields|] == fields;
  }

  method CheckDomains(domains: seq<string>) returns (problems: seq<Problem>)
    ensures problems == DomainProblems(domains)
  {
    if |domains| == 0 { return [NoDomain]; }
    if |domains| > 500 { return [TooManyDomains]; }
    assert domains[0..] == domains;
    for i := 0 to |domains|
      invariant FirstBad(domains) == FirstBad(domains[i..])
    {
      if |domains[i]| > 253 || !IsHostPattern(domains[i]) {
        return [BadDomain(domains[i])];
      }
      assert domains[i..][1..] == domains[i + 1..];
    }
    return [];
  }

  method CheckValues(net: Addresses, rule: Rule) returns (problems: seq<Problem>)
    ensures problems == ValueProblems(net, rule)
  {
    problems := [];
    if rule.mode != "fixed" { return; }
    var values := Fields(rule.value);
    if |values| == 0 { problems := [NoAnswer]; }
    ghost var first := problems;
    for i := 0 to |values|
      invariant problems == first
      invariant forall k :: 0 <= k < i ==>
        (rule.rtype == "A" ==> net.isIpv4(values[k])) && (rule.rtype == "AAAA" ==> net.isIpv6(values[k]))
    {
      if rule.rtype == "A" && !net.isIpv4(values[i]) {
        problems := problems + [BadIpv4];
        break;
      }
      if rule.rtype == "AAAA" && !net.isIpv6(values[i]) {
        problems := problems + [BadIpv6];
        break;
      }
    }
    if rule.rtype == "CNAME" && (|values| != 1 || !IsHostPattern(NormalizeDomain(rule.value))) {
      problems := problems + [BadCname];
    }
  }

  method Validate(net: Addresses, rule: Rule) returns (value: Rule, problems: seq<Problem>)
    ensures value == Validated(rule) && problems == Problems(net, rule)
  {
    hide Domains, DomainProblems, FieldProblems, ValueProblems, TrimSpace;
    var domains := CollectDomains(rule.domains);
    var first := CheckDomains(domains);
    var second := CheckFields(net, rule);
    var third := CheckValues(net, rule);
    problems := first + second + third;
    var remark := TrimSpace(rule.remark);
    if |remark| > 200 { remark := remark[..200]; }
    value := rule.(domains := domains, remark := remark);
  }

  method CheckFields(net: Addresses, rule: Rule) returns (problems: seq<Problem>)
    ensures problems == FieldProblems(net, rule)
  {
    problems := [];
    if rule.rtype != "A" && rule.rtype != "AAAA" && rule.rtype != "CNAME" { problems := problems + [BadType]; }
    if rule.mode != "fixed" && rule.mode != "forward" { problems := problems + [BadMode]; }
    if rule.ttl < 1 || rule.ttl > 86400 { problems := problems + [BadTtl]; }
    if rule.upstream != "" && !net.parsers.isUpstream(rule.upstream) { problems := problems + [BadUpstream]; }
  }

  // ---- Validating twice --------------------------------------------------

  lemma {:induction false} NormalizedDistinct(parts: seq<string>)
    ensures Distinct(Normalized(parts))
  {
    if parts != [] {
      var n := |parts| - 1;
      NormalizedDistinct(parts[..n]);
      var rest, d := Normalized(parts[..n]), NormalizeDomain(parts[n]);
      if d != "" && d !in rest { DistinctAppend(rest, d); }
    }
  }

  lemma {:induction false} FirstBadNone(domains: seq<string>)
    ensures FirstBad(domains) == [] <==> forall i :: 0 <= i < |domains| ==> IsDomain(domains[i])
  {
    if domains != [] {
      FirstBadNone(domains[1..]);
      if IsDomain(domains[0]) && FirstBad(domains[1..]) == [] {
        forall i | 0 <= i < |domains| ensures IsDomain(domains[i]) {
          if i > 0 { assert domains[i] == domains[1..][i - 1]; }
        }
      }
    }
  }

  predicate PlainChar(c: char) { IsAlnum(c) || c == '-' || c == '.' || c == '*' }

  lemma {:induction false} JoinPlain(labels: seq<string>)
    requires |labels| >= 1 && forall i :: 0 <= i < |labels| ==> IsLabel(labels[i])
    ensures var text := Join(labels, ".");
            text != "" && IsAlnum(text[|text| - 1]) && forall i :: 0 <= i < |text| ==> PlainChar(text[i])
  {
    if |labels| > 1 {
      JoinPlain(labels[1..]);
      var rest := Join(labels[1..], ".");
      var text := labels[0] + "." + rest;
      assert text[|text| - 1] == rest[|rest| - 1];
      forall i | 0 <= i < |text| ensures PlainChar(text[i]) {
        if i > |labels[0]| { assert text[i] == rest[i - |labels[0]| - 1]; }
      }
    }
  }

  /** A host pattern has only plain characters and does not end in a dot. */
  lemma HostPatternPlain(d: string)
    requires IsHostPattern(d)
    ensures d != "" && IsAlnum(d[|d| - 1]) && forall i :: 0 <= i < |d| ==> PlainChar(d[i])
  {
    JoinPlain(Split(Base(d), '.'));
    JoinOfSplit(Base(d), '.');
    if IsWild(d) {
      assert d == "*." + Base(d);
    }
  }

  lemma HostPatternNormal(d: string)
    requires IsHostPattern(d)
    ensures NormalizeDomain(d) == d && Fields(d) == [d] && d != "" && ':' !in d && '|' !in d
  {
    HostPatternPlain(d);
    TrimSpaceTrims(d);
    assert ToLower(d) == d;
    FieldsWhole(d);
  }

  lemma NormalizedAppend(parts: seq<string>, x: string)
    ensures var rest, d := Normalized(parts), NormalizeDomain(x);
            Normalized(parts + [x]) == if d == "" || d in rest then rest else rest + [d]
  {
    hide NormalizeDomain;
    assert (parts + [x])[..|parts|] == parts;
  }

  lemma {:induction false} DomainsAgain(domains: seq<string>)
    requires Distinct(domains) && forall i :: 0 <= i < |domains| ==> IsDomain(domains[i])
    ensures Parts(domains) == domains && Domains(domains) == domains
  {
    hide Normalized, IsHostPattern, NormalizeDomain, Fields, Distinct;
    if domains == [] {
      NoDomains();
    } else {
      var n := |domains| - 1;
      DistinctLast(domains);
      DomainsAgain(domains[..n]);
      HostPatternNormal(domains[n]);
      assert domains == domains[..n] + [domains[n]];
      NormalizedAppend(domains[..n], domains[n]);
    }
  }

  lemma NoDomains()
    ensures Parts([]) == [] && Domains([]) == []
  {
  }

  /** A rule validation lets through: its own domains are valid and distinct. */
  ghost predicate Sound(net: Addresses, rule: Rule) {
    && Problems(net, rule) == [] && Distinct(rule.domains)
    && forall i :: 0 <= i < |rule.domains| ==> IsDomain(rule.domains[i])
  }

  lemma NoProblems(net: Addresses, rule: Rule)
    ensures Problems(net, rule) == [] <==>
      && DomainProblems(Domains(rule.domains)) == [] && ValueProblems(net, rule) == []
      && (rule.rtype == "A" || rule.rtype == "AAAA" || rule.rtype == "CNAME")
      && (rule.mode == "fixed" || rule.mode == "forward") && 1 <= rule.ttl <= 86400
      && (rule.upstream == "" || net.parsers.isUpstream(rule.upstream))
  {
    hide DomainProblems, ValueProblems;
  }

  /** The remark fits, or it is not cut just after a space. */
  predicate CutsClean(remark: string) {
    var t := TrimSpace(remark);
    |t| <= 200 || !IsSpace(t[199])
  }

  /** A valid rule stays valid, and a second validation changes nothing but a
      remark that the first one cut at a space. */
  lemma {:induction false} ValidateTwice(net: Addresses, rule: Rule)
    requires Problems(net, rule) == []
    ensures Sound(net, Validated(rule))
    ensures Validated(Validated(rule)) == Validated(rule) <==> CutsClean(rule.remark)
    ensures Validated(Validated(rule)).(remark := "") == Validated(rule).(remark := "")
  {
    hide Problems, Cut, IsDomain, Domains, DomainProblems, Distinct, CutsClean;
    var v := Validated(rule);
    NoProblems(net, rule);
    GoodDomains(rule.domains);
    NoProblems(net, v);
    DomainsAgain(v.domains);
    RemarkTwice(rule.remark);
  }

  lemma GoodDomains(raws: seq<string>)
    requires DomainProblems(Domains(raws)) == []
    ensures Distinct(Domains(raws)) && forall i :: 0 <= i < |Domains(raws)| ==> IsDomain(Domains(raws)[i])
  {
    hide IsDomain, Distinct, Normalized;
    NormalizedDistinct(Parts(raws));
    FirstBadNone(Domains(raws));
  }

  lemma RemarkTwice(remark: string)
    ensures |Cut(remark)| <= 200
    ensures Cut(Cut(remark)) == TrimSpace(Cut(remark))
    ensures Cut(Cut(remark)) == Cut(remark) <==> CutsClean(remark)
  {
    TrimSpaceTrims(remark);
    TrimSpaceTrims(Cut(remark));
    TrimShorter(Cut(remark));
  }

  /** A valid rule that a second validation changes, however many blanks the
      cut leaves at the end. */
  lemma SecondValidationChanges(net: Addresses, front: string, blanks: string, back: string)
    requires |front| + |blanks| == 200 && back != "" && blanks != ""
    requires front != "" && !IsSpace(front[0]) && !IsSpace(front[|front| - 1]) && !IsSpace(back[|back| - 1])
    requires forall c :: c in blanks ==> IsSpace(c)
    ensures var rule := Rule("", ["a"], "A", "forward", "", "", 1, true, front + blanks + back, 0, 0);
            && Problems(net, rule) == []
            && Validated(rule).remark == front + blanks && Validated(Validated(rule)).remark == front
  {
    var text := front + blanks + back;
    var rule := Rule("", ["a"], "A", "forward", "", "", 1, true, text, 0, 0);
    TrimSpaceTrims(text);
    assert text[..200] == front + blanks;
    TrimmedFront(front, blanks);
    assert Cut(text) == front + blanks && Cut(front + blanks) == front;
    hide Cut;
    OneDomainValid(net, rule);
  }

  lemma TrimmedFront(front: string, blanks: string)
    requires front != "" && !IsSpace(front[0]) && !IsSpace(front[|front| - 1])
    requires forall c :: c in blanks ==> IsSpace(c)
    ensures TrimSpace(front + blanks) == front
  {
    TrimRightBlanks(front, blanks);
  }

  lemma OneDomainValid(net: Addresses, rule: Rule)
    requires rule.domains == ["a"] && rule.rtype == "A" && rule.mode == "forward" && rule.upstream == "" &&
             rule.ttl == 1
    ensures Problems(net, rule) == []
  {
    hide IsDomain, Problems, Domains, Fields, Distinct, FirstBad;
    LetterIsDomain();
    NoProblems(net, rule);
  }

  lemma LetterIsDomain()
    ensures Domains(["a"]) == ["a"] && DomainProblems(["a"]) == []
  {
    SplitWhole("a", '.');
    assert IsDomain("a");
    hide IsDomain;
    assert forall i :: 0 <= i < |["a"]| ==> IsDomain(["a"][i]);
    DomainsAgain(["a"]);
    FirstBadNone(["a"]);
  }

  lemma {:induction false} TrimLeftShorter(s: string)
    ensures |TrimLeft(s)| <= |s|
  {
    if s != "" && IsSpace(s[0]) { TrimLeftShorter(s[1..]); }
  }

  lemma TrimShorter(s: string)
    ensures |TrimSpace(s)| <= |s|
  {
    TrimLeftShorter(s);
    TrimRightEnds(TrimLeft(s));
  }

  // ---- What is valid ------------------------------------------------------

  /** A label has one to 63 small letters, digits and hyphens, with no hyphen at
      either end. */
  lemma LabelIff(s: string)
    ensures IsLabel(s) <==>
            && 1 <= |s| <= 63 && s[0] != '-' && s[|s| - 1] != '-'
            && forall i :: 0 <= i < |s| ==> 'a' <= s[i] <= 'z' || '0' <= s[i] <= '9' || s[i] == '-'
  {
  }

  /** A host pattern is a list of labels with dots between them, or such a list
      behind an asterisk and a dot. */
  lemma HostPatternIff(labels: seq<string>)
    requires labels != [] && forall i :: 0 <= i < |labels| ==> '.' !in labels[i]
    ensures var text, all := Join(labels, "."), forall i :: 0 <= i < |labels| ==> IsLabel(labels[i]);
            && (IsHostPattern("*." + text) <==> all)
            && (labels[0] != "*" || |labels| == 1 ==> (IsHostPattern(text) <==> all))
  {
    hide IsLabel;
    var text := Join(labels, ".");
    SplitOfJoin(labels, '.');
    WildBase(text);
    if labels[0] != "*" || |labels| == 1 { NotWild(labels); }
    hide Split, IsWild, Base;
  }

  lemma NotWild(labels: seq<string>)
    requires labels != [] && (forall i :: 0 <= i < |labels| ==> '.' !in labels[i])
    requires labels[0] != "*" || |labels| == 1
    ensures Base(Join(labels, ".")) == Join(labels, ".")
  {
    SplitOfJoin(labels, '.');
    WildSplits(Join(labels, "."));
    hide Split;
  }

  lemma WildSplits(text: string)
    ensures IsWild(text) ==> |Split(text, '.')| > 1 && Split(text, '.')[0] == "*"
  {
    if IsWild(text) {
      assert text == "*" + ['.'] + text[2..];
      SplitAppend("*", '.', text[2..]);
      SplitWhole("*", '.');
    }
  }

  /** A rule's domains are the normalized fields of what it lists, without empty
      ones. */
  lemma {:induction false} DomainsAre(raws: seq<string>, d: string)
    ensures d in Domains(raws) <==>
            d != "" && exists raw, part :: raw in raws && part in Fields(raw) && NormalizeDomain(part) == d
  {
    hide NormalizeDomain, Fields;
    NormalizedAre(Parts(raws), d);
    PartsAre(raws);
  }

  lemma {:induction false} NormalizedAre(parts: seq<string>, d: string)
    ensures d in Normalized(parts) <==> d != "" && exists part :: part in parts && NormalizeDomain(part) == d
  {
    hide NormalizeDomain;
    if parts != [] {
      var n := |parts| - 1;
      NormalizedAre(parts[..n], d);
      assert parts == parts[..n] + [parts[n]];
    }
  }

  lemma {:induction false} PartsAre(raws: seq<string>)
    ensures forall part :: part in Parts(raws) <==> exists raw :: raw in raws && part in Fields(raw)
  {
    hide Fields;
    if raws != [] {
      var n := |raws| - 1;
      PartsAre(raws[..n]);
      assert raws == raws[..n] + [raws[n]];
    }
  }

  /** Each domain is at its first place: what comes later only adds at the end. */
  lemma {:induction false} DomainsGrow(raws: seq<string>, more: seq<string>)
    ensures Domains(raws) <= Domains(raws + more)
  {
    if more == [] {
      assert raws + more == raws;
    } else {
      var n := |more| - 1;
      assert (raws + more)[..|raws| + n] == raws + more[..n];
      DomainsGrow(raws, more[..n]);
      NormalizedGrows(Parts(raws + more[..n]), Fields(more[n]));
      hide Normalized, Fields;
    }
  }

  lemma {:induction false} NormalizedGrows(parts: seq<string>, more: seq<string>)
    ensures Normalized(parts) <= Normalized(parts + more)
  {
    if more == [] {
      assert parts + more == parts;
    } else {
      var n := |more| - 1;
      assert parts + more == parts + more[..n] + [more[n]];
      NormalizedGrows(parts, more[..n]);
      NormalizedAppend(parts + more[..n], more[n]);
      hide Normalized;
    }
  }

  /** What makes a rule valid. */
  lemma ValidIff(net: Addresses, rule: Rule)
    ensures Problems(net, rule) == [] <==>
      && 1 <= |Domains(rule.domains)| <= 500
      && (forall d :: d in Domains(rule.domains) ==> |d| <= 253 && IsHostPattern(d))
      && rule.rtype in {"A", "AAAA", "CNAME"} && rule.mode in {"fixed", "forward"} && 1 <= rule.ttl <= 86400
      && (rule.upstream == "" || net.parsers.isUpstream(rule.upstream))
      && (rule.mode == "fixed" ==>
           var values := Fields(rule.value);
           && values != []
           && (rule.rtype == "A" ==> forall v :: v in values ==> net.isIpv4(v))
           && (rule.rtype == "AAAA" ==> forall v :: v in values ==> net.isIpv6(v))
           && (rule.rtype == "CNAME" ==> |values| == 1 && IsHostPattern(NormalizeDomain(rule.value))))
  {
    hide Problems, Domains, Fields, NormalizeDomain, IsHostPattern, FirstBad;
    NoProblems(net, rule);
    FirstBadNone(Domains(rule.domains));
  }

  /** The place of each kind of problem in a report. */
  function PlaceOf(p: Problem): nat {
    match p
    case NoDomain => 0
    case TooManyDomains => 0
    case BadDomain(_) => 0
    case BadType => 1
    case BadMode => 2
    case BadTtl => 3
    case BadUpstream => 4
    case NoAnswer => 5
    case BadIpv4 => 6
    case BadIpv6 => 6
    case BadCname => 7
  }

  /** Each problem is reported exactly when it is there. */
  lemma ProblemsAre(net: Addresses, rule: Rule)
    ensures var ps, ds := Problems(net, rule), Domains(rule.domains);
            && (NoDomain in ps <==> ds == []) && (TooManyDomains in ps <==> |ds| > 500)
            && (BadType in ps <==> rule.rtype !in {"A", "AAAA", "CNAME"})
            && (BadMode in ps <==> rule.mode !in {"fixed", "forward"})
            && (BadTtl in ps <==> rule.ttl == 0 || rule.ttl > 86400)
            && (BadUpstream in ps <==> rule.upstream != "" && !net.parsers.isUpstream(rule.upstream))
    ensures forall d :: BadDomain(d) in Problems(net, rule) <==> FirstInvalid(Domains(rule.domains), d)
  {
    hide Domains, DomainProblems, FieldProblems, ValueProblems, FirstInvalid;
    DomainProblemsAre(Domains(rule.domains));
    FieldProblemsAre(net, rule);
    ValuePlaces(net, rule);
  }

  lemma DomainProblemsAre(ds: seq<string>)
    ensures var ps := DomainProblems(ds);
            && (NoDomain in ps <==> ds == []) && (TooManyDomains in ps <==> |ds| > 500)
            && (forall d :: BadDomain(d) in ps <==> FirstInvalid(ds, d)) && |ps| <= 1 && Within(ps, 0, 1)
  {
    FirstBadIs(ds);
    hide FirstBad, IsDomain;
  }

  lemma FieldProblemsAre(net: Addresses, rule: Rule)
    ensures var ps := FieldProblems(net, rule);
            && (BadType in ps <==> rule.rtype !in {"A", "AAAA", "CNAME"})
            && (BadMode in ps <==> rule.mode !in {"fixed", "forward"})
            && (BadTtl in ps <==> rule.ttl == 0 || rule.ttl > 86400)
            && (BadUpstream in ps <==> rule.upstream != "" && !net.parsers.isUpstream(rule.upstream))
            && Within(ps, 1, 5)
  {
  }

  lemma ValueProblemsAre(net: Addresses, rule: Rule)
    ensures var ps, values := ValueProblems(net, rule), Fields(rule.value);
            && (NoAnswer in ps <==> rule.mode == "fixed" && values == [])
            && (BadIpv4 in ps <==>
                 rule.mode == "fixed" && rule.rtype == "A" && exists v :: v in values && !net.isIpv4(v))
            && (BadIpv6 in ps <==>
                 rule.mode == "fixed" && rule.rtype == "AAAA" && exists v :: v in values && !net.isIpv6(v))
            && (BadCname in ps <==>
                 rule.mode == "fixed" && rule.rtype == "CNAME" &&
                 (|values| != 1 || !IsHostPattern(NormalizeDomain(rule.value))))
  {
    hide Fields, NormalizeDomain, IsHostPattern;
  }

  lemma ValuePlaces(net: Addresses, rule: Rule)
    ensures Within(ValueProblems(net, rule), 5, 8)
  {
    hide Fields, NormalizeDomain, IsHostPattern;
  }

  ghost predicate Within(ps: seq<Problem>, low: nat, high: nat) {
    forall p :: p in ps ==> low <= PlaceOf(p) < high
  }

  ghost predicate Increasing(ps: seq<Problem>) {
    forall i, j :: 0 <= i < j < |ps| ==> PlaceOf(ps[i]) < PlaceOf(ps[j])
  }

  /** The first of at most five hundred domains that is none. */
  ghost predicate FirstInvalid(domains: seq<string>, d: string) {
    |domains| <= 500 && exists i :: FirstInvalidAt(domains, i, d)
  }

  ghost predicate FirstInvalidAt(domains: seq<string>, i: int, d: string) {
    0 <= i < |domains| && domains[i] == d && !IsDomain(d) && forall j :: 0 <= j < i ==> IsDomain(domains[j])
  }

  lemma {:induction false} FirstBadIs(domains: seq<string>)
    ensures |FirstBad(domains)| <= 1 && forall p :: p in FirstBad(domains) ==> p.BadDomain?
    ensures forall d :: BadDomain(d) in FirstBad(domains) <==> exists i :: FirstInvalidAt(domains, i, d)
  {
    hide IsDomain;
    if domains != [] {
      FirstBadIs(domains[1..]);
      forall d
        ensures BadDomain(d) in FirstBad(domains) <==> exists i :: FirstInvalidAt(domains, i, d)
      {
        if !IsDomain(domains[0]) {
          assert d == domains[0] ==> FirstInvalidAt(domains, 0, d);
        } else {
          FirstInvalidShifts(domains, d);
        }
      }
    }
  }

  lemma FirstInvalidShifts(domains: seq<string>, d: string)
    requires domains != [] && IsDomain(domains[0])
    ensures (exists i :: FirstInvalidAt(domains, i, d)) <==> exists i :: FirstInvalidAt(domains[1..], i, d)
  {
    hide IsDomain;
    var rest := domains[1..];
    if i :| FirstInvalidAt(rest, i, d) {
      forall j | 0 <= j < i + 1 ensures IsDomain(domains[j]) {
        if j > 0 { assert domains[j] == rest[j - 1]; }
      }
      assert FirstInvalidAt(domains, i + 1, d);
    }
    if i :| FirstInvalidAt(domains, i, d) {
      forall j | 0 <= j < i - 1 ensures IsDomain(rest[j]) { assert rest[j] == domains[j + 1]; }
      assert FirstInvalidAt(rest, i - 1, d);
    }
  }

  /** They are reported once each, in the order of their places. */
  lemma ProblemsInOrder(net: Addresses, rule: Rule)
    ensures Increasing(Problems(net, rule))
  {
    hide Domains, DomainProblems, FieldProblems, ValueProblems, FirstInvalid;
    var d, f, v := DomainProblems(Domains(rule.domains)), FieldProblems(net, rule), ValueProblems(net, rule);
    DomainProblemsAre(Domains(rule.domains));
    FieldProblemsAre(net, rule);
    FieldsInOrder(net, rule);
    ValuePlaces(net, rule);
    ValuesInOrder(net, rule);
    InOrderTogether(d, f, 0, 1, 5);
    InOrderTogether(d + f, v, 0, 5, 8);
  }

  lemma FieldsInOrder(net: Addresses, rule: Rule)
    ensures Increasing(FieldProblems(net, rule))
  {
  }

  lemma ValuesInOrder(net: Addresses, rule: Rule)
    ensures Increasing(ValueProblems(net, rule))
  {
    hide Fields, NormalizeDomain, IsHostPattern;
  }

  lemma InOrderTogether(a: seq<Problem>, b: seq<Problem>, low: nat, middle: nat, high: nat)
    requires low <= middle <= high
    requires Increasing(a) && Within(a, low, middle) && Increasing(b) && Within(b, middle, high)
    ensures Increasing(a + b) && Within(a + b, low, high)
  {
    hide PlaceOf;
  }

  /** Validation changes the domains and the remark of a rule and nothing else;
      the remark is trimmed and cut to two hundred characters. */
  lemma ValidatedIs(rule: Rule)
    ensures var after, trimmed := Validated(rule), TrimSpace(rule.remark);
            && after.domains == Domains(rule.domains)
            && after.remark <= trimmed && |after.remark| == Min(200, |trimmed|)
            && after.(domains := rule.domains, remark := rule.remark) == rule
  {
    hide Domains, TrimSpace;
  }

  // ---- Signatures --------------------------------------------------------

  /** The order of `sort.Strings`. */
  predicate Leq(a: string, b: string) {
    a == "" || (b != "" && (a[0] < b[0] || (a[0] == b[0] && Leq(a[1..], b[1..]))))
  }

  lemma {:induction false} LeqTotal(a: string, b: string)
    ensures Leq(a, b) || Leq(b, a)
    ensures Leq(a, b) && Leq(b, a) ==> a == b
  {
    if a != "" && b != "" {
      LeqTotal(a[1..], b[1..]);
      assert a == [a[0]] + a[1..] && b == [b[0]] + b[1..];
    }
  }

  lemma {:induction false} LeqTransitive(a: string, b: string, c: string)
    requires Leq(a, b) && Leq(b, c)
    ensures Leq(a, c)
  {
    if a != "" && a[0] == b[0] && b[0] == c[0] { LeqTransitive(a[1..], b[1..], c[1..]); }
  }

  /** A text comes before all that go on from it, and two others are in the
      order of the characters at which they part. */
  lemma {:induction false} LeqIs(common: string, a: string, b: string)
    ensures Leq(common, common + a)
    ensures a != "" && b != "" && a[0] < b[0] ==> Leq(common + a, common + b) && !Leq(common + b, common + a)
  {
    if common == "" {
      assert common + a == a && common + b == b;
    } else {
      LeqIs(common[1..], a, b);
      assert (common + a)[1..] == common[1..] + a && (common + b)[1..] == common[1..] + b;
    }
  }

  function Insert(s: seq<string>, x: string): seq<string> {
    if s == [] then [x] else if Leq(x, s[0]) then [x] + s else [s[0]] + Insert(s[1..], x)
  }

  function Sort(s: seq<string>): seq<string> {
    if s == [] then [] else Insert(Sort(s[1..]), s[0])
  }

  /** Ascending from the front, each text below all that follow. */
  ghost predicate Ascending(s: seq<string>) {
    s == [] || ((forall x :: x in s[1..] ==> Leq(s[0], x) && s[0] != x) && Ascending(s[1..]))
  }

  lemma {:induction false} InsertKeeps(s: seq<string>, x: string)
    requires Ascending(s) && x !in s
    ensures Ascending(Insert(s, x)) && forall y :: y in Insert(s, x) <==> y in s || y == x
  {
    if s != [] {
      LeqTotal(x, s[0]);
      if Leq(x, s[0]) {
        assert ([x] + s)[1..] == s;
        forall y | y in s ensures Leq(x, y) {
          if y != s[0] { LeqTransitive(x, s[0], y); }
        }
      } else {
        InsertKeeps(s[1..], x);
        assert ([s[0]] + Insert(s[1..], x))[1..] == Insert(s[1..], x);
      }
    }
  }

  lemma {:induction false} SortSorts(s: seq<string>)
    requires Distinct(s)
    ensures Ascending(Sort(s)) && forall y :: y in Sort(s) <==> y in s
  {
    if s != [] {
      SortSorts(s[1..]);
      assert s[0] !in s[1..];
      InsertKeeps(Sort(s[1..]), s[0]);
    }
  }

  lemma HeadIsIn(s: seq<string>)
    ensures s != [] ==> s[0] in s
  {
  }

  lemma {:induction false} AscendingUnique(a: seq<string>, b: seq<string>)
    requires Ascending(a) && Ascending(b) && forall y :: y in a <==> y in b
    ensures a == b
  {
    HeadIsIn(a);
    HeadIsIn(b);
    if a != [] {
      assert a[0] in b;
      assert b[0] in a;
      LeqTotal(a[0], b[0]);
      assert a[0] == b[0];
      forall y ensures y in a[1..] <==> y in b[1..] {
        assert y in a[1..] <==> y in a && y != a[0];
        assert y in b[1..] <==> y in b && y != b[0];
      }
      AscendingUnique(a[1..], b[1..]);
    }
  }

  function Signature(rule: Rule): string {
    Join(Sort(rule.domains), "|") + "::" + rule.rtype
  }

  lemma SortedPlain(net: Addresses, rule: Rule)
    requires Sound(net, rule)
    ensures forall d :: d in Sort(rule.domains) ==> d != "" && '|' !in d && ':' !in d
    ensures ':' !in rule.rtype
  {
    hide Problems, IsDomain, NormalizeDomain, Fields;
    SortSorts(rule.domains);
    NoProblems(net, rule);
    forall d | d in rule.domains ensures d != "" && '|' !in d && ':' !in d {
      DomainPlain(d);
    }
  }

  lemma DomainPlain(d: string)
    requires IsDomain(d)
    ensures d != "" && '|' !in d && ':' !in d
  {
    HostPatternNormal(d);
  }

  lemma SignatureParts(net: Addresses, rule: Rule)
    requires Sound(net, rule)
    ensures Split(Signature(rule), ':') == [Join(Sort(rule.domains), "|"), "", rule.rtype]
    ensures forall d :: d in Sort(rule.domains) ==> d != "" && '|' !in d
  {
    SortedPlain(net, rule);
    JoinAvoids(Sort(rule.domains), "|", ':');
    var front := Join(Sort(rule.domains), "|");
    assert Signature(rule) == front + "::" + rule.rtype;
    hide Sound, Sort, Join, Signature;
    ColonParts(front, rule.rtype);
  }

  lemma ColonParts(front: string, back: string)
    requires ':' !in front && ':' !in back
    ensures Split(front + "::" + back, ':') == [front, "", back]
  {
    assert front + "::" + back == front + [':'] + ([':'] + back);
    SplitAppend(front, ':', [':'] + back);
    SplitAppend("", ':', back);
    assert "" + [':'] + back == [':'] + back;
    SplitWhole(front, ':');
    SplitWhole(back, ':');
  }

  /** Valid rules have the same signature exactly when they have the same type
      and the same set of domains. */
  lemma SameSignatureIff(net: Addresses, a: Rule, b: Rule)
    requires Sound(net, a) && Sound(net, b)
    ensures Signature(a) == Signature(b) <==> a.rtype == b.rtype && forall d :: d in a.domains <==> d in b.domains
  {
    SortSorts(a.domains);
    SortSorts(b.domains);
    SignatureParts(net, a);
    SignatureParts(net, b);
    hide Sound, Sort, Split;
    if Signature(a) == Signature(b) {
      assert [Join(Sort(a.domains), "|"), "", a.rtype][0] == [Join(Sort(b.domains), "|"), "", b.rtype][0];
      assert [Join(Sort(a.domains), "|"), "", a.rtype][2] == [Join(Sort(b.domains), "|"), "", b.rtype][2];
      JoinInjective(Sort(a.domains), Sort(b.domains), '|');
    }
    if forall d :: d in a.domains <==> d in b.domains {
      AscendingUnique(Sort(a.domains), Sort(b.domains));
    }
  }
}
