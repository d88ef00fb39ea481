/** Resolution as a value: rule choice, the CNAME chase, the cache lookup and
    what a forwarded reply leaves in the cache. */
module ResolverSteps {
  import opened Basics
  import opened Text
  import opened Config
  import opened Rules
  import opened CacheSteps

  const TYPE_CNAME: nat := 5
  const TYPE_A: nat := 1
  const TYPE_AAAA: nat := 28
  const TYPE_OPT: nat := 41
  const SUCCESS: int := 0
  const MAX_CNAME_DEPTH: nat := 4

  /** Library calls left opaque: type names, fully qualified names and the text
      of an IPv4 or IPv6 address. */
  datatype Library = Library(typeName: nat -> string, fqdn: string -> string,
                             ipv4: string -> Option<string>, ipv6: string -> Option<string>)

  // ---- Questions and cache keys -----------------------------------------

  datatype Question = Question(name: string, qtype: nat, upstreams: seq<string>)

  function Key(q: Question): string {
    q.name + "|" + Decimal(q.qtype) + "|" + Join(q.upstreams, ",")
  }

  /** Upstreams that are non-empty and free of the key's separators. */
  ghost predicate PlainUpstreams(upstreams: seq<string>) {
    forall u :: u in upstreams ==> u != "" && ',' !in u && '|' !in u
  }

  lemma KeyParts(q: Question)
    requires PlainUpstreams(q.upstreams)
    ensures Split(Key(q), '|') == Split(q.name, '|') + [Decimal(q.qtype), Join(q.upstreams, ",")]
  {
    var digits, list := Decimal(q.qtype), Join(q.upstreams, ",");
    JoinAvoids(q.upstreams, ",", '|');
    SplitAppend(q.name, '|', digits + "|" + list);
    assert Key(q) == q.name + "|" + (digits + "|" + list);
    SplitAppend(digits, '|', list);
    SplitWhole(digits, '|');
    SplitWhole(list, '|');
  }

  /** Keys are injective, even for names that contain the separator. */
  lemma KeyInjective(q: Question, r: Question)
    requires PlainUpstreams(q.upstreams) && PlainUpstreams(r.upstreams)
    requires Key(q) == Key(r)
    ensures q == r
  {
    KeyParts(q);
    KeyParts(r);
    var a, b := Split(q.name, '|'), Split(r.name, '|');
    var parts := Split(Key(q), '|');
    assert parts[|parts| - 1] == Join(q.upstreams, ",") == Join(r.upstreams, ",");
    assert parts[|parts| - 2] == Decimal(q.qtype) == Decimal(r.qtype);
    assert a == parts[..|parts| - 2] == b;
    JoinOfSplit(q.name, '|');
    JoinOfSplit(r.name, '|');
    DecimalInjective(q.qtype, r.qtype);
    JoinInjective(q.upstreams, r.upstreams, ',');
  }

  /** A rule upstream that was never validated can hold a comma, and then one
      upstream has the key of two. */
  lemma CommaMergesKeys(name: string, qtype: nat, u: string, v: string)
    ensures Key(Question(name, qtype, [u + "," + v])) == Key(Question(name, qtype, [u, v]))
    ensures Question(name, qtype, [u + "," + v]) != Question(name, qtype, [u, v])
  {
    assert Join([u, v], ",") == u + "," + Join([u, v][1..], ",") == u + "," + v;
    assert |[u + "," + v]| != |[u, v]|;
  }

  // ---- Rule choice ------------------------------------------------------

  predicate IsFixed(found: Option<Match>) {
    found.Some? && found.value.rule.mode == "fixed"
  }

  function UpstreamsFor(cfg: Config, found: Option<Match>): seq<string> {
    if found.Some? && found.value.rule.mode == "forward" && found.value.rule.upstream != ""
    then [found.value.rule.upstream] else cfg.upstreams
  }

  function Best(lib: Library, rules: seq<Rule>, name: string, qtype: nat): Option<Match> {
    FindRule(rules, name, lib.typeName(qtype))
  }

  function QuestionFor(lib: Library, cfg: Config, rules: seq<Rule>, name: string, qtype: nat): Question {
    Question(name, qtype, UpstreamsFor(cfg, Best(lib, rules, name, qtype)))
  }

  function Label(found: Option<Match>): string {
    match found
    case None => ""
    case Some(m) =>
      m.pattern
      + (if |m.rule.domains| > 1 then " (+" + Decimal(|m.rule.domains| - 1) + ")" else "")
      + (if m.rule.remark != "" then " (" + m.rule.remark + ")" else "")
  }

  // ---- Replies and their lifetime ---------------------------------------

  datatype Reply = Failed | Message(packet: Packet, upstream: string)

  function WithoutOpt(records: seq<Record>): seq<Record> {
    if records == [] then []
    else
      var rest := WithoutOpt(records[..|records| - 1]);
      var last := records[|records| - 1];
      if last.rtype == TYPE_OPT then rest else rest + [last]
  }

  function Accepted(packet: Packet): Packet {
    packet.(additionals := WithoutOpt(packet.additionals))
  }

  predicate Cacheable(packet: Packet) {
    packet.rcode == SUCCESS && packet.answers != []
  }

  /** The least of `start` and the answers' TTLs. */
  function LeastTtl(answers: seq<Record>, start: nat): nat {
    if answers == [] then start
    else
      var rest := LeastTtl(answers[..|answers| - 1], start);
      var ttl := answers[|answers| - 1].ttl;
      if ttl < rest then ttl else rest
  }

  /** Seconds a reply is kept. */
  function Lifetime(cfg: Config, answers: seq<Record>): int {
    Max(cfg.ttlMin, Min(cfg.ttlMax, LeastTtl(answers, cfg.ttlMax % 0x1_0000_0000)))
  }

  lemma {:induction false} LeastTtlIsLeast(answers: seq<Record>, start: nat)
    ensures LeastTtl(answers, start) <= start
    ensures forall i :: 0 <= i < |answers| ==> LeastTtl(answers, start) <= answers[i].ttl
    ensures LeastTtl(answers, start) == start
         || exists i :: 0 <= i < |answers| && answers[i].ttl == LeastTtl(answers, start)
  {
    if answers != [] {
      var n := |answers| - 1;
      LeastTtlIsLeast(answers[..n], start);
      assert forall i :: 0 <= i < n ==> answers[..n][i] == answers[i];
    }
  }

  /** Under a clean configuration the lifetime is the least answer TTL clamped
      into [ttlMin, ttlMax]. */
  lemma LifetimeIsClampedMinimum(p: Parsers, cfg: Config, answers: seq<Record>, least: nat)
    requires Clean(p, cfg) && 0 <= least < |answers|
    requires forall i :: 0 <= i < |answers| ==> answers[least].ttl <= answers[i].ttl
    ensures Lifetime(cfg, answers) ==
            (if answers[least].ttl < cfg.ttlMin then cfg.ttlMin
             else if answers[least].ttl > cfg.ttlMax then cfg.ttlMax else answers[least].ttl)
    ensures 1 <= cfg.ttlMin <= Lifetime(cfg, answers) <= cfg.ttlMax
  {
    LeastTtlIsLeast(answers, cfg.ttlMax % 0x1_0000_0000);
  }

  function Stored(cache: CacheState<Packet>, q: Question, cfg: Config, packet: Packet, now: int): CacheState<Packet>
    requires cache.max >= 1
  {
    if Cacheable(packet) then SetStep(cache, Key(q), packet, Lifetime(cfg, packet.answers) * SECOND, now) else cache
  }

  // ---- Resolution -------------------------------------------------------

  datatype Answer = Answer(packet: Packet, source: string, ruleLabel: string, upstream: string)

  /** The answer (none for an error), and the state left behind; `sent` is what
      was asked of the upstreams. */
  datatype Outcome = Outcome(answer: Option<Answer>, cache: CacheState<Packet>, visited: set<string>,
                             sent: seq<Question>)

  /** Everything one Resolve reads: the configuration and the rules as they are
      when it comes to each depth of its chase, the clock at its lookup and at
      its store, and the reply that would come back. */
  datatype Inputs = Inputs(lib: Library, cfg: nat -> Config, rules: nat -> seq<Rule>,
                           lookupAt: int, storeAt: int, reply: Reply)

  /** The rule that is best for the name when the chase comes to `depth`. */
  function BestAt(x: Inputs, depth: nat, name: string, qtype: nat): Option<Match> {
    Best(x.lib, x.rules(depth), name, qtype)
  }

  function QuestionAt(x: Inputs, depth: nat, name: string, qtype: nat): Question {
    QuestionFor(x.lib, x.cfg(depth), x.rules(depth), name, qtype)
  }

  function Resolve(x: Inputs, cache: CacheState<Packet>, domain: string, qtype: nat, depth: nat,
                   visited: set<string>): (o: Outcome)
    requires cache.max >= 1
    ensures o.cache.max == cache.max
    decreases Max(0, MAX_CNAME_DEPTH - depth), 1
  {
    var found := BestAt(x, depth, domain, qtype);
    if IsFixed(found) then Fixed(x, cache, found.value, domain, qtype, depth, visited)
    else Forwarded(x, depth, cache, domain, qtype).(visited := visited)
  }

  function Forwarded(x: Inputs, depth: nat, cache: CacheState<Packet>, domain: string, qtype: nat): (o: Outcome)
    requires cache.max >= 1
    ensures o.cache.max == cache.max
  {
    var found := BestAt(x, depth, domain, qtype);
    var q := QuestionAt(x, depth, domain, qtype);
    var (looked, hit) := GetStep(cache, Key(q), x.lookupAt);
    if hit.Some? then
      Outcome(Some(Answer(hit.value, "cache", Label(found), "")), looked, {}, [])
    else
      match x.reply
      case Failed => Outcome(None, looked, {}, [q])
      case Message(packet, upstream) =>
        var accepted := Accepted(packet);
        Outcome(Some(Answer(accepted, "forward", Label(found), upstream)),
                Stored(looked, q, x.cfg(depth), accepted, x.storeAt), {}, [q])
  }

  function Fixed(x: Inputs, cache: CacheState<Packet>, m: Match, domain: string, qtype: nat, depth: nat,
                 visited: set<string>): (o: Outcome)
    requires cache.max >= 1
    ensures o.cache.max == cache.max
    decreases Max(0, MAX_CNAME_DEPTH - depth), 0
  {
    if m.rule.rtype == "CNAME" then
      var target := NormalizeDomain(m.rule.value);
      var link := CnameRecord(x.lib, m.rule, domain);
      if qtype != TYPE_CNAME && depth < MAX_CNAME_DEPTH && target !in visited then
        var extra := Resolve(x, cache, target, qtype, depth + 1, visited + {target});
        extra.(answer := Some(FixedAnswer(m, [link] + PassedOn(extra.answer))))
      else
        Outcome(Some(FixedAnswer(m, [link])), cache, visited, [])
    else
      Outcome(Some(FixedAnswer(m, FixedRecords(x.lib, m.rule, x.lib.fqdn(domain)))), cache, visited, [])
  }

  function FixedAnswer(m: Match, answers: seq<Record>): Answer {
    Answer(Packet(SUCCESS, answers, [], []), "fixed", Label(Some(m)), "")
  }

  function CnameRecord(lib: Library, rule: Rule, domain: string): Record {
    Record(lib.fqdn(domain), TYPE_CNAME, lib.fqdn(NormalizeDomain(rule.value)), rule.ttl)
  }

  /** The part of a chased answer that is passed on: nothing of a failed one. */
  function PassedOn(answer: Option<Answer>): seq<Record> {
    if answer.Some? && answer.value.packet.rcode == SUCCESS then answer.value.packet.answers else []
  }

  function FixedRecord(lib: Library, rule: Rule, owner: string, value: string): seq<Record> {
    if rule.rtype == "A" && lib.ipv4(value).Some? then [Record(owner, TYPE_A, lib.ipv4(value).value, rule.ttl)]
    else if rule.rtype == "AAAA" && lib.ipv6(value).Some? then
      [Record(owner, TYPE_AAAA, lib.ipv6(value).value, rule.ttl)]
    else []
  }

  function FixedRecordsOf(lib: Library, rule: Rule, owner: string, values: seq<string>): seq<Record> {
    if values == [] then []
    else FixedRecordsOf(lib, rule, owner, values[..|values| - 1]) + FixedRecord(lib, rule, owner, values[|values| - 1])
  }

  function FixedRecords(lib: Library, rule: Rule, owner: string): seq<Record> {
    FixedRecordsOf(lib, rule, owner, Fields(rule.value))
  }

  // ---- One lookup and one forward at most --------------------------------

  function Lookups(c: CacheState<Packet>): nat {
    c.hits + c.misses
  }

  lemma ForwardedCounts(x: Inputs, depth: nat, cache: CacheState<Packet>, domain: string, qtype: nat)
    requires cache.max >= 1
    ensures var o := Forwarded(x, depth, cache, domain, qtype);
            |o.sent| <= o.cache.misses - cache.misses <= Lookups(o.cache) - Lookups(cache) == 1
  {
    hide Key, BestAt, QuestionAt, Accepted, Label, Lifetime, Live, Served;
  }

  /** One Resolve looks in the cache at most once and asks the upstreams at most
      once, only after a miss, and leaves the set of cached keys alone unless it
      looked. */
  lemma {:induction false} OneLookupOneForward(x: Inputs, cache: CacheState<Packet>, domain: string, qtype: nat,
                                               depth: nat, visited: set<string>)
    requires cache.max >= 1
    ensures var o := Resolve(x, cache, domain, qtype, depth, visited);
            && |o.sent| <= Lookups(o.cache) - Lookups(cache) <= 1
            && |o.sent| <= o.cache.misses - cache.misses
            && (Lookups(o.cache) == Lookups(cache) ==> o.cache == cache)
    decreases Max(0, MAX_CNAME_DEPTH - depth)
  {
    hide BestAt, Forwarded, NormalizeDomain, CnameRecord, FixedRecords;
    var found := BestAt(x, depth, domain, qtype);
    if !IsFixed(found) {
      ForwardedCounts(x, depth, cache, domain, qtype);
    } else {
      var target := NormalizeDomain(found.value.rule.value);
      if found.value.rule.rtype == "CNAME" && qtype != TYPE_CNAME && depth < MAX_CNAME_DEPTH && target !in visited {
        OneLookupOneForward(x, cache, target, qtype, depth + 1, visited + {target});
      }
    }
  }

  // ---- The shape of a chase ----------------------------------------------

  /** The name a chase has reached after `i` links. */
  function At(domain: string, targets: seq<string>, i: nat): string
    requires i <= |targets|
  {
    if i == 0 then domain else targets[i - 1]
  }

  /** The rule found for a name when the chase comes to `depth`. */
  function FoundAt(x: Inputs, depth: nat, name: string, qtype: nat): Option<Match> {
    FindRule(x.rules(depth), name, x.lib.typeName(qtype))
  }

  /** Link `i` is made by a fixed CNAME rule that is best for the name reached:
      it leads from that name to the rule's target, for as long as the rule says. */
  ghost predicate Linked(x: Inputs, depth: nat, domain: string, qtype: nat, targets: seq<string>, links: seq<Record>,
                         i: nat)
    requires i < |targets| == |links|
  {
    var found := FoundAt(x, depth + i, At(domain, targets, i), qtype);
    && found.Some? && found.value.rule.mode == "fixed" && found.value.rule.rtype == "CNAME"
    && targets[i] == NormalizeDomain(found.value.rule.value)
    && links[i].name == x.lib.fqdn(At(domain, targets, i)) && links[i].data == x.lib.fqdn(targets[i])
    && links[i].rtype == 5 && links[i].ttl == found.value.rule.ttl
  }

  ghost predicate Chain(x: Inputs, depth: nat, domain: string, qtype: nat, targets: seq<string>, links: seq<Record>) {
    |targets| == |links| && forall i :: 0 <= i < |targets| ==> Linked(x, depth, domain, qtype, targets, links, i)
  }

  /** All targets but the last are new to the chase. */
  ghost predicate NewTargets(targets: seq<string>, visited: set<string>) {
    forall i :: 0 <= i < |targets| - 1 ==> targets[i] !in visited && forall j :: 0 <= j < i ==> targets[i] != targets[j]
  }

  /** The chase may not go on from its last target. */
  ghost predicate Blocked(qtype: nat, depth: nat, targets: seq<string>, visited: set<string>) {
    targets != [] &&
    (qtype == 5 || depth + |targets| > 4
     || targets[|targets| - 1] in visited || targets[|targets| - 1] in targets[..|targets| - 1])
  }

  /** What follows the links: nothing when the chase was blocked; otherwise the
      name reached has no fixed CNAME, and its own answer follows, unless it is
      a failure. */
  ghost predicate Tail(x: Inputs, cache: CacheState<Packet>, domain: string, qtype: nat, depth: nat,
                       targets: seq<string>, visited: set<string>, tail: seq<Record>)
    requires cache.max >= 1
  {
    var name := At(domain, targets, |targets|);
    var found := FoundAt(x, depth + |targets|, name, qtype);
    if Blocked(qtype, depth, targets, visited) then tail == []
    else if found.Some? && found.value.rule.mode == "fixed" then
      found.value.rule.rtype != "CNAME" && tail == FixedRecords(x.lib, found.value.rule, x.lib.fqdn(name))
    else
      var answer := Forwarded(x, depth + |targets|, cache, name, qtype).answer;
      && targets != []
      && tail == if answer.Some? && answer.value.packet.rcode == 0 then answer.value.packet.answers else []
  }

  /** A query whose best rule is fixed never fails, and its answer is a chain of
      at most five rule-made CNAMEs, each owned by the target of the one before,
      followed by what the last target resolves to. */
  lemma {:induction false} ChaseShape(x: Inputs, cache: CacheState<Packet>, domain: string, qtype: nat, depth: nat,
                                      visited: set<string>)
      returns (targets: seq<string>, links: seq<Record>, tail: seq<Record>)
    requires cache.max >= 1 && depth <= 4
    requires var found := FoundAt(x, depth, domain, qtype); found.Some? && found.value.rule.mode == "fixed"
    ensures var answer := Resolve(x, cache, domain, qtype, depth, visited).answer;
            && answer.Some? && answer.value.packet == Packet(0, links + tail, [], [])
            && answer.value.source == "fixed" && answer.value.upstream == ""
            && answer.value.ruleLabel == Label(FoundAt(x, depth, domain, qtype))
    ensures |links| <= 5 - depth
    ensures links != [] ==> links[0].name == x.lib.fqdn(domain)
    ensures forall i :: 0 <= i < |links| - 1 ==> links[i + 1].name == links[i].data
    ensures Chain(x, depth, domain, qtype, targets, links)
    ensures NewTargets(targets, visited)
    ensures Tail(x, cache, domain, qtype, depth, targets, visited, tail)
    decreases MAX_CNAME_DEPTH - depth
  {
    targets, links, tail := ChaseParts(x, cache, domain, qtype, depth, visited);
    FixedLabel(x, cache, domain, qtype, depth, visited);
    hide Resolve, Tail, NewTargets, Label, FoundAt;
    LinksFollow(x, depth, domain, qtype, targets, links);
  }

  lemma FixedLabel(x: Inputs, cache: CacheState<Packet>, domain: string, qtype: nat, depth: nat, visited: set<string>)
    requires cache.max >= 1
    requires var found := FoundAt(x, depth, domain, qtype); found.Some? && found.value.rule.mode == "fixed"
    ensures var answer := Resolve(x, cache, domain, qtype, depth, visited).answer;
            answer.Some? && answer.value.ruleLabel == Label(FoundAt(x, depth, domain, qtype))
  {
    hide Label, FindRule, NormalizeDomain, CnameRecord, FixedRecords, PassedOn;
  }

  lemma LinksFollow(x: Inputs, depth: nat, domain: string, qtype: nat, targets: seq<string>, links: seq<Record>)
    requires Chain(x, depth, domain, qtype, targets, links)
    ensures links != [] ==> links[0].name == x.lib.fqdn(domain)
    ensures forall i :: 0 <= i < |links| - 1 ==> links[i + 1].name == links[i].data
  {
    hide FoundAt, NormalizeDomain;
    if links != [] { assert Linked(x, depth, domain, qtype, targets, links, 0); }
    forall i | 0 <= i < |links| - 1 ensures links[i + 1].name == links[i].data {
      assert Linked(x, depth, domain, qtype, targets, links, i);
      assert Linked(x, depth, domain, qtype, targets, links, i + 1);
    }
  }

  lemma {:induction false} ChaseParts(x: Inputs, cache: CacheState<Packet>, domain: string, qtype: nat, depth: nat,
                                      visited: set<string>)
      returns (targets: seq<string>, links: seq<Record>, tail: seq<Record>)
    requires cache.max >= 1 && depth <= 4
    requires var found := FoundAt(x, depth, domain, qtype); found.Some? && found.value.rule.mode == "fixed"
    ensures var answer := Resolve(x, cache, domain, qtype, depth, visited).answer;
            && answer.Some? && answer.value.packet == Packet(0, links + tail, [], [])
            && answer.value.source == "fixed" && answer.value.upstream == ""
    ensures |links| <= 5 - depth
    ensures Chain(x, depth, domain, qtype, targets, links)
    ensures NewTargets(targets, visited)
    ensures Tail(x, cache, domain, qtype, depth, targets, visited, tail)
    decreases MAX_CNAME_DEPTH - depth
  {
    hide Chain, NewTargets, Tail, FixedRecords, FindRule, NormalizeDomain, CnameRecord, Forwarded, Label;
    var m := BestAt(x, depth, domain, qtype).value;
    if m.rule.rtype != "CNAME" {
      targets, links, tail := [], [], FixedRecords(x.lib, m.rule, x.lib.fqdn(domain));
      ChainOfNone(x, cache, domain, qtype, depth, visited);
      assert links + tail == tail;
      assert Resolve(x, cache, domain, qtype, depth, visited) == Fixed(x, cache, m, domain, qtype, depth, visited);
    } else {
      var target := NormalizeDomain(m.rule.value);
      var link := CnameRecord(x.lib, m.rule, domain);
      if qtype != TYPE_CNAME && depth < MAX_CNAME_DEPTH && target !in visited {
        if IsFixed(BestAt(x, depth + 1, target, qtype)) {
          var ts, ls;
          ts, ls, tail := ChaseParts(x, cache, target, qtype, depth + 1, visited + {target});
          ChainGrows(x, cache, domain, qtype, depth, visited, ts, ls, tail);
          targets, links := [target] + ts, [link] + ls;
          assert links + tail == [link] + (ls + tail);
          assert PassedOn(Resolve(x, cache, target, qtype, depth + 1, visited + {target}).answer) == ls + tail;
        } else {
          targets, links := [target], [link];
          tail := PassedOn(Forwarded(x, depth + 1, cache, target, qtype).answer);
          assert Resolve(x, cache, target, qtype, depth + 1, visited + {target}).answer
              == Forwarded(x, depth + 1, cache, target, qtype).answer;
          ChainOfOne(x, cache, domain, qtype, depth, visited, tail);
        }
      } else {
        targets, links, tail := [target], [link], [];
        ChainOfOne(x, cache, domain, qtype, depth, visited, tail);
        assert links + tail == [link];
      }
    }
  }

  lemma ChainOfNone(x: Inputs, cache: CacheState<Packet>, domain: string, qtype: nat, depth: nat, visited: set<string>)
    requires cache.max >= 1
    requires var found := BestAt(x, depth, domain, qtype);
             IsFixed(found) && found.value.rule.rtype != "CNAME"
    ensures Chain(x, depth, domain, qtype, [], []) && NewTargets([], visited)
    ensures Tail(x, cache, domain, qtype, depth, [], visited,
                 FixedRecords(x.lib, BestAt(x, depth, domain, qtype).value.rule, x.lib.fqdn(domain)))
  {
  }

  lemma ChainOfOne(x: Inputs, cache: CacheState<Packet>, domain: string, qtype: nat, depth: nat, visited: set<string>,
                   tail: seq<Record>)
    requires cache.max >= 1
    requires var found := BestAt(x, depth, domain, qtype);
             IsFixed(found) && found.value.rule.rtype == "CNAME"
    requires var target := NormalizeDomain(BestAt(x, depth, domain, qtype).value.rule.value);
             if qtype != TYPE_CNAME && depth < MAX_CNAME_DEPTH && target !in visited
             then !IsFixed(BestAt(x, depth + 1, target, qtype)) &&
                  tail == PassedOn(Forwarded(x, depth + 1, cache, target, qtype).answer)
             else tail == []
    ensures var m := BestAt(x, depth, domain, qtype).value;
            var targets, links := [NormalizeDomain(m.rule.value)], [CnameRecord(x.lib, m.rule, domain)];
            && Chain(x, depth, domain, qtype, targets, links) && NewTargets(targets, visited)
            && Tail(x, cache, domain, qtype, depth, targets, visited, tail)
  {
    hide NormalizeDomain, FindRule, Forwarded;
    var targets := [NormalizeDomain(BestAt(x, depth, domain, qtype).value.rule.value)];
    assert At(domain, targets, 0) == domain && At(domain, targets, 1) == targets[0];
  }

  lemma ChainGrows(x: Inputs, cache: CacheState<Packet>, domain: string, qtype: nat, depth: nat, visited: set<string>,
                   ts: seq<string>, ls: seq<Record>, tail: seq<Record>)
    requires cache.max >= 1 && qtype != TYPE_CNAME && depth < MAX_CNAME_DEPTH
    requires var found := BestAt(x, depth, domain, qtype);
             IsFixed(found) && found.value.rule.rtype == "CNAME"
    requires var target := NormalizeDomain(BestAt(x, depth, domain, qtype).value.rule.value);
             && target !in visited
             && Chain(x, depth + 1, target, qtype, ts, ls) && NewTargets(ts, visited + {target})
             && Tail(x, cache, target, qtype, depth + 1, ts, visited + {target}, tail)
             && (ts == [] ==> IsFixed(BestAt(x, depth + 1, target, qtype)))
    ensures var m := BestAt(x, depth, domain, qtype).value;
            var target := NormalizeDomain(m.rule.value);
            && Chain(x, depth, domain, qtype, [target] + ts, [CnameRecord(x.lib, m.rule, domain)] + ls)
            && NewTargets([target] + ts, visited)
            && Tail(x, cache, domain, qtype, depth, [target] + ts, visited, tail)
  {
    hide BestAt, NormalizeDomain, CnameRecord, Forwarded, FixedRecords;
    var m := BestAt(x, depth, domain, qtype).value;
    var target := NormalizeDomain(m.rule.value);
    LinkIsLinked(x, depth, domain, qtype);
    LinksGrow(x, depth, domain, qtype, target, CnameRecord(x.lib, m.rule, domain), ts, ls);
    hide Chain;
    assert At(domain, [target] + ts, |ts| + 1) == At(target, ts, |ts|);
    NewTargetsGrow(target, ts, visited);
    hide NewTargets;
    BlockedGrows(qtype, depth, target, ts, visited);
    hide Blocked, At;
  }

  lemma LinkIsLinked(x: Inputs, depth: nat, domain: string, qtype: nat)
    requires var found := BestAt(x, depth, domain, qtype);
             found.Some? && found.value.rule.mode == "fixed" && found.value.rule.rtype == "CNAME"
    ensures var rule := BestAt(x, depth, domain, qtype).value.rule;
            Linked(x, depth, domain, qtype, [NormalizeDomain(rule.value)], [CnameRecord(x.lib, rule, domain)], 0)
  {
    hide NormalizeDomain, FindRule;
  }

  lemma LinksGrow(x: Inputs, depth: nat, domain: string, qtype: nat, target: string, link: Record, ts: seq<string>,
                  ls: seq<Record>)
    requires Chain(x, depth + 1, target, qtype, ts, ls)
    requires Linked(x, depth, domain, qtype, [target], [link], 0)
    ensures Chain(x, depth, domain, qtype, [target] + ts, [link] + ls)
  {
    hide BestAt, NormalizeDomain, CnameRecord;
    var targets, links := [target] + ts, [link] + ls;
    forall i | 0 <= i < |targets| ensures Linked(x, depth, domain, qtype, targets, links, i) {
      if i > 0 {
        assert Linked(x, depth + 1, target, qtype, ts, ls, i - 1);
        assert At(domain, targets, i) == At(target, ts, i - 1);
      }
    }
  }

  lemma NewTargetsGrow(target: string, ts: seq<string>, visited: set<string>)
    requires target !in visited && NewTargets(ts, visited + {target})
    ensures NewTargets([target] + ts, visited)
  {
  }

  lemma BlockedGrows(qtype: nat, depth: nat, target: string, ts: seq<string>, visited: set<string>)
    requires qtype != TYPE_CNAME && depth < MAX_CNAME_DEPTH && target !in visited
    ensures Blocked(qtype, depth, [target] + ts, visited) <==> Blocked(qtype, depth + 1, ts, visited + {target})
  {
    var targets := [target] + ts;
    if ts != [] {
      assert targets[..|targets| - 1] == [target] + ts[..|ts| - 1];
    }
  }

  // ---- What is asked, stored and answered ---------------------------------

  /** What is asked about a name under these rules and this configuration: the
      rule found, if it forwards and names an upstream, is asked of that one
      alone; in every other case but a fixed rule's, of the configured list. */
  ghost predicate Asks(lib: Library, cfg: Config, rules: seq<Rule>, name: string, qtype: nat, q: Question) {
    var found := FindRule(rules, name, lib.typeName(qtype));
    && q.name == name && q.qtype == qtype
    && (found.None? ==> q.upstreams == cfg.upstreams)
    && (found.Some? ==>
         var rule := found.value.rule;
         && rule.mode != "fixed"
         && (rule.mode == "forward" && rule.upstream != "" ==> q.upstreams == [rule.upstream])
         && (rule.mode != "forward" || rule.upstream == "" ==> q.upstreams == cfg.upstreams))
  }

  lemma QuestionIsAsked(lib: Library, cfg: Config, rules: seq<Rule>, name: string, qtype: nat)
    ensures var found := FindRule(rules, name, lib.typeName(qtype));
            if found.Some? && found.value.rule.mode == "fixed" then IsFixed(Best(lib, rules, name, qtype))
            else !IsFixed(Best(lib, rules, name, qtype))
                 && Asks(lib, cfg, rules, name, qtype, QuestionFor(lib, cfg, rules, name, qtype))
  {
    hide FindRule;
  }

  /** There is one such question. */
  lemma AsksOne(lib: Library, cfg: Config, rules: seq<Rule>, name: string, qtype: nat, q: Question)
    requires Asks(lib, cfg, rules, name, qtype, q)
    ensures !IsFixed(Best(lib, rules, name, qtype)) && q == QuestionFor(lib, cfg, rules, name, qtype)
  {
    hide FindRule;
  }

  /** The additional records that stay are those that are not OPT, in order. */
  lemma {:induction false} WithoutOptIs(records: seq<Record>)
    ensures forall r :: r in WithoutOpt(records) <==> r in records && r.rtype != 41
    ensures (forall r :: r in records ==> r.rtype != 41) ==> WithoutOpt(records) == records
  {
    if records != [] {
      var n := |records| - 1;
      WithoutOptIs(records[..n]);
      assert records == records[..n] + [records[n]];
    }
  }

  lemma {:induction false} WithoutOptJoins(a: seq<Record>, b: seq<Record>)
    ensures WithoutOpt(a + b) == WithoutOpt(a) + WithoutOpt(b)
  {
    if b == [] {
      assert a + b == a;
    } else {
      var n := |b| - 1;
      assert (a + b)[..|a| + n] == a + b[..n];
      WithoutOptJoins(a, b[..n]);
    }
  }

  /** What a query that no fixed rule answers does with its question. It is
      served what lies under the question's key, unexpired, or else asks it, once,
      and hands on the reply without its OPT records; exactly a success that
      carries answers is kept, under that key. */
  lemma ForwardedIs(x: Inputs, d: nat, cache: CacheState<Packet>, name: string, qtype: nat, q: Question)
    requires WellFormed(cache) && Asks(x.lib, x.cfg(d), x.rules(d), name, qtype, q)
    ensures var o, looked := Forwarded(x, d, cache, name, qtype), GetStep(cache, Key(q), x.lookupAt).0;
            if Key(q) in cache.items && x.lookupAt < cache.items[Key(q)].expires then
              && o.sent == [] && o.cache == looked && o.answer.Some?
              && o.answer.value.source == "cache" && o.answer.value.upstream == ""
              && o.answer.value.packet == Served(cache.items[Key(q)], x.lookupAt)
            else
              && o.sent == [q]
              && match x.reply
                 case Failed => o.answer == None && o.cache == looked
                 case Message(packet, upstream) =>
                   && o.answer.Some? && o.answer.value.source == "forward" && o.answer.value.upstream == upstream
                   && o.answer.value.packet == packet.(additionals := WithoutOpt(packet.additionals))
                   && (packet.rcode == 0 && packet.answers != [] ==>
                        o.cache == SetStep(looked, Key(q), o.answer.value.packet,
                                           Lifetime(x.cfg(d), packet.answers) * 1_000_000_000, x.storeAt))
                   && (packet.rcode != 0 || packet.answers == [] ==> o.cache == looked)
  {
    hide FindRule, Key, WithoutOpt, Served, Lifetime, SetStep, Label, Touch, WellFormed;
    AsksOne(x.lib, x.cfg(d), x.rules(d), name, qtype, q);
  }

  /** A query no fixed rule answers is forwarded; the label is its rule's. */
  lemma NotFixedIs(x: Inputs, d: nat, cache: CacheState<Packet>, name: string, qtype: nat, visited: set<string>)
    requires cache.max >= 1
    requires var found := FoundAt(x, d, name, qtype); found.None? || found.value.rule.mode != "fixed"
    ensures var o := Resolve(x, cache, name, qtype, d, visited);
            && o == Forwarded(x, d, cache, name, qtype).(visited := visited)
            && (o.answer.Some? ==> o.answer.value.ruleLabel == Label(FoundAt(x, d, name, qtype)))
  {
    hide FindRule, Key, Label, Stored, GetStep, Accepted;
  }

  /** Whatever one query sends upstream, it sends one question: the one asked
      about the name at the end of its chain of fixed CNAMEs. */
  lemma {:induction false} SentIsAsked(x: Inputs, cache: CacheState<Packet>, domain: string, qtype: nat, depth: nat,
                                       visited: set<string>)
      returns (targets: seq<string>, links: seq<Record>)
    requires WellFormed(cache) && Resolve(x, cache, domain, qtype, depth, visited).sent != []
    ensures Chain(x, depth, domain, qtype, targets, links)
    ensures var sent, d := Resolve(x, cache, domain, qtype, depth, visited).sent, depth + |targets|;
            |sent| == 1 && Asks(x.lib, x.cfg(d), x.rules(d), At(domain, targets, |targets|), qtype, sent[0])
    decreases Max(0, MAX_CNAME_DEPTH - depth)
  {
    hide Asks, FindRule, Forwarded, NormalizeDomain, CnameRecord, FixedRecords, Label, Linked, WellFormed, QuestionFor;
    HasRoom(cache);
    QuestionIsAsked(x.lib, x.cfg(depth), x.rules(depth), domain, qtype);
    var found := FoundAt(x, depth, domain, qtype);
    if found.None? || found.value.rule.mode != "fixed" {
      targets, links := [], [];
      NotFixedIs(x, depth, cache, domain, qtype, visited);
      ForwardedIs(x, depth, cache, domain, qtype, QuestionFor(x.lib, x.cfg(depth), x.rules(depth), domain, qtype));
    } else {
      var target := NormalizeDomain(found.value.rule.value);
      var ts, ls := SentIsAsked(x, cache, target, qtype, depth + 1, visited + {target});
      LinkIsLinked(x, depth, domain, qtype);
      LinksGrow(x, depth, domain, qtype, target, CnameRecord(x.lib, found.value.rule, domain), ts, ls);
      targets, links := [target] + ts, [CnameRecord(x.lib, found.value.rule, domain)] + ls;
      assert At(domain, targets, |targets|) == At(target, ts, |ts|);
    }
  }

  lemma HasRoom<P>(c: CacheState<P>)
    requires WellFormed(c)
    ensures c.max >= 1
  {
  }

  /** Once a rule's upstream has been changed, the next query for the same name
      and type asks the new one, whatever was just stored under the old. */
  lemma ChangedUpstreamIsAsked(before: Inputs, after: Inputs, cache: CacheState<Packet>, name: string, qtype: nat,
                               u: string, v: string)
    requires WellFormed(cache) && u != v && PlainUpstreams([u]) && PlainUpstreams([v])
    requires Asks(before.lib, before.cfg(0), before.rules(0), name, qtype, Question(name, qtype, [u]))
    requires Asks(after.lib, after.cfg(0), after.rules(0), name, qtype, Question(name, qtype, [v]))
    requires var k := Key(Question(name, qtype, [v])); k in cache.items ==> cache.items[k].expires <= after.lookupAt
    ensures WellFormed(Resolve(before, cache, name, qtype, 0, {}).cache)
    ensures Resolve(after, Resolve(before, cache, name, qtype, 0, {}).cache, name, qtype, 0, {}).sent
         == [Question(name, qtype, [v])]
  {
    hide FindRule, Key, Asks, Forwarded, Resolve, Lifetime, SetStep, Touch, WellFormed, PlainUpstreams;
    var p, q := Question(name, qtype, [u]), Question(name, qtype, [v]);
    AsksNotFixed(before, 0, name, qtype, p);
    AsksNotFixed(after, 0, name, qtype, q);
    HasRoom(cache);
    NotFixedIs(before, 0, cache, name, qtype, {});
    ForwardedIs(before, 0, cache, name, qtype, p);
    if Key(p) == Key(q) { KeyInjective(p, q); }
    OtherKeysStay(before, cache, name, qtype, p, Key(q));
    var now := Resolve(before, cache, name, qtype, 0, {}).cache;
    HasRoom(now);
    NotFixedIs(after, 0, now, name, qtype, {});
    ForwardedIs(after, 0, now, name, qtype, q);
  }

  lemma AsksNotFixed(x: Inputs, d: nat, name: string, qtype: nat, q: Question)
    requires Asks(x.lib, x.cfg(d), x.rules(d), name, qtype, q)
    ensures var found := FoundAt(x, d, name, qtype); found.None? || found.value.rule.mode != "fixed"
  {
    hide FindRule;
  }

  lemma OtherKeysStay(x: Inputs, cache: CacheState<Packet>, name: string, qtype: nat, q: Question, key: string)
    requires WellFormed(cache) && Asks(x.lib, x.cfg(0), x.rules(0), name, qtype, q) && key != Key(q)
    ensures var after := Forwarded(x, 0, cache, name, qtype).cache;
            WellFormed(after) && (key in after.items ==> key in cache.items && after.items[key] == cache.items[key])
  {
    hide FindRule, Key, Asks, Forwarded, Lifetime, SetStep, Touch, WellFormed, WithoutOpt;
    ForwardedIs(x, 0, cache, name, qtype, q);
    var looked := GetStep(cache, Key(q), x.lookupAt).0;
    GetKeeps(cache, Key(q), x.lookupAt);
    StepsOnlyRemove(cache, Key(q), x.lookupAt, 0);
    HasRoom(looked);
    if x.reply.Message? {
      var packet := x.reply.packet.(additionals := WithoutOpt(x.reply.packet.additionals));
      var ttl := Lifetime(x.cfg(0), x.reply.packet.answers) * 1_000_000_000;
      SetKeeps(looked, Key(q), packet, ttl, x.storeAt);
      StoreKeepsOthers(looked, Key(q), packet, ttl, x.storeAt, key);
    }
  }

  lemma StoreKeepsOthers(c: CacheState<Packet>, key: string, packet: Packet, ttl: int, now: int, other: string)
    requires c.max >= 1 && other != key
    ensures var after := SetStep(c, key, packet, ttl, now).items;
            other in after ==> other in c.items && after[other] == c.items[other]
  {
    hide SetStep;
    if ttl > 0 {
      SetAddsOne(c, key, packet, ttl, now);
      var after := SetStep(c, key, packet, ttl, now).items;
      assert other in after ==> other in after - {key};
    } else {
      StoreNothing(c, key, packet, ttl, now);
    }
  }

  lemma StoreNothing(c: CacheState<Packet>, key: string, packet: Packet, ttl: int, now: int)
    requires c.max >= 1 && ttl <= 0
    ensures SetStep(c, key, packet, ttl, now) == c
  {
  }

  /** The value spells an address of the type, and the record carries it. */
  ghost predicate Carries(lib: Library, rule: Rule, owner: string, value: string, r: Record) {
    && r.name == owner && r.ttl == rule.ttl
    && (|| (rule.rtype == "A" && r.rtype == 1 && lib.ipv4(value) == Some(r.data))
        || (rule.rtype == "AAAA" && r.rtype == 28 && lib.ipv6(value) == Some(r.data)))
  }

  lemma FixedRecordIs(lib: Library, rule: Rule, owner: string, value: string)
    ensures var records := FixedRecord(lib, rule, owner, value);
            && |records| <= 1 && forall r :: r in records <==> Carries(lib, rule, owner, value, r)
  {
  }

  lemma RecordsStep(lib: Library, rule: Rule, owner: string, values: seq<string>)
    requires values != []
    ensures FixedRecordsOf(lib, rule, owner, values) == FixedRecordsOf(lib, rule, owner, values[..|values| - 1])
              + FixedRecord(lib, rule, owner, values[|values| - 1])
    ensures forall v :: v in values <==> v in values[..|values| - 1] || v == values[|values| - 1]
  {
    hide FixedRecord;
    assert values == values[..|values| - 1] + [values[|values| - 1]];
  }

  lemma {:induction false} SpelledAre(lib: Library, rule: Rule, owner: string, values: seq<string>, r: Record)
    ensures r in FixedRecordsOf(lib, rule, owner, values) <==>
            exists v :: v in values && Carries(lib, rule, owner, v, r)
  {
    if values != [] {
      hide FixedRecordsOf, FixedRecord, Carries;
      var n := |values| - 1;
      RecordsStep(lib, rule, owner, values);
      SpelledAre(lib, rule, owner, values[..n], r);
      FixedRecordIs(lib, rule, owner, values[n]);
    }
  }

  lemma {:induction false} SpelledInOrder(lib: Library, rule: Rule, owner: string, values: seq<string>,
                                               records: seq<Record>)
    requires |records| == |values| && forall i :: 0 <= i < |values| ==> Carries(lib, rule, owner, values[i], records[i])
    ensures FixedRecordsOf(lib, rule, owner, values) == records
  {
    if values != [] {
      hide FixedRecordsOf, FixedRecord, Carries;
      var n := |values| - 1;
      assert forall i :: 0 <= i < n ==> values[..n][i] == values[i] && records[..n][i] == records[i];
      SpelledInOrder(lib, rule, owner, values[..n], records[..n]);
      RecordsStep(lib, rule, owner, values);
      FixedRecordIs(lib, rule, owner, values[n]);
      assert Carries(lib, rule, owner, values[n], records[n]);
      assert FixedRecord(lib, rule, owner, values[n]) == [records[n]];
      assert records[..n] + [records[n]] == records;
    }
  }

  /** A fixed address rule answers with the addresses of its type that its
      values spell, under the owner asked for and for as long as it says. */
  lemma FixedRecordsAre(lib: Library, rule: Rule, owner: string, r: Record)
    ensures r in FixedRecords(lib, rule, owner) <==>
            exists v :: v in Fields(rule.value) && Carries(lib, rule, owner, v, r)
  {
    hide Fields, FixedRecordsOf, Carries;
    SpelledAre(lib, rule, owner, Fields(rule.value), r);
  }

  /** When all its values spell one, the answers are theirs, in order. */
  lemma FixedRecordsInOrder(lib: Library, rule: Rule, owner: string, records: seq<Record>)
    requires |records| == |Fields(rule.value)|
    requires forall i :: 0 <= i < |records| ==> Carries(lib, rule, owner, Fields(rule.value)[i], records[i])
    ensures FixedRecords(lib, rule, owner) == records
  {
    hide Fields, FixedRecordsOf, Carries;
    SpelledInOrder(lib, rule, owner, Fields(rule.value), records);
  }

  /** A label names the pattern, then how many other domains the rule has, then
      its remark, each only if there is something to say. */
  lemma LabelIs(m: Match)
    ensures Label(None) == ""
    ensures |m.rule.domains| <= 1 && m.rule.remark == "" ==> Label(Some(m)) == m.pattern
    ensures |m.rule.domains| <= 1 && m.rule.remark != "" ==> Label(Some(m)) == m.pattern + " (" + m.rule.remark + ")"
    ensures |m.rule.domains| > 1 && m.rule.remark == "" ==>
              Label(Some(m)) == m.pattern + " (+" + Decimal(|m.rule.domains| - 1) + ")"
    ensures |m.rule.domains| > 1 && m.rule.remark != "" ==>
              Label(Some(m)) == m.pattern + " (+" + Decimal(|m.rule.domains| - 1) + ")" + " (" + m.rule.remark + ")"
  {
  }
}
