/** The resolver object over the live rule store, configuration store and
    cache, proved against the value-level `Resolve`. */
module Resolver {
  import opened Basics
  import opened Text
  import Config
  import opened Rules
  import RuleStore
  import opened CacheSteps
  import opened AnswerCache
  import opened ResolverSteps

  /** The targets one query has already chased, shared by its recursive calls. */
  class Visited {
    var names: set<string>

    constructor ()
      ensures names == {}
    {
      names := {};
    }
  }

  /** What comes back from the upstreams. */
  datatype Response = NoResponse | Response(packet: Refs, upstream: string)

  function Responses(r: Response): set<Rec> {
    if r.NoResponse? then {} else Objects(r.packet)
  }

  function ReplyOf(r: Response): Reply
    reads Responses(r)
  {
    if r.NoResponse? then Failed else Message(PacketOf(r.packet), r.upstream)
  }

  datatype Result = Result(packet: Refs, source: string, ruleLabel: string, upstream: string)

  function AnswerOf(r: Result): Answer
    reads Objects(r.packet)
  {
    Answer(PacketOf(r.packet), r.source, r.ruleLabel, r.upstream)
  }

  /** The loop that drops OPT records; the others stay the same objects. */
  method DropOpt(extra: seq<Rec>) returns (kept: seq<Rec>)
    ensures RecsOf(kept) <= RecsOf(extra) && Values(kept) == WithoutOpt(Values(extra))
  {
    kept := [];
    for i := 0 to |extra|
      invariant RecsOf(kept) <= RecsOf(extra)
      invariant Values(kept) == WithoutOpt(Values(extra)[..i])
    {
      assert Values(extra)[..i + 1][..i] == Values(extra)[..i];
      if extra[i].rec.rtype != TYPE_OPT {
        ValuesAppend(kept, extra[i]);
        kept := kept + [extra[i]];
      }
    }
    assert Values(extra)[..|extra|] == Values(extra);
  }

  lemma ValuesAppend(records: seq<Rec>, r: Rec)
    ensures Values(records + [r]) == Values(records) + [r.rec]
  {
  }

  lemma ValuesChain(link: Rec, rest: seq<Rec>)
    ensures Values([link] + rest) == [link.rec] + Values(rest)
    ensures Values([]) == [] && [link] + [] == [link] && [link.rec] + [] == [link.rec]
  {
  }

  lemma PassedOnIs(extra: Option<Result>)
    ensures PassedOn(if extra.Some? then Some(AnswerOf(extra.value)) else None) ==
            if extra.Some? && extra.value.packet.rcode == SUCCESS then Values(extra.value.packet.answers) else []
  {
    hide Values;
  }

  function FixedResult(m: Match, answers: seq<Rec>): (r: Result)
    reads RecsOf(answers)
    ensures AnswerOf(r) == FixedAnswer(m, Values(answers)) && Objects(r.packet) == RecsOf(answers)
  {
    Result(Refs(SUCCESS, answers, [], []), "fixed", Label(Some(m)), "")
  }

  /** The loop that finds how long a reply may be kept. */
  method KeepFor(cfg: Config.Config, answers: seq<Rec>) returns (ttl: int)
    ensures ttl == Lifetime(cfg, Values(answers))
  {
    var minimum := cfg.ttlMax % 0x1_0000_0000;
    for i := 0 to |answers|
      invariant minimum == LeastTtl(Values(answers)[..i], cfg.ttlMax % 0x1_0000_0000)
    {
      assert Values(answers)[..i + 1][..i] == Values(answers)[..i];
      if answers[i].rec.ttl < minimum {
        minimum := answers[i].rec.ttl;
      }
    }
    assert Values(answers)[..|answers|] == Values(answers);
    ttl := Max(cfg.ttlMin, Min(cfg.ttlMax, minimum));
  }

  /** What the chase of a CNAME rule adds to its own record, if it is chased. */
  function Chased(x: Inputs, cache: CacheState<Packet>, m: Match, domain: string, qtype: nat, depth: nat,
                  visited: set<string>): Outcome
    requires cache.max >= 1
  {
    var target := NormalizeDomain(m.rule.value);
    if qtype != TYPE_CNAME && depth < MAX_CNAME_DEPTH && target !in visited then
      ResolverSteps.Resolve(x, cache, target, qtype, depth + 1, visited + {target})
    else Outcome(None, cache, visited, [])
  }

  lemma ResolveIs(x: Inputs, cache: CacheState<Packet>, domain: string, qtype: nat, depth: nat, visited: set<string>)
    requires cache.max >= 1
    ensures ResolverSteps.Resolve(x, cache, domain, qtype, depth, visited) ==
            var found := BestAt(x, depth, domain, qtype);
            if IsFixed(found) then ResolverSteps.Fixed(x, cache, found.value, domain, qtype, depth, visited)
            else Forwarded(x, depth, cache, domain, qtype).(visited := visited)
  {
    hide BestAt, Forwarded, ResolverSteps.Fixed;
  }

  lemma FixedIs(x: Inputs, cache: CacheState<Packet>, m: Match, domain: string, qtype: nat, depth: nat,
                visited: set<string>)
    requires cache.max >= 1
    ensures ResolverSteps.Fixed(x, cache, m, domain, qtype, depth, visited) ==
            if m.rule.rtype == "CNAME" then
              var o := Chased(x, cache, m, domain, qtype, depth, visited);
              o.(answer := Some(FixedAnswer(m, [CnameRecord(x.lib, m.rule, domain)] + PassedOn(o.answer))))
            else
              Outcome(Some(FixedAnswer(m, FixedRecords(x.lib, m.rule, x.lib.fqdn(domain)))), cache, visited, [])
  {
    hide ResolverSteps.Resolve, NormalizeDomain, CnameRecord, FixedAnswer, FixedRecords;
    assert [CnameRecord(x.lib, m.rule, domain)] + [] == [CnameRecord(x.lib, m.rule, domain)];
  }

  class Resolver {
    const rules: RuleStore.Store
    const cache: Cache
    const config: Config.Store
    const lib: Library
    ghost var sent: seq<Question>     // what the upstreams have been asked

    constructor (rules: RuleStore.Store, cache: Cache, config: Config.Store, lib: Library)
      ensures this.rules == rules && this.cache == cache && this.config == config && this.lib == lib && sent == []
    {
      this.rules, this.cache, this.config, this.lib, sent := rules, cache, config, lib, [];
    }

    ghost predicate Ready()
      reads this, cache, cache.owned, config, config.value.upstreams.data
    {
      cache.Valid() && Config.InBounds(config.value)
    }

    ghost function Given(lookupAt: int, storeAt: int, response: Response): Inputs
      requires Config.InBounds(config.value)
      reads config, config.value.upstreams.data, rules, Responses(response)
    {
      var cfg, list := config.View(), rules.rules;
      Inputs(lib, (depth: nat) => cfg, (depth: nat) => list, lookupAt, storeAt, ReplyOf(response))
    }

    lemma GivenLib(lookupAt: int, storeAt: int, response: Response)
      requires Config.InBounds(config.value)
      ensures Given(lookupAt, storeAt, response).lib == lib
    {
    }

    /** Nothing an answer holds is the cache's: whoever writes to it later, its
        records are new ones or the upstream's. */
    ghost predicate Apart(result: Option<Result>)
      reads cache
    {
      result.Some? ==> Objects(result.value.packet) !! cache.owned
    }

    method Resolve(rawDomain: string, qtype: nat, lookupAt: int, storeAt: int, response: Response)
        returns (result: Option<Result>)
      requires Ready() && Responses(response) !! cache.owned
      modifies this, cache
      ensures Ready() && Apart(result)
      ensures var o := ResolverSteps.Resolve(old(Given(lookupAt, storeAt, response)), old(cache.state),
                                             NormalizeDomain(rawDomain), qtype, 0, {});
              && cache.state == o.cache && sent == old(sent) + o.sent
              && o.answer == if result.Some? then Some(AnswerOf(result.value)) else None
    {
      var visited := new Visited();
      result := Step(Given(lookupAt, storeAt, response), NormalizeDomain(rawDomain), qtype, 0, visited, lookupAt,
                     storeAt, response);
    }

    method Step(ghost x: Inputs, domain: string, qtype: nat, depth: nat, visited: Visited, lookupAt: int, storeAt: int,
                response: Response)
        returns (result: Option<Result>)
      requires Ready() && Responses(response) !! cache.owned && x == Given(lookupAt, storeAt, response)
      modifies this, cache, visited
      ensures Ready() && Apart(result) && fresh(cache.owned - old(cache.owned))
      ensures var o := ResolverSteps.Resolve(x, old(cache.state), domain, qtype, depth, old(visited.names));
              && cache.state == o.cache && visited.names == o.visited && sent == old(sent) + o.sent
              && o.answer == if result.Some? then Some(AnswerOf(result.value)) else None
      decreases Max(0, MAX_CNAME_DEPTH - depth), 2
    {
      hide FindRule, Cache.Valid, Forwarded, ResolverSteps.Fixed, ResolverSteps.Resolve;
      ResolveIs(x, cache.state, domain, qtype, depth, visited.names);
      var held := config.Get();
      var cfg := Config.ValueOf(held);
      var found := Find(rules.rules, domain, lib.typeName(qtype));
      if found.Some? && found.value.rule.mode == "fixed" {
        result := Fixed(x, found.value, domain, qtype, depth, visited, lookupAt, storeAt, response);
        return;
      }
      result := LookOrAsk(x, cfg, found, domain, qtype, depth, lookupAt, storeAt, response);
    }

    /** The cache lookup, and on a miss the question to the upstreams. */
    method LookOrAsk(ghost x: Inputs, cfg: Config.Config, found: Option<Match>, domain: string, qtype: nat,
                     ghost depth: nat, lookupAt: int, storeAt: int, response: Response)
        returns (result: Option<Result>)
      requires Ready() && Responses(response) !! cache.owned && x == Given(lookupAt, storeAt, response)
      requires cfg == config.View() && found == Best(lib, rules.rules, domain, qtype)
      modifies this, cache
      ensures Ready() && Apart(result) && fresh(cache.owned - old(cache.owned))
      ensures var o := Forwarded(x, depth, old(cache.state), domain, qtype);
              && cache.state == o.cache && sent == old(sent) + o.sent
              && o.answer == if result.Some? then Some(AnswerOf(result.value)) else None
    {
      hide GetStep, Best, Stored, Accepted, Label, Key, Cache.Valid, Values, PacketOf;
      var upstreams := cfg.upstreams;
      if found.Some? && found.value.rule.mode == "forward" && found.value.rule.upstream != "" {
        upstreams := [found.value.rule.upstream];
      }
      var q := Question(domain, qtype, upstreams);
      var hit := cache.Get(Key(q), lookupAt);
      if hit.Some? {
        return Some(Result(hit.value, "cache", Label(found), ""));
      }
      sent := sent + [q];
      if response.NoResponse? {
        return None;
      }
      result := Keep(q, cfg, found, storeAt, response);
    }

    /** What is made of a reply: OPT records go, and a success with answers is stored. */
    method Keep(q: Question, cfg: Config.Config, found: Option<Match>, storeAt: int, response: Response)
        returns (result: Option<Result>)
      requires cache.Valid() && response.Response? && Responses(response) !! cache.owned
      modifies cache
      ensures cache.Valid() && Apart(result) && fresh(cache.owned - old(cache.owned))
      ensures var accepted := Accepted(old(PacketOf(response.packet)));
              && cache.state == Stored(old(cache.state), q, cfg, accepted, storeAt)
              && result.Some? && AnswerOf(result.value) == Answer(accepted, "forward", Label(found), response.upstream)
    {
      hide Cache.Valid, Stored, WithoutOpt, Key, Label, Values;
      var additionals := DropOpt(response.packet.additionals);
      var packet := response.packet.(additionals := additionals);
      assert Objects(packet) <= Responses(response);
      assert PacketOf(packet) == Accepted(PacketOf(response.packet));
      StoreReply(q, cfg, packet, storeAt);
      result := Some(Result(packet, "forward", Label(found), response.upstream));
    }

    method StoreReply(q: Question, cfg: Config.Config, packet: Refs, storeAt: int)
      requires cache.Valid() && Objects(packet) !! cache.owned
      modifies cache
      ensures cache.Valid() && Objects(packet) !! cache.owned && fresh(cache.owned - old(cache.owned))
      ensures PacketOf(packet) == old(PacketOf(packet))
      ensures cache.state == Stored(old(cache.state), q, cfg, PacketOf(packet), storeAt)
    {
      hide Cache.Valid, SetStep, Lifetime, Key, Values;
      if packet.rcode == SUCCESS && |packet.answers| > 0 {
        var ttl := KeepFor(cfg, packet.answers);
        cache.Set(Key(q), packet, ttl * SECOND, storeAt);
        PacketStays(packet);
      }
    }

    method Fixed(ghost x: Inputs, m: Match, domain: string, qtype: nat, depth: nat, visited: Visited, lookupAt: int,
                 storeAt: int, response: Response)
        returns (result: Option<Result>)
      requires Ready() && Responses(response) !! cache.owned && x == Given(lookupAt, storeAt, response)
      modifies this, cache, visited
      ensures Ready() && Apart(result) && fresh(cache.owned - old(cache.owned))
      ensures var o := ResolverSteps.Fixed(x, old(cache.state), m, domain, qtype, depth, old(visited.names));
              && cache.state == o.cache && visited.names == o.visited && sent == old(sent) + o.sent
              && o.answer == if result.Some? then Some(AnswerOf(result.value)) else None
      decreases Max(0, MAX_CNAME_DEPTH - depth), 1
    {
      hide ResolverSteps.Resolve, Cache.Valid, NormalizeDomain, FixedRecords, Label, Values, FixedAnswer, Chased;
      FixedIs(x, cache.state, m, domain, qtype, depth, visited.names);
      var answers;
      if m.rule.rtype == "CNAME" {
        answers := Chase(x, m, domain, qtype, depth, visited, lookupAt, storeAt, response);
      } else {
        answers := RuleRecords(m.rule, lib.fqdn(domain));
      }
      result := Some(FixedResult(m, answers));
    }

    /** The CNAME a rule makes, and what its target resolves to. */
    method Chase(ghost x: Inputs, m: Match, domain: string, qtype: nat, depth: nat, visited: Visited, lookupAt: int,
                 storeAt: int, response: Response)
        returns (answers: seq<Rec>)
      requires Ready() && Responses(response) !! cache.owned && x == Given(lookupAt, storeAt, response)
      modifies this, cache, visited
      ensures Ready() && RecsOf(answers) !! cache.owned && fresh(cache.owned - old(cache.owned))
      ensures var o := Chased(x, old(cache.state), m, domain, qtype, depth, old(visited.names));
              && cache.state == o.cache && visited.names == o.visited && sent == old(sent) + o.sent
              && Values(answers) == [CnameRecord(x.lib, m.rule, domain)] + PassedOn(o.answer)
      decreases Max(0, MAX_CNAME_DEPTH - depth), 0
    {
      hide ResolverSteps.Resolve, Cache.Valid, NormalizeDomain, Values, PassedOn, PacketOf, Given, ReplyOf;
      GivenLib(lookupAt, storeAt, response);
      PassedOnIs(None);
      var target := NormalizeDomain(m.rule.value);
      var link := new Rec(Record(lib.fqdn(domain), TYPE_CNAME, lib.fqdn(target), m.rule.ttl));
      answers := [link];
      ValuesChain(link, []);
      if qtype != TYPE_CNAME && depth < MAX_CNAME_DEPTH && target !in visited.names {
        visited.names := visited.names + {target};
        var extra := Step(x, target, qtype, depth + 1, visited, lookupAt, storeAt, response);
        PassedOnIs(extra);
        if extra.Some? && extra.value.packet.rcode == SUCCESS {
          answers := answers + extra.value.packet.answers;
          ValuesChain(link, extra.value.packet.answers);
        }
      }
    }

    method RuleRecords(rule: Rule, name: string) returns (answers: seq<Rec>)
      ensures fresh(RecsOf(answers)) && Values(answers) == FixedRecords(lib, rule, name)
    {
      var values := Fields(rule.value);
      answers := [];
      for i := 0 to |values|
        invariant forall r :: r in answers ==> fresh(r)
        invariant Values(answers) == FixedRecordsOf(lib, rule, name, values[..i])
      {
        assert values[..i + 1][..i] == values[..i];
        var value := values[i];
        if rule.rtype == "A" {
          if lib.ipv4(value).Some? {
            var r := new Rec(Record(name, TYPE_A, lib.ipv4(value).value, rule.ttl));
            ValuesAppend(answers, r);
            answers := answers + [r];
          }
        } else if rule.rtype == "AAAA" {
          if lib.ipv6(value).Some? {
            var r := new Rec(Record(name, TYPE_AAAA, lib.ipv6(value).value, rule.ttl));
            ValuesAppend(answers, r);
            answers := answers + [r];
          }
        }
      }
      assert values[..|values|] == values;
    }
  }
}
