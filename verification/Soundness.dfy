/** The resolver among everything that changes under it: many queries in flight,
    rule edits, configuration updates, sweeps, flushes and resizes, in any
    order. Whatever a lookup hits is the latest thing stored for that question
    since the last flush. */
module Soundness {
  import opened Basics
  import opened Config
  import opened Rules
  import opened CacheSteps
  import opened ResolverSteps
  import RuleStore
  import Import

  /** A query in flight, at one depth of its chase: it has read the
      configuration, then the rules and is about to look in the cache, then it
      missed and waits for the upstreams. It keeps what it has read. */
  datatype Job =
    | Reading(cfg: Config, name: string, qtype: nat)
    | Looking(rules: seq<Rule>, cfg: Config, name: string, qtype: nat)
    | Waiting(q: Question, cfg: Config)

  datatype Event =
    | Kept(q: Question, packet: Packet, lifetime: int, at: int)
    | Flushed
    | Hit(rules: seq<Rule>, cfg: Config, name: string, qtype: nat, packet: Packet, at: int)

  datatype World = World(rules: seq<Rule>, cfg: Config, cache: CacheState<Packet>, jobs: map<nat, Job>,
                         clock: int, log: seq<Event>)

  datatype Step =
    | Begin(id: nat, name: string, qtype: nat)
    | Choose(id: nat)
    | Settle(id: nat)
    | Lookup(id: nat, now: int)
    | Arrive(id: nat, reply: Reply, now: int)
    | EditRules(rules: seq<Rule>)
    | EditConfig(cfg: Config)
    | Sweep(now: int)
    | Flush
    | Resize(maxEntries: int)

  /** Rules that passed validation: their own upstream is absent or parses. */
  ghost predicate PlainRules(rules: seq<Rule>) {
    forall r :: r in rules ==> r.upstream == "" || PlainUpstreams([r.upstream])
  }

  /** A configuration that passed the clean-up. */
  ghost predicate PlainConfig(cfg: Config) {
    PlainUpstreams(cfg.upstreams) && 1 <= cfg.ttlMin <= 3600
  }

  lemma CleanIsPlain(p: Parsers, cfg: Config)
    requires Sensible(p) && Clean(p, cfg)
    ensures PlainConfig(cfg)
  {
  }

  /** The rules of the moment answer the query themselves. */
  predicate JobFixed(lib: Library, w: World, id: nat)
    requires id in w.jobs && w.jobs[id].Reading?
  {
    IsFixed(Best(lib, w.rules, w.jobs[id].name, w.jobs[id].qtype))
  }

  ghost predicate Enabled(lib: Library, w: World, step: Step) {
    match step
    case Begin(id, _, _) => id !in w.jobs
    case Choose(id) => id in w.jobs && w.jobs[id].Reading? && !JobFixed(lib, w, id)
    case Settle(id) => id in w.jobs && w.jobs[id].Reading? && JobFixed(lib, w, id)
    case Lookup(id, now) => id in w.jobs && w.jobs[id].Looking? && w.clock <= now
    case Arrive(id, _, now) => id in w.jobs && w.jobs[id].Waiting? && w.clock <= now
    case EditRules(rules) => PlainRules(rules)
    case EditConfig(cfg) => PlainConfig(cfg)
    case Sweep(now) => w.clock <= now
    case Flush => true
    case Resize(_) => true
  }

  function JobQuestion(lib: Library, job: Job): Question
    requires !job.Reading?
  {
    if job.Looking? then QuestionFor(lib, job.cfg, job.rules, job.name, job.qtype) else job.q
  }

  function Apply(lib: Library, w: World, step: Step): World
    requires w.cache.max >= 1
    requires step.Choose? ==> step.id in w.jobs && w.jobs[step.id].Reading?
    requires step.Lookup? ==> step.id in w.jobs && w.jobs[step.id].Looking?
    requires step.Arrive? ==> step.id in w.jobs && w.jobs[step.id].Waiting?
  {
    match step
    case Begin(id, name, qtype) => w.(jobs := w.jobs[id := Reading(w.cfg, name, qtype)])
    case Choose(id) => w.(jobs := w.jobs[id := Chosen(w.jobs[id], w.rules)])
    case Settle(id) => w.(jobs := w.jobs - {id})
    case Lookup(id, now) => Look(lib, w, id, w.jobs[id], now)
    case Arrive(id, reply, now) => Take(w.(jobs := w.jobs - {id}, clock := now), w.jobs[id], reply, now)
    case EditRules(rules) => w.(rules := rules)
    case EditConfig(cfg) => w.(cfg := cfg)
    case Sweep(now) => w.(cache := SweepStep(w.cache, now), clock := now)
    case Flush => w.(cache := FlushStep(w.cache), log := w.log + [Flushed])
    case Resize(n) => w.(cache := ResizeStep(w.cache, n))
  }

  function Chosen(job: Job, rules: seq<Rule>): Job
    requires job.Reading?
  {
    Looking(rules, job.cfg, job.name, job.qtype)
  }

  function Look(lib: Library, w: World, id: nat, job: Job, now: int): World
    requires job.Looking?
  {
    var q := JobQuestion(lib, job);
    var (looked, hit) := GetStep(w.cache, Key(q), now);
    if hit.Some? then
      w.(cache := looked, jobs := w.jobs - {id}, clock := now,
         log := w.log + [Hit(job.rules, job.cfg, job.name, job.qtype, hit.value, now)])
    else
      w.(cache := looked, jobs := w.jobs[id := Waiting(q, job.cfg)], clock := now)
  }

  function Take(w: World, job: Job, reply: Reply, now: int): World
    requires job.Waiting? && w.cache.max >= 1
  {
    if reply.Failed? || !Cacheable(Accepted(reply.packet)) then w
    else
      var packet := Accepted(reply.packet);
      w.(cache := Stored(w.cache, job.q, job.cfg, packet, now),
         log := w.log + [Kept(job.q, packet, Lifetime(job.cfg, packet.answers), now)])
  }

  ghost predicate Start(w: World) {
    && PlainRules(w.rules) && PlainConfig(w.cfg) && w.jobs == map[] && w.log == []
    && w.cache.max >= 1 && w.cache.items == map[] && w.cache.order == []
  }

  /** `w` is reached from a start by enabled steps. */
  ghost predicate Reaches(lib: Library, start: World, steps: seq<Step>, w: World) {
    if steps == [] then Start(start) && w == start
    else exists v ::
      && Reaches(lib, start, steps[..|steps| - 1], v) && Enabled(lib, v, steps[|steps| - 1])
      && v.cache.max >= 1 && w == Apply(lib, v, steps[|steps| - 1])
  }

  // ---- What is claimed ---------------------------------------------------

  /** The latest thing stored for a question since the last flush. */
  function Latest(log: seq<Event>, q: Question): Option<Event> {
    if log == [] then None
    else
      var last := log[|log| - 1];
      if last.Flushed? then None
      else if last.Kept? && last.q == q then Some(last)
      else Latest(log[..|log| - 1], q)
  }

  /** The hit serves what was stored, unexpired, and only answer TTLs differ,
      which went down to no less than the time left, rounded, and stay under the
      stored lifetime. */
  ghost predicate Serves(kept: Event, hit: Event)
    requires kept.Kept? && hit.Hit?
  {
    && kept.at <= hit.at < kept.at + kept.lifetime * SECOND
    && hit.packet.rcode == kept.packet.rcode == SUCCESS
    && hit.packet.authorities == kept.packet.authorities && hit.packet.additionals == kept.packet.additionals
    && |hit.packet.answers| == |kept.packet.answers| > 0
    && forall i :: 0 <= i < |hit.packet.answers| ==>
         && hit.packet.answers[i] == kept.packet.answers[i].(ttl := hit.packet.answers[i].ttl)
         && hit.packet.answers[i].ttl <= kept.packet.answers[i].ttl
         && (hit.at - kept.at) + hit.packet.answers[i].ttl * SECOND < (kept.lifetime + 1) * SECOND
         && RoundedDown(kept.packet.answers[i].ttl, hit.packet.answers[i].ttl,
                        kept.at + kept.lifetime * 1_000_000_000 - hit.at)
  }

  /** The hit serves the latest thing stored for this question. */
  ghost predicate ServesLatest(before: seq<Event>, hit: Event, q: Question)
    requires hit.Hit?
  {
    var kept := Latest(before, q); kept.Some? && kept.value.Kept? && Serves(kept.value, hit)
  }

  /** What is served was stored for the question that the rules and the
      configuration of the hit ask, and no fixed rule is the best. */
  ghost predicate SoundHit(lib: Library, before: seq<Event>, hit: Event)
    requires hit.Hit?
  {
    exists q :: Asks(lib, hit.cfg, hit.rules, hit.name, hit.qtype, q) && ServesLatest(before, hit, q)
  }

  // ---- The invariant -----------------------------------------------------

  ghost predicate PlainJob(lib: Library, job: Job) {
    && PlainConfig(job.cfg)
    && (job.Looking? ==> PlainRules(job.rules) && !IsFixed(Best(lib, job.rules, job.name, job.qtype)))
    && (job.Waiting? ==> PlainUpstreams(job.q.upstreams))
  }

  /** The entry under `k` is the latest thing stored for the one question with that key. */
  ghost predicate BackedBy(e: Entry<Packet>, k: string, log: seq<Event>, q: Question, clock: int) {
    var kept := Latest(log, q);
    && Key(q) == k && PlainUpstreams(q.upstreams)
    && kept.Some? && kept.value.Kept? && Cacheable(kept.value.packet) && kept.value.at <= clock
    && kept.value.lifetime < 0x1_0000_0000
    && e == Entry(kept.value.packet, kept.value.at + kept.value.lifetime * SECOND)
  }

  ghost predicate Backed(cache: CacheState<Packet>, log: seq<Event>, clock: int) {
    forall k :: k in cache.items ==> exists q :: BackedBy(cache.items[k], k, log, q, clock)
  }

  ghost predicate HitsSound(lib: Library, log: seq<Event>) {
    forall i :: 0 <= i < |log| && log[i].Hit? ==> SoundHit(lib, log[..i], log[i])
  }

  ghost predicate Inv(lib: Library, w: World) {
    && w.cache.max >= 1 && PlainRules(w.rules) && PlainConfig(w.cfg)
    && (forall id :: id in w.jobs ==> PlainJob(lib, w.jobs[id]))
    && Backed(w.cache, w.log, w.clock)
    && HitsSound(lib, w.log)
  }

  lemma FoundIsRule(rules: seq<Rule>, name: string, queryType: string)
    ensures var found := FindRule(rules, name, queryType); found.Some? ==> found.value.rule in rules
  {
    var at := FindRuleIsBest(rules, name, queryType);
  }

  lemma QuestionIsPlain(lib: Library, cfg: Config, rules: seq<Rule>, name: string, qtype: nat)
    requires PlainConfig(cfg) && PlainRules(rules)
    ensures PlainUpstreams(QuestionFor(lib, cfg, rules, name, qtype).upstreams)
  {
    FoundIsRule(rules, name, lib.typeName(qtype));
  }

  /** Entries that stay, and events of other kinds, keep the cache backed. */
  lemma BackedStays(cache: CacheState<Packet>, after: CacheState<Packet>, log: seq<Event>, clock: int, now: int)
    requires Backed(cache, log, clock) && clock <= now && Sub(after.items, cache.items)
    ensures Backed(after, log, now)
  {
    forall k | k in after.items ensures exists q :: BackedBy(after.items[k], k, log, q, now) {
      var q :| BackedBy(cache.items[k], k, log, q, clock);
      assert BackedBy(after.items[k], k, log, q, now);
    }
  }

  lemma BackedAfterHit(cache: CacheState<Packet>, log: seq<Event>, clock: int, hit: Event)
    requires Backed(cache, log, clock) && hit.Hit?
    ensures Backed(cache, log + [hit], clock)
  {
    forall k | k in cache.items ensures exists q :: BackedBy(cache.items[k], k, log + [hit], q, clock) {
      var q :| BackedBy(cache.items[k], k, log, q, clock);
      assert (log + [hit])[..|log|] == log;
      assert BackedBy(cache.items[k], k, log + [hit], q, clock);
    }
  }

  lemma HitsSoundAfter(lib: Library, log: seq<Event>, e: Event)
    requires HitsSound(lib, log) && (e.Hit? ==> SoundHit(lib, log, e))
    ensures HitsSound(lib, log + [e])
  {
    var after := log + [e];
    forall i | 0 <= i < |after| && after[i].Hit? ensures SoundHit(lib, after[..i], after[i]) {
      assert after[..i] == log[..i];
      if i == |log| { assert log[..i] == log; }
    }
  }

  lemma JobIsPlain(lib: Library, w: World, id: nat)
    requires Inv(lib, w) && id in w.jobs && w.jobs[id].Looking?
    ensures PlainUpstreams(JobQuestion(lib, w.jobs[id]).upstreams)
    ensures !IsFixed(Best(lib, w.jobs[id].rules, w.jobs[id].name, w.jobs[id].qtype))
  {
    var job := w.jobs[id];
    assert PlainJob(lib, job);
    QuestionIsPlain(lib, job.cfg, job.rules, job.name, job.qtype);
  }

  /** The key names the question, so what lies under it is what was kept for it. */
  lemma EntryIsLatest(w: World, q: Question)
    requires Backed(w.cache, w.log, w.clock) && PlainUpstreams(q.upstreams) && Key(q) in w.cache.items
    ensures BackedBy(w.cache.items[Key(q)], Key(q), w.log, q, w.clock)
  {
    var r :| BackedBy(w.cache.items[Key(q)], Key(q), w.log, r, w.clock);
    hide Key, PlainUpstreams, Latest;
    KeyInjective(q, r);
  }

  lemma HitIsSound(lib: Library, log: seq<Event>, job: Job, e: Entry<Packet>, clock: int, now: int)
    requires job.Looking? && !IsFixed(Best(lib, job.rules, job.name, job.qtype))
    requires BackedBy(e, Key(JobQuestion(lib, job)), log, JobQuestion(lib, job), clock) && clock <= now < e.expires
    ensures SoundHit(lib, log, Hit(job.rules, job.cfg, job.name, job.qtype, Served(e, now), now))
  {
    hide Key, Best, QuestionFor, Served, Serves, Cacheable, Latest, PlainUpstreams, Asks;
    QuestionIsAsked(lib, job.cfg, job.rules, job.name, job.qtype);
    ServedKept(Latest(log, JobQuestion(lib, job)).value,
               Hit(job.rules, job.cfg, job.name, job.qtype, Served(e, now), now));
  }

  lemma LifetimeFits(cfg: Config, answers: seq<Record>)
    requires PlainConfig(cfg)
    ensures 1 <= Lifetime(cfg, answers) < 0x1_0000_0000
  {
    LeastTtlIsLeast(answers, cfg.ttlMax % 0x1_0000_0000);
  }

  lemma ServedKept(kept: Event, hit: Event)
    requires kept.Kept? && hit.Hit? && Cacheable(kept.packet) && kept.lifetime < 0x1_0000_0000
    requires kept.at <= hit.at < kept.at + kept.lifetime * SECOND
    requires hit.packet == Served(Entry(kept.packet, kept.at + kept.lifetime * SECOND), hit.at)
    ensures Serves(kept, hit)
  {
    ServedTtls(kept.packet, kept.at, kept.lifetime, hit.at);
  }

  lemma LookKeepsInv(lib: Library, w: World, id: nat, now: int)
    requires Inv(lib, w) && id in w.jobs && w.jobs[id].Looking? && w.clock <= now
    ensures Inv(lib, Look(lib, w, id, w.jobs[id], now))
  {
    var job := w.jobs[id];
    assert PlainJob(lib, job);
    var q := JobQuestion(lib, job);
    QuestionIsPlain(lib, job.cfg, job.rules, job.name, job.qtype);
    StepsOnlyRemove(w.cache, Key(q), now, 0);
    var looked := Touch(w.cache, Key(q), now);
    BackedStays(w.cache, looked, w.log, w.clock, now);
    if Live(w.cache, Key(q), now) {
      JobIsPlain(lib, w, id);
      EntryIsLatest(w, q);
      HitIsSound(lib, w.log, job, w.cache.items[Key(q)], w.clock, now);
      var hit := Hit(job.rules, job.cfg, job.name, job.qtype, Served(w.cache.items[Key(q)], now), now);
      BackedAfterHit(looked, w.log, now, hit);
      HitsSoundAfter(lib, w.log, hit);
    }
    hide Backed, HitsSound, Key, Best, QuestionFor, Served, Live, PlainRules, PlainConfig, PlainUpstreams;
  }

  /** Storing for one question leaves what is kept for the others alone. */
  lemma BackedAfterKept(w: World, q: Question, cfg: Config, packet: Packet, now: int)
    requires w.cache.max >= 1 && Backed(w.cache, w.log, w.clock) && w.clock <= now
    requires PlainUpstreams(q.upstreams) && PlainConfig(cfg) && Cacheable(packet)
    ensures Backed(Stored(w.cache, q, cfg, packet, now),
                   w.log + [Kept(q, packet, Lifetime(cfg, packet.answers), now)], now)
  {
    hide Key, SetStep, PlainUpstreams, LeastTtl;
    LifetimeFits(cfg, packet.answers);
    var life := Lifetime(cfg, packet.answers);
    var after := Stored(w.cache, q, cfg, packet, now);
    var e := Kept(q, packet, life, now);
    var log := w.log + [e];
    assert log[..|w.log|] == w.log;
    SetAddsOne(w.cache, Key(q), packet, life * SECOND, now);
    forall k | k in after.items ensures exists r :: BackedBy(after.items[k], k, log, r, now) {
      if k == Key(q) {
        assert BackedBy(after.items[k], k, log, q, now);
      } else {
        assert k in after.items - {Key(q)};
        var r :| BackedBy(w.cache.items[k], k, w.log, r, w.clock);
        assert r != q;
        assert BackedBy(after.items[k], k, log, r, now);
      }
    }
  }

  lemma TakeKeepsInv(lib: Library, w: World, id: nat, reply: Reply, now: int)
    requires Inv(lib, w) && id in w.jobs && w.jobs[id].Waiting? && w.clock <= now
    ensures Inv(lib, Take(w.(jobs := w.jobs - {id}, clock := now), w.jobs[id], reply, now))
  {
    assert PlainJob(lib, w.jobs[id]);
    var job := w.jobs[id];
    BackedStays(w.cache, w.cache, w.log, w.clock, now);
    if reply.Message? && Cacheable(Accepted(reply.packet)) {
      var packet := Accepted(reply.packet);
      BackedAfterKept(w, job.q, job.cfg, packet, now);
      HitsSoundAfter(lib, w.log, Kept(job.q, packet, Lifetime(job.cfg, packet.answers), now));
    }
    hide Backed, HitsSound, Key, Best, PlainRules, PlainConfig, PlainUpstreams, Accepted;
  }

  lemma FlushKeepsInv(lib: Library, w: World)
    requires Inv(lib, w)
    ensures Inv(lib, Apply(lib, w, Flush))
  {
    HitsSoundAfter(lib, w.log, Flushed);
  }

  lemma StepKeepsInv(lib: Library, w: World, step: Step)
    requires Inv(lib, w) && Enabled(lib, w, step)
    ensures Inv(lib, Apply(lib, w, step))
  {
    match step
    case Begin(id, name, qtype) =>
    case Choose(id) => assert PlainJob(lib, w.jobs[id]);
    case Settle(id) =>
    case Lookup(id, now) => LookKeepsInv(lib, w, id, now);
    case Arrive(id, reply, now) => TakeKeepsInv(lib, w, id, reply, now);
    case EditRules(rules) =>
    case EditConfig(cfg) =>
    case Sweep(now) =>
      StepsOnlyRemove(w.cache, "", now, 0);
      BackedStays(w.cache, SweepStep(w.cache, now), w.log, w.clock, now);
    case Flush => FlushKeepsInv(lib, w);
    case Resize(n) =>
      StepsOnlyRemove(w.cache, "", 0, n);
      BackedStays(w.cache, ResizeStep(w.cache, n), w.log, w.clock, w.clock);
  }

  lemma {:induction false} ReachedInv(lib: Library, start: World, steps: seq<Step>, w: World)
    requires Reaches(lib, start, steps, w)
    ensures Inv(lib, w)
  {
    if steps != [] {
      var before, last := steps[..|steps| - 1], steps[|steps| - 1];
      var v :| Reaches(lib, start, before, v) && Enabled(lib, v, last) && v.cache.max >= 1 && w == Apply(lib, v, last);
      ReachedInv(lib, start, before, v);
      StepKeepsInv(lib, v, last);
    }
  }

  /** In every run, every cache hit is the latest reply kept for the same name,
      type and upstreams since the last flush, unexpired, with only answer TTLs
      lowered, and under the rules the query chose from its best rule was not a
      fixed one. */
  lemma {:induction false} EveryHitIsSound(lib: Library, start: World, steps: seq<Step>, w: World, i: nat)
    requires Reaches(lib, start, steps, w)
    requires i < |w.log| && w.log[i].Hit?
    ensures SoundHit(lib, w.log[..i], w.log[i])
  {
    ReachedInv(lib, start, steps, w);
  }

  // ---- A flush forgets ----------------------------------------------------

  /** In every run, whatever is served after a flush was kept after it too. */
  lemma FlushForgets(lib: Library, start: World, before: seq<Step>, v: World, later: seq<Step>, w: World, i: nat)
      returns (j: nat)
    requires Reaches(lib, start, before, v) && Reaches(lib, start, before + [Flush] + later, w)
    requires |v.log| <= i < |w.log| && w.log[i].Hit?
    ensures |v.log| < j < i && w.log[j].Kept? && Serves(w.log[j], w.log[i])
    ensures Asks(lib, w.log[i].cfg, w.log[i].rules, w.log[i].name, w.log[i].qtype, w.log[j].q)
  {
    FlushIsLogged(lib, start, before, v, later, w);
    EveryHitIsSound(lib, start, before + [Flush] + later, w, i);
    hide Reaches, Asks, Serves;
    var q :| Asks(lib, w.log[i].cfg, w.log[i].rules, w.log[i].name, w.log[i].qtype, q)
             && ServesLatest(w.log[..i], w.log[i], q);
    j := LatestAfter(w.log[..i], q, |v.log|);
  }

  lemma {:induction false} LatestAfter(log: seq<Event>, q: Question, k: nat) returns (j: nat)
    requires k < |log| && log[k].Flushed? && Latest(log, q).Some?
    ensures k < j < |log| && log[j].Kept? && log[j].q == q && Latest(log, q) == Some(log[j])
  {
    j := |log| - 1;
    if !(log[j].Kept? && log[j].q == q) { j := LatestAfter(log[..j], q, k); }
  }

  lemma {:induction false} FlushIsLogged(lib: Library, start: World, before: seq<Step>, v: World, later: seq<Step>,
                                         w: World)
    requires Reaches(lib, start, before, v) && Reaches(lib, start, before + [Flush] + later, w)
    ensures v.log + [Flushed] <= w.log
  {
    hide Reaches, Apply, Enabled;
    var steps := before + [Flush] + later;
    var last := LastStep(lib, start, steps, w);
    LogGrows(lib, last, steps[|steps| - 1]);
    if later == [] {
      assert steps[..|steps| - 1] == before;
      OneWorld(lib, start, before, v, last);
    } else {
      assert steps[..|steps| - 1] == before + [Flush] + later[..|later| - 1];
      FlushIsLogged(lib, start, before, v, later[..|later| - 1], last);
    }
  }

  lemma LogGrows(lib: Library, v: World, step: Step)
    requires Enabled(lib, v, step) && v.cache.max >= 1
    ensures v.log <= Apply(lib, v, step).log && (step.Flush? ==> Apply(lib, v, step).log == v.log + [Flushed])
  {
    hide GetStep, Stored, Key, SweepStep, ResizeStep, Accepted, Lifetime;
  }

  /** The steps of a run say where it leads. */
  lemma {:induction false} OneWorld(lib: Library, start: World, steps: seq<Step>, v: World, w: World)
    requires Reaches(lib, start, steps, v) && Reaches(lib, start, steps, w)
    ensures v == w
  {
    if steps != [] {
      var x := LastStep(lib, start, steps, v);
      var y := LastStep(lib, start, steps, w);
      OneWorld(lib, start, steps[..|steps| - 1], x, y);
    }
  }

  // ---- Where a hit's rules and configuration come from --------------------

  /** Step `n` began query `id` for this name while `cfg` was the configuration. */
  ghost predicate Began(lib: Library, start: World, steps: seq<Step>, id: nat, cfg: Config, name: string, qtype: nat,
                        n: nat) {
    n < |steps| && steps[n] == Begin(id, name, qtype) && exists v :: Reaches(lib, start, steps[..n], v) && v.cfg == cfg
  }

  /** Step `m` chose for query `id` while `rules` were the rules. */
  ghost predicate Chose(lib: Library, start: World, steps: seq<Step>, id: nat, rules: seq<Rule>, m: nat) {
    m < |steps| && steps[m] == Choose(id) && exists v :: Reaches(lib, start, steps[..m], v) && v.rules == rules
  }

  /** The job holds what was there when it read it. */
  ghost predicate Fetched(lib: Library, start: World, steps: seq<Step>, id: nat, job: Job) {
    match job
    case Reading(cfg, name, qtype) => exists n: nat :: Began(lib, start, steps, id, cfg, name, qtype, n)
    case Looking(rules, cfg, name, qtype) =>
      exists n: nat, m: nat :: n < m && Began(lib, start, steps, id, cfg, name, qtype, n) &&
        Chose(lib, start, steps, id, rules, m)
    case Waiting(q, cfg) => exists rules, name, qtype :: Asked(lib, start, steps, id, q, cfg, rules, name, qtype)
  }

  /** The question is what was asked under what the query had read. */
  ghost predicate Asked(lib: Library, start: World, steps: seq<Step>, id: nat, q: Question, cfg: Config,
                        rules: seq<Rule>, name: string, qtype: nat) {
    && Asks(lib, cfg, rules, name, qtype, q)
    && exists n: nat, m: nat :: n < m && Began(lib, start, steps, id, cfg, name, qtype, n) &&
         Chose(lib, start, steps, id, rules, m)
  }

  /** What is kept is a reply to a question some query had asked. */
  ghost predicate KeptFetched(lib: Library, start: World, steps: seq<Step>, kept: Event)
    requires kept.Kept?
  {
    exists id: nat, cfg :: Fetched(lib, start, steps, id, Waiting(kept.q, cfg))
      && kept.lifetime == Lifetime(cfg, kept.packet.answers)
  }

  ghost predicate HitFetched(lib: Library, start: World, steps: seq<Step>, hit: Event)
    requires hit.Hit?
  {
    exists id: nat :: Fetched(lib, start, steps, id, Looking(hit.rules, hit.cfg, hit.name, hit.qtype))
  }

  lemma ReadsLater(lib: Library, start: World, steps: seq<Step>, step: Step)
    ensures forall id, cfg, name, qtype, n: nat :: Began(lib, start, steps, id, cfg, name, qtype, n) ==>
              Began(lib, start, steps + [step], id, cfg, name, qtype, n)
    ensures forall id, rules, m: nat :: Chose(lib, start, steps, id, rules, m) ==>
              Chose(lib, start, steps + [step], id, rules, m)
  {
    hide Reaches;
    assert forall k :: 0 <= k <= |steps| ==> (steps + [step])[..k] == steps[..k];
  }

  lemma FetchedLater(lib: Library, start: World, steps: seq<Step>, step: Step, id: nat, job: Job)
    requires Fetched(lib, start, steps, id, job)
    ensures Fetched(lib, start, steps + [step], id, job)
  {
    hide Began, Chose, Asks;
    ReadsLater(lib, start, steps, step);
    if job.Waiting? {
      var rules, name, qtype :| Asked(lib, start, steps, id, job.q, job.cfg, rules, name, qtype);
      assert Asked(lib, start, steps + [step], id, job.q, job.cfg, rules, name, qtype);
    }
  }

  ghost predicate AllFetched(lib: Library, start: World, steps: seq<Step>, w: World) {
    && (forall id :: id in w.jobs ==> Fetched(lib, start, steps, id, w.jobs[id]))
    && (forall i :: 0 <= i < |w.log| && w.log[i].Hit? ==> HitFetched(lib, start, steps, w.log[i]))
    && forall i :: 0 <= i < |w.log| && w.log[i].Kept? ==> KeptFetched(lib, start, steps, w.log[i])
  }

  lemma AllFetchedLater(lib: Library, start: World, steps: seq<Step>, step: Step, v: World)
    requires AllFetched(lib, start, steps, v)
    ensures AllFetched(lib, start, steps + [step], v)
  {
    hide Fetched, Lifetime;
    forall id | id in v.jobs ensures Fetched(lib, start, steps + [step], id, v.jobs[id]) {
      FetchedLater(lib, start, steps, step, id, v.jobs[id]);
    }
    forall i | 0 <= i < |v.log| && v.log[i].Hit? ensures HitFetched(lib, start, steps + [step], v.log[i]) {
      var hit := v.log[i];
      var job := Looking(hit.rules, hit.cfg, hit.name, hit.qtype);
      var id: nat :| Fetched(lib, start, steps, id, job);
      FetchedLater(lib, start, steps, step, id, job);
    }
    forall i | 0 <= i < |v.log| && v.log[i].Kept? ensures KeptFetched(lib, start, steps + [step], v.log[i]) {
      var kept := v.log[i];
      var id: nat, cfg :| Fetched(lib, start, steps, id, Waiting(kept.q, cfg))
        && kept.lifetime == Lifetime(cfg, kept.packet.answers);
      FetchedLater(lib, start, steps, step, id, Waiting(kept.q, cfg));
    }
  }

  /** A step's job holds what the world had when the step was taken, and what
      it logs comes from a job that does. */
  lemma StepFetches(lib: Library, start: World, steps: seq<Step>, v: World, step: Step)
    requires Reaches(lib, start, steps, v) && Enabled(lib, v, step) && v.cache.max >= 1
    requires AllFetched(lib, start, steps, v)
    ensures AllFetched(lib, start, steps + [step], Apply(lib, v, step))
  {
    hide Reaches, AllFetched, Fetched, JobFixed, Take, Look, SweepStep, ResizeStep, PlainRules, PlainConfig;
    AllFetchedLater(lib, start, steps, step, v);
    match step
    case Begin(id, name, qtype) =>
      BeginFetches(lib, start, steps, v, id, name, qtype);
      OneMoreFetched(lib, start, steps + [step], v, Apply(lib, v, step), id);
    case Choose(id) =>
      FetchedOf(lib, start, steps, v, id);
      ChooseFetches(lib, start, steps, v, id);
      OneMoreFetched(lib, start, steps + [step], v, Apply(lib, v, step), id);
    case Lookup(id, now) =>
      ReachedInv(lib, start, steps, v);
      LookingAsks(lib, v, id);
      LookupFetches(lib, start, steps + [step], v, id, now);
    case Arrive(id, reply, now) => ArriveFetches(lib, start, steps + [step], v, id, reply, now);
    case _ => LessFetched(lib, start, steps + [step], v, Apply(lib, v, step));
  }

  lemma LookingAsks(lib: Library, w: World, id: nat)
    requires Inv(lib, w) && id in w.jobs && w.jobs[id].Looking?
    ensures var job := w.jobs[id]; Asks(lib, job.cfg, job.rules, job.name, job.qtype, JobQuestion(lib, job))
  {
    var job := w.jobs[id];
    assert PlainJob(lib, job);
    QuestionIsAsked(lib, job.cfg, job.rules, job.name, job.qtype);
    hide Asks, FindRule, Backed, HitsSound, PlainRules, PlainConfig;
  }

  lemma FetchedOf(lib: Library, start: World, steps: seq<Step>, w: World, id: nat)
    requires AllFetched(lib, start, steps, w) && id in w.jobs
    ensures Fetched(lib, start, steps, id, w.jobs[id])
  {
    hide Fetched;
  }

  /** An arrival ends its job, and what it keeps is for the question waited for. */
  lemma ArriveFetches(lib: Library, start: World, steps: seq<Step>, v: World, id: nat, reply: Reply, now: int)
    requires AllFetched(lib, start, steps, v) && id in v.jobs && v.jobs[id].Waiting? && v.cache.max >= 1
    ensures AllFetched(lib, start, steps, Take(v.(jobs := v.jobs - {id}, clock := now), v.jobs[id], reply, now))
  {
    hide AllFetched, Fetched, Accepted, Cacheable, Stored, Lifetime;
    var w := Take(v.(jobs := v.jobs - {id}, clock := now), v.jobs[id], reply, now);
    FetchedOf(lib, start, steps, v, id);
    LessFetched(lib, start, steps, v, w.(log := v.log));
    if w.log != v.log {
      KeptIsFetched(lib, start, steps, w.(log := v.log), w, id, v.jobs[id].cfg);
    }
  }

  lemma KeptIsFetched(lib: Library, start: World, steps: seq<Step>, v: World, w: World, id: nat, cfg: Config)
    requires AllFetched(lib, start, steps, v) && |w.log| == |v.log| + 1 && w.jobs == v.jobs
    requires w.log[..|v.log|] == v.log && w.log[|v.log|].Kept?
    requires var kept := w.log[|v.log|];
             Fetched(lib, start, steps, id, Waiting(kept.q, cfg)) && kept.lifetime == Lifetime(cfg, kept.packet.answers)
    ensures AllFetched(lib, start, steps, w)
  {
    hide Fetched, Lifetime, HitFetched;
    forall i | 0 <= i < |w.log| && w.log[i].Kept? ensures KeptFetched(lib, start, steps, w.log[i]) {
      if i < |v.log| { assert w.log[i] == v.log[i]; }
    }
    assert forall i :: 0 <= i < |v.log| ==> w.log[i] == v.log[i];
  }

  /** Fewer jobs and nothing new but flushes in the log. */
  lemma LessFetched(lib: Library, start: World, steps: seq<Step>, v: World, w: World)
    requires AllFetched(lib, start, steps, v)
    requires forall id :: id in w.jobs ==> id in v.jobs && w.jobs[id] == v.jobs[id]
    requires forall i :: 0 <= i < |w.log| && !w.log[i].Flushed? ==> i < |v.log| && w.log[i] == v.log[i]
    ensures AllFetched(lib, start, steps, w)
  {
    hide Fetched, HitFetched, KeptFetched;
  }

  /** One job set to something fetched, and the same log. */
  lemma OneMoreFetched(lib: Library, start: World, steps: seq<Step>, v: World, w: World, id: nat)
    requires AllFetched(lib, start, steps, v) && id in w.jobs && Fetched(lib, start, steps, id, w.jobs[id])
    requires w.jobs == v.jobs[id := w.jobs[id]] && w.log == v.log
    ensures AllFetched(lib, start, steps, w)
  {
    hide Fetched, HitFetched, KeptFetched;
  }

  lemma BeginFetches(lib: Library, start: World, steps: seq<Step>, v: World, id: nat, name: string, qtype: nat)
    requires Reaches(lib, start, steps, v)
    ensures Fetched(lib, start, steps + [Begin(id, name, qtype)], id, Reading(v.cfg, name, qtype))
  {
    var after := steps + [Begin(id, name, qtype)];
    assert after[..|steps|] == steps;
    hide Reaches;
    assert Began(lib, start, after, id, v.cfg, name, qtype, |steps|);
  }

  lemma ChooseFetches(lib: Library, start: World, steps: seq<Step>, v: World, id: nat)
    requires Reaches(lib, start, steps, v) && id in v.jobs && v.jobs[id].Reading?
    requires Fetched(lib, start, steps, id, v.jobs[id])
    ensures Fetched(lib, start, steps + [Choose(id)], id, Chosen(v.jobs[id], v.rules))
  {
    hide Reaches, Began, Chose;
    var job, after := v.jobs[id], steps + [Choose(id)];
    var n: nat :| Began(lib, start, steps, id, job.cfg, job.name, job.qtype, n);
    BeganLater(lib, start, steps, id, job.cfg, job.name, job.qtype, n, Choose(id));
    ChoseNow(lib, start, steps, v, id);
  }

  lemma BeganLater(lib: Library, start: World, steps: seq<Step>, id: nat, cfg: Config, name: string, qtype: nat, n: nat,
                   step: Step)
    requires Began(lib, start, steps, id, cfg, name, qtype, n)
    ensures n < |steps| && Began(lib, start, steps + [step], id, cfg, name, qtype, n)
  {
    hide Reaches;
    assert (steps + [step])[..n] == steps[..n];
  }

  lemma ChoseNow(lib: Library, start: World, steps: seq<Step>, v: World, id: nat)
    requires Reaches(lib, start, steps, v)
    ensures Chose(lib, start, steps + [Choose(id)], id, v.rules, |steps|)
  {
    hide Reaches;
    assert (steps + [Choose(id)])[..|steps|] == steps;
  }

  lemma LookupFetches(lib: Library, start: World, after: seq<Step>, v: World, id: nat, now: int)
    requires id in v.jobs && v.jobs[id].Looking? && AllFetched(lib, start, after, v)
    requires var job := v.jobs[id]; Asks(lib, job.cfg, job.rules, job.name, job.qtype, JobQuestion(lib, job))
    ensures AllFetched(lib, start, after, Look(lib, v, id, v.jobs[id], now))
  {
    hide AllFetched, Fetched, GetStep, Key, JobQuestion, Asks;
    var job := v.jobs[id];
    var w := Look(lib, v, id, job, now);
    FetchedOf(lib, start, after, v, id);
    if id in w.jobs {
      WaitingIsFetched(lib, start, after, id, job, JobQuestion(lib, job));
      OneMoreFetched(lib, start, after, v, w, id);
    } else {
      LessFetched(lib, start, after, v, w.(log := v.log));
      HitIsFetched(lib, start, after, w.(log := v.log), w, id);
    }
  }

  lemma WaitingIsFetched(lib: Library, start: World, steps: seq<Step>, id: nat, job: Job, q: Question)
    requires job.Looking? && Fetched(lib, start, steps, id, job)
    requires Asks(lib, job.cfg, job.rules, job.name, job.qtype, q)
    ensures Fetched(lib, start, steps, id, Waiting(q, job.cfg))
  {
    hide Asks, Began, Chose;
    assert Asked(lib, start, steps, id, q, job.cfg, job.rules, job.name, job.qtype);
  }

  lemma HitIsFetched(lib: Library, start: World, steps: seq<Step>, v: World, w: World, id: nat)
    requires AllFetched(lib, start, steps, v) && |w.log| == |v.log| + 1 && w.jobs == v.jobs
    requires w.log[..|v.log|] == v.log && w.log[|v.log|].Hit?
    requires var hit := w.log[|v.log|]; Fetched(lib, start, steps, id, Looking(hit.rules, hit.cfg, hit.name, hit.qtype))
    ensures AllFetched(lib, start, steps, w)
  {
    hide Fetched, KeptFetched;
    forall i | 0 <= i < |w.log| && w.log[i].Hit? ensures HitFetched(lib, start, steps, w.log[i]) {
      if i < |v.log| { assert w.log[i] == v.log[i]; }
    }
    assert forall i :: 0 <= i < |v.log| ==> w.log[i] == v.log[i];
  }

  lemma {:induction false} ReachedFetched(lib: Library, start: World, steps: seq<Step>, w: World)
    requires Reaches(lib, start, steps, w)
    ensures AllFetched(lib, start, steps, w)
  {
    hide AllFetched, Reaches, Enabled, Apply;
    if steps == [] {
      NothingFetched(lib, start, w);
    } else {
      var before, last := steps[..|steps| - 1], steps[|steps| - 1];
      var v := LastStep(lib, start, steps, w);
      ReachedFetched(lib, start, before, v);
      assert steps == before + [last];
      StepFetches(lib, start, before, v, last);
    }
  }

  lemma NothingFetched(lib: Library, start: World, w: World)
    requires Reaches(lib, start, [], w)
    ensures AllFetched(lib, start, [], w)
  {
  }

  lemma LastStep(lib: Library, start: World, steps: seq<Step>, w: World) returns (v: World)
    requires steps != [] && Reaches(lib, start, steps, w)
    ensures var before, last := steps[..|steps| - 1], steps[|steps| - 1];
            Reaches(lib, start, before, v) && Enabled(lib, v, last) && v.cache.max >= 1 && w == Apply(lib, v, last)
  {
    var before, last := steps[..|steps| - 1], steps[|steps| - 1];
    v :| Reaches(lib, start, before, v) && Enabled(lib, v, last) && v.cache.max >= 1 && w == Apply(lib, v, last);
  }

  /** The rules and the configuration a hit was served under are those that held
      when its query read them, the configuration first. */
  lemma {:induction false} HitReadTheWorld(lib: Library, start: World, steps: seq<Step>, w: World, i: nat)
      returns (id: nat, n: nat, m: nat)
    requires Reaches(lib, start, steps, w)
    requires i < |w.log| && w.log[i].Hit?
    ensures var hit := w.log[i];
            n < m && Began(lib, start, steps, id, hit.cfg, hit.name, hit.qtype, n) &&
              Chose(lib, start, steps, id, hit.rules, m)
  {
    ReachedFetched(lib, start, steps, w);
    hide Began, Chose, Reaches;
    var hit := w.log[i];
    assert HitFetched(lib, start, steps, hit);
    id :| Fetched(lib, start, steps, id, Looking(hit.rules, hit.cfg, hit.name, hit.qtype));
    n, m :| n < m && Began(lib, start, steps, id, hit.cfg, hit.name, hit.qtype, n) &&
      Chose(lib, start, steps, id, hit.rules, m);
  }

  /** Whatever is kept is a reply to a question that a query had asked under the
      configuration and the rules that held when it read them, and is kept for
      as long as that configuration says. */
  lemma {:induction false} KeptWasAsked(lib: Library, start: World, steps: seq<Step>, w: World, i: nat)
      returns (id: nat, n: nat, m: nat, cfg: Config, rules: seq<Rule>)
    requires Reaches(lib, start, steps, w)
    requires i < |w.log| && w.log[i].Kept?
    ensures var Kept(q, packet, lifetime, _) := w.log[i];
            && Asks(lib, cfg, rules, q.name, q.qtype, q)
            && n < m && Began(lib, start, steps, id, cfg, q.name, q.qtype, n) && Chose(lib, start, steps, id, rules, m)
            && lifetime == Lifetime(cfg, packet.answers)
  {
    hide Began, Chose, Reaches, Lifetime;
    ReachedFetched(lib, start, steps, w);
    var kept := w.log[i];
    assert KeptFetched(lib, start, steps, kept);
    id, cfg :| Fetched(lib, start, steps, id, Waiting(kept.q, cfg))
      && kept.lifetime == Lifetime(cfg, kept.packet.answers);
    var name, qtype;
    rules, name, qtype :| Asked(lib, start, steps, id, kept.q, cfg, rules, name, qtype);
    n, m :| n < m && Began(lib, start, steps, id, cfg, name, qtype, n) && Chose(lib, start, steps, id, rules, m);
  }

  // ---- Validated rules are plain ------------------------------------------

  /** Rules that pass validation have upstreams that keys can tell apart. */
  lemma ValidIsPlain(net: Import.Addresses, rules: seq<Rule>)
    requires Sensible(net.parsers) && forall r :: r in rules ==> Import.Problems(net, r) == []
    ensures PlainRules(rules)
  {
    forall r | r in rules ensures r.upstream == "" || PlainUpstreams([r.upstream]) {
      Import.NoProblems(net, r);
    }
  }

  /** So do those a store takes in by edits with such rules. */
  lemma EditKeepsPlain(net: Import.Addresses, rules: seq<Rule>, edit: RuleStore.Edit)
    requires Sensible(net.parsers) && PlainRules(rules)
    requires !edit.Remove? ==> Import.Problems(net, edit.rule) == []
    ensures PlainRules(RuleStore.Apply(rules, edit))
  {
    if !edit.Remove? {
      Import.NoProblems(net, edit.rule);
      hide Import.Problems;
    }
  }
}
