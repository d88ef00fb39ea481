/** One Resolve as a run of the machine: its reads, its lookup and its store are
    steps, and what it serves from the cache is the hit that the run logs. */
module ResolveRuns {
  import opened Basics
  import opened Rules
  import opened CacheSteps
  import opened ResolverSteps
  import opened Soundness

  lemma OneMore(lib: Library, start: World, steps: seq<Step>, w: World, step: Step)
    requires Reaches(lib, start, steps, w) && Enabled(lib, w, step) && w.cache.max >= 1
    ensures Reaches(lib, start, steps + [step], Apply(lib, w, step))
  {
    assert (steps + [step])[..|steps|] == steps;
  }

  /** What a Resolve may read: clean configurations and validated rules at every
      depth, and a clock that goes on. */
  ghost predicate Readable(x: Inputs, w: World) {
    && (forall d: nat :: PlainRules(x.rules(d)) && PlainConfig(x.cfg(d)))
    && w.clock <= x.lookupAt <= x.storeAt && w.cache.max >= 1
  }

  lemma JobGone(jobs: map<nat, Job>, id: nat, a: Job, b: Job)
    requires id !in jobs
    ensures jobs[id := a] - {id} == jobs
    ensures jobs[id := a][id := b] == jobs[id := b]
  {
  }

  /** The world as the question of depth `d` finds it. */
  function Edited(x: Inputs, d: nat, w: World): World {
    w.(cfg := x.cfg(d), rules := x.rules(d))
  }

  function JobAt(x: Inputs, d: nat, name: string, qtype: nat): Job {
    Looking(x.rules(d), x.cfg(d), name, qtype)
  }

  /** The steps in which others edit and the query reads. */
  function ReadSteps(x: Inputs, d: nat, id: nat, name: string, qtype: nat): seq<Step> {
    [EditConfig(x.cfg(d)), Begin(id, name, qtype), EditRules(x.rules(d)), Choose(id)]
  }

  lemma ReadIsReached(x: Inputs, d: nat, start: World, steps: seq<Step>, w: World, id: nat, name: string, qtype: nat)
    requires Reaches(x.lib, start, steps, w) && Readable(x, w) && id !in w.jobs
    requires !IsFixed(BestAt(x, d, name, qtype))
    ensures var e := Edited(x, d, w);
            Reaches(x.lib, start, steps + ReadSteps(x, d, id, name, qtype),
                    e.(jobs := w.jobs[id := JobAt(x, d, name, qtype)]))
  {
    hide Reaches, Best, PlainRules, PlainConfig;
    var reading := Reading(x.cfg(d), name, qtype);
    var w1 := w.(cfg := x.cfg(d));
    var w2 := w1.(jobs := w.jobs[id := reading]);
    var w3 := w2.(rules := x.rules(d));
    OneMore(x.lib, start, steps, w, EditConfig(x.cfg(d)));
    OneMore(x.lib, start, steps + [EditConfig(x.cfg(d))], w1, Begin(id, name, qtype));
    OneMore(x.lib, start, steps + [EditConfig(x.cfg(d))] + [Begin(id, name, qtype)], w2, EditRules(x.rules(d)));
    OneMore(x.lib, start, steps + [EditConfig(x.cfg(d))] + [Begin(id, name, qtype)] + [EditRules(x.rules(d))], w3,
            Choose(id));
    JobGone(w.jobs, id, reading, JobAt(x, d, name, qtype));
    assert steps + [EditConfig(x.cfg(d))] + [Begin(id, name, qtype)] + [EditRules(x.rules(d))] + [Choose(id)]
      == steps + ReadSteps(x, d, id, name, qtype);
  }

  /** The steps in which others edit and a query's fixed rule answers it. */
  function LinkSteps(x: Inputs, d: nat, id: nat, name: string, qtype: nat): (steps: seq<Step>)
    ensures |steps| == 4
  {
    [EditConfig(x.cfg(d)), Begin(id, name, qtype), EditRules(x.rules(d)), Settle(id)]
  }

  lemma LinkIsReached(x: Inputs, d: nat, start: World, steps: seq<Step>, w: World, id: nat, name: string, qtype: nat)
    requires Reaches(x.lib, start, steps, w) && Readable(x, w) && id !in w.jobs
    requires IsFixed(BestAt(x, d, name, qtype))
    ensures Reaches(x.lib, start, steps + LinkSteps(x, d, id, name, qtype), Edited(x, d, w))
    ensures Readable(x, Edited(x, d, w))
  {
    hide Reaches, Best, PlainRules, PlainConfig;
    var reading := Reading(x.cfg(d), name, qtype);
    var w1 := w.(cfg := x.cfg(d));
    var w2 := w1.(jobs := w.jobs[id := reading]);
    var w3 := w2.(rules := x.rules(d));
    OneMore(x.lib, start, steps, w, EditConfig(x.cfg(d)));
    OneMore(x.lib, start, steps + [EditConfig(x.cfg(d))], w1, Begin(id, name, qtype));
    OneMore(x.lib, start, steps + [EditConfig(x.cfg(d))] + [Begin(id, name, qtype)], w2, EditRules(x.rules(d)));
    OneMore(x.lib, start, steps + [EditConfig(x.cfg(d))] + [Begin(id, name, qtype)] + [EditRules(x.rules(d))], w3,
            Settle(id));
    JobGone(w.jobs, id, reading, reading);
    assert steps + [EditConfig(x.cfg(d))] + [Begin(id, name, qtype)] + [EditRules(x.rules(d))] + [Settle(id)]
      == steps + LinkSteps(x, d, id, name, qtype);
  }

  /** The steps of all links of a chase, in order. */
  function ChaseSteps(x: Inputs, d: nat, id: nat, name: string, qtype: nat, targets: seq<string>): (steps: seq<Step>)
    ensures |steps| == 4 * |targets|
    decreases |targets|
  {
    if targets == [] then []
    else LinkSteps(x, d, id, name, qtype) + ChaseSteps(x, d + 1, id, targets[0], qtype, targets[1..])
  }

  lemma MoreLinks(x: Inputs, d: nat, id: nat, name: string, qtype: nat, target: string, targets: seq<string>,
                  steps: seq<Step>)
    ensures steps + ChaseSteps(x, d, id, name, qtype, [target] + targets) ==
            steps + LinkSteps(x, d, id, name, qtype) + ChaseSteps(x, d + 1, id, target, qtype, targets)
  {
    hide LinkSteps;
    assert ([target] + targets)[1..] == targets;
  }

  lemma {:induction false} LinkAt(x: Inputs, d: nat, id: nat, name: string, qtype: nat, targets: seq<string>, i: nat)
    requires i < |targets|
    ensures ChaseSteps(x, d, id, name, qtype, targets)[4 * i..4 * i + 4] ==
            LinkSteps(x, d + i, id, At(name, targets, i), qtype)
    decreases |targets|
  {
    hide LinkSteps;
    var first := LinkSteps(x, d, id, name, qtype);
    var rest := ChaseSteps(x, d + 1, id, targets[0], qtype, targets[1..]);
    if i > 0 {
      LinkAt(x, d + 1, id, targets[0], qtype, targets[1..], i - 1);
      assert At(name, targets, i) == At(targets[0], targets[1..], i - 1);
      assert (first + rest)[4 * i..4 * i + 4] == rest[4 * (i - 1)..4 * (i - 1) + 4];
    }
  }

  /** The world after the lookup. */
  function Asked(x: Inputs, d: nat, w: World, id: nat, name: string, qtype: nat): World {
    var job := JobAt(x, d, name, qtype);
    Look(x.lib, Edited(x, d, w).(jobs := w.jobs[id := job]), id, job, x.lookupAt)
  }

  lemma AskedIsReached(x: Inputs, d: nat, start: World, steps: seq<Step>, w: World, id: nat, name: string, qtype: nat)
    requires Reaches(x.lib, start, steps, w) && Readable(x, w) && id !in w.jobs
    requires !IsFixed(BestAt(x, d, name, qtype))
    ensures Reaches(x.lib, start, steps + ReadSteps(x, d, id, name, qtype) + [Lookup(id, x.lookupAt)],
                    Asked(x, d, w, id, name, qtype))
  {
    ReadIsReached(x, d, start, steps, w, id, name, qtype);
    hide Reaches, Look, ReadSteps;
    OneMore(x.lib, start, steps + ReadSteps(x, d, id, name, qtype),
            Edited(x, d, w).(jobs := w.jobs[id := JobAt(x, d, name, qtype)]), Lookup(id, x.lookupAt));
  }

  function HitAt(x: Inputs, d: nat, name: string, qtype: nat, packet: Packet): Event {
    Hit(x.rules(d), x.cfg(d), name, qtype, packet, x.lookupAt)
  }

  lemma AskedHit(x: Inputs, d: nat, w: World, id: nat, name: string, qtype: nat)
    requires w.cache.max >= 1 && id !in w.jobs
    requires Forwarded(x, d, w.cache, name, qtype).sent == []
    ensures var o := Forwarded(x, d, w.cache, name, qtype);
            && o.answer.Some? && o.cache.hits == w.cache.hits + 1
            && Asked(x, d, w, id, name, qtype) ==
                 Edited(x, d, w).(cache := o.cache, clock := x.lookupAt,
                                  log := w.log + [HitAt(x, d, name, qtype, o.answer.value.packet)])
  {
    var job := JobAt(x, d, name, qtype);
    JobGone(w.jobs, id, job, job);
    hide Best, Key, UpstreamsFor, Label, Stored, Served;
  }

  lemma AskedMiss(x: Inputs, d: nat, w: World, id: nat, name: string, qtype: nat)
    requires w.cache.max >= 1 && id !in w.jobs
    requires Forwarded(x, d, w.cache, name, qtype).sent != []
    ensures var o := Forwarded(x, d, w.cache, name, qtype);
            var asked := Asked(x, d, w, id, name, qtype);
            var waiting := Waiting(o.sent[0], x.cfg(d));
            && o.cache.hits == w.cache.hits
            && asked == Edited(x, d, w).(cache := asked.cache, clock := x.lookupAt, jobs := w.jobs[id := waiting])
            && asked.cache.max == w.cache.max
            && Take(asked.(jobs := w.jobs, clock := x.storeAt), waiting, x.reply, x.storeAt).cache == o.cache
  {
    var job := JobAt(x, d, name, qtype);
    var key := Key(QuestionAt(x, d, name, qtype));
    JobGone(w.jobs, id, job, Waiting(QuestionAt(x, d, name, qtype), x.cfg(d)));
    assert GetStep(w.cache, key, x.lookupAt).0.max == w.cache.max;
    hide Best, Key, UpstreamsFor, Label, Lifetime, Cacheable, Accepted, Served;
  }

  /** An arrival adds no hit to the log. */
  lemma TakeLogsNoHit(w: World, job: Job, reply: Reply, now: int)
    requires job.Waiting? && w.cache.max >= 1
    ensures var after := Take(w, job, reply, now);
            after.jobs == w.jobs && after.clock == w.clock && NoHitSince(w.log, after.log)
  {
  }

  ghost predicate NoHitSince(before: seq<Event>, after: seq<Event>) {
    before <= after && forall i :: |before| <= i < |after| ==> !after[i].Hit?
  }

  /** A query with no fixed rule is its reads, its lookup and, on a miss, an arrival. */
  lemma {:induction false} ForwardedIsRun(x: Inputs, d: nat, start: World, steps: seq<Step>, w: World, id: nat,
                                          name: string, qtype: nat)
      returns (more: seq<Step>, after: World)
    requires Reaches(x.lib, start, steps, w) && Readable(x, w) && id !in w.jobs
    requires !IsFixed(BestAt(x, d, name, qtype))
    ensures Reaches(x.lib, start, more, after) && after.jobs == w.jobs
    ensures var o := Forwarded(x, d, w.cache, name, qtype);
            && more == steps + ReadSteps(x, d, id, name, qtype) + [Lookup(id, x.lookupAt)]
                       + (if o.sent == [] then [] else [Arrive(id, x.reply, x.storeAt)])
            && after.cache == o.cache
            && (o.sent == [] ==>
                 && o.answer.Some? && o.cache.hits == w.cache.hits + 1
                 && after.log == w.log + [HitAt(x, d, name, qtype, o.answer.value.packet)])
            && (o.sent != [] ==> o.cache.hits == w.cache.hits && NoHitSince(w.log, after.log))
  {
    hide Reaches, Best, Forwarded, Asked, Take, ReadSteps, HitAt, NoHitSince;
    AskedIsReached(x, d, start, steps, w, id, name, qtype);
    more := steps + ReadSteps(x, d, id, name, qtype) + [Lookup(id, x.lookupAt)];
    after := Asked(x, d, w, id, name, qtype);
    var o := Forwarded(x, d, w.cache, name, qtype);
    if o.sent == [] {
      AskedHit(x, d, w, id, name, qtype);
    } else {
      AskedMiss(x, d, w, id, name, qtype);
      var waiting := Waiting(o.sent[0], x.cfg(d));
      JobGone(w.jobs, id, waiting, waiting);
      var arrive := Arrive(id, x.reply, x.storeAt);
      OneMore(x.lib, start, more, after, arrive);
      TakeLogsNoHit(after.(jobs := w.jobs, clock := x.storeAt), waiting, x.reply, x.storeAt);
      more, after := more + [arrive], Apply(x.lib, after, arrive);
    }
  }

  /** The answer was served from the cache: its own rule-made CNAMEs, if any, and
      then exactly the answers of this hit, for the name the chase had reached
      and under the rules and configuration read there. */
  ghost predicate ServedBy(x: Inputs, d: nat, name: string, qtype: nat, answer: Option<Answer>,
                           targets: seq<string>, links: seq<Record>, hit: Event) {
    && hit.Hit? && answer.Some? && answer.value.packet.rcode == SUCCESS
    && Chain(x, d, name, qtype, targets, links)
    && answer.value.packet.answers == links + hit.packet.answers
    && (targets == [] ==> answer.value.packet == hit.packet)
    && hit == HitAt(x, d + |targets|, At(name, targets, |targets|), qtype, hit.packet)
  }

  lemma ServedDirectly(x: Inputs, d: nat, name: string, qtype: nat, answer: Answer)
    requires answer.packet.rcode == SUCCESS
    ensures ServedBy(x, d, name, qtype, Some(answer), [], [], HitAt(x, d, name, qtype, answer.packet))
  {
  }

  lemma ServedThrough(x: Inputs, d: nat, name: string, qtype: nat, m: Match, extra: Option<Answer>,
                      targets: seq<string>, links: seq<Record>, hit: Event)
    requires BestAt(x, d, name, qtype) == Some(m) && m.rule.mode == "fixed" && m.rule.rtype == "CNAME"
    requires var target := NormalizeDomain(m.rule.value);
             ServedBy(x, d + 1, target, qtype, extra, targets, links, hit)
    ensures var target, link := NormalizeDomain(m.rule.value), CnameRecord(x.lib, m.rule, name);
            ServedBy(x, d, name, qtype, Some(FixedAnswer(m, [link] + PassedOn(extra))), [target] + targets,
                     [link] + links, hit)
  {
    var target, link := NormalizeDomain(m.rule.value), CnameRecord(x.lib, m.rule, name);
    hide BestAt, NormalizeDomain, CnameRecord, Label;
    LinkIsLinked(x, d, name, qtype);
    LinksGrow(x, d, name, qtype, target, link, targets, links);
    hide Chain;
    assert At(name, [target] + targets, |targets| + 1) == At(target, targets, |targets|);
    assert [link] + (links + hit.packet.answers) == [link] + links + hit.packet.answers;
  }

  /** A Resolve from `w` with outcome `o` is a run that ends in `after`: it counts
      a hit exactly when the run logs one, and that is what it serves. */
  ghost predicate Tells(x: Inputs, d: nat, name: string, qtype: nat, o: Outcome, w: World, after: World,
                        targets: seq<string>, links: seq<Record>) {
    && after.cache == o.cache
    && (o.cache.hits == w.cache.hits ==> NoHitSince(w.log, after.log))
    && (o.cache.hits != w.cache.hits ==>
         && o.cache.hits == w.cache.hits + 1 && |after.log| == |w.log| + 1 && w.log <= after.log
         && ServedBy(x, d, name, qtype, o.answer, targets, links, after.log[|w.log|]))
  }

  lemma ForwardedTells(x: Inputs, start: World, steps: seq<Step>, w: World, id: nat,
                       name: string, qtype: nat, d: nat, visited: set<string>)
      returns (more: seq<Step>, after: World)
    requires Reaches(x.lib, start, steps, w) && Readable(x, w) && id !in w.jobs
    requires !IsFixed(BestAt(x, d, name, qtype))
    ensures Reaches(x.lib, start, more, after) && after.jobs == w.jobs && steps <= more
    ensures w.cache.max >= 1 && Tells(x, d, name, qtype, Resolve(x, w.cache, name, qtype, d, visited), w, after, [], [])
  {
    assert w.cache.max >= 1;
    more, after := ForwardedIsRun(x, d, start, steps, w, id, name, qtype);
    hide BestAt, Forwarded, Reaches, ServedBy, HitAt, Readable, NoHitSince;
    var o := Forwarded(x, d, w.cache, name, qtype);
    if o.sent == [] {
      HitSucceeds(x, d, start, more, after, |w.log|, name, qtype, o.answer.value.packet);
      ServedDirectly(x, d, name, qtype, o.answer.value);
    }
  }

  predicate Chases(m: Match, qtype: nat, d: nat, visited: set<string>) {
    m.rule.rtype == "CNAME" && qtype != TYPE_CNAME && d < MAX_CNAME_DEPTH && NormalizeDomain(m.rule.value) !in visited
  }

  /** A fixed rule either leaves the cache alone or hands on to its target. */
  lemma FixedHandsOn(x: Inputs, cache: CacheState<Packet>, name: string, qtype: nat, d: nat, visited: set<string>,
                     m: Match)
    requires cache.max >= 1 && BestAt(x, d, name, qtype) == Some(m) && m.rule.mode == "fixed"
    ensures var o := Resolve(x, cache, name, qtype, d, visited);
            if Chases(m, qtype, d, visited) then
              var target := NormalizeDomain(m.rule.value);
              var extra := Resolve(x, cache, target, qtype, d + 1, visited + {target});
              && o.cache == extra.cache
              && o.answer == Some(FixedAnswer(m, [CnameRecord(x.lib, m.rule, name)] + PassedOn(extra.answer)))
            else o.cache == cache
  {
    hide BestAt, NormalizeDomain, CnameRecord, FixedRecords, FixedAnswer, PassedOn, Forwarded;
  }

  lemma ChaseTells(x: Inputs, w: World, after: World, name: string, qtype: nat, d: nat, visited: set<string>, m: Match,
                   targets: seq<string>, links: seq<Record>)
    requires w.cache.max >= 1 && BestAt(x, d, name, qtype) == Some(m) && m.rule.mode == "fixed"
    requires Chases(m, qtype, d, visited)
    requires var target := NormalizeDomain(m.rule.value);
             Tells(x, d + 1, target, qtype, Resolve(x, w.cache, target, qtype, d + 1, visited + {target}), w, after,
                   targets, links)
    ensures Tells(x, d, name, qtype, Resolve(x, w.cache, name, qtype, d, visited), w, after,
                  [NormalizeDomain(m.rule.value)] + targets, [CnameRecord(x.lib, m.rule, name)] + links)
  {
    assert m.rule.rtype == "CNAME";
    hide BestAt, NormalizeDomain, CnameRecord, FixedAnswer, PassedOn, Resolve, ServedBy, NoHitSince, Chases;
    var target := NormalizeDomain(m.rule.value);
    var extra := Resolve(x, w.cache, target, qtype, d + 1, visited + {target});
    FixedHandsOn(x, w.cache, name, qtype, d, visited, m);
    if extra.cache.hits != w.cache.hits {
      ServedThrough(x, d, name, qtype, m, extra.answer, targets, links, after.log[|w.log|]);
    }
  }

  /** What one Resolve does to the cache is what some run of steps does, each
      link of its chase being four of them, and what it serves from the cache is
      the hit that run logs. */
  lemma {:induction false} ResolveIsRun(x: Inputs, start: World, steps: seq<Step>, w: World, id: nat,
                                        name: string, qtype: nat, d: nat, visited: set<string>)
      returns (more: seq<Step>, after: World, targets: seq<string>, links: seq<Record>)
    requires Reaches(x.lib, start, steps, w) && Readable(x, w) && id !in w.jobs
    ensures Reaches(x.lib, start, more, after) && after.jobs == w.jobs
    ensures steps + ChaseSteps(x, d, id, name, qtype, targets) <= more
    ensures w.cache.max >= 1
      && Tells(x, d, name, qtype, Resolve(x, w.cache, name, qtype, d, visited), w, after, targets, links)
    decreases Max(0, MAX_CNAME_DEPTH - d)
  {
    hide *;
    HasRoom(x, w);
    targets, links := [], [];
    NoLinks(x, d, id, name, qtype);
    var found := BestAt(x, d, name, qtype);
    if !IsFixed(found) {
      more, after := ForwardedTells(x, start, steps, w, id, name, qtype, d, visited);
      return;
    }
    FixedIsMatch(found);
    LinkIsReached(x, d, start, steps, w, id, name, qtype);
    more, after := steps + LinkSteps(x, d, id, name, qtype), Edited(x, d, w);
    EditedIs(x, d, w);
    if !Chases(found.value, qtype, d, visited) {
      QuietTells(x, w, name, qtype, d, visited, found.value);
    } else {
      var m := found.value;
      var target := NormalizeDomain(m.rule.value);
      ChasesDeeper(m, qtype, d, visited);
      var edited, linked, now := after, more, visited + {target};
      more, after, targets, links := ResolveIsRun(x, start, linked, edited, id, target, qtype, d + 1, now);
      var inner := Resolve(x, w.cache, target, qtype, d + 1, now);
      TellsFrom(x, d + 1, target, qtype, inner, w, edited, after, targets, links);
      ChaseTells(x, w, after, name, qtype, d, visited, m, targets, links);
      MoreLinks(x, d, id, name, qtype, target, targets, steps);
      targets, links := [target] + targets, [CnameRecord(x.lib, m.rule, name)] + links;
    }
  }

  lemma NoLinks(x: Inputs, d: nat, id: nat, name: string, qtype: nat)
    ensures ChaseSteps(x, d, id, name, qtype, []) == []
    ensures forall steps: seq<Step> :: steps + [] == steps
  {
  }

  lemma EditedIs(x: Inputs, d: nat, w: World)
    ensures var e := Edited(x, d, w); e.cache == w.cache && e.log == w.log && e.jobs == w.jobs
  {
  }

  /** Edits do not show in what is told. */
  lemma TellsFrom(x: Inputs, d: nat, name: string, qtype: nat, o: Outcome, w: World, edited: World, after: World,
                  targets: seq<string>, links: seq<Record>)
    requires edited.cache == w.cache && edited.log == w.log
    requires Tells(x, d, name, qtype, o, edited, after, targets, links)
    ensures Tells(x, d, name, qtype, o, w, after, targets, links)
  {
  }

  lemma HasRoom(x: Inputs, w: World)
    requires Readable(x, w)
    ensures w.cache.max >= 1
  {
  }

  lemma FixedIsMatch(found: Option<Match>)
    requires IsFixed(found)
    ensures found.Some? && found.value.rule.mode == "fixed"
  {
  }

  lemma ChasesDeeper(m: Match, qtype: nat, d: nat, visited: set<string>)
    requires Chases(m, qtype, d, visited)
    ensures Max(0, MAX_CNAME_DEPTH - d) > Max(0, MAX_CNAME_DEPTH - (d + 1)) >= 0
  {
  }

  lemma QuietTells(x: Inputs, w: World, name: string, qtype: nat, d: nat, visited: set<string>, m: Match)
    requires w.cache.max >= 1 && BestAt(x, d, name, qtype) == Some(m) && m.rule.mode == "fixed"
    requires !Chases(m, qtype, d, visited)
    ensures Tells(x, d, name, qtype, Resolve(x, w.cache, name, qtype, d, visited), w, Edited(x, d, w), [], [])
  {
    FixedHandsOn(x, w.cache, name, qtype, d, visited, m);
    hide BestAt, Resolve, ServedBy, Chases;
  }

  lemma HitSucceeds(x: Inputs, d: nat, start: World, steps: seq<Step>, w: World, i: nat,
                    name: string, qtype: nat, packet: Packet)
    requires Reaches(x.lib, start, steps, w) && i < |w.log| && w.log[i] == HitAt(x, d, name, qtype, packet)
    ensures packet.rcode == SUCCESS
  {
    EveryHitIsSound(x.lib, start, steps, w, i);
    hide Reaches, Best, QuestionFor, Latest;
  }

  // ---- The links of a chase read the world as well ------------------------

  /** Step `m` answered query `id` from a fixed rule of `rules`, which were the rules. */
  ghost predicate Settled(lib: Library, start: World, steps: seq<Step>, id: nat, rules: seq<Rule>, m: nat) {
    m < |steps| && steps[m] == Settle(id) && exists v :: Reaches(lib, start, steps[..m], v) && v.rules == rules
  }

  /** The world just after step `k - 1` of a run. */
  lemma {:induction false} Midway(lib: Library, start: World, steps: seq<Step>, w: World, k: nat)
      returns (v: World)
    requires Reaches(lib, start, steps, w) && 0 < k <= |steps|
    ensures Reaches(lib, start, steps[..k], v)
    ensures steps[k - 1].EditConfig? ==> v.cfg == steps[k - 1].cfg
    ensures steps[k - 1].EditRules? ==> v.rules == steps[k - 1].rules
    decreases |steps|
  {
    hide Reaches, Enabled;
    var u := LastStep(lib, start, steps, w);
    if k == |steps| {
      assert steps[..k] == steps;
      v := w;
    } else {
      assert steps[..|steps| - 1][..k] == steps[..k];
      v := Midway(lib, start, steps[..|steps| - 1], u, k);
    }
  }

  /** Each link of a chase was made under rules and a configuration that the
      world had when the query read them, in the order of the links. */
  lemma LinkReadTheWorld(x: Inputs, start: World, steps: seq<Step>, more: seq<Step>, after: World, id: nat,
                         name: string, qtype: nat, d: nat, targets: seq<string>, i: nat)
    requires Reaches(x.lib, start, more, after) && i < |targets|
    requires steps + ChaseSteps(x, d, id, name, qtype, targets) <= more
    ensures Began(x.lib, start, more, id, x.cfg(d + i), At(name, targets, i), qtype, |steps| + 4 * i + 1)
    ensures Settled(x.lib, start, more, id, x.rules(d + i), |steps| + 4 * i + 3)
  {
    hide Reaches, ChaseSteps, At;
    var at := |steps| + 4 * i;
    LinkAt(x, d, id, name, qtype, targets, i);
    SliceWithin(steps, ChaseSteps(x, d, id, name, qtype, targets), more, 4 * i);
    var link := LinkSteps(x, d + i, id, At(name, targets, i), qtype);
    assert more[at] == link[0] && more[at + 1] == link[1] && more[at + 2] == link[2] && more[at + 3] == link[3];
    var v := Midway(x.lib, start, more, after, at + 1);
    var u := Midway(x.lib, start, more, after, at + 3);
  }

  lemma SliceWithin(steps: seq<Step>, chase: seq<Step>, more: seq<Step>, at: nat)
    requires steps + chase <= more && at + 4 <= |chase|
    ensures |steps| + at + 4 <= |more| && more[|steps| + at..|steps| + at + 4] == chase[at..at + 4]
  {
    assert more[..|steps| + |chase|] == steps + chase;
  }

  /** Whatever a Resolve serves from the cache, directly or at the end of a
      chase, is the latest reply kept for the question it came to, and the run
      that logs it makes the links it serves. */
  lemma {:induction false} ServedIsSound(x: Inputs, start: World, steps: seq<Step>, w: World, id: nat,
                                         name: string, qtype: nat)
      returns (more: seq<Step>, after: World, targets: seq<string>, links: seq<Record>, hit: Event)
    requires Reaches(x.lib, start, steps, w) && Readable(x, w) && id !in w.jobs
    requires Resolve(x, w.cache, name, qtype, 0, {}).cache.hits != w.cache.hits
    ensures Reaches(x.lib, start, more, after) && steps + ChaseSteps(x, 0, id, name, qtype, targets) <= more
    ensures after.log == w.log + [hit]
    ensures ServedBy(x, 0, name, qtype, Resolve(x, w.cache, name, qtype, 0, {}).answer, targets, links, hit)
    ensures SoundHit(x.lib, w.log, hit)
  {
    hide Resolve, Reaches, SoundHit, Readable, ChaseSteps;
    more, after, targets, links := ResolveIsRun(x, start, steps, w, id, name, qtype, 0, {});
    hit := after.log[|w.log|];
    assert after.log[..|w.log|] == w.log;
    EveryHitIsSound(x.lib, start, more, after, |w.log|);
  }
}
