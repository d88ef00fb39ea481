/** The query history: a bounded log trimmed in place, running counters,
    newest-first search, and what a restart keeps. */
module History {
  import opened Basics
  import opened Text

  datatype Entry = Entry(time: int, sequence: nat, client: string, domain: string, qtype: string, source: string,
                         rcode: int, latencyMs: int, answers: string, rule: string, upstream: string, error: string)

  datatype Stats = Stats(startedAt: int, total: nat, fixed: nat, cache: nat, forward: nat, servfail: nat, nxdomain: nat,
                         totalLatencyMs: int, forwardLatencyMs: int)

  datatype Filter = Filter(limit: int, domain: string, source: string, status: string, qtype: string, client: string,
                           rule: string, since: int, until: int)

  /** Retention is in milliseconds; zero or less keeps entries of any age. */
  datatype State = State(max: nat, retention: int, entries: seq<Entry>, sequence: nat, stats: Stats)

  const DAY: int := 24 * 60 * 60 * 1000

  // ---- Steps -------------------------------------------------------------

  function Fresh(startedAt: int): Stats {
    Stats(startedAt, 0, 0, 0, 0, 0, 0, 0, 0)
  }

  function Count(s: Stats, e: Entry): Stats {
    s.(total := s.total + 1,
       totalLatencyMs := s.totalLatencyMs + e.latencyMs,
       fixed := if e.source == "fixed" then s.fixed + 1 else s.fixed,
       cache := if e.source == "cache" then s.cache + 1 else s.cache,
       forward := if e.source == "forward" then s.forward + 1 else s.forward,
       forwardLatencyMs := if e.source == "forward" then s.forwardLatencyMs + e.latencyMs else s.forwardLatencyMs,
       servfail := if e.rcode == 2 then s.servfail + 1 else s.servfail,
       nxdomain := if e.rcode == 3 then s.nxdomain + 1 else s.nxdomain)
  }

  /** The first position from `d` on whose entry is not older than `cutoff`. */
  function FirstYoung(entries: seq<Entry>, d: nat, cutoff: int): (r: nat)
    requires d <= |entries|
    ensures d <= r <= |entries|
    decreases |entries| - d
  {
    if d < |entries| && entries[d].time < cutoff then FirstYoung(entries, d + 1, cutoff) else d
  }

  function DropCount(s: State, now: int): (d: nat)
    ensures d <= |s.entries|
  {
    var over := Max(0, |s.entries| - s.max);
    if s.retention > 0 then FirstYoung(s.entries, over, now - s.retention) else over
  }

  function Trim(s: State, now: int): State {
    s.(entries := s.entries[DropCount(s, now)..])
  }

  function Stamped(s: State, e: Entry, now: int): Entry {
    e.(sequence := s.sequence + 1, time := if e.time == 0 then now else e.time)
  }

  function Recorded(s: State, e: Entry, now: int): State {
    var stamped := Stamped(s, e, now);
    Trim(s.(sequence := s.sequence + 1, entries := s.entries + [stamped], stats := Count(s.stats, stamped)), now)
  }

  function Cleared(s: State, now: int): State {
    s.(entries := [], stats := Fresh(now))
  }

  function Limited(s: State, maxEntries: int, days: int, now: int): State {
    Trim(s.(max := Max(1, maxEntries), retention := days * DAY), now)
  }

  function Empty(maxEntries: int, days: int, now: int): State {
    State(Max(1, maxEntries), days * DAY, [], 0, Fresh(now))
  }

  /** What is written to the file. */
  datatype Snapshot = Snapshot(entries: seq<Entry>, stats: Stats, sequence: nat)

  function Persisted(s: State): Snapshot {
    Snapshot(s.entries, s.stats, s.sequence)
  }

  function Restored(file: Snapshot, maxEntries: int, days: int, now: int): State {
    var stats := if file.stats.startedAt == 0 then file.stats.(startedAt := now) else file.stats;
    State(Max(1, maxEntries), days * DAY, file.entries, file.sequence, stats)
  }

  function Loaded(file: Snapshot, maxEntries: int, days: int, now: int): State {
    Trim(Restored(file, maxEntries, days, now), now)
  }

  /** Trimming drops the least prefix that meets the size bound and leaves a
      front entry young enough. */
  lemma {:induction false} FirstYoungIsLeast(entries: seq<Entry>, d: nat, cutoff: int)
    requires d <= |entries|
    ensures var r := FirstYoung(entries, d, cutoff);
            (r == |entries| || entries[r].time >= cutoff) && forall k :: d <= k < r ==> entries[k].time < cutoff
    decreases |entries| - d
  {
    if d < |entries| && entries[d].time < cutoff { FirstYoungIsLeast(entries, d + 1, cutoff); }
  }

  ghost predicate MeetsBounds(s: State, now: int, d: nat)
    requires d <= |s.entries|
  {
    |s.entries| - d <= s.max && (s.retention > 0 && d < |s.entries| ==> s.entries[d].time >= now - s.retention)
  }

  lemma TrimIsLeast(s: State, now: int, d: nat)
    requires d <= |s.entries|
    ensures MeetsBounds(s, now, DropCount(s, now))
    ensures MeetsBounds(s, now, d) ==> DropCount(s, now) <= d
  {
    var over := Max(0, |s.entries| - s.max);
    FirstYoungIsLeast(s.entries, over, now - s.retention);
  }

  // ---- Runs --------------------------------------------------------------

  datatype Op =
    | Record(e: Entry, now: int)
    | Reset(now: int)
    | SetLimits(maxEntries: int, days: int, now: int)
    | Restart(maxEntries: int, days: int, now: int)   // persist, stop, load

  function Do(s: State, op: Op): State {
    match op
    case Record(e, now) => Recorded(s, e, now)
    case Reset(now) => Cleared(s, now)
    case SetLimits(m, days, now) => Limited(s, m, days, now)
    case Restart(m, days, now) => Loaded(Persisted(s), m, days, now)
  }

  function Run(start: State, ops: seq<Op>): State {
    if ops == [] then start else Do(Run(start, ops[..|ops| - 1]), ops[|ops| - 1])
  }

  /** Everything recorded since the last Reset, trimmed or not. */
  function Log(start: State, ops: seq<Op>): seq<Entry> {
    if ops == [] then []
    else
      var before := Log(start, ops[..|ops| - 1]);
      match ops[|ops| - 1]
      case Record(e, now) => before + [Stamped(Run(start, ops[..|ops| - 1]), e, now)]
      case Reset(_) => []
      case _ => before
  }

  function Tally(startedAt: int, log: seq<Entry>): Stats {
    if log == [] then Fresh(startedAt) else Count(Tally(startedAt, log[..|log| - 1]), log[|log| - 1])
  }

  ghost predicate IsSuffix(s: seq<Entry>, t: seq<Entry>) {
    |s| <= |t| && s == t[|t| - |s|..]
  }

  /** Consecutive sequence numbers ending at `last`. */
  ghost predicate Numbered(s: seq<Entry>, last: nat) {
    |s| <= last && forall i :: 0 <= i < |s| ==> s[i].sequence == last - |s| + 1 + i
  }

  /** The store is a bounded view of the log. */
  ghost predicate Views(s: State, log: seq<Entry>) {
    IsSuffix(s.entries, log) && Numbered(log, s.sequence) && s.stats == Tally(s.stats.startedAt, log)
  }

  lemma TrimKeeps(s: State, now: int, log: seq<Entry>)
    requires Views(s, log)
    ensures Views(Trim(s, now), log) && |Trim(s, now).entries| <= s.max
  {
    TrimIsLeast(s, now, 0);
  }

  lemma {:induction false} TallyRestarts(a: int, b: int, log: seq<Entry>)
    ensures Tally(a, log).(startedAt := b) == Tally(b, log)
  {
    if log != [] { TallyRestarts(a, b, log[..|log| - 1]); }
  }

  lemma AppendKeeps(s: State, e: Entry, now: int, log: seq<Entry>)
    requires Views(s, log)
    ensures var stamped := Stamped(s, e, now);
            Views(s.(sequence := s.sequence + 1, entries := s.entries + [stamped], stats := Count(s.stats, stamped)),
                  log + [stamped])
  {
    var stamped := Stamped(s, e, now);
    assert (log + [stamped])[..|log|] == log;
  }

  lemma StepKeeps(s: State, op: Op, log: seq<Entry>)
    requires Views(s, log)
    ensures var after := (match op case Record(e, now) => log + [Stamped(s, e, now)] case Reset(_) => [] case _ => log);
            Views(Do(s, op), after)
  {
    hide Views, Trim, Count;
    match op
    case Record(e, now) =>
      AppendKeeps(s, e, now, log);
      var stamped := Stamped(s, e, now);
      TrimKeeps(s.(sequence := s.sequence + 1, entries := s.entries + [stamped], stats := Count(s.stats, stamped)),
                now, log + [stamped]);
    case Reset(now) =>
      ClearedViews(s, now);
    case SetLimits(m, days, now) =>
      LimitsViews(s, log, Max(1, m), days * DAY);
      TrimKeeps(s.(max := Max(1, m), retention := days * DAY), now, log);
    case Restart(m, days, now) =>
      RestartViews(s, log, m, days, now);
  }

  lemma ClearedViews(s: State, now: int)
    ensures Views(Cleared(s, now), [])
  {
  }

  lemma LimitsViews(s: State, log: seq<Entry>, max: nat, retention: int)
    requires Views(s, log)
    ensures Views(s.(max := max, retention := retention), log)
  {
  }

  lemma RestartViews(s: State, log: seq<Entry>, m: int, days: int, now: int)
    requires Views(s, log)
    ensures Views(Loaded(Persisted(s), m, days, now), log)
  {
    TallyRestarts(s.stats.startedAt, now, log);
    TrimKeeps(Restored(Persisted(s), m, days, now), now, log);
  }

  /** In every run the retained entries are a suffix of everything recorded since
      the last Reset, numbered consecutively up to the store's counter, and the
      counters are a fold over all of it, whatever was trimmed. */
  lemma {:induction false} RunIsViewOfLog(maxEntries: int, days: int, began: int, ops: seq<Op>)
    ensures var start := Empty(maxEntries, days, began); Views(Run(start, ops), Log(start, ops))
  {
    if ops != [] {
      RunIsViewOfLog(maxEntries, days, began, ops[..|ops| - 1]);
      var start := Empty(maxEntries, days, began);
      StepKeeps(Run(start, ops[..|ops| - 1]), ops[|ops| - 1], Log(start, ops[..|ops| - 1]));
    }
  }

  // ---- What the statistics count -----------------------------------------

  /** How many entries are such. */
  ghost function Number(log: seq<Entry>, such: Entry -> bool): nat {
    |set i | 0 <= i < |log| && such(log[i])|
  }

  function Sum(log: seq<Entry>, of: Entry -> int): int {
    if log == [] then 0 else Sum(log[..|log| - 1], of) + of(log[|log| - 1])
  }

  lemma NumberStep(log: seq<Entry>, such: Entry -> bool)
    ensures log == [] ==> Number(log, such) == 0
    ensures log != [] ==>
              Number(log, such) == Number(log[..|log| - 1], such) + if such(log[|log| - 1]) then 1 else 0
  {
    var all := set i | 0 <= i < |log| && such(log[i]);
    if log == [] {
      assert all == {};
    } else {
      var n := |log| - 1;
      var front := log[..n];
      var before := set i | 0 <= i < |front| && such(front[i]);
      assert all == if such(log[n]) then before + {n} else before;
    }
  }

  lemma {:induction false} NumberSame(log: seq<Entry>, such: Entry -> bool, other: Entry -> bool)
    requires forall e :: e in log ==> such(e) == other(e)
    ensures Number(log, such) == Number(log, other)
  {
    assert (set i | 0 <= i < |log| && such(log[i])) == (set i | 0 <= i < |log| && other(log[i]));
  }

  /** The statistics are numbers of entries, by source and by response code, and
      sums of latencies. */
  lemma {:induction false} TallyIs(startedAt: int, log: seq<Entry>)
    ensures var s := Tally(startedAt, log);
            && s.startedAt == startedAt && s.total == |log|
            && s.fixed == Number(log, (e: Entry) => e.source == "fixed")
            && s.cache == Number(log, (e: Entry) => e.source == "cache")
            && s.forward == Number(log, (e: Entry) => e.source == "forward")
            && s.servfail == Number(log, (e: Entry) => e.rcode == 2)
            && s.nxdomain == Number(log, (e: Entry) => e.rcode == 3)
            && s.totalLatencyMs == Sum(log, (e: Entry) => e.latencyMs)
            && s.forwardLatencyMs == Sum(log, (e: Entry) => if e.source == "forward" then e.latencyMs else 0)
  {
    hide Number;
    NumberStep(log, (e: Entry) => e.source == "fixed");
    NumberStep(log, (e: Entry) => e.source == "cache");
    NumberStep(log, (e: Entry) => e.source == "forward");
    NumberStep(log, (e: Entry) => e.rcode == 2);
    NumberStep(log, (e: Entry) => e.rcode == 3);
    if log != [] { TallyIs(startedAt, log[..|log| - 1]); }
  }

  /** A recorded entry takes the next number, and the time if it has none. */
  lemma RecordIs(s: State, e: Entry, now: int)
    ensures var stamped, after := Stamped(s, e, now), Recorded(s, e, now);
            && stamped.sequence == s.sequence + 1 == after.sequence
            && (e.time == 0 ==> stamped.time == now) && (e.time != 0 ==> stamped.time == e.time)
            && stamped.(sequence := e.sequence, time := e.time) == e
            && IsSuffix(after.entries, s.entries + [stamped])
  {
  }

  /** Limits are at least one entry, and whole days; a reset forgets all but
      them and the counter. */
  lemma LimitsAre(s: State, m: int, days: int, now: int)
    ensures var kept := if m < 1 then 1 else m;
            && Empty(m, days, now) == State(kept, days * 86_400_000, [], 0, Stats(now, 0, 0, 0, 0, 0, 0, 0, 0))
            && Limited(s, m, days, now) ==
               s.(max := kept, retention := days * 86_400_000, entries := Limited(s, m, days, now).entries)
            && Loaded(Persisted(s), m, days, now) ==
               State(kept, days * 86_400_000, Loaded(Persisted(s), m, days, now).entries, s.sequence,
                     s.stats.(startedAt := if s.stats.startedAt == 0 then now else s.stats.startedAt))
            && Cleared(s, now) == s.(entries := [], stats := Stats(now, 0, 0, 0, 0, 0, 0, 0, 0))
  {
  }

  // ---- Search ------------------------------------------------------------

  predicate Contains(s: string, part: string) {
    HasPrefix(s, part) || (s != "" && Contains(s[1..], part))
  }

  predicate Matches(f: Filter, e: Entry) {
    var domain := ToLower(TrimSpace(f.domain));
    && (domain != "" ==> Contains(e.domain, domain))
    && (f.source != "" ==> e.source == f.source)
    && (f.status == "ok" ==> e.rcode == 0)
    && (f.status == "fail" ==> e.rcode != 0)
    && (f.qtype != "" ==> e.qtype == f.qtype)
    && (f.client != "" ==> e.client == f.client)
    && (f.rule != "" ==> e.rule == f.rule || e.upstream == f.rule || e.error == f.rule)
    && (f.since > 0 ==> f.since <= e.time)
    && (f.until > 0 ==> e.time <= f.until)
  }

  function Reverse(entries: seq<Entry>): seq<Entry> {
    if entries == [] then [] else Reverse(entries[1..]) + [entries[0]]
  }

  function Select(f: Filter, entries: seq<Entry>): seq<Entry> {
    if entries == [] then []
    else
      var rest := Select(f, entries[..|entries| - 1]);
      var last := entries[|entries| - 1];
      if Matches(f, last) then rest + [last] else rest
  }

  function Limit(f: Filter): nat {
    if f.limit < 1 then 200 else f.limit
  }

  function Prefix(s: seq<Entry>, n: nat): seq<Entry> {
    if |s| <= n then s else s[..n]
  }

  /** Take-limit of filter of reverse. */
  function Found(entries: seq<Entry>, f: Filter): seq<Entry> {
    Prefix(Select(f, Reverse(entries)), Limit(f))
  }

  lemma SelectAppend(f: Filter, entries: seq<Entry>, e: Entry)
    ensures Select(f, entries + [e]) == Select(f, entries) + (if Matches(f, e) then [e] else [])
  {
    assert (entries + [e])[..|entries|] == entries;
  }

  lemma {:induction false} ReverseSplit(entries: seq<Entry>, i: nat)
    requires i <= |entries|
    ensures Reverse(entries) == Reverse(entries[i..]) + Reverse(entries[..i])
  {
    if i > 0 {
      ReverseSplit(entries[1..], i - 1);
      assert entries[1..][i - 1..] == entries[i..] && entries[..i][1..] == entries[1..][..i - 1];
    } else {
      assert entries[0..] == entries;
    }
  }

  lemma {:induction false} SelectStarts(f: Filter, a: seq<Entry>, b: seq<Entry>)
    ensures Select(f, a) <= Select(f, a + b)
  {
    if b == [] {
      assert a + b == a;
    } else {
      var n := |b| - 1;
      SelectStarts(f, a, b[..n]);
      assert a + b == (a + b[..n]) + [b[n]];
      SelectAppend(f, a + b[..n], b[n]);
    }
  }

  lemma {:induction false} ReverseMeaning(entries: seq<Entry>, i: nat)
    requires i < |entries|
    ensures |Reverse(entries)| == |entries| && Reverse(entries)[i] == entries[|entries| - 1 - i]
  {
    if |entries| > 1 {
      ReverseMeaning(entries[1..], if i < |entries| - 1 then i else 0);
    }
  }

  /** A scan from the back that stopped at the limit or at the front has found
      what was asked for. */
  lemma SearchEnds(f: Filter, entries: seq<Entry>, i: nat, out: seq<Entry>)
    requires i <= |entries| && |out| <= Limit(f) && out == Select(f, Reverse(entries[i..]))
    requires i == 0 || |out| == Limit(f)
    ensures out == Found(entries, f)
  {
    ReverseSplit(entries, i);
    SelectStarts(f, Reverse(entries[i..]), Reverse(entries[..i]));
    assert i == 0 ==> entries[i..] == entries;
    hide Select, Reverse;
  }

  /** `part` is in `s` at position `i`. */
  ghost predicate OccursAt(s: string, part: string, i: nat) {
    i + |part| <= |s| && s[i..i + |part|] == part
  }

  lemma {:induction false} ContainsIff(s: string, part: string)
    ensures Contains(s, part) <==> exists i: nat :: OccursAt(s, part, i)
  {
    if HasPrefix(s, part) {
      assert OccursAt(s, part, 0);
    } else if s != "" {
      ContainsIff(s[1..], part);
      if i: nat :| OccursAt(s[1..], part, i) {
        assert OccursAt(s, part, i + 1);
      }
      if i: nat :| OccursAt(s, part, i) {
        assert OccursAt(s[1..], part, i - 1);
      }
    }
  }

  /** An entry is passed over exactly when some part of the filter that is given
      does not fit it; the domain may be any part of a name, in any case. */
  lemma PassedOverIff(f: Filter, e: Entry)
    ensures var part := ToLower(TrimSpace(f.domain));
            !Matches(f, e) <==>
            || (part != "" && forall i: nat :: !OccursAt(e.domain, part, i))
            || (f.source != "" && e.source != f.source)
            || (f.status == "ok" && e.rcode != 0)
            || (f.status == "fail" && e.rcode == 0)
            || (f.qtype != "" && e.qtype != f.qtype)
            || (f.client != "" && e.client != f.client)
            || (f.rule != "" && e.rule != f.rule && e.upstream != f.rule && e.error != f.rule)
            || (f.since > 0 && e.time < f.since)
            || (f.until > 0 && e.time > f.until)
  {
    hide TrimSpace, ToLower, Contains, OccursAt;
    ContainsIff(e.domain, ToLower(TrimSpace(f.domain)));
  }

  lemma {:induction false} SelectIs(f: Filter, entries: seq<Entry>)
    ensures forall e :: e in Select(f, entries) <==> e in entries && Matches(f, e)
  {
    hide Matches;
    if entries != [] {
      var n := |entries| - 1;
      SelectIs(f, entries[..n]);
      assert entries == entries[..n] + [entries[n]];
    }
  }

  lemma {:induction false} ReverseHolds(entries: seq<Entry>)
    ensures forall e :: e in Reverse(entries) <==> e in entries
  {
    if entries != [] {
      ReverseHolds(entries[1..]);
      assert entries == [entries[0]] + entries[1..];
    }
  }

  /** Only entries that fit are found, all of them unless the limit, two hundred
      when none is asked for, was reached. */
  lemma FoundAre(entries: seq<Entry>, f: Filter)
    ensures var out, limit := Found(entries, f), if f.limit < 1 then 200 else f.limit;
            && |out| <= limit
            && (forall e :: e in out ==> e in entries && Matches(f, e))
            && (|out| < limit ==> forall e :: e in entries && Matches(f, e) ==> e in out)
  {
    hide Matches, Select, Reverse;
    SelectIs(f, Reverse(entries));
    ReverseHolds(entries);
  }

  // ---- The store ---------------------------------------------------------

  class Store {
    var max: nat
    var retention: int
    var entries: seq<Entry>
    var sequence: nat
    var stats: Stats

    ghost function View(): State
      reads this
    {
      State(max, retention, entries, sequence, stats)
    }

    constructor (maxEntries: int, retentionDays: int, now: int)
      ensures View() == Empty(maxEntries, retentionDays, now)
    {
      max := if maxEntries < 1 then 1 else maxEntries;
      retention := retentionDays * DAY;
      entries, sequence, stats := [], 0, Fresh(now);
    }

    constructor Load(file: Snapshot, maxEntries: int, retentionDays: int, now: int)
      ensures View() == Loaded(file, maxEntries, retentionDays, now)
    {
      max := if maxEntries < 1 then 1 else maxEntries;
      retention := retentionDays * DAY;
      entries, stats, sequence := file.entries, file.stats, file.sequence;
      new;
      hide Trim;
      if stats.startedAt == 0 {
        stats := stats.(startedAt := now);
      }
      assert View() == Restored(file, maxEntries, retentionDays, now);
      hide Restored;
      TrimLocked(now);
    }

    method Persist() returns (file: Snapshot)
      ensures file == Persisted(View())
    {
      file := Snapshot(entries, stats, sequence);
    }

    method TrimLocked(now: int)
      modifies this`entries
      ensures View() == Trim(old(View()), now)
    {
      var drop := Max(0, |entries| - max);
      if retention > 0 {
        var cutoff := now - retention;
        ghost var over := drop;
        while drop < |entries| && entries[drop].time < cutoff
          invariant over <= drop <= |entries|
          invariant FirstYoung(entries, over, cutoff) == FirstYoung(entries, drop, cutoff)
        {
          drop := drop + 1;
        }
      }
      if drop > 0 {
        entries := entries[drop..];
      }
    }

    method Record(e: Entry, now: int) returns (recorded: Entry)
      modifies this
      ensures View() == Recorded(old(View()), e, now)
      ensures recorded == Stamped(old(View()), e, now)
    {
      sequence := sequence + 1;
      recorded := e.(sequence := sequence);
      if recorded.time == 0 {
        recorded := recorded.(time := now);
      }
      entries := entries + [recorded];
      CountEntry(recorded);
      hide Trim, Count;
      TrimLocked(now);
    }

    method CountEntry(recorded: Entry)
      modifies this`stats
      ensures stats == Count(old(stats), recorded)
    {
      stats := stats.(total := stats.total + 1, totalLatencyMs := stats.totalLatencyMs + recorded.latencyMs);
      if recorded.source == "fixed" {
        stats := stats.(fixed := stats.fixed + 1);
      } else if recorded.source == "cache" {
        stats := stats.(cache := stats.cache + 1);
      } else if recorded.source == "forward" {
        stats := stats.(forward := stats.forward + 1, forwardLatencyMs := stats.forwardLatencyMs + recorded.latencyMs);
      }
      if recorded.rcode == 2 {
        stats := stats.(servfail := stats.servfail + 1);
      }
      if recorded.rcode == 3 {
        stats := stats.(nxdomain := stats.nxdomain + 1);
      }
    }

    method Reset(now: int) returns (n: nat)
      modifies this`entries, this`stats
      ensures View() == Cleared(old(View()), now) && n == |old(entries)|
    {
      n := |entries|;
      entries := [];
      stats := Fresh(now);
    }

    method SetLimits(maxEntries: int, retentionDays: int, now: int)
      modifies this`max, this`retention, this`entries
      ensures View() == Limited(old(View()), maxEntries, retentionDays, now)
    {
      max := if maxEntries < 1 then 1 else maxEntries;
      retention := retentionDays * DAY;
      TrimLocked(now);
    }

    method Search(f: Filter) returns (out: seq<Entry>)
      ensures out == Found(entries, f)
    {
      var limit := if f.limit < 1 then 200 else f.limit;
      out := [];
      var i := |entries|;
      assert entries[|entries|..] == [];
      hide Matches;
      while i > 0 && |out| < limit
        invariant 0 <= i <= |entries| && |out| <= limit
        invariant out == Select(f, Reverse(entries[i..]))
      {
        i := i - 1;
        assert entries[i..][1..] == entries[i + 1..];
        SelectAppend(f, Reverse(entries[i + 1..]), entries[i]);
        if Matches(f, entries[i]) {
          out := out + [entries[i]];
        }
      }
      hide Select, Reverse;
      SearchEnds(f, entries, i, out);
    }
  }
}
