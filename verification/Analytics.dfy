/** The hour of query analytics: twelve five-minute buckets and two rankings,
    accumulated in one pass over the retained entries. */
module Analytics {
  import opened Basics
  import opened History

  const BUCKET_MS: int := 5 * 60 * 1000
  const BUCKETS: nat := 12
  const ACTIVE_MS: int := 5 * 60 * 1000
  const KEPT: nat := 500

  datatype Bucket = Bucket(time: int, total: nat, failures: nat, latency: int)

  /** One ranked domain or client; `lastSeen` is kept for clients only. */
  datatype Ranked = Ranked(name: string, count: nat, failures: nat, lastSeen: int)

  datatype Report = Report(buckets: seq<Bucket>, topDomains: seq<Ranked>, activeClients: seq<Ranked>,
                           topDomainCount: nat, activeClientCount: nat, sampledQueries: nat, retainedQueries: nat)

  // ---- What is counted ---------------------------------------------------

  /** A set of entries to count. */
  datatype Pick =
    | Span(start: int, n: nat)             // the first n buckets
    | InBucket(start: int, i: nat)
    | OfDomain(start: int, domain: string)
    | OfClient(active: int, client: string)

  /** The half-open hour. */
  function Hour(start: int): Pick { Span(start, BUCKETS) }

  predicate Picks(p: Pick, e: Entry) {
    match p
    case Span(start, n) => start <= e.time < start + n * BUCKET_MS
    case InBucket(start, i) => start + i * BUCKET_MS <= e.time < start + (i + 1) * BUCKET_MS
    case OfDomain(start, domain) => start <= e.time < start + BUCKETS * BUCKET_MS && e.domain == domain
    case OfClient(active, client) => active <= e.time && e.client == client && client != "" && client != "web-ui"
  }

  function One(b: bool): nat { if b then 1 else 0 }

  function Total(entries: seq<Entry>, p: Pick): nat {
    if entries == [] then 0 else Total(entries[..|entries| - 1], p) + One(Picks(p, entries[|entries| - 1]))
  }

  function Failures(entries: seq<Entry>, p: Pick): nat {
    if entries == [] then 0
    else
      var last := entries[|entries| - 1];
      Failures(entries[..|entries| - 1], p) + One(Picks(p, last) && last.rcode != 0)
  }

  function Latency(entries: seq<Entry>, p: Pick): int {
    if entries == [] then 0
    else
      var last := entries[|entries| - 1];
      Latency(entries[..|entries| - 1], p) + (if Picks(p, last) then last.latencyMs else 0)
  }

  function LastSeen(entries: seq<Entry>, p: Pick): int {
    if entries == [] then 0
    else
      var before := LastSeen(entries[..|entries| - 1], p);
      if Picks(p, entries[|entries| - 1]) then Max(before, entries[|entries| - 1].time) else before
  }

  function BucketAt(entries: seq<Entry>, start: int, i: nat): Bucket {
    var p := InBucket(start, i);
    Bucket(start + i * BUCKET_MS, Total(entries, p), Failures(entries, p), Latency(entries, p))
  }

  function DomainRow(entries: seq<Entry>, start: int, d: string): Ranked {
    Ranked(d, Total(entries, OfDomain(start, d)), Failures(entries, OfDomain(start, d)), 0)
  }

  function ClientRow(entries: seq<Entry>, active: int, c: string): Ranked {
    Ranked(c, Total(entries, OfClient(active, c)), Failures(entries, OfClient(active, c)),
           LastSeen(entries, OfClient(active, c)))
  }

  /** The rows gathered so far: one for each name with a picked entry. */
  ghost predicate DomainRows(rows: map<string, Ranked>, entries: seq<Entry>, start: int) {
    forall d :: (d in rows <==> Total(entries, OfDomain(start, d)) > 0) &&
      (d in rows ==> rows[d] == DomainRow(entries, start, d))
  }

  ghost predicate ClientRows(rows: map<string, Ranked>, entries: seq<Entry>, active: int) {
    forall c :: (c in rows <==> Total(entries, OfClient(active, c)) > 0) &&
      (c in rows ==> rows[c] == ClientRow(entries, active, c))
  }

  // ---- Rankings ----------------------------------------------------------

  ghost predicate Falling(rows: seq<Ranked>) {
    forall i, j :: 0 <= i < j < |rows| ==> rows[i].count >= rows[j].count
  }

  /** Every row exactly once, by falling count. */
  ghost predicate IsRanking(ranking: seq<Ranked>, rows: map<string, Ranked>) {
    && Falling(ranking)
    && (forall i :: 0 <= i < |ranking| ==> ranking[i].name in rows && rows[ranking[i].name] == ranking[i])
    && (forall i, j :: 0 <= i < j < |ranking| ==> ranking[i].name != ranking[j].name)
    && (forall k :: k in rows ==> rows[k] in ranking)
  }

  method Insert(ranking: seq<Ranked>, row: Ranked) returns (longer: seq<Ranked>, at: nat)
    requires Falling(ranking)
    ensures at <= |ranking| && longer == ranking[..at] + [row] + ranking[at..] && Falling(longer)
  {
    at := 0;
    while at < |ranking| && ranking[at].count >= row.count
      invariant at <= |ranking| && forall i :: 0 <= i < at ==> ranking[i].count >= row.count
    {
      at := at + 1;
    }
    longer := ranking[..at] + [row] + ranking[at..];
  }

  lemma InsertKeeps(ranking: seq<Ranked>, row: Ranked, at: nat, rows: map<string, Ranked>)
    requires IsRanking(ranking, rows) && row.name !in rows && at <= |ranking|
    requires Falling(ranking[..at] + [row] + ranking[at..])
    ensures IsRanking(ranking[..at] + [row] + ranking[at..], rows[row.name := row])
  {
    hide Falling;
    var longer := ranking[..at] + [row] + ranking[at..];
    var more := rows[row.name := row];
    forall k | k in more ensures more[k] in longer {
      if k == row.name {
        assert longer[at] == row;
      } else {
        var i :| 0 <= i < |ranking| && ranking[i] == rows[k];
        assert longer[if i < at then i else i + 1] == rows[k];
      }
    }
  }

  /** Rows come out of the map in any order and are sorted by falling count. */
  method Rank(rows: map<string, Ranked>) returns (ranking: seq<Ranked>)
    requires forall k :: k in rows ==> rows[k].name == k
    ensures IsRanking(ranking, rows)
  {
    ranking := [];
    var unseen := rows.Keys;
    ghost var seen: map<string, Ranked> := map[];
    while unseen != {}
      invariant unseen <= rows.Keys && seen.Keys == rows.Keys - unseen
      invariant forall k :: k in seen ==> seen[k] == rows[k]
      invariant IsRanking(ranking, seen)
      decreases unseen
    {
      var k :| k in unseen;
      unseen := unseen - {k};
      var at;
      ghost var before := ranking;
      ranking, at := Insert(ranking, rows[k]);
      InsertKeeps(before, rows[k], at, seen);
      seen := seen[k := rows[k]];
    }
    assert seen == rows;
  }

  function Cut(ranking: seq<Ranked>): seq<Ranked> {
    if |ranking| > KEPT then ranking[..KEPT] else ranking
  }

  /** Everything kept counts at least as much as everything cut. */
  lemma CutKeepsTop(ranking: seq<Ranked>, rows: map<string, Ranked>, k: string, i: nat)
    requires IsRanking(ranking, rows)
    requires k in rows && rows[k] !in Cut(ranking) && i < |Cut(ranking)|
    ensures |Cut(ranking)| == KEPT < |ranking| && Cut(ranking)[i].count >= rows[k].count
  {
    var j :| 0 <= j < |ranking| && ranking[j] == rows[k];
    if j < |Cut(ranking)| {
      assert false;
    }
  }

  // ---- The pass ----------------------------------------------------------

  /** What the report says of the entries, given the two full rankings. */
  ghost predicate Reports(r: Report, entries: seq<Entry>, now: int, domains: seq<Ranked>, clients: seq<Ranked>) {
    var start, active := now - BUCKETS * BUCKET_MS, now - ACTIVE_MS;
    && |r.buckets| == BUCKETS && (forall i :: 0 <= i < BUCKETS ==> r.buckets[i] == BucketAt(entries, start, i))
    && (exists rows :: DomainRows(rows, entries, start) && IsRanking(domains, rows))
    && (exists rows :: ClientRows(rows, entries, active) && IsRanking(clients, rows))
    && r.topDomains == Cut(domains) && r.activeClients == Cut(clients)
    && r.topDomainCount == |domains| && r.activeClientCount == |clients|
    && r.sampledQueries == Total(entries, Hour(start)) && r.retainedQueries == |entries|
  }

  ghost predicate IsReport(r: Report, entries: seq<Entry>, now: int) {
    exists domains, clients :: Reports(r, entries, now, domains, clients)
  }

  method Analyze(store: Store, now: int) returns (r: Report)
    ensures IsReport(r, store.entries, now)
  {
    var start, active := now - BUCKETS * BUCKET_MS, now - ACTIVE_MS;
    var buckets, domains, clients, sampled := Accumulate(store.entries, start, active);
    var rankedDomains := Rank(domains);
    var rankedClients := Rank(clients);
    r := Report(buckets, Cut(rankedDomains), Cut(rankedClients), |rankedDomains|, |rankedClients|, sampled,
                |store.entries|);
    assert Reports(r, store.entries, now, rankedDomains, rankedClients);
  }

  lemma CountsGrow(entries: seq<Entry>, e: Entry, p: Pick)
    ensures Total(entries + [e], p) == Total(entries, p) + One(Picks(p, e))
    ensures Failures(entries + [e], p) == Failures(entries, p) + One(Picks(p, e) && e.rcode != 0)
    ensures Latency(entries + [e], p) == Latency(entries, p) + (if Picks(p, e) then e.latencyMs else 0)
    ensures LastSeen(entries + [e], p) ==
            if Picks(p, e) then Max(LastSeen(entries, p), e.time) else LastSeen(entries, p)
  {
    assert (entries + [e])[..|entries|] == entries;
  }

  /** An entry is in the bucket its offset divides to, and in no other. */
  lemma BucketIndex(start: int, e: Entry, i: nat)
    ensures Picks(InBucket(start, i), e) <==> (e.time - start) / BUCKET_MS == i
    ensures Picks(Hour(start), e) <==> e.time >= start && 0 <= (e.time - start) / BUCKET_MS < BUCKETS
  {
  }

  /** Counting an entry into its bucket, if it has one. */
  method CountInBucket(buckets: array<Bucket>, ghost entries: seq<Entry>, e: Entry, start: int) returns (sampled: bool)
    requires buckets.Length == BUCKETS && forall i :: 0 <= i < BUCKETS ==> buckets[i] == BucketAt(entries, start, i)
    modifies buckets
    ensures forall i :: 0 <= i < BUCKETS ==> buckets[i] == BucketAt(entries + [e], start, i)
    ensures sampled <==> Picks(Hour(start), e)
  {
    forall i: nat | i < BUCKETS
      ensures BucketAt(entries + [e], start, i) ==
              if (e.time - start) / BUCKET_MS == i
              then Bucket(start + i * BUCKET_MS, BucketAt(entries, start, i).total + 1,
                          BucketAt(entries, start, i).failures + One(e.rcode != 0),
                            BucketAt(entries, start, i).latency + e.latencyMs)
              else BucketAt(entries, start, i)
    {
      CountsGrow(entries, e, InBucket(start, i));
      BucketIndex(start, e, i);
    }
    BucketIndex(start, e, 0);
    hide BucketAt;
    sampled := false;
    if e.time >= start {
      var idx := (e.time - start) / BUCKET_MS;
      if 0 <= idx < BUCKETS {
        var b := buckets[idx];
        b := b.(total := b.total + 1, latency := b.latency + e.latencyMs);
        if e.rcode != 0 {
          b := b.(failures := b.failures + 1);
        }
        buckets[idx] := b;
        sampled := true;
      }
    }
  }

  method CountDomain(rows: map<string, Ranked>, ghost entries: seq<Entry>, e: Entry, start: int)
      returns (more: map<string, Ranked>)
    requires DomainRows(rows, entries, start) && Picks(Hour(start), e)
    ensures DomainRows(more, entries + [e], start)
  {
    forall d ensures Picks(OfDomain(start, d), e) <==> d == e.domain { }
    forall d
      ensures DomainRow(entries + [e], start, d) ==
              var row := DomainRow(entries, start, d);
              if d == e.domain then row.(count := row.count + 1, failures := row.failures + One(e.rcode != 0)) else row
      ensures Total(entries + [e], OfDomain(start, d)) == Total(entries, OfDomain(start, d)) + One(d == e.domain)
    {
      CountsGrow(entries, e, OfDomain(start, d));
    }
    var row := if e.domain in rows then rows[e.domain] else Ranked(e.domain, 0, 0, 0);
    NoneFails(entries, OfDomain(start, e.domain));
    row := row.(count := row.count + 1);
    if e.rcode != 0 {
      row := row.(failures := row.failures + 1);
    }
    more := rows[e.domain := row];
  }

  lemma {:induction false} NoneFails(entries: seq<Entry>, p: Pick)
    ensures Failures(entries, p) <= Total(entries, p)
    ensures Total(entries, p) == 0 ==> LastSeen(entries, p) == 0
  {
    if entries != [] { NoneFails(entries[..|entries| - 1], p); }
  }

  lemma DomainsUnchanged(rows: map<string, Ranked>, entries: seq<Entry>, e: Entry, start: int)
    requires DomainRows(rows, entries, start) && !Picks(Hour(start), e)
    ensures DomainRows(rows, entries + [e], start)
  {
    forall d
      ensures Total(entries + [e], OfDomain(start, d)) == Total(entries, OfDomain(start, d))
      ensures DomainRow(entries + [e], start, d) == DomainRow(entries, start, d)
    {
      CountsGrow(entries, e, OfDomain(start, d));
    }
  }

  predicate Counted(e: Entry, active: int) {
    e.time >= active && e.client != "" && e.client != "web-ui"
  }

  lemma ClientGrows(entries: seq<Entry>, e: Entry, active: int, c: string)
    ensures var row, more := ClientRow(entries, active, c), ClientRow(entries + [e], active, c);
            && row.name == c && row.failures <= row.count && (row.count == 0 ==> row == Ranked(c, 0, 0, 0))
            && more == if Counted(e, active) && c == e.client
                       then row.(count := row.count + 1, failures := row.failures + One(e.rcode != 0),
                                 lastSeen := Max(row.lastSeen, e.time))
                       else row
  {
    CountsGrow(entries, e, OfClient(active, c));
    NoneFails(entries, OfClient(active, c));
  }

  lemma ClientRowsAre(rows: map<string, Ranked>, entries: seq<Entry>, active: int)
    ensures ClientRows(rows, entries, active) <==>
            forall c :: (c in rows <==> ClientRow(entries, active, c).count > 0) &&
              (c in rows ==> rows[c] == ClientRow(entries, active, c))
  {
    hide Total, Failures, LastSeen;
  }

  method CountClient(rows: map<string, Ranked>, ghost entries: seq<Entry>, e: Entry, active: int)
      returns (more: map<string, Ranked>)
    requires ClientRows(rows, entries, active)
    ensures ClientRows(more, entries + [e], active)
  {
    hide ClientRows, ClientRow;
    ClientRowsAre(rows, entries, active);
    forall c ensures ClientRow(entries, active, c).name == c { ClientGrows(entries, e, active, c); }
    more := rows;
    if e.time >= active && e.client != "" && e.client != "web-ui" {
      var row := if e.client in rows then rows[e.client] else Ranked(e.client, 0, 0, 0);
      row := row.(count := row.count + 1);
      if e.rcode != 0 {
        row := row.(failures := row.failures + 1);
      }
      if e.time > row.lastSeen {
        row := row.(lastSeen := e.time);
      }
      more := rows[e.client := row];
    }
    forall c
      ensures (c in more <==> ClientRow(entries + [e], active, c).count > 0) &&
              (c in more ==> more[c] == ClientRow(entries + [e], active, c))
    {
      ClientGrows(entries, e, active, c);
      ClientGrows(entries, e, active, e.client);
    }
    ClientRowsAre(more, entries + [e], active);
  }

  method Accumulate(entries: seq<Entry>, start: int, active: int)
      returns (buckets: seq<Bucket>, domains: map<string, Ranked>, clients: map<string, Ranked>, sampled: nat)
    ensures |buckets| == BUCKETS && forall i :: 0 <= i < BUCKETS ==> buckets[i] == BucketAt(entries, start, i)
    ensures DomainRows(domains, entries, start) && ClientRows(clients, entries, active)
    ensures sampled == Total(entries, Hour(start))
  {
    var slots := new Bucket[BUCKETS](i => Bucket(start + i * BUCKET_MS, 0, 0, 0));
    domains, clients, sampled := map[], map[], 0;
    for n := 0 to |entries|
      modifies slots
      invariant forall i :: 0 <= i < BUCKETS ==> slots[i] == BucketAt(entries[..n], start, i)
      invariant DomainRows(domains, entries[..n], start) && ClientRows(clients, entries[..n], active)
      invariant sampled == Total(entries[..n], Hour(start))
    {
      var e := entries[n];
      assert entries[..n + 1] == entries[..n] + [e];
      CountsGrow(entries[..n], e, Hour(start));
      hide Total, BucketAt, DomainRows, ClientRows;
      var inHour := CountInBucket(slots, entries[..n], e, start);
      if inHour {
        sampled := sampled + 1;
        domains := CountDomain(domains, entries[..n], e, start);
      } else {
        DomainsUnchanged(domains, entries[..n], e, start);
      }
      clients := CountClient(clients, entries[..n], e, active);
    }
    assert entries[..|entries|] == entries;
    buckets := slots[..];
  }

  // ---- Conservation ------------------------------------------------------

  function SumTotals(buckets: seq<Bucket>): nat {
    if buckets == [] then 0 else SumTotals(buckets[..|buckets| - 1]) + buckets[|buckets| - 1].total
  }

  function SumFailures(buckets: seq<Bucket>): nat {
    if buckets == [] then 0 else SumFailures(buckets[..|buckets| - 1]) + buckets[|buckets| - 1].failures
  }

  function SumCounts(rows: seq<Ranked>): nat {
    if rows == [] then 0 else SumCounts(rows[1..]) + rows[0].count
  }

  function SumRowFailures(rows: seq<Ranked>): nat {
    if rows == [] then 0 else SumRowFailures(rows[1..]) + rows[0].failures
  }

  lemma {:induction false} SpanGrows(entries: seq<Entry>, start: int, n: nat)
    ensures Total(entries, Span(start, n + 1)) == Total(entries, Span(start, n)) + Total(entries, InBucket(start, n))
    ensures Failures(entries, Span(start, n + 1)) ==
            Failures(entries, Span(start, n)) + Failures(entries, InBucket(start, n))
  {
    if entries != [] { SpanGrows(entries[..|entries| - 1], start, n); }
  }

  lemma {:induction false} EmptySpan(entries: seq<Entry>, start: int)
    ensures Total(entries, Span(start, 0)) == 0 && Failures(entries, Span(start, 0)) == 0
  {
    if entries != [] { EmptySpan(entries[..|entries| - 1], start); }
  }

  /** The buckets partition the hour. */
  lemma {:induction false} BucketsPartition(entries: seq<Entry>, start: int, buckets: seq<Bucket>)
    requires forall i :: 0 <= i < |buckets| ==> buckets[i] == BucketAt(entries, start, i)
    ensures SumTotals(buckets) == Total(entries, Span(start, |buckets|))
    ensures SumFailures(buckets) == Failures(entries, Span(start, |buckets|))
  {
    if buckets == [] {
      EmptySpan(entries, start);
    } else {
      BucketsPartition(entries, start, buckets[..|buckets| - 1]);
      SpanGrows(entries, start, |buckets| - 1);
    }
  }

  function Names(rows: seq<Ranked>): seq<string> {
    if rows == [] then [] else [rows[0].name] + Names(rows[1..])
  }

  lemma {:induction false} NamesAt(rows: seq<Ranked>)
    ensures |Names(rows)| == |rows| && forall i :: 0 <= i < |rows| ==> Names(rows)[i] == rows[i].name
  {
    if rows != [] { NamesAt(rows[1..]); }
  }

  /** Rows over other entries, for the same names. */
  function Rerow(rows: seq<Ranked>, entries: seq<Entry>, start: int): seq<Ranked> {
    seq(|rows|, i requires 0 <= i < |rows| => DomainRow(entries, start, rows[i].name))
  }

  lemma SumHead(rows: seq<Ranked>, entries: seq<Entry>, start: int)
    requires rows != []
    ensures SumCounts(Rerow(rows, entries, start)) ==
            SumCounts(Rerow(rows[1..], entries, start)) + Total(entries, OfDomain(start, rows[0].name))
    ensures SumRowFailures(Rerow(rows, entries, start)) ==
            SumRowFailures(Rerow(rows[1..], entries, start)) + Failures(entries, OfDomain(start, rows[0].name))
  {
    assert Rerow(rows, entries, start)[1..] == Rerow(rows[1..], entries, start);
  }

  /** One more entry adds one to the sum over distinct names, if its own name is among them. */
  lemma {:induction false} SumGrows(rows: seq<Ranked>, entries: seq<Entry>, e: Entry, start: int)
    requires Distinct(Names(rows))
    ensures var hit := Picks(Hour(start), e) && e.domain in Names(rows);
            && SumCounts(Rerow(rows, entries + [e], start)) == SumCounts(Rerow(rows, entries, start)) + One(hit)
            && SumRowFailures(Rerow(rows, entries + [e], start)) ==
               SumRowFailures(Rerow(rows, entries, start)) + One(hit && e.rcode != 0)
  {
    if rows != [] {
      assert Names(rows)[1..] == Names(rows[1..]);
      SumGrows(rows[1..], entries, e, start);
      CountsGrow(entries, e, OfDomain(start, rows[0].name));
      SumHead(rows, entries, start);
      SumHead(rows, entries + [e], start);
      hide Rerow, Total, Failures, SumCounts, SumRowFailures;
    }
  }

  lemma {:induction false} NothingToSum(rows: seq<Ranked>, start: int)
    ensures SumCounts(Rerow(rows, [], start)) == 0 && SumRowFailures(Rerow(rows, [], start)) == 0
  {
    if rows != [] {
      NothingToSum(rows[1..], start);
      SumHead(rows, [], start);
    }
  }

  lemma {:induction false} SumIsTotal(rows: seq<Ranked>, entries: seq<Entry>, start: int)
    requires Distinct(Names(rows))
    requires forall e :: e in entries && Picks(Hour(start), e) ==> e.domain in Names(rows)
    ensures SumCounts(Rerow(rows, entries, start)) == Total(entries, Hour(start))
    ensures SumRowFailures(Rerow(rows, entries, start)) == Failures(entries, Hour(start))
  {
    if entries == [] {
      NothingToSum(rows, start);
    } else {
      var before, e := entries[..|entries| - 1], entries[|entries| - 1];
      assert entries == before + [e];
      SumIsTotal(rows, before, start);
      SumGrows(rows, before, e, start);
    }
  }

  lemma {:induction false} PickedIsCounted(entries: seq<Entry>, p: Pick, e: Entry)
    requires e in entries && Picks(p, e)
    ensures Total(entries, p) > 0
  {
    if entries[|entries| - 1] != e { PickedIsCounted(entries[..|entries| - 1], p, e); }
  }

  /** In every report the bucket totals and the untruncated per-domain counts both
      add up to the number of sampled queries, and failures likewise. */
  lemma ReportConserves(r: Report, entries: seq<Entry>, now: int, domains: seq<Ranked>, clients: seq<Ranked>)
    requires Reports(r, entries, now, domains, clients)
    ensures SumTotals(r.buckets) == SumCounts(domains) == r.sampledQueries
    ensures SumFailures(r.buckets) == SumRowFailures(domains) == Failures(entries, Hour(now - BUCKETS * BUCKET_MS))
  {
    hide Total, Failures, SumCounts, SumRowFailures, SumTotals, SumFailures, DomainRows, IsRanking, Rerow;
    var start := now - BUCKETS * BUCKET_MS;
    BucketsPartition(entries, start, r.buckets);
    var rows :| DomainRows(rows, entries, start) && IsRanking(domains, rows);
    RankingCounts(domains, rows, entries, start);
  }

  /** The counts in a full ranking add up to the hour's. */
  lemma RankingCounts(domains: seq<Ranked>, rows: map<string, Ranked>, entries: seq<Entry>, start: int)
    requires DomainRows(rows, entries, start) && IsRanking(domains, rows)
    ensures SumCounts(domains) == Total(entries, Hour(start))
    ensures SumRowFailures(domains) == Failures(entries, Hour(start))
  {
    NamesAt(domains);
    DistinctIff(Names(domains));
    forall e | e in entries && Picks(Hour(start), e) ensures e.domain in Names(domains) {
      PickedIsCounted(entries, OfDomain(start, e.domain), e);
      var i :| 0 <= i < |domains| && domains[i] == rows[e.domain];
      assert Names(domains)[i] == e.domain;
    }
    SumIsTotal(domains, entries, start);
    assert Rerow(domains, entries, start) == domains;
  }

  // ---- What a report says, in terms of the entries alone -------------------

  lemma {:induction false} TotalIs(entries: seq<Entry>, p: Pick, such: Entry -> bool)
    requires forall e :: Picks(p, e) == such(e)
    ensures Total(entries, p) == Number(entries, such)
    ensures Failures(entries, p) == Number(entries, (e: Entry) => such(e) && e.rcode != 0)
    ensures Latency(entries, p) == Sum(entries, (e: Entry) => if such(e) then e.latencyMs else 0)
  {
    hide Number, Picks;
    NumberStep(entries, such);
    NumberStep(entries, (e: Entry) => such(e) && e.rcode != 0);
    if entries != [] { TotalIs(entries[..|entries| - 1], p, such); }
  }

  lemma {:induction false} LastSeenIs(entries: seq<Entry>, p: Pick)
    ensures LastSeen(entries, p) >= 0 && forall e :: e in entries && Picks(p, e) ==> e.time <= LastSeen(entries, p)
    ensures LastSeen(entries, p) > 0 ==> exists e :: e in entries && Picks(p, e) && e.time == LastSeen(entries, p)
  {
    hide Picks;
    if entries != [] {
      var n := |entries| - 1;
      LastSeenIs(entries[..n], p);
      assert entries == entries[..n] + [entries[n]];
    }
  }

  /** Bucket `i` counts the entries of its five minutes. */
  lemma BucketIs(r: Report, entries: seq<Entry>, now: int, i: nat)
    requires IsReport(r, entries, now) && i < 12
    ensures var from := now - 3_600_000 + i * 300_000;
            var inside := (e: Entry) => from <= e.time < from + 300_000;
            && |r.buckets| == 12 && r.buckets[i].time == from
            && r.buckets[i].total == Number(entries, inside)
            && r.buckets[i].failures == Number(entries, (e: Entry) => inside(e) && e.rcode != 0)
            && r.buckets[i].latency == Sum(entries, (e: Entry) => if inside(e) then e.latencyMs else 0)
  {
    hide Number, Sum, Total, Failures, Latency, IsRanking, DomainRows, ClientRows;
    var start := now - 3_600_000;
    var from := start + i * 300_000;
    TotalIs(entries, InBucket(start, i), (e: Entry) => from <= e.time < from + 300_000);
  }

  /** The whole hour is sampled, and everything is retained. */
  lemma SampledIs(r: Report, entries: seq<Entry>, now: int)
    requires IsReport(r, entries, now)
    ensures r.sampledQueries == Number(entries, (e: Entry) => now - 3_600_000 <= e.time < now)
    ensures r.retainedQueries == |entries|
  {
    hide Number, Sum, Total, Failures, Latency, IsRanking, DomainRows, ClientRows, BucketAt;
    TotalIs(entries, Hour(now - 3_600_000), (e: Entry) => now - 3_600_000 <= e.time < now);
  }

  /** A domain is ranked exactly when it was asked for in the hour, with the
      number of times and of failures. */
  lemma DomainIs(rows: map<string, Ranked>, entries: seq<Entry>, now: int, d: string)
    requires DomainRows(rows, entries, now - 3_600_000)
    ensures var asked := (e: Entry) => now - 3_600_000 <= e.time < now && e.domain == d;
            && (d in rows <==> Number(entries, asked) > 0)
            && (d in rows ==> rows[d] == Ranked(d, Number(entries, asked),
                                                Number(entries, (e: Entry) => asked(e) && e.rcode != 0), 0))
  {
    hide Number, Sum, Total, Failures, Latency;
    TotalIs(entries, OfDomain(now - 3_600_000, d),
            (e: Entry) => now - 3_600_000 <= e.time < now && e.domain == d);
  }

  /** A client is ranked exactly when it asked in the last five minutes and is
      not the console itself, with its numbers and the time of its last query. */
  lemma ClientIs(rows: map<string, Ranked>, entries: seq<Entry>, now: int, c: string)
    requires ClientRows(rows, entries, now - 300_000)
    ensures var active := (e: Entry) => now - 300_000 <= e.time && e.client == c && c != "" && c != "web-ui";
            && (c in rows <==> Number(entries, active) > 0)
            && (c in rows ==>
                 && rows[c].name == c && rows[c].count == Number(entries, active)
                 && rows[c].failures == Number(entries, (e: Entry) => active(e) && e.rcode != 0)
                 && rows[c].lastSeen >= 0
                 && (forall e :: e in entries && active(e) ==> e.time <= rows[c].lastSeen)
                 && (rows[c].lastSeen > 0 ==> exists e :: e in entries && active(e) && e.time == rows[c].lastSeen))
  {
    hide Number, Sum, Total, Failures, Latency, LastSeen;
    var active := (e: Entry) => now - 300_000 <= e.time && e.client == c && c != "" && c != "web-ui";
    TotalIs(entries, OfClient(now - 300_000, c), active);
    LastSeenIs(entries, OfClient(now - 300_000, c));
    assert forall e: Entry :: Picks(OfClient(now - 300_000, c), e) == active(e);
  }

  /** Both rankings are cut to their first five hundred, and their lengths told. */
  lemma RankingsAre(r: Report, entries: seq<Entry>, now: int)
      returns (domains: map<string, Ranked>, clients: map<string, Ranked>, ds: seq<Ranked>, cs: seq<Ranked>)
    requires IsReport(r, entries, now)
    ensures DomainRows(domains, entries, now - 3_600_000) && IsRanking(ds, domains)
    ensures ClientRows(clients, entries, now - 300_000) && IsRanking(cs, clients)
    ensures r.topDomains == (if |ds| > 500 then ds[..500] else ds) && r.topDomainCount == |ds|
    ensures r.activeClients == (if |cs| > 500 then cs[..500] else cs) && r.activeClientCount == |cs|
  {
    hide DomainRows, ClientRows, IsRanking, BucketAt, Total;
    ds, cs :| Reports(r, entries, now, ds, cs);
    domains :| DomainRows(domains, entries, now - 3_600_000) && IsRanking(ds, domains);
    clients :| ClientRows(clients, entries, now - 300_000) && IsRanking(cs, clients);
  }

  /** A domain the report leaves out was asked for no more often than any it lists. */
  lemma ReportListsTop(r: Report, entries: seq<Entry>, now: int, d: string, i: nat)
    requires IsReport(r, entries, now) && i < |r.topDomains|
    requires DomainRow(entries, now - BUCKETS * BUCKET_MS, d) !in r.topDomains
    ensures Total(entries, OfDomain(now - BUCKETS * BUCKET_MS, d)) <= r.topDomains[i].count
    ensures Total(entries, OfDomain(now - BUCKETS * BUCKET_MS, d)) > 0 ==> |r.topDomains| == KEPT < r.topDomainCount
  {
    hide Total, Failures, LastSeen, BucketAt, ClientRows, IsRanking;
    var domains, clients :| Reports(r, entries, now, domains, clients);
    var rows :| DomainRows(rows, entries, now - BUCKETS * BUCKET_MS) && IsRanking(domains, rows);
    if d in rows { CutKeepsTop(domains, rows, d, i); }
  }
}
