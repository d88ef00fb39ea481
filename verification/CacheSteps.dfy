/** The answer cache as a value: expiry and least-recently-used eviction over a
    map and a recency list. `AnswerCache` has the object that takes these steps
    in place. */
module CacheSteps {
  import opened Basics

  /** A DNS resource record as a value. */
  datatype Record = Record(name: string, rtype: nat, data: string, ttl: nat)

  datatype Packet = Packet(rcode: int, answers: seq<Record>, authorities: seq<Record>, additionals: seq<Record>)

  datatype Entry<P> = Entry(packet: P, expires: int)

  /** The cache over any kind of packet: values here, record storage in the
      class. `order` runs from the least to the most recently set or hit key. */
  datatype CacheState<P> = CacheState(max: int, items: map<string, Entry<P>>, order: seq<string>, hits: nat,
                                      misses: nat)

  const SECOND: int := 1_000_000_000

  // ---- Recency lists ----------------------------------------------------

  function Without<T(==)>(s: seq<T>, x: T): seq<T> {
    if s == [] then [] else if s[0] == x then s[1..] else [s[0]] + Without(s[1..], x)
  }

  lemma {:induction false} WithoutAt<T>(s: seq<T>, x: T, i: nat)
    requires i < |s| && s[i] == x && forall j :: 0 <= j < i ==> s[j] != x
    ensures Without(s, x) == s[..i] + s[i + 1..]
  {
    if i > 0 {
      WithoutAt(s[1..], x, i - 1);
    }
  }

  lemma {:induction false} WithoutAbsent<T>(s: seq<T>, x: T)
    requires x !in s
    ensures Without(s, x) == s
  {
    if s != [] { WithoutAbsent(s[1..], x); }
  }

  lemma {:induction false} WithoutMembers<T(!new)>(s: seq<T>, x: T)
    requires Distinct(s)
    ensures forall y :: y in Without(s, x) <==> y in s && y != x
    ensures |Without(s, x)| == if x in s then |s| - 1 else |s|
    ensures Distinct(Without(s, x))
  {
    if s != [] && s[0] != x {
      WithoutMembers(s[1..], x);
      assert ([s[0]] + Without(s[1..], x))[1..] == Without(s[1..], x);
    }
  }

  /** The keys of `s` outside `gone`, in order. */
  function Except<T(==,!new)>(s: seq<T>, gone: set<T>): (r: seq<T>)
    ensures forall x :: x in r <==> x in s && x !in gone
  {
    if s == [] then [] else (if s[0] in gone then [] else [s[0]]) + Except(s[1..], gone)
  }

  lemma {:induction false} ExceptNothing<T(!new)>(s: seq<T>)
    ensures Except(s, {}) == s
  {
    if s != [] { ExceptNothing(s[1..]); }
  }

  lemma {:induction false} ExceptDistinct<T(!new)>(s: seq<T>, gone: set<T>)
    requires Distinct(s)
    ensures Distinct(Except(s, gone))
  {
    if s != [] {
      ExceptDistinct(s[1..], gone);
      var rest := Except(s[1..], gone);
      assert ([s[0]] + rest)[1..] == rest;
      assert [] + rest == rest;
    }
  }

  lemma WithoutHead<T>(x: T, s: seq<T>, y: T)
    ensures Without([x] + s, y) == if x == y then s else [x] + Without(s, y)
  {
    assert ([x] + s)[1..] == s;
  }

  lemma {:induction false} ExceptOneMore<T(!new)>(s: seq<T>, gone: set<T>, x: T)
    requires Distinct(s)
    ensures Except(s, gone + {x}) == Without(Except(s, gone), x)
  {
    if s != [] {
      var head, tail := s[0], Except(s[1..], gone);
      ExceptOneMore(s[1..], gone, x);
      WithoutHead(head, tail, x);
      if head in gone {
        assert Except(s, gone) == tail;
      } else if head == x {
        WithoutAbsent(tail, x);
        assert Except(s, gone) == [head] + tail;
      } else {
        assert Except(s, gone) == [head] + tail;
      }
    }
  }

  function Elems<T>(s: seq<T>): set<T> {
    if s == [] then {} else Elems(s[..|s| - 1]) + {s[|s| - 1]}
  }

  lemma {:induction false} ElemsMembers<T(!new)>(s: seq<T>)
    ensures forall x :: x in Elems(s) <==> x in s
  {
    if s != [] { ElemsMembers(s[..|s| - 1]); }
  }

  /** A distinct list splits into disjoint parts. */
  lemma {:induction false} DistinctParts<T(!new)>(s: seq<T>, k: nat)
    requires Distinct(s) && k <= |s|
    ensures Distinct(s[k..])
    ensures forall x :: x in s[k..] <==> x in s && x !in Elems(s[..k])
  {
    if k == 0 {
      assert s[0..] == s;
    } else {
      DistinctParts(s, k - 1);
      assert s[..k][..k - 1] == s[..k - 1];
      assert s[k - 1..][1..] == s[k..];
    }
  }

  // ---- Value-level steps ------------------------------------------------

  /** `order` lists each key of `items` exactly once. */
  ghost predicate Tidy<P>(order: seq<string>, items: map<string, Entry<P>>) {
    Distinct(order) && forall k :: k in order <==> k in items
  }

  ghost predicate WellFormed<P>(c: CacheState<P>) {
    Tidy(c.order, c.items) && 1 <= c.max && |c.order| <= c.max
  }

  /** The state without its `k` least recent keys. */
  function Cut<P>(c: CacheState<P>, k: nat): CacheState<P>
    requires k <= |c.order|
  {
    c.(order := c.order[k..], items := c.items - Elems(c.order[..k]))
  }

  /** Keep only the `n` most recent keys. */
  function Newest<P>(c: CacheState<P>, n: nat): CacheState<P> {
    Cut(c, Max(0, |c.order| - n))
  }

  function Drop<P>(c: CacheState<P>, key: string): CacheState<P> {
    c.(items := c.items - {key}, order := Without(c.order, key))
  }

  predicate Live<P>(c: CacheState<P>, key: string, now: int) {
    key in c.items && now < c.items[key].expires
  }

  /** Seconds left, rounded to nearest and at least one, in a 32-bit TTL. */
  function Remaining(expires: int, now: int): nat {
    Max(1, (expires - now + SECOND / 2) / SECOND) % 0x1_0000_0000
  }

  function Aged(r: Record, limit: nat): Record {
    if r.ttl > limit then r.(ttl := limit) else r
  }

  function AgedAll(rs: seq<Record>, limit: nat): seq<Record> {
    seq(|rs|, i requires 0 <= i < |rs| => Aged(rs[i], limit))
  }

  function Served(e: Entry<Packet>, now: int): Packet {
    e.packet.(answers := AgedAll(e.packet.answers, Remaining(e.expires, now)))
  }

  function Touch<P>(c: CacheState<P>, key: string, now: int): CacheState<P> {
    if Live(c, key, now) then c.(order := Without(c.order, key) + [key], hits := c.hits + 1)
    else Drop(c, key).(misses := c.misses + 1)
  }

  function GetStep(c: CacheState<Packet>, key: string, now: int): (CacheState<Packet>, Option<Packet>) {
    (Touch(c, key, now), if Live(c, key, now) then Some(Served(c.items[key], now)) else None)
  }

  /** `ttl` is a duration in nanoseconds. */
  function SetStep<P>(c: CacheState<P>, key: string, packet: P, ttl: int, now: int): CacheState<P>
    requires c.max >= 1
  {
    if ttl <= 0 then c
    else
      var kept := Newest(Drop(c, key), c.max - 1);
      kept.(items := kept.items[key := Entry(packet, now + ttl)], order := kept.order + [key])
  }

  function Expired<P>(c: CacheState<P>, now: int): set<string> {
    set k | k in c.items && c.items[k].expires <= now
  }

  function SweepStep<P>(c: CacheState<P>, now: int): CacheState<P> {
    Purged(c, Expired(c, now))
  }

  function Purged<P>(c: CacheState<P>, gone: set<string>): CacheState<P> {
    c.(items := c.items - gone, order := Except(c.order, gone))
  }

  function FlushStep<P>(c: CacheState<P>): CacheState<P> {
    c.(items := map[], order := [])
  }

  function ResizeStep<P>(c: CacheState<P>, maxEntries: int): CacheState<P> {
    var m := Max(1, maxEntries);
    Newest(c.(max := m), m)
  }

  // ---- Every step keeps the representation ------------------------------

  lemma DropKeeps<P>(c: CacheState<P>, key: string)
    requires Tidy(c.order, c.items)
    ensures Tidy(Drop(c, key).order, Drop(c, key).items) && key !in Drop(c, key).items
    ensures |Drop(c, key).order| == if key in c.items then |c.order| - 1 else |c.order|
    ensures key !in c.items ==> Drop(c, key) == c
  {
    WithoutMembers(c.order, key);
    if key !in c.items {
      WithoutAbsent(c.order, key);
      assert c.items - {key} == c.items;
    }
  }

  lemma CutKeeps<P>(c: CacheState<P>, k: nat)
    requires Tidy(c.order, c.items) && k <= |c.order|
    ensures Tidy(Cut(c, k).order, Cut(c, k).items) && |Cut(c, k).items| == |c.order| - k
    ensures Cut(c, 0) == c && Cut(c, k).order == c.order[k..]
  {
    assert c.order[0..] == c.order;
    assert c.items - {} == c.items;
    DistinctParts(c.order, k);
    DistinctCount(c.order[k..]);
    assert (set x | x in c.order[k..]) == Cut(c, k).items.Keys;
  }

  lemma {:induction false} DistinctCount(s: seq<string>)
    requires Distinct(s)
    ensures |set k | k in s| == |s|
  {
    if s != [] {
      DistinctCount(s[1..]);
      assert (set k | k in s) == {s[0]} + (set k | k in s[1..]);
    }
  }

  /** A map has as many entries as a list that names each key once. */
  lemma SizeIsOrder<P>(c: CacheState<P>)
    requires Tidy(c.order, c.items)
    ensures |c.items| == |c.order|
  {
    CutKeeps(c, 0);
  }

  lemma GetKeeps<P>(c: CacheState<P>, key: string, now: int)
    requires WellFormed(c)
    ensures WellFormed(Touch(c, key, now))
  {
    WithoutMembers(c.order, key);
    DropKeeps(c, key);
    if Live(c, key, now) {
      DistinctAppend(Without(c.order, key), key);
    }
  }

  lemma AppendKeeps<P>(c: CacheState<P>, key: string, e: Entry<P>)
    requires Tidy(c.order, c.items) && key !in c.items
    ensures Tidy(c.order + [key], c.items[key := e])
  {
    DistinctAppend(c.order, key);
  }

  lemma RoomKeeps<P>(c: CacheState<P>, key: string)
    requires WellFormed(c)
    ensures var kept := Newest(Drop(c, key), c.max - 1);
            && Tidy(kept.order, kept.items) && key !in kept.items && |kept.order| <= c.max - 1
            && kept == c.(order := kept.order, items := kept.items)
  {
    hide Tidy, Elems, Without;
    WellFormedIs(c);
    DropKeeps(c, key);
    CutKeeps(Drop(c, key), Max(0, |Drop(c, key).order| - (c.max - 1)));
  }

  lemma WellFormedIs<P>(c: CacheState<P>)
    ensures WellFormed(c) <==> Tidy(c.order, c.items) && 1 <= c.max && |c.order| <= c.max
  {
  }

  lemma SetKeeps<P>(c: CacheState<P>, key: string, packet: P, ttl: int, now: int)
    requires WellFormed(c)
    ensures WellFormed(SetStep(c, key, packet, ttl, now))
  {
    hide WellFormed, Tidy, Newest, Drop;
    WellFormedIs(c);
    if ttl > 0 {
      RoomKeeps(c, key);
      var kept := Newest(Drop(c, key), c.max - 1);
      AppendKeeps(kept, key, Entry(packet, now + ttl));
      WellFormedIs(SetStep(c, key, packet, ttl, now));
    }
  }

  lemma SweepKeeps<P>(c: CacheState<P>, now: int)
    requires WellFormed(c)
    ensures WellFormed(SweepStep(c, now))
    ensures forall k :: k in SweepStep(c, now).items <==> Live(c, k, now)
  {
    ExceptDistinct(c.order, Expired(c, now));
    ExceptLength(c.order, Expired(c, now));
  }

  lemma {:induction false} ExceptLength<T(!new)>(s: seq<T>, gone: set<T>)
    ensures |Except(s, gone)| <= |s|
  {
    if s != [] { ExceptLength(s[1..], gone); }
  }

  lemma ResizeKeeps<P>(c: CacheState<P>, maxEntries: int)
    requires WellFormed(c)
    ensures WellFormed(ResizeStep(c, maxEntries))
  {
    var m := Max(1, maxEntries);
    hide Tidy, Elems;
    CutKeeps(c.(max := m), Max(0, |c.order| - m));
  }

  /** One turn of the eviction loop. */
  lemma CutOneMore<P>(c: CacheState<P>, k: nat)
    requires k < |c.order|
    ensures Cut(c, k + 1) == Drop(Cut(c, k), c.order[k])
  {
    assert c.order[k..][1..] == c.order[k + 1..];
    assert c.order[..k + 1][..k] == c.order[..k];
    assert c.items - Elems(c.order[..k]) - {c.order[k]} == c.items - Elems(c.order[..k + 1]);
  }

  /** One turn of the eviction loop keeps what the loop will end with. */
  lemma {:induction false} EvictOne<P>(c: CacheState<P>, limit: nat)
    requires Tidy(c.order, c.items) && limit < |c.order|
    ensures var d := Drop(c, c.order[0]);
            Tidy(d.order, d.items) && |d.items| == |c.items| - 1 && Newest(d, limit) == Newest(c, limit)
  {
    DropKeeps(c, c.order[0]);
    SizeIsOrder(c);
    SizeIsOrder(Drop(c, c.order[0]));
    DropThenCut(c, |c.order| - limit);
    hide Tidy, Cut;
  }

  lemma DropThenCut<P>(c: CacheState<P>, k: nat)
    requires 1 <= k <= |c.order|
    ensures |Drop(c, c.order[0]).order| == |c.order| - 1
    ensures Cut(Drop(c, c.order[0]), k - 1) == Cut(c, k)
  {
    var d := Drop(c, c.order[0]);
    assert d.order == c.order[1..];
    assert d.order[k - 1..] == c.order[k..];
    ElemsHead(c.order[..k]);
    assert c.order[..k][1..] == d.order[..k - 1];
    MinusTwice(c.items, {c.order[0]}, Elems(d.order[..k - 1]));
  }

  lemma MinusTwice<E>(m: map<string, E>, a: set<string>, b: set<string>)
    ensures m - a - b == m - (a + b)
  {
  }

  lemma {:induction false} ElemsHead<T(!new)>(s: seq<T>)
    requires s != []
    ensures Elems(s) == {s[0]} + Elems(s[1..])
  {
    if |s| > 1 {
      ElemsHead(s[..|s| - 1]);
      assert s[..|s| - 1][1..] == s[1..][..|s| - 2];
    }
  }

  lemma NewestIsAll<P>(c: CacheState<P>, limit: nat)
    requires Tidy(c.order, c.items) && |c.items| <= limit
    ensures Newest(c, limit) == c
  {
    CutKeeps(c, 0);
  }

  /** One turn of the sweep loop. */
  lemma PurgeOneMore<P>(c: CacheState<P>, gone: set<string>, key: string)
    requires Distinct(c.order)
    ensures Purged(c, gone + {key}) == Drop(Purged(c, gone), key)
  {
    ExceptOneMore(c.order, gone, key);
    assert c.items - (gone + {key}) == c.items - gone - {key};
  }

  lemma PurgeNothing<P>(c: CacheState<P>)
    ensures Purged(c, {}) == c
  {
    ExceptNothing(c.order);
    assert c.items - {} == c.items;
  }

  /** Room made for `key`: nothing is evicted for a resident key, and for a new
      one in a full cache exactly the least recently set or hit key goes. */
  lemma RoomMade<P>(c: CacheState<P>, key: string)
    requires WellFormed(c)
    ensures var victims := if key !in c.items && |c.order| == c.max then {c.order[0]} else {};
            Newest(Drop(c, key), c.max - 1).items == c.items - {key} - victims
  {
    var d := Drop(c, key);
    DropKeeps(c, key);
    CutKeeps(d, 0);
    if key !in c.items && |c.order| == c.max {
      CutOneMore(c, 0);
    }
  }

  /** What a Set leaves: the new entry as most recent, and every other entry as
      it was but for the one evicted. */
  lemma SetEvictsOldest<P>(c: CacheState<P>, key: string, packet: P, ttl: int, now: int)
    requires WellFormed(c) && ttl > 0
    ensures var after := SetStep(c, key, packet, ttl, now);
            var victims := if key !in c.items && |c.order| == c.max then {c.order[0]} else {};
            && after.items == (c.items - {key} - victims)[key := Entry(packet, now + ttl)]
            && after.order[|after.order| - 1] == key
  {
    RoomMade(c, key);
  }

  /** A hit changes nothing but answer TTLs, which only go down, and the time a
      record has been kept plus the TTL it is served with stays under its
      lifetime (in seconds) plus one second. A TTL that fits 32 bits goes down no
      further than to the time left, rounded to the nearest second, or to one
      second when that is less, and only if it was above. */
  lemma ServedTtls(packet: Packet, at: int, lifetime: int, now: int)
    requires at <= now < at + lifetime * SECOND
    ensures var served := Served(Entry(packet, at + lifetime * SECOND), now);
            && served.rcode == packet.rcode && served.authorities == packet.authorities
            && served.additionals == packet.additionals && |served.answers| == |packet.answers|
            && forall i :: 0 <= i < |served.answers| ==>
                 && served.answers[i] == packet.answers[i].(ttl := served.answers[i].ttl)
                 && served.answers[i].ttl <= packet.answers[i].ttl
                 && (now - at) + served.answers[i].ttl * SECOND < (lifetime + 1) * SECOND
                 && (lifetime < 0x1_0000_0000 ==>
                      RoundedDown(packet.answers[i].ttl, served.answers[i].ttl, at + lifetime * SECOND - now))
  {
    var left := at + lifetime * SECOND - now;
    var limit := Remaining(at + lifetime * SECOND, now);
    assert (left + SECOND / 2) / SECOND * SECOND <= left + SECOND / 2;
    assert limit * SECOND < left + SECOND;
    if lifetime < 0x1_0000_0000 {
      assert (left + SECOND / 2) / SECOND < 0x1_0000_0000;
      forall i | 0 <= i < |packet.answers|
        ensures RoundedDown(packet.answers[i].ttl, Aged(packet.answers[i], limit).ttl, left)
      {
      }
    }
  }

  /** `served` is `stored` unless that is above the `left` nanoseconds rounded to
      the nearest second; then it is that number of seconds, but at least one. */
  ghost predicate RoundedDown(stored: nat, served: nat, left: int) {
    && (served == stored || (served == 1 && left < 500_000_000)
        || left - 500_000_000 < served * 1_000_000_000 <= left + 500_000_000)
    && (served != stored ==> stored * 1_000_000_000 > left + 500_000_000)
  }

  // ---- The operations by what they do to each entry -----------------------

  /** A lookup hits exactly what is there and has not expired. A hit is counted
      and becomes the most recent key; a miss is counted and drops the key. */
  lemma LookupIs(c: CacheState<Packet>, key: string, now: int)
    requires WellFormed(c)
    ensures var (after, found) := GetStep(c, key, now);
            && (found.Some? <==> key in c.items && now < c.items[key].expires)
            && after.max == c.max
            && (found.Some? ==> after.items == c.items && after.hits == c.hits + 1 && after.misses == c.misses
                                && after.order != [] && after.order[|after.order| - 1] == key)
            && (found.None? ==> after.items == c.items - {key} && after.hits == c.hits && after.misses == c.misses + 1)
  {
  }

  /** Nothing is stored for no time; otherwise the entry lives for just that long. */
  lemma StoreIs<P>(c: CacheState<P>, key: string, packet: P, ttl: int, now: int)
    requires WellFormed(c)
    ensures var after := SetStep(c, key, packet, ttl, now);
            && (ttl <= 0 ==> after == c)
            && (ttl > 0 ==> key in after.items && after.items[key] == Entry(packet, now + ttl))
            && after.max == c.max && after.hits == c.hits && after.misses == c.misses
  {
  }

  /** A sweep keeps what has not expired, in its order, and counts nothing. */
  lemma SweepIs<P>(c: CacheState<P>, now: int)
    ensures var after := SweepStep(c, now);
            && after.items == (map k | k in c.items && now < c.items[k].expires :: c.items[k])
            && after.max == c.max && after.hits == c.hits && after.misses == c.misses
  {
  }

  /** A resize keeps the most recent entries that fit the bound, at least one. */
  lemma ResizeIs<P>(c: CacheState<P>, maxEntries: int)
    requires WellFormed(c)
    ensures var after := ResizeStep(c, maxEntries);
            && after.max == (if maxEntries < 1 then 1 else maxEntries)
            && after.order == Last(c.order, after.max) && (forall k :: k in after.items <==> k in after.order)
            && (forall k :: k in after.items ==> k in c.items && after.items[k] == c.items[k])
            && after.hits == c.hits && after.misses == c.misses
  {
    hide Tidy, WellFormed, Cut, Sub;
    WellFormedIs(c);
    var m := Max(1, maxEntries);
    var wide := c.(max := m);
    var k := Max(0, |c.order| - m);
    CutKeeps(wide, k);
    CutIs(wide, k);
    TidyKeys(Cut(wide, k));
  }

  lemma CutIs<P>(c: CacheState<P>, k: nat)
    requires k <= |c.order|
    ensures var after := Cut(c, k);
            && after.max == c.max && after.hits == c.hits && after.misses == c.misses
            && forall key :: key in after.items ==> key in c.items && after.items[key] == c.items[key]
  {
    hide Elems;
  }

  lemma TidyKeys<P>(c: CacheState<P>)
    requires Tidy(c.order, c.items)
    ensures forall k :: k in c.items <==> k in c.order
  {
  }

  // ---- Two states with the same shape keep it ----------------------------

  /** Equal but for what the packets are. */
  ghost predicate SameShape<P, Q>(c: CacheState<P>, d: CacheState<Q>) {
    && c.max == d.max && c.order == d.order && c.hits == d.hits && c.misses == d.misses
    && c.items.Keys == d.items.Keys
    && forall k :: k in c.items ==> c.items[k].expires == d.items[k].expires
  }

  lemma TouchKeepsShape<P, Q>(c: CacheState<P>, d: CacheState<Q>, key: string, now: int)
    requires SameShape(c, d)
    ensures Live(c, key, now) <==> Live(d, key, now)
    ensures key in c.items ==> key in d.items && d.items[key].expires == c.items[key].expires
    ensures SameShape(Touch(c, key, now), Touch(d, key, now))
  {
  }

  lemma SetKeepsShape<P, Q>(c: CacheState<P>, d: CacheState<Q>, key: string, p: P, q: Q, ttl: int, now: int)
    requires SameShape(c, d) && c.max >= 1
    ensures SameShape(SetStep(c, key, p, ttl, now), SetStep(d, key, q, ttl, now))
  {
  }

  lemma SweepKeepsShape<P, Q>(c: CacheState<P>, d: CacheState<Q>, now: int)
    requires SameShape(c, d)
    ensures SameShape(SweepStep(c, now), SweepStep(d, now))
  {
    assert Expired(c, now) == Expired(d, now);
  }

  lemma ResizeKeepsShape<P, Q>(c: CacheState<P>, d: CacheState<Q>, n: int)
    requires SameShape(c, d)
    ensures SameShape(ResizeStep(c, n), ResizeStep(d, n))
  {
  }

  ghost predicate Sub<E>(a: map<string, E>, b: map<string, E>) {
    a.Keys <= b.Keys && forall k :: k in a ==> a[k] == b[k]
  }

  /** Steps other than Set only remove entries, and Set adds one. */
  lemma StepsOnlyRemove<P>(c: CacheState<P>, key: string, now: int, n: int)
    ensures Sub(Touch(c, key, now).items, c.items)
    ensures Sub(SweepStep(c, now).items, c.items)
    ensures Sub(ResizeStep(c, n).items, c.items)
  {
  }

  lemma SetAddsOne<P>(c: CacheState<P>, key: string, p: P, ttl: int, now: int)
    requires c.max >= 1 && ttl > 0
    ensures var after := SetStep(c, key, p, ttl, now).items;
            key in after && after[key] == Entry(p, now + ttl) && Sub(after - {key}, c.items)
  {
  }
}
