/** The cache object: every method works in place and is proved against the
    value-level step of the same name. A record is an object behind a pointer;
    the cache copies each one on the way in and on the way out, so the records
    in `owned` are nobody else's. */
module AnswerCache {
  import opened Basics
  import opened CacheSteps

  /** A resource record as the program holds it: behind a pointer. */
  class Rec {
    var rec: Record

    constructor (rec: Record)
      ensures this.rec == rec
    {
      this.rec := rec;
    }
  }

  /** A packet as its holder sees it: records that can be written to. */
  datatype Refs = Refs(rcode: int, answers: seq<Rec>, authorities: seq<Rec>, additionals: seq<Rec>)

  function RecsOf(records: seq<Rec>): set<Rec> {
    set r | r in records
  }

  function Objects(r: Refs): set<Rec> {
    RecsOf(r.answers) + RecsOf(r.authorities) + RecsOf(r.additionals)
  }

  function Values(records: seq<Rec>): (values: seq<Record>)
    reads RecsOf(records)
    ensures |values| == |records| && forall i :: 0 <= i < |records| ==> values[i] == records[i].rec
  {
    seq(|records|, i requires 0 <= i < |records| reads RecsOf(records) => records[i].rec)
  }

  function PacketOf(r: Refs): Packet
    reads Objects(r)
  {
    Packet(r.rcode, Values(r.answers), Values(r.authorities), Values(r.additionals))
  }

  twostate lemma PacketStays(r: Refs)
    requires forall o :: o in Objects(r) ==> o.rec == old(o.rec)
    ensures PacketOf(r) == old(PacketOf(r))
  {
    assert Values(r.answers) == old(Values(r.answers));
    assert Values(r.authorities) == old(Values(r.authorities));
    assert Values(r.additionals) == old(Values(r.additionals));
  }

  ghost predicate Separate(records: seq<Rec>) {
    forall i, j :: 0 <= i < j < |records| ==> records[i] != records[j]
  }

  /** A new record for each one of the source. */
  method CloneRRs(source: seq<Rec>) returns (out: seq<Rec>)
    ensures fresh(RecsOf(out)) && Separate(out) && Values(out) == old(Values(source))
  {
    out := [];
    for i := 0 to |source|
      invariant |out| == i && (forall r :: r in out ==> fresh(r)) && Separate(out)
      invariant forall k :: 0 <= k < i ==> out[k].rec == source[k].rec
    {
      var copy := new Rec(source[i].rec);
      out := out + [copy];
    }
  }

  method CloneResult(source: Refs) returns (out: Refs)
    ensures fresh(Objects(out)) && PacketOf(out) == old(PacketOf(source))
    ensures Separate(out.answers) && RecsOf(out.answers) !! RecsOf(out.authorities) + RecsOf(out.additionals)
  {
    hide Separate, Values;
    var answers := CloneRRs(source.answers);
    var authorities := CloneRRs(source.authorities);
    var additionals := CloneRRs(source.additionals);
    out := Refs(source.rcode, answers, authorities, additionals);
  }

  method LowerTTLs(answers: seq<Rec>, limit: nat)
    requires Separate(answers)
    modifies RecsOf(answers)
    ensures Values(answers) == AgedAll(old(Values(answers)), limit)
  {
    for i := 0 to |answers|
      invariant forall k :: 0 <= k < |answers| ==>
        answers[k].rec == if k < i then Aged(old(answers[k].rec), limit) else old(answers[k].rec)
    {
      if answers[i].rec.ttl > limit {
        answers[i].rec := answers[i].rec.(ttl := limit);
      }
    }
  }

  /** The storage kept under each key lies in `region` and shows the packet. */
  ghost predicate Holds(items: map<string, Entry<Refs>>, contents: map<string, Entry<Packet>>,
                        region: set<Rec>)
    reads region
  {
    forall k :: k in items ==>
      k in contents && Objects(items[k].packet) <= region && contents[k].packet == PacketOf(items[k].packet)
  }

  /** The fields, with records left as records, stand for the value. */
  ghost predicate Shows(fields: CacheState<Refs>, value: CacheState<Packet>, region: set<Rec>)
    reads region
  {
    WellFormed(fields) && SameShape(fields, value) && Holds(fields.items, value.items, region)
  }

  lemma ShowsParts(fields: CacheState<Refs>, value: CacheState<Packet>, region: set<Rec>)
    requires Shows(fields, value, region)
    ensures WellFormed(fields) && SameShape(fields, value) && Holds(fields.items, value.items, region)
    ensures Tidy(fields.order, fields.items) && fields.max == value.max >= 1 && fields.order == value.order
  {
    hide Tidy, Holds;
  }

  lemma HoldsAfter(before: CacheState<Refs>, value: CacheState<Packet>, region: set<Rec>,
                   after: CacheState<Refs>, valueAfter: CacheState<Packet>)
    requires Holds(before.items, value.items, region)
    requires Sub(after.items, before.items) && Sub(valueAfter.items, value.items) && SameShape(after, valueAfter)
    ensures Holds(after.items, valueAfter.items, region)
  {
  }

  lemma HoldsOneMore(items: map<string, Entry<Refs>>, contents: map<string, Entry<Packet>>,
                     region: set<Rec>, key: string)
    requires Holds(items - {key}, contents - {key}, region)
    requires key in items && key in contents && contents[key].packet == PacketOf(items[key].packet)
    ensures Holds(items, contents, region + Objects(items[key].packet))
  {
    hide PacketOf, Objects;
    assert forall k :: k in items && k != key ==> k in items - {key};
  }

  lemma HeldEntry(fields: CacheState<Refs>, value: CacheState<Packet>, region: set<Rec>, key: string)
    requires SameShape(fields, value) && Holds(fields.items, value.items, region) && key in fields.items
    ensures key in value.items
         && value.items[key] == Entry(PacketOf(fields.items[key].packet), fields.items[key].expires)
  {
    hide PacketOf, Objects;
  }

  // What the fields stand for after a step is the value after that step.

  lemma TouchShows(fields: CacheState<Refs>, value: CacheState<Packet>, region: set<Rec>, key: string, now: int)
    requires Shows(fields, value, region)
    ensures Shows(Touch(fields, key, now), Touch(value, key, now), region)
    ensures Live(fields, key, now) <==> Live(value, key, now)
    ensures Live(fields, key, now) ==>
              value.items[key] == Entry(PacketOf(fields.items[key].packet), fields.items[key].expires)
  {
    hide Touch, WellFormed, SameShape, Sub, Holds, PacketOf;
    GetKeeps(fields, key, now);
    TouchKeepsShape(fields, value, key, now);
    StepsOnlyRemove(fields, key, now, 0);
    StepsOnlyRemove(value, key, now, 0);
    HoldsAfter(fields, value, region, Touch(fields, key, now), Touch(value, key, now));
    if Live(fields, key, now) { HeldEntry(fields, value, region, key); }
  }

  lemma SweepShows(fields: CacheState<Refs>, value: CacheState<Packet>, region: set<Rec>, now: int)
    requires Shows(fields, value, region)
    ensures Shows(SweepStep(fields, now), SweepStep(value, now), region)
  {
    hide SweepStep, WellFormed, SameShape, Sub, Holds;
    SweepKeeps(fields, now);
    SweepKeepsShape(fields, value, now);
    StepsOnlyRemove(fields, "", now, 0);
    StepsOnlyRemove(value, "", now, 0);
    HoldsAfter(fields, value, region, SweepStep(fields, now), SweepStep(value, now));
  }

  lemma ResizeShows(fields: CacheState<Refs>, value: CacheState<Packet>, region: set<Rec>, maxEntries: int)
    requires Shows(fields, value, region)
    ensures Shows(ResizeStep(fields, maxEntries), ResizeStep(value, maxEntries), region)
  {
    hide ResizeStep, WellFormed, SameShape, Sub, Holds;
    ResizeKeeps(fields, maxEntries);
    ResizeKeepsShape(fields, value, maxEntries);
    StepsOnlyRemove(fields, "", 0, maxEntries);
    StepsOnlyRemove(value, "", 0, maxEntries);
    HoldsAfter(fields, value, region, ResizeStep(fields, maxEntries), ResizeStep(value, maxEntries));
  }

  lemma FlushShows(fields: CacheState<Refs>, value: CacheState<Packet>, region: set<Rec>)
    requires Shows(fields, value, region)
    ensures Shows(FlushStep(fields), FlushStep(value), region)
  {
  }

  lemma SetShows(fields: CacheState<Refs>, value: CacheState<Packet>, region: set<Rec>, key: string, copy: Refs,
                 ttl: int, now: int)
    requires Shows(fields, value, region) && fields.max >= 1 && value.max >= 1 && ttl > 0
    ensures Shows(SetStep(fields, key, copy, ttl, now), SetStep(value, key, PacketOf(copy), ttl, now),
                  region + Objects(copy))
  {
    hide SetStep, WellFormed, SameShape, Sub, Holds, PacketOf, Objects;
    var after, valueAfter := SetStep(fields, key, copy, ttl, now), SetStep(value, key, PacketOf(copy), ttl, now);
    SetKeeps(fields, key, copy, ttl, now);
    SetKeepsShape(fields, value, key, copy, PacketOf(copy), ttl, now);
    SetAddsOne(fields, key, copy, ttl, now);
    SetAddsOne(value, key, PacketOf(copy), ttl, now);
    ShapeWithout(after, valueAfter, key);
    HoldsAfter(fields, value, region, after.(items := after.items - {key}),
               valueAfter.(items := valueAfter.items - {key}));
    HoldsOneMore(after.items, valueAfter.items, region, key);
  }

  lemma ShapeWithout(c: CacheState<Refs>, d: CacheState<Packet>, key: string)
    requires SameShape(c, d)
    ensures SameShape(c.(items := c.items - {key}), d.(items := d.items - {key}))
  {
  }

  /** A private copy as it is served at `now`. */
  method ServedCopy(entry: Entry<Refs>, now: int) returns (clone: Refs)
    ensures fresh(Objects(clone))
    ensures PacketOf(clone) == Served(Entry(old(PacketOf(entry.packet)), entry.expires), now)
  {
    hide AgedAll;
    var remaining := Remaining(entry.expires, now);
    clone := CloneResult(entry.packet);
    LowerTTLs(clone.answers, remaining);
  }

  class Cache {
    var max: int
    var items: map<string, Entry<Refs>>
    var order: seq<string>
    var hits: nat
    var misses: nat
    ghost var owned: set<Rec>                // all records the cache holds
    ghost var state: CacheState<Packet>      // the cache as a value

    ghost function Fields(): CacheState<Refs>
      reads this
    {
      CacheState(max, items, order, hits, misses)
    }

    ghost predicate Valid()
      reads this, owned
      ensures Valid() ==> state.max >= 1
    {
      Shows(Fields(), state, owned)
    }

    constructor (maxEntries: int)
      ensures Valid() && fresh(owned)
      ensures state == CacheState(Max(1, maxEntries), map[], [], 0, 0)
    {
      max := if maxEntries < 1 then 1 else maxEntries;
      items, order, hits, misses, owned := map[], [], 0, 0, {};
      state := CacheState(Max(1, maxEntries), map[], [], 0, 0);
    }

    method RemoveOrder(key: string)
      modifies this`order
      ensures order == Without(old(order), key)
    {
      for i := 0 to |order|
        invariant order == old(order)
        invariant forall j :: 0 <= j < i ==> order[j] != key
      {
        if order[i] == key {
          WithoutAt(order, key, i);
          order := order[..i] + order[i + 1..];
          return;
        }
      }
      WithoutAbsent(order, key);
    }

    method TouchOrder(key: string)
      modifies this`order
      ensures order == Without(old(order), key) + [key]
    {
      RemoveOrder(key);
      order := order + [key];
    }

    method Remove(key: string)
      modifies this`order, this`items
      ensures Fields() == Drop(old(Fields()), key) && items == old(items) - {key}
    {
      items := items - {key};
      RemoveOrder(key);
    }

    /** The eviction loop: drop the front of `order` until `limit` entries are left. */
    method EvictDownTo(limit: nat)
      requires Tidy(order, items)
      modifies this`order, this`items
      ensures Fields() == Newest(old(Fields()), limit)
    {
      ghost var start := Fields();
      hide Newest, Drop, Tidy;
      while |items| > limit
        invariant Tidy(order, items) && Newest(Fields(), limit) == Newest(start, limit)
        decreases |items|
      {
        SizeIsOrder(Fields());
        EvictOne(Fields(), limit);
        Remove(order[0]);
      }
      NewestIsAll(Fields(), limit);
    }

    method Get(key: string, now: int) returns (result: Option<Refs>)
      requires Valid()
      modifies this
      ensures Valid() && owned == old(owned)
      ensures state == GetStep(old(state), key, now).0
      ensures result.Some? ==> fresh(Objects(result.value))
      ensures GetStep(old(state), key, now).1 == if result.Some? then Some(PacketOf(result.value)) else None
    {
      hide Shows, Tidy, SameShape, Holds, WellFormed, Served, Without, PacketOf;
      ShowsParts(Fields(), state, owned);
      DropKeeps(Fields(), key);
      TouchShows(Fields(), state, owned, key, now);
      state := Touch(state, key, now);
      if key !in items || !(now < items[key].expires) {
        if key in items {
          Remove(key);
        }
        misses := misses + 1;
        return None;
      }
      var entry := items[key];
      hits := hits + 1;
      TouchOrder(key);
      PacketStays(entry.packet);
      var clone := ServedCopy(entry, now);
      result := Some(clone);
    }

    method Set(key: string, result: Refs, ttl: int, now: int)
      requires Valid()
      modifies this
      ensures Valid() && fresh(owned - old(owned))
      ensures state == SetStep(old(state), key, old(PacketOf(result)), ttl, now)
    {
      hide Shows, Tidy, SameShape, Holds, WellFormed, Newest, Drop, PacketOf;
      if ttl <= 0 {
        return;
      }
      ShowsParts(Fields(), state, owned);
      ghost var before, packet := Fields(), PacketOf(result);
      MakeRoom(key);
      PacketStays(result);
      var copy := CloneResult(result);
      assert PacketOf(copy) == packet;
      items := items[key := Entry(copy, now + ttl)];
      order := order + [key];
      assert PacketOf(copy) == packet;
      SetShows(before, state, owned, key, copy, ttl, now);
      state := SetStep(state, key, PacketOf(copy), ttl, now);
      owned := owned + Objects(copy);
    }

    /** The room a Set makes before it stores under `key`. */
    method MakeRoom(key: string)
      requires Tidy(order, items) && max >= 1
      modifies this`order, this`items
      ensures Fields() == Newest(Drop(old(Fields()), key), max - 1)
    {
      hide Tidy, Newest;
      DropKeeps(Fields(), key);
      if key in items {
        Remove(key);
      }
      EvictDownTo(max - 1);
    }

    method Sweep(now: int)
      requires Valid()
      modifies this`order, this`items, this`state
      ensures Valid() && state == SweepStep(old(state), now)
    {
      hide Shows, Tidy, SameShape, Holds, WellFormed, SweepStep;
      ShowsParts(Fields(), state, owned);
      SweepShows(Fields(), state, owned, now);
      SweepLoop(now);
      state := SweepStep(state, now);
    }

    /** The sweep visits the keys in any order. */
    method SweepLoop(now: int)
      requires Tidy(order, items)
      modifies this`order, this`items
      ensures Fields() == SweepStep(old(Fields()), now)
    {
      ghost var start := Fields();
      PurgeNothing(start);
      assert Distinct(order);
      ghost var expired := Expired(start, now);
      assert forall k :: k in items ==> (k in expired <==> start.items[k].expires <= now);
      hide Tidy, Expired, Purged, Drop;
      var unseen := items.Keys;
      ghost var gone := {};
      while unseen != {}
        invariant unseen <= items.Keys && forall k :: k in unseen ==> items[k] == start.items[k]
        invariant gone <= expired <= gone + unseen
        invariant Fields() == Purged(start, gone)
        decreases unseen
      {
        var key :| key in unseen;
        unseen := unseen - {key};
        if !(now < items[key].expires) {
          PurgeOneMore(start, gone, key);
          Remove(key);
          gone := gone + {key};
        }
      }
      assert gone == expired;
    }

    method Flush() returns (count: nat)
      requires Valid()
      modifies this`order, this`items, this`state
      ensures Valid() && state == FlushStep(old(state)) && count == |old(state).order|
      ensures state == old(state).(items := map[], order := [])
    {
      hide Shows, Tidy, SameShape, Holds, WellFormed;
      ShowsParts(Fields(), state, owned);
      FlushShows(Fields(), state, owned);
      SizeIsOrder(Fields());
      count := |items|;
      items := map[];
      order := [];
      state := FlushStep(state);
    }

    method SetMaxEntries(maxEntries: int)
      requires Valid()
      modifies this`max, this`order, this`items, this`state
      ensures Valid() && state == ResizeStep(old(state), maxEntries)
    {
      hide Shows, Tidy, SameShape, Holds, WellFormed, Newest;
      ShowsParts(Fields(), state, owned);
      ResizeShows(Fields(), state, owned, maxEntries);
      state := ResizeStep(state, maxEntries);
      max := if maxEntries < 1 then 1 else maxEntries;
      EvictDownTo(max);
    }
  }

  /** A caller that writes over every record it holds. */
  method Scribble(r: Refs, junk: Record)
    modifies Objects(r)
  {
    Fill(r.answers, junk);
    Fill(r.authorities, junk);
    Fill(r.additionals, junk);
  }

  method Fill(records: seq<Rec>, junk: Record)
    modifies RecsOf(records)
    ensures forall r :: r in records ==> r.rec == junk
  {
    for i := 0 to |records|
      invariant forall k :: 0 <= k < i ==> records[k].rec == junk
    {
      records[i].rec := junk;
    }
  }

  /** Records handed out by Get are the caller's own: writing over all of them
      changes nothing in the cache. */
  method WriteToServed(c: Cache, key: string, junk: Record, now: int)
    requires c.Valid()
    modifies c
    ensures c.Valid() && c.state == Touch(old(c.state), key, now)
  {
    hide Touch, Served, Live, Cache.Valid;
    var served := c.Get(key, now);
    if served.Some? {
      Scribble(served.value, junk);
    }
  }

  /** Records passed in to Set stay the caller's own: writing over all of them
      later does not change what was stored. */
  method WriteToStored(c: Cache, key: string, packet: Refs, junk: Record, ttl: int, now: int)
    requires c.Valid() && Objects(packet) !! c.owned
    modifies c, Objects(packet)
    ensures c.Valid() && c.state == SetStep(old(c.state), key, old(PacketOf(packet)), ttl, now)
  {
    hide SetStep, Cache.Valid, PacketOf, Values;
    c.Set(key, packet, ttl, now);
    Scribble(packet, junk);
  }
}
