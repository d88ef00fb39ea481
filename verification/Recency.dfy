/** Eviction in any run of the cache, with lookups, stores, expiry, sweeps,
    flushes and resizes in any order: what goes for want of room is always less
    recently set or hit than what stays. */
module Recency {
  import opened Basics
  import opened CacheSteps

  datatype Op<P> =
    | Get(key: string, now: int)
    | Set(key: string, packet: P, ttl: int, now: int)
    | Sweep(now: int)
    | Flush
    | Resize(maxEntries: int)

  function Do<P>(c: CacheState<P>, op: Op<P>): (d: CacheState<P>)
    requires c.max >= 1
    ensures d.max >= 1
  {
    match op
    case Get(key, now) => Touch(c, key, now)
    case Set(key, packet, ttl, now) => SetStep(c, key, packet, ttl, now)
    case Sweep(now) => SweepStep(c, now)
    case Flush => FlushStep(c)
    case Resize(n) => ResizeStep(c, n)
  }

  function Run<P>(max: int, ops: seq<Op<P>>): (c: CacheState<P>)
    ensures c.max >= 1
  {
    if ops == [] then CacheState(Max(1, max), map[], [], 0, 0)
    else Do(Run(max, ops[..|ops| - 1]), ops[|ops| - 1])
  }

  /** The step sets the key or hits it. */
  predicate Uses<P>(c: CacheState<P>, op: Op<P>, key: string) {
    match op
    case Get(k, now) => k == key && Live(c, key, now)
    case Set(k, _, ttl, _) => k == key && ttl > 0
    case _ => false
  }

  /** Position of the last step that set or hit the key, or -1. */
  function LastUse<P>(max: int, ops: seq<Op<P>>, key: string): int {
    if ops == [] then -1
    else
      var n := |ops| - 1;
      if Uses(Run(max, ops[..n]), ops[n], key) then n else LastUse(max, ops[..n], key)
  }

  lemma {:induction false} LastUseBelow<P>(max: int, ops: seq<Op<P>>, key: string)
    ensures -1 <= LastUse(max, ops, key) < |ops|
  {
    hide Uses, Run;
    if ops != [] { LastUseBelow(max, ops[..|ops| - 1], key); }
  }

  // ---- Lists sorted by a rank --------------------------------------------

  ghost predicate Ascends(s: seq<string>, rank: string -> int) {
    s == [] || ((forall x :: x in s[1..] ==> rank(s[0]) < rank(x)) && Ascends(s[1..], rank))
  }

  lemma {:induction false} AscendsAt(s: seq<string>, rank: string -> int, i: nat, j: nat)
    requires Ascends(s, rank) && i < j < |s|
    ensures rank(s[i]) < rank(s[j])
  {
    if i == 0 {
      assert s[j] == s[1..][j - 1];
    } else {
      AscendsAt(s[1..], rank, i - 1, j - 1);
    }
  }

  lemma {:induction false} WithoutAscends(s: seq<string>, rank: string -> int, key: string)
    requires Ascends(s, rank)
    ensures Ascends(Without(s, key), rank) && forall x :: x in Without(s, key) ==> x in s
  {
    if s != [] {
      WithoutAscends(s[1..], rank, key);
      if s[0] != key { assert Without(s, key)[1..] == Without(s[1..], key); }
    }
  }

  lemma {:induction false} ExceptAscends(s: seq<string>, rank: string -> int, gone: set<string>)
    requires Ascends(s, rank)
    ensures Ascends(Except(s, gone), rank)
  {
    if s != [] {
      ExceptAscends(s[1..], rank, gone);
      if s[0] in gone {
        assert Except(s, gone) == Except(s[1..], gone);
      } else {
        assert Except(s, gone)[1..] == Except(s[1..], gone);
      }
    }
  }

  lemma {:induction false} TailAscends(s: seq<string>, rank: string -> int, k: nat)
    requires Ascends(s, rank) && k <= |s|
    ensures Ascends(s[k..], rank)
  {
    if k == 0 {
      assert s[0..] == s;
    } else {
      TailAscends(s[1..], rank, k - 1);
      assert s[1..][k - 1..] == s[k..];
    }
  }

  lemma {:induction false} AppendAscends(s: seq<string>, rank: string -> int, key: string)
    requires Ascends(s, rank) && forall x :: x in s ==> rank(x) < rank(key)
    ensures Ascends(s + [key], rank)
  {
    if s != [] {
      AppendAscends(s[1..], rank, key);
      assert (s + [key])[1..] == s[1..] + [key];
    }
  }

  lemma {:induction false} SameRanks(s: seq<string>, rank: string -> int, rank': string -> int)
    requires Ascends(s, rank) && forall x :: x in s ==> rank(x) == rank'(x)
    ensures Ascends(s, rank')
  {
    if s != [] { SameRanks(s[1..], rank, rank'); }
  }

  // ---- The recency list of any run ---------------------------------------

  function Rank<P>(max: int, ops: seq<Op<P>>): string -> int {
    key => LastUse(max, ops, key)
  }

  lemma DoKeeps<P>(c: CacheState<P>, op: Op<P>)
    requires WellFormed(c)
    ensures WellFormed(Do(c, op))
  {
    match op
    case Get(key, now) => GetKeeps(c, key, now);
    case Set(key, packet, ttl, now) => SetKeeps(c, key, packet, ttl, now);
    case Sweep(now) => SweepKeeps(c, now);
    case Flush =>
    case Resize(n) => ResizeKeeps(c, n);
  }

  lemma {:induction false} RunIsWellFormed<P>(max: int, ops: seq<Op<P>>)
    ensures WellFormed(Run(max, ops))
  {
    if ops != [] {
      var n := |ops| - 1;
      RunIsWellFormed(max, ops[..n]);
      DoKeeps(Run(max, ops[..n]), ops[n]);
    }
  }

  /** Keys the step does not use, still in order. */
  ghost predicate Left<P>(kept: seq<string>, c: CacheState<P>, op: Op<P>, rank: string -> int) {
    Ascends(kept, rank) && forall x :: x in kept ==> !Uses(c, op, x)
  }

  /** Nothing follows them but the key the step uses. */
  predicate EndsWith<P>(order: seq<string>, kept: seq<string>, c: CacheState<P>, op: Op<P>) {
    order == kept || (|order| == |kept| + 1 && order == kept + [order[|kept|]] && Uses(c, op, order[|kept|]))
  }

  lemma GetOrder<P>(c: CacheState<P>, op: Op<P>, rank: string -> int) returns (kept: seq<string>)
    requires op.Get? && WellFormed(c) && Ascends(c.order, rank)
    ensures Left(kept, c, op, rank) && EndsWith(Do(c, op).order, kept, c, op)
  {
    kept := Without(c.order, op.key);
    WithoutAscends(c.order, rank, op.key);
    WithoutMembers(c.order, op.key);
    hide Ascends, Without, Distinct;
  }

  lemma SetOrder<P>(c: CacheState<P>, op: Op<P>, rank: string -> int) returns (kept: seq<string>)
    requires op.Set? && op.ttl > 0 && WellFormed(c) && Ascends(c.order, rank)
    ensures Left(kept, c, op, rank) && EndsWith(Do(c, op).order, kept, c, op)
  {
    var less := Without(c.order, op.key);
    WithoutAscends(c.order, rank, op.key);
    WithoutMembers(c.order, op.key);
    kept := less[Max(0, |less| - (c.max - 1))..];
    TailAscends(less, rank, Max(0, |less| - (c.max - 1)));
    hide Ascends, Without, Distinct, Elems;
    assert Do(c, op).order == kept + [op.key];
  }

  /** A step leaves the keys it does not use in their order, and puts the one
      it uses last. */
  lemma StepOrder<P>(c: CacheState<P>, op: Op<P>, rank: string -> int) returns (kept: seq<string>)
    requires WellFormed(c) && Ascends(c.order, rank)
    ensures Left(kept, c, op, rank) && EndsWith(Do(c, op).order, kept, c, op)
  {
    kept := Do(c, op).order;
    match op
    case Get(_, _) => kept := GetOrder(c, op, rank);
    case Set(_, _, ttl, _) => if ttl > 0 { kept := SetOrder(c, op, rank); }
    case Sweep(now) => ExceptAscends(c.order, rank, Expired(c, now));
    case Flush =>
    case Resize(n) => TailAscends(c.order, rank, Max(0, |c.order| - Max(1, n)));
  }

  lemma {:induction false} OrderAscends<P>(max: int, ops: seq<Op<P>>)
    ensures Ascends(Run(max, ops).order, Rank(max, ops))
  {
    if ops != [] {
      var n := |ops| - 1;
      var c, op, rank := Run(max, ops[..n]), ops[n], Rank(max, ops[..n]);
      OrderAscends(max, ops[..n]);
      RunIsWellFormed(max, ops[..n]);
      hide Do, Ascends, Uses, WellFormed;
      var kept := StepOrder(c, op, rank);
      SameRanks(kept, rank, Rank(max, ops));
      var order := Run(max, ops).order;
      if order != kept {
        forall x | x in kept ensures LastUse(max, ops, x) < n { LastUseBelow(max, ops[..n], x); }
        AppendAscends(kept, Rank(max, ops), order[|kept|]);
      }
    }
  }

  /** In every run the recency list is in the order of last set or hit. */
  lemma {:induction false} OrderIsByLastUse<P>(max: int, ops: seq<Op<P>>, i: nat, j: nat)
    requires i < j < |Run(max, ops).order|
    ensures LastUse(max, ops, Run(max, ops).order[i]) < LastUse(max, ops, Run(max, ops).order[j])
  {
    OrderAscends(max, ops);
    AscendsAt(Run(max, ops).order, Rank(max, ops), i, j);
  }

  /** Every key held has been set or hit. */
  lemma {:induction false} HeldIsUsed<P>(max: int, ops: seq<Op<P>>, key: string)
    requires key in Run(max, ops).items
    ensures LastUse(max, ops, key) >= 0
  {
    var n := |ops| - 1;
    var c, op := Run(max, ops[..n]), ops[n];
    if !Uses(c, op, key) {
      assert key in c.items by { UnusedWasHeld(c, op, key); }
      HeldIsUsed(max, ops[..n], key);
    }
  }

  lemma UnusedWasHeld<P>(c: CacheState<P>, op: Op<P>, key: string)
    requires c.max >= 1 && key in Do(c, op).items && !Uses(c, op, key)
    ensures key in c.items
  {
  }

  /** The keys a step removes for want of room. */
  function Evicted<P>(c: CacheState<P>, op: Op<P>): set<string>
    requires c.max >= 1
  {
    if op.Set? || op.Resize? then c.items.Keys - Do(c, op).items.Keys else {}
  }

  /** The cut behind every eviction takes the front of the list. */
  lemma EvictedIsFront<P>(c: CacheState<P>, op: Op<P>) returns (k: nat)
    requires WellFormed(c)
    ensures k <= |c.order| && Evicted(c, op) == Elems(c.order[..k])
    ensures op.Set? ==> k == (if op.ttl > 0 && op.key !in c.items && |c.order| == c.max then 1 else 0)
    ensures op.Resize? ==> k == Max(0, |c.order| - Max(1, op.maxEntries))
  {
    k := 0;
    match op
    case Set(key, packet, ttl, now) =>
      if ttl > 0 {
        SetEvictsOldest(c, key, packet, ttl, now);
        if key !in c.items && |c.order| == c.max {
          k := 1;
          assert c.order[..1] == [c.order[0]];
          assert Elems(c.order[..1]) == {c.order[0]};
        }
      }
    case Resize(n) =>
      k := Max(0, |c.order| - Max(1, n));
      ElemsMembers(c.order[..k]);
    case Get(_, _) =>
    case Sweep(_) =>
    case Flush =>
  }

  /** In every run, whatever a store or a resize evicts was less recently set or
      hit than every key it leaves. */
  lemma {:induction false} EvictsLeastRecent<P>(max: int, ops: seq<Op<P>>, op: Op<P>, gone: string, kept: string)
    requires var c := Run(max, ops);
             gone in Evicted(c, op) && kept in c.items && kept !in Evicted(c, op)
    ensures 0 <= LastUse(max, ops, gone) < LastUse(max, ops, kept)
  {
    var c := Run(max, ops);
    HeldIsUsed(max, ops, gone);
    RunIsWellFormed(max, ops);
    var k := EvictedIsFront(c, op);
    ElemsMembers(c.order[..k]);
    hide Run, Evicted, LastUse, Elems;
    assert gone in c.order[..k] && kept in c.order && kept !in c.order[..k];
    assert forall j :: 0 <= j < k ==> c.order[j] in c.order[..k];
    var i :| 0 <= i < k && c.order[i] == gone;
    var j :| 0 <= j < |c.order| && c.order[j] == kept;
    OrderIsByLastUse(max, ops, i, j);
  }
}
