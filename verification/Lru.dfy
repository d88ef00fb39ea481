/** Least-recently-used eviction as a stack algorithm: with a fixed capacity and
    no expiry the recency list is the tail of the accesses ordered by last use,
    so a bigger cache always holds what a smaller one holds. */
module Lru {
  import opened Basics
  import opened CacheSteps

  /** A lookup, and what is stored if it misses. */
  datatype Access = Access(key: string, packet: Packet, ttl: int, now: int)

  function Use(c: CacheState<Packet>, a: Access): CacheState<Packet>
    requires c.max >= 1
  {
    var (c', hit) := GetStep(c, a.key, a.now);
    if hit.Some? then c' else SetStep(c', a.key, a.packet, a.ttl, a.now)
  }

  function Run(max: nat, accesses: seq<Access>): (c: CacheState<Packet>)
    requires max >= 1
    ensures c.max == max
  {
    if accesses == [] then CacheState(max, map[], [], 0, 0)
    else Use(Run(max, accesses[..|accesses| - 1]), accesses[|accesses| - 1])
  }

  /** Every miss is stored, and no entry is found past its time. */
  ghost predicate NoExpiry(max: nat, accesses: seq<Access>)
    requires max >= 1
  {
    forall n :: 0 <= n < |accesses| ==>
      accesses[n].ttl > 0 && (accesses[n].key in Run(max, accesses[..n]).items ==> Hits(max, accesses, n))
  }

  ghost predicate Hits(max: nat, accesses: seq<Access>, n: nat)
    requires max >= 1 && n < |accesses|
  {
    Live(Run(max, accesses[..n]), accesses[n].key, accesses[n].now)
  }

  /** The distinct keys accessed, in the order of their last access. */
  function Recency(accesses: seq<Access>): seq<string> {
    if accesses == [] then []
    else
      var key := accesses[|accesses| - 1].key;
      Without(Recency(accesses[..|accesses| - 1]), key) + [key]
  }

  lemma {:induction false} WithoutAppend(a: seq<string>, b: seq<string>, x: string)
    ensures Without(a + b, x) == if x in a then Without(a, x) + b else a + Without(b, x)
  {
    if a == [] {
      assert a + b == b;
    } else {
      var tail := a[1..];
      assert (a + b)[0] == a[0] && (a + b)[1..] == tail + b;
      if a[0] != x {
        WithoutAppend(tail, b, x);
        if x in tail {
          Regroup(a[0], Without(tail, x), b);
        } else {
          Regroup(a[0], tail, Without(b, x));
        }
      }
    }
  }

  lemma Regroup(head: string, s: seq<string>, t: seq<string>)
    ensures [head] + (s + t) == [head] + s + t
  {
  }

  lemma LastOfAppend<T>(a: seq<T>, b: seq<T>, n: nat)
    requires |b| <= n && (a == [] || |b| == n)
    ensures Last(a + b, n) == b
  {
  }

  /** Moving a key to the end commutes with keeping the last `m`. */
  lemma MoveThenKeep(r: seq<string>, key: string, m: nat)
    requires Distinct(r) && m >= 1
    ensures Last(Without(r, key) + [key], m) ==
            (if key in Last(r, m) then Without(Last(r, m), key) else Last(Last(r, m), m - 1)) + [key]
  {
    var cut := Max(0, |r| - m);
    assert r == r[..cut] + r[cut..];
    DistinctParts(r, cut);
    ElemsMembers(r[..cut]);
    WithoutMembers(r[cut..], key);
    MoveInParts(r[..cut], r[cut..], key, m);
  }

  lemma MoveInParts(head: seq<string>, tail: seq<string>, key: string, m: nat)
    requires 1 <= m && |tail| <= m && (head == [] || |tail| == m) && (key in head ==> key !in tail)
    requires |Without(tail, key)| == if key in tail then |tail| - 1 else |tail|
    ensures Last(Without(head + tail, key) + [key], m) ==
            (if key in tail then Without(tail, key) else Last(tail, m - 1)) + [key]
  {
    WithoutAppend(head, tail, key);
    if key in head {
      var shorter := Without(head, key);
      assert shorter + tail + [key] == (shorter + tail[..1]) + (tail[1..] + [key]);
      LastOfAppend(shorter + tail[..1], tail[1..] + [key], m);
    } else if key in tail {
      assert head + Without(tail, key) + [key] == head + (Without(tail, key) + [key]);
      LastOfAppend(head, Without(tail, key) + [key], m);
    } else {
      WithoutAbsent(tail, key);
      var n := Max(0, |tail| - (m - 1));
      assert head + tail + [key] == (head + tail[..n]) + (tail[n..] + [key]);
      LastOfAppend(head + tail[..n], tail[n..] + [key], m);
    }
  }

  lemma {:induction false} RecencyIsDistinct(accesses: seq<Access>)
    ensures Distinct(Recency(accesses))
  {
    if accesses != [] {
      var before, key := accesses[..|accesses| - 1], accesses[|accesses| - 1].key;
      RecencyIsDistinct(before);
      WithoutMembers(Recency(before), key);
      DistinctAppend(Without(Recency(before), key), key);
    }
  }

  /** Position of the last access to `key`, or -1. */
  function LastUse(accesses: seq<Access>, key: string): int {
    if accesses == [] then -1
    else if accesses[|accesses| - 1].key == key then |accesses| - 1
    else LastUse(accesses[..|accesses| - 1], key)
  }

  /** What Recency means: each accessed key once... */
  lemma {:induction false} RecencyListsUsed(accesses: seq<Access>)
    ensures forall k :: k in Recency(accesses) <==> LastUse(accesses, k) >= 0
  {
    if accesses != [] {
      var before, key := accesses[..|accesses| - 1], accesses[|accesses| - 1].key;
      RecencyListsUsed(before);
      RecencyIsDistinct(before);
      WithoutMembers(Recency(before), key);
    }
  }

  /** ...in the order of its last access. */
  lemma {:induction false} RecencyIsByLastUse(accesses: seq<Access>, i: nat, j: nat)
    requires i < j < |Recency(accesses)|
    ensures LastUse(accesses, Recency(accesses)[i]) < LastUse(accesses, Recency(accesses)[j]) < |accesses|
  {
    var before, key := accesses[..|accesses| - 1], accesses[|accesses| - 1].key;
    var r := Recency(before);
    RecencyIsDistinct(before);
    WithoutMembers(r, key);
    var moved := Without(r, key);
    assert moved[i] in moved;
    if j < |moved| {
      assert moved[j] in moved;
      var i', j' := PlacesBefore(r, key, i, j);
      RecencyIsByLastUse(before, i', j');
    } else {
      LastUseBelow(before, moved[i]);
    }
  }

  lemma {:induction false} LastUseBelow(accesses: seq<Access>, key: string)
    ensures LastUse(accesses, key) < |accesses|
  {
    if accesses != [] { LastUseBelow(accesses[..|accesses| - 1], key); }
  }

  lemma {:induction false} PlacesBefore(s: seq<string>, x: string, i: nat, j: nat) returns (i': nat, j': nat)
    requires i < j < |Without(s, x)|
    ensures i' < j' < |s| && s[i'] == Without(s, x)[i] && s[j'] == Without(s, x)[j]
  {
    if s[0] == x {
      i', j' := i + 1, j + 1;
    } else if i > 0 {
      i', j' := PlacesBefore(s[1..], x, i - 1, j - 1);
      i', j' := i' + 1, j' + 1;
    } else {
      i' := 0;
      j' := PlaceBefore(s[1..], x, j - 1);
      j' := j' + 1;
    }
  }

  lemma {:induction false} PlaceBefore(s: seq<string>, x: string, j: nat) returns (j': nat)
    requires j < |Without(s, x)|
    ensures j' < |s| && s[j'] == Without(s, x)[j]
  {
    if s[0] == x {
      j' := j + 1;
    } else if j == 0 {
      j' := 0;
    } else {
      j' := PlaceBefore(s[1..], x, j - 1);
      j' := j' + 1;
    }
  }

  lemma {:induction false} RunIsWellFormed(max: nat, accesses: seq<Access>)
    requires max >= 1
    ensures WellFormed(Run(max, accesses))
  {
    if accesses != [] {
      var before, a := accesses[..|accesses| - 1], accesses[|accesses| - 1];
      RunIsWellFormed(max, before);
      GetKeeps(Run(max, before), a.key, a.now);
      SetKeeps(Touch(Run(max, before), a.key, a.now), a.key, a.packet, a.ttl, a.now);
    }
  }

  lemma UseOrder(c: CacheState<Packet>, a: Access)
    requires WellFormed(c) && a.ttl > 0 && (a.key in c.items ==> Live(c, a.key, a.now))
    ensures Use(c, a).order ==
            (if a.key in c.order then Without(c.order, a.key) else Last(c.order, c.max - 1)) + [a.key]
  {
    DropKeeps(c, a.key);
    if a.key !in c.items {
      WithoutAbsent(c.order, a.key);
    }
  }

  /** The recency list is the last `max` of the keys by last access. */
  lemma {:induction false} OrderIsRecency(max: nat, accesses: seq<Access>)
    requires max >= 1 && NoExpiry(max, accesses)
    ensures Run(max, accesses).order == Last(Recency(accesses), max)
  {
    if accesses != [] {
      var n := |accesses| - 1;
      var before, a := accesses[..n], accesses[n];
      NoExpiryPrefix(max, accesses, n);
      OrderIsRecency(max, before);
      RunIsWellFormed(max, before);
      UseOrder(Run(max, before), a);
      RecencyIsDistinct(before);
      MoveThenKeep(Recency(before), a.key, max);
    }
  }

  /** Inclusion: a smaller cache's list is always the tail of a larger one's. */
  lemma {:induction false} SmallerIsTailOfLarger(small: nat, large: nat, accesses: seq<Access>)
    requires 1 <= small <= large
    requires NoExpiry(small, accesses) && NoExpiry(large, accesses)
    ensures Run(small, accesses).order == Last(Run(large, accesses).order, small)
  {
    OrderIsRecency(small, accesses);
    OrderIsRecency(large, accesses);
    LastLast(Recency(accesses), large, small);
    hide Run, Recency, NoExpiry, Last;
  }

  /** So an access that hits the smaller cache hits the larger one. */
  lemma {:induction false} LargerHitsToo(small: nat, large: nat, accesses: seq<Access>, n: nat)
    requires 1 <= small <= large && n < |accesses|
    requires NoExpiry(small, accesses) && NoExpiry(large, accesses)
    requires Hits(small, accesses, n)
    ensures Hits(large, accesses, n)
  {
    NoExpiryPrefix(small, accesses, n);
    NoExpiryPrefix(large, accesses, n);
    SmallerIsTailOfLarger(small, large, accesses[..n]);
    RunIsWellFormed(small, accesses[..n]);
    RunIsWellFormed(large, accesses[..n]);
    assert accesses[n].key in Run(small, accesses[..n]).order;
  }

  lemma NoExpiryPrefix(max: nat, accesses: seq<Access>, n: nat)
    requires max >= 1 && n <= |accesses| && NoExpiry(max, accesses)
    ensures NoExpiry(max, accesses[..n])
  {
    assert forall i :: 0 <= i < n ==> accesses[..n][..i] == accesses[..i];
    assert forall i :: 0 <= i < n ==> (Hits(max, accesses, i) ==> Hits(max, accesses[..n], i));
  }
}
