/** The live query stream: a cursor that polls the newest entries while the log
    is recorded to, trimmed and reset between polls. */
module LiveStream {
  import opened Basics
  import opened History

  const PAGE: nat := 200

  const EVERYTHING := Filter(PAGE, "", "", "", "", "", "", 0, 0)

  // ---- One poll ----------------------------------------------------------

  /** Entries newer than the cursor, which moves along with them. */
  function Scan(oldestFirst: seq<Entry>, latest: nat): (seq<Entry>, nat) {
    if oldestFirst == [] then ([], latest)
    else
      var (additions, cursor) := Scan(oldestFirst[..|oldestFirst| - 1], latest);
      var e := oldestFirst[|oldestFirst| - 1];
      if e.sequence > cursor then (additions + [e], e.sequence) else (additions, cursor)
  }

  lemma {:induction false} SelectAll(entries: seq<Entry>)
    ensures Select(EVERYTHING, entries) == entries
  {
    if entries != [] { SelectAll(entries[..|entries| - 1]); }
  }

  /** What the newest page holds: the last entries, newest first. */
  lemma NewestPage(entries: seq<Entry>)
    ensures var page := Found(entries, EVERYTHING);
            |page| == Min(PAGE, |entries|) && forall i :: 0 <= i < |page| ==> page[i] == entries[|entries| - 1 - i]
  {
    SelectAll(Reverse(entries));
    if entries != [] { ReverseMeaning(entries, 0); }
    forall i | 0 <= i < |entries| ensures Reverse(entries)[i] == entries[|entries| - 1 - i] {
      ReverseMeaning(entries, i);
    }
  }

  method Poll(store: Store, cursor: nat) returns (additions: seq<Entry>, latest: nat)
    ensures (additions, latest) == Scan(Last(store.entries, PAGE), cursor)
  {
    var recent := store.Search(EVERYTHING);
    NewestPage(store.entries);
    ghost var page := Last(store.entries, PAGE);
    additions, latest := [], cursor;
    var i := |recent|;
    assert page[..0] == [];
    while i > 0
      invariant 0 <= i <= |recent| == |page|
      invariant (additions, latest) == Scan(page[..|page| - i], cursor)
    {
      i := i - 1;
      assert page[..|page| - i][..|page| - i - 1] == page[..|page| - i - 1];
      assert recent[i] == page[|page| - i - 1];
      if recent[i].sequence > latest {
        additions := additions + [recent[i]];
        latest := recent[i].sequence;
      }
    }
    assert page[..|page|] == page;
  }

  // ---- Runs --------------------------------------------------------------

  /** A connected stream. `recorded` is everything recorded since the snapshot,
      and `ticked` how much of it was there at the last tick. */
  datatype Stream = Stream(store: State, first: nat, latest: nat, sent: seq<Entry>, recorded: seq<Entry>, ticked: nat)

  datatype Event = Change(op: Op) | Tick

  function Connect(store: State): Stream {
    var newest := if store.entries == [] then 0 else store.entries[|store.entries| - 1].sequence;
    Stream(store, newest, newest, [], [], 0)
  }

  function Next(s: Stream, e: Event): Stream {
    match e
    case Change(op) =>
      s.(store := Do(s.store, op),
         recorded := if op.Record? then s.recorded + [Stamped(s.store, op.e, op.now)] else s.recorded)
    case Tick =>
      var (additions, latest) := Scan(Last(s.store.entries, PAGE), s.latest);
      s.(latest := latest, sent := s.sent + additions, ticked := |s.recorded|)
  }

  function Follow(store: State, events: seq<Event>): Stream {
    if events == [] then Connect(store) else Next(Follow(store, events[..|events| - 1]), events[|events| - 1])
  }

  // ---- Invariant ---------------------------------------------------------

  function Unsent(s: Stream): seq<Entry>
    requires s.ticked <= |s.recorded|
  {
    s.recorded[s.ticked..]
  }

  /** The store's counter at the last tick. */
  function Mark(s: Stream): int {
    s.store.sequence - (|s.recorded| - s.ticked)
  }

  ghost predicate Inv(s: Stream) {
    && s.ticked <= |s.recorded|
    && Numbered(s.recorded, s.store.sequence) && Numbered(s.store.entries, s.store.sequence)
    && Last(s.store.entries, |s.recorded|) == Last(s.recorded, |s.store.entries|)
    && s.latest <= Mark(s) && (|s.store.entries| > |Unsent(s)| ==> s.latest == Mark(s))
  }

  /** Strictly increasing sequence numbers above `low`, up to `high`. */
  ghost predicate Rising(s: seq<Entry>, low: int, high: int) {
    && (forall i :: 0 <= i < |s| ==> low < s[i].sequence <= high)
    && (forall i, j :: 0 <= i < j < |s| ==> s[i].sequence < s[j].sequence)
  }

  /** Sent entries are newer than the snapshot, up to the last tick, and in
      strictly increasing order. */
  ghost predicate InOrder(s: Stream) {
    && Rising(s.sent, s.first, Mark(s))
    && s.first <= s.store.sequence - |s.recorded|
  }

  lemma {:induction false} ScanNumbered(s: seq<Entry>, last: nat, latest: nat)
    requires Numbered(s, last) && latest <= last
    ensures Scan(s, latest) == (Last(s, last - latest), if s == [] then latest else last)
    decreases |s|
  {
    if s != [] {
      var n := |s| - 1;
      if latest < last {
        ScanNumbered(s[..n], last - 1, latest);
        assert Last(s, last - latest) == Last(s[..n], last - 1 - latest) + [s[n]];
      } else {
        ScanOld(s[..n], latest);
      }
    }
  }

  lemma {:induction false} ScanOld(s: seq<Entry>, latest: nat)
    requires forall i :: 0 <= i < |s| ==> s[i].sequence <= latest
    ensures Scan(s, latest) == ([], latest)
  {
    if s != [] { ScanOld(s[..|s| - 1], latest); }
  }

  lemma LastOfTail<T>(s: seq<T>, k: nat, n: nat)
    requires k <= |s| && (n <= |s| - k)
    ensures Last(s[k..], n) == Last(s, n)
  {
  }

  lemma NumberedLast(s: seq<Entry>, last: nat, n: nat)
    requires Numbered(s, last)
    ensures Numbered(Last(s, n), last)
  {
  }

  /** A tick sends exactly the last min(200, retained) entries recorded since the
      tick before. */
  lemma TickSends(s: Stream)
    requires Inv(s)
    ensures Scan(Last(s.store.entries, PAGE), s.latest) ==
            (Last(Unsent(s), Min(200, |s.store.entries|)),
             if s.store.entries == [] then s.latest else s.store.sequence)
  {
    hide Last, Scan, Numbered;
    var entries, waiting := s.store.entries, |Unsent(s)|;
    var page := Last(entries, PAGE);
    NumberedLast(entries, s.store.sequence, PAGE);
    ScanNumbered(page, s.store.sequence, s.latest);
    LastLast(entries, PAGE, s.store.sequence - s.latest);
    LastCap(entries, PAGE);
    var n := Min(PAGE, s.store.sequence - s.latest);
    var m := Min(Min(PAGE, |entries|), waiting);
    LastCap(entries, n);
    LastCap(entries, m);
    LastLast(entries, |s.recorded|, m);
    LastLast(s.recorded, |entries|, m);
    LastOfTail(s.recorded, s.ticked, m);
    LastCap(Unsent(s), Min(PAGE, |entries|));
  }

  lemma RisingAppend(a: seq<Entry>, b: seq<Entry>, low: int, mid: int, high: int)
    requires Rising(a, low, mid) && Rising(b, mid, high) && low <= mid <= high
    ensures Rising(a + b, low, high)
  {
  }

  lemma NumberedRises(s: seq<Entry>, last: nat)
    requires Numbered(s, last)
    ensures Rising(s, last - |s|, last)
  {
  }

  lemma RisingAbove(s: seq<Entry>, low: int, lower: int, high: int)
    requires Rising(s, low, high) && lower <= low
    ensures Rising(s, lower, high)
  {
  }

  lemma UnsentNumbered(s: Stream)
    requires Inv(s)
    ensures Numbered(Unsent(s), s.store.sequence)
  {
  }

  lemma TickKeepsInv(s: Stream)
    requires Inv(s)
    ensures Inv(Next(s, Tick))
  {
    TickSends(s);
    hide Scan;
  }

  lemma TickKeepsOrder(s: Stream)
    requires Inv(s) && InOrder(s)
    ensures InOrder(Next(s, Tick))
  {
    TickSends(s);
    var n := Min(PAGE, |s.store.entries|);
    var additions := Last(Unsent(s), n);
    UnsentNumbered(s);
    NumberedLast(Unsent(s), s.store.sequence, n);
    LastCap(Unsent(s), n);
    hide Scan, Last, Rising, Numbered, Inv;
    NumberedRises(additions, s.store.sequence);
    RisingAbove(additions, s.store.sequence - |additions|, Mark(s), s.store.sequence);
    RisingAppend(s.sent, additions, s.first, Mark(s), s.store.sequence);
  }

  /** Any change leaves a suffix of what was there, plus what was recorded. */
  lemma ChangeShape(store: State, op: Op)
    ensures var grown := if op.Record? then store.entries + [Stamped(store, op.e, op.now)] else store.entries;
            && IsSuffix(Do(store, op).entries, grown)
            && Do(store, op).sequence == store.sequence + (if op.Record? then 1 else 0)
  {
    hide Trim, IsSuffix, Count;
    match op
    case Record(e, now) =>
      var stamped := Stamped(store, e, now);
      TrimShape(store.(sequence := store.sequence + 1, entries := store.entries + [stamped],
                       stats := Count(store.stats, stamped)), now);
    case Reset(now) => NoneIsSuffix(store.entries);
    case SetLimits(m, days, now) => TrimShape(store.(max := Max(1, m), retention := days * DAY), now);
    case Restart(m, days, now) =>
      TrimShape(Restored(Persisted(store), m, days, now), now);
  }

  lemma NoneIsSuffix(t: seq<Entry>)
    ensures IsSuffix([], t)
  {
  }

  lemma TrimShape(s: State, now: int)
    ensures IsSuffix(Trim(s, now).entries, s.entries) && Trim(s, now).sequence == s.sequence
  {
    hide FirstYoung;
  }

  lemma ChangeKeeps(s: Stream, op: Op)
    requires Inv(s)
    ensures Inv(Next(s, Change(op)))
  {
    hide Do, Inv, IsSuffix, Numbered, Last;
    ChangeShape(s.store, op);
    var after := Next(s, Change(op));
    var grown := if op.Record? then s.store.entries + [Stamped(s.store, op.e, op.now)] else s.store.entries;
    SuffixIsLast(after.store.entries, grown);
    GrowKeeps(s, op, grown);
    SuffixKeeps(after, grown, |after.store.entries|);
  }

  lemma SuffixIsLast(s: seq<Entry>, t: seq<Entry>)
    requires IsSuffix(s, t)
    ensures |s| <= |t| && s == Last(t, |s|)
  {
  }

  /** Recording extends both lists alike. */
  lemma GrowKeeps(s: Stream, op: Op, grown: seq<Entry>)
    requires Inv(s)
    requires grown == if op.Record? then s.store.entries + [Stamped(s.store, op.e, op.now)] else s.store.entries
    ensures var recorded := if op.Record? then s.recorded + [Stamped(s.store, op.e, op.now)] else s.recorded;
            var sequence := s.store.sequence + (if op.Record? then 1 else 0);
            && Numbered(recorded, sequence) && Numbered(grown, sequence) &&
              Last(grown, |recorded|) == Last(recorded, |grown|)
            && s.ticked <= |recorded| && s.latest <= sequence - (|recorded| - s.ticked)
            && (|grown| > |recorded| - s.ticked ==> s.latest == sequence - (|recorded| - s.ticked))
  {
    hide Last, Numbered, Stamped;
    if op.Record? {
      var e := Stamped(s.store, op.e, op.now);
      StampedNumber(s.store, op.e, op.now);
      NumberedGrows(s.store.entries, s.store.sequence, e);
      NumberedGrows(s.recorded, s.store.sequence, e);
      LastGrows(s.store.entries, e, |s.recorded|);
      LastGrows(s.recorded, e, |s.store.entries|);
    }
  }

  lemma StampedNumber(s: State, e: Entry, now: int)
    ensures Stamped(s, e, now).sequence == s.sequence + 1
  {
  }

  lemma NumberedGrows(s: seq<Entry>, last: nat, e: Entry)
    requires Numbered(s, last) && e.sequence == last + 1
    ensures Numbered(s + [e], last + 1)
  {
  }

  lemma LastGrows<T>(s: seq<T>, x: T, n: nat)
    ensures Last(s + [x], n + 1) == Last(s, n) + [x]
  {
  }

  lemma SuffixKeeps(after: Stream, grown: seq<Entry>, n: nat)
    requires after.ticked <= |after.recorded| && n <= |grown| && after.store.entries == Last(grown, n)
    requires Numbered(after.recorded, after.store.sequence) && Numbered(grown, after.store.sequence)
    requires Last(grown, |after.recorded|) == Last(after.recorded, |grown|)
    requires after.latest <= Mark(after) && (|grown| > |after.recorded| - after.ticked ==> after.latest == Mark(after))
    ensures Inv(after)
  {
    hide Last, Numbered;
    NumberedLast(grown, after.store.sequence, n);
    LastLast(grown, n, |after.recorded|);
    LastLast(grown, |after.recorded|, Min(n, |after.recorded|));
    LastLast(after.recorded, |grown|, Min(n, |after.recorded|));
    LastCap(grown, n);
    LastCap(after.recorded, n);
  }

  lemma NextKeeps(s: Stream, e: Event)
    requires Inv(s) && InOrder(s)
    ensures Inv(Next(s, e)) && InOrder(Next(s, e))
  {
    if e.Tick? {
      TickKeepsInv(s);
      TickKeepsOrder(s);
    } else {
      ChangeKeeps(s, e.op);
      ChangeShape(s.store, e.op);
      hide Do;
    }
  }

  lemma ConnectKeeps(store: State)
    requires Numbered(store.entries, store.sequence)
    ensures Inv(Connect(store)) && InOrder(Connect(store))
  {
  }

  /** Over all interleavings of recording, resets, trimming and ticks, what is
      sent after the snapshot is newer than it and strictly increasing, so no
      entry is sent twice. */
  lemma {:induction false} SentInOrder(store: State, events: seq<Event>)
    requires Numbered(store.entries, store.sequence)
    ensures Inv(Follow(store, events)) && InOrder(Follow(store, events))
  {
    if events == [] {
      ConnectKeeps(store);
    } else {
      SentInOrder(store, events[..|events| - 1]);
      NextKeeps(Follow(store, events[..|events| - 1]), events[|events| - 1]);
    }
  }

  /** At each tick at most a page was recorded since the tick before, and none
      of it has been dropped. */
  ghost predicate NothingLost(store: State, events: seq<Event>) {
    events == [] ||
    (var before := Follow(store, events[..|events| - 1]);
     && NothingLost(store, events[..|events| - 1])
     && (events[|events| - 1].Tick? ==>
          before.ticked <= |before.recorded| && |Unsent(before)| <= Min(PAGE, |before.store.entries|)))
  }

  /** A tick adds all that is waiting exactly when a page holds it and none of
      it was dropped. */
  lemma TickAddsAllIff(s: Stream)
    requires Inv(s)
    ensures var added := Scan(Last(s.store.entries, PAGE), s.latest).0;
            if |Unsent(s)| <= Min(PAGE, |s.store.entries|) then added == Unsent(s) else |added| < |Unsent(s)|
  {
    TickSends(s);
    hide Scan, Inv;
  }

  /** Never more is sent than was recorded, and when as much is, it is the same. */
  ghost predicate Complete(s: Stream) {
    s.ticked <= |s.recorded| && |s.sent| <= s.ticked && (|s.sent| == s.ticked ==> s.sent == s.recorded[..s.ticked])
  }

  lemma TickCompletes(s: Stream)
    requires Inv(s) && Complete(s)
    ensures var after := Next(s, Tick);
            Complete(after) &&
            (|after.sent| == after.ticked <==> |s.sent| == s.ticked && |Unsent(s)| <= Min(PAGE, |s.store.entries|))
  {
    TickAddsAllIff(s);
    hide Scan, Last, Inv;
    assert s.recorded == s.recorded[..s.ticked] + Unsent(s);
    assert s.recorded[..|s.recorded|] == s.recorded;
  }

  lemma ChangeCompletes(s: Stream, op: Op)
    requires Complete(s)
    ensures var after := Next(s, Change(op)); Complete(after) && after.sent == s.sent && after.ticked == s.ticked
  {
    hide Do;
  }

  lemma {:induction false} CompleteSoFar(store: State, events: seq<Event>)
    requires Numbered(store.entries, store.sequence)
    ensures var s := Follow(store, events); Complete(s) && (|s.sent| == s.ticked <==> NothingLost(store, events))
  {
    if events != [] {
      var before := Follow(store, events[..|events| - 1]);
      CompleteSoFar(store, events[..|events| - 1]);
      SentInOrder(store, events[..|events| - 1]);
      if events[|events| - 1].Tick? {
        TickCompletes(before);
      } else {
        ChangeCompletes(before, events[|events| - 1].op);
      }
      hide Next, Inv, InOrder, Complete;
    }
  }

  /** Exactly then the stream is complete: everything recorded up to the last
      tick, in order. */
  lemma CompleteIff(store: State, events: seq<Event>)
    requires Numbered(store.entries, store.sequence)
    ensures var s := Follow(store, events);
            s.ticked <= |s.recorded| && (NothingLost(store, events) <==> s.sent == s.recorded[..s.ticked])
  {
    CompleteSoFar(store, events);
    hide Follow, NothingLost;
  }

  /** A stream opened on any store that was run from empty starts well. */
  lemma {:induction false} AnyStoreIsNumbered(maxEntries: int, days: int, began: int, ops: seq<Op>)
    ensures var store := Run(Empty(maxEntries, days, began), ops); Numbered(store.entries, store.sequence)
  {
    RunIsViewOfLog(maxEntries, days, began, ops);
  }
}
