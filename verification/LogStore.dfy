/** The console and operation logs: two bounded lists under one sequence counter,
    read by a cursor. */
module LogStore {
  import opened Basics

  /** A log line; `kind` is used by operations only. */
  datatype Line = Line(time: int, kind: string, level: string, message: string, sequence: nat)

  datatype State = State(capacity: nat, sequence: nat, console: seq<Line>, operations: seq<Line>)

  datatype Write =
    | Console(level: string, message: string, now: int)
    | Record(kind: string, message: string, level: string, now: int)

  function LineOf(w: Write, sequence: nat): Line {
    match w
    case Console(level, message, now) => Line(now, "", level, message, sequence)
    case Record(kind, message, level, now) => Line(now, kind, if level == "" then "log" else level, message, sequence)
  }

  function Written(s: State, w: Write): State {
    var line := LineOf(w, s.sequence + 1);
    var next := s.(sequence := s.sequence + 1);
    if w.Console? then next.(console := Last(s.console + [line], s.capacity))
    else next.(operations := Last(s.operations + [line], s.capacity))
  }

  function Newer(lines: seq<Line>, cursor: nat): seq<Line> {
    if lines == [] then []
    else
      var rest := Newer(lines[..|lines| - 1], cursor);
      if lines[|lines| - 1].sequence > cursor then rest + [lines[|lines| - 1]] else rest
  }

  class Store {
    var capacity: nat
    var sequence: nat
    var console: seq<Line>
    var operations: seq<Line>

    ghost function View(): State
      reads this
    {
      State(capacity, sequence, console, operations)
    }

    ghost predicate Valid()
      reads this
    {
      1 <= capacity && |console| <= capacity && |operations| <= capacity
    }

    constructor (n: int)
      ensures Valid() && View() == State(Max(1, n), 0, [], [])
    {
      capacity := if n < 1 then 1 else n;
      sequence, console, operations := 0, [], [];
    }

    method Console(level: string, message: string, now: int)
      requires Valid()
      modifies this
      ensures Valid() && View() == Written(old(View()), Write.Console(level, message, now))
    {
      sequence := sequence + 1;
      console := console + [Line(now, "", level, message, sequence)];
      if |console| > capacity {
        console := console[|console| - capacity..];
      }
    }

    method Record(kind: string, message: string, level: string, now: int)
      requires Valid()
      modifies this
      ensures Valid() && View() == Written(old(View()), Write.Record(kind, message, level, now))
    {
      var effective := if level == "" then "log" else level;
      sequence := sequence + 1;
      operations := operations + [Line(now, kind, effective, message, sequence)];
      if |operations| > capacity {
        operations := operations[|operations| - capacity..];
      }
    }

    method Since(cursor: nat) returns (consoleLogs: seq<Line>, operationLogs: seq<Line>, latest: nat)
      ensures consoleLogs == Newer(console, cursor) && operationLogs == Newer(operations, cursor) && latest == sequence
    {
      consoleLogs := Collect(console, cursor);
      operationLogs := Collect(operations, cursor);
      latest := sequence;
    }
  }

  method Collect(lines: seq<Line>, cursor: nat) returns (out: seq<Line>)
    ensures out == Newer(lines, cursor)
  {
    out := [];
    for i := 0 to |lines|
      invariant out == Newer(lines[..i], cursor)
    {
      assert lines[..i + 1][..i] == lines[..i];
      if lines[i].sequence > cursor {
        out := out + [lines[i]];
      }
    }
    assert lines[..|lines|] == lines;
  }

  /** Each line takes the next number and keeps what it was written with; an
      operation without a level is a log line. The other list stays. */
  lemma WrittenIs(s: State, w: Write)
    ensures var after, n := Written(s, w), s.sequence + 1;
            && after.sequence == n && after.capacity == s.capacity
            && (w.Console? ==>
                 && after.operations == s.operations
                 && after.console == Last(s.console + [Line(w.now, "", w.level, w.message, n)], s.capacity))
            && (w.Record? ==>
                 var level := if w.level == "" then "log" else w.level;
                 && after.console == s.console
                 && after.operations == Last(s.operations + [Line(w.now, w.kind, level, w.message, n)], s.capacity))
  {
  }

  // ---- Chained Since calls -----------------------------------------------

  /** One of the two lists as its reader sees it: all that was written, how much
      of it was there at the last call, and what the calls have returned. */
  datatype Feed = Feed(all: seq<Line>, mark: nat, sent: seq<Line>)

  datatype Reader = Reader(store: State, cursor: nat, console: Feed, operations: Feed)

  datatype Event = Wrote(w: Write) | Polled

  function Open(store: State): Reader {
    Reader(store, store.sequence, Feed(store.console, |store.console|, []),
           Feed(store.operations, |store.operations|, []))
  }

  function Extend(f: Feed, line: Line): Feed {
    f.(all := f.all + [line])
  }

  function Returned(f: Feed, lines: seq<Line>): Feed {
    f.(mark := |f.all|, sent := f.sent + lines)
  }

  function Next(r: Reader, e: Event): Reader {
    match e
    case Wrote(w) =>
      var line := LineOf(w, r.store.sequence + 1);
      var after := r.(store := Written(r.store, w));
      if w.Console? then after.(console := Extend(r.console, line))
      else after.(operations := Extend(r.operations, line))
    case Polled =>
      r.(cursor := r.store.sequence,
         console := Returned(r.console, Newer(r.store.console, r.cursor)),
         operations := Returned(r.operations, Newer(r.store.operations, r.cursor)))
  }

  function Follow(store: State, events: seq<Event>): Reader {
    if events == [] then Open(store) else Next(Follow(store, events[..|events| - 1]), events[|events| - 1])
  }

  /** Strictly increasing sequence numbers up to `high`. */
  ghost predicate Rising(lines: seq<Line>, high: nat) {
    (forall i :: 0 <= i < |lines| ==> lines[i].sequence <= high)
    && forall i, j :: 0 <= i < j < |lines| ==> lines[i].sequence < lines[j].sequence
  }

  /** The store holds the last `capacity` lines, and the cursor divides the lines
      into those before the mark and those after. */
  ghost predicate InStep(f: Feed, kept: seq<Line>, capacity: nat, cursor: nat, sequence: nat) {
    && kept == Last(f.all, capacity) && Rising(f.all, sequence) && f.mark <= |f.all|
    && forall i :: 0 <= i < |f.all| ==> (f.all[i].sequence <= cursor <==> i < f.mark)
  }

  ghost predicate Inv(r: Reader) {
    && r.cursor <= r.store.sequence
    && InStep(r.console, r.store.console, r.store.capacity, r.cursor, r.store.sequence)
    && InStep(r.operations, r.store.operations, r.store.capacity, r.cursor, r.store.sequence)
  }

  lemma {:induction false} NewerSplits(lines: seq<Line>, k: nat, cursor: nat)
    requires k <= |lines|
    requires forall i :: 0 <= i < |lines| ==> (lines[i].sequence <= cursor <==> i < k)
    ensures Newer(lines, cursor) == lines[k..]
  {
    if lines != [] {
      var n := |lines| - 1;
      NewerSplits(lines[..n], Min(k, n), cursor);
      if k <= n {
        assert lines[k..] == lines[..n][k..] + [lines[n]];
      }
    }
  }

  /** A call returns exactly the last `capacity` of the lines written since the
      call before: all of them unless more than fit were written. */
  lemma PollReturns(f: Feed, kept: seq<Line>, capacity: nat, cursor: nat, sequence: nat)
    requires InStep(f, kept, capacity, cursor, sequence)
    ensures Newer(kept, cursor) == Last(f.all[f.mark..], capacity)
  {
    var cut := Max(0, |f.all| - capacity);
    NewerOfTail(f.all, cut, f.mark, cursor);
    TailOfTail(f.all, f.mark, capacity);
  }

  lemma NewerOfTail(all: seq<Line>, cut: nat, mark: nat, cursor: nat)
    requires cut <= |all| && mark <= |all|
    requires forall i :: 0 <= i < |all| ==> (all[i].sequence <= cursor <==> i < mark)
    ensures Newer(all[cut..], cursor) == all[Max(cut, mark)..]
  {
    var k := Max(0, mark - cut);
    NewerSplits(all[cut..], k, cursor);
    hide Newer;
  }

  lemma TailOfTail(all: seq<Line>, mark: nat, n: nat)
    requires mark <= |all|
    ensures Last(all[mark..], n) == all[Max(Max(0, |all| - n), mark)..]
  {
  }

  lemma ExtendKeeps(f: Feed, kept: seq<Line>, capacity: nat, cursor: nat, sequence: nat, line: Line)
    requires InStep(f, kept, capacity, cursor, sequence) && cursor <= sequence && line.sequence == sequence + 1 &&
             capacity >= 1
    ensures InStep(Extend(f, line), Last(kept + [line], capacity), capacity, cursor, sequence + 1)
  {
    assert Last(kept + [line], capacity) == Last(f.all + [line], capacity);
  }

  lemma WaitKeeps(f: Feed, kept: seq<Line>, capacity: nat, cursor: nat, sequence: nat)
    requires InStep(f, kept, capacity, cursor, sequence)
    ensures InStep(f, kept, capacity, cursor, sequence + 1)
  {
  }

  lemma ReturnKeeps(f: Feed, kept: seq<Line>, capacity: nat, cursor: nat, sequence: nat)
    requires InStep(f, kept, capacity, cursor, sequence)
    ensures InStep(Returned(f, Newer(kept, cursor)), kept, capacity, sequence, sequence)
  {
  }

  lemma NextKeeps(r: Reader, e: Event)
    requires Inv(r) && r.store.capacity >= 1
    ensures Inv(Next(r, e))
  {
    hide InStep, Last;
    var s := r.store;
    match e
    case Wrote(w) =>
      var line := LineOf(w, s.sequence + 1);
      if w.Console? {
        ExtendKeeps(r.console, s.console, s.capacity, r.cursor, s.sequence, line);
        WaitKeeps(r.operations, s.operations, s.capacity, r.cursor, s.sequence);
      } else {
        ExtendKeeps(r.operations, s.operations, s.capacity, r.cursor, s.sequence, line);
        WaitKeeps(r.console, s.console, s.capacity, r.cursor, s.sequence);
      }
    case Polled =>
      ReturnKeeps(r.console, s.console, s.capacity, r.cursor, s.sequence);
      ReturnKeeps(r.operations, s.operations, s.capacity, r.cursor, s.sequence);
  }

  /** A store whose two lists rise and fit, as every store run from empty has. */
  ghost predicate Started(store: State) {
    && store.capacity >= 1 && |store.console| <= store.capacity && |store.operations| <= store.capacity
    && Rising(store.console, store.sequence) && Rising(store.operations, store.sequence)
  }

  function AfterWrites(start: State, writes: seq<Write>): State {
    if writes == [] then start else Written(AfterWrites(start, writes[..|writes| - 1]), writes[|writes| - 1])
  }

  lemma RisingGrows(lines: seq<Line>, line: Line, high: nat, capacity: nat)
    requires Rising(lines, high) && line.sequence == high + 1
    ensures Rising(Last(lines + [line], capacity), high + 1) && Rising(lines, high + 1)
  {
  }

  lemma WriteKeepsStarted(s: State, w: Write)
    requires Started(s)
    ensures Started(Written(s, w))
  {
    var line := LineOf(w, s.sequence + 1);
    RisingGrows(s.console, line, s.sequence, s.capacity);
    RisingGrows(s.operations, line, s.sequence, s.capacity);
    hide Rising;
  }

  /** Every store that was written to from empty starts well. */
  lemma {:induction false} AnyStoreIsStarted(n: int, writes: seq<Write>)
    ensures Started(AfterWrites(State(Max(1, n), 0, [], []), writes))
  {
    if writes != [] {
      var before := writes[..|writes| - 1];
      AnyStoreIsStarted(n, before);
      hide Started, Written;
      WriteKeepsStarted(AfterWrites(State(Max(1, n), 0, [], []), before), writes[|writes| - 1]);
    }
  }

  lemma {:induction false} FollowKeeps(store: State, events: seq<Event>)
    requires Started(store)
    ensures Inv(Follow(store, events)) && Follow(store, events).store.capacity == store.capacity
  {
    if events != [] {
      FollowKeeps(store, events[..|events| - 1]);
      NextKeeps(Follow(store, events[..|events| - 1]), events[|events| - 1]);
    }
  }

  /** No more lines were written since the last call than are kept. */
  predicate InTime(r: Reader) {
    && |r.console.all| - r.console.mark <= r.store.capacity
    && |r.operations.all| - r.operations.mark <= r.store.capacity
  }

  /** At each call no more lines had been written since the last than are kept. */
  ghost predicate KeepsUp(store: State, events: seq<Event>) {
    events == [] ||
    (var before := Follow(store, events[..|events| - 1]);
     && KeepsUp(store, events[..|events| - 1])
     && (events[|events| - 1].Polled? ==> InTime(before)))
  }

  ghost predicate Delivered(f: Feed, from: nat) {
    from <= f.mark <= |f.all| && f.sent == f.all[from..f.mark]
  }

  /** Never too much, and once something is missing it stays missing. */
  ghost predicate Accounted(f: Feed, from: nat) {
    from <= f.mark <= |f.all| && |f.sent| <= f.mark - from && (|f.sent| == f.mark - from ==> Delivered(f, from))
  }

  lemma PollDeliversIff(f: Feed, kept: seq<Line>, capacity: nat, cursor: nat, sequence: nat, from: nat)
    requires InStep(f, kept, capacity, cursor, sequence) && Accounted(f, from)
    ensures var g := Returned(f, Newer(kept, cursor));
            Accounted(g, from) && (Delivered(g, from) <==> Delivered(f, from) && |f.all| - f.mark <= capacity)
  {
    PollReturns(f, kept, capacity, cursor, sequence);
    hide Newer, Rising;
    assert f.all[from..|f.all|] == f.all[from..f.mark] + f.all[f.mark..];
  }

  lemma ExtendDeliversIff(f: Feed, line: Line, from: nat)
    requires Accounted(f, from)
    ensures Accounted(Extend(f, line), from) && (Delivered(Extend(f, line), from) <==> Delivered(f, from))
  {
    assert (f.all + [line])[from..f.mark] == f.all[from..f.mark];
  }

  ghost predicate AllDelivered(store: State, r: Reader) {
    Delivered(r.console, |store.console|) && Delivered(r.operations, |store.operations|)
  }

  ghost predicate AllAccounted(store: State, r: Reader) {
    Accounted(r.console, |store.console|) && Accounted(r.operations, |store.operations|)
  }

  lemma NextDeliversIff(store: State, r: Reader, e: Event)
    requires Inv(r) && AllAccounted(store, r)
    ensures AllAccounted(store, Next(r, e))
    ensures AllDelivered(store, Next(r, e)) <==>
              AllDelivered(store, r) && (e.Polled? ==> InTime(r))
  {
    hide Delivered, Accounted, Last, InStep;
    var s := r.store;
    match e
    case Wrote(w) =>
      var line := LineOf(w, s.sequence + 1);
      if w.Console? { ExtendDeliversIff(r.console, line, |store.console|); }
      else { ExtendDeliversIff(r.operations, line, |store.operations|); }
    case Polled =>
      PollDeliversIff(r.console, s.console, s.capacity, r.cursor, s.sequence, |store.console|);
      PollDeliversIff(r.operations, s.operations, s.capacity, r.cursor, s.sequence, |store.operations|);
  }

  /** A reader is given every line of both lists exactly once and in order, up to
      its last call, if and only if it keeps up. */
  lemma {:induction false} ExactlyOnceIff(store: State, events: seq<Event>)
    requires Started(store)
    ensures AllAccounted(store, Follow(store, events))
    ensures AllDelivered(store, Follow(store, events)) <==> KeepsUp(store, events)
  {
    if events != [] {
      var before := events[..|events| - 1];
      ExactlyOnceIff(store, before);
      FollowKeeps(store, before);
      hide AllDelivered, AllAccounted;
      NextDeliversIff(store, Follow(store, before), events[|events| - 1]);
    }
  }
}
