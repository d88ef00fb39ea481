/** The login throttle and the sliding sessions: steps as values, the manager
    object that takes them in place, and what holds over whole runs. */
module Auth {
  import opened Basics

  const MAX_FAILS: nat := 5
  const MS: int := 1_000_000                 // nanoseconds
  const SEC: int := 1_000_000_000
  const MINUTES_10: int := 600 * SEC

  /** `lockedUntil` is absent for the zero time. */
  datatype Failure = Failure(count: nat, strikes: nat, lockedUntil: Option<int>)

  /** `file` is what was last written; without a path nothing ever is. */
  datatype State = State(sessions: map<string, int>, fails: map<string, Failure>, dirty: bool, hasPath: bool,
                         file: map<string, int>)

  datatype LoginResult = Locked(seconds: int) | WrongPassword | NoSession | SignedIn(token: string)

  function Ms(now: int): int { now / MS }

  function Pow2(n: nat): nat {
    if n == 0 then 1 else 2 * Pow2(n - 1)
  }

  /** How long the `strike`-th lock lasts: 10 seconds doubled at most six times, at most ten minutes. */
  function Delay(strike: nat): int
    requires strike >= 1
  {
    Min(10 * SEC * Pow2(Min(strike - 1, 6)), MINUTES_10)
  }

  // ---- Steps -------------------------------------------------------------

  function FailureOf(s: State, ip: string): Failure {
    if ip in s.fails then s.fails[ip] else Failure(0, 0, None)
  }

  predicate IsLocked(s: State, ip: string, now: int) {
    var until := FailureOf(s, ip).lockedUntil;
    until.Some? && now < until.value
  }

  function Failed(f: Failure, now: int): Failure {
    if f.count + 1 >= MAX_FAILS then Failure(0, f.strikes + 1, Some(now + Delay(f.strikes + 1)))
    else f.(count := f.count + 1)
  }

  function Persist(s: State, writes: bool): State {
    if !s.hasPath then s.(dirty := false)
    else if writes then s.(file := s.sessions, dirty := false)
    else s
  }

  /** `correct` is what the password check would say, `token` the random token if there is one. */
  function LoginStep(s: State, ip: string, correct: bool, token: Option<string>, now: int, ttl: int,
                     writes: bool): (State, LoginResult) {
    if IsLocked(s, ip, now) then
      (s, Locked((FailureOf(s, ip).lockedUntil.value - now + SEC * 99 / 100) / SEC))
    else if !correct then
      (s.(fails := s.fails[ip := Failed(FailureOf(s, ip), now)]), WrongPassword)
    else
      var cleared := s.(fails := s.fails - {ip});
      if token.None? then (cleared, NoSession)
      else (Persist(cleared.(sessions := s.sessions[token.value := Ms(now + ttl)], dirty := true), writes),
            SignedIn(token.value))
  }

  predicate Accepts(s: State, token: string, now: int) {
    token in s.sessions && Ms(now) <= s.sessions[token]
  }

  function CheckStep(s: State, token: string, now: int, ttl: int, writes: bool): State {
    if token !in s.sessions then s
    else if s.sessions[token] < Ms(now) then Persist(s.(sessions := s.sessions - {token}), writes)
    else s.(sessions := s.sessions[token := Ms(now + ttl)], dirty := true)
  }

  function LogoutStep(s: State, token: string, writes: bool): State {
    Persist(s.(sessions := s.sessions - {token}), writes)
  }

  function Stale(s: State, now: int): set<string> {
    set t | t in s.sessions && s.sessions[t] < Ms(now)
  }

  function Forgiven(s: State, now: int): set<string> {
    set ip | ip in s.fails && s.fails[ip].lockedUntil.Some? && now > s.fails[ip].lockedUntil.value + MINUTES_10
  }

  function CleanStep(s: State, now: int, writes: bool): State {
    var swept := s.(sessions := s.sessions - Stale(s, now), fails := s.fails - Forgiven(s, now));
    if s.dirty || Stale(s, now) != {} then Persist(swept, writes) else swept
  }

  function CloseStep(s: State, writes: bool): State {
    if s.dirty then Persist(s, writes) else s
  }

  function Unexpired(file: map<string, int>, now: int): map<string, int> {
    map t | t in file && file[t] > Ms(now) :: file[t]
  }

  function Open(hasPath: bool, file: map<string, int>, now: int): State {
    State(if hasPath then Unexpired(file, now) else map[], map[], false, hasPath, file)
  }

  // ---- The manager -------------------------------------------------------

  class Manager {
    var sessions: map<string, int>
    var fails: map<string, Failure>
    var dirty: bool
    const hasPath: bool
    var file: map<string, int>

    ghost function View(): State
      reads this
    {
      State(sessions, fails, dirty, hasPath, file)
    }

    constructor (hasPath: bool, file: map<string, int>, now: int)
      ensures View() == Open(hasPath, file, now)
    {
      this.hasPath, this.file := hasPath, file;
      sessions := if hasPath then Unexpired(file, now) else map[];
      fails, dirty := map[], false;
    }

    method PersistLocked(writes: bool) returns (ok: bool)
      modifies this`dirty, this`file
      ensures View() == Persist(old(View()), writes)
    {
      if !hasPath {
        dirty := false;
        return true;
      }
      if writes {
        file := sessions;
        dirty := false;
      }
      ok := writes;
    }

    method Login(ip: string, correct: bool, token: Option<string>, now: int, ttl: int, writes: bool)
        returns (result: LoginResult)
      modifies this
      ensures (View(), result) == LoginStep(old(View()), ip, correct, token, now, ttl, writes)
    {
      var f := if ip in fails then fails[ip] else Failure(0, 0, None);
      if f.lockedUntil.Some? && now < f.lockedUntil.value {
        return Locked((f.lockedUntil.value - now + SEC * 99 / 100) / SEC);
      }
      if !correct {
        f := f.(count := f.count + 1);
        if f.count >= MAX_FAILS {
          f := f.(strikes := f.strikes + 1);
          var delay := 10 * SEC * Pow2(Min(f.strikes - 1, 6));
          if delay > MINUTES_10 {
            delay := MINUTES_10;
          }
          f := f.(lockedUntil := Some(now + delay), count := 0);
        }
        fails := fails[ip := f];
        return WrongPassword;
      }
      fails := fails - {ip};
      if token.None? {
        return NoSession;
      }
      sessions := sessions[token.value := Ms(now + ttl)];
      dirty := true;
      var _ := PersistLocked(writes);
      return SignedIn(token.value);
    }

    method Check(token: string, now: int, ttl: int, writes: bool) returns (ok: bool)
      modifies this
      ensures View() == CheckStep(old(View()), token, now, ttl, writes)
      ensures ok <==> Accepts(old(View()), token, now)
    {
      if token !in sessions {
        return false;
      }
      if sessions[token] < Ms(now) {
        sessions := sessions - {token};
        var _ := PersistLocked(writes);
        return false;
      }
      sessions := sessions[token := Ms(now + ttl)];
      dirty := true;
      return true;
    }

    method Logout(token: string, writes: bool)
      modifies this
      ensures View() == LogoutStep(old(View()), token, writes)
    {
      sessions := sessions - {token};
      var _ := PersistLocked(writes);
    }

    /** One tick of the background cleaner; maps are walked in any order. */
    method Cleanup(now: int, writes: bool)
      modifies this
      ensures View() == CleanStep(old(View()), now, writes)
    {
      ghost var before := View();
      var changed := dirty;
      var dropped := DropSessions(now);
      if dropped { changed := true; }
      DropFails(now);
      if changed {
        var _ := PersistLocked(writes);
      }
    }

    method DropSessions(now: int) returns (dropped: bool)
      modifies this`sessions
      ensures sessions == old(sessions) - Stale(old(View()), now)
      ensures dropped <==> Stale(old(View()), now) != {}
    {
      ghost var stale := Stale(View(), now);
      ghost var start := sessions;
      assert forall t :: t in start ==> (t in stale <==> start[t] < Ms(now));
      hide Stale;
      var unseen := sessions.Keys;
      ghost var gone := {};
      dropped := false;
      while unseen != {}
        invariant unseen <= start.Keys && gone <= stale <= gone + unseen && sessions == start - gone
        invariant unseen !! gone && (dropped <==> gone != {})
        decreases unseen
      {
        var t :| t in unseen;
        unseen := unseen - {t};
        if sessions[t] < Ms(now) {
          sessions := sessions - {t};
          dropped := true;
          gone := gone + {t};
        }
      }
      assert gone == stale;
    }

    method DropFails(now: int)
      modifies this`fails
      ensures fails == old(fails) - Forgiven(old(View()), now)
    {
      ghost var forgiven := Forgiven(View(), now);
      ghost var start := fails;
      assert forall ip :: ip in start ==>
        (ip in forgiven <==> start[ip].lockedUntil.Some? && now > start[ip].lockedUntil.value + MINUTES_10);
      hide Forgiven;
      var unseen := fails.Keys;
      ghost var gone := {};
      while unseen != {}
        invariant unseen <= start.Keys && gone <= forgiven <= gone + unseen && fails == start - gone && unseen !! gone
        decreases unseen
      {
        var ip :| ip in unseen;
        unseen := unseen - {ip};
        if fails[ip].lockedUntil.Some? && now > fails[ip].lockedUntil.value + MINUTES_10 {
          fails := fails - {ip};
          gone := gone + {ip};
        }
      }
      assert gone == forgiven;
    }

    method Close(writes: bool)
      modifies this
      ensures View() == CloseStep(old(View()), writes)
    {
      if dirty {
        var _ := PersistLocked(writes);
      }
    }
  }

  // ---- Runs --------------------------------------------------------------

  datatype Op =
    | Login(ip: string, correct: bool, issued: Option<string>, now: int, writes: bool)
    | Check(token: string, now: int, writes: bool)
    | Logout(token: string, now: int, writes: bool)
    | Clean(now: int, writes: bool)
    | Restart(now: int, writes: bool)      // Close, then a new manager on the same file

  function Do(s: State, op: Op, ttl: int): State {
    match op
    case Login(ip, correct, token, now, writes) => LoginStep(s, ip, correct, token, now, ttl, writes).0
    case Check(token, now, writes) => CheckStep(s, token, now, ttl, writes)
    case Logout(token, _, writes) => LogoutStep(s, token, writes)
    case Clean(now, writes) => CleanStep(s, now, writes)
    case Restart(now, writes) => Open(s.hasPath, CloseStep(s, writes).file, now)
  }

  function Run(start: State, ops: seq<Op>, ttl: int): State {
    if ops == [] then start else Do(Run(start, ops[..|ops| - 1], ttl), ops[|ops| - 1], ttl)
  }

  ghost predicate ClockOrder(ops: seq<Op>) {
    forall i, j :: 0 <= i < j < |ops| ==> ops[i].now <= ops[j].now
  }

  // ---- What a step does, in terms of the times alone ----------------------

  /** A login is turned away exactly while its address is locked, and told how
      long, rounded up but for the last hundredth; else a wrong password counts,
      and a right one, if a token can be made, signs in until the ttl is over. */
  lemma LoginIs(s: State, ip: string, correct: bool, token: Option<string>, now: int, ttl: int, writes: bool)
    ensures var (after, result) := LoginStep(s, ip, correct, token, now, ttl, writes);
            var locked := ip in s.fails && s.fails[ip].lockedUntil.Some? && now < s.fails[ip].lockedUntil.value;
            && (result.Locked? <==> locked)
            && (locked ==>
                 var left := s.fails[ip].lockedUntil.value - now;
                 && after == s && result.seconds >= 0
                 && result.seconds * 1_000_000_000 <= left + 990_000_000 < (result.seconds + 1) * 1_000_000_000)
            && (result.WrongPassword? <==> !locked && !correct)
            && (result.WrongPassword? ==> after == s.(fails := after.fails) && after.fails.Keys == s.fails.Keys + {ip})
            && (result.NoSession? <==> !locked && correct && token.None?)
            && (result.SignedIn? <==> !locked && correct && token.Some?)
            && (result.SignedIn? ==>
                 && result.token == token.value && after.fails == s.fails - {ip}
                 && after.sessions == s.sessions[token.value := (now + ttl) / 1_000_000])
  {
  }

  /** A pass of the cleaner keeps exactly the sessions that are still accepted
      and the failures not locked, or whose lock ended within ten minutes. */
  lemma CleanIs(s: State, now: int, writes: bool)
    ensures var after := CleanStep(s, now, writes);
            && after.sessions == (map t | t in s.sessions && now / 1_000_000 <= s.sessions[t] :: s.sessions[t])
            && after.fails ==
               (map ip | ip in s.fails && var until := s.fails[ip].lockedUntil;
                         until.None? || now <= until.value + 600_000_000_000 :: s.fails[ip])
  {
  }

  // ---- Login backoff -----------------------------------------------------

  /** The times at which a password from `ip` was verified, not turned away. */
  function Verified(start: State, ops: seq<Op>, ttl: int, ip: string): seq<int> {
    if ops == [] then []
    else
      var before, last := ops[..|ops| - 1], ops[|ops| - 1];
      var times := Verified(start, before, ttl, ip);
      if last.Login? && last.ip == ip && !IsLocked(Run(start, before, ttl), ip, last.now)
        then times + [last.now] else times
  }

  /** No password from `ip` was right, and no cleaning or restart forgot it. */
  ghost predicate Unforgiven(start: State, ops: seq<Op>, ttl: int, ip: string) {
    forall n :: 0 <= n < |ops| ==> Keeps(Run(start, ops[..n], ttl), ops[n], ip)
  }

  ghost predicate Keeps(s: State, op: Op, ip: string) {
    match op
    case Login(ip', correct, _, now, _) => ip' == ip && !IsLocked(s, ip, now) ==> !correct
    case Clean(now, _) => ip !in Forgiven(s, now)
    case Restart(_, _) => false
    case _ => true
  }

  function SumDelays(k: nat): int {
    if k == 0 then 0 else SumDelays(k - 1) + Delay(k)
  }

  /** The record of an address after the verifications in `times`. */
  function RecordAfter(times: seq<int>): Failure {
    var n := |times|;
    Failure(n % 5, n / 5, if n < 5 then None else Some(times[n / 5 * 5 - 1] + Delay(n / 5)))
  }

  /** The first verification of each batch of five waits out all locks so far. */
  ghost predicate Spaced(times: seq<int>) {
    && (forall i, j :: 0 <= i < j < |times| ==> times[i] <= times[j])
    && forall k: nat :: 5 * k < |times| ==> times[5 * k] >= times[0] + SumDelays(k)
  }

  lemma NextIsSpaced(times: seq<int>, now: int)
    requires Spaced(times) && forall i :: 0 <= i < |times| ==> times[i] <= now
    requires RecordAfter(times).lockedUntil.Some? ==> RecordAfter(times).lockedUntil.value <= now
    ensures Spaced(times + [now])
  {
    var n := |times|;
    forall k: nat | 5 * k < n + 1 ensures (times + [now])[5 * k] >= (times + [now])[0] + SumDelays(k) {
      if 5 * k == n && k > 0 {
        assert n / 5 == k && times[5 * (k - 1)] <= times[n - 1];
      }
    }
  }

  lemma NextRecord(times: seq<int>, now: int)
    ensures Failed(RecordAfter(times), now) == RecordAfter(times + [now])
  {
    var n := |times|;
    if n % 5 == 4 {
      assert (n + 1) % 5 == 0 && (n + 1) / 5 == n / 5 + 1 && (n + 1) / 5 * 5 - 1 == n;
    } else {
      assert (n + 1) / 5 == n / 5 && (n + 1) % 5 == n % 5 + 1;
    }
  }

  /** An address's record is changed by a verification of its own password, by
      the cleaner ten minutes after its lock is over, and by a restart; nothing
      else touches it. */
  lemma OthersUntouched(s: State, op: Op, ttl: int, ip: string)
    ensures var own := op.Login? && op.ip == ip && !IsLocked(s, ip, op.now);
            var forgotten := op.Restart? || (op.Clean? && ip in Forgiven(s, op.now)) || (own && op.correct);
            FailureOf(Do(s, op, ttl), ip) ==
            if forgotten then Failure(0, 0, None)
            else if own then Failed(FailureOf(s, ip), op.now)
            else FailureOf(s, ip)
  {
  }

  lemma UnforgivenPrefix(start: State, ops: seq<Op>, ttl: int, ip: string)
    requires ops != [] && Unforgiven(start, ops, ttl, ip)
    ensures var before := ops[..|ops| - 1];
            Unforgiven(start, before, ttl, ip) && Keeps(Run(start, before, ttl), ops[|ops| - 1], ip)
  {
    var before := ops[..|ops| - 1];
    forall n | 0 <= n < |before| ensures Keeps(Run(start, before[..n], ttl), before[n], ip) {
      assert before[..n] == ops[..n];
      assert Keeps(Run(start, ops[..n], ttl), ops[n], ip);
    }
  }

  lemma {:induction false} VerifiedInPast(start: State, ops: seq<Op>, ttl: int, ip: string, now: int)
    requires forall i :: 0 <= i < |ops| ==> ops[i].now <= now
    ensures forall i :: 0 <= i < |Verified(start, ops, ttl, ip)| ==> Verified(start, ops, ttl, ip)[i] <= now
  {
    if ops != [] {
      VerifiedInPast(start, ops[..|ops| - 1], ttl, ip, now);
    }
  }

  lemma {:induction false} BackoffInvariant(start: State, ops: seq<Op>, ttl: int, ip: string)
    requires ip !in start.fails && ClockOrder(ops) && Unforgiven(start, ops, ttl, ip)
    ensures var times := Verified(start, ops, ttl, ip);
            FailureOf(Run(start, ops, ttl), ip) == RecordAfter(times) && Spaced(times)
  {
    if ops != [] {
      var before, last := ops[..|ops| - 1], ops[|ops| - 1];
      UnforgivenPrefix(start, ops, ttl, ip);
      BackoffInvariant(start, before, ttl, ip);
      var s, times := Run(start, before, ttl), Verified(start, before, ttl, ip);
      VerifiedInPast(start, before, ttl, ip, last.now);
      OthersUntouched(s, last, ttl, ip);
      hide Do, Spaced, RecordAfter, Failed, Keeps, Unforgiven, ClockOrder;
      if last.Login? && last.ip == ip && !IsLocked(s, ip, last.now) {
        NextIsSpaced(times, last.now);
        NextRecord(times, last.now);
      }
    }
  }

  /** However the attempts are mixed with other traffic, the (5k+1)-th password
      verified for an address comes no earlier than the first plus the first k
      locks. */
  lemma BackoffBound(start: State, ops: seq<Op>, ttl: int, ip: string, k: nat)
    requires ip !in start.fails && ClockOrder(ops) && Unforgiven(start, ops, ttl, ip)
    requires 5 * k < |Verified(start, ops, ttl, ip)|
    ensures Verified(start, ops, ttl, ip)[5 * k] >= Verified(start, ops, ttl, ip)[0] + SumDelays(k)
  {
    BackoffInvariant(start, ops, ttl, ip);
  }

  /** The locks last 10, 20, 40, 80, 160 and 320 seconds, then ten minutes each. */
  lemma DelayValues(strike: nat)
    requires strike >= 1
    ensures Delay(strike) == if strike >= 7 then 600_000_000_000 else 10_000_000_000 * Pow2(strike - 1)
    ensures 10_000_000_000 <= Delay(strike) <= 600_000_000_000
    ensures Pow2(0) == 1 && Pow2(strike) == 2 * Pow2(strike - 1)
  {
    assert Pow2(0) == 1 && Pow2(1) == 2 && Pow2(2) == 4;
    assert Pow2(3) == 8 && Pow2(4) == 16;
    assert Pow2(5) == 32 && Pow2(6) == 64;
  }

  ghost predicate CountsSmall(s: State) {
    forall ip :: ip in s.fails ==> s.fails[ip].count < MAX_FAILS
  }

  lemma StepCountSmall(s: State, op: Op, ttl: int)
    requires CountsSmall(s)
    ensures CountsSmall(Do(s, op, ttl))
  {
  }

  /** The stored count never reaches the limit. */
  lemma {:induction false} CountStaysSmall(start: State, ops: seq<Op>, ttl: int)
    requires CountsSmall(start)
    ensures CountsSmall(Run(start, ops, ttl))
  {
    if ops != [] {
      CountStaysSmall(start, ops[..|ops| - 1], ttl);
      StepCountSmall(Run(start, ops[..|ops| - 1], ttl), ops[|ops| - 1], ttl);
    }
  }

  // ---- Sliding sessions --------------------------------------------------

  /** The token's history after one more operation. */
  function Used(s: State, op: Op, ttl: int, token: string, use: Option<int>): Option<int> {
    match op
    case Login(ip, correct, issued, now, _) =>
      if !IsLocked(s, ip, now) && correct && issued == Some(token) then Some(Ms(now)) else use
    case Check(t, now, _) =>
      if t != token then use
      else if use.Some? && Ms(now) - use.value <= Ms(ttl) then Some(Ms(now)) else None
    case Logout(t, _, _) => if t == token then None else use
    case Clean(_, _) => use
    case Restart(now, _) => if use.Some? && Ms(now) - use.value < Ms(ttl) then use else None
  }

  /** The last accepted use of a token, as its history alone tells it: issued,
      then checked in time each time, and not logged out. Cleaning plays no part,
      and a restart asks for strictly unexpired time. */
  function LastUse(ops: seq<Op>, ttl: int, token: string, start: State): Option<int> {
    if ops == [] then None
    else
      var before := ops[..|ops| - 1];
      Used(Run(start, before, ttl), ops[|ops| - 1], ttl, token, LastUse(before, ttl, token, start))
  }

  /** The writes that matter succeed: a logout's, unless a later write is due
      anyway or it removes nothing, and the one due at a restart. */
  ghost predicate Saves(s: State, op: Op) {
    match op
    case Logout(token, _, writes) => writes || s.dirty || token !in s.sessions
    case Restart(_, writes) => writes || !s.dirty
    case _ => true
  }

  ghost predicate AllSave(start: State, ops: seq<Op>, ttl: int) {
    forall n :: 0 <= n < |ops| ==> Saves(Run(start, ops[..n], ttl), ops[n])
  }

  /** Unless a write is due, the file has every session as it is, and what else
      it has is over. */
  ghost predicate Synced(s: State, clock: int) {
    s.hasPath && (s.dirty ||
      forall t :: (t in s.sessions ==> t in s.file && s.file[t] == s.sessions[t]) &&
                  (t in s.file && t !in s.sessions ==> s.file[t] <= Ms(clock)))
  }

  /** A held session expires one ttl after its last use; a session no longer
      held was logged out, turned down, or is over. */
  ghost predicate Tracks(s: State, token: string, use: Option<int>, ttl: int, clock: int) {
    if token in s.sessions then use == Some(s.sessions[token] - Ms(ttl))
    else use.None? || use.value + Ms(ttl) < Ms(clock)
  }

  ghost predicate WholeMs(ttl: int) {
    ttl >= 0 && ttl % MS == 0
  }

  lemma MsAdds(now: int, ttl: int)
    requires WholeMs(ttl)
    ensures Ms(now + ttl) == Ms(now) + Ms(ttl)
  {
  }

  lemma MsMonotone(a: int, b: int)
    requires a <= b
    ensures Ms(a) <= Ms(b)
  {
  }

  lemma StepSyncs(s: State, op: Op, ttl: int, clock: int)
    requires Synced(s, clock) && clock <= op.now && Saves(s, op)
    ensures Synced(Do(s, op, ttl), op.now)
  {
    MsMonotone(clock, op.now);
    hide Ms;
  }

  lemma RestartTracks(s: State, op: Op, ttl: int, clock: int, token: string, use: Option<int>)
    requires op.Restart? && Synced(s, clock) && clock <= op.now && Saves(s, op) && Tracks(s, token, use, ttl, clock)
    ensures Tracks(Do(s, op, ttl), token, Used(s, op, ttl, token, use), ttl, op.now)
  {
    MsMonotone(clock, op.now);
    hide Ms;
  }

  lemma StepTracks(s: State, op: Op, ttl: int, clock: int, token: string, use: Option<int>)
    requires WholeMs(ttl) && clock <= op.now && Tracks(s, token, use, ttl, clock) && !op.Restart?
    ensures Tracks(Do(s, op, ttl), token, Used(s, op, ttl, token, use), ttl, op.now)
  {
    hide Ms, IsLocked, Failed, Forgiven;
    MsMonotone(clock, op.now);
    MsAdds(op.now, ttl);
    match op
    case Login(ip, correct, issued, now, writes) =>
    case Check(t, now, writes) =>
    case Logout(t, now, writes) =>
    case Clean(now, writes) =>
  }

  /** The clock at the end of a run. */
  function ClockAt(ops: seq<Op>, began: int): int {
    if ops == [] then began else ops[|ops| - 1].now
  }

  lemma {:induction false} RunTracks(ops: seq<Op>, ttl: int, token: string, began: int)
    requires WholeMs(ttl) && ClockOrder(ops) && (forall i :: 0 <= i < |ops| ==> began <= ops[i].now)
    requires AllSave(Open(true, map[], began), ops, ttl)
    ensures var s := Run(Open(true, map[], began), ops, ttl);
            && Synced(s, ClockAt(ops, began))
            && Tracks(s, token, LastUse(ops, ttl, token, Open(true, map[], began)), ttl, ClockAt(ops, began))
  {
    var start := Open(true, map[], began);
    if ops != [] {
      var before, last := ops[..|ops| - 1], ops[|ops| - 1];
      AllSavePrefix(start, ops, ttl);
      RunTracks(before, ttl, token, began);
      var s, clock := Run(start, before, ttl), ClockAt(before, began);
      assert clock <= last.now;
      hide Do, Synced, Tracks, Saves, AllSave, ClockOrder, Used, WholeMs;
      StepSyncs(s, last, ttl, clock);
      var use := LastUse(before, ttl, token, start);
      if last.Restart? {
        RestartTracks(s, last, ttl, clock, token, use);
      } else {
        StepTracks(s, last, ttl, clock, token, use);
      }
    }
  }

  lemma AllSavePrefix(start: State, ops: seq<Op>, ttl: int)
    requires ops != [] && AllSave(start, ops, ttl)
    ensures AllSave(start, ops[..|ops| - 1], ttl) && Saves(Run(start, ops[..|ops| - 1], ttl), ops[|ops| - 1])
  {
    var before := ops[..|ops| - 1];
    forall n | 0 <= n < |before| ensures Saves(Run(start, before[..n], ttl), before[n]) {
      assert before[..n] == ops[..n];
      assert Saves(Run(start, ops[..n], ttl), ops[n]);
    }
  }

  /** In every run from an empty file, with restarts and cleaning anywhere, a
      token is accepted exactly when its history says so: it was issued, not
      logged out, and no gap between accepted uses was longer than the ttl. */
  lemma {:induction false} CheckIffUsedInTime(ops: seq<Op>, ttl: int, token: string, began: int, now: int)
    requires WholeMs(ttl) && ClockOrder(ops) && (forall i :: 0 <= i < |ops| ==> began <= ops[i].now)
    requires AllSave(Open(true, map[], began), ops, ttl) && ClockAt(ops, began) <= now
    ensures var use := LastUse(ops, ttl, token, Open(true, map[], began));
            Accepts(Run(Open(true, map[], began), ops, ttl), token, now) <==>
            use.Some? && Ms(now) - use.value <= Ms(ttl)
  {
    RunTracks(ops, ttl, token, began);
    MsMonotone(ClockAt(ops, began), now);
    hide Ms, Run, LastUse, Synced;
  }

  // ---- When a logout does not last ---------------------------------------

  /** The operation writes the file. */
  predicate Writes(s: State, op: Op) {
    op.writes &&
    match op
    case Login(ip, correct, issued, now, _) => !IsLocked(s, ip, now) && correct && issued.Some?
    case Check(token, now, _) => token in s.sessions && s.sessions[token] < Ms(now)
    case Logout(_, _, _) => true
    case Clean(now, _) => s.dirty || Stale(s, now) != {}
    case Restart(_, _) => s.dirty
  }

  predicate Wrote(start: State, ops: seq<Op>, ttl: int) {
    ops != [] &&
    (Wrote(start, ops[..|ops| - 1], ttl) || Writes(Run(start, ops[..|ops| - 1], ttl), ops[|ops| - 1]))
  }

  /** No restart, and no login that is given this token. */
  ghost predicate Between(ops: seq<Op>, token: string) {
    forall op :: op in ops ==> !op.Restart? && (op.Login? ==> op.issued != Some(token))
  }

  lemma StepFile(s: State, op: Op, ttl: int, token: string)
    requires s.hasPath && token !in s.sessions && !op.Restart? && (op.Login? ==> op.issued != Some(token))
    ensures var after := Do(s, op, ttl);
            && after.hasPath && token !in after.sessions
            && after.file == if Writes(s, op) then after.sessions else s.file
  {
  }

  /** After a write that works the file holds the sessions, and nothing is due
      until they change again. */
  lemma NothingDue(s: State, op: Op, ttl: int, later: bool)
    requires Writes(s, op) && !op.Restart?
    ensures var after := Do(s, op, ttl);
            && (s.hasPath ==> after.file == after.sessions)
            && !after.dirty && CloseStep(after, later) == after
  {
  }

  /** A token that is not held stays so, and once anything is written the file
      lacks it too. */
  lemma {:induction false} FileUnlessWritten(start: State, ops: seq<Op>, ttl: int, token: string)
    requires start.hasPath && token !in start.sessions && Between(ops, token)
    ensures var end := Run(start, ops, ttl);
            && end.hasPath && token !in end.sessions
            && if Wrote(start, ops, ttl) then token !in end.file else end.file == start.file
  {
    if ops != [] {
      var before, last := ops[..|ops| - 1], ops[|ops| - 1];
      FileUnlessWritten(start, before, ttl, token);
      StepFile(Run(start, before, ttl), last, ttl, token);
      hide Do, Writes;
    }
  }

  /** Whatever happens between a logout and the next restart, the session comes
      back if and only if the logout's write failed, nothing was written in
      between, no write was due at the close or that failed too, and the file
      has the session unexpired. */
  lemma LogoutForgottenIff(s: State, token: string, writes: bool, ops: seq<Op>, ttl: int, closes: bool, now: int)
    requires s.hasPath && Between(ops, token)
    ensures var out := LogoutStep(s, token, writes);
            var end := Run(out, ops, ttl);
            token in Do(end, Restart(now, closes), ttl).sessions <==>
            !writes && !Wrote(out, ops, ttl) && (!end.dirty || !closes) && token in s.file && s.file[token] > Ms(now)
  {
    FileUnlessWritten(LogoutStep(s, token, writes), ops, ttl, token);
    hide Run, Wrote, Ms;
  }
}
