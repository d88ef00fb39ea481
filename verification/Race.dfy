/** The race between upstreams: one sender per upstream, a channel with one
    slot each, and a receiver that returns at the first success. Senders and
    receiver take turns in any order. */
module Race {
  import opened Basics
  import opened CacheSteps
  import ResolverSteps

  /** How one exchange ends: a reply, an error, or neither. */
  datatype Ending = Replied(message: Packet) | Errored | Nothing

  datatype Arrival = Arrival(sender: nat, ending: Ending)

  datatype Verdict = Won(message: Packet, upstream: string) | AllFailed

  /** What the resolver makes of a verdict. */
  function AsReply(v: Verdict): ResolverSteps.Reply {
    match v
    case Won(message, upstream) => ResolverSteps.Message(message, upstream)
    case AllFailed => ResolverSteps.Failed
  }

  /** `sent` is everything put in the channel so far and `received` how much of
      it has been taken out; the rest is buffered. */
  datatype State = State(pending: set<nat>, sent: seq<Arrival>, received: nat, verdict: Option<Verdict>)

  datatype Turn = Send(sender: nat, ending: Ending) | Receive

  function Senders(n: nat): (all: set<nat>)
    ensures |all| == n && forall i: nat :: i in all <==> i < n
  {
    if n == 0 then {} else Senders(n - 1) + {n - 1}
  }

  /** Without upstreams the receive loop does not run. */
  function Start(upstreams: seq<string>): State {
    State(Senders(|upstreams|), [], 0, if upstreams == [] then Some(AllFailed) else None)
  }

  predicate HasRoom(upstreams: seq<string>, s: State) {
    |s.sent| - s.received < |upstreams|
  }

  predicate Enabled(upstreams: seq<string>, s: State, t: Turn) {
    match t
    case Send(i, _) => i in s.pending && HasRoom(upstreams, s)
    case Receive => s.verdict.None? && s.received < |s.sent|
  }

  function Take(upstreams: seq<string>, s: State, t: Turn): State
    requires t.Receive? ==> s.received < |s.sent|
  {
    match t
    case Send(i, ending) => s.(pending := s.pending - {i}, sent := s.sent + [Arrival(i, ending)])
    case Receive =>
      var a := s.sent[s.received];
      var next := s.(received := s.received + 1);
      if a.ending.Replied? then
        next.(verdict := Some(Won(a.ending.message, if a.sender < |upstreams| then upstreams[a.sender] else "")))
      else if next.received == |upstreams| then next.(verdict := Some(AllFailed))
      else next
  }

  /** The state after these turns, if each was enabled when it was taken. */
  function After(upstreams: seq<string>, turns: seq<Turn>): Option<State> {
    if turns == [] then Some(Start(upstreams))
    else
      var last := turns[|turns| - 1];
      var before := After(upstreams, turns[..|turns| - 1]);
      if before.Some? && Enabled(upstreams, before.value, last) then Some(Take(upstreams, before.value, last)) else None
  }

  // ---- The invariant -----------------------------------------------------

  /** Each sender is pending or has sent exactly once. */
  ghost predicate SentOnce(upstreams: seq<string>, s: State) {
    && s.pending <= Senders(|upstreams|) && |s.pending| + |s.sent| == |upstreams|
    && (forall k :: 0 <= k < |s.sent| ==> s.sent[k].sender < |upstreams| && s.sent[k].sender !in s.pending)
    && forall j, k :: 0 <= j < k < |s.sent| ==> s.sent[j].sender != s.sent[k].sender
  }

  /** `k` is where the first success arrived. */
  ghost predicate FirstReply(sent: seq<Arrival>, k: nat) {
    k < |sent| && sent[k].ending.Replied? && forall j :: 0 <= j < k ==> !sent[j].ending.Replied?
  }

  ghost predicate Judged(upstreams: seq<string>, s: State) {
    && s.received <= |s.sent|
    && match s.verdict
       case None =>
         s.received < |upstreams| && forall j :: 0 <= j < s.received ==> !s.sent[j].ending.Replied?
       case Some(Won(message, upstream)) =>
         && s.received >= 1 && FirstReply(s.sent, s.received - 1)
         && s.sent[s.received - 1].sender < |upstreams|
         && message == s.sent[s.received - 1].ending.message && upstream == upstreams[s.sent[s.received - 1].sender]
       case Some(AllFailed) =>
         s.received == |upstreams| && forall j :: 0 <= j < |upstreams| ==> !s.sent[j].ending.Replied?
  }

  lemma SendKeeps(upstreams: seq<string>, s: State, i: nat, ending: Ending)
    requires SentOnce(upstreams, s) && i in s.pending
    ensures SentOnce(upstreams, Take(upstreams, s, Send(i, ending)))
  {
  }

  lemma ReceiveKeeps(upstreams: seq<string>, s: State)
    requires SentOnce(upstreams, s) && Judged(upstreams, s) && Enabled(upstreams, s, Receive)
    ensures SentOnce(upstreams, Take(upstreams, s, Receive)) && Judged(upstreams, Take(upstreams, s, Receive))
  {
  }

  lemma TurnKeeps(upstreams: seq<string>, s: State, t: Turn)
    requires SentOnce(upstreams, s) && Judged(upstreams, s) && Enabled(upstreams, s, t)
    ensures SentOnce(upstreams, Take(upstreams, s, t)) && Judged(upstreams, Take(upstreams, s, t))
  {
    hide SentOnce;
    if t.Send? {
      SendKeeps(upstreams, s, t.sender, t.ending);
    } else {
      ReceiveKeeps(upstreams, s);
    }
  }

  lemma {:induction false} ReachedKeeps(upstreams: seq<string>, turns: seq<Turn>, s: State)
    requires After(upstreams, turns) == Some(s)
    ensures SentOnce(upstreams, s) && Judged(upstreams, s)
  {
    if turns != [] {
      var last := turns[|turns| - 1];
      var v := After(upstreams, turns[..|turns| - 1]).value;
      ReachedKeeps(upstreams, turns[..|turns| - 1], v);
      TurnKeeps(upstreams, v, last);
    }
  }

  /** No sender ever finds the channel full, even after the receiver has gone. */
  lemma SendersNeverBlock(upstreams: seq<string>, turns: seq<Turn>, s: State, i: nat, ending: Ending)
    requires After(upstreams, turns) == Some(s) && i in s.pending
    ensures Enabled(upstreams, s, Send(i, ending))
    ensures s.received + (|s.sent| - s.received) <= |upstreams| - 1
  {
    ReachedKeeps(upstreams, turns, s);
    assert s.pending != {};
  }

  /** Until there is a verdict something can still move, and every turn uses up
      a sender or a buffered arrival, so a verdict comes within 2n turns. */
  lemma {:induction false} NeverStuck(upstreams: seq<string>, turns: seq<Turn>, s: State)
    requires After(upstreams, turns) == Some(s)
    ensures |turns| == |s.sent| + s.received <= 2 * |upstreams|
    ensures s.verdict.None? ==> Enabled(upstreams, s, Receive) || exists i: nat :: i in s.pending
  {
    ReachedKeeps(upstreams, turns, s);
    TurnsAreCounted(upstreams, turns, s);
  }

  lemma {:induction false} TurnsAreCounted(upstreams: seq<string>, turns: seq<Turn>, s: State)
    requires After(upstreams, turns) == Some(s)
    ensures |turns| == |s.sent| + s.received
  {
    if turns != [] {
      var last := turns[|turns| - 1];
      var v := After(upstreams, turns[..|turns| - 1]).value;
      TurnsAreCounted(upstreams, turns[..|turns| - 1], v);
    }
  }

  /** The verdict is a failure exactly when every upstream has answered and
      none succeeded. */
  lemma FailsOnlyIfAllFail(upstreams: seq<string>, turns: seq<Turn>, s: State)
    requires After(upstreams, turns) == Some(s) && s.verdict.Some?
    ensures s.verdict.value.AllFailed? <==>
            |s.sent| == |upstreams| && forall k :: 0 <= k < |s.sent| ==> !s.sent[k].ending.Replied?
  {
    hide After, SentOnce;
    ReachedKeeps(upstreams, turns, s);
    CountsFit(upstreams, turns, s);
  }

  lemma CountsFit(upstreams: seq<string>, turns: seq<Turn>, s: State)
    requires After(upstreams, turns) == Some(s)
    ensures s.received <= |s.sent| <= |upstreams|
  {
    ReachedKeeps(upstreams, turns, s);
  }

  /** Otherwise it is the first success to arrive, labelled with the upstream
      that sent it. */
  lemma WinnerIsFirstSuccess(upstreams: seq<string>, turns: seq<Turn>, s: State)
    requires After(upstreams, turns) == Some(s) && s.verdict.Some? && s.verdict.value.Won?
    ensures exists k: nat ::
      FirstReply(s.sent, k) && s.sent[k].sender < |upstreams| &&
        s.verdict.value == Won(s.sent[k].ending.message, upstreams[s.sent[k].sender])
  {
    ReachedKeeps(upstreams, turns, s);
    hide After, SentOnce;
    assert FirstReply(s.sent, s.received - 1);
  }

  /** What a Resolve that misses makes of the race over its upstreams: no answer
      exactly when all of them failed, and otherwise the first success to arrive,
      without its OPT records, under the name of the upstream that sent it. */
  lemma ResolveTakesVerdict(x: ResolverSteps.Inputs, depth: nat, cache: CacheState<Packet>,
                            domain: string, qtype: nat, turns: seq<Turn>, s: State)
    requires cache.max >= 1 && ResolverSteps.Forwarded(x, depth, cache, domain, qtype).sent != []
    requires var q := ResolverSteps.QuestionAt(x, depth, domain, qtype);
             After(q.upstreams, turns) == Some(s) && s.verdict.Some? && x.reply == AsReply(s.verdict.value)
    ensures var q := ResolverSteps.QuestionAt(x, depth, domain, qtype);
            var o := ResolverSteps.Forwarded(x, depth, cache, domain, qtype);
            && o.sent == [q]
            && (o.answer.None? <==>
                 |s.sent| == |q.upstreams| && forall k :: 0 <= k < |s.sent| ==> !s.sent[k].ending.Replied?)
            && (o.answer.Some? ==> exists k: nat ::
                 && FirstReply(s.sent, k) && s.sent[k].sender < |q.upstreams|
                 && o.answer.value.packet == ResolverSteps.Accepted(s.sent[k].ending.message)
                 && o.answer.value.upstream == q.upstreams[s.sent[k].sender])
  {
    var q := ResolverSteps.QuestionAt(x, depth, domain, qtype);
    FailsOnlyIfAllFail(q.upstreams, turns, s);
    if s.verdict.value.Won? { WinnerIsFirstSuccess(q.upstreams, turns, s); }
    hide After, FirstReply, GetStep, ResolverSteps.Stored, ResolverSteps.Key, ResolverSteps.Label,
      ResolverSteps.Accepted;
  }

  /** The receive loop, on the arrivals in channel order. */
  method ReceiveAll(upstreams: seq<string>, arrivals: seq<Arrival>) returns (verdict: Verdict)
    requires |arrivals| == |upstreams| && forall k :: 0 <= k < |arrivals| ==> arrivals[k].sender < |upstreams|
    ensures match verdict
            case AllFailed => forall k :: 0 <= k < |arrivals| ==> !arrivals[k].ending.Replied?
            case Won(message, upstream) => exists k: nat ::
              FirstReply(arrivals, k) && message == arrivals[k].ending.message &&
                upstream == upstreams[arrivals[k].sender]
  {
    for i := 0 to |upstreams|
      invariant forall k :: 0 <= k < i ==> !arrivals[k].ending.Replied?
    {
      var result := arrivals[i];
      if result.ending.Replied? {
        assert FirstReply(arrivals, i);
        return Won(result.ending.message, upstreams[result.sender]);
      }
    }
    return AllFailed;
  }
}
