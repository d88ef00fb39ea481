/** Changing the configuration of a running server: listeners are moved, and
    moved back when something fails. Steps as values first, then the objects. */
module Reconfigure {
  import opened Basics
  import opened Config
  import Cfg = Config
  import opened CacheSteps
  import AnswerCache
  import History

  datatype Endpoint = Endpoint(address: string, port: int)

  datatype Socket = Udp(at: Endpoint) | Tcp(at: Endpoint)

  /** What the operating system grants to one attempt to open a DNS pair. */
  datatype Grant = Grant(udp: bool, tcp: bool)

  datatype Status = Status(port: int, address: string, listening: bool, failed: bool)

  datatype Dns = Dns(udp: Option<Endpoint>, tcp: Option<Endpoint>, status: Status)

  /** `open` tells whether the listener recorded is one that still listens. */
  datatype Web = Web(listener: Option<Endpoint>, open: bool, address: string, port: int)

  // ---- Sockets -----------------------------------------------------------

  function ListenStep(bound: set<Socket>, s: Socket, granted: bool): (set<Socket>, bool) {
    if granted && s !in bound then (bound + {s}, true) else (bound, false)
  }

  function PairStep(bound: set<Socket>, at: Endpoint, g: Grant): (set<Socket>, bool) {
    var (withUdp, udp) := ListenStep(bound, Udp(at), g.udp);
    if !udp then (bound, false)
    else
      var (withBoth, tcp) := ListenStep(withUdp, Tcp(at), g.tcp);
      if !tcp then (withUdp - {Udp(at)}, false) else (withBoth, true)
  }

  function ClosePair(bound: set<Socket>, d: Dns): set<Socket> {
    bound - (if d.udp.Some? then {Udp(d.udp.value)} else {}) - (if d.tcp.Some? then {Tcp(d.tcp.value)} else {})
  }

  function Listening(at: Endpoint): Dns {
    Dns(Some(at), Some(at), Status(at.port, at.address, true, false))
  }

  /** `Server.Restart`: the sockets, the server and whether it moved. */
  function RestartStep(bound: set<Socket>, d: Dns, at: Endpoint, first: Grant, back: Grant): (set<Socket>, Dns, bool) {
    var former := d.status;
    if former.listening && former.port == at.port && former.address == at.address then (bound, d, true)
    else
      var (after, ok) := PairStep(ClosePair(bound, d), at, first);
      if ok then (after, Listening(at), true)
      else
        var formerAt := Endpoint(former.address, former.port);
        var (reopened, restored) := PairStep(after, formerAt, back);
        if restored then (reopened, Dns(Some(formerAt), Some(formerAt), former), false)
        else (reopened, Dns(None, None, Status(at.port, at.address, false, true)), false)
  }

  /** `Server.Move`: after a failed move back the old listener is still recorded. */
  function MoveStep(bound: set<Socket>, w: Web, at: Endpoint, first: bool, back: bool): (set<Socket>, Web, bool) {
    if w.listener.Some? && w.address == at.address && w.port == at.port then (bound, w, true)
    else
      var closed := if w.listener.Some? && w.open then bound - {Tcp(w.listener.value)} else bound;
      var (after, ok) := ListenStep(closed, Tcp(at), first);
      if ok then (after, Web(Some(at), true, at.address, at.port), true)
      else
        var formerAt := Endpoint(w.address, w.port);
        var (reopened, restored) := ListenStep(after, Tcp(formerAt), back);
        (reopened, if restored then Web(Some(formerAt), true, w.address, w.port)
                   else w.(open := w.open && w.listener.None?), false)
  }

  // ---- Requests ----------------------------------------------------------

  datatype Sys = Sys(bound: set<Socket>, dns: Dns, web: Web, cfg: Config, cacheMax: int, historyMax: int,
                     retention: int)

  /** The outcomes a request meets: two writes, the first attempt at each
      listener, the attempt to go back, and the attempt to undo a DNS move. */
  datatype Outcomes = Outcomes(save: bool, restore: bool, dnsFirst: Grant, dnsBack: Grant,
                               webFirst: bool, webBack: bool, undoFirst: Grant, undoBack: Grant)

  datatype Reply = Accepted | Refused | DnsFailed | WebFailed

  function DnsAt(c: Config): Endpoint { Endpoint(c.bindAddress, c.dnsPort) }

  function WebAt(c: Config): Endpoint { Endpoint(c.webBindAddress, c.webPort) }

  function Restored(p: Parsers, s: Sys, former: Config, restore: bool): Sys {
    if restore then s.(cfg := Sanitize(p, former)) else s
  }

  /** Both requests: store the edited configuration, then move what changed. */
  function ChangeStep(p: Parsers, s: Sys, edit: Config -> Option<Config>, o: Outcomes): (Sys, Reply) {
    if edit(s.cfg).None? || !o.save then (s, Refused)
    else MoveListeners(p, s, Sanitize(p, edit(s.cfg).value), o)
  }

  function MoveListeners(p: Parsers, s: Sys, cfg: Config, o: Outcomes): (Sys, Reply) {
    var saved := s.(cfg := cfg);
    if DnsAt(cfg) == DnsAt(s.cfg) then MoveWeb(p, s.cfg, saved, o)
    else
      var (bound, dns, ok) := RestartStep(s.bound, s.dns, DnsAt(cfg), o.dnsFirst, o.dnsBack);
      var after := saved.(bound := bound, dns := dns);
      if ok then MoveWeb(p, s.cfg, after, o) else (Restored(p, after, s.cfg, o.restore), DnsFailed)
  }

  /** The second half, from `now`; on failure the DNS pair goes back as well. */
  function MoveWeb(p: Parsers, former: Config, now: Sys, o: Outcomes): (Sys, Reply) {
    if WebAt(now.cfg) == WebAt(former) then (now, Accepted)
    else
      var (bound, web, ok) := MoveStep(now.bound, now.web, WebAt(now.cfg), o.webFirst, o.webBack);
      var after := now.(bound := bound, web := web);
      if ok then (after, Accepted)
      else (Restored(p, UndoDns(after, former, o), former, o.restore), WebFailed)
  }

  function UndoDns(s: Sys, former: Config, o: Outcomes): Sys {
    if DnsAt(s.cfg) == DnsAt(former) then s
    else
      var (bound, dns, _) := RestartStep(s.bound, s.dns, DnsAt(former), o.undoFirst, o.undoBack);
      s.(bound := bound, dns := dns)
  }

  /** An accepted update also resizes the cache and the history. */
  function PutConfigStep(p: Parsers, s: Sys, edit: Config -> Option<Config>, o: Outcomes): (Sys, Reply) {
    var (after, reply) := ChangeStep(p, s, edit, o);
    if reply.Accepted? then (Sized(after), reply) else (after, reply)
  }

  function Sized(s: Sys): Sys {
    s.(cacheMax := Max(1, s.cfg.cacheMaxEntries), historyMax := Max(1, s.cfg.queryHistoryMaxEntries),
       retention := s.cfg.queryRetentionDays * History.DAY)
  }

  datatype SetupBody = SetupBody(passwordOk: bool, hash: string, dnsPort: int, bindAddress: string,
                                 webBindAddress: string)

  function SetupEdit(p: Parsers, body: SetupBody): Config -> Option<Config> {
    (c: Config) => Some(c.(
      passwordHash := body.hash,
      dnsPort := if body.dnsPort > 0 then body.dnsPort else c.dnsPort,
      bindAddress := if p.isIp(body.bindAddress) then body.bindAddress else c.bindAddress,
      webBindAddress := if p.isIp(body.webBindAddress) then body.webBindAddress else c.webBindAddress))
  }

  function SetupStep(p: Parsers, s: Sys, body: SetupBody, o: Outcomes): (Sys, Reply) {
    if s.cfg.passwordHash != "" || !body.passwordOk then (s, Refused)
    else ChangeStep(p, s, SetupEdit(p, body), o)
  }

  // ---- In step -----------------------------------------------------------

  function SocketsOf(c: Config): set<Socket> {
    var dns, web := Endpoint(c.bindAddress, c.dnsPort), Endpoint(c.webBindAddress, c.webPort);
    {Udp(dns), Tcp(dns), Tcp(web)}
  }

  /** The listeners are those of `c`, and nothing else is bound. */
  ghost predicate ListensAs(s: Sys, c: Config) {
    var dns, web := Endpoint(c.bindAddress, c.dnsPort), Endpoint(c.webBindAddress, c.webPort);
    && s.dns == Dns(Some(dns), Some(dns), Status(c.dnsPort, c.bindAddress, true, false))
    && s.web == Web(Some(web), true, c.webBindAddress, c.webPort)
    && s.bound == SocketsOf(c) && dns != web
  }

  /** Listeners, cache and history are as the stored configuration says. */
  ghost predicate InSync(p: Parsers, s: Sys) {
    && Clean(p, s.cfg) && ListensAs(s, s.cfg)
    && s.cacheMax == s.cfg.cacheMaxEntries && s.historyMax == s.cfg.queryHistoryMaxEntries
    && s.retention == s.cfg.queryRetentionDays * 86_400_000
  }

  function Both(g: Grant): bool { g.udp && g.tcp }

  function PairAt(at: Endpoint): set<Socket> {
    {Udp(at), Tcp(at)}
  }

  lemma PairOpens(rest: set<Socket>, at: Endpoint, g: Grant)
    ensures var (after, ok) := PairStep(rest, at, g);
            && (ok <==> Both(g) && PairAt(at) !! rest)
            && after == if ok then rest + PairAt(at) else rest
  {
    assert Udp(at) !in rest ==> rest + {Udp(at)} - {Udp(at)} == rest;
    assert rest + {Udp(at)} + {Tcp(at)} == rest + PairAt(at);
  }

  /** Moving the pair from `x`, with `rest` bound besides: it moves when both
      sockets are to be had, and otherwise stays exactly if it can be reopened. */
  lemma RestartMoves(rest: set<Socket>, x: Endpoint, at: Endpoint, first: Grant, back: Grant)
    requires rest !! PairAt(x) && Udp(at) !in rest && at != x
    ensures var (after, dns, ok) := RestartStep(rest + PairAt(x), Listening(x), at, first, back);
            && (ok <==> Both(first) && Tcp(at) !in rest)
            && dns == (if ok then Listening(at) else if Both(back) then Listening(x)
                       else Dns(None, None, Status(at.port, at.address, false, true)))
            && after == (if ok then rest + PairAt(at) else if Both(back) then rest + PairAt(x) else rest)
  {
    assert ClosePair(rest + PairAt(x), Listening(x)) == rest;
    PairOpens(rest, at, first);
    PairOpens(rest, x, back);
    hide PairStep, ClosePair, PairAt;
  }

  /** Opening a pair again brings back the status of before. So a server whose
      status listened exactly while it did listens untold if and only if its
      status did not, the new place was not to be had and the old one was. */
  lemma ReopenedUntoldIff(bound: set<Socket>, d: Dns, at: Endpoint, first: Grant, back: Grant)
    requires d.udp == d.tcp == (if d.status.listening then Some(Endpoint(d.status.address, d.status.port)) else None)
    ensures var (after, dns, ok) := RestartStep(bound, d, at, first, back);
            var former := Endpoint(d.status.address, d.status.port);
            && (dns.udp.Some? && !dns.status.listening <==>
                 && !d.status.listening && !(Both(first) && PairAt(at) !! bound)
                 && Both(back) && PairAt(former) !! bound)
            && (!ok && dns.udp.Some? ==> dns == Dns(Some(former), Some(former), d.status))
            && (!ok && dns.udp.None? ==> dns == Dns(None, None, Status(at.port, at.address, false, true)))
  {
    PairOpens(ClosePair(bound, d), at, first);
    PairOpens(ClosePair(bound, d), Endpoint(d.status.address, d.status.port), back);
    hide PairStep, PairAt;
  }

  lemma MoveMoves(rest: set<Socket>, w: Web, at: Endpoint, first: bool, back: bool)
    requires w.listener == Some(Endpoint(w.address, w.port)) && w.open && at != w.listener.value
    requires Tcp(w.listener.value) !in rest
    ensures var (after, web, ok) := MoveStep(rest + {Tcp(w.listener.value)}, w, at, first, back);
            && (ok <==> first && Tcp(at) !in rest)
            && web == (if ok then Web(Some(at), true, at.address, at.port) else w.(open := back))
            && after == (if ok then rest + {Tcp(at)} else if back then rest + {Tcp(w.listener.value)} else rest)
  {
    assert rest + {Tcp(w.listener.value)} - {Tcp(w.listener.value)} == rest;
  }

  /** The rollbacks this reply called for all worked. */
  predicate RolledBack(reply: Reply, o: Outcomes, dnsChanged: bool) {
    match reply
    case DnsFailed => o.restore && Both(o.dnsBack)
    case WebFailed => o.restore && o.webBack && (dnsChanged ==> Both(o.undoFirst))
    case _ => true
  }

  /** The first attempts at the listeners that change are granted, and their
      endpoints are not each other's. */
  predicate Grantable(former: Config, cfg: Config, o: Outcomes) {
    && (DnsAt(cfg) != DnsAt(former) ==> Both(o.dnsFirst) && DnsAt(cfg) != WebAt(former))
    && (WebAt(cfg) != WebAt(former) ==> o.webFirst && WebAt(cfg) != DnsAt(cfg))
  }

  /** `now` is `former` with a new configuration stored and its DNS pair open. */
  ghost predicate Halfway(p: Parsers, former: Sys, now: Sys) {
    && ListensAs(former, former.cfg) && Sanitize(p, former.cfg) == former.cfg
    && now == former.(cfg := now.cfg, dns := Listening(DnsAt(now.cfg)),
                      bound := PairAt(DnsAt(now.cfg)) + {Tcp(WebAt(former.cfg))})
    && DnsAt(now.cfg) != WebAt(former.cfg)
  }

  lemma UndoGoesBack(former: Sys, failed: Sys, o: Outcomes, rest: set<Socket>)
    requires rest <= {Tcp(WebAt(former.cfg))} && DnsAt(former.cfg) != WebAt(former.cfg) &&
             DnsAt(failed.cfg) != WebAt(former.cfg)
    requires failed.dns == Listening(DnsAt(failed.cfg)) && failed.bound == rest + PairAt(DnsAt(failed.cfg))
    ensures var undone := UndoDns(failed, former.cfg, o);
            && undone == failed.(dns := undone.dns, bound := undone.bound)
            && (undone.dns == Listening(DnsAt(former.cfg)) <==>
                 DnsAt(failed.cfg) == DnsAt(former.cfg) || Both(o.undoFirst))
            && (undone.dns == Listening(DnsAt(former.cfg)) ==> undone.bound == rest + PairAt(DnsAt(former.cfg)))
            && (Tcp(WebAt(former.cfg)) in undone.bound <==> Tcp(WebAt(former.cfg)) in rest)
  {
    if DnsAt(failed.cfg) != DnsAt(former.cfg) {
      RestartMoves(rest, DnsAt(failed.cfg), DnsAt(former.cfg), o.undoFirst, o.undoBack);
      hide RestartStep;
    }
  }

  lemma WebPart(p: Parsers, former: Sys, now: Sys, o: Outcomes)
    requires Halfway(p, former, now)
    ensures var (after, reply) := MoveWeb(p, former.cfg, now, o);
            && (reply.Accepted? ==> ListensAs(after, now.cfg) && after == now.(bound := after.bound, web := after.web))
            && (reply.Accepted? || reply.WebFailed?)
            && (reply.Accepted? <==>
                 (WebAt(now.cfg) != WebAt(former.cfg) ==> o.webFirst && WebAt(now.cfg) != DnsAt(now.cfg)))
            && (reply.WebFailed? && !o.restore ==> !ListensAs(after, after.cfg))
            && after.cfg == (if reply.WebFailed? && o.restore then former.cfg else now.cfg)
            && (reply.WebFailed? ==> (after == former <==> RolledBack(reply, o, DnsAt(now.cfg) != DnsAt(former.cfg))))
            && after.cacheMax == now.cacheMax && after.historyMax == now.historyMax && after.retention == now.retention
  {
    var pair := PairAt(DnsAt(now.cfg));
    if WebAt(now.cfg) == WebAt(former.cfg) {
      assert now.bound == SocketsOf(now.cfg);
    } else {
      MoveMoves(pair, now.web, WebAt(now.cfg), o.webFirst, o.webBack);
      var (bound, web, ok) := MoveStep(now.bound, now.web, WebAt(now.cfg), o.webFirst, o.webBack);
      if ok {
        assert bound == SocketsOf(now.cfg);
      } else {
        var rest := if o.webBack then {Tcp(WebAt(former.cfg))} else {};
        var failed := now.(bound := bound, web := web);
        assert failed.bound == rest + pair;
        UndoGoesBack(former, failed, o, rest);
        assert SocketsOf(former.cfg) == {Tcp(WebAt(former.cfg))} + PairAt(DnsAt(former.cfg));
        hide UndoDns, MoveStep, Sanitize, PairAt;
      }
    }
  }

  lemma ListenersPart(p: Parsers, s: Sys, cfg: Config, o: Outcomes)
    requires ListensAs(s, s.cfg) && Sanitize(p, s.cfg) == s.cfg
    ensures var (after, reply) := MoveListeners(p, s, cfg, o);
            && (reply.Accepted? ==> ListensAs(after, cfg) && after.cfg == cfg)
            && !reply.Refused? && (reply.Accepted? <==> Grantable(s.cfg, cfg, o))
            && (!reply.Accepted? && !o.restore ==> !ListensAs(after, after.cfg))
            && after.cfg == (if !reply.Accepted? && o.restore then s.cfg else cfg)
            && (!reply.Accepted? ==> (after == s <==> RolledBack(reply, o, DnsAt(cfg) != DnsAt(s.cfg))))
            && after.cacheMax == s.cacheMax && after.historyMax == s.historyMax && after.retention == s.retention
  {
    var saved := s.(cfg := cfg);
    var web := {Tcp(WebAt(s.cfg))};
    assert s.bound == web + PairAt(DnsAt(s.cfg));
    if DnsAt(cfg) == DnsAt(s.cfg) {
      assert Halfway(p, s, saved);
      WebPart(p, s, saved, o);
    } else {
      RestartMoves(web, DnsAt(s.cfg), DnsAt(cfg), o.dnsFirst, o.dnsBack);
      var (bound, dns, ok) := RestartStep(s.bound, s.dns, DnsAt(cfg), o.dnsFirst, o.dnsBack);
      if ok {
        var moved := saved.(bound := bound, dns := dns);
        assert bound == PairAt(DnsAt(cfg)) + web;
        assert Halfway(p, s, moved);
        WebPart(p, s, moved, o);
      }
      hide RestartStep, MoveWeb, Halfway;
    }
  }

  /** A change is accepted exactly when it is stored and the first attempts at
      the listeners work; then the listeners are those of the new configuration
      and no other socket is bound. Otherwise everything is as it was exactly
      when the rollbacks it called for worked, and out of step if they did not. */
  lemma ChangeIsAllOrNothing(p: Parsers, s: Sys, edit: Config -> Option<Config>, o: Outcomes)
    requires Sensible(p) && InSync(p, s)
    ensures var (after, reply) := ChangeStep(p, s, edit, o);
            && (reply.Refused? <==> edit(s.cfg).None? || !o.save)
            && (reply.Refused? ==> after == s)
            && (!reply.Refused? ==>
                 var cfg := Sanitize(p, edit(s.cfg).value);
                 && (reply.Accepted? <==> Grantable(s.cfg, cfg, o))
                 && (reply.Accepted? ==> after.cfg == cfg && ListensAs(after, cfg))
                 && (!reply.Accepted? ==> (after == s <==> RolledBack(reply, o, DnsAt(cfg) != DnsAt(s.cfg))))
                 && (!reply.Accepted? ==> (after == s <==> ListensAs(after, after.cfg))))
            && after.cacheMax == s.cacheMax && after.historyMax == s.historyMax && after.retention == s.retention
  {
    CleanIsFixed(p, s.cfg);
    hide Sanitize, Clean, Sensible, MoveListeners, Grantable;
    if edit(s.cfg).Some? && o.save {
      ListenersPart(p, s, Sanitize(p, edit(s.cfg).value), o);
    }
  }

  /** A start in which both servers got their listeners is in step. */
  lemma StartIsInSync(p: Parsers, cfg: Config, g: Grant, granted: bool)
    requires Clean(p, cfg)
    requires PairStep({}, DnsAt(cfg), g).1
    requires ListenStep(PairStep({}, DnsAt(cfg), g).0, Tcp(WebAt(cfg)), granted).1
    ensures InSync(p, Sized(Sys(ListenStep(PairStep({}, DnsAt(cfg), g).0, Tcp(WebAt(cfg)), granted).0,
                                Listening(DnsAt(cfg)),
                                Web(Some(WebAt(cfg)), true, cfg.webBindAddress, cfg.webPort), cfg, 0, 0, 0)))
  {
    PairOpens({}, DnsAt(cfg), g);
    assert {} + PairAt(DnsAt(cfg)) + {Tcp(WebAt(cfg))} == SocketsOf(cfg);
  }

  // ---- After a listener was lost -----------------------------------------

  /** Both DNS sockets are open there. */
  ghost predicate DnsUp(s: Sys, at: Endpoint) {
    s.dns.udp == s.dns.tcp == Some(at) && PairAt(at) <= s.bound
  }

  ghost predicate WebUp(s: Sys, at: Endpoint) {
    s.web.listener == Some(at) && s.web.open && Tcp(at) in s.bound
  }

  /** What the servers hold open is bound and held once, and a status that
      listens tells where; but a listener may have been lost. */
  ghost predicate Honest(s: Sys) {
    && s.dns.udp == s.dns.tcp && (s.dns.udp.Some? ==> PairAt(s.dns.udp.value) <= s.bound)
    && (s.dns.status.listening ==> s.dns.udp == Some(Endpoint(s.dns.status.address, s.dns.status.port)))
    && s.web.listener == Some(Endpoint(s.web.address, s.web.port))
    && (s.web.open ==> Tcp(s.web.listener.value) in s.bound && s.dns.udp != s.web.listener)
  }

  lemma PairGrants(bound: set<Socket>, at: Endpoint, g: Grant)
    ensures var (after, ok) := PairStep(bound, at, g);
            && after == (if ok then bound + PairAt(at) else bound)
            && (ok ==> Tcp(at) !in bound)
  {
    PairOpens(bound, at, g);
  }

  lemma RestartHonest(s: Sys, at: Endpoint, first: Grant, back: Grant)
    requires Honest(s)
    ensures var (bound, dns, ok) := RestartStep(s.bound, s.dns, at, first, back);
            var after := s.(bound := bound, dns := dns);
            && Honest(after) && (ok ==> DnsUp(after, at))
            && forall e :: WebUp(after, e) <==> WebUp(s, e)
  {
    hide PairStep;
    var closed := ClosePair(s.bound, s.dns);
    PairGrants(closed, at, first);
    PairGrants(closed, Endpoint(s.dns.status.address, s.dns.status.port), back);
  }

  lemma MoveHonest(s: Sys, at: Endpoint, first: bool, back: bool)
    requires Honest(s)
    ensures var (bound, web, ok) := MoveStep(s.bound, s.web, at, first, back);
            var after := s.(bound := bound, web := web);
            && Honest(after) && (forall e :: DnsUp(after, e) <==> DnsUp(s, e))
            && (ok ==> (WebUp(after, at) <==> s.web.open || s.web.listener != Some(at)))
  {
  }

  /** Whatever fails, a request keeps the servers honest. If it is accepted, each
      server listens where the configuration says exactly if its place changed or
      it listened there before; but the Web server also not when it is asked back
      to the place it had lost, and still records. */
  lemma AcceptedListensIff(p: Parsers, s: Sys, edit: Config -> Option<Config>, o: Outcomes)
    requires Honest(s)
    ensures var (after, reply) := ChangeStep(p, s, edit, o);
            && Honest(after)
            && (reply.Accepted? ==>
                 var dnsAt, webAt := DnsAt(after.cfg), WebAt(after.cfg);
                 && (DnsUp(after, dnsAt) <==> dnsAt != DnsAt(s.cfg) || DnsUp(s, dnsAt))
                 && (WebUp(after, webAt) <==>
                      if webAt == WebAt(s.cfg) then WebUp(s, webAt) else s.web.open || s.web.listener != Some(webAt)))
  {
    hide RestartStep, MoveStep, Sanitize, Honest, DnsUp, WebUp;
    if edit(s.cfg).Some? && o.save {
      var cfg := Sanitize(p, edit(s.cfg).value);
      var saved := s.(cfg := cfg);
      SameListeners(s, saved);
      if DnsAt(cfg) == DnsAt(s.cfg) {
        MoveWebHonest(p, s.cfg, saved, o);
      } else {
        RestartHonest(saved, DnsAt(cfg), o.dnsFirst, o.dnsBack);
        var (bound, dns, ok) := RestartStep(s.bound, s.dns, DnsAt(cfg), o.dnsFirst, o.dnsBack);
        var after := saved.(bound := bound, dns := dns);
        if ok {
          MoveWebHonest(p, s.cfg, after, o);
        } else {
          SameListeners(after, Restored(p, after, s.cfg, o.restore));
        }
      }
    }
  }

  /** Only the listeners matter here. */
  lemma SameListeners(s: Sys, t: Sys)
    requires t.bound == s.bound && t.dns == s.dns && t.web == s.web
    ensures Honest(s) <==> Honest(t)
    ensures forall e :: (DnsUp(s, e) <==> DnsUp(t, e)) && (WebUp(s, e) <==> WebUp(t, e))
  {
  }

  lemma MoveWebHonest(p: Parsers, former: Config, now: Sys, o: Outcomes)
    requires Honest(now)
    ensures var (after, reply) := MoveWeb(p, former, now, o);
            && Honest(after)
            && (reply.Accepted? ==>
                 var webAt := WebAt(now.cfg);
                 && after.cfg == now.cfg && (forall e :: DnsUp(after, e) <==> DnsUp(now, e))
                 && (WebUp(after, webAt) <==>
                      if webAt == WebAt(former) then WebUp(now, webAt)
                      else now.web.open || now.web.listener != Some(webAt)))
  {
    hide RestartStep, MoveStep, Sanitize, Honest, DnsUp, WebUp;
    if WebAt(now.cfg) != WebAt(former) {
      MoveHonest(now, WebAt(now.cfg), o.webFirst, o.webBack);
      var (bound, web, ok) := MoveStep(now.bound, now.web, WebAt(now.cfg), o.webFirst, o.webBack);
      var after := now.(bound := bound, web := web);
      if !ok {
        if DnsAt(after.cfg) != DnsAt(former) { RestartHonest(after, DnsAt(former), o.undoFirst, o.undoBack); }
        var undone := UndoDns(after, former, o);
        SameListeners(undone, Restored(p, undone, former, o.restore));
      }
    }
  }

  lemma InSyncIsUp(p: Parsers, s: Sys)
    requires InSync(p, s)
    ensures Honest(s) && DnsUp(s, DnsAt(s.cfg)) && WebUp(s, WebAt(s.cfg))
  {
    hide Clean;
  }

  /** What is lost stays lost, and is not reported: once a Web move and the move
      back have failed, requests are accepted while nothing listens there, until
      one asks for a third place. */
  lemma LostWebStaysLost(p: Parsers, s: Sys, edit: Config -> Option<Config>, o: Outcomes,
                         next: Config -> Option<Config>, o': Outcomes)
    requires Honest(s) && ChangeStep(p, s, edit, o).1.WebFailed? && !o.webBack
    ensures var lost := ChangeStep(p, s, edit, o).0;
            var (after, reply) := ChangeStep(p, lost, next, o');
            && !lost.web.open && lost.web.listener == s.web.listener
            && (reply.Accepted? ==>
                 (WebUp(after, WebAt(after.cfg)) <==>
                   WebAt(after.cfg) != WebAt(lost.cfg) && Some(WebAt(after.cfg)) != s.web.listener))
  {
    AcceptedListensIff(p, s, edit, o);
    var lost := ChangeStep(p, s, edit, o).0;
    AcceptedListensIff(p, lost, next, o');
    HonestListener(s);
    HonestListener(lost);
    hide Honest, Sanitize, RestartStep, WebUp, DnsUp;
  }

  lemma HonestListener(s: Sys)
    requires Honest(s)
    ensures s.web.listener == Some(Endpoint(s.web.address, s.web.port))
    ensures !s.web.open ==> forall e :: !WebUp(s, e)
  {
  }

  // ---- Runs --------------------------------------------------------------

  datatype Request =
    | Put(edit: Config -> Option<Config>, outcomes: Outcomes)
    | Setup(body: SetupBody, outcomes: Outcomes)

  function Answer(p: Parsers, s: Sys, r: Request): (Sys, Reply) {
    match r
    case Put(edit, o) => PutConfigStep(p, s, edit, o)
    case Setup(body, o) => SetupStep(p, s, body, o)
  }

  /** Every write back and every attempt to go back succeeds. */
  predicate RollbacksWork(o: Outcomes) {
    o.restore && o.webBack && Both(o.dnsBack) && Both(o.undoFirst)
  }

  lemma SetupKeepsSizes(p: Parsers, s: Sys, body: SetupBody)
    requires Clean(p, s.cfg)
    ensures var cfg := Sanitize(p, SetupEdit(p, body)(s.cfg).value);
            && cfg.cacheMaxEntries == s.cfg.cacheMaxEntries
            && cfg.queryHistoryMaxEntries == s.cfg.queryHistoryMaxEntries
            && cfg.queryRetentionDays == s.cfg.queryRetentionDays
  {
  }

  lemma SizedListens(s: Sys, c: Config)
    requires ListensAs(s, c)
    ensures ListensAs(Sized(s), c)
  {
  }

  lemma SizedInSync(p: Parsers, s: Sys)
    requires Clean(p, s.cfg) && ListensAs(s, s.cfg)
    ensures InSync(p, Sized(s))
  {
    SizedListens(s, s.cfg);
    hide ListensAs;
  }

  lemma PutIsAllOrNothing(p: Parsers, s: Sys, edit: Config -> Option<Config>, o: Outcomes)
    requires Sensible(p) && InSync(p, s) && RollbacksWork(o)
    ensures var (after, reply) := PutConfigStep(p, s, edit, o);
            InSync(p, after) && (!reply.Accepted? ==> after == s)
  {
    ChangeIsAllOrNothing(p, s, edit, o);
    if edit(s.cfg).Some? {
      SanitizeCleans(p, edit(s.cfg).value);
    }
    var (after, reply) := ChangeStep(p, s, edit, o);
    if reply.Accepted? {
      SizedInSync(p, after);
    }
    hide ChangeStep, Sanitize, ListensAs, Sensible, Grantable, Clean, InSync, Sized;
  }

  lemma SetupIsAllOrNothing(p: Parsers, s: Sys, body: SetupBody, o: Outcomes)
    requires Sensible(p) && InSync(p, s) && RollbacksWork(o)
    ensures var (after, reply) := SetupStep(p, s, body, o);
            InSync(p, after) && (!reply.Accepted? ==> after == s)
  {
    var edit := SetupEdit(p, body);
    ChangeIsAllOrNothing(p, s, edit, o);
    assert edit(s.cfg).Some?;
    SanitizeCleans(p, edit(s.cfg).value);
    SetupKeepsSizes(p, s, body);
    hide ChangeStep, Sanitize, SetupEdit, ListensAs, Sensible, Grantable, Clean;
  }

  /** One request keeps the system in step, and if it reports an error it has
      changed nothing. */
  lemma {:induction false} RequestIsAllOrNothing(p: Parsers, s: Sys, r: Request)
    requires Sensible(p) && InSync(p, s) && RollbacksWork(r.outcomes)
    ensures var (after, reply) := Answer(p, s, r);
            InSync(p, after) && (!reply.Accepted? ==> after == s)
  {
    hide InSync, PutConfigStep, SetupStep;
    match r
    case Put(edit, o) => PutIsAllOrNothing(p, s, edit, o);
    case Setup(body, o) => SetupIsAllOrNothing(p, s, body, o);
  }

  function Run(p: Parsers, s: Sys, requests: seq<Request>): Sys {
    if requests == [] then s
    else Answer(p, Run(p, s, requests[..|requests| - 1]), requests[|requests| - 1]).0
  }

  /** In every run of requests whose rollbacks work, the listeners, the cache
      capacity and the history limits stay those of the stored configuration. */
  lemma {:induction false} RunStaysInSync(p: Parsers, s: Sys, requests: seq<Request>)
    requires Sensible(p) && InSync(p, s) && forall r :: r in requests ==> RollbacksWork(r.outcomes)
    ensures InSync(p, Run(p, s, requests))
  {
    if requests != [] {
      RunStaysInSync(p, s, requests[..|requests| - 1]);
      RequestIsAllOrNothing(p, Run(p, s, requests[..|requests| - 1]), requests[|requests| - 1]);
    }
  }

  /** From a start in step, every run of requests keeps the servers honest,
      whatever attempts and writes fail. */
  lemma {:induction false} RunStaysHonest(p: Parsers, s: Sys, requests: seq<Request>)
    requires InSync(p, s)
    ensures Honest(Run(p, s, requests))
  {
    InSyncIsUp(p, s);
    hide InSync, Honest, ChangeStep, PutConfigStep, SetupStep;
    if requests != [] {
      RunStaysHonest(p, s, requests[..|requests| - 1]);
      AnswerHonest(p, Run(p, s, requests[..|requests| - 1]), requests[|requests| - 1]);
    }
  }

  lemma AnswerHonest(p: Parsers, s: Sys, r: Request)
    requires Honest(s)
    ensures Honest(Answer(p, s, r).0)
  {
    hide Honest, ChangeStep, Sized;
    match r
    case Put(edit, o) =>
      AcceptedListensIff(p, s, edit, o);
      SizedIsHonest(ChangeStep(p, s, edit, o).0);
    case Setup(body, o) =>
      AcceptedListensIff(p, s, SetupEdit(p, body), o);
  }

  lemma SizedIsHonest(s: Sys)
    requires Honest(s)
    ensures Honest(Sized(s))
  {
  }

  // ---- First setup -------------------------------------------------------

  /** A server that has a password refuses setup, and so does one given a
      password that is too short. */
  lemma SetupIsRefused(p: Parsers, s: Sys, body: SetupBody, o: Outcomes)
    requires s.cfg.passwordHash != "" || !body.passwordOk
    ensures Answer(p, s, Setup(body, o)) == (s, Refused)
  {
  }

  /** An accepted setup stores the password, and each of the port and the two
      addresses in its own field where it is given and valid; everything else
      stays. A port above the range becomes the default one. */
  lemma SetupStores(p: Parsers, s: Sys, body: SetupBody, o: Outcomes)
    requires Sensible(p) && Clean(p, s.cfg) && Answer(p, s, Setup(body, o)).1.Accepted?
    ensures Answer(p, s, Setup(body, o)).0.cfg ==
            s.cfg.(passwordHash := body.hash,
                   dnsPort := if body.dnsPort <= 0 then s.cfg.dnsPort
                              else if body.dnsPort <= 65535 then body.dnsPort else 53,
                   bindAddress := if p.isIp(body.bindAddress) then body.bindAddress else s.cfg.bindAddress,
                   webBindAddress := if p.isIp(body.webBindAddress) then body.webBindAddress else s.cfg.webBindAddress)
  {
    hide MoveListeners, Sanitize, Clean, Sensible;
    var edited := SetupEdit(p, body)(s.cfg).value;
    AcceptedStores(p, s, SetupEdit(p, body), o);
    SanitizeFields(p, edited);
    SanitizeFields(p, s.cfg);
    CleanIsFixed(p, s.cfg);
    SameUpstreams(p, s.cfg, edited);
  }

  lemma SameUpstreams(p: Parsers, a: Config, b: Config)
    requires a.upstreams == b.upstreams
    ensures Sanitize(p, a).upstreams == Sanitize(p, b).upstreams
  {
    hide CleanUpstreams, Clamp;
  }

  /** An accepted change stores the edit, cleaned; any other reply leaves the
      password that was there or, if it could not be put back, the edit's. */
  lemma AcceptedStores(p: Parsers, s: Sys, edit: Config -> Option<Config>, o: Outcomes)
    ensures var (after, reply) := ChangeStep(p, s, edit, o);
            && (reply.Accepted? ==> edit(s.cfg).Some? && after.cfg == Sanitize(p, edit(s.cfg).value))
            && (after.cfg.passwordHash == s.cfg.passwordHash
                || (edit(s.cfg).Some? && after.cfg.passwordHash == edit(s.cfg).value.passwordHash))
  {
    hide RestartStep, MoveStep, Sanitize;
    SanitizeFields(p, s.cfg);
    if edit(s.cfg).Some? { SanitizeFields(p, edit(s.cfg).value); }
  }

  /** How many setups of a run are accepted. */
  function SetupsAccepted(p: Parsers, s: Sys, requests: seq<Request>): nat {
    if requests == [] then 0
    else
      var n := |requests| - 1;
      SetupsAccepted(p, s, requests[..n])
      + if requests[n].Setup? && Answer(p, Run(p, s, requests[..n]), requests[n]).1.Accepted? then 1 else 0
  }

  /** Setups set a password, and settings do not clear it. */
  ghost predicate KeepsPassword(r: Request) {
    match r
    case Setup(body, _) => body.hash != ""
    case Put(edit, _) => forall c: Config :: c.passwordHash != "" && edit(c).Some? ==> edit(c).value.passwordHash != ""
  }

  lemma PasswordStays(p: Parsers, s: Sys, r: Request)
    requires s.cfg.passwordHash != "" && KeepsPassword(r)
    ensures Answer(p, s, r).0.cfg.passwordHash != "" && (r.Setup? ==> !Answer(p, s, r).1.Accepted?)
  {
    hide ChangeStep, Sanitize;
    match r
    case Put(edit, o) => AcceptedStores(p, s, edit, o);
    case Setup(body, o) => SetupIsRefused(p, s, body, o);
  }

  lemma SetupSetsPassword(p: Parsers, s: Sys, body: SetupBody, o: Outcomes)
    requires body.hash != "" && Answer(p, s, Setup(body, o)).1.Accepted?
    ensures Answer(p, s, Setup(body, o)).0.cfg.passwordHash != ""
  {
    hide MoveListeners, Sanitize;
    AcceptedStores(p, s, SetupEdit(p, body), o);
    SanitizeFields(p, SetupEdit(p, body)(s.cfg).value);
  }

  /** First setup happens once: at most one setup of any run is accepted, and
      none when there was a password to begin with. */
  lemma {:induction false} SetupHappensOnce(p: Parsers, s: Sys, requests: seq<Request>)
    requires forall r :: r in requests ==> KeepsPassword(r)
    ensures SetupsAccepted(p, s, requests) <= 1
    ensures s.cfg.passwordHash != "" ==> SetupsAccepted(p, s, requests) == 0
    ensures s.cfg.passwordHash != "" || SetupsAccepted(p, s, requests) == 1 ==>
              Run(p, s, requests).cfg.passwordHash != ""
  {
    if requests != [] {
      hide Answer, KeepsPassword;
      var n := |requests| - 1;
      SetupHappensOnce(p, s, requests[..n]);
      var now, r := Run(p, s, requests[..n]), requests[n];
      if now.cfg.passwordHash != "" {
        PasswordStays(p, now, r);
      } else if r.Setup? && Answer(p, now, r).1.Accepted? {
        SetupHasHash(r);
        SetupSetsPassword(p, now, r.body, r.outcomes);
      }
    }
  }

  lemma SetupHasHash(r: Request)
    requires r.Setup? && KeepsPassword(r)
    ensures r.body.hash != ""
  {
  }

  // ---- The objects -------------------------------------------------------

  /** The sockets the process holds. */
  class Network {
    var bound: set<Socket>

    constructor ()
      ensures bound == {}
    {
      bound := {};
    }

    method Listen(s: Socket, granted: bool) returns (ok: bool)
      modifies this
      ensures (bound, ok) == ListenStep(old(bound), s, granted)
    {
      ok := granted && s !in bound;
      if ok { bound := bound + {s}; }
    }

    method Close(s: Socket)
      modifies this
      ensures bound == old(bound) - {s}
    {
      bound := bound - {s};
    }
  }

  class DnsServer {
    const net: Network
    var udp: Option<Endpoint>
    var tcp: Option<Endpoint>
    var status: Status

    constructor (net: Network)
      ensures this.net == net && View() == Dns(None, None, Status(0, "", false, false))
    {
      this.net, udp, tcp, status := net, None, None, Status(0, "", false, false);
    }

    ghost function View(): Dns
      reads this
    {
      Dns(udp, tcp, status)
    }

    method StartPair(at: Endpoint, g: Grant) returns (ok: bool)
      modifies net
      ensures (net.bound, ok) == PairStep(old(net.bound), at, g)
    {
      ok := net.Listen(Udp(at), g.udp);
      if !ok { return; }
      ok := net.Listen(Tcp(at), g.tcp);
      if !ok {
        net.Close(Udp(at));
      }
    }

    method Start(at: Endpoint, g: Grant) returns (ok: bool)
      modifies this, net
      ensures (net.bound, ok) == PairStep(old(net.bound), at, g)
      ensures View() == if ok then Listening(at) else old(View()).(status := Status(at.port, at.address, false, true))
    {
      ok := StartPair(at, g);
      if !ok {
        status := Status(at.port, at.address, false, true);
        return;
      }
      udp, tcp := Some(at), Some(at);
      status := Status(at.port, at.address, true, false);
    }

    method ShutdownPair(u: Option<Endpoint>, t: Option<Endpoint>)
      modifies net
      ensures net.bound == ClosePair(old(net.bound), Dns(u, t, status))
    {
      if u.Some? { net.Close(Udp(u.value)); }
      if t.Some? { net.Close(Tcp(t.value)); }
    }

    method Shutdown()
      modifies this, net
      ensures net.bound == ClosePair(old(net.bound), old(View()))
      ensures View() == Dns(None, None, old(status).(listening := false))
    {
      var u, t := udp, tcp;
      udp, tcp := None, None;
      status := status.(listening := false);
      ShutdownPair(u, t);
    }

    method Restart(at: Endpoint, first: Grant, back: Grant) returns (ok: bool)
      modifies this, net
      ensures (net.bound, View(), ok) == RestartStep(old(net.bound), old(View()), at, first, back)
    {
      hide PairStep, ClosePair;
      var formerUdp, formerTcp, former := udp, tcp, status;
      if former.listening && former.port == at.port && former.address == at.address {
        return true;
      }
      udp, tcp := None, None;
      ShutdownPair(formerUdp, formerTcp);
      ok := StartPair(at, first);
      if ok {
        udp, tcp := Some(at), Some(at);
        status := Status(at.port, at.address, true, false);
        return;
      }
      var formerAt := Endpoint(former.address, former.port);
      var restored := StartPair(formerAt, back);
      if restored {
        udp, tcp := Some(formerAt), Some(formerAt);
        status := former;
      } else {
        status := Status(at.port, at.address, false, true);
      }
    }
  }

  class WebServer {
    const net: Network
    var listener: Option<Endpoint>
    var open: bool                     // the listener's own state
    var address: string
    var port: int

    constructor (net: Network)
      ensures this.net == net && View() == Web(None, false, "", 0)
    {
      this.net, listener, open, address, port := net, None, false, "", 0;
    }

    ghost function View(): Web
      reads this
    {
      Web(listener, open, address, port)
    }

    method StartLocked(at: Endpoint, granted: bool) returns (ok: bool)
      modifies this, net
      ensures (net.bound, ok) == ListenStep(old(net.bound), Tcp(at), granted)
      ensures View() == if ok then Web(Some(at), true, at.address, at.port) else old(View())
    {
      ok := net.Listen(Tcp(at), granted);
      if ok {
        listener, open, address, port := Some(at), true, at.address, at.port;
      }
    }

    /** Closing a listener a second time frees nothing. */
    method CloseListener()
      requires listener.Some?
      modifies this`open, net
      ensures net.bound == (if old(open) then old(net.bound) - {Tcp(listener.value)} else old(net.bound)) && !open
    {
      if open { net.Close(Tcp(listener.value)); }
      open := false;
    }

    method Move(at: Endpoint, first: bool, back: bool) returns (ok: bool)
      modifies this, net
      ensures (net.bound, View(), ok) == MoveStep(old(net.bound), old(View()), at, first, back)
    {
      if listener.Some? && address == at.address && port == at.port {
        return true;
      }
      var formerAddress, formerPort := address, port;
      if listener.Some? {
        CloseListener();
      }
      ok := StartLocked(at, first);
      if ok { return; }
      var _ := StartLocked(Endpoint(formerAddress, formerPort), back);
    }
  }

  /** The request handlers over everything they change. */
  class Handlers {
    const config: Cfg.Store
    const net: Network
    const dns: DnsServer
    const web: WebServer
    const cache: AnswerCache.Cache
    const history: History.Store

    constructor (config: Cfg.Store, net: Network, dns: DnsServer, web: WebServer, cache: AnswerCache.Cache,
                 history: History.Store)
      requires config.Valid() && dns.net == net && web.net == net && cache.Valid()
      ensures Valid() && this.config == config && this.net == net && this.dns == dns && this.web == web
      ensures this.cache == cache && this.history == history
    {
      this.config, this.net, this.dns, this.web, this.cache, this.history := config, net, dns, web, cache, history;
    }

    ghost predicate Valid()
      reads this, config, config.value.upstreams.data, dns, web, cache, cache.owned
    {
      config.Valid() && dns.net == net && web.net == net && cache.Valid()
    }

    ghost function View(): Sys
      requires InBounds(config.value)
      reads this, config, config.value.upstreams.data, net, dns, web, cache, history
    {
      Sys(net.bound, dns.View(), web.View(), config.View(), cache.state.max, history.max, history.retention)
    }

    /** What both handlers do once they know the edit: store, move, and go back on failure. */
    method Change(edit: Config -> Option<Config>, o: Outcomes) returns (reply: Reply)
      requires Valid()
      modifies config, net, dns, web
      ensures Valid()
      ensures (View(), reply) == ChangeStep(config.parsers, old(View()), edit, o)
    {
      hide RestartStep, MoveWeb, Sanitize, Clean, Sensible, AnswerCache.Cache.Valid, WellFormed;
      var former := config.Get();
      var was := ValueOf(former);
      var ok := config.Update(edit, o.save);
      if !ok { return Refused; }
      var held := config.Get();
      var updated := ValueOf(held);
      if updated.dnsPort != was.dnsPort || updated.bindAddress != was.bindAddress {
        ok := dns.Restart(Endpoint(updated.bindAddress, updated.dnsPort), o.dnsFirst, o.dnsBack);
        if !ok {
          var _ := config.Replace(former, o.restore);
          return DnsFailed;
        }
      }
      reply := ChangeWeb(former, was, updated, o);
    }

    /** The Web listener's turn; if it fails the DNS pair is put back too. */
    method ChangeWeb(former: Held, was: Config, updated: Config, o: Outcomes) returns (reply: Reply)
      requires Valid() && InBounds(former) && former.upstreams.data != config.value.upstreams.data
      requires was == ValueOf(former) && updated == config.View()
      modifies config, former.upstreams.data, net, dns, web
      ensures Valid()
      ensures (View(), reply) == MoveWeb(config.parsers, was, old(View()), o)
    {
      hide RestartStep, MoveStep, Sanitize, Clean, Sensible, AnswerCache.Cache.Valid, WellFormed;
      if updated.webPort == was.webPort && updated.webBindAddress == was.webBindAddress {
        return Accepted;
      }
      var ok := web.Move(Endpoint(updated.webBindAddress, updated.webPort), o.webFirst, o.webBack);
      if ok { return Accepted; }
      if updated.dnsPort != was.dnsPort || updated.bindAddress != was.bindAddress {
        var _ := dns.Restart(Endpoint(was.bindAddress, was.dnsPort), o.undoFirst, o.undoBack);
      }
      var _ := config.Replace(former, o.restore);
      return WebFailed;
    }

    method PutConfig(edit: Config -> Option<Config>, o: Outcomes, now: int) returns (reply: Reply)
      requires Valid()
      modifies config, net, dns, web, cache, history
      ensures Valid()
      ensures (View(), reply) == PutConfigStep(config.parsers, old(View()), edit, o)
    {
      LimitsAfter();
      hide ChangeStep, Clean, ResizeStep, History.Limited;
      reply := Change(edit, o);
      if !reply.Accepted? { return; }
      var held := config.Get();
      var updated := ValueOf(held);
      history.SetLimits(updated.queryHistoryMaxEntries, updated.queryRetentionDays, now);
      CapacityAfter(cache.state, updated.cacheMaxEntries);
      cache.SetMaxEntries(updated.cacheMaxEntries);
    }

    method FirstSetup(body: SetupBody, o: Outcomes) returns (reply: Reply)
      requires Valid()
      modifies config, net, dns, web
      ensures Valid()
      ensures (View(), reply) == SetupStep(config.parsers, old(View()), body, o)
    {
      hide ChangeStep, Clean;
      var held := config.Get();
      if ValueOf(held).passwordHash != "" || !body.passwordOk {
        return Refused;
      }
      reply := Change(SetupEdit(config.parsers, body), o);
    }
  }

  lemma CapacityAfter(c: CacheState<Packet>, n: int)
    ensures ResizeStep(c, n).max == Max(1, n)
  {
  }

  lemma LimitsAfter()
    ensures forall s: History.State, m: int, days: int, now: int {:trigger History.Limited(s, m, days, now)} ::
      && History.Limited(s, m, days, now).max == Max(1, m)
      && History.Limited(s, m, days, now).retention == days * History.DAY
  {
  }
}
