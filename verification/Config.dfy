/** Configuration values, the clean-up every stored configuration goes through,
    and the store that keeps memory and file in step. */
module Config {
  import opened Basics
  import opened Text

  datatype Config = Config(
    dnsPort: int, webPort: int, bindAddress: string, webBindAddress: string, upstreams: seq<string>,
    forwardTimeoutMs: int, ttlMin: int, ttlMax: int, queryRetentionDays: int, queryHistoryMaxEntries: int,
    cacheMaxEntries: int, sessionTtlHours: int, passwordHash: string)

  /** The address parsers of the network library, left opaque. */
  datatype Parsers = Parsers(isIp: string -> bool, isUpstream: string -> bool)

  /** What is used of them: the built-in defaults parse, and an upstream (an
      address, or an address and a port) is non-empty with no ',' and no '|'. */
  ghost predicate Sensible(p: Parsers) {
    && p.isIp("0.0.0.0") && (forall u :: u in Defaults().upstreams ==> p.isUpstream(u) && Trimmed(u))
    && forall u :: p.isUpstream(u) ==> u != "" && ',' !in u && '|' !in u
  }

  function Defaults(): Config {
    Config(53, 8080, "0.0.0.0", "0.0.0.0", ["223.5.5.5", "119.29.29.29"], 3000, 10, 3600, 1, 10_000, 2_000, 24, "")
  }

  function Clamp(value: int, low: int, high: int, fallback: int): int {
    if value < low || value > high then fallback else value
  }

  /** The trimmed upstreams that parse, in order. */
  function Parseable(p: Parsers, upstreams: seq<string>): seq<string> {
    if upstreams == [] then []
    else
      var rest := Parseable(p, upstreams[..|upstreams| - 1]);
      var u := TrimSpace(upstreams[|upstreams| - 1]);
      if p.isUpstream(u) then rest + [u] else rest
  }

  function CleanUpstreams(p: Parsers, upstreams: seq<string>): seq<string> {
    var valid := Parseable(p, upstreams);
    var some := if valid == [] then Defaults().upstreams else valid;
    if |some| > 8 then some[..8] else some
  }

  function Sanitize(p: Parsers, c: Config): Config {
    var d := Defaults();
    var ttlMin := Clamp(c.ttlMin, 1, 3600, d.ttlMin);
    c.(dnsPort := Clamp(c.dnsPort, 1, 65535, d.dnsPort),
       webPort := Clamp(c.webPort, 1, 65535, d.webPort),
       bindAddress := if p.isIp(c.bindAddress) then c.bindAddress else d.bindAddress,
       webBindAddress := if p.isIp(c.webBindAddress) then c.webBindAddress else d.webBindAddress,
       upstreams := CleanUpstreams(p, c.upstreams),
       forwardTimeoutMs := Clamp(c.forwardTimeoutMs, 500, 30000, d.forwardTimeoutMs),
       ttlMin := ttlMin,
       ttlMax := Clamp(c.ttlMax, ttlMin, 86400, d.ttlMax),
       queryRetentionDays := Clamp(c.queryRetentionDays, 0, 30, d.queryRetentionDays),
       queryHistoryMaxEntries := Clamp(c.queryHistoryMaxEntries, 100, 1_000_000, d.queryHistoryMaxEntries),
       cacheMaxEntries := Clamp(c.cacheMaxEntries, 100, 100_000, d.cacheMaxEntries),
       sessionTtlHours := Clamp(c.sessionTtlHours, 1, 720, d.sessionTtlHours))
  }

  // ---- What a clean configuration is -------------------------------------

  ghost predicate CleanList(p: Parsers, upstreams: seq<string>) {
    1 <= |upstreams| <= 8 && forall i :: 0 <= i < |upstreams| ==> p.isUpstream(upstreams[i]) && Trimmed(upstreams[i])
  }

  ghost predicate Clean(p: Parsers, c: Config) {
    && 1 <= c.dnsPort <= 65535 && 1 <= c.webPort <= 65535
    && p.isIp(c.bindAddress) && p.isIp(c.webBindAddress)
    && CleanList(p, c.upstreams)
    && 500 <= c.forwardTimeoutMs <= 30000
    && 1 <= c.ttlMin <= 3600 && c.ttlMin <= c.ttlMax <= 86400
    && 0 <= c.queryRetentionDays <= 30 && 100 <= c.queryHistoryMaxEntries <= 1_000_000
    && 100 <= c.cacheMaxEntries <= 100_000 && 1 <= c.sessionTtlHours <= 720
  }

  lemma {:induction false} ParseableIsClean(p: Parsers, upstreams: seq<string>)
    ensures forall i :: 0 <= i < |Parseable(p, upstreams)| ==>
      p.isUpstream(Parseable(p, upstreams)[i]) && Trimmed(Parseable(p, upstreams)[i])
  {
    if upstreams != [] {
      ParseableIsClean(p, upstreams[..|upstreams| - 1]);
      TrimSpaceTrims(upstreams[|upstreams| - 1]);
    }
  }

  lemma {:induction false} ParseableOfClean(p: Parsers, upstreams: seq<string>)
    requires forall i :: 0 <= i < |upstreams| ==> p.isUpstream(upstreams[i]) && Trimmed(upstreams[i])
    ensures Parseable(p, upstreams) == upstreams
  {
    if upstreams != [] {
      var n := |upstreams| - 1;
      ParseableOfClean(p, upstreams[..n]);
      TrimSpaceTrims(upstreams[n]);
    }
  }

  lemma CleanUpstreamsIsClean(p: Parsers, upstreams: seq<string>)
    requires Sensible(p)
    ensures CleanList(p, CleanUpstreams(p, upstreams))
  {
    ParseableIsClean(p, upstreams);
    assert forall i :: 0 <= i < 2 ==> Defaults().upstreams[i] in Defaults().upstreams;
  }

  /** Whatever comes in, what comes out is clean. */
  lemma SanitizeCleans(p: Parsers, c: Config)
    requires Sensible(p)
    ensures Clean(p, Sanitize(p, c))
  {
    hide Sensible, CleanList, CleanUpstreams;
    CleanUpstreamsIsClean(p, c.upstreams);
    assert p.isIp("0.0.0.0") by { SensibleIp(p); }
  }

  lemma SensibleIp(p: Parsers)
    requires Sensible(p)
    ensures p.isIp("0.0.0.0")
  {
  }

  /** The clean configurations are exactly those the clean-up leaves alone. */
  lemma CleanIsFixed(p: Parsers, c: Config)
    requires Sensible(p)
    ensures Sanitize(p, c) == c <==> Clean(p, c)
  {
    SanitizeCleans(p, c);
    if Clean(p, c) {
      ParseableOfClean(p, c.upstreams);
    }
  }

  lemma SanitizeTwice(p: Parsers, c: Config)
    requires Sensible(p)
    ensures Sanitize(p, Sanitize(p, c)) == Sanitize(p, c)
  {
    hide Sanitize, Clean;
    SanitizeCleans(p, c);
    CleanIsFixed(p, Sanitize(p, c));
  }

  /** A number in its range stays, and any other becomes the default, never the
      nearest bound; the same for addresses that parse. */
  lemma SanitizeFields(p: Parsers, c: Config)
    ensures var s := Sanitize(p, c);
            && s.dnsPort == (if 1 <= c.dnsPort <= 65535 then c.dnsPort else 53)
            && s.webPort == (if 1 <= c.webPort <= 65535 then c.webPort else 8080)
            && s.bindAddress == (if p.isIp(c.bindAddress) then c.bindAddress else "0.0.0.0")
            && s.webBindAddress == (if p.isIp(c.webBindAddress) then c.webBindAddress else "0.0.0.0")
            && s.forwardTimeoutMs == (if 500 <= c.forwardTimeoutMs <= 30000 then c.forwardTimeoutMs else 3000)
            && s.ttlMin == (if 1 <= c.ttlMin <= 3600 then c.ttlMin else 10)
            && s.ttlMax == (if s.ttlMin <= c.ttlMax <= 86400 then c.ttlMax else 3600)
            && s.queryRetentionDays == (if 0 <= c.queryRetentionDays <= 30 then c.queryRetentionDays else 1)
            && s.queryHistoryMaxEntries ==
               (if 100 <= c.queryHistoryMaxEntries <= 1_000_000 then c.queryHistoryMaxEntries else 10_000)
            && s.cacheMaxEntries == (if 100 <= c.cacheMaxEntries <= 100_000 then c.cacheMaxEntries else 2_000)
            && s.sessionTtlHours == (if 1 <= c.sessionTtlHours <= 720 then c.sessionTtlHours else 24)
            && s.passwordHash == c.passwordHash
  {
    hide CleanUpstreams;
  }

  /** Exactly the upstreams that parse once trimmed are kept, in order. */
  lemma {:induction false} ParseableIs(p: Parsers, upstreams: seq<string>)
    ensures forall u :: u in Parseable(p, upstreams) <==>
              p.isUpstream(u) && exists raw :: raw in upstreams && TrimSpace(raw) == u
    ensures (forall u :: u in upstreams ==> p.isUpstream(TrimSpace(u))) ==>
              |Parseable(p, upstreams)| == |upstreams| &&
              forall i :: 0 <= i < |upstreams| ==> Parseable(p, upstreams)[i] == TrimSpace(upstreams[i])
  {
    hide TrimSpace;
    if upstreams != [] {
      var n := |upstreams| - 1;
      ParseableIs(p, upstreams[..n]);
      assert upstreams == upstreams[..n] + [upstreams[n]];
    }
  }

  lemma {:induction false} ParseableJoins(p: Parsers, a: seq<string>, b: seq<string>)
    ensures Parseable(p, a + b) == Parseable(p, a) + Parseable(p, b)
  {
    hide TrimSpace;
    if b == [] {
      assert a + b == a;
    } else {
      var n := |b| - 1;
      assert (a + b)[..|a| + n] == a + b[..n];
      ParseableJoins(p, a, b[..n]);
    }
  }

  /** Of these the first eight stay, and two are put in when there are none. */
  lemma UpstreamsAre(p: Parsers, c: Config)
    ensures var kept, s := Parseable(p, c.upstreams), Sanitize(p, c).upstreams;
            && (kept == [] ==> s == ["223.5.5.5", "119.29.29.29"])
            && (kept != [] ==> s <= kept && |s| == Min(8, |kept|))
  {
  }

  // ---- In place ----------------------------------------------------------

  /** A slice: the first `len` cells of an array others may share. */
  datatype Slice = Slice(data: array<string>, len: nat)

  /** A configuration as the program holds it; `base.upstreams` is not used. */
  datatype Held = Held(base: Config, upstreams: Slice)

  ghost predicate InBounds(h: Held) {
    h.upstreams.len <= h.upstreams.data.Length
  }

  function ValueOf(h: Held): Config
    requires h.upstreams.len <= h.upstreams.data.Length
    reads h.upstreams.data
  {
    h.base.(upstreams := h.upstreams.data[..h.upstreams.len])
  }

  method HeldOf(c: Config) returns (h: Held)
    ensures InBounds(h) && fresh(h.upstreams.data) && ValueOf(h) == c
  {
    var data := new string[|c.upstreams|](i requires 0 <= i < |c.upstreams| => c.upstreams[i]);
    h := Held(c, Slice(data, |c.upstreams|));
    assert data[..|c.upstreams|] == c.upstreams;
  }

  /** The first `n` cells hold upstreams that a filter would keep as they are. */
  ghost predicate CleanCells(p: Parsers, data: array<string>, n: nat)
    reads data
  {
    n <= data.Length && forall i :: 0 <= i < n ==> p.isUpstream(data[i]) && Trimmed(data[i])
  }

  /** The filter loop: kept upstreams are written over the front of the array
      that is being read. Clean cells at the front are written over by
      themselves. */
  method FilterInPlace(p: Parsers, s: Slice, ghost clean: nat) returns (kept: nat)
    requires s.len <= s.data.Length && CleanCells(p, s.data, clean)
    modifies s.data
    ensures kept <= s.len && s.data[..kept] == Parseable(p, old(s.data[..s.len]))
    ensures s.data[s.len..] == old(s.data[s.len..])
    ensures s.data[..clean] == old(s.data[..clean])
  {
    hide TrimSpace, Trimmed;
    kept := 0;
    ghost var input := s.data[..s.len];
    for i := 0 to s.len
      invariant kept <= i
      invariant s.data[..kept] == Parseable(p, input[..i])
      invariant s.data[i..] == old(s.data[i..])
      invariant i <= clean ==> kept == i
      invariant clean <= i ==> clean <= kept
      invariant s.data[..clean] == old(s.data[..clean])
    {
      var upstream := TrimSpace(s.data[i]);
      assert input[..i + 1][..i] == input[..i];
      assert s.data[i] == old(s.data[i..])[0];
      if i < clean {
        assert s.data[i] == s.data[..clean][i] == old(s.data[i]);
        TrimSpaceTrims(s.data[i]);
      }
      if p.isUpstream(upstream) {
        s.data[kept] := upstream;
        kept := kept + 1;
      }
      assert s.data[i + 1..] == old(s.data[i..])[1..];
    }
    assert input[..s.len] == input;
  }

  method SanitizeInPlace(p: Parsers, h: Held, ghost clean: nat) returns (r: Held)
    requires InBounds(h) && CleanCells(p, h.upstreams.data, clean)
    modifies h.upstreams.data
    ensures InBounds(r) && ValueOf(r) == Sanitize(p, old(ValueOf(h)))
    ensures r.upstreams.data == h.upstreams.data || fresh(r.upstreams.data)
    ensures h.upstreams.data[..clean] == old(h.upstreams.data[..clean])
    ensures Clean(p, old(ValueOf(h))) ==> ValueOf(h) == old(ValueOf(h))
  {
    ghost var before := ValueOf(h);
    if Clean(p, before) {
      ParseableOfClean(p, before.upstreams);
    }
    var base, d := h.base, Defaults();
    base := base.(dnsPort := Clamp(base.dnsPort, 1, 65535, d.dnsPort), upstreams := []);
    base := base.(webPort := Clamp(base.webPort, 1, 65535, d.webPort));
    if !p.isIp(base.bindAddress) { base := base.(bindAddress := d.bindAddress); }
    if !p.isIp(base.webBindAddress) { base := base.(webBindAddress := d.webBindAddress); }
    var kept := FilterInPlace(p, h.upstreams, clean);
    var valid := Slice(h.upstreams.data, kept);
    if valid.len == 0 {
      var fallback := HeldOf(Defaults());
      valid := fallback.upstreams;
    }
    if valid.len > 8 {
      valid := valid.(len := 8);
    }
    base := base.(forwardTimeoutMs := Clamp(base.forwardTimeoutMs, 500, 30000, d.forwardTimeoutMs));
    base := base.(ttlMin := Clamp(base.ttlMin, 1, 3600, d.ttlMin));
    base := base.(ttlMax := Clamp(base.ttlMax, base.ttlMin, 86400, d.ttlMax));
    base := base.(queryRetentionDays := Clamp(base.queryRetentionDays, 0, 30, d.queryRetentionDays));
    base := base.(queryHistoryMaxEntries :=
      Clamp(base.queryHistoryMaxEntries, 100, 1_000_000, d.queryHistoryMaxEntries));
    base := base.(cacheMaxEntries := Clamp(base.cacheMaxEntries, 100, 100_000, d.cacheMaxEntries));
    base := base.(sessionTtlHours := Clamp(base.sessionTtlHours, 1, 720, d.sessionTtlHours));
    r := Held(base, valid);
  }

  lemma CellsOf(p: Parsers, data: array<string>, n: nat)
    requires n <= data.Length && (n > 0 ==> CleanList(p, data[..n]))
    ensures CleanCells(p, data, n)
  {
  }

  /** The configuration in memory and the file it is written to. */
  class Store {
    var value: Held
    var file: Config
    const parsers: Parsers

    ghost predicate Valid()
      reads this, value.upstreams.data
    {
      InBounds(value) && Sensible(parsers) && Clean(parsers, ValueOf(value))
    }

    ghost function View(): Config
      requires InBounds(value)
      reads this, value.upstreams.data
    {
      ValueOf(value)
    }

    constructor (p: Parsers, initial: Held)
      requires Sensible(p) && InBounds(initial) && Clean(p, ValueOf(initial))
      ensures Valid() && value == initial && file == ValueOf(initial) && parsers == p
    {
      value, file, parsers := initial, ValueOf(initial), p;
    }

    method Get() returns (copy: Held)
      requires InBounds(value)
      ensures InBounds(copy) && fresh(copy.upstreams.data) && ValueOf(copy) == View()
    {
      copy := HeldOf(ValueOf(value));
    }

    /** Cleans its by-value copy, which shares the upstream array, and writes it. */
    method Save(cfg: Held, writes: bool, ghost clean: nat) returns (ok: bool)
      requires InBounds(cfg) && CleanCells(parsers, cfg.upstreams.data, clean)
      modifies this`file, cfg.upstreams.data
      ensures ok == writes
      ensures file == if ok then Sanitize(parsers, old(ValueOf(cfg))) else old(file)
      ensures Clean(parsers, old(ValueOf(cfg))) ==> ValueOf(cfg) == old(ValueOf(cfg))
      ensures cfg.upstreams.data[..clean] == old(cfg.upstreams.data[..clean])
    {
      var cleaned := SanitizeInPlace(parsers, cfg, clean);
      ok := writes;
      if writes { file := ValueOf(cleaned); }
    }

    method Update(edit: Config -> Option<Config>, writes: bool) returns (ok: bool)
      requires Valid()
      modifies this
      ensures Valid()
      ensures ok <==> writes && edit(old(View())).Some?
      ensures View() == if ok then Sanitize(parsers, edit(old(View())).value) else old(View())
      ensures file == if ok then View() else old(file)
      ensures value.upstreams.data == old(value.upstreams.data) || fresh(value.upstreams.data)
    {
      var next := Get();
      var edited := edit(ValueOf(next));
      if edited.None? {
        return false;
      }
      next := HeldOf(edited.value);
      next := SanitizeInPlace(parsers, next, 0);
      SanitizeCleans(parsers, edited.value);
      CleanIsFixed(parsers, ValueOf(next));
      ok := Save(next, writes, 0);
      if ok { value := next; }
    }

    /** The stored value takes over the array it was given. A failed write
        leaves memory as it was even when that array is the store's own: its
        cells are clean, and filtering writes clean cells over by themselves. */
    method Replace(next: Held, writes: bool) returns (ok: bool)
      requires Valid() && InBounds(next)
      modifies this, next.upstreams.data
      ensures ok == writes && Valid()
      ensures View() == if ok then Sanitize(parsers, old(ValueOf(next))) else old(View())
      ensures file == if ok then View() else old(file)
      ensures ok ==> value.upstreams.data == next.upstreams.data || fresh(value.upstreams.data)
      ensures !ok ==> value == old(value)
    {
      hide Sanitize, Sensible, Trimmed, CleanCells;
      ghost var given, before := ValueOf(next), View();
      ghost var own := next.upstreams.data == value.upstreams.data;
      ghost var clean := if own then value.upstreams.len else 0;
      assert CleanCells(parsers, next.upstreams.data, clean) by { CellsOf(parsers, next.upstreams.data, clean); }
      var cleaned := SanitizeInPlace(parsers, next, clean);
      SanitizeCleans(parsers, given);
      CleanIsFixed(parsers, ValueOf(cleaned));
      hide Clean;
      assert View() == before;
      ghost var still := if cleaned.upstreams.data == next.upstreams.data then clean else 0;
      ok := Save(cleaned, writes, still);
      if ok {
        value := cleaned;
      } else {
        assert View() == before;
      }
    }
  }
}
