/** Which rule upstreams, had they not been validated, would make the cache
    take one question for another. */
module Keys {
  import opened Text
  import opened Config
  import opened Rules
  import opened ResolverSteps

  const TYPES: nat := 0x1_0000

  // ---- The property and the condition ------------------------------------

  /** The upstreams of a cleaned configuration, or of a validated rule. */
  ghost predicate Validated(p: Parsers, upstreams: seq<string>) {
    CleanList(p, upstreams) || (|upstreams| == 1 && p.isUpstream(upstreams[0]))
  }

  /** A question the resolver can come to when at most the rule upstream `u` was
      never validated. */
  ghost predicate CanAsk(p: Parsers, u: string, q: Question) {
    IsName(q.name) && q.qtype < TYPES && (Validated(p, q.upstreams) || q.upstreams == [u])
  }

  /** Another such question has the same key. */
  ghost predicate Mistaken(p: Parsers, u: string, q: Question) {
    exists r: Question :: CanAsk(p, u, r) && r != q && Key(r) == Key(q)
  }

  /** The decimal text of a record type. */
  ghost predicate IsTypeText(text: string) {
    exists n: nat :: n < TYPES && text == Decimal(n)
  }

  predicate AllLower(parts: seq<string>) {
    forall part :: part in parts ==> ToLower(part) == part
  }

  /** What makes an upstream text dangerous: with no '|' it joins two to eight
      upstreams with commas; with one it ends in a type and such a list, or a
      single upstream, and has no capitals before them. */
  ghost predicate Misleading(p: Parsers, u: string) {
    var parts := Split(u, '|');
    var n := |parts|;
    if n == 1 then ',' in u && CleanList(p, Split(u, ','))
    else AllLower(parts[..n - 2]) && IsTypeText(parts[n - 2]) && Validated(p, Split(parts[n - 1], ','))
  }

  function OneUpstream(name: string, qtype: nat, u: string): Question {
    Question(name, qtype, [u])
  }

  // ---- Keys and lists taken apart ----------------------------------------

  lemma KeySplits(name: string, qtype: nat, u: string)
    ensures Split(Key(OneUpstream(name, qtype, u)), '|') == Split(name, '|') + [Decimal(qtype)] + Split(u, '|')
  {
    hide Split, Decimal;
    var digits := Decimal(qtype);
    assert Key(OneUpstream(name, qtype, u)) == name + ['|'] + (digits + ['|'] + u);
    SplitAppend(name, '|', digits + ['|'] + u);
    SplitAppend(digits, '|', u);
    assert '|' !in digits by { DecimalHasNoBar(qtype); }
    SplitWhole(digits, '|');
    assert Split(name, '|') + ([digits] + Split(u, '|')) == Split(name, '|') + [digits] + Split(u, '|');
  }

  lemma DecimalHasNoBar(n: nat)
    ensures '|' !in Decimal(n)
  {
  }

  lemma KeyIs(q: Question)
    ensures Key(q) == q.name + "|" + Decimal(q.qtype) + "|" + Join(q.upstreams, ",")
  {
  }

  lemma ValidatedIsPlain(p: Parsers, upstreams: seq<string>)
    requires Sensible(p) && Validated(p, upstreams)
    ensures upstreams != [] && PlainUpstreams(upstreams)
    ensures Split(Join(upstreams, ","), ',') == upstreams
  {
    SplitOfJoin(upstreams, ',');
  }

  lemma {:induction false} LowerJoin(parts: seq<string>)
    ensures ToLower(Join(parts, "|")) == Join(parts, "|") <==> AllLower(parts)
  {
    if |parts| > 1 {
      LowerJoin(parts[1..]);
      LowerPair(parts[0], Join(parts[1..], "|"));
      assert parts == [parts[0]] + parts[1..];
    }
  }

  lemma LowerPair(a: string, b: string)
    ensures ToLower(a + "|" + b) == a + "|" + b <==> ToLower(a) == a && ToLower(b) == b
  {
    LowerConcat(a, "|");
    LowerConcat(a + "|", b);
    assert ToLower("|") == "|" by { BarIsLower(); }
    hide ToLower;
    assert a + "|" + b == a + ("|" + b) && ToLower(a) + "|" + ToLower(b) == ToLower(a) + ("|" + ToLower(b));
    assert ToLower(a) + "|" + ToLower(b) == a + "|" + b ==> ToLower(a) == a && ToLower(b) == b by {
      SameParts(ToLower(a), ToLower(b), a, b);
    }
  }

  lemma BarIsLower()
    ensures ToLower("|") == "|"
  {
  }

  lemma SameParts(a: string, b: string, c: string, d: string)
    requires |a| == |c|
    ensures a + "|" + b == c + "|" + d ==> a == c && b == d
  {
    if a + "|" + b == c + "|" + d {
      assert (a + "|" + b)[..|a|] == a && (a + "|" + b)[|a| + 1..] == b;
      assert (c + "|" + d)[..|c|] == c && (c + "|" + d)[|c| + 1..] == d;
    }
  }

  // ---- A mistaken key means a misleading upstream ------------------------

  /** Questions with the same unvalidated upstream have keys of their own. */
  lemma SameUpstreamSameQuestion(q: Question, r: Question, u: string)
    requires q.upstreams == r.upstreams == [u] && Key(q) == Key(r)
    ensures q == r
  {
    hide Split, Join, Key, Decimal;
    KeySplits(q.name, q.qtype, u);
    KeySplits(r.name, r.qtype, u);
    EndsAgree(Split(q.name, '|'), Decimal(q.qtype), Split(r.name, '|'), Decimal(r.qtype), Split(u, '|'));
    JoinOfSplit(q.name, '|');
    JoinOfSplit(r.name, '|');
    DecimalInjective(q.qtype, r.qtype);
  }

  lemma EndsAgree(a: seq<string>, x: string, b: seq<string>, y: string, tail: seq<string>)
    requires a + [x] + tail == b + [y] + tail
    ensures a == b && x == y
  {
    assert (a + [x] + tail)[..|a|] == a && (a + [x] + tail)[|a|] == x;
    assert (b + [y] + tail)[..|b|] == b && (b + [y] + tail)[|b|] == y;
  }

  lemma MistakenMisleads(p: Parsers, q: Question, u: string, r: Question)
    requires Sensible(p) && q.upstreams == [u] && CanAsk(p, u, r) && r != q && Key(r) == Key(q)
    ensures Misleading(p, u)
  {
    hide Split, Join, Key, Decimal, Sensible, CleanList, PlainUpstreams, AllLower;
    if r.upstreams == [u] {
      SameUpstreamSameQuestion(q, r, u);
    } else {
      ValidatedIsPlain(p, r.upstreams);
      KeyParts(r);
      KeySplits(q.name, q.qtype, u);
      var parts, list := Split(u, '|'), Join(r.upstreams, ",");
      var n := |parts|;
      if n == 1 {
        assert Split(q.name, '|') + [Decimal(q.qtype)] + parts
            == Split(r.name, '|') + [Decimal(r.qtype)] + [list];
        LastAgrees(Split(q.name, '|') + [Decimal(q.qtype)], parts[0], Split(r.name, '|') + [Decimal(r.qtype)], list);
        JoinOfSplit(u, '|');
        assert u == parts[0] by { JoinOne(parts); }
        JoinedMisleads(p, u, r.upstreams);
      } else {
        assert parts == parts[..n - 2] + [parts[n - 2], parts[n - 1]];
        var front := Split(q.name, '|') + [Decimal(q.qtype)] + parts[..n - 2];
        assert front + [parts[n - 2], parts[n - 1]] == Split(r.name, '|') + [Decimal(r.qtype), list];
        LastTwoAgree(front, parts[n - 2], parts[n - 1], Split(r.name, '|'), Decimal(r.qtype), list);
        NameIff(r.name);
        JoinOfSplit(r.name, '|');
        LowerJoin(front);
        assert AllLower(parts[..n - 2]) by { LowerTail(Split(q.name, '|') + [Decimal(q.qtype)], parts[..n - 2]); }
      }
    }
  }

  lemma LowerTail(a: seq<string>, b: seq<string>)
    ensures AllLower(a + b) <==> AllLower(a) && AllLower(b)
  {
    hide ToLower;
    assert forall x :: x in a + b <==> x in a || x in b;
  }

  lemma JoinOne(parts: seq<string>)
    requires |parts| == 1
    ensures Join(parts, "|") == parts[0]
  {
  }

  lemma LastAgrees(a: seq<string>, x: string, b: seq<string>, y: string)
    requires a + [x] == b + [y]
    ensures a == b && x == y
  {
    assert (a + [x])[..|a|] == a && (b + [y])[..|b|] == b;
    assert (a + [x])[|a|] == x && (b + [y])[|b|] == y;
  }

  lemma LastTwoAgree(a: seq<string>, x: string, y: string, b: seq<string>, z: string, w: string)
    requires a + [x, y] == b + [z, w]
    ensures a == b && x == z && y == w
  {
    assert (a + [x, y])[..|a|] == a && (b + [z, w])[..|b|] == b;
    assert (a + [x, y])[|a|] == x && (a + [x, y])[|a| + 1] == y;
    assert (b + [z, w])[|b|] == z && (b + [z, w])[|b| + 1] == w;
  }

  /** A text without '|' that reads as other upstreams than itself joins some. */
  lemma JoinedMisleads(p: Parsers, u: string, upstreams: seq<string>)
    requires Sensible(p) && Validated(p, upstreams) && u == Join(upstreams, ",") && upstreams != [u]
    requires |Split(u, '|')| == 1
    ensures Misleading(p, u)
  {
    ValidatedIsPlain(p, upstreams);
    if ',' !in u { SplitWhole(u, ','); }
  }

  // ---- A misleading upstream makes a mistaken key ------------------------

  lemma JoinedIsMistaken(p: Parsers, name: string, qtype: nat, u: string)
    requires IsName(name) && qtype < TYPES && ',' in u && CleanList(p, Split(u, ','))
    ensures Mistaken(p, u, OneUpstream(name, qtype, u))
  {
    hide IsName;
    JoinOfSplit(u, ',');
    SplitHasNoSep(u, ',');
    var r := Question(name, qtype, Split(u, ','));
    assert r.upstreams == [u] ==> u in r.upstreams;
    assert Key(r) == Key(OneUpstream(name, qtype, u));
    assert CanAsk(p, u, r);
  }

  /** The name of the question taken for: everything before the last two parts. */
  function NameBefore(name: string, qtype: nat, u: string): string
    requires |Split(u, '|')| > 1
  {
    Join(Split(name, '|') + [Decimal(qtype)] + Split(u, '|')[..|Split(u, '|')| - 2], "|")
  }

  lemma NameBeforeIsName(name: string, qtype: nat, u: string)
    requires |Split(u, '|')| > 1 && IsName(name) && AllLower(Split(u, '|')[..|Split(u, '|')| - 2])
    ensures IsName(NameBefore(name, qtype, u))
  {
    hide Split, Join, Decimal, ToLower, IsName;
    var parts, digits := Split(name, '|'), [Decimal(qtype)];
    var rest := Split(u, '|')[..|Split(u, '|')| - 2];
    NameIff(name);
    JoinOfSplit(name, '|');
    LowerJoin(parts);
    DecimalIsLower(qtype);
    LowerTail(parts, digits);
    LowerTail(parts + digits, rest);
    LowerJoin(parts + digits + rest);
    assert parts + digits + rest == parts + (digits + rest);
    JoinAppend(parts, digits + rest, "|");
    assert NameBefore(name, qtype, u) == name + "|" + Join(digits + rest, "|");
    NameIff(NameBefore(name, qtype, u));
  }

  lemma DecimalIsLower(n: nat)
    ensures ToLower(Decimal(n)) == Decimal(n)
  {
    forall i | 0 <= i < |Decimal(n)| ensures LowerChar(Decimal(n)[i]) == Decimal(n)[i] {
      assert Decimal(n)[i] in Decimal(n);
    }
  }

  lemma KeyEnds(name: string, qtype: nat, u: string)
    requires |Split(u, '|')| > 1
    ensures var parts := Split(u, '|');
            Key(OneUpstream(name, qtype, u)) ==
            NameBefore(name, qtype, u) + "|" + parts[|parts| - 2] + "|" + parts[|parts| - 1]
  {
    hide Split, Join, Key, Decimal;
    var key, parts := Key(OneUpstream(name, qtype, u)), Split(u, '|');
    var n := |parts|;
    var front := Split(name, '|') + [Decimal(qtype)] + parts[..n - 2];
    KeySplits(name, qtype, u);
    JoinOfSplit(key, '|');
    assert parts == parts[..n - 2] + [parts[n - 2], parts[n - 1]];
    assert Split(key, '|') == front + [parts[n - 2], parts[n - 1]];
    LastTwoAside(front, parts[n - 2], parts[n - 1]);
  }

  lemma JoinTwo(a: string, b: string)
    ensures Join([a, b], "|") == a + "|" + b
  {
    assert [a, b][1..] == [b];
  }

  lemma LastTwoAside(front: seq<string>, kind: string, tail: string)
    requires |front| >= 1
    ensures Join(front + [kind, tail], "|") == Join(front, "|") + "|" + kind + "|" + tail
  {
    hide Join;
    JoinAppend(front, [kind, tail], "|");
    JoinTwo(kind, tail);
    assert Join(front, "|") + "|" + (kind + "|" + tail) == Join(front, "|") + "|" + kind + "|" + tail;
  }

  lemma WithBarIsNotPlain(u: string)
    requires |Split(u, '|')| > 1
    ensures !PlainUpstreams([u])
  {
    if '|' !in u { SplitWhole(u, '|'); }
    assert u in [u];
  }

  lemma SplitIsMistaken(p: Parsers, name: string, qtype: nat, u: string)
    requires Sensible(p) && IsName(name) && |Split(u, '|')| > 1 && Misleading(p, u)
    ensures Mistaken(p, u, OneUpstream(name, qtype, u))
  {
    hide Split, Join, Key, PlainUpstreams, Decimal, IsName, AllLower, Sensible, CleanList, NameBefore;
    var parts := Split(u, '|');
    var n := |parts|;
    var t: nat :| t < TYPES && parts[n - 2] == Decimal(t);
    NameBeforeIsName(name, qtype, u);
    KeyEnds(name, qtype, u);
    var list := Split(parts[n - 1], ',');
    JoinOfSplit(parts[n - 1], ',');
    ValidatedIsPlain(p, list);
    WithBarIsNotPlain(u);
    var r := Question(NameBefore(name, qtype, u), t, list);
    KeyIs(r);
    assert CanAsk(p, u, r);
  }

  /** Exactly when a rule's upstream text that was never validated lets its
      questions be taken for others that the resolver can come to: never when it
      parses, and for every name and type when it is misleading. */
  lemma MistakenIffMisleading(p: Parsers, name: string, qtype: nat, u: string)
    requires Sensible(p) && IsName(name) && qtype < TYPES && u != ""
    ensures Mistaken(p, u, OneUpstream(name, qtype, u)) <==> Misleading(p, u)
    ensures p.isUpstream(u) ==> !Misleading(p, u)
  {
    hide IsName, CanAsk, Split, Key, Validated, AllLower, CleanList;
    var q := OneUpstream(name, qtype, u);
    if Mistaken(p, u, q) {
      var r: Question :| CanAsk(p, u, r) && r != q && Key(r) == Key(q);
      MistakenMisleads(p, q, u, r);
    }
    if Misleading(p, u) {
      if |Split(u, '|')| == 1 {
        JoinedIsMistaken(p, name, qtype, u);
      } else {
        SplitIsMistaken(p, name, qtype, u);
      }
    }
    if p.isUpstream(u) { SplitWhole(u, '|'); }
  }

  /** Such texts exist wherever two upstreams do. */
  lemma MisleadingTexts(p: Parsers, a: string, b: string, qtype: nat)
    requires Sensible(p) && p.isUpstream(a) && p.isUpstream(b) && Trimmed(a) && Trimmed(b) && qtype < TYPES
    ensures Misleading(p, a + "," + b) && Misleading(p, Decimal(qtype) + "|" + a)
  {
    hide Split, Decimal, Trimmed;
    var joined, typed := a + [','] + b, Decimal(qtype) + ['|'] + a;
    SplitWhole(joined, '|');
    SplitAppend(a, ',', b);
    SplitWhole(a, ',');
    SplitWhole(b, ',');
    SplitAppend(Decimal(qtype), '|', a);
    DecimalHasNoBar(qtype);
    SplitWhole(Decimal(qtype), '|');
    SplitWhole(a, '|');
    assert [Decimal(qtype)] + [a] == [Decimal(qtype), a];
  }
}
