/** String helpers in the shape of the Go standard library calls the program
    relies on, with the laws about splitting and joining that the rule walk,
    the cache key and the import signature need. */
module Text {

  predicate HasPrefix(s: string, prefix: string) {
    prefix <= s
  }

  predicate HasSuffix(s: string, suffix: string) {
    |suffix| <= |s| && s[|s| - |suffix|..] == suffix
  }

  function TrimPrefix(s: string, prefix: string): string {
    if HasPrefix(s, prefix) then s[|prefix|..] else s
  }

  function TrimSuffix(s: string, suffix: string): string {
    if HasSuffix(s, suffix) then s[..|s| - |suffix|] else s
  }

  /** `strings.Split` for a one-character separator. */
  function Split(s: string, sep: char): (parts: seq<string>)
    ensures |parts| >= 1
  {
    if s == "" then [""] else Read(s[0], sep, Split(s[1..], sep))
  }

  /** The split of a text from its first character and the split of the rest. */
  function Read(c: char, sep: char, rest: seq<string>): (parts: seq<string>)
    requires |rest| >= 1
    ensures |parts| >= 1
  {
    if c == sep then [""] + rest else [[c] + rest[0]] + rest[1..]
  }

  lemma ReadAppend(c: char, sep: char, a: seq<string>, b: seq<string>)
    requires |a| >= 1
    ensures Read(c, sep, a + b) == Read(c, sep, a) + b
  {
    assert (a + b)[0] == a[0] && (a + b)[1..] == a[1..] + b;
    if c == sep {
      assert [""] + (a + b) == [""] + a + b;
    } else {
      assert [[c] + a[0]] + (a[1..] + b) == [[c] + a[0]] + a[1..] + b;
    }
  }

  function Join(parts: seq<string>, sep: string): string {
    if |parts| == 0 then ""
    else if |parts| == 1 then parts[0]
    else parts[0] + sep + Join(parts[1..], sep)
  }

  lemma {:induction false} JoinOfSplit(s: string, sep: char)
    ensures Join(Split(s, sep), [sep]) == s
  {
    if s != "" {
      JoinOfSplit(s[1..], sep);
      var rest := Split(s[1..], sep);
      if s[0] == sep {
        assert ([""] + rest)[1..] == rest;
        assert Join([""] + rest, [sep]) == "" + [sep] + Join(rest, [sep]);
      } else {
        var all := [[s[0]] + rest[0]] + rest[1..];
        assert all[1..] == rest[1..];
        assert Join(all, [sep]) == [s[0]] + Join(rest, [sep]);
      }
    }
  }

  lemma {:induction false} SplitHasNoSep(s: string, sep: char)
    ensures forall part :: part in Split(s, sep) ==> sep !in part
  {
    if s != "" {
      SplitHasNoSep(s[1..], sep);
    }
  }

  lemma {:induction false} SplitAvoids(s: string, sep: char, c: char)
    requires c !in s
    ensures forall part :: part in Split(s, sep) ==> c !in part
  {
    if s != "" {
      SplitAvoids(s[1..], sep, c);
      var rest := Split(s[1..], sep);
      assert rest[0] in rest;
    }
  }

  lemma {:induction false} SplitWhole(s: string, sep: char)
    requires sep !in s
    ensures Split(s, sep) == [s]
  {
    if s != "" {
      SplitWhole(s[1..], sep);
      assert [s[0]] + s[1..] == s;
    }
  }

  /** A separator cuts a split in two. */
  lemma {:induction false} SplitAppend(a: string, sep: char, b: string)
    ensures Split(a + [sep] + b, sep) == Split(a, sep) + Split(b, sep)
  {
    var whole := a + [sep] + b;
    if a == "" {
      assert whole[0] == sep && whole[1..] == b;
    } else {
      assert whole[0] == a[0] && whole[1..] == a[1..] + [sep] + b;
      SplitAppend(a[1..], sep, b);
      ReadAppend(a[0], sep, Split(a[1..], sep), Split(b, sep));
      hide Read;
    }
  }

  lemma {:induction false} SplitOfJoin(parts: seq<string>, sep: char)
    requires |parts| >= 1
    requires forall part :: part in parts ==> sep !in part
    ensures Split(Join(parts, [sep]), sep) == parts
  {
    SplitWhole(parts[0], sep);
    if |parts| > 1 {
      SplitOfJoin(parts[1..], sep);
      SplitAppend(parts[0], sep, Join(parts[1..], [sep]));
    }
  }

  lemma {:induction false} JoinAppend(a: seq<string>, b: seq<string>, sep: string)
    requires |a| >= 1 && |b| >= 1
    ensures Join(a + b, sep) == Join(a, sep) + sep + Join(b, sep)
  {
    if |a| == 1 {
      assert (a + b)[1..] == b;
    } else {
      JoinAppend(a[1..], b, sep);
      assert (a + b)[1..] == a[1..] + b;
    }
  }

  lemma JoinEmpty(parts: seq<string>, sep: string)
    requires forall part :: part in parts ==> part != ""
    ensures Join(parts, sep) == "" <==> parts == []
  {
    if parts != [] {
      assert parts[0] in parts && |parts[0]| <= |Join(parts, sep)|;
    }
  }

  /** Joining lists of non-empty, separator-free parts loses nothing. */
  lemma JoinInjective(a: seq<string>, b: seq<string>, sep: char)
    requires forall part :: part in a ==> part != "" && sep !in part
    requires forall part :: part in b ==> part != "" && sep !in part
    requires Join(a, [sep]) == Join(b, [sep])
    ensures a == b
  {
    JoinEmpty(a, [sep]);
    JoinEmpty(b, [sep]);
    if a != [] && b != [] {
      SplitOfJoin(a, sep);
      SplitOfJoin(b, sep);
    }
  }

  lemma {:induction false} JoinAvoids(parts: seq<string>, sep: string, c: char)
    requires c !in sep
    requires forall part :: part in parts ==> c !in part
    ensures c !in Join(parts, sep)
  {
    if |parts| > 1 {
      JoinAvoids(parts[1..], sep, c);
    }
  }

  /** `%d` for a natural number. */
  function Decimal(n: nat): (text: string)
    ensures text != "" && forall c :: c in text ==> '0' <= c <= '9'
  {
    var digit := ['0', '1', '2', '3', '4', '5', '6', '7', '8', '9'][n % 10];
    if n < 10 then [digit] else Decimal(n / 10) + [digit]
  }

  lemma {:induction false} DecimalInjective(m: nat, n: nat)
    requires Decimal(m) == Decimal(n)
    ensures m == n
  {
    var dm, dn := Decimal(m), Decimal(n);
    assert dm[|dm| - 1] == dn[|dn| - 1];
    assert m % 10 == n % 10;
    if m >= 10 && n >= 10 {
      assert Decimal(m / 10) == dm[..|dm| - 1] == dn[..|dn| - 1] == Decimal(n / 10);
      DecimalInjective(m / 10, n / 10);
    }
  }

  // ---- ASCII case and space handling -------------------------------------

  predicate IsSpace(c: char) {
    c == ' ' || c == '\t' || c == '\n' || c == '\r' || c == '\U{000B}' || c == '\U{000C}'
  }

  function TrimLeft(s: string): string {
    if s != "" && IsSpace(s[0]) then TrimLeft(s[1..]) else s
  }

  function TrimRight(s: string): string {
    if s != "" && IsSpace(s[|s| - 1]) then TrimRight(s[..|s| - 1]) else s
  }

  function TrimSpace(s: string): string {
    TrimRight(TrimLeft(s))
  }

  predicate Trimmed(s: string) {
    s == "" || (!IsSpace(s[0]) && !IsSpace(s[|s| - 1]))
  }

  lemma {:induction false} TrimLeftStarts(s: string)
    ensures TrimLeft(s) == "" || !IsSpace(TrimLeft(s)[0])
  {
    if s != "" && IsSpace(s[0]) { TrimLeftStarts(s[1..]); }
  }

  lemma {:induction false} TrimRightEnds(s: string)
    ensures TrimRight(s) <= s
    ensures TrimRight(s) == "" || !IsSpace(TrimRight(s)[|TrimRight(s)| - 1])
  {
    if s != "" && IsSpace(s[|s| - 1]) { TrimRightEnds(s[..|s| - 1]); }
  }

  lemma TrimSpaceTrims(s: string)
    ensures Trimmed(TrimSpace(s))
    ensures Trimmed(s) ==> TrimSpace(s) == s
  {
    TrimLeftStarts(s);
    TrimRightEnds(TrimLeft(s));
  }

  function LowerChar(c: char): char {
    if 'A' <= c <= 'Z' then (c as int + 32) as char else c
  }

  function ToLower(s: string): string {
    seq(|s|, i requires 0 <= i < |s| => LowerChar(s[i]))
  }

  /** Separators of a multi-valued text field. */
  predicate IsFieldSep(c: char) {
    c == ',' || c == ';' || c == ' ' || c == '\n' || c == '\t'
  }

  /** `strings.FieldsFunc`: the maximal separator-free runs, none empty;
      `run` is the run being read. */
  function FieldsFrom(s: string, run: string): seq<string> {
    if s == "" then (if run == "" then [] else [run])
    else if IsFieldSep(s[0]) then (if run == "" then [] else [run]) + FieldsFrom(s[1..], "")
    else FieldsFrom(s[1..], run + [s[0]])
  }

  function Fields(s: string): seq<string> {
    FieldsFrom(s, "")
  }

  lemma {:induction false} FieldsWholeFrom(s: string, run: string)
    requires forall c :: c in s ==> !IsFieldSep(c)
    ensures FieldsFrom(s, run) == if run + s == "" then [] else [run + s]
  {
    if s != "" {
      FieldsWholeFrom(s[1..], run + [s[0]]);
      assert run + [s[0]] + s[1..] == run + s;
    } else {
      assert run + s == run;
    }
  }

  /** A text without separators is its own only field. */
  lemma FieldsWhole(s: string)
    requires s != "" && forall c :: c in s ==> !IsFieldSep(c)
    ensures Fields(s) == [s]
  {
    FieldsWholeFrom(s, "");
    assert "" + s == s;
  }

  lemma {:induction false} TrimRightBlanks(front: string, blanks: string)
    requires front != "" && !IsSpace(front[|front| - 1])
    requires forall c :: c in blanks ==> IsSpace(c)
    ensures TrimRight(front + blanks) == front
  {
    if blanks == [] {
      assert front + blanks == front;
    } else {
      var n := |blanks| - 1;
      assert (front + blanks)[..|front| + n] == front + blanks[..n];
      assert blanks[n] in blanks;
      TrimRightBlanks(front, blanks[..n]);
    }
  }

  lemma {:induction false} TrimLeftBlanks(blanks: string, back: string)
    requires back != "" && !IsSpace(back[0])
    requires forall c :: c in blanks ==> IsSpace(c)
    ensures TrimLeft(blanks + back) == back
  {
    if blanks == [] {
      assert blanks + back == back;
    } else {
      assert (blanks + back)[1..] == blanks[1..] + back;
      TrimLeftBlanks(blanks[1..], back);
    }
  }

  lemma {:induction false} TrimLeftNothing(blanks: string)
    requires forall c :: c in blanks ==> IsSpace(c)
    ensures TrimLeft(blanks) == ""
  {
    if blanks != [] { TrimLeftNothing(blanks[1..]); }
  }

  /** Trimming takes off exactly the blanks around a text. */
  lemma TrimSpaceIs(front: string, text: string, back: string)
    requires (forall c :: c in front ==> IsSpace(c)) && (forall c :: c in back ==> IsSpace(c)) && Trimmed(text)
    ensures TrimSpace(front + text + back) == text
  {
    if text == "" {
      assert front + text + back == front + back;
      TrimLeftNothing(front + back);
    } else {
      assert front + text + back == front + (text + back);
      TrimLeftBlanks(front, text + back);
      TrimRightBlanks(text, back);
    }
  }

  /** The blanks are the six of ASCII. */
  lemma BlankIff(c: char)
    ensures IsSpace(c) <==> c in {' ', '\t', '\n', '\U{000B}', '\U{000C}', '\r'}
  {
  }

  /** Lower case maps each capital to its letter and nothing else. */
  lemma LowerIs(s: string, i: nat)
    requires i < |s|
    ensures |ToLower(s)| == |s|
    ensures 'A' <= s[i] <= 'Z' ==> 'a' <= ToLower(s)[i] <= 'z' && ToLower(s)[i] - 'a' == s[i] - 'A'
    ensures !('A' <= s[i] <= 'Z') ==> ToLower(s)[i] == s[i]
  {
  }

  /** The number that decimal digits spell. */
  function NumberOf(digits: string): int {
    if digits == "" then 0 else 10 * NumberOf(digits[..|digits| - 1]) + (digits[|digits| - 1] as int - '0' as int)
  }

  /** A printed number reads back, and has no needless zero in front. */
  lemma {:induction false} DecimalReads(n: nat)
    ensures NumberOf(Decimal(n)) == n
    ensures Decimal(n)[0] == '0' <==> n == 0
  {
    if n >= 10 {
      DecimalReads(n / 10);
      assert Decimal(n)[..|Decimal(n)| - 1] == Decimal(n / 10);
    }
  }

  lemma {:induction false} FieldsJoin(a: string, run: string, c: char, b: string)
    requires IsFieldSep(c)
    ensures FieldsFrom(a + [c] + b, run) == FieldsFrom(a, run) + Fields(b)
  {
    if a == "" {
      assert ([c] + b)[1..] == b && a + [c] + b == [c] + b;
    } else {
      assert (a + [c] + b)[1..] == a[1..] + [c] + b;
      if IsFieldSep(a[0]) {
        FieldsJoin(a[1..], "", c, b);
      } else {
        FieldsJoin(a[1..], run + [a[0]], c, b);
      }
    }
  }

  /** A comma, a semicolon, a space, a newline or a tab parts two fields, and
      with `FieldsWhole` that says what all fields of a text are. */
  lemma FieldsPart(a: string, c: char, b: string)
    requires c in {',', ';', ' ', '\n', '\t'}
    ensures Fields(a + [c] + b) == Fields(a) + Fields(b)
    ensures Fields("") == []
  {
    FieldsJoin(a, "", c, b);
  }

  /** Nothing else does. */
  lemma FieldsKeep(s: string)
    requires s != "" && forall c :: c in s ==> c !in {',', ';', ' ', '\n', '\t'}
    ensures Fields(s) == [s]
  {
    FieldsWhole(s);
  }
}
