/** Types and sequence helpers shared by the model. */
module Basics {

  datatype Option<+T> = None | Some(value: T)

  function Min(a: int, b: int): int { if a < b then a else b }

  function Max(a: int, b: int): int { if a < b then b else a }

  /** The last `n` elements, or all there are. */
  function Last<T>(s: seq<T>, n: nat): seq<T> {
    s[Max(0, |s| - n)..]
  }

  lemma LastLast<T>(s: seq<T>, a: nat, b: nat)
    ensures Last(Last(s, a), b) == Last(s, Min(a, b))
  {
  }

  lemma LastCap<T>(s: seq<T>, n: nat)
    ensures Last(s, n) == Last(s, Min(n, |s|)) && |Last(s, n)| == Min(n, |s|)
  {
  }

  // ---- Lists without repetition ------------------------------------------

  ghost predicate Distinct<T>(s: seq<T>) {
    s == [] || (s[0] !in s[1..] && Distinct(s[1..]))
  }

  lemma {:induction false} DistinctAppend<T>(s: seq<T>, x: T)
    requires Distinct(s) && x !in s
    ensures Distinct(s + [x])
  {
    if s != [] {
      DistinctAppend(s[1..], x);
      assert (s + [x])[1..] == s[1..] + [x];
    }
  }

  lemma {:induction false} DistinctIff<T>(s: seq<T>)
    ensures Distinct(s) <==> forall i, j :: 0 <= i < j < |s| ==> s[i] != s[j]
  {
    if s != [] {
      var rest := s[1..];
      DistinctIff(rest);
      if Distinct(s) {
        forall i, j | 0 <= i < j < |s| ensures s[i] != s[j] {
          assert s[j] == rest[j - 1];
          if i > 0 { assert s[i] == rest[i - 1]; }
        }
      }
      if forall i, j :: 0 <= i < j < |s| ==> s[i] != s[j] {
        forall i, j | 0 <= i < j < |rest| ensures rest[i] != rest[j] {
          assert rest[i] == s[i + 1] && rest[j] == s[j + 1];
        }
      }
    }
  }

  lemma DistinctLast<T>(s: seq<T>)
    requires Distinct(s) && s != []
    ensures Distinct(s[..|s| - 1]) && s[|s| - 1] !in s[..|s| - 1]
  {
    hide Distinct;
    DistinctIff(s);
    DistinctIff(s[..|s| - 1]);
  }
}
