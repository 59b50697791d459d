/** Sequences without repetition, and how concatenations regroup. */
module Sequences {

  ghost predicate Distinct<T>(s: seq<T>) {
    forall j, k :: 0 <= j < k < |s| ==> s[j] != s[k]
  }

  function Last<T>(s: seq<T>): T
    requires s != []
  {
    s[|s| - 1]
  }

  function Front<T>(s: seq<T>): seq<T>
    requires s != []
  {
    s[..|s| - 1]
  }

  lemma DistinctFront<T>(s: seq<T>)
    requires Distinct(s) && s != []
    ensures Distinct(Front(s)) && Last(s) !in Front(s)
    ensures forall x :: x in s <==> x in Front(s) || x == Last(s)
  {
    assert s == Front(s) + [Last(s)];
  }

  lemma Associative<T>(a: seq<T>, b: seq<T>, c: seq<T>)
    ensures (a + b) + c == a + (b + c)
  {
  }

  /** The front of a sequence moves to the end of another. */
  lemma MoveFront<T>(a: seq<T>, b: seq<T>, k: nat)
    requires k <= |b|
    ensures a + b == (a + b[..k]) + b[k..]
  {
  }

  lemma TakeTake<T>(s: seq<T>, k: nat, n: nat)
    requires k <= n <= |s|
    ensures s[..n][..k] == s[..k]
  {
  }
}
