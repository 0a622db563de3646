/** Ranking by exchange sort, and the two selections that rest on it. */
module Selections {

  /** Highest score first. */
  ghost predicate Ranked<T>(s: seq<T>, score: T -> real) {
    forall i, j :: 0 <= i < j < |s| ==> score(s[i]) >= score(s[j])
  }

  function Swapped<T>(s: seq<T>, i: nat, j: nat): seq<T>
    requires i < j < |s|
  {
    s[i := s[j]][j := s[i]]
  }

  lemma SwapKeepsElements<T>(s: seq<T>, i: nat, j: nat)
    requires i < j < |s|
    ensures multiset(Swapped(s, i, j)) == multiset(s)
  {
  }

  /** Positions before `i` are final: nothing behind them scores more. */
  ghost predicate Settled<T>(s: seq<T>, score: T -> real, i: nat) {
    forall p, q :: 0 <= p < i && p < q < |s| ==> score(s[p]) >= score(s[q])
  }

  /** Position `i` scores at least as much as the next ones up to `j`. */
  ghost predicate Leads<T>(s: seq<T>, score: T -> real, i: nat, j: nat)
    requires i < j <= |s|
  {
    forall q :: i < q < j ==> score(s[i]) >= score(s[q])
  }

  lemma SwapAdvances<T>(s: seq<T>, score: T -> real, i: nat, j: nat)
    requires i < j < |s| && Settled(s, score, i) && Leads(s, score, i, j) && score(s[j]) > score(s[i])
    ensures Settled(Swapped(s, i, j), score, i) && Leads(Swapped(s, i, j), score, i, j + 1)
  {
  }

  /** The exchange sort both callers run on a copy of their list. */
  method ExchangeSort<T>(a: array<T>, score: T -> real)
    modifies a
    ensures Ranked(a[..], score) && multiset(a[..]) == multiset(old(a[..]))
  {
    var n := a.Length;
    for i := 0 to n
      invariant Settled(a[..], score, i) && multiset(a[..]) == multiset(old(a[..]))
    {
      var j := i + 1;
      while j < n
        invariant i < j <= n && Settled(a[..], score, i) && Leads(a[..], score, i, j)
        invariant multiset(a[..]) == multiset(old(a[..]))
      {
        if score(a[j]) > score(a[i]) {
          ghost var before := a[..];
          SwapAdvances(before, score, i, j);
          SwapKeepsElements(before, i, j);
          a[i], a[j] := a[j], a[i];
          assert a[..] == Swapped(before, i, j);
        }
        j := j + 1;
      }
    }
  }

  method SortedCopy<T>(items: seq<T>, score: T -> real) returns (sorted: seq<T>)
    ensures Ranked(sorted, score) && multiset(sorted) == multiset(items) && |sorted| == |items|
  {
    var a := new T[|items|](i requires 0 <= i < |items| => items[i]);
    assert a[..] == items;
    ExchangeSort(a, score);
    sorted := a[..];
    assert |multiset(sorted)| == |sorted|;
  }
}
