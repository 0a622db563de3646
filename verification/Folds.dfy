/** Iteration over a Go map: every entry present is visited, in an order nobody chooses. */
module Folds {

  /** Sum of `f` over the values of a map, picking entries in an arbitrary order. */
  ghost function SumBy<K(!new), V(!new)>(m: map<K, V>, f: V -> real): real
    decreases |m|
  {
    if m == map[] then 0.0 else
      var k :| k in m;
      f(m[k]) + SumBy(m - {k}, f)
  }

  /** Any entry can be taken out first. */
  lemma {:induction false} SumTakeOut<K(!new), V(!new)>(m: map<K, V>, f: V -> real, k: K)
    requires k in m
    ensures SumBy(m, f) == f(m[k]) + SumBy(m - {k}, f)
    decreases |m|
  {
    var p :| p in m && SumBy(m, f) == f(m[p]) + SumBy(m - {p}, f);
    if p != k {
      SumTakeOut(m - {p}, f, k);
      SumTakeOut(m - {k}, f, p);
      assert m - {p} - {k} == m - {k} - {p};
    }
  }

  lemma SumPut<K(!new), V(!new)>(m: map<K, V>, f: V -> real, k: K, v: V)
    ensures SumBy(m[k := v], f) == SumBy(m - {k}, f) + f(v)
  {
    SumTakeOut(m[k := v], f, k);
    assert m[k := v] - {k} == m - {k};
  }

  lemma SumDrop<K(!new), V(!new)>(m: map<K, V>, f: V -> real, k: K)
    requires k !in m
    ensures SumBy(m - {k}, f) == SumBy(m, f)
  {
    assert m - {k} == m;
  }

  // ------------------------------------------------------------------------------------------
  // A range loop over a map whose body may delete entries: a schedule lists the keys in the
  // order they come up; an entry that is gone when its turn comes is not visited.
  // ------------------------------------------------------------------------------------------

  /** A schedule that brings up every key of `keys`; keys inserted during the loop may also come up. */
  ghost predicate Covers<K(!new)>(schedule: seq<K>, keys: set<K>) {
    forall k :: k in keys ==> k in schedule
  }

  function Visit<S, K>(s: S, k: K, fires: (S, K) -> bool, act: (S, K) -> S): S {
    if fires(s, k) then act(s, k) else s
  }

  function Sweep<S, K>(s: S, schedule: seq<K>, fires: (S, K) -> bool, act: (S, K) -> S): S
    decreases |schedule|
  {
    if schedule == [] then s
    else Sweep(Visit(s, schedule[0], fires, act), schedule[1..], fires, act)
  }

  lemma {:induction false} SweepAppend<S, K>(s: S, schedule: seq<K>, k: K, fires: (S, K) -> bool, act: (S, K) -> S)
    ensures Sweep(s, schedule + [k], fires, act) == Visit(Sweep(s, schedule, fires, act), k, fires, act)
    decreases |schedule|
  {
    if schedule == [] {
      assert schedule + [k] == [k];
      assert Sweep(Visit(s, k, fires, act), [k][1..], fires, act) == Visit(s, k, fires, act);
    } else {
      assert (schedule + [k])[1..] == schedule[1..] + [k];
      SweepAppend(Visit(s, schedule[0], fires, act), schedule[1..], k, fires, act);
    }
  }

  ghost predicate Quiet<S(!new), K(!new)>(s: S, fires: (S, K) -> bool) {
    forall k :: !fires(s, k)
  }

  lemma {:induction false} SweepQuiet<S(!new), K(!new)>(s: S, schedule: seq<K>, fires: (S, K) -> bool, act: (S, K) -> S)
    requires Quiet(s, fires)
    ensures Sweep(s, schedule, fires, act) == s
    decreases |schedule|
  {
    if schedule != [] {
      SweepQuiet(s, schedule[1..], fires, act);
    }
  }

  /** When at most one entry can fire and its action silences the loop, only whether it comes up matters. */
  lemma {:induction false} SweepSingle<S(!new), K(!new)>(
    s: S, schedule: seq<K>, k: K, fires: (S, K) -> bool, act: (S, K) -> S)
    requires fires(s, k)
    requires forall j :: fires(s, j) ==> j == k
    requires Quiet(act(s, k), fires)
    ensures Sweep(s, schedule, fires, act) == if k in schedule then act(s, k) else s
    decreases |schedule|
  {
    if schedule != [] {
      if schedule[0] == k {
        SweepQuiet(act(s, k), schedule[1..], fires, act);
      } else {
        SweepSingle(s, schedule[1..], k, fires, act);
      }
    }
  }

  /** What every visit keeps, the whole loop keeps. */
  lemma {:induction false} SweepInvariant<S(!new), K(!new)>(
    s: S, schedule: seq<K>, fires: (S, K) -> bool, act: (S, K) -> S, inv: S -> bool)
    requires inv(s)
    requires forall t, k :: inv(t) && fires(t, k) ==> inv(act(t, k))
    ensures inv(Sweep(s, schedule, fires, act))
    decreases |schedule|
  {
    if schedule != [] {
      SweepInvariant(Visit(s, schedule[0], fires, act), schedule[1..], fires, act, inv);
    }
  }
}
