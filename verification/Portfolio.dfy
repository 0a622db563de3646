/** The risk engine's portfolio selection: at most `maxNew` of the candidates that pass, best score first. */
module Portfolios {
  import opened Domain
  import opened Selections

  datatype ValidateInput = ValidateInput(symbol: string, side: Side, setupScore: real)

  datatype ValidateOutput = ValidateOutput(
    approved: bool,
    portfolioRank: int,
    portfolioRejectReason: string,
    reasonCodes: seq<string>)

  const LIMIT := "PORTFOLIO_RISK_LIMIT"

  datatype Scored = Scored(input: ValidateInput, score: real, idx: nat)

  function ByScore(): Scored -> real {
    (s: Scored) => s.score
  }

  function Listed(candidates: seq<ValidateInput>): (entries: seq<Scored>)
    ensures |entries| == |candidates|
    ensures forall i :: 0 <= i < |candidates| ==> entries[i] == Scored(candidates[i], candidates[i].setupScore, i)
  {
    seq(|candidates|, i requires 0 <= i < |candidates| => Scored(candidates[i], candidates[i].setupScore, i))
  }

  lemma {:induction false} CountedTwice<T>(s: seq<T>, p: nat, q: nat)
    requires p < q < |s| && s[p] == s[q]
    ensures multiset(s)[s[p]] >= 2
  {
    assert s == s[..q] + s[q..];
    assert s[p] in multiset(s[..q]) by { assert s[..q][p] == s[p]; }
    assert s[p] in multiset(s[q..]) by { assert s[q..][0] == s[p]; }
  }

  lemma {:induction false} CountedOnce<T>(s: seq<T>, e: T)
    requires forall i, j :: 0 <= i < j < |s| ==> s[i] != s[j]
    ensures multiset(s)[e] <= 1
    decreases |s|
  {
    if |s| > 0 {
      var n := |s| - 1;
      assert s == s[..n] + [s[n]];
      CountedOnce(s[..n], e);
      if e == s[n] {
        assert e !in s[..n];
        assert e !in multiset(s[..n]);
      }
    }
  }

  ghost function All(n: nat): (r: set<nat>)
    ensures forall i: nat :: i in r <==> i < n
  {
    if n == 0 then {} else All(n - 1) + {n - 1}
  }

  /** The original positions of the first `k` entries. */
  ghost function Covered(sorted: seq<Scored>, k: nat): set<nat>
    requires k <= |sorted|
  {
    set p | 0 <= p < k :: sorted[p].idx
  }

  /** Reordering the list neither loses nor repeats an original position. */
  lemma {:induction false} PositionsSurvive(candidates: seq<ValidateInput>, sorted: seq<Scored>)
    requires multiset(sorted) == multiset(Listed(candidates))
    ensures forall k :: 0 <= k < |sorted| ==>
              sorted[k].idx < |candidates| && sorted[k] == Listed(candidates)[sorted[k].idx]
    ensures forall p, q :: 0 <= p < q < |sorted| ==> sorted[p].idx != sorted[q].idx
    ensures Covered(sorted, |sorted|) == All(|candidates|)
  {
    var entries := Listed(candidates);
    forall k | 0 <= k < |sorted|
      ensures sorted[k].idx < |candidates| && sorted[k] == entries[sorted[k].idx]
    {
      assert sorted[k] in multiset(sorted);
      assert sorted[k] in entries;
    }
    forall p, q | 0 <= p < q < |sorted|
      ensures sorted[p].idx != sorted[q].idx
    {
      if sorted[p].idx == sorted[q].idx {
        CountedTwice(sorted, p, q);
        CountedOnce(entries, sorted[p]);
        assert false;
      }
    }
    forall i | i in All(|candidates|)
      ensures i in Covered(sorted, |sorted|)
    {
      assert entries[i] in multiset(entries);
      assert entries[i] in sorted;
    }
  }

  predicate Within(among: set<nat>, n: nat) {
    forall i :: i in among ==> i < n
  }

  /** How many of `passing` candidates get a place. */
  function Places(maxNew: int, passing: nat): (n: nat)
    ensures n <= passing
  {
    if maxNew <= 0 then 0 else if maxNew < passing then maxNew else passing
  }

  function Limited(o: ValidateOutput): ValidateOutput {
    o.(approved := false, portfolioRejectReason := LIMIT, reasonCodes := o.reasonCodes + [LIMIT])
  }

  ghost predicate Passes(candidates: seq<ValidateInput>, validate: ValidateInput -> ValidateOutput, i: nat)
    requires i < |candidates|
  {
    validate(candidates[i]).approved
  }

  /** `passers` are, without repetition and best score first, the positions in `among` that pass. */
  ghost predicate RankedPassers(
    candidates: seq<ValidateInput>, validate: ValidateInput -> ValidateOutput, passers: seq<nat>, among: set<nat>)
    requires Within(among, |candidates|)
  {
    && (forall k :: 0 <= k < |passers| ==> passers[k] in among && Passes(candidates, validate, passers[k]))
    && (forall i :: i in among && Passes(candidates, validate, i) ==> i in passers)
    && (forall k, l :: 0 <= k < l < |passers| ==> passers[k] != passers[l])
    && (forall k, l :: 0 <= k < l < |passers| ==>
          candidates[passers[k]].setupScore >= candidates[passers[l]].setupScore)
  }

  /** What position `i` gets: a place with its rank, a refusal for lack of places, or its own verdict. */
  ghost predicate Placed(
    candidates: seq<ValidateInput>, validate: ValidateInput -> ValidateOutput, maxNew: int,
    passers: seq<nat>, i: nat, result: ValidateOutput)
    requires i < |candidates|
  {
    && (!Passes(candidates, validate, i) ==> result == validate(candidates[i]))
    && (forall k :: 0 <= k < |passers| && passers[k] == i ==>
          result == if k < maxNew then validate(candidates[i]).(portfolioRank := k + 1)
                    else Limited(validate(candidates[i])))
  }

  /** One candidate's turn, the ranking extended when it passes. */
  lemma TurnKeepsRanking(
    candidates: seq<ValidateInput>, validate: ValidateInput -> ValidateOutput, sorted: seq<Scored>, k: nat,
    passers: seq<nat>, longer: seq<nat>)
    requires k < |sorted| && Ranked(sorted, ByScore())
    requires forall p :: 0 <= p < |sorted| ==>
               sorted[p].idx < |candidates| && sorted[p] == Listed(candidates)[sorted[p].idx]
    requires forall p, q :: 0 <= p < q < |sorted| ==> sorted[p].idx != sorted[q].idx
    requires RankedPassers(candidates, validate, passers, Covered(sorted, k))
    requires longer == if Passes(candidates, validate, sorted[k].idx) then passers + [sorted[k].idx] else passers
    ensures RankedPassers(candidates, validate, longer, Covered(sorted, k + 1))
  {
  }

  /** Every position in `settled` has its result. */
  ghost predicate Settled(
    candidates: seq<ValidateInput>, validate: ValidateInput -> ValidateOutput, maxNew: int,
    passers: seq<nat>, settled: set<nat>, results: seq<ValidateOutput>)
    requires |results| == |candidates|
  {
    forall i :: i in settled && i < |candidates| ==> Placed(candidates, validate, maxNew, passers, i, results[i])
  }

  lemma TurnKeepsResults(
    candidates: seq<ValidateInput>, validate: ValidateInput -> ValidateOutput, maxNew: int,
    passers: seq<nat>, settled: set<nat>, results: seq<ValidateOutput>, i: nat, output: ValidateOutput)
    requires |results| == |candidates| && i < |candidates| && i !in settled && i !in passers
    requires Settled(candidates, validate, maxNew, passers, settled, results)
    requires output == if !Passes(candidates, validate, i) then validate(candidates[i])
                       else if |passers| < maxNew then validate(candidates[i]).(portfolioRank := |passers| + 1)
                       else Limited(validate(candidates[i]))
    ensures Settled(candidates, validate, maxNew, if Passes(candidates, validate, i) then passers + [i] else passers,
                    settled + {i}, results[i := output])
  {
  }

  /** `passers` ranks all that pass, and every candidate's result is at its own position. */
  ghost predicate Selected(
    candidates: seq<ValidateInput>, validate: ValidateInput -> ValidateOutput, maxNew: int,
    passers: seq<nat>, results: seq<ValidateOutput>)
  {
    && |results| == |candidates|
    && RankedPassers(candidates, validate, passers, All(|candidates|))
    && Settled(candidates, validate, maxNew, passers, All(|candidates|), results)
  }

  ghost function Passing(candidates: seq<ValidateInput>, validate: ValidateInput -> ValidateOutput): set<nat> {
    set i | i in All(|candidates|) && Passes(candidates, validate, i)
  }

  ghost function Approved(results: seq<ValidateOutput>): set<nat> {
    set i | i in All(|results|) && results[i].approved
  }

  lemma {:induction false} DistinctSize(s: seq<nat>, elements: set<nat>)
    requires forall k, l :: 0 <= k < l < |s| ==> s[k] != s[l]
    requires forall i :: i in elements <==> i in s
    ensures |elements| == |s|
    decreases |s|
  {
    if |s| == 0 {
      assert elements == {};
    } else {
      var n := |s| - 1;
      assert s == s[..n] + [s[n]];
      DistinctSize(s[..n], elements - {s[n]});
    }
  }

  /** The places go to the front of the ranking and to nobody else. */
  lemma PlacesTaken(
    candidates: seq<ValidateInput>, validate: ValidateInput -> ValidateOutput, maxNew: int,
    passers: seq<nat>, results: seq<ValidateOutput>)
    requires Selected(candidates, validate, maxNew, passers, results)
    ensures forall i :: i in Approved(results) <==> i in passers[..Places(maxNew, |passers|)]
    ensures forall k :: 0 <= k < Places(maxNew, |passers|) ==> results[passers[k]].portfolioRank == k + 1
  {
  }

  /** Exactly min(maxNew, passing) candidates are approved, none when there are no places. */
  lemma ApprovesExactly(
    candidates: seq<ValidateInput>, validate: ValidateInput -> ValidateOutput, maxNew: int,
    passers: seq<nat>, results: seq<ValidateOutput>)
    requires Selected(candidates, validate, maxNew, passers, results)
    ensures |Approved(results)| == Places(maxNew, |Passing(candidates, validate)|)
    ensures Approved(results) <= Passing(candidates, validate)
  {
    var n := Places(maxNew, |passers|);
    PlacesTaken(candidates, validate, maxNew, passers, results);
    DistinctSize(passers, Passing(candidates, validate));
    DistinctSize(passers[..n], Approved(results));
    forall i | i in Approved(results) ensures i in Passing(candidates, validate) {
      assert i in passers[..n];
    }
  }

  /** No passer left without a place scores more than one that has a place, and ranks follow scores. */
  lemma BestScoresWin(
    candidates: seq<ValidateInput>, validate: ValidateInput -> ValidateOutput, maxNew: int,
    passers: seq<nat>, results: seq<ValidateOutput>, i: nat, j: nat)
    requires Selected(candidates, validate, maxNew, passers, results)
    requires i in Approved(results) && j in Passing(candidates, validate)
    requires j !in Approved(results) || results[i].portfolioRank < results[j].portfolioRank
    ensures candidates[i].setupScore >= candidates[j].setupScore
    ensures j !in Approved(results) ==> results[j].portfolioRejectReason == LIMIT
    ensures 1 <= results[i].portfolioRank <= |Approved(results)|
  {
    var n := Places(maxNew, |passers|);
    PlacesTaken(candidates, validate, maxNew, passers, results);
    ApprovesExactly(candidates, validate, maxNew, passers, results);
    DistinctSize(passers, Passing(candidates, validate));
    assert i in passers[..n];
    var k :| 0 <= k < n && passers[k] == i;
    assert j in passers;
    var l :| 0 <= l < |passers| && passers[l] == j;
    assert Placed(candidates, validate, maxNew, passers, j, results[j]);
    if l < n {
      assert passers[..n][l] == j;
    }
    assert k < l;
  }

  /** No passer without a place outscores one with a place, ranks follow scores, and the rest keep their own verdict. */
  ghost predicate Fair(
    candidates: seq<ValidateInput>, validate: ValidateInput -> ValidateOutput, results: seq<ValidateOutput>)
    requires |results| == |candidates|
  {
    && (forall i, j :: i in Approved(results) && j in Passing(candidates, validate)
                       && (j !in Approved(results) || results[i].portfolioRank < results[j].portfolioRank) ==>
          candidates[i].setupScore >= candidates[j].setupScore)
    && (forall i :: i in All(|candidates|) && i !in Passing(candidates, validate) ==>
        results[i] == validate(candidates[i]))
  }

  lemma SelectionIsFair(
    candidates: seq<ValidateInput>, validate: ValidateInput -> ValidateOutput, maxNew: int,
    passers: seq<nat>, results: seq<ValidateOutput>)
    requires Selected(candidates, validate, maxNew, passers, results)
    ensures Fair(candidates, validate, results)
  {
    forall i, j | i in Approved(results) && j in Passing(candidates, validate)
                  && (j !in Approved(results) || results[i].portfolioRank < results[j].portfolioRank)
      ensures candidates[i].setupScore >= candidates[j].setupScore
    {
      BestScoresWin(candidates, validate, maxNew, passers, results, i, j);
    }
    forall i | i in All(|candidates|) && i !in Passing(candidates, validate)
      ensures results[i] == validate(candidates[i])
    {
      assert Placed(candidates, validate, maxNew, passers, i, results[i]);
    }
  }

  /** A ranked reordering of the candidates with their original positions. */
  ghost predicate Ranking(candidates: seq<ValidateInput>, sorted: seq<Scored>) {
    && Ranked(sorted, ByScore())
    && (forall p :: 0 <= p < |sorted| ==>
          sorted[p].idx < |candidates| && sorted[p] == Listed(candidates)[sorted[p].idx])
    && (forall p, q :: 0 <= p < q < |sorted| ==> sorted[p].idx != sorted[q].idx)
    && Covered(sorted, |sorted|) == All(|candidates|)
  }

  /** One candidate's verdict against the places handed out so far. */
  method Decide(output: ValidateOutput, approvedCount: nat, maxNew: int) returns (decided: ValidateOutput, count: nat)
    ensures !output.approved ==> decided == output && count == approvedCount
    ensures output.approved && approvedCount < maxNew ==>
              decided == output.(portfolioRank := approvedCount + 1) && count == approvedCount + 1
    ensures output.approved && approvedCount >= maxNew ==> decided == Limited(output) && count == approvedCount
  {
    decided, count := output, approvedCount;
    if output.approved && approvedCount < maxNew {
      decided := output.(portfolioRank := approvedCount + 1);
      count := approvedCount + 1;
    } else if output.approved {
      decided := output.(approved := false, portfolioRejectReason := LIMIT,
          reasonCodes := output.reasonCodes + [LIMIT]);
    }
  }

  /** The first `k` of the ranking have their results. */
  ghost predicate InProgress(
    candidates: seq<ValidateInput>, validate: ValidateInput -> ValidateOutput, maxNew: int, sorted: seq<Scored>, k: nat,
    passers: seq<nat>, results: seq<ValidateOutput>)
  {
    && k <= |sorted| && |results| == |candidates|
    && Within(Covered(sorted, k), |candidates|)
    && RankedPassers(candidates, validate, passers, Covered(sorted, k))
    && Settled(candidates, validate, maxNew, passers, Covered(sorted, k), results)
  }

  /** The next in the ranking has had no turn yet. */
  lemma NextIsNew(
    candidates: seq<ValidateInput>, validate: ValidateInput -> ValidateOutput, sorted: seq<Scored>, k: nat,
    passers: seq<nat>)
    requires k < |sorted| && Ranking(candidates, sorted)
    requires RankedPassers(candidates, validate, passers, Covered(sorted, k))
    ensures sorted[k].idx < |candidates| && sorted[k].input == candidates[sorted[k].idx]
    ensures sorted[k].idx !in Covered(sorted, k) && sorted[k].idx !in passers
    ensures Covered(sorted, k + 1) == Covered(sorted, k) + {sorted[k].idx}
  {
  }

  ghost function Extended(validate: ValidateInput -> ValidateOutput, s: Scored, passers: seq<nat>): seq<nat> {
    if validate(s.input).approved then passers + [s.idx] else passers
  }

  lemma OneRanked(
    candidates: seq<ValidateInput>, validate: ValidateInput -> ValidateOutput, maxNew: int, sorted: seq<Scored>, k: nat,
    passers: seq<nat>, results: seq<ValidateOutput>)
    requires k < |sorted| && Ranking(candidates, sorted)
    requires InProgress(candidates, validate, maxNew, sorted, k, passers, results)
    ensures Within(Covered(sorted, k + 1), |candidates|)
    ensures RankedPassers(candidates, validate, Extended(validate, sorted[k], passers), Covered(sorted, k + 1))
  {
    TurnKeepsRanking(candidates, validate, sorted, k, passers, Extended(validate, sorted[k], passers));
  }

  lemma OneSettled(
    candidates: seq<ValidateInput>, validate: ValidateInput -> ValidateOutput, maxNew: int, sorted: seq<Scored>, k: nat,
    passers: seq<nat>, results: seq<ValidateOutput>, output: ValidateOutput)
    requires k < |sorted| && Ranking(candidates, sorted)
    requires InProgress(candidates, validate, maxNew, sorted, k, passers, results)
    requires var verdict := validate(sorted[k].input);
             output == if !verdict.approved then verdict
                       else if |passers| < maxNew then verdict.(portfolioRank := |passers| + 1)
                       else Limited(verdict)
    ensures sorted[k].idx < |results|
    ensures Settled(candidates, validate, maxNew, Extended(validate, sorted[k], passers), Covered(sorted, k + 1),
                    results[sorted[k].idx := output])
  {
    NextIsNew(candidates, validate, sorted, k, passers);
    TurnKeepsResults(candidates, validate, maxNew, passers, Covered(sorted, k), results, sorted[k].idx, output);
  }

  lemma OneDecided(
    candidates: seq<ValidateInput>, validate: ValidateInput -> ValidateOutput, maxNew: int, sorted: seq<Scored>, k: nat,
    passers: seq<nat>, results: seq<ValidateOutput>, output: ValidateOutput)
    requires k < |sorted| && Ranking(candidates, sorted)
    requires InProgress(candidates, validate, maxNew, sorted, k, passers, results)
    requires var verdict := validate(sorted[k].input);
             output == if !verdict.approved then verdict
                       else if |passers| < maxNew then verdict.(portfolioRank := |passers| + 1)
                       else Limited(verdict)
    ensures sorted[k].idx < |results|
    ensures InProgress(candidates, validate, maxNew, sorted, k + 1, Extended(validate, sorted[k], passers),
                       results[sorted[k].idx := output])
  {
    OneRanked(candidates, validate, maxNew, sorted, k, passers, results);
    OneSettled(candidates, validate, maxNew, sorted, k, passers, results, output);
  }

  /** Down the ranking, hand out the places. */
  method PlaceInOrder(
    candidates: seq<ValidateInput>,
    validate: ValidateInput -> ValidateOutput, maxNew: int, sorted: seq<Scored>)
    returns (results: seq<ValidateOutput>, ghost passers: seq<nat>)
    requires Ranking(candidates, sorted)
    ensures InProgress(candidates, validate, maxNew, sorted, |sorted|, passers, results)
  {
    results := seq(|candidates|, _ => ValidateOutput(false, 0, "", []));
    passers := [];
    var approvedCount := 0;
    for k := 0 to |sorted|
      invariant InProgress(candidates, validate, maxNew, sorted, k, passers, results)
      invariant approvedCount == Places(maxNew, |passers|)
    {
      var s := sorted[k];
      var verdict := validate(s.input);
      var output, count := Decide(verdict, approvedCount, maxNew);
      OneDecided(candidates, validate, maxNew, sorted, k, passers, results, output);
      if verdict.approved {
        passers := passers + [s.idx];
      }
      results, approvedCount := results[s.idx := output], count;
    }
  }

  /** `passers` is the whole ranking; `results` sits at the candidates' own positions. */
  method RankAndSelect(candidates: seq<ValidateInput>, validate: ValidateInput -> ValidateOutput, maxNew: int)
    returns (results: seq<ValidateOutput>, ghost passers: seq<nat>)
    ensures Selected(candidates, validate, maxNew, passers, results)
    ensures |results| == |candidates| && Fair(candidates, validate, results)
    ensures |Approved(results)| == Places(maxNew, |Passing(candidates, validate)|)
  {
    var sorted := SortedCopy(Listed(candidates), ByScore());
    PositionsSurvive(candidates, sorted);
    results, passers := PlaceInOrder(candidates, validate, maxNew, sorted);
    ApprovesExactly(candidates, validate, maxNew, passers, results);
    SelectionIsFair(candidates, validate, maxNew, passers, results);
  }
}
