/** The scheduler's trading cycle: caps, gates, portfolio ranking and execution. */
module Schedulers {
  import opened Domain
  import opened Selections
  import opened CycleModel
  import opened CallMeter

  /** What a cycle is given: the screened candidates and the answers of the components around the scheduler. */
  datatype CycleInput = CycleInput(
    halted: bool,
    screened: bool,
    btcStaleCritical: bool,
    candidates: seq<Candidate>,
    view: Candidate -> Outlook,
    paperStateAvailable: bool,
    anyRanging: bool)

  datatype Ending = BotHalted | ScreenFailed | BtcStaleCritical | NoCandidate | PaperStateUnavailable | CycleComplete

  datatype CycleResult = CycleResult(
    ending: Ending,
    candidates: nat,
    skips: seq<Skip>,
    executions: nat,
    llmCalls: nat)

  /** What ends a cycle before any candidate is looked at. */
  function EarlyEnding(input: CycleInput): Option<Ending> {
    if input.halted then Some(BotHalted)
    else if !input.screened then Some(ScreenFailed)
    else if input.btcStaleCritical then Some(BtcStaleCritical)
    else if input.candidates == [] then Some(NoCandidate)
    else None
  }

  /** The limit a cap reason stands for; zero when the cap is switched off. */
  function CapOf(cfg: SchedulerConfig, callsToday: int, r: Reason): int {
    match r
    case HardCap => cfg.hardCapCandidatesPerCycle
    case CallCapPerCycle => cfg.maxCallsPerCycle
    case CallCapPerDay =>
      if cfg.maxCallsPerDay <= callsToday then 0 else cfg.maxCallsPerDay - callsToday
    case _ => 0
  }

  /** `k` candidates stay within every cap that is switched on. */
  predicate Fits(cfg: SchedulerConfig, callsToday: int, k: nat) {
    && (cfg.hardCapCandidatesPerCycle > 0 ==> k <= cfg.hardCapCandidatesPerCycle)
    && (cfg.maxCallsPerCycle > 0 ==> k <= cfg.maxCallsPerCycle)
    && (cfg.maxCallsPerDay > 0 ==> k <= CapOf(cfg, callsToday, CallCapPerDay))
  }

  function AllSkipped(cs: seq<Candidate>, r: Reason): (skips: seq<Skip>)
    ensures |skips| == |cs| && Names(skips) == cs
    ensures forall i :: 0 <= i < |cs| ==> skips[i] == Skip(cs[i], r)
  {
    seq(|cs|, i requires 0 <= i < |cs| => Skip(cs[i], r))
  }

  lemma CutAccounts(all: seq<Candidate>, sorted: seq<Candidate>, k: nat, r: Reason)
    requires multiset(sorted) == multiset(all) && k <= |sorted|
    ensures Accounted(all, sorted[..k], AllSkipped(sorted[k..], r))
  {
    assert sorted == sorted[..k] + sorted[k..];
  }

  /** Everyone who stays scores at least as much as everyone stopped by a limit. */
  ghost predicate Outscores(stayed: seq<Candidate>, skips: seq<Skip>) {
    forall c, s :: c in stayed && s in skips && IsLimit(s.reason) ==> c.candidateScore >= s.candidate.candidateScore
  }

  /**
   A skip not due to a limit names the first gate its candidate fails; one due to the portfolio passed those before.
   */
  ghost predicate Justified(s: Skip, view: Candidate -> Outlook, mode: Mode) {
    var o := view(s.candidate);
    if s.reason.PortfolioRiskLimit? then BeforeVeto(o).None? && AfterVeto(o).None?
    else IsCap(s.reason) || Verdict(o, mode) == Some(s.reason)
  }

  ghost predicate AllJustified(skips: seq<Skip>, view: Candidate -> Outlook, mode: Mode) {
    forall s :: s in skips ==> Justified(s, view, mode)
  }

  /** The first `i` have passed the gates before the model or left at one of them. */
  ghost predicate Gated(
    kept: seq<Candidate>, i: nat, view: Candidate -> Outlook, mode: Mode, passed: seq<Candidate>, skips: seq<Skip>)
    requires i <= |kept|
  {
    && Accounted(kept[..i], passed, skips)
    && AllJustified(skips, view, mode)
    && (forall c :: c in passed ==> BeforeVeto(view(c)).None?)
    && (forall s :: s in skips ==> IsEarly(s.reason))
  }

  lemma OneGated(
    kept: seq<Candidate>, i: nat, view: Candidate -> Outlook, mode: Mode,
    passed: seq<Candidate>, skips: seq<Skip>, refusal: Option<Reason>)
    requires i < |kept| && Gated(kept, i, view, mode, passed, skips)
    requires refusal == BeforeVeto(view(kept[i])) || refusal == Some(CallCapPerCycle)
    ensures refusal.Some? ==> Gated(kept, i + 1, view, mode, passed, skips + [Skip(kept[i], refusal.value)])
    ensures refusal.None? ==> Gated(kept, i + 1, view, mode, passed + [kept[i]], skips)
  {
    assert kept[..i + 1] == kept[..i] + [kept[i]];
    if refusal.Some? {
      Leaves(kept[..i], passed, skips, kept[i], refusal.value);
    } else {
      StaysOn(kept[..i], passed, skips, kept[i]);
    }
  }

  /** The gates before the model; `vetoes` counts the candidates that will be put to it. */
  method PreVeto(cfg: SchedulerConfig, kept: seq<Candidate>, view: Candidate -> Outlook)
    returns (passed: seq<Candidate>, skips: seq<Skip>, vetoes: nat)
    ensures Gated(kept, |kept|, view, cfg.mode, passed, skips)
    ensures cfg.maxCallsPerCycle > 0 ==> vetoes <= cfg.maxCallsPerCycle
    ensures cfg.maxCallsPerCycle <= 0 || |kept| <= cfg.maxCallsPerCycle ==> forall s :: s in skips ==> !IsCap(s.reason)
  {
    passed, skips, vetoes := [], [], 0;
    for i := 0 to |kept|
      invariant Gated(kept, i, view, cfg.mode, passed, skips)
      invariant vetoes <= i && (cfg.maxCallsPerCycle > 0 ==> vetoes <= cfg.maxCallsPerCycle)
      invariant cfg.maxCallsPerCycle <= 0 || |kept| <= cfg.maxCallsPerCycle ==>
                  forall s :: s in skips ==> !IsCap(s.reason)
    {
      var o := view(kept[i]);
      var refusal := BeforeVeto(o);
      if refusal.None? && o.route.VetoRequired? && cfg.maxCallsPerCycle > 0 && vetoes >= cfg.maxCallsPerCycle {
        refusal := Some(CallCapPerCycle);
      }
      OneGated(kept, i, view, cfg.mode, passed, skips, refusal);
      if refusal.Some? {
        skips := skips + [Skip(kept[i], refusal.value)];
      } else {
        if o.route.VetoRequired? {
          vetoes := vetoes + 1;
        }
        passed := passed + [kept[i]];
      }
    }
  }

  /** Those in line passed every gate so far. */
  ghost predicate Queued(line: seq<Candidate>, view: Candidate -> Outlook) {
    forall c :: c in line ==> BeforeVeto(view(c)).None? && AfterVeto(view(c)).None?
  }

  /** Those that went through passed every gate. */
  ghost predicate Cleared(executed: seq<Candidate>, view: Candidate -> Outlook, mode: Mode) {
    forall c :: c in executed ==> Verdict(view(c), mode).None?
  }

  /** Only the front of the line is executed; only those behind it are refused for lack of a place. */
  ghost predicate FrontFirst(front: seq<Candidate>, back: seq<Candidate>, executed: seq<Candidate>, skips: seq<Skip>) {
    && (forall c :: c in executed ==> c in front)
    && (forall s :: s in skips && IsLimit(s.reason) ==> s.candidate in back)
  }

  lemma FrontOutscores(line: seq<Candidate>, places: nat, executed: seq<Candidate>, skips: seq<Skip>)
    requires Descending(line) && places <= |line|
    requires FrontFirst(line[..places], line[places..], executed, skips)
    ensures Outscores(executed, skips)
  {
  }

  /** The first `i` of the line are through, executed or skipped. */
  ghost predicate Executing(
    line: seq<Candidate>, places: nat, i: nat, view: Candidate -> Outlook, mode: Mode,
    executed: seq<Candidate>, skips: seq<Skip>)
    requires i <= |line| && places <= |line|
  {
    && Accounted(line[..i], executed, skips)
    && AllJustified(skips, view, mode)
    && Cleared(executed, view, mode)
    && |executed| <= i && |executed| <= places
    && FrontFirst(line[..places], line[places..], executed, skips)
    && Number(skips, IsPlaceLimit) == (if i <= places then 0 else i - places)
    && (forall s :: s in skips ==> IsLate(s.reason))
  }

  lemma OneMoreSkip(skips: seq<Skip>, s: Skip, view: Candidate -> Outlook, mode: Mode)
    requires AllJustified(skips, view, mode) && Justified(s, view, mode)
    requires IsLate(s.reason) && forall t :: t in skips ==> IsLate(t.reason)
    ensures AllJustified(skips + [s], view, mode) && forall t :: t in skips + [s] ==> IsLate(t.reason)
  {
  }

  lemma OneRefused(
    line: seq<Candidate>, places: nat, i: nat, view: Candidate -> Outlook, mode: Mode,
    executed: seq<Candidate>, skips: seq<Skip>, r: Reason)
    requires i < |line| && places <= |line| && Queued(line, view)
    requires Executing(line, places, i, view, mode, executed, skips)
    requires if i >= places then r.PortfolioRiskLimit? else AtExecution(view(line[i]), mode) == Some(r)
    ensures Executing(line, places, i + 1, view, mode, executed, skips + [Skip(line[i], r)])
  {
    assert line[..i + 1] == line[..i] + [line[i]];
    assert i >= places ==> line[places..][i - places] == line[i];
    Leaves(line[..i], executed, skips, line[i], r);
    NumberAppend(skips, Skip(line[i], r), IsPlaceLimit);
    OneMoreSkip(skips, Skip(line[i], r), view, mode);
  }

  lemma OneExecuted(
    line: seq<Candidate>, places: nat, i: nat, view: Candidate -> Outlook, mode: Mode,
    executed: seq<Candidate>, skips: seq<Skip>)
    requires i < places <= |line| && Queued(line, view)
    requires Executing(line, places, i, view, mode, executed, skips) && AtExecution(view(line[i]), mode).None?
    ensures Executing(line, places, i + 1, view, mode, executed + [line[i]], skips)
  {
    assert line[..i + 1] == line[..i] + [line[i]];
    assert line[..places][i] == line[i];
    StaysOn(line[..i], executed, skips, line[i]);
  }

  lemma ExecutingAtFirst(line: seq<Candidate>, places: nat, view: Candidate -> Outlook, mode: Mode)
    requires places <= |line|
    ensures Executing(line, places, 0, view, mode, [], [])
  {
  }

  /** Execute the front of the line. */
  method ExecuteFront(cfg: SchedulerConfig, line: seq<Candidate>, places: nat, view: Candidate -> Outlook)
    returns (executed: seq<Candidate>, skips: seq<Skip>)
    requires Queued(line, view) && places <= |line|
    ensures Executing(line, places, |line|, view, cfg.mode, executed, skips)
  {
    executed, skips := [], [];
    ExecutingAtFirst(line, places, view, cfg.mode);
    for i := 0 to |line|
      invariant Executing(line, places, i, view, cfg.mode, executed, skips)
    {
      var refusal := if i >= places then Some(PortfolioRiskLimit) else AtExecution(view(line[i]), cfg.mode);
      if refusal.Some? {
        OneRefused(line, places, i, view, cfg.mode, executed, skips, refusal.value);
        skips := skips + [Skip(line[i], refusal.value)];
      } else {
        OneExecuted(line, places, i, view, cfg.mode, executed, skips);
        executed := executed + [line[i]];
      }
    }
  }

  lemma Reordered(all: seq<Candidate>, line: seq<Candidate>, view: Candidate -> Outlook)
    requires Queued(all, view) && multiset(line) == multiset(all)
    ensures Queued(line, view) && |line| == |all|
  {
    assert |multiset(line)| == |line| && |multiset(all)| == |all|;
    forall c | c in line ensures c in all {
      assert c in multiset(line);
    }
  }

  /** The whole line is through. */
  lemma LineIsThrough(
    approved: seq<Candidate>, line: seq<Candidate>, places: nat, view: Candidate -> Outlook, mode: Mode,
    executed: seq<Candidate>, skips: seq<Skip>)
    requires multiset(line) == multiset(approved) && Descending(line) && places <= |line|
    requires Executing(line, places, |line|, view, mode, executed, skips)
    ensures Accounted(approved, executed, skips) && Outscores(executed, skips)
  {
    assert line[..|line|] == line;
    FrontOutscores(line, places, executed, skips);
  }

  /** Rank, take as many as there are places, and execute those. */
  method Execute(cfg: SchedulerConfig, approved: seq<Candidate>, view: Candidate -> Outlook, anyRanging: bool)
    returns (executed: seq<Candidate>, skips: seq<Skip>)
    requires Queued(approved, view)
    ensures Accounted(approved, executed, skips) && AllJustified(skips, view, cfg.mode)
    ensures Cleared(executed, view, cfg.mode)
    ensures |executed| <= NewPositionCap(cfg, anyRanging, |approved|)
    ensures Number(skips, IsPlaceLimit) == Beyond(NewPositionCap(cfg, anyRanging, |approved|), |approved|)
    ensures forall s :: s in skips ==> IsLate(s.reason)
    ensures Outscores(executed, skips)
  {
    var ranked := StableRank(approved);
    StableRankIsStable(approved, 0.0);
    Reordered(approved, ranked, view);
    var cap := NewPositionCap(cfg, anyRanging, |approved|);
    var places := if cap < |ranked| then cap else |ranked|;
    executed, skips := ExecuteFront(cfg, ranked, places, view);
    LineIsThrough(approved, ranked, places, view, cfg.mode, executed, skips);
  }

  lemma {:induction false} MadeOneMore(m: Meter, calls: seq<Call>, c: Call, hasStore: bool)
    ensures AllMade(m, calls + [c], hasStore) == Made(AllMade(m, calls, hasStore), c, hasStore)
    decreases |calls|
  {
    if calls == [] {
      assert calls + [c] == [c] && [c][1..] == [];
    } else {
      assert (calls + [c])[1..] == calls[1..] + [c];
      MadeOneMore(Made(m, calls[0], hasStore), calls[1..], c, hasStore);
    }
  }

  /** The model is asked about the candidate. */
  predicate Asks(o: Outlook) {
    o.route.VetoRequired?
  }

  /** The candidates put to the model, each of them one request. */
  function Asked(passed: seq<Candidate>, view: Candidate -> Outlook): (n: nat)
    ensures n <= |passed|
  {
    if passed == [] then 0
    else Asked(passed[..|passed| - 1], view) + if Asks(view(passed[|passed| - 1])) then 1 else 0
  }

  /** Those of them that got an answer. */
  function Answered(passed: seq<Candidate>, view: Candidate -> Outlook): nat {
    if passed == [] then 0
    else
      var o := view(passed[|passed| - 1]);
      Answered(passed[..|passed| - 1], view) + if Asks(o) && !o.vetoFails then 1 else 0
  }

  lemma AskedSnoc(passed: seq<Candidate>, i: nat, view: Candidate -> Outlook)
    requires i < |passed|
    ensures Asked(passed[..i + 1], view) == Asked(passed[..i], view) + if Asks(view(passed[i])) then 1 else 0
    ensures Answered(passed[..i + 1], view)
         == Answered(passed[..i], view) + if Asks(view(passed[i])) && !view(passed[i]).vetoFails then 1 else 0
  {
    assert passed[..i + 1][..i] == passed[..i];
  }

  function AnsweredIn(calls: seq<Call>): (n: nat)
    ensures n <= |calls|
  {
    if calls == [] then 0
    else AnsweredIn(calls[..|calls| - 1]) + if calls[|calls| - 1].answered then 1 else 0
  }

  /** The first `i` have their answer: approved, or left at a gate after the model. */
  ghost predicate Reviewed(
    passed: seq<Candidate>, i: nat, view: Candidate -> Outlook, mode: Mode, approved: seq<Candidate>, skips: seq<Skip>)
    requires i <= |passed|
  {
    && Accounted(passed[..i], approved, skips)
    && AllJustified(skips, view, mode)
    && Queued(approved, view)
    && (forall s :: s in skips ==> IsMiddle(s.reason))
  }

  lemma OneReviewed(
    passed: seq<Candidate>, i: nat, view: Candidate -> Outlook, mode: Mode, approved: seq<Candidate>, skips: seq<Skip>)
    requires i < |passed| && Reviewed(passed, i, view, mode, approved, skips) && BeforeVeto(view(passed[i])).None?
    ensures var refusal := AfterVeto(view(passed[i]));
            if refusal.Some? then Reviewed(passed, i + 1, view, mode, approved,
                skips + [Skip(passed[i], refusal.value)])
            else Reviewed(passed, i + 1, view, mode, approved + [passed[i]], skips)
  {
    assert passed[..i + 1] == passed[..i] + [passed[i]];
    var refusal := AfterVeto(view(passed[i]));
    if refusal.Some? {
      Leaves(passed[..i], approved, skips, passed[i], refusal.value);
    } else {
      StaysOn(passed[..i], approved, skips, passed[i]);
    }
  }

  ghost predicate UpTo(calls: seq<Call>, today: int) {
    forall i :: 0 <= i < |calls| ==> calls[i].today <= today
  }

  /** As many stay as the caps allow, best first, and each one dropped names a cap that kept just this many. */
  ghost predicate Capped(
    cfg: SchedulerConfig, callsToday: int, candidates: seq<Candidate>, kept: seq<Candidate>, skips: seq<Skip>)
  {
    && Accounted(candidates, kept, skips)
    && Fits(cfg, callsToday, |kept|)
    && (skips != [] ==> !Fits(cfg, callsToday, |kept| + 1))
    && (forall s :: s in skips ==> IsCap(s.reason) && CapOf(cfg, callsToday, s.reason) == |kept|)
    && Outscores(kept, skips)
  }

  lemma CutIsCapped(
    cfg: SchedulerConfig, callsToday: int, candidates: seq<Candidate>, sorted: seq<Candidate>, k: nat, r: Reason)
    requires multiset(sorted) == multiset(candidates) && k <= |sorted| && Ranked(sorted, CandidateScore())
    requires Fits(cfg, callsToday, k) && !Fits(cfg, callsToday, k + 1) && IsCap(r) && CapOf(cfg, callsToday, r) == k
    ensures Capped(cfg, callsToday, candidates, sorted[..k], AllSkipped(sorted[k..], r))
  {
    var skips := AllSkipped(sorted[k..], r);
    CutAccounts(candidates, sorted, k, r);
    forall c, s | c in sorted[..k] && s in skips ensures c.candidateScore >= s.candidate.candidateScore {
      var i :| 0 <= i < k && sorted[i] == c;
      var j :| 0 <= j < |sorted| - k && skips[j] == s;
      assert CandidateScore()(sorted[i]) >= CandidateScore()(sorted[k + j]);
    }
  }

  /**
   Every candidate leaves by one exit, the executed ones through every gate and outscored by nobody a limit stopped.
   */
  ghost predicate Settlement(cfg: SchedulerConfig, input: CycleInput, executed: seq<Candidate>, skips: seq<Skip>) {
    && Accounted(input.candidates, executed, skips)
    && |skips| + |executed| == |input.candidates|
    && Cleared(executed, input.view, cfg.mode)
    && AllJustified(skips, input.view, cfg.mode)
    && Outscores(executed, skips)
  }

  /** The caps stop no more than they must, and so does the limit on new positions. */
  ghost predicate LimitsMet(
    cfg: SchedulerConfig, callsToday: int, input: CycleInput, executed: seq<Candidate>, skips: seq<Skip>)
  {
    var kept := |input.candidates| - Number(skips, IsCap);
    var waiting := |executed| + Number(skips, IsLate);
    && kept >= 0 && Fits(cfg, callsToday, kept)
    && (kept < |input.candidates| ==> !Fits(cfg, callsToday, kept + 1))
    && Number(skips, IsPlaceLimit) == Beyond(NewPositionCap(cfg, input.anyRanging, waiting), waiting)
    && |executed| <= NewPositionCap(cfg, input.anyRanging, waiting)
  }

  lemma StayedWithin(all: seq<Candidate>, stayed: seq<Candidate>, skips: seq<Skip>)
    requires Accounted(all, stayed, skips)
    ensures |stayed| <= |all| && forall c :: c in stayed ==> c in all
  {
    AccountedCount(all, stayed, skips);
    forall c | c in stayed ensures c in all {
      assert c in multiset(stayed);
      assert c in multiset(all);
    }
  }

  lemma KindAcross(caps: seq<Skip>, early: seq<Skip>, middle: seq<Skip>, late: seq<Skip>, p: Reason -> bool)
    ensures Number(caps + early + middle + late, p)
         == Number(caps, p) + Number(early, p) + Number(middle, p) + Number(late, p)
  {
    NumberJoin(caps, early, p);
    NumberJoin(caps + early, middle, p);
    NumberJoin(caps + early + middle, late, p);
  }

  lemma CapsByKind(caps: seq<Skip>, early: seq<Skip>, middle: seq<Skip>, late: seq<Skip>)
    requires forall i :: 0 <= i < |caps| ==> IsCap(caps[i].reason)
    requires forall i :: 0 <= i < |early| ==> !IsCap(early[i].reason)
    requires forall i :: 0 <= i < |middle| ==> IsMiddle(middle[i].reason)
    requires forall i :: 0 <= i < |late| ==> IsLate(late[i].reason)
    ensures Number(caps + early + middle + late, IsCap) == |caps|
  {
    KindAcross(caps, early, middle, late, IsCap);
    NumberOfKind(caps, IsCap, true);
    NumberOfKind(early, IsCap, false);
    NumberOfKind(middle, IsCap, false);
    NumberOfKind(late, IsCap, false);
  }

  lemma LateByKind(caps: seq<Skip>, early: seq<Skip>, middle: seq<Skip>, late: seq<Skip>)
    requires forall i :: 0 <= i < |caps| ==> IsCap(caps[i].reason)
    requires forall i :: 0 <= i < |early| ==> IsEarly(early[i].reason)
    requires forall i :: 0 <= i < |middle| ==> IsMiddle(middle[i].reason)
    requires forall i :: 0 <= i < |late| ==> IsLate(late[i].reason)
    ensures Number(caps + early + middle + late, IsLate) == |late|
  {
    KindAcross(caps, early, middle, late, IsLate);
    NumberOfKind(caps, IsLate, false);
    NumberOfKind(early, IsLate, false);
    NumberOfKind(middle, IsLate, false);
    NumberOfKind(late, IsLate, true);
  }

  lemma PlacesByKind(caps: seq<Skip>, early: seq<Skip>, middle: seq<Skip>, late: seq<Skip>)
    requires forall i :: 0 <= i < |caps| ==> IsCap(caps[i].reason)
    requires forall i :: 0 <= i < |early| ==> IsEarly(early[i].reason)
    requires forall i :: 0 <= i < |middle| ==> IsMiddle(middle[i].reason)
    ensures Number(caps + early + middle + late, IsPlaceLimit) == Number(late, IsPlaceLimit)
  {
    KindAcross(caps, early, middle, late, IsPlaceLimit);
    NumberOfKind(caps, IsPlaceLimit, false);
    NumberOfKind(early, IsPlaceLimit, false);
    NumberOfKind(middle, IsPlaceLimit, false);
  }

  lemma FourPhases(
    all: seq<Candidate>, kept: seq<Candidate>, passed: seq<Candidate>, approved: seq<Candidate>,
    executed: seq<Candidate>,
    caps: seq<Skip>, early: seq<Skip>, middle: seq<Skip>, late: seq<Skip>)
    requires Accounted(all, kept, caps) && Accounted(kept, passed, early)
    requires Accounted(passed, approved, middle) && Accounted(approved, executed, late)
    ensures Accounted(all, executed, caps + early + middle + late)
    ensures forall c :: c in executed ==> c in kept
    ensures |executed| + |late| == |approved|
  {
    InSuccession(all, kept, passed, caps, early);
    InSuccession(all, passed, approved, caps + early, middle);
    InSuccession(all, approved, executed, caps + early + middle, late);
    StayedWithin(kept, passed, early);
    StayedWithin(passed, approved, middle);
    StayedWithin(approved, executed, late);
    AccountedCount(approved, executed, late);
  }

  /** Everything the four phases of a cycle establish. */
  ghost predicate PhasesRan(
    cfg: SchedulerConfig, callsToday: int, input: CycleInput,
    kept: seq<Candidate>, caps: seq<Skip>, passed: seq<Candidate>, early: seq<Skip>,
    approved: seq<Candidate>, middle: seq<Skip>, executed: seq<Candidate>, late: seq<Skip>)
  {
    && Capped(cfg, callsToday, input.candidates, kept, caps)
    && Gated(kept, |kept|, input.view, cfg.mode, passed, early) && (forall s :: s in early ==> !IsCap(s.reason))
    && Reviewed(passed, |passed|, input.view, cfg.mode, approved, middle)
    && Accounted(approved, executed, late) && AllJustified(late, input.view, cfg.mode)
    && Cleared(executed, input.view, cfg.mode) && Outscores(executed, late)
    && |executed| <= NewPositionCap(cfg, input.anyRanging, |approved|)
    && Number(late, IsPlaceLimit) == Beyond(NewPositionCap(cfg, input.anyRanging, |approved|), |approved|)
    && (forall s :: s in late ==> IsLate(s.reason))
  }

  lemma JustifiedAcross(
    caps: seq<Skip>, early: seq<Skip>, middle: seq<Skip>, late: seq<Skip>, view: Candidate -> Outlook, mode: Mode)
    requires forall s :: s in caps ==> IsCap(s.reason)
    requires AllJustified(early, view, mode) && AllJustified(middle, view, mode) && AllJustified(late, view, mode)
    ensures AllJustified(caps + early + middle + late, view, mode)
  {
  }

  lemma OutscoresAcross(
    kept: seq<Candidate>, executed: seq<Candidate>, caps: seq<Skip>, early: seq<Skip>, middle: seq<Skip>,
    late: seq<Skip>)
    requires Outscores(kept, caps) && Outscores(executed, late) && forall c :: c in executed ==> c in kept
    requires forall s :: s in early || s in middle ==> !IsLimit(s.reason)
    ensures Outscores(executed, caps + early + middle + late)
  {
  }

  lemma CycleSettles(
    cfg: SchedulerConfig, callsToday: int, input: CycleInput,
    kept: seq<Candidate>, caps: seq<Skip>, passed: seq<Candidate>, early: seq<Skip>,
    approved: seq<Candidate>, middle: seq<Skip>, executed: seq<Candidate>, late: seq<Skip>)
    requires PhasesRan(cfg, callsToday, input, kept, caps, passed, early, approved, middle, executed, late)
    ensures Settlement(cfg, input, executed, caps + early + middle + late)
  {
    assert kept[..|kept|] == kept && passed[..|passed|] == passed;
    FourPhases(input.candidates, kept, passed, approved, executed, caps, early, middle, late);
    AccountedCount(input.candidates, executed, caps + early + middle + late);
    JustifiedAcross(caps, early, middle, late, input.view, cfg.mode);
    OutscoresAcross(kept, executed, caps, early, middle, late);
  }

  lemma CountsMeetLimits(
    cfg: SchedulerConfig, callsToday: int, input: CycleInput, executed: seq<Candidate>, skips: seq<Skip>,
    kept: nat, waiting: nat)
    requires Number(skips, IsCap) == |input.candidates| - kept && Number(skips, IsLate) == waiting - |executed|
    requires Fits(cfg, callsToday, kept) && (kept < |input.candidates| ==> !Fits(cfg, callsToday, kept + 1))
    requires |executed| <= NewPositionCap(cfg, input.anyRanging, waiting)
    requires Number(skips, IsPlaceLimit) == Beyond(NewPositionCap(cfg, input.anyRanging, waiting), waiting)
    ensures LimitsMet(cfg, callsToday, input, executed, skips)
  {
  }

  lemma CycleMeetsLimits(
    cfg: SchedulerConfig, callsToday: int, input: CycleInput,
    kept: seq<Candidate>, caps: seq<Skip>, passed: seq<Candidate>, early: seq<Skip>,
    approved: seq<Candidate>, middle: seq<Skip>, executed: seq<Candidate>, late: seq<Skip>)
    requires PhasesRan(cfg, callsToday, input, kept, caps, passed, early, approved, middle, executed, late)
    ensures LimitsMet(cfg, callsToday, input, executed, caps + early + middle + late)
  {
    CapsByKind(caps, early, middle, late);
    LateByKind(caps, early, middle, late);
    PlacesByKind(caps, early, middle, late);
    AccountedCount(input.candidates, kept, caps);
    AccountedCount(approved, executed, late);
    CountsMeetLimits(cfg, callsToday, input, executed, caps + early + middle + late, |kept|, |approved|);
  }

  /** The calls of a cycle stay within what the day had left when the caps were applied. */
  lemma AskedFit(
    cfg: SchedulerConfig, callsToday: int, input: CycleInput, kept: seq<Candidate>, caps: seq<Skip>,
    passed: seq<Candidate>, early: seq<Skip>, calls: seq<Call>)
    requires Capped(cfg, callsToday, input.candidates, kept, caps)
    requires Gated(kept, |kept|, input.view, cfg.mode, passed, early)
    requires |calls| == Asked(passed, input.view)
    ensures cfg.maxCallsPerDay > 0 ==> |calls| <= CapOf(cfg, callsToday, CallCapPerDay)
  {
    assert kept[..|kept|] == kept;
    StayedWithin(kept, passed, early);
  }

  class Scheduler {
    const cfg: SchedulerConfig
    const hasStore: bool
    /** The day at each reading of the clock, and whether the store answers around it. */
    const clock: nat -> int
    const storeReads: nat -> bool
    const storeWrites: nat -> bool
    var ticks: nat
    var llmCallsToday: int
    var llmCallsDate: Option<int>
    var stored: map<int, nat>
    ghost var counted: map<int, nat>
    ghost var unseen: map<int, nat>
    /** The calls known when the process started. */
    ghost const base: map<int, nat>

    ghost function Snapshot(): Meter
      reads this
    {
      Meter(llmCallsToday, llmCallsDate, stored, counted, unseen)
    }

    ghost predicate Monotone() {
      forall i, j :: i <= j ==> clock(i) <= clock(j)
    }

    /** The meter's date is that of the last reading. */
    ghost predicate OnTime()
      reads this
    {
      Monotone() && (llmCallsDate.Some? ==> ticks > 0 && llmCallsDate.value == clock(ticks - 1))
    }

    ghost predicate Valid()
      reads this
    {
      OnTime() && Sound(Snapshot(), cfg.maxCallsPerDay, base, hasStore) && NotBefore(Snapshot(), clock(ticks))
    }

    constructor (cfg: SchedulerConfig, hasStore: bool, stored: map<int, nat>,
                 clock: nat -> int, storeReads: nat -> bool, storeWrites: nat -> bool)
      requires forall i, j :: i <= j ==> clock(i) <= clock(j)
      requires forall day :: day > clock(0) ==> On(stored, day) == 0
      ensures Valid() && Snapshot() == Restarted(stored, hasStore) && base == counted
      ensures this.cfg == cfg && this.hasStore == hasStore
    {
      this.cfg, this.hasStore, this.stored := cfg, hasStore, stored;
      this.clock, this.storeReads, this.storeWrites := clock, storeReads, storeWrites;
      ticks, llmCallsToday, llmCallsDate := 0, 0, None;
      base, counted, unseen := if hasStore then stored else map[], if hasStore then stored else map[], map[];
    }

    method RollTo(today: int)
      modifies this
      ensures Snapshot() == Rolled(old(Snapshot()), today) && ticks == old(ticks)
    {
      if llmCallsDate != Some(today) {
        unseen := unseen[today := On(counted, today)];
        llmCallsDate, llmCallsToday := Some(today), 0;
      }
    }

    method LoadLLMUsage()
      requires OnTime()
      modifies this
      ensures OnTime() && ticks == old(ticks) + 1
      ensures Snapshot() == Loaded(old(Snapshot()), clock(old(ticks)), hasStore, storeReads(old(ticks)))
      ensures llmCallsDate == Some(clock(old(ticks)))
    {
      var today := clock(ticks);
      if !hasStore || !storeReads(ticks) {
        RollTo(today);
      } else {
        llmCallsDate := Some(today);
        llmCallsToday := if today in stored then stored[today] else 0;
      }
      ticks := ticks + 1;
    }

    method TrackLLMCall()
      requires OnTime()
      modifies this
      ensures OnTime() && ticks == old(ticks) + 1
      ensures Snapshot() == Tracked(old(Snapshot()), clock(old(ticks)), hasStore, storeWrites(old(ticks)))
    {
      var today := clock(ticks);
      RollTo(today);
      llmCallsToday := llmCallsToday + 1;
      counted := Plus(counted, today, 1);
      if hasStore {
        if storeWrites(ticks) {
          stored := Plus(stored, today, 1);
        } else {
          unseen := Plus(unseen, today, 1);
        }
      }
      ticks := ticks + 1;
    }

    /** The strictest of the caps that are switched on; 0 when none is. */
    method StrictestCap() returns (cap: int, reason: Reason)
      requires cfg.maxCallsPerDay > 0 ==> llmCallsToday < cfg.maxCallsPerDay
      ensures cap == 0 <==> forall k: nat :: Fits(cfg, llmCallsToday, k)
      ensures cap >= 0 && (cap > 0 ==> forall k: nat :: Fits(cfg, llmCallsToday, k) <==> k <= cap)
      ensures cap > 0 ==> IsCap(reason) && CapOf(cfg, llmCallsToday, reason) == cap
    {
      cap, reason := 0, HardCap;
      if cfg.hardCapCandidatesPerCycle > 0 {
        cap := cfg.hardCapCandidatesPerCycle;
      }
      if cfg.maxCallsPerCycle > 0 && (cap == 0 || cfg.maxCallsPerCycle < cap) {
        cap, reason := cfg.maxCallsPerCycle, CallCapPerCycle;
      }
      var remaining := cfg.maxCallsPerDay - llmCallsToday;
      if cfg.maxCallsPerDay > 0 && (cap == 0 || remaining < cap) {
        cap, reason := remaining, CallCapPerDay;
      }
      assert cap > 0 ==> !Fits(cfg, llmCallsToday, cap + 1);
    }

    method ApplyLLMCaps(candidates: seq<Candidate>) returns (kept: seq<Candidate>, skips: seq<Skip>)
      requires OnTime()
      modifies this
      ensures OnTime()
      ensures candidates == [] ==> kept == [] && skips == [] && Snapshot() == old(Snapshot()) && ticks == old(ticks)
      ensures candidates != [] ==>
                Snapshot() == Rolled(old(Snapshot()), clock(old(ticks))) && ticks == old(ticks) + 1
      ensures candidates != [] ==> Capped(cfg, llmCallsToday, candidates, kept, skips)
      ensures candidates != [] && (forall k: nat :: Fits(cfg, llmCallsToday, k)) ==> kept == candidates
    {
      if candidates == [] {
        return [], [];
      }
      RollTo(clock(ticks));
      ticks := ticks + 1;
      if cfg.maxCallsPerDay > 0 && llmCallsToday >= cfg.maxCallsPerDay {
        var none: seq<Candidate> := [];
        kept, skips := none, AllSkipped(candidates, CallCapPerDay);
        assert !Fits(cfg, llmCallsToday, 1);
        return;
      }
      var cap, reason := StrictestCap();
      if cap == 0 {
        return candidates, [];
      }
      var sorted := SortedCopy(candidates, CandidateScore());
      if |sorted| <= cap {
        kept, skips := sorted, [];
      } else {
        kept, skips := sorted[..cap], AllSkipped(sorted[cap..], reason);
        CutIsCapped(cfg, llmCallsToday, candidates, sorted, cap, reason);
      }
    }

    /** Since the meter stood at `start`, exactly `calls` were made. */
    ghost predicate Metered(start: Meter, calls: seq<Call>)
      reads this
    {
      && OnTime() && llmCallsDate.Some? && start.callsDate.Some? && start.callsDate.value <= clock(ticks)
      && Chronological(start.callsDate.value, calls) && UpTo(calls, clock(ticks))
      && Snapshot() == AllMade(start, calls, hasStore) && NotBefore(Snapshot(), clock(ticks))
    }

    method TrackAnswer(ghost start: Meter, ghost calls: seq<Call>) returns (ghost longer: seq<Call>)
      requires Metered(start, calls)
      modifies this
      ensures Metered(start, longer) && |longer| == |calls| + 1 && AnsweredIn(longer) == AnsweredIn(calls) + 1
    {
      ghost var call := Call(clock(ticks), true, storeWrites(ticks));
      MadeOneMore(start, calls, call, hasStore);
      longer := calls + [call];
      assert longer[..|calls|] == calls;
      MadeNotBefore(Snapshot(), call, hasStore, clock(ticks + 1));
      TrackLLMCall();
      assert clock(ticks - 1) <= clock(ticks);
    }

    /** A request without an answer leaves no trace but in the history. */
    ghost method MissAnswer(start: Meter, calls: seq<Call>) returns (longer: seq<Call>)
      requires Metered(start, calls)
      modifies this`counted, this`unseen
      ensures Metered(start, longer) && |longer| == |calls| + 1 && AnsweredIn(longer) == AnsweredIn(calls)
    {
      var call := Call(clock(ticks), false, true);
      MadeOneMore(start, calls, call, hasStore);
      longer := calls + [call];
      assert longer[..|calls|] == calls;
      MadeNotBefore(Snapshot(), call, hasStore, clock(ticks));
      counted, unseen := Plus(counted, clock(ticks), 1), Plus(unseen, clock(ticks), 1);
    }

    /** What the model had to say about a candidate, if it was asked. */
    method NoteAnswer(o: Outlook, llmCalls: nat, ghost start: Meter, ghost calls: seq<Call>)
      returns (total: nat, ghost made: seq<Call>)
      requires Metered(start, calls) && llmCalls == AnsweredIn(calls)
      modifies this
      ensures Metered(start, made) && total == AnsweredIn(made)
      ensures |made| == |calls| + if Asks(o) then 1 else 0
      ensures total == llmCalls + if Asks(o) && !o.vetoFails then 1 else 0
    {
      total, made := llmCalls, calls;
      if Asks(o) {
        if o.vetoFails {
          made := MissAnswer(start, calls);
        } else {
          total := total + 1;
          made := TrackAnswer(start, calls);
        }
      }
    }

    /** What has been requested for these candidates since the meter stood at `start`. */
    ghost predicate Requested(
      start: Meter, asked: seq<Candidate>, view: Candidate -> Outlook, llmCalls: nat, calls: seq<Call>)
      reads this
    {
      Metered(start, calls) && |calls| == Asked(asked, view) && llmCalls == AnsweredIn(calls) == Answered(asked, view)
    }

    method RequestOne(
      passed: seq<Candidate>, i: nat, view: Candidate -> Outlook, llmCalls: nat, ghost start: Meter,
      ghost calls: seq<Call>)
      returns (total: nat, ghost made: seq<Call>)
      requires i < |passed| && Requested(start, passed[..i], view, llmCalls, calls)
      modifies this
      ensures Requested(start, passed[..i + 1], view, total, made)
    {
      AskedSnoc(passed, i, view);
      total, made := NoteAnswer(view(passed[i]), llmCalls, start, calls);
    }

    /** The gates after the model; each candidate the model answered for is tracked as one call. */
    method PostVeto(passed: seq<Candidate>, view: Candidate -> Outlook)
      returns (approved: seq<Candidate>, skips: seq<Skip>, llmCalls: nat, ghost calls: seq<Call>)
      requires OnTime() && llmCallsDate.Some? && llmCallsDate.value <= clock(ticks)
      requires NotBefore(Snapshot(), clock(ticks))
      requires forall c :: c in passed ==> BeforeVeto(view(c)).None?
      modifies this
      ensures Reviewed(passed, |passed|, view, cfg.mode, approved, skips)
      ensures Requested(old(Snapshot()), passed, view, llmCalls, calls)
    {
      approved, skips, llmCalls, calls := [], [], 0, [];
      for i := 0 to |passed|
        invariant Reviewed(passed, i, view, cfg.mode, approved, skips)
        invariant Requested(old(Snapshot()), passed[..i], view, llmCalls, calls)
      {
        llmCalls, calls := RequestOne(passed, i, view, llmCalls, old(Snapshot()), calls);
        OneReviewed(passed, i, view, cfg.mode, approved, skips);
        var refusal := AfterVeto(view(passed[i]));
        if refusal.Some? {
          skips := skips + [Skip(passed[i], refusal.value)];
        } else {
          approved := approved + [passed[i]];
        }
      }
      assert passed[..|passed|] == passed;
    }

    /** The meter after a cycle that got as far as the caps. */
    ghost predicate Closed(start: Meter, c: MeteredCycle)
      reads this
    {
      OnTime() && Allowed(start, c, cfg.maxCallsPerDay, hasStore) && Snapshot() == AfterCycle(start, c, hasStore) &&
      NotBefore(Snapshot(), clock(ticks))
    }

    lemma ClosedIsValid(start: Meter, c: MeteredCycle)
      requires Sound(start, cfg.maxCallsPerDay, base, hasStore) && Closed(start, c) && llmCallsDate.Some?
      ensures Valid()
    {
      CycleKeeps(start, c, cfg.maxCallsPerDay, base, hasStore);
    }

    /** Load the count and apply the caps; the meter is open for as many calls as candidates were kept. */
    method OpenCycle(candidates: seq<Candidate>) returns (kept: seq<Candidate>, skips: seq<Skip>, ghost c: MeteredCycle)
      requires Valid() && candidates != []
      modifies this
      ensures OnTime() && llmCallsDate == Some(c.checkedOn) && c.checkedOn <= clock(ticks) && c.calls == []
      ensures Snapshot() == Opened(old(Snapshot()), c, hasStore)
      ensures Allowed(old(Snapshot()), c, cfg.maxCallsPerDay, hasStore) && NotBefore(Snapshot(), clock(ticks))
      ensures Capped(cfg, llmCallsToday, candidates, kept, skips)
    {
      c := MeteredCycle(clock(ticks), storeReads(ticks), clock(ticks + 1), []);
      LoadLLMUsage();
      kept, skips := ApplyLLMCaps(candidates);
      assert c.loadedOn <= c.checkedOn <= clock(ticks);
    }

    /** The phases after the caps. */
    method Process(input: CycleInput, kept: seq<Candidate>, caps: seq<Skip>, ghost callsToday: int)
      returns (executed: seq<Candidate>, skips: seq<Skip>, llmCalls: nat, ghost calls: seq<Call>)
      requires OnTime() && llmCallsDate.Some? && llmCallsDate.value <= clock(ticks)
      requires NotBefore(Snapshot(), clock(ticks))
      requires Capped(cfg, callsToday, input.candidates, kept, caps)
      modifies this
      ensures Settlement(cfg, input, executed, skips) && LimitsMet(cfg, callsToday, input, executed, skips)
      ensures Metered(old(Snapshot()), calls) && llmCalls == AnsweredIn(calls)
      ensures cfg.maxCallsPerDay > 0 ==> |calls| <= CapOf(cfg, callsToday, CallCapPerDay)
    {
      var passed, early, _ := PreVeto(cfg, kept, input.view);
      var approved, middle;
      approved, middle, llmCalls, calls := PostVeto(passed, input.view);
      var late;
      executed, late := Execute(cfg, approved, input.view, input.anyRanging);
      CycleSettles(cfg, callsToday, input, kept, caps, passed, early, approved, middle, executed, late);
      CycleMeetsLimits(cfg, callsToday, input, kept, caps, passed, early, approved, middle, executed, late);
      AskedFit(cfg, callsToday, input, kept, caps, passed, early, calls);
      skips := caps + early + middle + late;
    }

    /** One cycle, from the checks before any candidate is looked at to the executed ones. */
    method RunOnce(input: CycleInput)
      returns (result: CycleResult, ghost executed: seq<Candidate>, ghost c: MeteredCycle)
      requires Valid()
      modifies this
      ensures Valid()
      ensures EarlyEnding(input).Some? ==>
                result == CycleResult(EarlyEnding(input).value, 0, [], 0, 0) && Snapshot() == old(Snapshot())
      ensures result.ending.BotHalted? <==> input.halted
      ensures result.ending.CycleComplete? <==>
                !input.halted && input.screened && !input.btcStaleCritical && input.candidates != [] &&
                (cfg.mode.Paper? ==> input.paperStateAvailable)
      ensures EarlyEnding(input).None? ==> Closed(old(Snapshot()), c) && AnsweredIn(c.calls) == result.llmCalls
      ensures EarlyEnding(input).None? ==>
                result.candidates == |input.candidates| && result.executions == |executed| &&
                result.ending == if cfg.mode.Paper? && !input.paperStateAvailable then PaperStateUnavailable
                    else CycleComplete
      ensures result.ending.PaperStateUnavailable? ==> result.executions == 0 && result.llmCalls == 0
      ensures result.ending.CycleComplete? ==> Settlement(cfg, input, executed, result.skips)
      ensures result.ending.CycleComplete? ==>
                LimitsMet(cfg, Opened(old(Snapshot()), c, hasStore).callsToday, input, executed, result.skips)
    {
      executed, c := [], MeteredCycle(0, true, 0, []);
      if input.halted {
        return CycleResult(BotHalted, 0, [], 0, 0), [], c;
      }
      if !input.screened {
        return CycleResult(ScreenFailed, 0, [], 0, 0), [], c;
      }
      if input.btcStaleCritical {
        return CycleResult(BtcStaleCritical, 0, [], 0, 0), [], c;
      }
      if input.candidates == [] {
        return CycleResult(NoCandidate, 0, [], 0, 0), [], c;
      }
      result, executed, c := RunScreened(input);
    }

    /** The cycle once there are candidates. */
    method RunScreened(input: CycleInput)
      returns (result: CycleResult, ghost executed: seq<Candidate>, ghost c: MeteredCycle)
      requires Valid() && input.candidates != []
      modifies this
      ensures Valid()
      ensures result.candidates == |input.candidates| && result.executions == |executed|
      ensures result.ending == if cfg.mode.Paper? && !input.paperStateAvailable then PaperStateUnavailable
                else CycleComplete
      ensures result.ending.PaperStateUnavailable? ==> result.executions == 0 && result.llmCalls == 0
      ensures Closed(old(Snapshot()), c) && AnsweredIn(c.calls) == result.llmCalls
      ensures result.ending.CycleComplete? ==> Settlement(cfg, input, executed, result.skips)
      ensures result.ending.CycleComplete? ==>
                LimitsMet(cfg, Opened(old(Snapshot()), c, hasStore).callsToday, input, executed, result.skips)
    {
      var kept, capSkips;
      kept, capSkips, c := OpenCycle(input.candidates);
      ghost var start := Snapshot();
      if cfg.mode.Paper? && !input.paperStateAvailable {
        ClosedIsValid(old(Snapshot()), c);
        return CycleResult(PaperStateUnavailable, |input.candidates|, capSkips, 0, 0), [], c;
      }
      ghost var calls;
      var done, skips, llmCalls;
      done, skips, llmCalls, calls := Process(input, kept, capSkips, start.callsToday);
      executed, c := done, c.(calls := calls);
      ClosedIsValid(old(Snapshot()), c);
      result := CycleResult(CycleComplete, |input.candidates|, skips, |done|, llmCalls);
    }
  }
}
