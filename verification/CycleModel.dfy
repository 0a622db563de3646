/** What one scheduler cycle decides about a candidate, and the count of model calls kept for each day. */
module CycleModel {
  import opened Domain

  datatype Candidate = Candidate(id: nat, symbol: string, candidateScore: real)

  datatype Route = RejectPreLLM | SkipLLM | VetoRequired

  /** The answers the cycle gets about a candidate from the components around it. */
  datatype Outlook = Outlook(
    hasContext: bool,
    hardBlocked: bool,
    route: Route,
    vetoFails: bool,
    vetoBlocks: bool,
    bookUnavailable: bool,
    marketPrice: Option<real>,
    riskApproved: bool,
    reviewRejects: bool,
    planDataComplete: bool,
    planApproved: bool,
    safe: bool,
    delivered: bool)

  datatype Mode = Shadow | Paper | Logged

  datatype Reason =
    | HardCap | CallCapPerCycle | CallCapPerDay
    | NoContext | HardBlock | PreLLMRejected
    | LLMError | LLMBlock | RiskRejected | LLMReviewRejected
    | PortfolioRiskLimit
    | Phase4RiskRejected | ExecutionSafetyFailed | PaperSimFailed | ExecutionFailed

  datatype Skip = Skip(candidate: Candidate, reason: Reason)

  datatype SchedulerConfig = SchedulerConfig(
    hardCapCandidatesPerCycle: int,
    maxCallsPerCycle: int,
    maxCallsPerDay: int,
    maxNewPositionsPerCycle: int,
    reduceNewPositionsWhenRanging: bool,
    mode: Mode)

  /** The gates before the model is asked. */
  function BeforeVeto(o: Outlook): Option<Reason> {
    if !o.hasContext then Some(NoContext)
    else if o.hardBlocked then Some(HardBlock)
    else if o.route.RejectPreLLM? then Some(PreLLMRejected)
    else None
  }

  /** The gates after the model has answered. A candidate that skipped the model has no answer to fail on. */
  function AfterVeto(o: Outlook): Option<Reason> {
    if o.route.VetoRequired? && o.vetoFails then Some(LLMError)
    else if o.route.VetoRequired? && o.vetoBlocks then Some(LLMBlock)
    else if o.bookUnavailable || o.marketPrice.None? || o.marketPrice.value <= 0.0 || !o.riskApproved then
      Some(RiskRejected)
    else if o.reviewRejects then Some(LLMReviewRejected)
    else None
  }

  /** The gates of a candidate that has a place. */
  function AtExecution(o: Outlook, mode: Mode): Option<Reason> {
    if !o.planDataComplete || !o.planApproved then Some(Phase4RiskRejected)
    else if !o.safe then Some(ExecutionSafetyFailed)
    else if mode.Shadow? || o.delivered then None
    else if mode.Paper? then Some(PaperSimFailed)
    else Some(ExecutionFailed)
  }

  /** The first gate a candidate fails, when no cap or limit stops it earlier. */
  function Verdict(o: Outlook, mode: Mode): Option<Reason> {
    if BeforeVeto(o).Some? then BeforeVeto(o)
    else if AfterVeto(o).Some? then AfterVeto(o)
    else AtExecution(o, mode)
  }

  /** The gates in the order a candidate comes to them; caps and places are no gates. */
  function Turn(r: Reason): nat {
    match r
    case NoContext => 0
    case HardBlock => 1
    case PreLLMRejected => 2
    case LLMError => 3
    case LLMBlock => 4
    case RiskRejected => 5
    case LLMReviewRejected => 6
    case Phase4RiskRejected => 7
    case ExecutionSafetyFailed => 8
    case PaperSimFailed => 9
    case ExecutionFailed => 9
    case _ => 10
  }

  /** What each gate stops, whatever the others do. */
  predicate Stops(r: Reason, o: Outlook, mode: Mode) {
    match r
    case NoContext => !o.hasContext
    case HardBlock => o.hardBlocked
    case PreLLMRejected => o.route == RejectPreLLM
    case LLMError => o.route == VetoRequired && o.vetoFails
    case LLMBlock => o.route == VetoRequired && o.vetoBlocks
    case RiskRejected =>
      o.bookUnavailable || !o.riskApproved || !(o.marketPrice.Some? && 0.0 < o.marketPrice.value)
    case LLMReviewRejected => o.reviewRejects
    case Phase4RiskRejected => !(o.planDataComplete && o.planApproved)
    case ExecutionSafetyFailed => !o.safe
    case PaperSimFailed => mode.Paper? && !o.delivered
    case ExecutionFailed => mode.Logged? && !o.delivered
    case _ => false
  }

  /** No gate whose turn is from `from` up to `to` stops it. */
  ghost predicate Open(from: nat, to: nat, o: Outlook, mode: Mode) {
    forall r :: from <= Turn(r) < to ==> !Stops(r, o, mode)
  }

  lemma OpenSplit(from: nat, middle: nat, to: nat, o: Outlook, mode: Mode)
    requires from <= middle <= to
    ensures Open(from, to, o, mode) <==> Open(from, middle, o, mode) && Open(middle, to, o, mode)
  {
  }

  /** The first three gates stand before the model. */
  lemma EarlyGates(o: Outlook, mode: Mode, r: Reason)
    requires Turn(r) < 3
    ensures BeforeVeto(o) == Some(r) <==> Stops(r, o, mode) && Open(0, Turn(r), o, mode)
    ensures BeforeVeto(o).None? <==> Open(0, 3, o, mode)
  {
    assert Turn(NoContext) == 0 && Turn(HardBlock) == 1 && Turn(PreLLMRejected) == 2;
  }

  /** The next four stand before the portfolio. */
  lemma MiddleGates(o: Outlook, mode: Mode, r: Reason)
    requires 3 <= Turn(r) < 7
    ensures AfterVeto(o) == Some(r) <==> Stops(r, o, mode) && Open(3, Turn(r), o, mode)
    ensures AfterVeto(o).None? <==> Open(3, 7, o, mode)
  {
    assert Turn(LLMError) == 3 && Turn(LLMBlock) == 4 && Turn(RiskRejected) == 5 && Turn(LLMReviewRejected) == 6;
  }

  /** The others stand at the execution of a candidate that has a place. */
  lemma LateGates(o: Outlook, mode: Mode, r: Reason)
    requires 7 <= Turn(r) < 10
    ensures AtExecution(o, mode) == Some(r) <==> Stops(r, o, mode) && Open(7, Turn(r), o, mode)
    ensures AtExecution(o, mode).None? <==> Open(7, 10, o, mode)
  {
    assert Turn(Phase4RiskRejected) == 7 && Turn(ExecutionSafetyFailed) == 8;
    assert Turn(PaperSimFailed) == 9 == Turn(ExecutionFailed);
  }

  lemma PassedEarly(o: Outlook, mode: Mode)
    ensures BeforeVeto(o).None? <==> Open(0, 3, o, mode)
  {
    EarlyGates(o, mode, NoContext);
  }

  lemma PassedMiddle(o: Outlook, mode: Mode)
    ensures BeforeVeto(o).None? && AfterVeto(o).None? <==> Open(0, 7, o, mode)
  {
    PassedEarly(o, mode);
    MiddleGates(o, mode, LLMError);
    OpenSplit(0, 3, 7, o, mode);
  }

  lemma MiddleVerdict(o: Outlook, mode: Mode, r: Reason)
    requires 3 <= Turn(r) < 7
    ensures Verdict(o, mode) == Some(r) <==> Stops(r, o, mode) && Open(0, Turn(r), o, mode)
  {
    PassedEarly(o, mode);
    MiddleGates(o, mode, r);
    OpenSplit(0, 3, Turn(r), o, mode);
  }

  lemma LateVerdict(o: Outlook, mode: Mode, r: Reason)
    requires 7 <= Turn(r) < 10
    ensures Verdict(o, mode) == Some(r) <==> Stops(r, o, mode) && Open(0, Turn(r), o, mode)
  {
    PassedMiddle(o, mode);
    LateGates(o, mode, r);
    OpenSplit(0, 7, Turn(r), o, mode);
  }

  /** A candidate leaves at a gate exactly when that stops it and none before does. */
  lemma VerdictIsFirstStop(o: Outlook, mode: Mode, r: Reason)
    requires Turn(r) < 10
    ensures Verdict(o, mode) == Some(r) <==> Stops(r, o, mode) && Open(0, Turn(r), o, mode)
  {
    if Turn(r) < 3 {
      EarlyGates(o, mode, r);
    } else if Turn(r) < 7 {
      MiddleVerdict(o, mode, r);
    } else {
      LateVerdict(o, mode, r);
    }
  }

  /** Reasons that depend on the other candidates of the cycle. */
  predicate IsLimit(r: Reason) {
    r.HardCap? || r.CallCapPerCycle? || r.CallCapPerDay? || r.PortfolioRiskLimit?
  }

  /** Reasons given before the model is asked, after it has answered, and once the portfolio is ranked. */
  predicate IsEarly(r: Reason) {
    r.NoContext? || r.HardBlock? || r.PreLLMRejected? || r.CallCapPerCycle?
  }

  predicate IsMiddle(r: Reason) {
    r.LLMError? || r.LLMBlock? || r.RiskRejected? || r.LLMReviewRejected?
  }

  predicate IsLate(r: Reason) {
    r.PortfolioRiskLimit? || r.Phase4RiskRejected? || r.ExecutionSafetyFailed? || r.PaperSimFailed? ||
        r.ExecutionFailed?
  }

  predicate IsCap(r: Reason) {
    r.HardCap? || r.CallCapPerCycle? || r.CallCapPerDay?
  }

  predicate IsPlaceLimit(r: Reason) {
    r.PortfolioRiskLimit?
  }

  /** How many skips have a reason of kind `p`. */
  function Number(skips: seq<Skip>, p: Reason -> bool): (n: nat)
    ensures n <= |skips|
  {
    if skips == [] then 0
    else Number(skips[..|skips| - 1], p) + if p(skips[|skips| - 1].reason) then 1 else 0
  }

  lemma {:induction false} NumberJoin(a: seq<Skip>, b: seq<Skip>, p: Reason -> bool)
    ensures Number(a + b, p) == Number(a, p) + Number(b, p)
    decreases |b|
  {
    if b == [] {
      assert a + b == a;
    } else {
      var front := b[..|b| - 1];
      assert (a + b)[..|a + b| - 1] == a + front;
      NumberJoin(a, front, p);
    }
  }

  lemma NumberAppend(skips: seq<Skip>, s: Skip, p: Reason -> bool)
    ensures Number(skips + [s], p) == Number(skips, p) + if p(s.reason) then 1 else 0
  {
  }

  lemma {:induction false} NumberOfKind(skips: seq<Skip>, p: Reason -> bool, every: bool)
    requires forall i :: 0 <= i < |skips| ==> p(skips[i].reason) == every
    ensures Number(skips, p) == if every then |skips| else 0
    decreases |skips|
  {
    if skips != [] {
      NumberOfKind(skips[..|skips| - 1], p, every);
    }
  }

  function Names(skips: seq<Skip>): (names: seq<Candidate>)
    ensures |names| == |skips|
    ensures forall i :: 0 <= i < |skips| ==> names[i] == skips[i].candidate
  {
    seq(|skips|, i requires 0 <= i < |skips| => skips[i].candidate)
  }

  lemma NamesJoin(a: seq<Skip>, b: seq<Skip>)
    ensures Names(a + b) == Names(a) + Names(b)
  {
  }

  /** Nobody is lost and nobody leaves twice. */
  ghost predicate Accounted(all: seq<Candidate>, stayed: seq<Candidate>, skips: seq<Skip>) {
    multiset(all) == multiset(stayed) + multiset(Names(skips))
  }

  lemma StaysOn(all: seq<Candidate>, stayed: seq<Candidate>, skips: seq<Skip>, c: Candidate)
    requires Accounted(all, stayed, skips)
    ensures Accounted(all + [c], stayed + [c], skips)
  {
  }

  lemma Leaves(all: seq<Candidate>, stayed: seq<Candidate>, skips: seq<Skip>, c: Candidate, r: Reason)
    requires Accounted(all, stayed, skips)
    ensures Accounted(all + [c], stayed, skips + [Skip(c, r)])
  {
    NamesJoin(skips, [Skip(c, r)]);
    assert Names([Skip(c, r)]) == [c];
  }

  /** Two phases in a row account for everyone when each does. */
  lemma InSuccession(
    all: seq<Candidate>, middle: seq<Candidate>, last: seq<Candidate>, first: seq<Skip>, second: seq<Skip>)
    requires Accounted(all, middle, first) && Accounted(middle, last, second)
    ensures Accounted(all, last, first + second)
  {
    NamesJoin(first, second);
  }

  lemma AccountedCount(all: seq<Candidate>, stayed: seq<Candidate>, skips: seq<Skip>)
    requires Accounted(all, stayed, skips)
    ensures |all| == |stayed| + |skips|
  {
    assert |multiset(all)| == |all|;
    assert |multiset(stayed) + multiset(Names(skips))| == |stayed| + |skips|;
  }

  /** How many new positions a cycle may open when `waiting` candidates are approved. */
  function NewPositionCap(cfg: SchedulerConfig, ranging: bool, waiting: nat): (cap: nat)
    ensures cfg.maxNewPositionsPerCycle > 0 ==> 1 <= cap <= cfg.maxNewPositionsPerCycle
    ensures var limit := if cfg.maxNewPositionsPerCycle > 0 then cfg.maxNewPositionsPerCycle else waiting;
            if ranging && cfg.reduceNewPositionsWhenRanging
            then cap + 1 == limit || (cap == 1 && limit <= 1) else cap == limit
  {
    var maxNew := if cfg.maxNewPositionsPerCycle <= 0 then waiting else cfg.maxNewPositionsPerCycle;
    if !ranging || !cfg.reduceNewPositionsWhenRanging then maxNew
    else if maxNew - 1 < 1 then 1
    else maxNew - 1
  }

  /** How many of `waiting` find no place. */
  function Beyond(cap: nat, waiting: nat): nat {
    if waiting <= cap then 0 else waiting - cap
  }

  function CandidateScore(): Candidate -> real {
    (c: Candidate) => c.candidateScore
  }

  // ---- a ranking that leaves equals in their order ----

  function Filed(ranked: seq<Candidate>, c: Candidate): seq<Candidate> {
    if ranked == [] || ranked[|ranked| - 1].candidateScore >= c.candidateScore then ranked + [c]
    else Filed(ranked[..|ranked| - 1], c) + [ranked[|ranked| - 1]]
  }

  function StableRank(items: seq<Candidate>): seq<Candidate> {
    if items == [] then [] else Filed(StableRank(items[..|items| - 1]), items[|items| - 1])
  }

  ghost predicate Descending(s: seq<Candidate>) {
    forall i, j :: 0 <= i < j < |s| ==> s[i].candidateScore >= s[j].candidateScore
  }

  /** Those that score exactly `score`, in order. */
  function Equals(s: seq<Candidate>, score: real): seq<Candidate> {
    if s == [] then []
    else Equals(s[..|s| - 1], score) + if s[|s| - 1].candidateScore == score then [s[|s| - 1]] else []
  }

  lemma {:induction false} FiledHolds(ranked: seq<Candidate>, c: Candidate)
    ensures multiset(Filed(ranked, c)) == multiset(ranked) + multiset{c}
    decreases |ranked|
  {
    if ranked != [] && ranked[|ranked| - 1].candidateScore < c.candidateScore {
      FiledHolds(ranked[..|ranked| - 1], c);
      assert ranked == ranked[..|ranked| - 1] + [ranked[|ranked| - 1]];
    }
  }

  lemma {:induction false} FiledDescends(ranked: seq<Candidate>, c: Candidate)
    requires Descending(ranked)
    ensures Descending(Filed(ranked, c))
    decreases |ranked|
  {
    if ranked != [] && ranked[|ranked| - 1].candidateScore < c.candidateScore {
      var front, back := ranked[..|ranked| - 1], ranked[|ranked| - 1];
      FiledDescends(front, c);
      FiledHolds(front, c);
      LowestLast(Filed(front, c), front, c, back);
    }
  }

  lemma LowestLast(filed: seq<Candidate>, front: seq<Candidate>, c: Candidate, back: Candidate)
    requires Descending(filed) && multiset(filed) == multiset(front) + multiset{c}
    requires c.candidateScore >= back.candidateScore
    requires forall x :: x in front ==> x.candidateScore >= back.candidateScore
    ensures Descending(filed + [back])
  {
    forall i | 0 <= i < |filed| ensures filed[i].candidateScore >= back.candidateScore {
      assert filed[i] in multiset(filed);
      assert filed[i] == c || filed[i] in front;
    }
  }

  lemma EqualsLast(s: seq<Candidate>, c: Candidate, score: real)
    ensures Equals(s + [c], score) == Equals(s, score) + if c.candidateScore == score then [c] else []
  {
  }

  lemma {:induction false} FiledIsStable(ranked: seq<Candidate>, c: Candidate, score: real)
    ensures Equals(Filed(ranked, c), score) == Equals(ranked, score) + if c.candidateScore == score then [c] else []
    decreases |ranked|
  {
    if ranked == [] || ranked[|ranked| - 1].candidateScore >= c.candidateScore {
      EqualsLast(ranked, c, score);
    } else {
      var front, back := ranked[..|ranked| - 1], ranked[|ranked| - 1];
      FiledIsStable(front, c, score);
      EqualsLast(Filed(front, c), back, score);
    }
  }

  lemma {:induction false} StableRankHolds(items: seq<Candidate>)
    ensures Descending(StableRank(items)) && multiset(StableRank(items)) == multiset(items)
    decreases |items|
  {
    if items != [] {
      var front, back := items[..|items| - 1], items[|items| - 1];
      StableRankHolds(front);
      FiledDescends(StableRank(front), back);
      FiledHolds(StableRank(front), back);
      assert items == front + [back];
    }
  }

  /** A permutation in descending order that leaves candidates of equal score as they were. */
  lemma {:induction false} StableRankIsStable(items: seq<Candidate>, score: real)
    ensures Descending(StableRank(items)) && multiset(StableRank(items)) == multiset(items)
    ensures Equals(StableRank(items), score) == Equals(items, score)
    decreases |items|
  {
    StableRankHolds(items);
    if items != [] {
      var front, back := items[..|items| - 1], items[|items| - 1];
      StableRankIsStable(front, score);
      FiledIsStable(StableRank(front), back, score);
    }
  }
}
