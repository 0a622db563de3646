/**
 Every interleaving of fills and checks keeps the account exact, and closes a trade again only when the repository lost
 its close.
 */
module SimulatorLaws {
  import opened Domain
  import opened Rounding
  import opened SimulatorModel

  // ---------------------------------------------------------------- what may be logged

  /** Filled, not closed since, and not known to be missing in the repository. */
  predicate Awaited(log: seq<Event>, id: nat) {
    id in FilledIds(log) && id !in Gone(log) && id !in Missing(log)
  }

  /** A close concerns no trade that is gone or missing, and knows whether its trade was filled in this session. */
  predicate MayFollow(log: seq<Event>, e: Event) {
    match e
    case Filled(id, _) => id !in Mentioned(log)
    case Closed(id, _, session) => id !in Gone(log) && id !in Missing(log) && (session <==> id in FilledIds(log))
    case NotInserted(id) => Awaited(log, id)
    case NotRecorded(id, session) => id in Gone(log) && (session <==> id in FilledIds(log))
  }

  predicate LogOk(log: seq<Event>)
    decreases |log|
  {
    log == [] || (LogOk(log[..|log| - 1]) && MayFollow(log[..|log| - 1], log[|log| - 1]))
  }

  lemma LogSnoc(log: seq<Event>, e: Event)
    ensures Mentioned(log + [e]) == Mentioned(log) + {e.id}
    ensures FilledIds(log + [e]) == FilledIds(log) + if e.Filled? then {e.id} else {}
    ensures Missing(log + [e]) == Missing(log) + if e.NotInserted? then {e.id} else {}
    ensures Gone(log + [e]) == if e.Closed? then Gone(log) + {e.id}
                               else if e.NotRecorded? then Gone(log) - {e.id}
                               else Gone(log)
    ensures LogOk(log + [e]) <==> LogOk(log) && MayFollow(log, e)
  {
    assert (log + [e])[..|log|] == log;
  }

  lemma {:induction false} AllMentioned(log: seq<Event>)
    ensures FilledIds(log) <= Mentioned(log) && Missing(log) <= Mentioned(log) && Gone(log) <= Mentioned(log)
    decreases |log|
  {
    if log != [] {
      AllMentioned(log[..|log| - 1]);
    }
  }

  // ---------------------------------------------------------------- who may close what

  predicate Holds(pc: Pc) {
    pc.Locked? || pc.Sweeping? || pc.Recording?
  }

  /** Trades still to be looked at are in the repository, each once. */
  predicate Todo(repo: map<nat, Trade>, todo: seq<Trade>) {
    (forall i :: 0 <= i < |todo| ==> todo[i].id in repo && repo[todo[i].id] == todo[i]) &&
    (forall i, j :: 0 <= i < j < |todo| ==> todo[i].id != todo[j].id)
  }

  ghost predicate ThreadOk(s: Sim, t: Thread) {
    match At(s, t)
    case Idle => true
    case Locked => s.lock == Some(t)
    case Sweeping(todo) => s.lock == Some(t) && Todo(s.repo, todo)
    case Recording(trade, todo) =>
      s.lock == Some(t) && Todo(s.repo, [trade] + todo) && trade.id in Gone(s.log)
    case Inserting(trade) => trade.id !in s.repo && Awaited(s.log, trade.id) && OfSession(s, trade)
  }

  /** The one trade that is closed in the account and still open in the repository. */
  predicate BeingRecorded(s: Sim, id: nat) {
    s.lock.Some? && At(s, s.lock.value).Recording? && At(s, s.lock.value).trade.id == id
  }

  ghost predicate Inserted(s: Sim, id: nat) {
    exists t :: At(s, t).Inserting? && At(s, t).trade.id == id
  }

  ghost predicate ThreadsOk(s: Sim) {
    (forall t :: ThreadOk(s, t)) &&
    (forall t, u :: At(s, t).Inserting? && At(s, u).Inserting? && t != u ==> At(s, t).trade.id != At(s, u).trade.id)
  }

  ghost predicate RepoOk(s: Sim) {
    (forall id :: id in s.repo ==>
       s.repo[id].id == id && (OfSession(s, s.repo[id]) <==> id in FilledIds(s.log)) && id !in Missing(s.log)) &&
    (forall id :: id in s.repo && id in Gone(s.log) ==> BeingRecorded(s, id)) &&
    (forall id :: Awaited(s.log, id) ==> id in s.repo || Inserted(s, id))
  }

  ghost predicate Safe(s: Sim) {
    ThreadsOk(s) && RepoOk(s) && LogOk(s.log)
  }

  // ---------------------------------------------------------------- one step

  /** A step changes the program counter of its own thread only. */
  ghost predicate Moves(s: Sim, n: Sim, t: Thread) {
    n.initializedAt == s.initializedAt && t in n.pcs && n.pcs == s.pcs[t := n.pcs[t]]
  }

  lemma OthersStay(s: Sim, n: Sim, t: Thread, u: Thread)
    requires Moves(s, n, t) && u != t
    ensures At(n, u) == At(s, u)
  {
  }

  /** The other threads stay in order as long as what they rely on is kept. */
  lemma ThreadsStep(s: Sim, n: Sim, t: Thread)
    requires ThreadsOk(s) && Moves(s, n, t) && ThreadOk(n, t)
    requires forall u :: u != t && ThreadOk(s, u) && At(n, u) == At(s, u) ==> ThreadOk(n, u)
    requires At(n, t).Inserting? ==> At(n, t).trade.id !in FilledIds(s.log)
    ensures ThreadsOk(n)
  {
    forall u
      ensures ThreadOk(n, u)
    {
      assert ThreadOk(s, u);
      if u != t {
        OthersStay(s, n, t, u);
      }
    }
    forall u, v | At(n, u).Inserting? && At(n, v).Inserting? && u != v
      ensures At(n, u).trade.id != At(n, v).trade.id
    {
      assert ThreadOk(s, u) && ThreadOk(s, v);
      if u != t {
        OthersStay(s, n, t, u);
      }
      if v != t {
        OthersStay(s, n, t, v);
      }
    }
  }

  lemma InsertedStays(s: Sim, n: Sim, t: Thread, id: nat)
    requires Moves(s, n, t) && Inserted(s, id)
    requires !(At(s, t).Inserting? && At(s, t).trade.id == id)
    ensures Inserted(n, id)
  {
    var u :| At(s, u).Inserting? && At(s, u).trade.id == id;
    OthersStay(s, n, t, u);
    assert At(n, u).Inserting?;
  }

  /** Awaited trades stay accounted for when none is taken out unclosed. */
  lemma AwaitedStay(s: Sim, n: Sim, t: Thread)
    requires RepoOk(s) && Moves(s, n, t)
    requires forall id :: id in s.repo ==> id in n.repo || id in Gone(n.log)
    requires At(s, t).Inserting? ==> At(s, t).trade.id in n.repo || At(s, t).trade.id in Missing(n.log)
    requires forall id :: id in FilledIds(n.log) && id !in FilledIds(s.log) ==> Inserted(n, id)
    requires forall id :: id in Gone(s.log) && id !in Gone(n.log) ==> id in n.repo
    requires Missing(s.log) <= Missing(n.log)
    ensures forall id :: Awaited(n.log, id) ==> id in n.repo || Inserted(n, id)
  {
    forall id | Awaited(n.log, id) && id !in n.repo
      ensures Inserted(n, id)
    {
      if id in FilledIds(s.log) {
        InsertedStays(s, n, t, id);
      }
    }
  }

  lemma BeginFillSafe(cfg: SimConfig, s: Sim, t: Thread, trade: Trade, fee: real)
    requires Safe(s) && Enabled(cfg, s, BeginFill(t, trade, fee))
    ensures Safe(Next(cfg, s, BeginFill(t, trade, fee)))
  {
    var n := Next(cfg, s, BeginFill(t, trade, fee));
    LogSnoc(s.log, Event.Filled(trade.id, fee));
    AllMentioned(s.log);
    assert At(n, t) == Inserting(trade);
    ThreadsStep(s, n, t);
    AwaitedStay(s, n, t);
  }

  lemma InsertSafe(cfg: SimConfig, s: Sim, t: Thread)
    requires Safe(s) && Enabled(cfg, s, Insert(t))
    ensures Safe(Next(cfg, s, Insert(t)))
  {
    var n := Next(cfg, s, Insert(t));
    assert ThreadOk(s, t);
    assert forall u :: u != t && At(s, u).Inserting? ==> At(s, u).trade.id != At(s, t).trade.id;
    ThreadsStep(s, n, t);
    AwaitedStay(s, n, t);
  }

  lemma LoseInsertSafe(cfg: SimConfig, s: Sim, t: Thread)
    requires Safe(s) && Enabled(cfg, s, LoseInsert(t))
    ensures Safe(Next(cfg, s, LoseInsert(t)))
  {
    var n := Next(cfg, s, LoseInsert(t));
    assert ThreadOk(s, t);
    LogSnoc(s.log, NotInserted(At(s, t).trade.id));
    assert forall u :: u != t && At(s, u).Inserting? ==> At(s, u).trade.id != At(s, t).trade.id;
    ThreadsStep(s, n, t);
    AwaitedStay(s, n, t);
  }

  /** Steps of the lock holder that touch neither log nor repository. */
  lemma QuietStepSafe(s: Sim, n: Sim, t: Thread)
    requires Safe(s) && n.repo == s.repo && n.log == s.log && Moves(s, n, t)
    requires !At(s, t).Inserting? && !At(s, t).Recording? && !At(n, t).Inserting?
    requires ThreadOk(n, t) && (n.lock == s.lock || s.lock == None || s.lock == Some(t))
    requires s.lock == Some(t) || (s.lock == None && n.lock == Some(t))
    ensures Safe(n)
  {
    assert forall u :: u != t && ThreadOk(s, u) ==> !Holds(At(s, u));
    ThreadsStep(s, n, t);
    AwaitedStay(s, n, t);
    assert forall id :: !BeingRecorded(s, id);
  }

  lemma CloseSafe(cfg: SimConfig, s: Sim, t: Thread, price: real)
    requires Safe(s) && Enabled(cfg, s, Close(t, price))
    ensures Safe(Next(cfg, s, Close(t, price)))
  {
    var n := Next(cfg, s, Close(t, price));
    var todo := At(s, t).todo;
    assert ThreadOk(s, t) && !BeingRecorded(s, todo[0].id);
    LogSnoc(s.log, n.log[|s.log|]);
    assert [todo[0]] + todo[1..] == todo;
    assert forall u :: u != t && ThreadOk(s, u) ==> !Holds(At(s, u));
    ThreadsStep(s, n, t);
    AwaitedStay(s, n, t);
    assert forall id :: !BeingRecorded(s, id);
    assert BeingRecorded(n, todo[0].id);
  }

  lemma TodoDrop(repo: map<nat, Trade>, trade: Trade, todo: seq<Trade>)
    requires Todo(repo, [trade] + todo)
    ensures trade.id in repo && repo[trade.id] == trade && Todo(repo, todo) && Todo(repo - {trade.id}, todo)
  {
    var all := [trade] + todo;
    assert all[0] == trade;
    forall i | 0 <= i < |todo|
      ensures todo[i].id in repo - {trade.id} && repo[todo[i].id] == todo[i]
    {
      assert todo[i] == all[i + 1] && all[0].id != all[i + 1].id;
    }
    forall i, j | 0 <= i < j < |todo|
      ensures todo[i].id != todo[j].id
    {
      assert todo[i] == all[i + 1] && todo[j] == all[j + 1];
    }
  }

  lemma RecordSafe(cfg: SimConfig, s: Sim, t: Thread)
    requires Safe(s) && Enabled(cfg, s, Record(t))
    ensures Safe(Next(cfg, s, Record(t)))
  {
    var n := Next(cfg, s, Record(t));
    var trade, todo := At(s, t).trade, At(s, t).todo;
    assert ThreadOk(s, t);
    TodoDrop(s.repo, trade, todo);
    assert forall u :: u != t && ThreadOk(s, u) ==> !Holds(At(s, u));
    ThreadsStep(s, n, t);
    AwaitedStay(s, n, t);
    assert forall id :: id in n.repo && id in Gone(n.log) ==> !BeingRecorded(s, id);
  }

  lemma LoseRecordSafe(cfg: SimConfig, s: Sim, t: Thread)
    requires Safe(s) && Enabled(cfg, s, LoseRecord(t))
    ensures Safe(Next(cfg, s, LoseRecord(t)))
  {
    var n := Next(cfg, s, LoseRecord(t));
    var trade, todo := At(s, t).trade, At(s, t).todo;
    assert ThreadOk(s, t);
    TodoDrop(s.repo, trade, todo);
    LogSnoc(s.log, n.log[|s.log|]);
    assert forall u :: u != t && ThreadOk(s, u) ==> !Holds(At(s, u));
    ThreadsStep(s, n, t);
    AwaitedStay(s, n, t);
    assert forall id :: id in n.repo && id in Gone(n.log) ==> !BeingRecorded(s, id);
  }

  lemma StepSafe(cfg: SimConfig, s: Sim, a: Action)
    requires Safe(s) && Enabled(cfg, s, a)
    ensures Safe(Next(cfg, s, a))
  {
    var n := Next(cfg, s, a);
    match a
    case BeginFill(t, trade, fee) => BeginFillSafe(cfg, s, t, trade, fee);
    case Insert(t) => InsertSafe(cfg, s, t);
    case LoseInsert(t) => LoseInsertSafe(cfg, s, t);
    case Acquire(t) => QuietStepSafe(s, n, t);
    case ReadOpen(t, listing) => assert ThreadOk(s, t); QuietStepSafe(s, n, t);
    case Skip(t) => assert ThreadOk(s, t); QuietStepSafe(s, n, t);
    case Close(t, price) => CloseSafe(cfg, s, t, price);
    case Record(t) => RecordSafe(cfg, s, t);
    case LoseRecord(t) => LoseRecordSafe(cfg, s, t);
    case Release(t) => assert ThreadOk(s, t); QuietStepSafe(s, n, t);
  }

  // ---------------------------------------------------------------- the account against the log

  function FeesPaid(log: seq<Event>): real
    decreases |log|
  {
    if log == [] then 0.0 else FeesPaid(log[..|log| - 1]) + if log[|log| - 1].Filled? then log[|log| - 1].fee else 0.0
  }

  function NetRealized(log: seq<Event>): real
    decreases |log|
  {
    if log == [] then 0.0 else NetRealized(log[..|log| - 1]) + if log[|log| - 1].Closed? then log[|log| - 1].net
    else 0.0
  }

  predicate SessionClose(e: Event) {
    e.Closed? && e.session
  }

  predicate Win(e: Event) {
    SessionClose(e) && e.net > 0.0
  }

  /** Closes that were counted as a win or a loss. */
  function Results(log: seq<Event>): nat
    decreases |log|
  {
    if log == [] then 0 else Results(log[..|log| - 1]) + if SessionClose(log[|log| - 1]) then 1 else 0
  }

  /** Session trades whose close the repository did not record, each time. */
  function Relisted(log: seq<Event>): nat
    decreases |log|
  {
    if log == [] then 0
    else
      var e := log[|log| - 1];
      Relisted(log[..|log| - 1]) + if e.NotRecorded? && e.session then 1 else 0
  }

  function Wins(log: seq<Event>): nat
    decreases |log|
  {
    if log == [] then 0 else Wins(log[..|log| - 1]) + if Win(log[|log| - 1]) then 1 else 0
  }

  /** The session closes at the end of the log, back to the last win. */
  function TrailingLosses(log: seq<Event>): nat
    decreases |log|
  {
    if log == [] then 0
    else
      var e, rest := log[|log| - 1], log[..|log| - 1];
      if !SessionClose(e) then TrailingLosses(rest) else if Win(e) then 0 else 1 + TrailingLosses(rest)
  }

  predicate AnyWin(log: seq<Event>) {
    exists i :: 0 <= i < |log| && Win(log[i])
  }

  predicate MoneyOk(a0: Account, a: Account, log: seq<Event>) {
    OnGrid(a.equity) && OnGrid(a.realized) &&
    a.realized == a0.realized + NetRealized(log) &&
    a.equity == a0.equity + NetRealized(log) - FeesPaid(log)
  }

  predicate CountsOk(a0: Account, a: Account, log: seq<Event>) {
    a.total == a0.total + |FilledIds(log)| &&
    a.wins == a0.wins + Wins(log) &&
    a.wins + a.losses == a0.wins + a0.losses + Results(log) &&
    a.streak == TrailingLosses(log) + if AnyWin(log) then 0 else a0.streak
  }

  predicate AccountOk(a0: Account, a: Account, log: seq<Event>) {
    MoneyOk(a0, a, log) && CountsOk(a0, a, log)
  }

  lemma AnyWinSnoc(log: seq<Event>, e: Event)
    ensures AnyWin(log + [e]) <==> AnyWin(log) || Win(e)
  {
    var l := log + [e];
    assert l[|log|] == e;
    if AnyWin(log) {
      var i :| 0 <= i < |log| && Win(log[i]);
      assert Win(l[i]);
    }
  }

  lemma SumsSnoc(log: seq<Event>, e: Event)
    ensures FeesPaid(log + [e]) == FeesPaid(log) + if e.Filled? then e.fee else 0.0
    ensures NetRealized(log + [e]) == NetRealized(log) + if e.Closed? then e.net else 0.0
    ensures Wins(log + [e]) == Wins(log) + if Win(e) then 1 else 0
    ensures Results(log + [e]) == Results(log) + if SessionClose(e) then 1 else 0
    ensures TrailingLosses(log + [e]) == if !SessionClose(e) then TrailingLosses(log) else if Win(e) then 0
              else 1 + TrailingLosses(log)
  {
  }

  lemma FillMoney(a0: Account, a: Account, log: seq<Event>, id: nat, fee: real)
    requires MoneyOk(a0, a, log) && OnGrid(fee)
    ensures MoneyOk(a0, RecordFill(a, fee), log + [Event.Filled(id, fee)])
  {
    SumsSnoc(log, Event.Filled(id, fee));
    BookingIsExact(a.equity, fee);
    GridSum(a.equity, fee);
  }

  lemma FillCounts(a0: Account, a: Account, log: seq<Event>, id: nat, fee: real)
    requires CountsOk(a0, a, log) && id !in FilledIds(log)
    ensures CountsOk(a0, RecordFill(a, fee), log + [Event.Filled(id, fee)])
  {
    var e := Event.Filled(id, fee);
    SumsSnoc(log, e);
    LogSnoc(log, e);
    AnyWinSnoc(log, e);
  }

  lemma CloseMoney(a0: Account, a: Account, log: seq<Event>, id: nat, net: real, session: bool)
    requires MoneyOk(a0, a, log) && OnGrid(net)
    ensures MoneyOk(a0, RecordClose(a, net, session), log + [Closed(id, net, session)])
  {
    SumsSnoc(log, Closed(id, net, session));
    BookingIsExact(a.equity, net);
    GridSum(a.equity, net);
    BookingIsExact(a.realized, net);
    GridSum(a.realized, net);
  }

  lemma CloseCounts(a0: Account, a: Account, log: seq<Event>, id: nat, net: real, session: bool)
    requires CountsOk(a0, a, log)
    ensures CountsOk(a0, RecordClose(a, net, session), log + [Closed(id, net, session)])
  {
    var e := Closed(id, net, session);
    SumsSnoc(log, e);
    LogSnoc(log, e);
    AnyWinSnoc(log, e);
  }

  /** A write that fails changes nothing in the account. */
  lemma LostWriteCounts(a0: Account, a: Account, log: seq<Event>, e: Event)
    requires AccountOk(a0, a, log) && (e.NotInserted? || e.NotRecorded?)
    ensures AccountOk(a0, a, log + [e])
  {
    SumsSnoc(log, e);
    LogSnoc(log, e);
    AnyWinSnoc(log, e);
  }

  lemma StepAccount(cfg: SimConfig, a0: Account, s: Sim, a: Action)
    requires Safe(s) && AccountOk(a0, s.account, s.log) && Enabled(cfg, s, a)
    ensures AccountOk(a0, Next(cfg, s, a).account, Next(cfg, s, a).log)
  {
    match a
    case BeginFill(t, trade, fee) =>
      AllMentioned(s.log);
      FillMoney(a0, s.account, s.log, trade.id, fee);
      FillCounts(a0, s.account, s.log, trade.id, fee);
    case Close(t, price) =>
      var trade := At(s, t).todo[0];
      assert ThreadOk(s, t) && !BeingRecorded(s, trade.id);
      var exit := ExitPrice(cfg, trade, price).value;
      RoundedIsOnGrid(GrossPnL(trade, exit) - TakerFee8(cfg, trade.qty, exit));
      CloseMoney(a0, s.account, s.log, trade.id, NetPnL(cfg, trade, exit), OfSession(s, trade));
      CloseCounts(a0, s.account, s.log, trade.id, NetPnL(cfg, trade, exit), OfSession(s, trade));
    case LoseInsert(t) => LostWriteCounts(a0, s.account, s.log, NotInserted(At(s, t).trade.id));
    case LoseRecord(t) =>
      LostWriteCounts(a0, s.account, s.log, NotRecorded(At(s, t).trade.id, OfSession(s, At(s, t).trade)));
    case _ =>
  }

  // ---------------------------------------------------------------- whole runs

  /** After initialization: loaded balances on the grid, loaded trades older than the session, nobody running. */
  ghost predicate Start(s: Sim) {
    OnGrid(s.account.equity) && OnGrid(s.account.realized) && s.lock == None && (forall t :: At(s, t) == Idle) &&
        s.log == [] &&
    forall id :: id in s.repo ==> s.repo[id].id == id && !OfSession(s, s.repo[id])
  }

  lemma StartIsSafe(s: Sim)
    requires Start(s)
    ensures Safe(s) && AccountOk(s.account, s.account, s.log)
  {
  }

  lemma {:induction false} RunSafe(cfg: SimConfig, a0: Account, s: Sim, run: seq<Action>)
    requires Safe(s) && AccountOk(a0, s.account, s.log) && ValidRun(cfg, s, run)
    ensures var n := Exec(cfg, s, run); Safe(n) && AccountOk(a0, n.account, n.log)
    decreases |run|
  {
    if run != [] {
      StepSafe(cfg, s, run[0]);
      StepAccount(cfg, a0, s, run[0]);
      RunSafe(cfg, a0, Next(cfg, s, run[0]), run[1..]);
    }
  }

  /** Trades filled in this session and not closed, or closed and not recorded so. */
  function StillOpenIds(log: seq<Event>): set<nat> {
    FilledIds(log) - Gone(log)
  }

  /** Session trades whose close stands. */
  function ClosedForGood(log: seq<Event>): set<nat> {
    FilledIds(log) * Gone(log)
  }

  lemma OneCutOut(filled: set<nat>, gone: set<nat>, id: nat)
    ensures filled * (gone - {id}) == filled * gone - {id}
    ensures id !in filled ==> filled * (gone - {id}) == filled * (gone + {id}) == filled * gone
    ensures id in filled ==> filled * (gone + {id}) == filled * gone + {id}
    ensures id !in gone ==> (filled + {id}) * gone == filled * gone
  {
  }

  lemma ClosingsStep(log: seq<Event>, e: Event)
    requires MayFollow(log, e)
    ensures |ClosedForGood(log + [e])|
         == |ClosedForGood(log)| + (if SessionClose(e) then 1 else 0) - if e.NotRecorded? && e.session then 1 else 0
  {
    LogSnoc(log, e);
    AllMentioned(log);
    OneCutOut(FilledIds(log), Gone(log), e.id);
  }

  /** Every counted result is that of a filled trade closed for good, or of a close that was not recorded. */
  lemma {:induction false} ResultsAreClosings(log: seq<Event>)
    requires LogOk(log)
    ensures Results(log) == |ClosedForGood(log)| + Relisted(log)
    decreases |log|
  {
    if log != [] {
      var front := log[..|log| - 1];
      assert front + [log[|log| - 1]] == log;
      ResultsAreClosings(front);
      ClosingsStep(front, log[|log| - 1]);
    }
  }

  lemma FilledAreClosedOrOpen(log: seq<Event>)
    ensures |FilledIds(log)| == |ClosedForGood(log)| + |StillOpenIds(log)|
  {
    assert FilledIds(log) == ClosedForGood(log) + StillOpenIds(log);
  }

  /** A trade the repository never got is never closed. */
  lemma {:induction false} MissingStaysOpen(log: seq<Event>)
    requires LogOk(log)
    ensures Missing(log) <= StillOpenIds(log)
    decreases |log|
  {
    if log != [] {
      MissingStaysOpen(log[..|log| - 1]);
      AllMentioned(log[..|log| - 1]);
    }
  }

  /** Between these two entries the repository failed to record a close of the trade. */
  predicate LostBetween(log: seq<Event>, i: int, j: int, id: nat) {
    exists k :: 0 <= i < k < j <= |log| && log[k].NotRecorded? && log[k].id == id
  }

  /** A trade that is gone stays so until a close of it fails to be recorded. */
  lemma {:induction false} GoneUntilLost(log: seq<Event>, i: nat, j: nat)
    requires i < j <= |log| && log[i].Closed? && !LostBetween(log, i, j, log[i].id)
    ensures log[i].id in Gone(log[..j])
    decreases j
  {
    var front := log[..j];
    assert front[..j - 1] == log[..j - 1];
    if i < j - 1 {
      assert !LostBetween(log, i, j - 1, log[i].id);
      GoneUntilLost(log, i, j - 1);
      assert !(log[j - 1].NotRecorded? && log[j - 1].id == log[i].id);
    }
  }

  lemma {:induction false} EntryMayFollow(log: seq<Event>, j: nat)
    requires LogOk(log) && j < |log|
    ensures MayFollow(log[..j], log[j])
    decreases |log|
  {
    if j < |log| - 1 {
      EntryMayFollow(log[..|log| - 1], j);
      assert log[..|log| - 1][..j] == log[..j];
    }
  }

  /** A trade is closed again only after the repository failed to record its close. */
  lemma ClosedAgainIfLost(log: seq<Event>, i: nat, j: nat)
    requires LogOk(log) && i < j < |log| && log[i].Closed? && log[j].Closed? && log[i].id == log[j].id
    ensures LostBetween(log, i, j, log[i].id)
  {
    EntryMayFollow(log, j);
    if !LostBetween(log, i, j, log[i].id) {
      GoneUntilLost(log, i, j);
    }
  }

  /**
   A trade is closed again only after the repository failed to record its close; equity is the loaded equity plus the
   change in realized profit minus the entry fees, with no rounding error; every session trade is a win, a loss or still
   open, but that an unrecorded close counts a result and leaves the trade open; and the losing streak is the run of
   non-wins since the last win, on top of the loaded one while there is no win yet.
   */
  ghost predicate Exact(a0: Account, a: Account, log: seq<Event>) {
    (forall i, j :: 0 <= i < j < |log| && log[i].Closed? && log[j].Closed? && log[i].id == log[j].id ==>
       LostBetween(log, i, j, log[i].id)) &&
    a.equity == a0.equity + (a.realized - a0.realized) - FeesPaid(log) &&
    a.total - a0.total + Relisted(log) == (a.wins - a0.wins) + (a.losses - a0.losses) + |StillOpenIds(log)| &&
    a.streak == TrailingLosses(log) + if AnyWin(log) then 0 else a0.streak
  }

  lemma AccountIsExact(a0: Account, a: Account, log: seq<Event>)
    requires AccountOk(a0, a, log) && LogOk(log)
    ensures Exact(a0, a, log)
  {
    ResultsAreClosings(log);
    FilledAreClosedOrOpen(log);
    forall i, j | 0 <= i < j < |log| && log[i].Closed? && log[j].Closed? && log[i].id == log[j].id
      ensures LostBetween(log, i, j, log[i].id)
    {
      ClosedAgainIfLost(log, i, j);
    }
  }

  /** Whatever the interleaving, and whichever repository writes fail, the account is exact. */
  lemma EveryInterleavingIsExact(cfg: SimConfig, s: Sim, run: seq<Action>)
    requires Start(s) && ValidRun(cfg, s, run)
    ensures Exact(s.account, Exec(cfg, s, run).account, Exec(cfg, s, run).log)
  {
    StartIsSafe(s);
    RunSafe(cfg, s.account, s, run);
    AccountIsExact(s.account, Exec(cfg, s, run).account, Exec(cfg, s, run).log);
  }

  /** No trade is closed twice while no record is lost. */
  lemma ClosedOnce(cfg: SimConfig, s: Sim, run: seq<Action>, i: nat, j: nat)
    requires Start(s) && ValidRun(cfg, s, run) && forall a :: a in run ==> !a.LoseRecord?
    requires i < j < |Exec(cfg, s, run).log| && Exec(cfg, s, run).log[i].Closed? && Exec(cfg, s, run).log[j].Closed?
    ensures Exec(cfg, s, run).log[i].id != Exec(cfg, s, run).log[j].id
  {
    EveryInterleavingIsExact(cfg, s, run);
    NothingLost(cfg, s, run);
  }

  lemma {:induction false} NothingLost(cfg: SimConfig, s: Sim, run: seq<Action>)
    requires ValidRun(cfg, s, run) && forall a :: a in run ==> !a.LoseRecord?
    requires forall k :: 0 <= k < |s.log| ==> !s.log[k].NotRecorded?
    ensures forall k :: 0 <= k < |Exec(cfg, s, run).log| ==> !Exec(cfg, s, run).log[k].NotRecorded?
    decreases |run|
  {
    if run != [] {
      NothingLost(cfg, Next(cfg, s, run[0]), run[1..]);
    }
  }

  /**
   With every thread at rest, the repository holds from this session exactly what the log says is open, but for the
   trades it never got; those stay open for good.
   */
  lemma AtRestRepositoryAgrees(cfg: SimConfig, s: Sim, run: seq<Action>)
    requires Start(s) && ValidRun(cfg, s, run)
    ensures Missing(Exec(cfg, s, run).log) <= StillOpenIds(Exec(cfg, s, run).log)
    ensures var n := Exec(cfg, s, run);
            (forall t :: At(n, t) == Idle) ==>
                StillOpenIds(n.log) - Missing(n.log) == (set id | id in n.repo && OfSession(n, n.repo[id]))
  {
    StartIsSafe(s);
    RunSafe(cfg, s.account, s, run);
    var n := Exec(cfg, s, run);
    MissingStaysOpen(n.log);
    if forall t :: At(n, t) == Idle {
      assert forall id :: !Inserted(n, id) && !BeingRecorded(n, id);
    }
  }

  /** Two checks never overlap: whoever is past the lock is alone. */
  lemma ChecksAreSerialized(cfg: SimConfig, s: Sim, run: seq<Action>, t: Thread, u: Thread)
    requires Start(s) && ValidRun(cfg, s, run)
    ensures Holds(At(Exec(cfg, s, run), t)) && Holds(At(Exec(cfg, s, run), u)) ==> t == u
  {
    StartIsSafe(s);
    RunSafe(cfg, s.account, s, run);
    assert ThreadOk(Exec(cfg, s, run), t) && ThreadOk(Exec(cfg, s, run), u);
  }

  // ---------------------------------------------------------------- writes that fail

  /** A fresh machine with nothing stored, and a trade of this session whose level is reached at `price`. */
  ghost predicate Fillable(cfg: SimConfig, s: Sim, trade: Trade, fee: real, price: real) {
    Start(s) && s.repo == map[] && Enabled(cfg, s, BeginFill(0, trade, fee)) && ExitPrice(cfg, trade, price).Some?
  }

  /** Thread 0 checks the one stored trade and closes it; whether the close is recorded is the last argument. */
  function Check(trade: Trade, price: real, recorded: bool): seq<Action> {
    [Acquire(0), ReadOpen(0, [trade]), Close(0, price), if recorded then Record(0) else LoseRecord(0), Release(0)]
  }

  /** The state between checks, the trade stored. */
  ghost predicate Stored(s: Sim, trade: Trade) {
    s.lock == None && At(s, 0) == Idle && s.repo == map[trade.id := trade]
  }

  lemma {:induction false} RunAppend(cfg: SimConfig, s: Sim, one: seq<Action>, two: seq<Action>)
    requires ValidRun(cfg, s, one) && ValidRun(cfg, Exec(cfg, s, one), two)
    ensures ValidRun(cfg, s, one + two) && Exec(cfg, s, one + two) == Exec(cfg, Exec(cfg, s, one), two)
    decreases |one|
  {
    if one == [] {
      assert one + two == two;
    } else {
      assert (one + two)[1..] == one[1..] + two;
      RunAppend(cfg, Next(cfg, s, one[0]), one[1..], two);
    }
  }

  lemma OneStep(cfg: SimConfig, s: Sim, a: Action)
    requires Enabled(cfg, s, a)
    ensures ValidRun(cfg, s, [a]) && Exec(cfg, s, [a]) == Next(cfg, s, a)
  {
    assert [a][1..] == [];
  }

  lemma TwoSteps(cfg: SimConfig, s: Sim, a: Action, b: Action)
    requires Enabled(cfg, s, a) && Enabled(cfg, Next(cfg, s, a), b)
    ensures ValidRun(cfg, s, [a, b]) && Exec(cfg, s, [a, b]) == Next(cfg, Next(cfg, s, a), b)
  {
    OneStep(cfg, s, a);
    OneStep(cfg, Next(cfg, s, a), b);
    RunAppend(cfg, s, [a], [b]);
    assert [a] + [b] == [a, b];
  }

  /** The check holds the lock and looks at the trade. */
  function Looking(s: Sim, trade: Trade): Sim {
    s.(lock := Some(0), pcs := s.pcs[0 := Sweeping([trade])])
  }

  lemma CheckStarts(cfg: SimConfig, s: Sim, trade: Trade)
    requires Stored(s, trade)
    ensures ValidRun(cfg, s, [Acquire(0), ReadOpen(0, [trade])])
    ensures Exec(cfg, s, [Acquire(0), ReadOpen(0, [trade])]) == Looking(s, trade)
  {
    TwoSteps(cfg, s, Acquire(0), ReadOpen(0, [trade]));
    assert s.pcs[0 := Locked][0 := Sweeping([trade])] == s.pcs[0 := Sweeping([trade])];
  }

  lemma CheckCloses(cfg: SimConfig, s: Sim, trade: Trade, price: real, recorded: bool)
    requires At(s, 0) == Sweeping([trade]) && OfSession(s, trade) && ExitPrice(cfg, trade, price).Some?
    ensures var run := [Close(0, price), if recorded then Record(0) else LoseRecord(0)];
            var net := NetPnL(cfg, trade, ExitPrice(cfg, trade, price).value);
            ValidRun(cfg, s, run) && Exec(cfg, s, run).account == RecordClose(s.account, net, true) &&
            Exec(cfg, s, run).initializedAt == s.initializedAt && At(Exec(cfg, s, run), 0) == Sweeping([]) &&
            Exec(cfg, s, run).repo == if recorded then s.repo - {trade.id} else s.repo
  {
    assert [trade][1..] == [];
    TwoSteps(cfg, s, Close(0, price), if recorded then Record(0) else LoseRecord(0));
  }

  /** What one check of the stored trade does. */
  lemma CheckOnce(cfg: SimConfig, s: Sim, trade: Trade, price: real, recorded: bool)
    requires Stored(s, trade) && OfSession(s, trade) && ExitPrice(cfg, trade, price).Some?
    ensures ValidRun(cfg, s, Check(trade, price, recorded))
    ensures var n, net := Exec(cfg, s, Check(trade, price, recorded)),
                NetPnL(cfg, trade, ExitPrice(cfg, trade, price).value);
            && n.account == RecordClose(s.account, net, true) && n.initializedAt == s.initializedAt
            && (if recorded then n.repo == map[] else Stored(n, trade))
  {
    var start := [Acquire(0), ReadOpen(0, [trade])];
    var close := [Close(0, price), if recorded then Record(0) else LoseRecord(0)];
    CheckStarts(cfg, s, trade);
    CheckCloses(cfg, Looking(s, trade), trade, price, recorded);
    RunAppend(cfg, s, start, close);
    OneStep(cfg, Exec(cfg, s, start + close), Release(0));
    RunAppend(cfg, s, start + close, [Release(0)]);
    assert start + close + [Release(0)] == Check(trade, price, recorded);
  }

  /** From any start: the first close is not recorded, and the next check books the same profit and result again. */
  lemma LostRecordClosesTwice(cfg: SimConfig, s: Sim, trade: Trade, fee: real, price: real)
    requires Fillable(cfg, s, trade, fee, price)
    ensures var run := [BeginFill(0, trade, fee), Insert(0)] + Check(trade, price, false) + Check(trade, price, true);
            var net := NetPnL(cfg, trade, ExitPrice(cfg, trade, price).value);
            && ValidRun(cfg, s, run) && Exec(cfg, s, run).repo == map[]
            && Exec(cfg, s, run).account
               == RecordClose(RecordClose(RecordFill(s.account, fee), net, true), net, true)
  {
    var fill := [BeginFill(0, trade, fee), Insert(0)];
    TwoSteps(cfg, s, BeginFill(0, trade, fee), Insert(0));
    var filled := Exec(cfg, s, fill);
    CheckOnce(cfg, filled, trade, price, false);
    RunAppend(cfg, s, fill, Check(trade, price, false));
    var closed := Exec(cfg, filled, Check(trade, price, false));
    CheckOnce(cfg, closed, trade, price, true);
    RunAppend(cfg, s, fill + Check(trade, price, false), Check(trade, price, true));
  }

  /** From any start: the fee is paid and the trade counted, but the repository never gets it. */
  lemma LostInsertCounts(cfg: SimConfig, s: Sim, trade: Trade, fee: real, price: real)
    requires Fillable(cfg, s, trade, fee, price)
    ensures var run := [BeginFill(0, trade, fee), LoseInsert(0)];
            ValidRun(cfg, s, run) && Exec(cfg, s, run).repo == map[] &&
            Exec(cfg, s, run).account == RecordFill(s.account, fee) && Missing(Exec(cfg, s, run).log) == {trade.id}
  {
    TwoSteps(cfg, s, BeginFill(0, trade, fee), LoseInsert(0));
    LogSnoc(s.log, Event.Filled(trade.id, fee));
    LogSnoc(s.log + [Event.Filled(trade.id, fee)], NotInserted(trade.id));
  }
}
