/**
 Saving the simulator's account. A thread that changed the account under the lock saves it once its repository write is
 through: it copies the account under the lock and writes the copy outside it. Any number of threads fill, check and
 save, in any order.
 */
module AccountPersistence {
  import S = SimulatorModel
  import L = SimulatorLaws

  type Account = S.Account
  type Log = seq<S.Event>

  /** A thread owes a save once it has changed the account; a copy comes with how much of the log it reflects. */
  datatype Save = Clear | Owing | Holding(copy: Account, seen: nat)

  /** The simulator, the stored account and how much of the log that reflects, and the saves under way. */
  datatype Book = Book(sim: S.Sim, saved: Account, savedAt: nat, saves: map<S.Thread, Save>)

  /** `Fail`: the write of the copy failed. */
  datatype Step = Simulate(a: S.Action) | Copy(t: S.Thread) | Write(t: S.Thread) | Fail(t: S.Thread)

  function SaveOf(b: Book, t: S.Thread): Save {
    if t in b.saves then b.saves[t] else Clear
  }

  predicate RepoWrite(a: S.Action) {
    a.Insert? || a.LoseInsert? || a.Record? || a.LoseRecord?
  }

  /** What changed the account, and what gives up the save that is due for it. */
  predicate Changes(a: S.Action) {
    a.BeginFill? || a.Close?
  }

  predicate GivesUp(a: S.Action) {
    a.LoseInsert? || a.LoseRecord?
  }

  predicate AwaitsRepo(b: Book, t: S.Thread) {
    S.At(b.sim, t).Inserting? || S.At(b.sim, t).Recording?
  }

  predicate Enabled(cfg: S.SimConfig, b: Book, step: Step) {
    match step
    case Simulate(a) =>
      S.Enabled(cfg, b.sim, a) && (SaveOf(b, a.t).Clear? || (SaveOf(b, a.t).Owing? && RepoWrite(a)))
    case Copy(t) => SaveOf(b, t).Owing? && !AwaitsRepo(b, t)
    case Write(t) => SaveOf(b, t).Holding?
    case Fail(t) => SaveOf(b, t).Holding?
  }

  function Next(cfg: S.SimConfig, b: Book, step: Step): Book
    requires Enabled(cfg, b, step)
  {
    match step
    case Simulate(a) =>
      b.(sim := S.Next(cfg, b.sim, a),
         saves := if Changes(a) then b.saves[a.t := Owing] else if GivesUp(a) then b.saves[a.t := Clear] else b.saves)
    case Copy(t) => b.(saves := b.saves[t := Holding(b.sim.account, |b.sim.log|)])
    case Write(t) => b.(saved := SaveOf(b, t).copy, savedAt := SaveOf(b, t).seen, saves := b.saves[t := Clear])
    case Fail(t) => b.(saves := b.saves[t := Clear])
  }

  predicate ValidRun(cfg: S.SimConfig, b: Book, run: seq<Step>)
    decreases |run|
  {
    run == [] || (Enabled(cfg, b, run[0]) && ValidRun(cfg, Next(cfg, b, run[0]), run[1..]))
  }

  function Exec(cfg: S.SimConfig, b: Book, run: seq<Step>): Book
    requires ValidRun(cfg, b, run)
    decreases |run|
  {
    if run == [] then b else Exec(cfg, Next(cfg, b, run[0]), run[1..])
  }

  /** The account was just loaded, and stored at once. */
  ghost predicate Start(b: Book) {
    L.Start(b.sim) && b.saved == b.sim.account && b.savedAt == 0 && AtRest(b)
  }

  ghost predicate AtRest(b: Book) {
    forall t :: SaveOf(b, t).Clear?
  }

  // ---------------------------------------------------------------- what the store holds

  /** An account that is right for the first part of the log. */
  predicate RightAt(a0: Account, a: Account, log: Log, n: nat) {
    n <= |log| && L.AccountOk(a0, a, log[..n])
  }

  /** The account in memory, the stored one and every copy held are each right for what they reflect. */
  ghost predicate Kept(a0: Account, b: Book) {
    && L.Safe(b.sim) && L.AccountOk(a0, b.sim.account, b.sim.log) && RightAt(a0, b.saved, b.sim.log, b.savedAt)
    && forall t :: SaveOf(b, t).Holding? ==> RightAt(a0, SaveOf(b, t).copy, b.sim.log, SaveOf(b, t).seen)
  }

  lemma SimGrows(cfg: S.SimConfig, s: S.Sim, a: S.Action)
    requires S.Enabled(cfg, s, a)
    ensures |s.log| <= |S.Next(cfg, s, a).log| && S.Next(cfg, s, a).log[..|s.log|] == s.log
    ensures !Changes(a) && !GivesUp(a) ==> S.Next(cfg, s, a).log == s.log && S.Next(cfg, s, a).account == s.account
  {
  }

  lemma StaysRight(a0: Account, a: Account, log: Log, longer: Log, n: nat)
    requires RightAt(a0, a, log, n) && |log| <= |longer| && longer[..|log|] == log
    ensures RightAt(a0, a, longer, n)
  {
    assert longer[..n] == log[..n];
  }

  lemma StepKept(cfg: S.SimConfig, a0: Account, b: Book, step: Step)
    requires Kept(a0, b) && Enabled(cfg, b, step)
    ensures Kept(a0, Next(cfg, b, step))
  {
    var n := Next(cfg, b, step);
    if step.Simulate? {
      L.StepSafe(cfg, b.sim, step.a);
      L.StepAccount(cfg, a0, b.sim, step.a);
      SimGrows(cfg, b.sim, step.a);
      StaysRight(a0, b.saved, b.sim.log, n.sim.log, b.savedAt);
      forall t | SaveOf(n, t).Holding?
        ensures RightAt(a0, SaveOf(n, t).copy, n.sim.log, SaveOf(n, t).seen)
      {
        assert SaveOf(b, t) == SaveOf(n, t);
        StaysRight(a0, SaveOf(b, t).copy, b.sim.log, n.sim.log, SaveOf(b, t).seen);
      }
    } else {
      assert b.sim.log[..|b.sim.log|] == b.sim.log;
      assert forall t :: t != step.t ==> SaveOf(n, t) == SaveOf(b, t);
    }
  }

  lemma {:induction false} RunKept(cfg: S.SimConfig, a0: Account, b: Book, run: seq<Step>)
    requires Kept(a0, b) && ValidRun(cfg, b, run)
    ensures Kept(a0, Exec(cfg, b, run))
    decreases |run|
  {
    if run != [] {
      StepKept(cfg, a0, b, run[0]);
      RunKept(cfg, a0, Next(cfg, b, run[0]), run[1..]);
    }
  }

  lemma StartIsKept(b: Book)
    requires Start(b)
    ensures Kept(b.sim.account, b)
  {
    L.StartIsSafe(b.sim);
    assert b.sim.log[..0] == [];
  }

  lemma {:induction false} PrefixIsOk(log: Log, n: nat)
    requires L.LogOk(log) && n <= |log|
    ensures L.LogOk(log[..n])
    decreases |log|
  {
    if n < |log| {
      PrefixIsOk(log[..|log| - 1], n);
      assert log[..|log| - 1][..n] == log[..n];
    } else {
      assert log[..n] == log;
    }
  }

  /** Whatever overlaps or fails, the stored account is exact for the fills and closes its copy reflects. */
  lemma EverySaveIsExact(cfg: S.SimConfig, b: Book, run: seq<Step>)
    requires Start(b) && ValidRun(cfg, b, run)
    ensures var n := Exec(cfg, b, run);
            n.savedAt <= |n.sim.log| && L.Exact(b.sim.account, n.saved, n.sim.log[..n.savedAt])
  {
    var n := Exec(cfg, b, run);
    StartIsKept(b);
    RunKept(cfg, b.sim.account, b, run);
    PrefixIsOk(n.sim.log, n.savedAt);
    L.AccountIsExact(b.sim.account, n.saved, n.sim.log[..n.savedAt]);
  }

  // ---------------------------------------------------------------- when it is the account in memory

  /** A fill, or a close that was counted as a win or a loss. */
  predicate Counted(e: S.Event) {
    e.Filled? || L.SessionClose(e)
  }

  /** Since then nothing was counted, and the closes of older trades came to nothing. */
  ghost predicate NothingSince(log: Log, n: nat)
    requires n <= |log|
  {
    (forall i :: n <= i < |log| ==> !Counted(log[i])) && L.NetRealized(log[n..]) == 0.0
  }

  function Count(log: Log): nat {
    |S.FilledIds(log)| + L.Results(log)
  }

  lemma CountSnoc(log: Log, e: S.Event)
    requires L.MayFollow(log, e)
    ensures Count(log + [e]) == Count(log) + if Counted(e) then 1 else 0
  {
    L.LogSnoc(log, e);
    L.SumsSnoc(log, e);
    L.AllMentioned(log);
    if e.Filled? {
      assert e.id !in S.FilledIds(log);
    } else {
      assert S.FilledIds(log + [e]) == S.FilledIds(log);
    }
  }

  lemma {:induction false} CountGrows(log: Log, n: nat)
    requires L.LogOk(log) && n <= |log|
    ensures Count(log[..n]) <= Count(log)
    ensures Count(log[..n]) == Count(log) <==> forall i :: n <= i < |log| ==> !Counted(log[i])
    decreases |log|
  {
    if n < |log| {
      var front, e := log[..|log| - 1], log[|log| - 1];
      CountGrows(front, n);
      assert front[..n] == log[..n] && front + [e] == log;
      CountSnoc(front, e);
    } else {
      assert log[..n] == log;
    }
  }

  /** Uncounted entries move money only. */
  lemma {:induction false} UncountedKeep(log: Log, n: nat)
    requires n <= |log| && forall i :: n <= i < |log| ==> !Counted(log[i])
    ensures S.FilledIds(log) == S.FilledIds(log[..n]) && L.Results(log) == L.Results(log[..n])
    ensures L.FeesPaid(log) == L.FeesPaid(log[..n]) && L.Wins(log) == L.Wins(log[..n])
    ensures L.TrailingLosses(log) == L.TrailingLosses(log[..n]) && (L.AnyWin(log) <==> L.AnyWin(log[..n]))
    decreases |log|
  {
    if n < |log| {
      var front, e := log[..|log| - 1], log[|log| - 1];
      UncountedKeep(front, n);
      assert front[..n] == log[..n] && front + [e] == log;
      L.AnyWinSnoc(front, e);
    } else {
      assert log[..n] == log;
    }
  }

  lemma {:induction false} NetSplits(log: Log, n: nat)
    requires n <= |log|
    ensures L.NetRealized(log) == L.NetRealized(log[..n]) + L.NetRealized(log[n..])
    decreases |log|
  {
    if n < |log| {
      var front := log[..|log| - 1];
      NetSplits(front, n);
      assert front[..n] == log[..n] && log[n..][..|log| - 1 - n] == front[n..];
    } else {
      assert log[..n] == log && log[n..] == [];
    }
  }

  lemma AccountsAgreeExactly(a0: Account, a: Account, saved: Account, log: Log, n: nat)
    requires L.LogOk(log) && L.AccountOk(a0, a, log) && RightAt(a0, saved, log, n)
    ensures saved == a <==> NothingSince(log, n)
  {
    CountGrows(log, n);
    NetSplits(log, n);
    if forall i :: n <= i < |log| ==> !Counted(log[i]) {
      UncountedKeep(log, n);
    }
  }

  /**
   The stored account is the one in memory exactly when, since the copy written last was made, nothing was counted and
   the closes of older trades came to nothing.
   */
  lemma SavedExactly(cfg: S.SimConfig, b: Book, run: seq<Step>)
    requires Start(b) && ValidRun(cfg, b, run)
    ensures var n := Exec(cfg, b, run);
            n.savedAt <= |n.sim.log| && (n.saved == n.sim.account <==> NothingSince(n.sim.log, n.savedAt))
  {
    var n := Exec(cfg, b, run);
    StartIsKept(b);
    RunKept(cfg, b.sim.account, b, run);
    AccountsAgreeExactly(b.sim.account, n.sim.account, n.saved, n.sim.log, n.savedAt);
  }

  // ---------------------------------------------------------------- saves that do not overlap

  /** Nobody copies while another holds a copy, and no write fails. */
  ghost predicate Undisturbed(b: Book, step: Step) {
    match step
    case Simulate(a) => !GivesUp(a)
    case Copy(_) => forall t :: !SaveOf(b, t).Holding?
    case Write(_) => true
    case Fail(_) => false
  }

  ghost predicate OneAtATime(cfg: S.SimConfig, b: Book, run: seq<Step>)
    requires ValidRun(cfg, b, run)
    decreases |run|
  {
    run == [] || (Undisturbed(b, run[0]) && OneAtATime(cfg, Next(cfg, b, run[0]), run[1..]))
  }

  /** Whatever is not stored yet is still to be copied, or is being written. */
  ghost predicate Pending(b: Book) {
    && (forall t, u :: SaveOf(b, t).Holding? && SaveOf(b, u).Holding? ==> t == u)
    && (b.savedAt != |b.sim.log| ==>
          exists t :: SaveOf(b, t).Owing? || (SaveOf(b, t).Holding? && SaveOf(b, t).seen == |b.sim.log|))
    && (forall t :: SaveOf(b, t).Holding? && SaveOf(b, t).seen != |b.sim.log| ==> exists u :: SaveOf(b, u).Owing?)
  }

  lemma SimulatePends(cfg: S.SimConfig, b: Book, a: S.Action)
    requires Pending(b) && Enabled(cfg, b, Simulate(a)) && !GivesUp(a)
    ensures Pending(Next(cfg, b, Simulate(a)))
  {
    var n := Next(cfg, b, Simulate(a));
    SimGrows(cfg, b.sim, a);
    if Changes(a) {
      assert forall t :: t != a.t ==> SaveOf(n, t) == SaveOf(b, t);
      assert SaveOf(n, a.t).Owing?;
    } else {
      assert forall t :: SaveOf(n, t) == SaveOf(b, t);
      assert |n.sim.log| == |b.sim.log| && n.savedAt == b.savedAt;
    }
  }

  lemma CopyPends(cfg: S.SimConfig, b: Book, t: S.Thread)
    requires Pending(b) && Enabled(cfg, b, Copy(t)) && forall u :: !SaveOf(b, u).Holding?
    ensures Pending(Next(cfg, b, Copy(t)))
  {
    var n := Next(cfg, b, Copy(t));
    assert SaveOf(n, t) == Holding(b.sim.account, |b.sim.log|);
    assert forall u :: u != t ==> SaveOf(n, u) == SaveOf(b, u);
  }

  lemma WritePends(cfg: S.SimConfig, b: Book, t: S.Thread)
    requires Pending(b) && Enabled(cfg, b, Write(t))
    ensures Pending(Next(cfg, b, Write(t)))
  {
    var n := Next(cfg, b, Write(t));
    assert forall u :: u != t ==> SaveOf(n, u) == SaveOf(b, u);
    assert forall u :: !SaveOf(n, u).Holding?;
    if SaveOf(b, t).seen != |b.sim.log| {
      var u :| SaveOf(b, u).Owing?;
      assert SaveOf(n, u).Owing?;
    }
  }

  lemma StepPends(cfg: S.SimConfig, b: Book, step: Step)
    requires Pending(b) && Enabled(cfg, b, step) && Undisturbed(b, step)
    ensures Pending(Next(cfg, b, step))
  {
    match step
    case Simulate(a) => SimulatePends(cfg, b, a);
    case Copy(t) => CopyPends(cfg, b, t);
    case Write(t) => WritePends(cfg, b, t);
  }

  lemma {:induction false} OneAtATimePends(cfg: S.SimConfig, b: Book, run: seq<Step>)
    requires Pending(b) && ValidRun(cfg, b, run) && OneAtATime(cfg, b, run)
    ensures Pending(Exec(cfg, b, run))
    decreases |run|
  {
    if run != [] {
      StepPends(cfg, b, run[0]);
      OneAtATimePends(cfg, Next(cfg, b, run[0]), run[1..]);
    }
  }

  /** Saves that do not overlap leave the stored account equal to the one in memory once every thread rests. */
  lemma OneAtATimeIsSaved(cfg: S.SimConfig, b: Book, run: seq<Step>)
    requires Start(b) && ValidRun(cfg, b, run) && OneAtATime(cfg, b, run) && AtRest(Exec(cfg, b, run))
    ensures Exec(cfg, b, run).saved == Exec(cfg, b, run).sim.account
  {
    OneAtATimePends(cfg, b, run);
    SavedExactly(cfg, b, run);
  }

  // ---------------------------------------------------------------- a save that is overtaken

  lemma Steps(cfg: S.SimConfig, b: Book, first: Step, rest: seq<Step>)
    requires Enabled(cfg, b, first) && ValidRun(cfg, Next(cfg, b, first), rest)
    ensures ValidRun(cfg, b, [first] + rest)
    ensures Exec(cfg, b, [first] + rest) == Exec(cfg, Next(cfg, b, first), rest)
  {
    assert ([first] + rest)[1..] == rest;
  }

  /** A thread fills a trade, stores it and copies the account. */
  function FillAndCopy(t: S.Thread, trade: S.Trade, fee: real): seq<Step> {
    [Simulate(S.BeginFill(t, trade, fee)), Simulate(S.Insert(t)), Copy(t)]
  }

  /** The state after those steps. */
  function Copied(cfg: S.SimConfig, b: Book, t: S.Thread, trade: S.Trade, fee: real): Book {
    var account, log := S.RecordFill(b.sim.account, fee), b.sim.log + [S.Event.Filled(trade.id, fee)];
    b.(sim := b.sim.(account := account, log := log, repo := b.sim.repo[trade.id := trade],
                     pcs := b.sim.pcs[t := S.Idle]),
       saves := b.saves[t := Holding(account, |log|)])
  }

  lemma FillAndCopyRuns(cfg: S.SimConfig, b: Book, t: S.Thread, trade: S.Trade, fee: real)
    requires SaveOf(b, t).Clear? && S.Enabled(cfg, b.sim, S.BeginFill(t, trade, fee))
    ensures ValidRun(cfg, b, FillAndCopy(t, trade, fee))
    ensures Exec(cfg, b, FillAndCopy(t, trade, fee)) == Copied(cfg, b, t, trade, fee)
  {
    var b1 := Next(cfg, b, Simulate(S.BeginFill(t, trade, fee)));
    var b2 := Next(cfg, b1, Simulate(S.Insert(t)));
    Steps(cfg, b2, Copy(t), []);
    Steps(cfg, b1, Simulate(S.Insert(t)), [Copy(t)]);
    Steps(cfg, b, Simulate(S.BeginFill(t, trade, fee)), [Simulate(S.Insert(t)), Copy(t)]);
    assert [Copy(t)] + [] == [Copy(t)];
    assert [Simulate(S.Insert(t))] + [Copy(t)] == [Simulate(S.Insert(t)), Copy(t)];
    assert [Simulate(S.BeginFill(t, trade, fee))] + [Simulate(S.Insert(t)), Copy(t)] == FillAndCopy(t, trade, fee);
  }

  lemma {:induction false} RunAppend(cfg: S.SimConfig, b: Book, one: seq<Step>, two: seq<Step>)
    requires ValidRun(cfg, b, one) && ValidRun(cfg, Exec(cfg, b, one), two)
    ensures ValidRun(cfg, b, one + two) && Exec(cfg, b, one + two) == Exec(cfg, Exec(cfg, b, one), two)
    decreases |one|
  {
    if one == [] {
      assert one + two == two;
    } else {
      assert (one + two)[1..] == one[1..] + two;
      RunAppend(cfg, Next(cfg, b, one[0]), one[1..], two);
    }
  }

  lemma WritesRun(cfg: S.SimConfig, b: Book, first: S.Thread, second: S.Thread)
    requires first != second && SaveOf(b, first).Holding? && SaveOf(b, second).Holding?
    ensures ValidRun(cfg, b, [Write(first), Write(second)])
    ensures var n := Exec(cfg, b, [Write(first), Write(second)]);
            n.sim == b.sim && n.saved == SaveOf(b, second).copy && n.savedAt == SaveOf(b, second).seen &&
            forall t :: SaveOf(n, t) == if t == first || t == second then Clear else SaveOf(b, t)
  {
    var c := Next(cfg, b, Write(first));
    assert [Write(second)] + [] == [Write(second)] && [Write(first)] + [Write(second)] == [Write(first), Write(second)];
    Steps(cfg, c, Write(second), []);
    Steps(cfg, b, Write(first), [Write(second)]);
  }

  /** Two threads that may each fill a trade of their own. */
  ghost predicate TwoFills(
    cfg: S.SimConfig, b: Book, trade: S.Trade, fee: real, later: S.Trade, laterFee: real) {
    && Start(b) && trade.id != later.id
    && S.Enabled(cfg, b.sim, S.BeginFill(0, trade, fee)) && S.Enabled(cfg, b.sim, S.BeginFill(1, later, laterFee))
  }

  lemma BothCopied(cfg: S.SimConfig, b: Book, trade: S.Trade, fee: real, later: S.Trade, laterFee: real)
    requires TwoFills(cfg, b, trade, fee, later, laterFee)
    ensures var run := FillAndCopy(0, trade, fee) + FillAndCopy(1, later, laterFee);
            ValidRun(cfg, b, run) &&
            Exec(cfg, b, run) == Copied(cfg, Copied(cfg, b, 0, trade, fee), 1, later, laterFee)
  {
    var c := Copied(cfg, b, 0, trade, fee);
    FillAndCopyRuns(cfg, b, 0, trade, fee);
    L.LogSnoc(b.sim.log, S.Event.Filled(trade.id, fee));
    assert S.At(c.sim, 1) == S.At(b.sim, 1) && SaveOf(c, 1) == SaveOf(b, 1);
    FillAndCopyRuns(cfg, c, 1, later, laterFee);
    RunAppend(cfg, b, FillAndCopy(0, trade, fee), FillAndCopy(1, later, laterFee));
  }

  lemma CopiesHeld(cfg: S.SimConfig, b: Book, trade: S.Trade, fee: real, later: S.Trade, laterFee: real)
    requires AtRest(b)
    ensures var d := Copied(cfg, Copied(cfg, b, 0, trade, fee), 1, later, laterFee);
            && SaveOf(d, 0).Holding? && SaveOf(d, 0).copy.total == b.sim.account.total + 1 && SaveOf(d, 1).Holding?
            && d.sim.account.total == b.sim.account.total + 2
            && forall t :: t > 1 ==> SaveOf(d, t).Clear?
  {
    var d := Copied(cfg, Copied(cfg, b, 0, trade, fee), 1, later, laterFee);
    assert forall t :: t > 1 ==> SaveOf(d, t) == SaveOf(b, t);
  }

  /**
   From any start: thread 0 fills and copies, thread 1 fills and copies and writes, and then thread 0 writes its older
   copy, which stays, although nobody owes a save any more.
   */
  lemma OvertakenSaveIsOld(cfg: S.SimConfig, b: Book, trade: S.Trade, fee: real, later: S.Trade, laterFee: real)
    requires TwoFills(cfg, b, trade, fee, later, laterFee)
    ensures var run := FillAndCopy(0, trade, fee) + FillAndCopy(1, later, laterFee) + [Write(1), Write(0)];
            ValidRun(cfg, b, run) && AtRest(Exec(cfg, b, run)) &&
            Exec(cfg, b, run).saved.total == Exec(cfg, b, run).sim.account.total - 1
  {
    var fills := FillAndCopy(0, trade, fee) + FillAndCopy(1, later, laterFee);
    BothCopied(cfg, b, trade, fee, later, laterFee);
    CopiesHeld(cfg, b, trade, fee, later, laterFee);
    WritesRun(cfg, Exec(cfg, b, fills), 1, 0);
    RunAppend(cfg, b, fills, [Write(1), Write(0)]);
  }
}
