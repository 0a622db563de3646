/** The scheduler's daily count of answered veto requests, in memory and, when a store is wired, persisted. */
module CallMeter {
  import opened Domain

  /**
    * `counted` and `unseen` are history: the veto requests made on each day, and those the scheduler had no way to see
    * when it next looked, because they got no answer and were not tracked, a write of the count failed, a read after a
    * restart did, or a restart had no store to read from.
    */
  datatype Meter = Meter(
    callsToday: int,
    callsDate: Option<int>,
    stored: map<int, nat>,
    counted: map<int, nat>,
    unseen: map<int, nat>)

  function On(m: map<int, nat>, day: int): nat {
    if day in m then m[day] else 0
  }

  function Plus(m: map<int, nat>, day: int, n: nat): map<int, nat> {
    m[day := On(m, day) + n]
  }

  /** A new day starts from zero. */
  function Rolled(m: Meter, today: int): Meter {
    if m.callsDate == Some(today) then m
    else m.(callsDate := Some(today), callsToday := 0, unseen := m.unseen[today := On(m.counted, today)])
  }

  function Loaded(m: Meter, today: int, hasStore: bool, readable: bool): Meter {
    if !hasStore || !readable then Rolled(m, today)
    else m.(callsDate := Some(today), callsToday := On(m.stored, today))
  }

  /** One more call on the day the meter stands at. */
  function Counted(m: Meter, today: int, hasStore: bool, writable: bool): Meter {
    var n := m.(callsToday := m.callsToday + 1, counted := Plus(m.counted, today, 1));
    if !hasStore then n
    else if writable then n.(stored := Plus(n.stored, today, 1))
    else n.(unseen := Plus(n.unseen, today, 1))
  }

  function Tracked(m: Meter, today: int, hasStore: bool, writable: bool): Meter {
    Counted(Rolled(m, today), today, hasStore, writable)
  }

  /** A request that got no answer: the scheduler takes no note of it. */
  function Missed(m: Meter, today: int): Meter {
    m.(counted := Plus(m.counted, today, 1), unseen := Plus(m.unseen, today, 1))
  }

  /** A veto request, dated by the reading of the clock that tracks it or, without an answer, by the next one. */
  datatype Call = Call(today: int, answered: bool, writable: bool)

  function Made(m: Meter, call: Call, hasStore: bool): Meter {
    if call.answered then Tracked(m, call.today, hasStore, call.writable) else Missed(m, call.today)
  }

  /** The clock does not run back behind what the meter has seen. */
  ghost predicate NotBefore(m: Meter, today: int) {
    forall day :: day > today ==> On(m.counted, day) == 0
  }

  /** What was requested on later days is unseen. */
  ghost predicate UnseenAfter(m: Meter, today: int) {
    forall day :: day > today ==> On(m.counted, day) <= On(m.unseen, day)
  }

  /** The scheduler's own count misses no request it could see. */
  ghost predicate Faithful(m: Meter, hasStore: bool) {
    && (m.callsDate.Some? ==> UnseenAfter(m, m.callsDate.value))
    && (m.callsDate.Some? ==>
          On(m.counted, m.callsDate.value) <= m.callsToday + On(m.unseen, m.callsDate.value))
    && (hasStore ==> forall day :: On(m.counted, day) <= On(m.stored, day) + On(m.unseen, day))
  }

  /**
    * No day has more requests than the cap, but for the unseen ones and for what it had to begin with; a cap of zero or
    * less is no cap.
    */
  ghost predicate WithinCap(m: Meter, cap: int, base: map<int, nat>) {
    cap > 0 ==> forall day :: On(m.counted, day) <= Larger(cap, On(base, day)) + On(m.unseen, day)
  }

  function Larger(a: int, b: int): int {
    if a < b then b else a
  }

  /** `calls` more calls, whenever the clock lets them happen, cannot break the cap. */
  ghost predicate RoomFor(m: Meter, cap: int, calls: int) {
    cap > 0 && calls > 0 ==>
      && calls <= cap
      && m.callsDate.Some?
      && On(m.counted, m.callsDate.value) + calls <= cap + On(m.unseen, m.callsDate.value)
  }

  ghost predicate Sound(m: Meter, cap: int, base: map<int, nat>, hasStore: bool) {
    Faithful(m, hasStore) && WithinCap(m, cap, base) && m.callsToday >= 0
  }

  /** The clock may read `today` next. */
  ghost predicate Reaches(m: Meter, today: int) {
    NotBefore(m, today) && (m.callsDate.Some? ==> m.callsDate.value <= today)
  }

  lemma RolledKeeps(m: Meter, today: int, cap: int, base: map<int, nat>, hasStore: bool)
    requires Sound(m, cap, base, hasStore) && UnseenAfter(m, today)
    ensures Sound(Rolled(m, today), cap, base, hasStore)
  {
  }

  lemma LoadedKeeps(m: Meter, today: int, cap: int, base: map<int, nat>, hasStore: bool, readable: bool)
    requires Sound(m, cap, base, hasStore) && Reaches(m, today)
    ensures Sound(Loaded(m, today, hasStore, readable), cap, base, hasStore)
  {
  }

  lemma RolledRoom(m: Meter, today: int, cap: int, calls: int)
    requires RoomFor(m, cap, calls)
    ensures RoomFor(Rolled(m, today), cap, calls)
  {
  }

  lemma CountedStaysFaithful(m: Meter, today: int, hasStore: bool, writable: bool)
    requires Faithful(m, hasStore) && m.callsDate == Some(today)
    ensures Faithful(Counted(m, today, hasStore, writable), hasStore)
  {
    var n := Counted(m, today, hasStore, writable);
    forall day | day > today
      ensures On(n.counted, day) <= On(n.unseen, day)
    {
      assert On(m.counted, day) <= On(m.unseen, day);
    }
    assert On(n.counted, today) == On(m.counted, today) + 1;
  }

  lemma CountedStaysWithin(
    m: Meter, today: int, cap: int, base: map<int, nat>, hasStore: bool, writable: bool, calls: int)
    requires WithinCap(m, cap, base) && m.callsDate == Some(today) && calls >= 1 && RoomFor(m, cap, calls)
    ensures WithinCap(Counted(m, today, hasStore, writable), cap, base)
    ensures RoomFor(Counted(m, today, hasStore, writable), cap, calls - 1)
  {
  }

  /** Room for `calls` becomes room for one less once a call is tracked, across midnight or not. */
  lemma TrackedKeeps(m: Meter, today: int, cap: int, base: map<int, nat>, hasStore: bool, writable: bool, calls: int)
    requires Sound(m, cap, base, hasStore) && m.callsDate.Some? && m.callsDate.value <= today
    requires calls >= 1 && RoomFor(m, cap, calls)
    ensures Sound(Tracked(m, today, hasStore, writable), cap, base, hasStore)
    ensures RoomFor(Tracked(m, today, hasStore, writable), cap, calls - 1)
  {
    var r := Rolled(m, today);
    RolledKeeps(m, today, cap, base, hasStore);
    RolledRoom(m, today, cap, calls);
    CountedStaysFaithful(r, today, hasStore, writable);
    CountedStaysWithin(r, today, cap, base, hasStore, writable, calls);
  }

  /** A request without an answer uses up room as well, but hides as much. */
  lemma MissedKeeps(m: Meter, today: int, cap: int, base: map<int, nat>, hasStore: bool, calls: int)
    requires Sound(m, cap, base, hasStore) && calls >= 1 && RoomFor(m, cap, calls)
    ensures Sound(Missed(m, today), cap, base, hasStore) && RoomFor(Missed(m, today), cap, calls - 1)
  {
    var n := Missed(m, today);
    assert forall day :: On(n.counted, day) - On(n.unseen, day) == On(m.counted, day) - On(m.unseen, day);
    assert forall day :: On(n.unseen, day) >= On(m.unseen, day);
  }

  lemma MadeNotBefore(m: Meter, call: Call, hasStore: bool, today: int)
    requires NotBefore(m, call.today) && call.today <= today
    ensures NotBefore(Made(m, call, hasStore), today)
  {
    forall day | day > today
      ensures On(Made(m, call, hasStore).counted, day) == 0
    {
      assert On(m.counted, day) == 0;
    }
  }

  function AllMade(m: Meter, calls: seq<Call>, hasStore: bool): Meter
    decreases |calls|
  {
    if calls == [] then m else AllMade(Made(m, calls[0], hasStore), calls[1..], hasStore)
  }

  ghost predicate Chronological(from: int, calls: seq<Call>) {
    && (forall i :: 0 <= i < |calls| ==> from <= calls[i].today)
    && (forall i, j :: 0 <= i < j < |calls| ==> calls[i].today <= calls[j].today)
  }

  /** A cycle as the meter sees it: the load, the check before the caps, and the requests. */
  datatype MeteredCycle = MeteredCycle(loadedOn: int, readable: bool, checkedOn: int, calls: seq<Call>)

  function Opened(m: Meter, c: MeteredCycle, hasStore: bool): Meter {
    Rolled(Loaded(m, c.loadedOn, hasStore, c.readable), c.checkedOn)
  }

  function AfterCycle(m: Meter, c: MeteredCycle, hasStore: bool): Meter {
    AllMade(Opened(m, c, hasStore), c.calls, hasStore)
  }

  /** What the caps let a cycle request, given what it has tracked so far today. */
  function Remainder(m: Meter, cap: int): int {
    if m.callsToday >= cap then 0 else cap - m.callsToday
  }

  ghost predicate Allowed(m: Meter, c: MeteredCycle, cap: int, hasStore: bool) {
    && Reaches(m, c.loadedOn) && c.loadedOn <= c.checkedOn && Chronological(c.checkedOn, c.calls)
    && (cap > 0 ==> |c.calls| <= Remainder(Opened(m, c, hasStore), cap))
  }

  lemma {:induction false} CallsKeep(m: Meter, calls: seq<Call>, cap: int, base: map<int, nat>, hasStore: bool)
    requires Sound(m, cap, base, hasStore) && m.callsDate.Some? && Chronological(m.callsDate.value, calls)
    requires RoomFor(m, cap, |calls|)
    ensures Sound(AllMade(m, calls, hasStore), cap, base, hasStore)
    decreases |calls|
  {
    if calls != [] {
      if calls[0].answered {
        TrackedKeeps(m, calls[0].today, cap, base, hasStore, calls[0].writable, |calls|);
      } else {
        MissedKeeps(m, calls[0].today, cap, base, hasStore, |calls|);
      }
      CallsKeep(Made(m, calls[0], hasStore), calls[1..], cap, base, hasStore);
    }
  }

  /** The cycle starts with room for whatever the caps left it. */
  lemma OpenedIsReady(m: Meter, c: MeteredCycle, cap: int, base: map<int, nat>, hasStore: bool)
    requires Sound(m, cap, base, hasStore) && Allowed(m, c, cap, hasStore)
    ensures Sound(Opened(m, c, hasStore), cap, base, hasStore)
    ensures Opened(m, c, hasStore).callsDate == Some(c.checkedOn)
    ensures RoomFor(Opened(m, c, hasStore), cap, |c.calls|)
  {
    LoadedKeeps(m, c.loadedOn, cap, base, hasStore, c.readable);
    RolledKeeps(Loaded(m, c.loadedOn, hasStore, c.readable), c.checkedOn, cap, base, hasStore);
  }

  /** One cycle within the caps keeps the bound, whatever the store does and however many midnights pass. */
  lemma CycleKeeps(m: Meter, c: MeteredCycle, cap: int, base: map<int, nat>, hasStore: bool)
    requires Sound(m, cap, base, hasStore) && Allowed(m, c, cap, hasStore)
    ensures Sound(AfterCycle(m, c, hasStore), cap, base, hasStore)
  {
    OpenedIsReady(m, c, cap, base, hasStore);
    CallsKeep(Opened(m, c, hasStore), c.calls, cap, base, hasStore);
  }

  // ---------------------------------------------------------------- runs of cycles and restarts

  /** A process that starts with `stored` in its store, or with no store. */
  function Restarted(stored: map<int, nat>, hasStore: bool): Meter {
    Meter(0, None, stored, if hasStore then stored else map[], map[])
  }

  lemma RestartIsSound(stored: map<int, nat>, hasStore: bool, cap: int)
    ensures var m := Restarted(stored, hasStore); Sound(m, cap, m.counted, hasStore)
  {
  }

  /** The process ends and another takes its place: the store is kept, and so is what has been requested. */
  datatype Event = Cycle(cycle: MeteredCycle) | Restart

  function After(m: Meter, e: Event, hasStore: bool): Meter {
    match e
    case Cycle(c) => AfterCycle(m, c, hasStore)
    case Restart => m.(callsToday := 0, callsDate := None)
  }

  function AfterRun(m: Meter, run: seq<Event>, hasStore: bool): Meter
    decreases |run|
  {
    if run == [] then m else AfterRun(After(m, run[0], hasStore), run[1..], hasStore)
  }

  ghost predicate AllAllowed(m: Meter, run: seq<Event>, cap: int, hasStore: bool)
    decreases |run|
  {
    run == [] ||
    (&& (run[0].Cycle? ==> Allowed(m, run[0].cycle, cap, hasStore))
     && AllAllowed(After(m, run[0], hasStore), run[1..], cap, hasStore))
  }

  /** Over any run of cycles and restarts no day sees more requests than the cap and the unseen ones. */
  lemma {:induction false} EveryRunWithinCap(m: Meter, run: seq<Event>, cap: int, base: map<int, nat>, hasStore: bool)
    requires Sound(m, cap, base, hasStore) && AllAllowed(m, run, cap, hasStore)
    ensures WithinCap(AfterRun(m, run, hasStore), cap, base)
    ensures Sound(AfterRun(m, run, hasStore), cap, base, hasStore)
    decreases |run|
  {
    if run != [] {
      if run[0].Cycle? {
        CycleKeeps(m, run[0].cycle, cap, base, hasStore);
      }
      EveryRunWithinCap(After(m, run[0], hasStore), run[1..], cap, base, hasStore);
    }
  }

  // ---------------------------------------------------------------- when the cap itself holds

  ghost predicate NoDayAbove(m: Meter, cap: int, base: map<int, nat>) {
    forall day :: On(m.counted, day) <= Larger(cap, On(base, day))
  }

  /** The cycle opens with a count that misses none of the day's requests, or with nothing left to request. */
  ghost predicate InSight(m: Meter, c: MeteredCycle, cap: int, hasStore: bool) {
    var o := Opened(m, c, hasStore);
    o.callsToday >= cap || On(o.counted, c.checkedOn) <= o.callsToday
  }

  /** `calls` more requests keep every day within the cap, on whatever day they fall. */
  ghost predicate LeavesRoom(m: Meter, cap: int, calls: int) {
    calls > 0 ==> m.callsDate.Some? && forall day :: day >= m.callsDate.value ==> On(m.counted, day) + calls <= cap
  }

  /** One of `calls` requests within the cap, and there is room for the others. */
  lemma CallFits(m: Meter, call: Call, calls: int, cap: int, base: map<int, nat>, hasStore: bool)
    requires NoDayAbove(m, cap, base) && m.callsDate.Some? && m.callsDate.value <= call.today
    requires calls >= 1 && LeavesRoom(m, cap, calls)
    ensures var next := Made(m, call, hasStore);
            NoDayAbove(next, cap, base) && LeavesRoom(next, cap, calls - 1) && next.callsDate.Some? &&
            next.callsDate.value <= call.today
  {
    var next := Made(m, call, hasStore);
    assert next.counted == Plus(m.counted, call.today, 1);
    forall day
      ensures On(next.counted, day) <= Larger(cap, On(base, day))
      ensures day >= m.callsDate.value ==> On(next.counted, day) + calls - 1 <= cap
    {
      if day != call.today {
        assert On(next.counted, day) == On(m.counted, day);
      }
    }
  }

  lemma {:induction false} CallsFit(m: Meter, calls: seq<Call>, cap: int, base: map<int, nat>, hasStore: bool)
    requires NoDayAbove(m, cap, base) && m.callsDate.Some? && Chronological(m.callsDate.value, calls)
    requires LeavesRoom(m, cap, |calls|)
    ensures NoDayAbove(AllMade(m, calls, hasStore), cap, base)
    decreases |calls|
  {
    if calls != [] {
      CallFits(m, calls[0], |calls|, cap, base, hasStore);
      CallsFit(Made(m, calls[0], hasStore), calls[1..], cap, base, hasStore);
    }
  }

  /** `n` answered requests on one day raise its count by `n`. */
  function OnOneDay(day: int, n: nat): seq<Call> {
    seq(n, _ => Call(day, true, true))
  }

  lemma {:induction false} OneDayAdds(m: Meter, day: int, n: nat, hasStore: bool)
    requires m.callsDate == Some(day)
    ensures On(AllMade(m, OnOneDay(day, n), hasStore).counted, day) == On(m.counted, day) + n
    decreases n
  {
    if n > 0 {
      assert OnOneDay(day, n)[1..] == OnOneDay(day, n - 1);
      OneDayAdds(Tracked(m, day, hasStore, true), day, n - 1, hasStore);
    }
  }

  ghost predicate EveryAllowedFits(m: Meter, c: MeteredCycle, cap: int, base: map<int, nat>, hasStore: bool) {
    forall calls: seq<Call> :: Allowed(m, c.(calls := calls), cap, hasStore) ==>
      NoDayAbove(AfterCycle(m, c.(calls := calls), hasStore), cap, base)
  }

  lemma SightSuffices(m: Meter, c: MeteredCycle, cap: int, base: map<int, nat>, hasStore: bool)
    requires cap > 0 && NoDayAbove(m, cap, base) && m.callsToday >= 0
    requires Allowed(m, c, cap, hasStore) && InSight(m, c, cap, hasStore)
    ensures NoDayAbove(AfterCycle(m, c, hasStore), cap, base)
  {
    var o := Opened(m, c, hasStore);
    assert o.counted == m.counted && NotBefore(o, c.checkedOn);
    CallsFit(o, c.calls, cap, base, hasStore);
  }

  lemma SightIsNeeded(m: Meter, c: MeteredCycle, cap: int, hasStore: bool) returns (calls: seq<Call>)
    requires cap > 0 && Reaches(m, c.loadedOn) && c.loadedOn <= c.checkedOn && !InSight(m, c, cap, hasStore)
    ensures Allowed(m, c.(calls := calls), cap, hasStore)
    ensures On(AfterCycle(m, c.(calls := calls), hasStore).counted, c.checkedOn) > cap
  {
    var o := Opened(m, c, hasStore);
    calls := OnOneDay(c.checkedOn, Remainder(o, cap));
    OneDayAdds(o, c.checkedOn, Remainder(o, cap), hasStore);
  }

  /**
    * A cycle is sure to keep the day within the cap exactly when it opens in sight of the day's requests: whatever it
    * may request, answered or not, and over a midnight or not, if so; and if not, all that the caps allow exceeds it.
    */
  lemma CycleFitsExactly(m: Meter, c: MeteredCycle, cap: int, base: map<int, nat>, hasStore: bool)
    requires cap > 0 && NoDayAbove(m, cap, base) && Reaches(m, c.loadedOn) && c.loadedOn <= c.checkedOn
    requires m.callsToday >= 0 && On(base, c.checkedOn) <= cap
    ensures EveryAllowedFits(m, c, cap, base, hasStore) <==> InSight(m, c, cap, hasStore)
  {
    if InSight(m, c, cap, hasStore) {
      forall calls: seq<Call> | Allowed(m, c.(calls := calls), cap, hasStore)
        ensures NoDayAbove(AfterCycle(m, c.(calls := calls), hasStore), cap, base)
      {
        SightSuffices(m, c.(calls := calls), cap, base, hasStore);
      }
    } else {
      var calls := SightIsNeeded(m, c, cap, hasStore);
      assert !NoDayAbove(AfterCycle(m, c.(calls := calls), hasStore), cap, base);
    }
  }

  ghost predicate AllInSight(m: Meter, run: seq<Event>, cap: int, hasStore: bool)
    decreases |run|
  {
    run == [] ||
    (&& (run[0].Cycle? ==> InSight(m, run[0].cycle, cap, hasStore))
     && AllInSight(After(m, run[0], hasStore), run[1..], cap, hasStore))
  }

  lemma {:induction false} CountStaysNatural(m: Meter, calls: seq<Call>, hasStore: bool)
    requires m.callsToday >= 0
    ensures AllMade(m, calls, hasStore).callsToday >= 0
    decreases |calls|
  {
    if calls != [] {
      CountStaysNatural(Made(m, calls[0], hasStore), calls[1..], hasStore);
    }
  }

  /** A run whose cycles all open in sight of the day's requests stays within the cap, with nothing unseen to add. */
  lemma {:induction false} RunInSight(m: Meter, run: seq<Event>, cap: int, base: map<int, nat>, hasStore: bool)
    requires cap > 0 && NoDayAbove(m, cap, base) && m.callsToday >= 0
    requires AllAllowed(m, run, cap, hasStore) && AllInSight(m, run, cap, hasStore)
    ensures NoDayAbove(AfterRun(m, run, hasStore), cap, base)
    decreases |run|
  {
    if run != [] {
      if run[0].Cycle? {
        SightSuffices(m, run[0].cycle, cap, base, hasStore);
        CountStaysNatural(Opened(m, run[0].cycle, hasStore), run[0].cycle.calls, hasStore);
      }
      RunInSight(After(m, run[0], hasStore), run[1..], cap, base, hasStore);
    }
  }

  /** What the next cycle will read counts every request: the store's count, or without one the count in memory. */
  ghost predicate Remembers(m: Meter, hasStore: bool) {
    && (m.callsDate.Some? ==> NotBefore(m, m.callsDate.value))
    && (hasStore ==> forall day :: On(m.counted, day) <= On(m.stored, day))
    && (!hasStore && m.callsDate.Some? ==> On(m.counted, m.callsDate.value) <= m.callsToday)
  }

  /** The store answers every read and takes every write. */
  predicate Healthy(c: MeteredCycle) {
    c.readable && forall i :: 0 <= i < |c.calls| ==> c.calls[i].writable
  }

  predicate AllAnswer(calls: seq<Call>) {
    forall i :: 0 <= i < |calls| ==> calls[i].answered
  }

  lemma TrackedRemembers(m: Meter, today: int, hasStore: bool, writable: bool)
    requires Remembers(m, hasStore) && m.callsDate.Some? && m.callsDate.value <= today && (hasStore ==> writable)
    ensures Remembers(Tracked(m, today, hasStore, writable), hasStore)
  {
    var t := Tracked(m, today, hasStore, writable);
    forall day | day > today ensures On(t.counted, day) == 0 {
      assert On(m.counted, day) == 0;
    }
    if hasStore {
      forall day ensures On(t.counted, day) <= On(t.stored, day) {
        assert On(m.counted, day) <= On(m.stored, day);
      }
    }
  }

  lemma {:induction false} CallsRemember(m: Meter, calls: seq<Call>, hasStore: bool)
    requires Remembers(m, hasStore) && m.callsDate.Some? && Chronological(m.callsDate.value, calls)
    requires AllAnswer(calls) && (hasStore ==> forall i :: 0 <= i < |calls| ==> calls[i].writable)
    ensures Remembers(AllMade(m, calls, hasStore), hasStore) && AllMade(m, calls, hasStore).callsDate.Some?
    decreases |calls|
  {
    if calls != [] {
      TrackedRemembers(m, calls[0].today, hasStore, calls[0].writable);
      CallsRemember(Tracked(m, calls[0].today, hasStore, calls[0].writable), calls[1..], hasStore);
    }
  }

  /**
   A cycle opens in sight through a store, and through memory unless the process started after the day's first call.
   */
  lemma OpensInSight(m: Meter, c: MeteredCycle, cap: int, hasStore: bool)
    requires cap > 0 && Remembers(m, hasStore) && Reaches(m, c.loadedOn) && c.loadedOn <= c.checkedOn
    requires hasStore ==> c.readable
    ensures InSight(m, c, cap, hasStore) <==> hasStore || m.callsDate.Some? || On(m.counted, c.checkedOn) == 0
    ensures InSight(m, c, cap, hasStore) ==> Remembers(Opened(m, c, hasStore), hasStore)
  {
    var o := Opened(m, c, hasStore);
    assert o.counted == m.counted && o.stored == m.stored && NotBefore(m, c.checkedOn);
  }

  /** No process start falls on a day that has seen calls already. */
  ghost predicate StartsOnFreshDays(m: Meter, run: seq<Event>, hasStore: bool)
    decreases |run|
  {
    run == [] ||
    (&& (run[0].Cycle? && m.callsDate.None? ==> On(m.counted, run[0].cycle.checkedOn) == 0)
     && StartsOnFreshDays(After(m, run[0], hasStore), run[1..], hasStore))
  }

  ghost predicate AllHealthy(run: seq<Event>) {
    forall i :: 0 <= i < |run| && run[i].Cycle? ==> Healthy(run[i].cycle)
  }

  ghost predicate AllAnswered(run: seq<Event>) {
    forall i :: 0 <= i < |run| && run[i].Cycle? ==> AllAnswer(run[i].cycle.calls)
  }

  /**
   When every request is answered: with a store that never fails every cycle opens in sight; without one, exactly when
   no restart is in mid-day.
   */
  lemma {:induction false} AllInSightExactly(m: Meter, run: seq<Event>, cap: int, hasStore: bool)
    requires cap > 0 && Remembers(m, hasStore) && AllAllowed(m, run, cap, hasStore)
    requires AllAnswered(run) && (hasStore ==> AllHealthy(run))
    ensures AllInSight(m, run, cap, hasStore) <==> hasStore || StartsOnFreshDays(m, run, hasStore)
    decreases |run|
  {
    if run != [] {
      var next := After(m, run[0], hasStore);
      if run[0].Cycle? {
        var c := run[0].cycle;
        OpensInSight(m, c, cap, hasStore);
        if InSight(m, c, cap, hasStore) {
          CallsRemember(Opened(m, c, hasStore), c.calls, hasStore);
          AllInSightExactly(next, run[1..], cap, hasStore);
        }
      } else {
        AllInSightExactly(next, run[1..], cap, hasStore);
      }
    }
  }

  /**
   When every request is answered: with a store that never fails, or with none and no start in mid-day, no day of any
   run goes above the cap.
   */
  lemma HealthyRunWithinCap(m: Meter, run: seq<Event>, cap: int, hasStore: bool, day: int)
    requires cap > 0 && m.callsToday >= 0 && Remembers(m, hasStore) && AllAllowed(m, run, cap, hasStore)
    requires AllAnswered(run) && if hasStore then AllHealthy(run) else StartsOnFreshDays(m, run, hasStore)
    ensures On(AfterRun(m, run, hasStore).counted, day) <= Larger(cap, On(m.counted, day))
  {
    AllInSightExactly(m, run, cap, hasStore);
    RunInSight(m, run, cap, m.counted, hasStore);
  }

  lemma FirstEvent(m: Meter, e: Event, rest: seq<Event>, cap: int, hasStore: bool)
    ensures AfterRun(m, [e] + rest, hasStore) == AfterRun(After(m, e, hasStore), rest, hasStore)
    ensures AllAllowed(m, [e] + rest, cap, hasStore) <==>
            (e.Cycle? ==> Allowed(m, e.cycle, cap, hasStore)) && AllAllowed(After(m, e, hasStore), rest, cap, hasStore)
  {
    assert ([e] + rest)[1..] == rest;
  }

  function OneCall(today: int, answered: bool, writable: bool): MeteredCycle {
    MeteredCycle(today, true, today, [Call(today, answered, writable)])
  }

  lemma OneCallCounts(m: Meter, today: int, hasStore: bool, answered: bool, writable: bool)
    requires m.callsDate.Some? ==> m.callsDate.value <= today
    ensures AfterCycle(m, OneCall(today, answered, writable), hasStore) ==
            Made(Opened(m, OneCall(today, answered, writable), hasStore), Call(today, answered, writable), hasStore)
    ensures On(AfterCycle(m, OneCall(today, answered, writable), hasStore).counted, today) == On(m.counted, today) + 1
  {
    var o, calls := Opened(m, OneCall(today, answered, writable), hasStore), [Call(today, answered, writable)];
    assert calls[1..] == [];
    assert AllMade(o, calls, hasStore) == AllMade(Made(o, calls[0], hasStore), [], hasStore);
  }

  /**
   Either way to two requests a day under a cap of one: the store misses a write, or there is none and the process
   restarts.
   */
  lemma LostCallExceedsCap(today: int, hasStore: bool) returns (m: Meter, run: seq<Event>)
    ensures m == Restarted(map[], hasStore) && AllAllowed(m, run, 1, hasStore) && AllAnswered(run)
    ensures On(AfterRun(m, run, hasStore).counted, today) == 2
  {
    m := Restarted(map[], hasStore);
    var c := OneCall(today, true, !hasStore);
    var once := AfterCycle(m, c, hasStore);
    OneCallCounts(m, today, hasStore, true, !hasStore);
    var again := After(once, Restart, hasStore);
    OneCallCounts(again, today, hasStore, true, !hasStore);
    assert hasStore ==> On(once.stored, today) == 0;
    assert Allowed(m, c, 1, hasStore) && Allowed(again, c, 1, hasStore);
    FirstEvent(again, Cycle(c), [], 1, hasStore);
    FirstEvent(once, Restart, [Cycle(c)] + [], 1, hasStore);
    FirstEvent(m, Cycle(c), [Restart] + ([Cycle(c)] + []), 1, hasStore);
    run := [Cycle(c)] + ([Restart] + ([Cycle(c)] + []));
  }

  // ---------------------------------------------------------------- requests that get no answer

  /** The requests of a day that got no answer. */
  function FailedOn(calls: seq<Call>, day: int): nat
    decreases |calls|
  {
    if calls == [] then 0
    else (if !calls[0].answered && calls[0].today == day then 1 else 0) + FailedOn(calls[1..], day)
  }

  function FailedIn(run: seq<Event>, day: int): nat
    decreases |run|
  {
    if run == [] then 0
    else (if run[0].Cycle? then FailedOn(run[0].cycle.calls, day) else 0) + FailedIn(run[1..], day)
  }

  lemma {:induction false} CallsHide(m: Meter, calls: seq<Call>, day: int)
    requires forall i :: 0 <= i < |calls| ==> calls[i].writable
    ensures var n := AllMade(m, calls, true);
            On(n.counted, day) - On(n.stored, day) == On(m.counted, day) - On(m.stored, day) + FailedOn(calls, day)
    decreases |calls|
  {
    if calls != [] {
      CallsHide(Made(m, calls[0], true), calls[1..], day);
    }
  }

  /** A store that never fails misses exactly the requests that got no answer. */
  lemma {:induction false} RunHides(m: Meter, run: seq<Event>, day: int)
    requires AllHealthy(run)
    ensures var n := AfterRun(m, run, true);
            On(n.counted, day) - On(n.stored, day) == On(m.counted, day) - On(m.stored, day) + FailedIn(run, day)
    decreases |run|
  {
    if run != [] {
      if run[0].Cycle? {
        CallsHide(Opened(m, run[0].cycle, true), run[0].cycle.calls, day);
      }
      RunHides(After(m, run[0], true), run[1..], day);
    }
  }

  lemma {:induction false} RunStaysNatural(m: Meter, run: seq<Event>, hasStore: bool)
    requires m.callsToday >= 0
    ensures AfterRun(m, run, hasStore).callsToday >= 0
    decreases |run|
  {
    if run != [] {
      if run[0].Cycle? {
        CountStaysNatural(Opened(m, run[0].cycle, hasStore), run[0].cycle.calls, hasStore);
      }
      RunStaysNatural(After(m, run[0], hasStore), run[1..], hasStore);
    }
  }

  /**
   With a store that never fails: after any run, the next cycle is sure to keep its day within the cap exactly when no
   request of that day went without an answer, or nothing is left to request.
   */
  lemma NextCycleFitsExactly(stored: map<int, nat>, run: seq<Event>, c: MeteredCycle, cap: int)
    requires cap > 0 && AllHealthy(run) && c.readable && c.loadedOn <= c.checkedOn && On(stored, c.checkedOn) <= cap
    requires var m := AfterRun(Restarted(stored, true), run, true);
             NoDayAbove(m, cap, stored) && Reaches(m, c.loadedOn)
    ensures var m := AfterRun(Restarted(stored, true), run, true);
            EveryAllowedFits(m, c, cap, stored, true) <==>
            Opened(m, c, true).callsToday >= cap || FailedIn(run, c.checkedOn) == 0
  {
    var m := AfterRun(Restarted(stored, true), run, true);
    RunHides(Restarted(stored, true), run, c.checkedOn);
    RunStaysNatural(Restarted(stored, true), run, true);
    CycleFitsExactly(m, c, cap, stored, true);
    if c.loadedOn < c.checkedOn {
      assert On(m.counted, c.checkedOn) == 0;
    }
  }

  /** Two requests a day under a cap of one, with a store that never fails: the first gets no answer. */
  lemma FailedRequestExceedsCap(today: int) returns (m: Meter, run: seq<Event>)
    ensures m == Restarted(map[], true) && AllAllowed(m, run, 1, true) && AllHealthy(run)
    ensures On(AfterRun(m, run, true).counted, today) == 2
  {
    m := Restarted(map[], true);
    var failed, c := OneCall(today, false, true), OneCall(today, true, true);
    var once := AfterCycle(m, failed, true);
    OneCallCounts(m, today, true, false, true);
    OneCallCounts(once, today, true, true, true);
    assert On(once.stored, today) == 0;
    assert Allowed(m, failed, 1, true) && Allowed(once, c, 1, true);
    FirstEvent(once, Cycle(c), [], 1, true);
    FirstEvent(m, Cycle(failed), [Cycle(c)] + [], 1, true);
    run := [Cycle(failed)] + ([Cycle(c)] + []);
  }
}
