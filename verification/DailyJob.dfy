/** The daily job of one worker from start to end, when no other worker's step comes in between. */
module DailyJob {
  import opened PaperLedgerStore
  import opened Results
  import P = DailyJobProtocol

  /** What the calendar and the trading of the day would do. Trading that ends may have recorded a snapshot. */
  datatype Day = MarketClosed | TradingEnds(nav: Option<real>) | TradingRaises

  predicate Wins(locks: Locks, key: JobKey, now: int) {
    key !in locks || CanTakeOver(locks, key, now)
  }

  /** How the lock, and the run if one was created, end up. */
  function Ending(rows: nat, day: Day): Status {
    if rows == 1 then Skipped
    else if rows > 1 || day.TradingRaises? then Failed
    else if day.MarketClosed? then Skipped else Success
  }

  function RunsAfter(runs: Runs, key: JobKey, id: nat, day: Day): Runs {
    if |BlockingRuns(runs, key, Auto)| > 0 then runs else runs[id := RunRow(key, Auto, Ending(0, day))]
  }

  function NavsAfter(navs: map<JobKey, real>, rows: nat, key: JobKey, day: Day): map<JobKey, real> {
    if rows == 0 && day.TradingEnds? && day.nav.Some? then Snapped(navs, key, day.nav.value) else navs
  }

  function LocksAfter(locks: Locks, rows: nat, key: JobKey, owner: nat, now: int, day: Day): Locks {
    locks[key := Lease(owner, now, P.TTL_SECONDS).(status := Ending(rows, day))]
  }

  /** The day has an automatic run that is running, successful or skipped. */
  ghost predicate Stands(runs: Runs, key: JobKey) {
    exists i :: i in runs && runs[i].key == key && runs[i].source == Auto
      && runs[i].status in {Running, Success, Skipped}
  }

  lemma StandingMeans(runs: Runs, key: JobKey)
    ensures Stands(runs, key) <==> |BlockingRuns(runs, key, Auto)| > 0
  {
    StandingRowsAreFound(runs, key, Auto);
  }

  /**
    A job that loses the lock changes nothing. One that wins it closes the lock, whatever happens; it creates a run
    only when none blocks the day, and that run ends with the lock's status.
   */
  method RunDailyJob(store: Store, owner: nat, key: JobKey, now: int, id: nat, day: Day)
    requires id !in store.runs
    modifies store
    ensures !Wins(old(store.locks), key, now) ==>
              store.locks == old(store.locks) && store.runs == old(store.runs) && store.navs == old(store.navs)
    ensures Wins(old(store.locks), key, now) ==>
              var rows := |BlockingRuns(old(store.runs), key, Auto)|;
              && store.locks == LocksAfter(old(store.locks), rows, key, owner, now, day)
              && store.runs == RunsAfter(old(store.runs), key, id, day)
              && store.navs == NavsAfter(old(store.navs), rows, key, day)
    ensures Wins(old(store.locks), key, now) && Stands(old(store.runs), key) ==>
              store.runs == old(store.runs) && store.navs == old(store.navs)
    ensures Wins(old(store.locks), key, now) && !Stands(old(store.runs), key) ==>
              && store.runs == old(store.runs)[id := RunRow(key, Auto, store.locks[key].status)]
              && store.locks[key].status
                 == (match day case MarketClosed => Skipped case TradingEnds(_) => Success case TradingRaises => Failed)
  {
    ghost var runs := store.runs;
    StandingMeans(runs, key);
    var acquired := store.AcquireJobLock(key, owner, now, P.TTL_SECONDS);
    if !acquired {
      return;
    }
    var blocked := store.CheckRunExists(key, Auto);
    if blocked.Raised? {
      store.FinishJobLock(key, Failed);
      return;
    }
    if blocked.value {
      store.FinishJobLock(key, Skipped);
      return;
    }
    RunAndTrade(store, key, id, day);
  }

  /** The part of the job behind the two guards: create the run, trade, close run and lock alike. */
  method RunAndTrade(store: Store, key: JobKey, id: nat, day: Day)
    requires id !in store.runs && key in store.locks
    modifies store
    ensures store.locks == Finished(old(store.locks), key, Ending(0, day))
    ensures store.runs == old(store.runs)[id := RunRow(key, Auto, Ending(0, day))]
    ensures store.navs == NavsAfter(old(store.navs), 0, key, day)
  {
    store.CreateRun(id, key, Auto);
    var status;
    match day {
      case MarketClosed => status := Skipped;
      case TradingRaises => status := Failed;
      case TradingEnds(nav) =>
        status := Success;
        if nav.Some? {
          var _ := store.CreateNavSnapshot(key, nav.value);
        }
    }
    var _ := store.UpdateRunStatus(id, status);
    store.FinishJobLock(key, status);
  }

  // The protocol's steps, run without interruption, do the same -----------------------------------------------------

  predicate Stopped(t: P.System, s: P.System, w: nat, key: JobKey, id: nat, day: Day) {
    var rows := |BlockingRuns(s.runs, key, Auto)|;
    && t.locks == LocksAfter(s.locks, rows, key, w, s.clock, day)
    && t.runs == RunsAfter(s.runs, key, id, day)
    && t.navs == NavsAfter(s.navs, rows, key, day)
  }

  /** From a state where the lock has just been won. */
  ghost predicate JustWon(s: P.System, before: P.System, w: nat, key: JobKey) {
    && P.At(s, w, P.Locked) && s.workers[w].key == key && s.workers[w].run.None?
    && s.locks == before.locks[key := Lease(w, before.clock, P.TTL_SECONDS)]
    && s.runs == before.runs && s.navs == before.navs
  }

  lemma Close(s: P.System, w: nat) returns (t: P.System)
    requires w in s.workers && s.workers[w].stage.FinishingRun?
    ensures P.Possible(s, [P.FinishLock(w)]) && t == P.After(s, [P.FinishLock(w)])
    ensures t.locks == Finished(s.locks, s.workers[w].key, s.workers[w].stage.outcome) && t.runs == s.runs
            && t.navs == s.navs
  {
    t := P.Perform(s, P.FinishLock(w));
    P.Unfold(s, [P.FinishLock(w)]);
    assert [P.FinishLock(w)][1..] == [];
  }

  lemma Fail(s: P.System, w: nat) returns (t: P.System)
    requires P.At(s, w, P.MarkingFailed) && (s.workers[w].run.Some? ==> s.workers[w].run.value in s.runs)
    ensures P.Possible(s, [P.MarkFailed(w), P.FinishLock(w)]) && t == P.After(s, [P.MarkFailed(w), P.FinishLock(w)])
    ensures t.locks == Finished(s.locks, s.workers[w].key, Failed) && t.navs == s.navs
    ensures t.runs == if s.workers[w].run.Some? then Marked(s.runs, s.workers[w].run.value, Failed) else s.runs
  {
    var actions := [P.MarkFailed(w), P.FinishLock(w)];
    var s1 := P.Perform(s, actions[0]);
    t := P.Perform(s1, actions[1]);
    P.Unfold(s, actions);
    P.Unfold(s1, actions[1..]);
    assert actions[1..][1..] == [];
  }

  lemma Prepend(s: P.System, a: P.Action, later: seq<P.Action>)
    requires P.Enabled(s, a) && P.Possible(P.Perform(s, a), later)
    ensures P.Possible(s, [a] + later) && P.After(s, [a] + later) == P.After(P.Perform(s, a), later)
  {
    assert ([a] + later)[1..] == later;
  }

  /** The trading part: from a created run to the closed lock. */
  lemma Trade(s: P.System, w: nat, key: JobKey, id: nat, day: Day) returns (actions: seq<P.Action>)
    requires P.At(s, w, P.Trading) && s.workers[w].key == key && s.workers[w].run == Some(id)
    requires id in s.runs && s.runs[id] == RunRow(key, Auto, Running) && key in s.locks
    ensures P.Possible(s, actions)
    ensures var t := P.After(s, actions);
            && t.locks == Finished(s.locks, key, Ending(0, day))
            && t.runs == s.runs[id := RunRow(key, Auto, Ending(0, day))]
            && t.navs == NavsAfter(s.navs, 0, key, day)
  {
    match day {
      case MarketClosed =>
        var t := Close(P.Perform(s, P.EndTrading(w, Skipped)), w);
        Prepend(s, P.EndTrading(w, Skipped), [P.FinishLock(w)]);
        actions := [P.EndTrading(w, Skipped)] + [P.FinishLock(w)];
      case TradingRaises =>
        var t := Fail(P.Perform(s, P.Raise(w)), w);
        Prepend(s, P.Raise(w), [P.MarkFailed(w), P.FinishLock(w)]);
        actions := [P.Raise(w)] + [P.MarkFailed(w), P.FinishLock(w)];
      case TradingEnds(nav) =>
        var snapped := if nav.Some? then P.Perform(s, P.Snapshot(w, nav.value)) else s;
        var t := Close(P.Perform(snapped, P.EndTrading(w, Success)), w);
        Prepend(snapped, P.EndTrading(w, Success), [P.FinishLock(w)]);
        actions := [P.EndTrading(w, Success)] + [P.FinishLock(w)];
        if nav.Some? {
          Prepend(s, P.Snapshot(w, nav.value), actions);
          actions := [P.Snapshot(w, nav.value)] + actions;
        }
    }
  }

  lemma FinishUnblocked(s: P.System, before: P.System, w: nat, key: JobKey, id: nat, day: Day)
      returns (actions: seq<P.Action>)
    requires JustWon(s, before, w, key) && id !in s.runs && |BlockingRuns(before.runs, key, Auto)| == 0
    ensures P.Possible(s, actions) && Stopped(P.After(s, actions), before, w, key, id, day)
  {
    var checked := P.Perform(s, P.Check(w));
    var created := P.Perform(checked, P.Create(w, id));
    actions := Trade(created, w, key, id, day);
    Prepend(checked, P.Create(w, id), actions);
    actions := [P.Create(w, id)] + actions;
    Prepend(s, P.Check(w), actions);
    actions := [P.Check(w)] + actions;
  }

  lemma FinishBlocked(s: P.System, before: P.System, w: nat, key: JobKey, id: nat, day: Day)
      returns (actions: seq<P.Action>)
    requires JustWon(s, before, w, key) && |BlockingRuns(before.runs, key, Auto)| == 1
    ensures P.Possible(s, actions) && Stopped(P.After(s, actions), before, w, key, id, day)
  {
    var t := Close(P.Perform(s, P.Check(w)), w);
    Prepend(s, P.Check(w), [P.FinishLock(w)]);
    actions := [P.Check(w)] + [P.FinishLock(w)];
  }

  lemma FinishDoubled(s: P.System, before: P.System, w: nat, key: JobKey, id: nat, day: Day)
      returns (actions: seq<P.Action>)
    requires JustWon(s, before, w, key) && |BlockingRuns(before.runs, key, Auto)| > 1
    ensures P.Possible(s, actions) && Stopped(P.After(s, actions), before, w, key, id, day)
  {
    var t := Fail(P.Perform(s, P.Check(w)), w);
    Prepend(s, P.Check(w), [P.MarkFailed(w), P.FinishLock(w)]);
    actions := [P.Check(w)] + [P.MarkFailed(w), P.FinishLock(w)];
  }

  lemma Finish(s: P.System, before: P.System, w: nat, key: JobKey, id: nat, day: Day) returns (actions: seq<P.Action>)
    requires JustWon(s, before, w, key) && id !in s.runs
    ensures P.Possible(s, actions) && Stopped(P.After(s, actions), before, w, key, id, day)
  {
    var rows := |BlockingRuns(before.runs, key, Auto)|;
    if rows == 0 {
      actions := FinishUnblocked(s, before, w, key, id, day);
    } else if rows == 1 {
      actions := FinishBlocked(s, before, w, key, id, day);
    } else {
      actions := FinishDoubled(s, before, w, key, id, day);
    }
  }

  lemma Win(s: P.System, w: nat, key: JobKey) returns (actions: seq<P.Action>)
    requires w !in s.workers && Wins(s.locks, key, s.clock)
    ensures P.Possible(s, actions) && JustWon(P.After(s, actions), s, w, key)
  {
    var begun := P.Perform(s, P.Begin(w, key));
    var inserted := P.Perform(begun, P.Insert(w));
    actions := [];
    if key in s.locks {
      Prepend(inserted, P.TakeOver(w), actions);
      actions := [P.TakeOver(w)] + actions;
    }
    Prepend(begun, P.Insert(w), actions);
    actions := [P.Insert(w)] + actions;
    Prepend(s, P.Begin(w, key), actions);
    actions := [P.Begin(w, key)] + actions;
  }

  /** A new worker whose steps nobody interrupts leaves the tables as `RunDailyJob` promises. */
  lemma AloneIsRunDailyJob(s: P.System, w: nat, key: JobKey, id: nat, day: Day)
    requires w !in s.workers && id !in s.runs && Wins(s.locks, key, s.clock)
    ensures exists actions :: P.Possible(s, actions) && Stopped(P.After(s, actions), s, w, key, id, day)
  {
    var first := Win(s, w, key);
    var second := Finish(P.After(s, first), s, w, key, id, day);
    P.AfterBoth(s, first, second);
    assert P.Possible(s, first + second);
  }
}
