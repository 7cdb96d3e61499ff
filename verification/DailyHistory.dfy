/**
  Day after day on one ledger: each run reads the cash of the latest stored snapshot and the positions the earlier
  runs left. The two agree exactly as long as every run that traded also recorded its snapshot.
 */
module DailyHistory {
  import opened DailyTrading
  import opened DailyWatchlist
  import opened MarketRules
  import opened PaperPortfolio
  import opened Results
  import opened TargetPlanner

  /** The run ran to the end and its snapshot went in as the latest of the account. */
  predicate Recorded(b: Books, run: TradingRun) {
    run.done.None? && forall d :: d in b.navs ==> d < run.day
  }

  /** What the next run's cash gains or loses against the cash this run should have left. */
  ghost function Drift(capital: real, b: Books, run: TradingRun, nextQuotes: map<string, real>): real
    requires SoundRun(b.positions, run)
  {
    StartCash(capital, AfterRun(capital, b, run), nextQuotes)
      - (StartCash(capital, b, run.quotes) + CashFlow(Executed(run), run.prices))
  }

  lemma LatestIs(navs: map<int, NavRow>, day: int)
    requires day in navs && forall d :: d in navs ==> d <= day
    ensures LatestDay(navs) == day
  {
  }

  /** A recorded run hands its cash on exactly. */
  lemma RecordedRunDoesNotDrift(capital: real, b: Books, run: TradingRun, nextQuotes: map<string, real>)
    requires SoundRun(b.positions, run) && Recorded(b, run)
    ensures Drift(capital, b, run, nextQuotes) == 0.0
  {
    assert run.day !in b.navs;
    LatestIs(AfterRun(capital, b, run).navs, run.day);
  }

  /**
    Once there is a snapshot, a run that is not recorded loses what it spent and gains what it earned: the next one
    does not know.
   */
  lemma UnrecordedRunDriftsByItsFlow(capital: real, b: Books, run: TradingRun, nextQuotes: map<string, real>)
    requires SoundRun(b.positions, run) && !Recorded(b, run) && b.navs.Keys != {}
    ensures Drift(capital, b, run, nextQuotes) == -CashFlow(Executed(run), run.prices)
  {
    var latest := LatestDay(b.navs);
    var after := AfterRun(capital, b, run);
    assert latest in after.navs && after.navs[latest] == b.navs[latest];
    LatestIs(after.navs, latest);
  }

  /** Before the first snapshot every run starts from the capital again, whatever earlier ones did. */
  lemma UnrecordedFirstRunStartsOver(capital: real, b: Books, run: TradingRun, nextQuotes: map<string, real>)
    requires SoundRun(b.positions, run) && !Recorded(b, run) && b.navs.Keys == {}
    ensures var after := AfterRun(capital, b, run);
            && after.navs.Keys == {}
            && Drift(capital, b, run, nextQuotes)
                 == Value(b.positions, run.quotes) - Value(after.positions, nextQuotes)
                   - CashFlow(Executed(run), run.prices)
  {
  }

  /**
    With a snapshot in the books, the cash is handed on exactly if and only if the run is recorded or moved no cash on
    balance.
   */
  lemma CashIsHandedOnIff(capital: real, b: Books, run: TradingRun, nextQuotes: map<string, real>)
    requires SoundRun(b.positions, run) && b.navs.Keys != {}
    ensures Drift(capital, b, run, nextQuotes) == 0.0 <==>
            Recorded(b, run) || CashFlow(Executed(run), run.prices) == 0.0
  {
    if Recorded(b, run) {
      RecordedRunDoesNotDrift(capital, b, run, nextQuotes);
    } else {
      UnrecordedRunDriftsByItsFlow(capital, b, run, nextQuotes);
    }
  }

  /** One BUY of a hundred shares at 5, booked before the run raised. */
  function RaisedAfterBuy(symbol: string): TradingRun {
    var target := Target(symbol, Buy, 500, 0.5, 100.0, 0.0, 100, 500, 5.0, 100);
    TradingRun(2, [target], map[symbol := 5.0], map[], Some(1))
  }

  /**
    Over the snapshot of the day before, with 1000 in cash, the next run starts from that cash and the shares: 500 too
    much.
   */
  lemma RaisedRunKeepsTheCash(symbol: string, nextQuotes: map<string, real>)
    ensures var b, run := Books(map[], map[1 := NavRow(1000.0, 1000.0, 0.0)]), RaisedAfterBuy(symbol);
            && SoundRun(b.positions, run)
            && AfterRun(1000.0, b, run) == Books(map[symbol := Position(100, 5.0, "")], b.navs)
            && Drift(1000.0, b, run, nextQuotes) == 500.0
  {
    var b, run := Books(map[], map[1 := NavRow(1000.0, 1000.0, 0.0)]), RaisedAfterBuy(symbol);
    assert run.targets[..1] == run.targets && run.targets[..0] == [];
    assert AfterTrades(b.positions, [], run.prices) == map[] && CashFlow([], run.prices) == 0.0;
    assert CashFlow(run.targets, run.prices) == -Times(100, 5.0) == -500.0;
    assert 1 in b.navs;
    UnrecordedRunDriftsByItsFlow(1000.0, b, run, nextQuotes);
  }

  // Whole histories -----------------------------------------------------------------------------------------------

  ghost predicate SoundHistory(capital: real, b: Books, runs: seq<TradingRun>) {
    if runs == [] then true
    else
      SoundHistory(capital, b, runs[..|runs| - 1])
        && SoundRun(BooksAfter(capital, b, runs[..|runs| - 1]).positions, runs[|runs| - 1])
  }

  ghost function BooksAfter(capital: real, b: Books, runs: seq<TradingRun>): Books {
    if runs == [] then b
    else
      var run, before := runs[|runs| - 1], BooksAfter(capital, b, runs[..|runs| - 1]);
      if run.done.Some? && run.done.value > |run.targets| then before else AfterRun(capital, before, run)
  }

  /** What the positions left by each run gain until the prices of the next. */
  ghost function Revaluations(capital: real, b: Books, runs: seq<TradingRun>): real {
    if |runs| <= 1 then 0.0
    else
      var most, last := runs[..|runs| - 1], runs[|runs| - 1];
      var held := BooksAfter(capital, b, most).positions;
      Revaluations(capital, b, most) + (Value(held, last.prices) - Value(held, most[|most| - 1].prices))
  }

  ghost function Drifts(capital: real, b: Books, runs: seq<TradingRun>): real
    requires SoundHistory(capital, b, runs)
  {
    if |runs| <= 1 then 0.0
    else
      var most := runs[..|runs| - 1];
      Drifts(capital, b, most)
        + Drift(capital, BooksBefore(capital, b, most), most[|most| - 1], runs[|runs| - 1].quotes)
  }

  lemma NextStart(capital: real, b: Books, run: TradingRun, next: TradingRun)
    requires SoundRun(b.positions, run)
    ensures var after := AfterRun(capital, b, run);
            StartNav(capital, after, next)
              == StartNav(capital, b, run) + (Value(after.positions, next.prices) - Value(after.positions, run.prices))
                 + Drift(capital, b, run, next.quotes)
  {
    ExecutedConserves(b.positions, run);
  }

  /** The books in which the last run of a history starts, and the nav it starts from. */
  ghost function BooksBefore(capital: real, b: Books, runs: seq<TradingRun>): Books
    requires runs != []
  {
    BooksAfter(capital, b, runs[..|runs| - 1])
  }

  ghost function LastStart(capital: real, b: Books, runs: seq<TradingRun>): real
    requires runs != []
  {
    StartNav(capital, BooksBefore(capital, b, runs), runs[|runs| - 1])
  }

  lemma OneMoreStart(capital: real, b: Books, runs: seq<TradingRun>, next: TradingRun)
    requires runs != [] && SoundHistory(capital, b, runs)
    ensures StartNav(capital, BooksAfter(capital, b, runs), next)
         == LastStart(capital, b, runs)
            + (Value(BooksAfter(capital, b, runs).positions, next.prices)
               - Value(BooksAfter(capital, b, runs).positions, runs[|runs| - 1].prices))
            + Drift(capital, BooksBefore(capital, b, runs), runs[|runs| - 1], next.quotes)
  {
    NextStart(capital, BooksBefore(capital, b, runs), runs[|runs| - 1], next);
  }

  /**
    Over any history of runs, finished or not, recorded or not: the nav the last run starts from, which is the nav it
    computes when it finishes, is the first run's plus the revaluation of the positions held in between plus the
    drifts.
   */
  lemma {:induction false} NavMovesOnlyWithPrices(capital: real, b: Books, runs: seq<TradingRun>)
    requires runs != [] && SoundHistory(capital, b, runs)
    ensures LastStart(capital, b, runs)
            == StartNav(capital, b, runs[0]) + Revaluations(capital, b, runs) + Drifts(capital, b, runs)
  {
    var n := |runs| - 1;
    if n == 0 {
      assert runs[..0] == [];
    } else {
      NavMovesOnlyWithPrices(capital, b, runs[..n]);
      OneMoreStart(capital, b, runs[..n], runs[n]);
    }
  }

  /** Every run but the last ran to the end on a day later than every stored snapshot. */
  ghost predicate AllRecorded(capital: real, b: Books, runs: seq<TradingRun>) {
    if |runs| <= 1 then true
    else
      var most := runs[..|runs| - 1];
      AllRecorded(capital, b, most) && Recorded(BooksAfter(capital, b, most[..|most| - 1]), most[|most| - 1])
  }

  /**
    When every earlier run is recorded nothing drifts: over any number of days nav moves only as held positions are
    revalued.
   */
  lemma {:induction false} RecordedHistoryDoesNotDrift(capital: real, b: Books, runs: seq<TradingRun>)
    requires runs != [] && SoundHistory(capital, b, runs) && AllRecorded(capital, b, runs)
    ensures Drifts(capital, b, runs) == 0.0
  {
    var n := |runs| - 1;
    if n > 0 {
      var most := runs[..n];
      RecordedHistoryDoesNotDrift(capital, b, most);
      RecordedRunDoesNotDrift(capital, BooksAfter(capital, b, most[..n - 1]), most[n - 1], runs[n].quotes);
    }
  }

  /** Days in increasing order that all run to the end are all recorded on an account without snapshots. */
  lemma {:induction false} FinishedDaysAreRecorded(capital: real, b: Books, runs: seq<TradingRun>)
    requires b.navs.Keys == {}
    requires forall i :: 0 <= i < |runs| ==> runs[i].done.None?
    requires forall i, j :: 0 <= i < j < |runs| ==> runs[i].day < runs[j].day
    ensures AllRecorded(capital, b, runs)
    ensures forall d :: d in BooksAfter(capital, b, runs).navs ==> exists i :: 0 <= i < |runs| && runs[i].day == d
  {
    if runs != [] {
      var n := |runs| - 1;
      var most := runs[..n];
      FinishedDaysAreRecorded(capital, b, most);
      forall d | d in BooksAfter(capital, b, runs).navs
        ensures exists i :: 0 <= i < |runs| && runs[i].day == d
      {
        if d in BooksAfter(capital, b, most).navs {
          var i :| 0 <= i < n && most[i].day == d;
          assert runs[i].day == d;
        } else {
          assert runs[n].day == d;
        }
      }
      if n > 0 {
        LastFinishedIsRecorded(capital, b, most);
      }
    }
  }

  lemma LastFinishedIsRecorded(capital: real, b: Books, runs: seq<TradingRun>)
    requires runs != [] && b.navs.Keys == {}
    requires forall i :: 0 <= i < |runs| ==> runs[i].done.None?
    requires forall i, j :: 0 <= i < j < |runs| ==> runs[i].day < runs[j].day
    ensures Recorded(BooksAfter(capital, b, runs[..|runs| - 1]), runs[|runs| - 1])
  {
    var most := runs[..|runs| - 1];
    FinishedDaysAreRecorded(capital, b, most);
    forall d | d in BooksAfter(capital, b, most).navs
      ensures d < runs[|runs| - 1].day
    {
      var i :| 0 <= i < |most| && most[i].day == d;
      assert runs[i].day == d;
    }
  }

  // What the snapshots say ----------------------------------------------------------------------------------------

  /** The k-th run's day has a snapshot, and its nav is the opening one plus what prices did until then. */
  ghost predicate StoredNavMovedWithPrices(capital: real, b: Books, runs: seq<TradingRun>, k: nat,
                                           navs: map<int, NavRow>)
    requires k < |runs|
  {
    && runs[k].day in navs
    && navs[runs[k].day].nav == StartNav(capital, b, runs[0]) + Revaluations(capital, b, runs[..k + 1])
  }

  ghost predicate FinishedInOrder(runs: seq<TradingRun>) {
    && (forall i :: 0 <= i < |runs| ==> runs[i].done.None?)
    && (forall i, j :: 0 <= i < j < |runs| ==> runs[i].day < runs[j].day)
  }

  lemma LastRowIsStored(capital: real, b: Books, runs: seq<TradingRun>)
    requires runs != [] && b.navs.Keys == {} && SoundHistory(capital, b, runs) && FinishedInOrder(runs)
    ensures StoredNavMovedWithPrices(capital, b, runs, |runs| - 1, BooksAfter(capital, b, runs).navs)
  {
    var n := |runs| - 1;
    LastFinishedIsRecorded(capital, b, runs);
    RunConservesNav(capital, BooksBefore(capital, b, runs), runs[n]);
    NavMovesOnlyWithPrices(capital, b, runs);
    FinishedDaysAreRecorded(capital, b, runs);
    RecordedHistoryDoesNotDrift(capital, b, runs);
    assert runs[..n + 1] == runs;
  }

  /** For a new account that opening nav is its initial capital. */
  lemma NewAccountStartsWithCapital(capital: real, run: TradingRun)
    ensures StartNav(capital, Books(map[], map[]), run) == capital
  {
    var b := Books(map[], map[]);
    assert MarketValues(b.positions, run.prices).Keys == {} && MarketValues(b.positions, run.quotes).Keys == {};
    assert b.navs.Keys == {};
  }

  lemma EarlierRowStays(capital: real, b: Books, runs: seq<TradingRun>, k: nat)
    requires k < |runs| - 1
    requires var most := runs[..|runs| - 1];
             StoredNavMovedWithPrices(capital, b, most, k, BooksAfter(capital, b, most).navs)
    ensures StoredNavMovedWithPrices(capital, b, runs, k, BooksAfter(capital, b, runs).navs)
  {
    var most := runs[..|runs| - 1];
    var was, now := BooksAfter(capital, b, most).navs, BooksAfter(capital, b, runs).navs;
    assert runs[k].day in now && now[runs[k].day] == was[runs[k].day];
    assert most[..k + 1] == runs[..k + 1];
  }

  ghost predicate AllStoredMoved(capital: real, b: Books, runs: seq<TradingRun>, navs: map<int, NavRow>) {
    forall k :: 0 <= k < |runs| ==> StoredNavMovedWithPrices(capital, b, runs, k, navs)
  }

  /**
    On an account without snapshots, days in increasing order that all finish leave one snapshot each, and every one
    of them says the nav of the start plus what the held positions gained by then: nothing is made or lost by trading.
   */
  lemma {:induction false} SnapshotsMoveOnlyWithPrices(capital: real, b: Books, runs: seq<TradingRun>)
    requires b.navs.Keys == {} && SoundHistory(capital, b, runs) && FinishedInOrder(runs)
    ensures AllStoredMoved(capital, b, runs, BooksAfter(capital, b, runs).navs)
  {
    if runs != [] {
      SnapshotsMoveOnlyWithPrices(capital, b, runs[..|runs| - 1]);
      LastRowIsStored(capital, b, runs);
      forall k | 0 <= k < |runs| - 1
        ensures StoredNavMovedWithPrices(capital, b, runs, k, BooksAfter(capital, b, runs).navs)
      {
        EarlierRowStays(capital, b, runs, k);
      }
    }
  }

  // The ledger, day after day -------------------------------------------------------------------------------------

  /**
    The runs of a row of days: each day with a decision on its watchlist makes one run of the books it finds, other
    days make none.
   */
  ghost predicate HistoryOf(capital: real, b: Books, days: seq<DayInput>, lists: seq<seq<string>>,
                            runs: seq<TradingRun>) {
    && |lists| == |days|
    && if days == [] then runs == []
    else
      var d, watchlist := days[|days| - 1], lists[|days| - 1];
      var earlier, before := days[..|days| - 1], lists[..|days| - 1];
      && Distinct(watchlist)
      && if Decided(watchlist, d.turns) == [] then HistoryOf(capital, b, earlier, before, runs)
         else
           && runs != []
           && HistoryOf(capital, b, earlier, before, runs[..|runs| - 1])
           && RunOf(capital, BooksAfter(capital, b, runs[..|runs| - 1]), runs[|runs| - 1], d, watchlist)
  }

  lemma {:induction false} HistoriesAreSound(capital: real, b: Books, days: seq<DayInput>, lists: seq<seq<string>>,
                                             runs: seq<TradingRun>)
    requires HistoryOf(capital, b, days, lists, runs)
    ensures SoundHistory(capital, b, runs) && |lists| == |days| && |runs| <= |days|
  {
    if days != [] {
      var n := |days| - 1;
      if Decided(lists[n], days[n].turns) == [] {
        HistoriesAreSound(capital, b, days[..n], lists[..n], runs);
      } else {
        HistoriesAreSound(capital, b, days[..n], lists[..n], runs[..|runs| - 1]);
      }
    }
  }

  /** Days in increasing order on which the store never raises. */
  ghost predicate UndisturbedDays(days: seq<DayInput>) {
    && (forall i :: 0 <= i < |days| ==> days[i].fault.None?)
    && (forall i, j :: 0 <= i < j < |days| ==> days[i].day < days[j].day)
  }

  lemma EarlierDaysAreUndisturbed(days: seq<DayInput>)
    requires days != [] && UndisturbedDays(days)
    ensures UndisturbedDays(days[..|days| - 1])
    ensures |days| > 1 ==> days[..|days| - 1][|days| - 2].day < days[|days| - 1].day
  {
  }

  lemma {:induction false} UndisturbedDaysFinish(capital: real, b: Books, days: seq<DayInput>, lists: seq<seq<string>>,
                                                 runs: seq<TradingRun>)
    requires HistoryOf(capital, b, days, lists, runs) && UndisturbedDays(days)
    ensures FinishedInOrder(runs)
    ensures runs != [] ==> days != [] && runs[|runs| - 1].day <= days[|days| - 1].day
  {
    if days != [] {
      var n := |days| - 1;
      EarlierDaysAreUndisturbed(days);
      if Decided(lists[n], days[n].turns) == [] {
        UndisturbedDaysFinish(capital, b, days[..n], lists[..n], runs);
      } else {
        var before := runs[..|runs| - 1];
        UndisturbedDaysFinish(capital, b, days[..n], lists[..n], before);
        OneMoreInOrder(runs);
      }
    }
  }

  lemma OneMoreInOrder(runs: seq<TradingRun>)
    requires runs != [] && FinishedInOrder(runs[..|runs| - 1]) && runs[|runs| - 1].done.None?
    requires |runs| > 1 ==> runs[..|runs| - 1][|runs| - 2].day < runs[|runs| - 1].day
    ensures FinishedInOrder(runs)
  {
    var n := |runs| - 1;
    forall i | 0 <= i < n
      ensures runs[i].done.None? && runs[i].day < runs[n].day
    {
      assert runs[..n][i] == runs[i];
      assert i < n - 1 ==> runs[..n][i].day < runs[..n][n - 1].day;
    }
    forall i, j | 0 <= i < j < n
      ensures runs[i].day < runs[j].day
    {
      assert runs[..n][i].day < runs[..n][j].day;
    }
  }

  /**
    Days in increasing order without a raise, on an account without snapshots: every day that trades stores a snapshot
    whose nav is the nav of the start plus what the held positions gained by then.
   */
  lemma {:induction false} UndisturbedDaysDoNotDrift(capital: real, b: Books, days: seq<DayInput>,
                                                     lists: seq<seq<string>>, runs: seq<TradingRun>)
    requires HistoryOf(capital, b, days, lists, runs) && UndisturbedDays(days) && b.navs.Keys == {}
    ensures AllStoredMoved(capital, b, runs, BooksAfter(capital, b, runs).navs)
  {
    HistoriesAreSound(capital, b, days, lists, runs);
    UndisturbedDaysFinish(capital, b, days, lists, runs);
    SnapshotsMoveOnlyWithPrices(capital, b, runs);
  }

  /** What a row of days left: the books of its history, and the nav it predicts if the last day finished. */
  ghost predicate Traded(capital: real, b: Books, days: seq<DayInput>, lists: seq<seq<string>>, runs: seq<TradingRun>,
                         now: Books, last: Outcome)
  {
    && HistoryOf(capital, b, days, lists, runs)
    && SoundHistory(capital, b, runs)
    && now == BooksAfter(capital, b, runs)
    && NavAsPredicted(capital, b, runs, last)
  }

  /** A run that finished computed the nav the history predicts; before the first run there is nothing to predict. */
  ghost predicate NavAsPredicted(capital: real, b: Books, runs: seq<TradingRun>, outcome: Outcome)
    requires SoundHistory(capital, b, runs)
  {
    outcome.Completed? ==>
      && runs != []
      && outcome.row.nav == StartNav(capital, b, runs[0]) + Revaluations(capital, b, runs) + Drifts(capital, b, runs)
  }

  lemma OneMoreRun(capital: real, b: Books, runs: seq<TradingRun>, run: TradingRun, after: Books)
    requires SoundHistory(capital, b, runs) && SoundRun(BooksAfter(capital, b, runs).positions, run)
    requires after == AfterRun(capital, BooksAfter(capital, b, runs), run)
    ensures SoundHistory(capital, b, runs + [run]) && BooksAfter(capital, b, runs + [run]) == after
    ensures StartNav(capital, BooksAfter(capital, b, runs), run)
         == StartNav(capital, b, (runs + [run])[0]) + Revaluations(capital, b, runs + [run])
           + Drifts(capital, b, runs + [run])
  {
    assert (runs + [run])[..|runs|] == runs;
    NavMovesOnlyWithPrices(capital, b, runs + [run]);
  }

  lemma OneMoreDay(capital: real, b: Books, days: seq<DayInput>, lists: seq<seq<string>>, runs: seq<TradingRun>,
                   d: DayInput, watchlist: seq<string>, run: TradingRun)
    requires HistoryOf(capital, b, days, lists, runs) && Distinct(watchlist)
    requires Decided(watchlist, d.turns) != [] ==> RunOf(capital, BooksAfter(capital, b, runs), run, d, watchlist)
    ensures HistoryOf(capital, b, days + [d], lists + [watchlist], if Decided(watchlist, d.turns) == [] then runs
                      else runs + [run])
  {
    assert (days + [d])[..|days|] == days && (lists + [watchlist])[..|lists|] == lists
           && (runs + [run])[..|runs|] == runs;
  }

  /** A day without decisions leaves everything; any other adds its run. */
  lemma OneMoreTraded(capital: real, b: Books, days: seq<DayInput>, lists: seq<seq<string>>,
                      runs: seq<TradingRun>, was: Books, before: Outcome, d: DayInput, watchlist: seq<string>,
                      run: TradingRun, now: Books, last: Outcome)
    requires Traded(capital, b, days, lists, runs, was, before) && Distinct(watchlist)
    requires last.Idle? <==> Decided(watchlist, d.turns) == []
    requires last.Idle? ==> now == was
    requires !last.Idle? ==> RunOf(capital, was, run, d, watchlist) && now == AfterRun(capital, was, run)
    requires last.Completed? ==> last.row.nav == StartNav(capital, was, run)
    ensures Traded(capital, b, days + [d], lists + [watchlist], if last.Idle? then runs else runs + [run], now, last)
  {
    OneMoreDay(capital, b, days, lists, runs, d, watchlist, run);
    if !last.Idle? {
      OneMoreRun(capital, b, runs, run, now);
    }
  }

  /** The lists of the days start with what was watched from the beginning. */
  ghost predicate Extend(days: seq<DayInput>, lists: seq<seq<string>>, aShares: seq<string>, unitedStates: seq<string>)
    requires |lists| == |days|
  {
    forall k :: 0 <= k < |days| ==> (if days[k].market == "us" then unitedStates else aShares) <= lists[k]
  }

  lemma OneMoreExtends(days: seq<DayInput>, i: nat, lists: seq<seq<string>>, watchlist: seq<string>,
                       aShares: seq<string>, unitedStates: seq<string>)
    requires i < |days| && |lists| == i && Extend(days[..i], lists, aShares, unitedStates)
    requires (if days[i].market == "us" then unitedStates else aShares) <= watchlist
    ensures days[..i + 1] == days[..i] + [days[i]]
    ensures Extend(days[..i + 1], lists + [watchlist], aShares, unitedStates)
  {
    forall k | 0 <= k < i
      ensures (if days[k].market == "us" then unitedStates else aShares) <= lists[k]
    {
      assert days[..i][k] == days[k];
    }
  }

  /**
    Any number of scheduled days on one ledger and one set of watchlists. The books are those of the history of just
    these days, a last day that finishes computes the nav that history predicts, and undisturbed days do not drift.
   */
  method TradeDays(ledger: AccountLedger, watchlists: Watchlists, days: seq<DayInput>)
    returns (last: Outcome, ghost runs: seq<TradingRun>, ghost lists: seq<seq<string>>)
    requires watchlists.Valid()
    modifies ledger, watchlists
    ensures watchlists.Valid()
    ensures Traded(ledger.initialCapital, old(ledger.Value()), days, lists, runs, ledger.Value(), last)
    ensures Extend(days, lists, old(watchlists.aShares), old(watchlists.unitedStates))
    ensures UndisturbedDays(days) && old(ledger.navs.Keys) == {} ==>
              AllStoredMoved(ledger.initialCapital, old(ledger.Value()), runs, ledger.navs)
  {
    last, runs, lists := Idle, [], [];
    ghost var opening, capital := ledger.Value(), ledger.initialCapital;
    ghost var aShares, unitedStates := watchlists.aShares, watchlists.unitedStates;
    for i := 0 to |days|
      invariant watchlists.Valid() && aShares <= watchlists.aShares && unitedStates <= watchlists.unitedStates
      invariant |lists| == i && Extend(days[..i], lists, aShares, unitedStates)
      invariant Traded(capital, opening, days[..i], lists, runs, ledger.Value(), last)
    {
      ghost var was, before := ledger.Value(), last;
      ghost var run;
      last, run := ledger.ExecuteDailyTrading(watchlists, days[i]);
      ghost var watchlist := watchlists.Of(days[i].market);
      OneMoreTraded(capital, opening, days[..i], lists, runs, was, before, days[i], watchlist, run,
                    ledger.Value(), last);
      OneMoreExtends(days, i, lists, watchlist, aShares, unitedStates);
      lists := lists + [watchlist];
      runs := if last.Idle? then runs else runs + [run];
    }
    assert days[..|days|] == days;
    if UndisturbedDays(days) && opening.navs.Keys == {} {
      UndisturbedDaysDoNotDrift(capital, opening, days, lists, runs);
    }
  }
}
