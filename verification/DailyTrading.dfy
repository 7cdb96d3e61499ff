/**
  The scheduler's daily trading: plan, book the fills on the stored positions, then recompute cash and positions value.
  There are no fees and no slippage here, so trading at fixed prices should leave the net asset value where it was.
 */
module DailyTrading {
  import opened DailyWatchlist
  import opened MarketRules
  import opened Numbers
  import opened PaperLedgerStore
  import opened PaperPortfolio
  import opened Results
  import opened TargetPlanner
  import opened Totals

  datatype FillRow = FillRow(symbol: string, side: Side, quantity: int, price: real, notional: real)

  datatype NavRow = NavRow(nav: real, cash: real, positionsValue: real)

  /**
    The store raises while target `at` is booked, before or after its fill row is committed; at the end, while it is
    read.
   */
  datatype Fault = Fault(at: nat, afterFill: bool)

  /** A day without decisions, one whose snapshot was reached, or one that raised on the way. */
  datatype Outcome = Idle | Completed(row: NavRow) | Interrupted

  /** What one day's trading was given and how far it got. `done` is None when it ran to the end. */
  datatype TradingRun = TradingRun(day: int, targets: seq<Target>, prices: map<string, real>, quotes: map<string, real>,
                                   done: Option<nat>)

  /**
    A scheduled day: `quotes` values the account before its first snapshot, `turns` is what each watched symbol
    yields.
   */
  datatype DayInput = DayInput(market: string, quotes: map<string, real>, turns: Turns, maxPositionRatio: real,
                               lotSizes: string -> int, day: int, fault: Option<Fault>)

  datatype Books = Books(positions: map<string, Position>, navs: map<int, NavRow>)

  /** The tables of one account. Position rows carry no buying day, so that part of a position stays empty. */
  class AccountLedger {
    const initialCapital: real
    var positions: map<string, Position>
    var fills: seq<FillRow>
    var navs: map<int, NavRow>

    constructor (initialCapital: real)
      ensures this.initialCapital == initialCapital && positions == map[] && fills == [] && navs == map[]
    {
      this.initialCapital := initialCapital;
      positions, fills, navs := map[], [], map[];
    }

    function Value(): Books
      reads this
    {
      Books(positions, navs)
    }

    method CreateFill(target: Target, price: real)
      modifies this`fills
      ensures fills == old(fills) + [RowOf(target, price)]
    {
      fills := fills + [FillRow(target.symbol, target.side, target.quantity, price, Times(target.quantity, price))];
    }

    method UpdatePosition(symbol: string, quantity: int, avgCost: real)
      modifies this`positions
      ensures positions == old(positions)[symbol := Position(quantity, avgCost, "")]
    {
      positions := positions[symbol := Position(quantity, avgCost, "")];
    }

    /** One snapshot per day: a second one for the day is dropped and the first is returned. */
    method CreateNavSnapshot(day: int, row: NavRow) returns (stored: NavRow)
      modifies this`navs
      ensures navs == Snapped(old(navs), day, row) && stored == navs[day]
    {
      navs, stored := InsertSnapshot(navs, day, row);
    }

    method UpdateForFill(target: Target, price: real)
      modifies this`positions
      ensures positions == AfterFill(old(positions), target, price)
    {
      var symbol, quantity := target.symbol, target.quantity;
      if target.side.Buy? {
        if symbol in positions {
          var totalCost := Times(positions[symbol].quantity, positions[symbol].avgCost) + Times(quantity, price);
          var newQty := positions[symbol].quantity + quantity;
          UpdatePosition(symbol, newQty, PerShare(totalCost, newQty));
        } else {
          UpdatePosition(symbol, quantity, price);
        }
      } else if target.side.Sell? && symbol in positions {
        var sellQty := Min(quantity, positions[symbol].quantity);
        var newQty := positions[symbol].quantity - sellQty;
        if newQty <= 0 {
          UpdatePosition(symbol, 0, 0.0);
        } else {
          UpdatePosition(symbol, newQty, positions[symbol].avgCost);
        }
      }
    }

    /**
      The cash and positions value of the latest snapshot; before the first, the capital less the positions at their
      quotes.
     */
    method ReadAccount(quotes: map<string, real>) returns (cash: real, positionsValue: real)
      ensures cash == StartCash(initialCapital, Value(), quotes) && positionsValue == StartValue(Value(), quotes)
    {
      positionsValue := PositionsValue(positions, quotes);
      cash := initialCapital - positionsValue;
      if navs.Keys != {} {
        var latest := navs[LatestDay(navs)];
        cash, positionsValue := latest.cash, latest.positionsValue;
      }
    }

    /** Books the first `count` targets with a positive quantity, in order. */
    method BookTargets(targets: seq<Target>, prices: map<string, real>, count: nat)
      requires count <= |targets|
      modifies this`positions, this`fills
      ensures positions == AfterTrades(old(positions), targets[..count], prices)
      ensures fills == old(fills) + RowsOf(targets[..count], prices)
    {
      for i := 0 to count
        invariant positions == AfterTrades(old(positions), targets[..i], prices)
        invariant fills == old(fills) + RowsOf(targets[..i], prices)
      {
        assert targets[..i + 1][..i] == targets[..i];
        if targets[i].quantity > 0 {
          var price := PriceOf(targets[i], prices);
          CreateFill(targets[i], price);
          UpdateForFill(targets[i], price);
        }
      }
    }

    /** Books every target and records the day's snapshot, unless the store raises on the way. */
    method TradeAndSnapshot(targets: seq<Target>, prices: map<string, real>, cash: real, day: int, fault: Option<Fault>)
      returns (row: Option<NavRow>)
      requires fault.Some? ==> fault.value.at <= |targets|
      modifies this
      ensures row.None? <==> fault.Some?
      ensures positions == AfterTrades(old(positions), if fault.Some? then targets[..fault.value.at]
                                       else targets, prices)
      ensures fills == old(fills) + if fault.Some? then RowsUntil(targets, prices, fault.value)
              else RowsOf(targets, prices)
      ensures row.None? ==> navs == old(navs)
      ensures row.Some? ==>
                && row.value == DayRow(cash, old(positions), targets, prices)
                && navs == Snapped(old(navs), day, row.value)
    {
      if fault.Some? {
        var Fault(at, afterFill) := fault.value;
        BookTargets(targets, prices, at);
        if afterFill && at < |targets| && targets[at].quantity > 0 {
          CreateFill(targets[at], PriceOf(targets[at], prices));
        }
        return None;
      }
      BookTargets(targets, prices, |targets|);
      assert targets[..|targets|] == targets;
      var finalPositionsValue := PositionsValue(positions, prices);
      var finalCash := FinalCash(targets, prices, cash);
      var stored := NavRow(finalCash + finalPositionsValue, finalCash, finalPositionsValue);
      row := Some(stored);
      var _ := CreateNavSnapshot(day, stored);
    }

    /**
      One day's trading: the plan of the day's decisions is booked, in full unless the store raises. Whatever the
      market does, the computed nav is the nav the day started from at the day's prices.
     */
    method ExecuteDailyTrading(watchlists: Watchlists, d: DayInput) returns (outcome: Outcome, ghost run: TradingRun)
      requires watchlists.Valid()
      modifies this, watchlists
      ensures watchlists.Valid() && old(watchlists.Of(d.market)) <= watchlists.Of(d.market)
      ensures forall s :: s in watchlists.Of(d.market) <==> s in old(watchlists.Of(d.market)) || s in old(positions)
      ensures if d.market == "us" then watchlists.aShares == old(watchlists.aShares)
              else watchlists.unitedStates == old(watchlists.unitedStates)
      ensures outcome.Idle? <==> Decided(watchlists.Of(d.market), d.turns) == []
      ensures outcome.Idle? ==> Value() == old(Value()) && fills == old(fills)
      ensures !outcome.Idle? ==>
                && RunOf(initialCapital, old(Value()), run, d, watchlists.Of(d.market))
                && (outcome.Interrupted? <==> d.fault.Some?)
                && Value() == AfterRun(initialCapital, old(Value()), run)
      ensures outcome.Interrupted? ==>
                fills == old(fills) + RowsUntil(run.targets, run.prices, FaultWithin(d.fault, |run.targets|).value)
      ensures outcome.Completed? ==>
                && fills == old(fills) + RowsOf(run.targets, run.prices)
                && outcome.row == DayRow(StartCash(initialCapital, old(Value()), d.quotes), old(positions),
                                         run.targets, run.prices)
                && outcome.row.nav == StartNav(initialCapital, old(Value()), run)
                && AllObeyed(initialCapital, old(Value()), d, watchlists.Of(d.market), positions, fills[|old(fills)|..])
    {
      run := TradingRun(d.day, [], map[], d.quotes, None);
      var cash, positionsValue := ReadAccount(d.quotes);
      var watchlist := watchlists.ForMarket(d.market, positions.Keys);
      var decisions, prices := Decide(watchlist, d.turns);
      if decisions == [] {
        return Idle, run;
      }
      var targets;
      targets, run := PlanDay(watchlist, d, decisions, prices, cash, positionsValue);
      var fault := FaultWithin(d.fault, |targets|);
      var row := TradeAndSnapshot(targets, prices, cash, d.day, fault);
      outcome := if row.Some? then Completed(row.value) else Interrupted;
      assert row.Some? ==> fills[|old(fills)|..] == RowsOf(targets, prices);
    }

    method PlanDay(watchlist: seq<string>, d: DayInput, decisions: seq<Decision>, prices: map<string, real>, cash: real,
                   positionsValue: real)
      returns (targets: seq<Target>, ghost run: TradingRun)
      requires Distinct(watchlist) && decisions == Decided(watchlist, d.turns) && prices == PricesOf(watchlist, d.turns)
      requires cash == StartCash(initialCapital, Value(), d.quotes) && positionsValue == StartValue(Value(), d.quotes)
      ensures run.targets == targets && RunOf(initialCapital, Value(), run, d, watchlist)
      ensures run.done.None? ==>
                && DayRow(cash, positions, targets, prices).nav == StartNav(initialCapital, Value(), run)
                && AllObeyed(initialCapital, Value(), d, watchlist, AfterRun(initialCapital, Value(), run).positions,
                             RowsOf(targets, prices))
    {
      DecisionsAreDistinct(watchlist, d.turns);
      ActiveIsPart(decisions);
      var sizing := Sizing(cash + positionsValue, d.maxPositionRatio, d.lotSizes);
      var planned := BuildTargetPositions(decisions, prices, sizing, HeldQuantities(positions));
      targets := planned.value;
      PlanSellsWholePositions(targets, decisions, prices, sizing, HeldQuantities(positions));
      run := TradingRun(d.day, targets, prices, d.quotes, StoppedAt(d.fault, |targets|));
      PlannedRun(initialCapital, Value(), run, d, watchlist);
    }
  }

  /** The snapshot of a day that trades `targets` from `cash`. */
  ghost function DayRow(cash: real, positions: map<string, Position>, targets: seq<Target>,
                        prices: map<string, real>): NavRow {
    var finalCash := cash + CashFlow(targets, prices);
    var finalValue := Value(AfterTrades(positions, targets, prices), prices);
    NavRow(finalCash + finalValue, finalCash, finalValue)
  }

  function RowsUntil(targets: seq<Target>, prices: map<string, real>, fault: Fault): seq<FillRow>
    requires fault.at <= |targets|
  {
    RowsOf(targets[..fault.at], prices)
      + if fault.afterFill && fault.at < |targets| && targets[fault.at].quantity > 0
        then [RowOf(targets[fault.at], PriceOf(targets[fault.at], prices))] else []
  }

  // The stored state from run to run ------------------------------------------------------------------------------

  lemma NoDayOrSome(days: set<int>)
    ensures days == {} || exists d :: d in days
  {
    if forall d :: d !in days {
      assert days == {};
    }
  }

  predicate IsLatest(days: set<int>, day: int) {
    day in days && forall d :: d in days ==> d <= day
  }

  lemma {:induction false} LatestOf(days: set<int>, one: int) returns (latest: int)
    requires one in days
    ensures IsLatest(days, latest)
    decreases |days|
  {
    var rest := days - {one};
    NoDayOrSome(rest);
    latest := one;
    if other :| other in rest {
      var best := LatestOf(rest, other);
      latest := if best >= one then best else one;
    }
    forall d | d in days
      ensures d <= latest
    {
      assert d == one || d in rest;
    }
  }

  lemma SomeDayIsLatest(days: set<int>)
    requires days != {}
    ensures exists day :: IsLatest(days, day)
  {
    NoDayOrSome(days);
    var one :| one in days;
    var _ := LatestOf(days, one);
  }

  /** ORDER BY trade_date DESC LIMIT 1. */
  function LatestDay(navs: map<int, NavRow>): (day: int)
    requires navs.Keys != {}
    ensures day in navs && forall d :: d in navs ==> d <= day
  {
    SomeDayIsLatest(navs.Keys);
    var day :| IsLatest(navs.Keys, day);
    day
  }

  ghost function StartCash(initialCapital: real, b: Books, quotes: map<string, real>): real {
    if b.navs.Keys == {} then initialCapital - Value(b.positions, quotes) else b.navs[LatestDay(b.navs)].cash
  }

  ghost function StartValue(b: Books, quotes: map<string, real>): real {
    if b.navs.Keys == {} then Value(b.positions, quotes) else b.navs[LatestDay(b.navs)].positionsValue
  }

  /**
    What a day's purchases are sized by: the initial capital until there is a snapshot, then the cash and the
    positions value of the latest one.
   */
  lemma CapitalBaseIsLatest(capital: real, b: Books, d: DayInput)
    ensures b.navs == map[] ==> SizingOf(capital, b, d).capitalBase == capital
    ensures forall day :: day in b.navs && (forall e :: e in b.navs ==> e <= day) ==>
              SizingOf(capital, b, d).capitalBase == b.navs[day].cash + b.navs[day].positionsValue
  {
  }

  /** The cash the account reads plus what it holds at the run's prices. */
  ghost function StartNav(initialCapital: real, b: Books, run: TradingRun): real {
    StartCash(initialCapital, b, run.quotes) + Value(b.positions, run.prices)
  }

  /** Each symbol targeted once and priced, each sale for what is held. */
  ghost predicate SoundPlan(positions: map<string, Position>, targets: seq<Target>, prices: map<string, real>) {
    && DistinctTargets(targets)
    && (forall t :: t in targets ==> t.symbol in prices)
    && (forall t :: t in targets && t.side.Sell? ==>
        t.quantity == AtLeastZero(CurrentQuantity(HeldQuantities(positions), t.symbol)))
  }

  ghost predicate SoundRun(positions: map<string, Position>, run: TradingRun) {
    SoundPlan(positions, run.targets, run.prices) && (run.done.Some? ==> run.done.value <= |run.targets|)
  }

  ghost function SizingOf(capital: real, b: Books, d: DayInput): Sizing {
    Sizing(StartCash(capital, b, d.quotes) + StartValue(b, d.quotes), d.maxPositionRatio, d.lotSizes)
  }

  /** The plan of the day's decisions on the watchlist, sized by the account as it was read. */
  ghost predicate PlannedFrom(capital: real, b: Books, targets: seq<Target>, d: DayInput, watchlist: seq<string>) {
    IsPlan(targets, Decided(watchlist, d.turns), PricesOf(watchlist, d.turns), SizingOf(capital, b, d),
           HeldQuantities(b.positions))
  }

  function FaultWithin(fault: Option<Fault>, count: nat): (within: Option<Fault>)
    ensures within.Some? ==> within.value.at <= count
    ensures within.Some? <==> fault.Some?
  {
    if fault.Some? && fault.value.at > count then Some(Fault(count, false)) else fault
  }

  function StoppedAt(fault: Option<Fault>, count: nat): Option<nat> {
    if fault.Some? then Some(FaultWithin(fault, count).value.at) else None
  }

  /**
    The run is what the day's input makes of the books: planned from the decisions, and stopped exactly by the day's
    fault.
   */
  ghost predicate RunOf(capital: real, b: Books, run: TradingRun, d: DayInput, watchlist: seq<string>) {
    && run.day == d.day && run.quotes == d.quotes && run.prices == PricesOf(watchlist, d.turns)
    && run.done == StoppedAt(d.fault, |run.targets|)
    && PlannedFrom(capital, b, run.targets, d, watchlist)
    && SoundRun(b.positions, run)
  }

  lemma IsRunOf(capital: real, b: Books, run: TradingRun, d: DayInput, watchlist: seq<string>)
    requires run == TradingRun(d.day, run.targets, PricesOf(watchlist, d.turns), d.quotes,
                               StoppedAt(d.fault, |run.targets|))
    requires IsPlan(run.targets, Decided(watchlist, d.turns), run.prices, SizingOf(capital, b, d),
                    HeldQuantities(b.positions))
    requires SoundPlan(b.positions, run.targets, run.prices)
    ensures RunOf(capital, b, run, d, watchlist)
  {
  }

  /** The targets whose positions were committed. */
  function Executed(run: TradingRun): seq<Target>
    requires run.done.Some? ==> run.done.value <= |run.targets|
  {
    if run.done.Some? then run.targets[..run.done.value] else run.targets
  }

  ghost function AfterRun(initialCapital: real, b: Books, run: TradingRun): Books
    requires run.done.Some? ==> run.done.value <= |run.targets|
  {
    var after := AfterTrades(b.positions, Executed(run), run.prices);
    var row := DayRow(StartCash(initialCapital, b, run.quotes), b.positions, run.targets, run.prices);
    Books(after, if run.done.Some? then b.navs else Snapped(b.navs, run.day, row))
  }

  lemma PartOfSoundPlan(positions: map<string, Position>, targets: seq<Target>, prices: map<string, real>, n: nat)
    requires SoundPlan(positions, targets, prices) && n <= |targets|
    ensures SoundPlan(positions, targets[..n], prices)
  {
    forall t | t in targets[..n]
      ensures t in targets
    {
    }
  }

  /** Trading moves value between cash and positions: what was executed conserves their sum at the run's prices. */
  lemma ExecutedConserves(positions: map<string, Position>, run: TradingRun)
    requires SoundRun(positions, run)
    ensures CashFlow(Executed(run), run.prices) + Value(AfterTrades(positions, Executed(run), run.prices), run.prices)
         == Value(positions, run.prices)
  {
    if run.done.Some? {
      PartOfSoundPlan(positions, run.targets, run.prices, run.done.value);
    }
    DistinctPlanHasNoPhantoms(positions, Executed(run), run.prices);
    TradingMovesNavByPhantoms(positions, Executed(run), run.prices);
  }

  lemma RunConservesNav(initialCapital: real, b: Books, run: TradingRun)
    requires SoundRun(b.positions, run)
    ensures run.done.None? ==>
              DayRow(StartCash(initialCapital, b, run.quotes), b.positions, run.targets, run.prices).nav
                == StartNav(initialCapital, b, run)
  {
    ExecutedConserves(b.positions, run);
  }

  // What a finished day does to each symbol -----------------------------------------------------------------------

  function RowsFor(rows: seq<FillRow>, symbol: string): seq<FillRow> {
    if rows == [] then []
    else
      RowsFor(rows[..|rows| - 1], symbol) + if rows[|rows| - 1].symbol == symbol then [rows[|rows| - 1]] else []
  }

  /**
    A SELL signal sells all that is held in one fill at the symbol's price, a BUY signal buys what its slice affords
    in one fill, and without a signal nothing happens.
   */
  ghost predicate Obeyed(symbol: string, turn: Turn, was: Position, now: Position, rows: seq<FillRow>,
                         slice: real, lot: int) {
    match turn
    case Quoted(price, Some(Buy)) =>
      var bought := now.quantity - was.quantity;
      && FillsSlice(bought, price, slice, lot)
      && rows == if bought > 0 then [FillRow(symbol, Buy, bought, price, Times(bought, price))] else []
    case Quoted(price, Some(Sell)) =>
      if was.quantity > 0 then
        now.quantity == 0 && rows == [FillRow(symbol, Sell, was.quantity, price, Times(was.quantity, price))]
      else now == was && rows == []
    case _ => now == was && rows == []
  }

  /** The capital a day's signals share, whatever they say. */
  ghost function SliceOf(capital: real, b: Books, d: DayInput, watchlist: seq<string>): real {
    Slice(SizingOf(capital, b, d), Max(|Signalled(watchlist, d.turns)|, 1))
  }

  ghost predicate AllObeyed(capital: real, b: Books, d: DayInput, watchlist: seq<string>, after: map<string, Position>,
                            rows: seq<FillRow>) {
    forall s ::
      Obeyed(s, if s in watchlist then d.turns(s) else NoQuote, Held(b.positions, s), Held(after, s), RowsFor(rows, s),
             SliceOf(capital, b, d, watchlist), d.lotSizes(s))
  }

  lemma {:induction false} RowsForAppended(rows: seq<FillRow>, more: seq<FillRow>, symbol: string)
    ensures RowsFor(rows + more, symbol) == RowsFor(rows, symbol) + RowsFor(more, symbol)
    decreases |more|
  {
    if more == [] {
      assert rows + more == rows;
    } else {
      RowsForAppended(rows, more[..|more| - 1], symbol);
      assert (rows + more)[..|rows + more| - 1] == rows + more[..|more| - 1];
    }
  }

  lemma {:induction false} UntradedHasNoRows(targets: seq<Target>, prices: map<string, real>, symbol: string)
    requires forall t :: t in targets ==> t.symbol != symbol
    ensures RowsFor(RowsOf(targets, prices), symbol) == []
  {
    if targets != [] {
      var most, t := targets[..|targets| - 1], targets[|targets| - 1];
      UntradedHasNoRows(most, prices, symbol);
      OneRowOf(t, prices, symbol);
      RowsForAppended(RowsOf(most, prices), RowOrNone(t, prices), symbol);
    }
  }

  function RowOrNone(t: Target, prices: map<string, real>): seq<FillRow> {
    if t.quantity > 0 then [RowOf(t, PriceOf(t, prices))] else []
  }

  lemma OneRowOf(t: Target, prices: map<string, real>, symbol: string)
    ensures RowsFor(RowOrNone(t, prices), symbol) == if t.symbol == symbol then RowOrNone(t, prices) else []
  {
    if t.quantity > 0 {
      var row := RowOf(t, PriceOf(t, prices));
      assert [row][..0] == [];
    }
  }

  /** A target leaves other symbols alone. */
  lemma OtherSymbolsStay(positions: map<string, Position>, t: Target, price: real, symbol: string)
    requires t.symbol != symbol
    ensures Held(AfterFill(positions, t, price), symbol) == Held(positions, symbol)
  {
  }

  /** What one target makes of the position of its symbol. */
  function Moved(positions: map<string, Position>, t: Target, prices: map<string, real>): Position {
    Held(if t.quantity > 0 then AfterFill(positions, t, PriceOf(t, prices)) else positions, t.symbol)
  }

  /** Of distinct targets only its own moves a symbol. */
  lemma {:induction false} MovedOnce(positions: map<string, Position>, targets: seq<Target>,
                                     prices: map<string, real>, i: nat)
    requires i < |targets| && DistinctTargets(targets)
    ensures var before := AfterTrades(positions, targets[..i], prices);
            && Held(before, targets[i].symbol) == Held(positions, targets[i].symbol)
            && Held(AfterTrades(positions, targets, prices), targets[i].symbol) == Moved(before, targets[i], prices)
    decreases |targets|
  {
    var n := |targets| - 1;
    if i == n {
      UntradedIsUntouched(positions, targets[..n], prices, targets[n].symbol);
    } else {
      MovedOnce(positions, targets[..n], prices, i);
      assert targets[..n][..i] == targets[..i];
      OtherSymbolsStay(AfterTrades(positions, targets[..n], prices), targets[n], PriceOf(targets[n], prices),
                       targets[i].symbol);
    }
  }

  lemma {:induction false} BookedOnce(targets: seq<Target>, prices: map<string, real>, i: nat)
    requires i < |targets| && DistinctTargets(targets)
    ensures RowsFor(RowsOf(targets, prices), targets[i].symbol) == RowOrNone(targets[i], prices)
    decreases |targets|
  {
    var n := |targets| - 1;
    RowsForAppended(RowsOf(targets[..n], prices), RowOrNone(targets[n], prices), targets[i].symbol);
    OneRowOf(targets[n], prices, targets[i].symbol);
    if i == n {
      UntradedHasNoRows(targets[..n], prices, targets[n].symbol);
    } else {
      BookedOnce(targets[..n], prices, i);
    }
  }

  /** The target of an active decision moves its symbol as the signal says. */
  lemma TargetObeys(b: Books, targets: seq<Target>, prices: map<string, real>, i: nat, turn: Turn)
    requires i < |targets| && DistinctTargets(targets) && targets[i].quantity >= 0 && targets[i].symbol in prices
    requires turn == Quoted(prices[targets[i].symbol], Some(targets[i].side)) && !targets[i].side.OtherSide?
    ensures var t, was, now := targets[i], Held(b.positions, targets[i].symbol).quantity,
                               Held(AfterTrades(b.positions, targets, prices), targets[i].symbol).quantity;
            && RowsFor(RowsOf(targets, prices), t.symbol)
                 == (if t.quantity > 0
                     then [FillRow(t.symbol, t.side, t.quantity, turn.price, Times(t.quantity, turn.price))] else [])
            && (t.quantity == 0 ==>
                  Held(AfterTrades(b.positions, targets, prices), t.symbol) == Held(b.positions, t.symbol))
            && (t.side == Buy ==> now == was + t.quantity)
            && (t.side == Sell && t.quantity == was > 0 ==> now == 0)
  {
    MovedOnce(b.positions, targets, prices, i);
    BookedOnce(targets, prices, i);
  }

  lemma UnsignalledIsUntouched(capital: real, b: Books, run: TradingRun, d: DayInput, watchlist: seq<string>,
                               symbol: string)
    requires RunOf(capital, b, run, d, watchlist)
    requires forall side :: side == Buy || side == Sell ==> Decision(symbol, side) !in Decided(watchlist, d.turns)
    ensures Held(AfterTrades(b.positions, run.targets, run.prices), symbol) == Held(b.positions, symbol)
    ensures RowsFor(RowsOf(run.targets, run.prices), symbol) == []
  {
    var sizing := SizingOf(capital, b, d);
    forall t | t in run.targets
      ensures t.symbol != symbol
    {
      var i :| 0 <= i < |run.targets| && run.targets[i] == t;
      DecisionOfTarget(run.targets, i, Decided(watchlist, d.turns), run.prices, sizing, HeldQuantities(b.positions));
    }
    UntradedIsUntouched(b.positions, run.targets, run.prices, symbol);
    UntradedHasNoRows(run.targets, run.prices, symbol);
  }

  lemma SliceIsShared(capital: real, b: Books, d: DayInput, watchlist: seq<string>)
    requires Distinct(watchlist)
    ensures SliceOf(capital, b, d, watchlist)
            == Slice(SizingOf(capital, b, d), WatchlistSize(Decided(watchlist, d.turns)))
  {
    AsManyAsSignalled(watchlist, d.turns);
  }

  lemma PlannedQuantity(capital: real, b: Books, run: TradingRun, d: DayInput, watchlist: seq<string>,
                        decision: Decision)
      returns (i: nat)
    requires RunOf(capital, b, run, d, watchlist)
    requires decision in Decided(watchlist, d.turns) && !decision.side.OtherSide?
    ensures i < |run.targets| && run.targets[i].symbol == decision.symbol && run.targets[i].side == decision.side
    ensures decision.symbol in run.prices && run.targets[i].quantity >= 0
    ensures Ok(run.targets[i])
         == BuildTargetPosition(decision, SizingOf(capital, b, d), WatchlistSize(Decided(watchlist, d.turns)),
                                run.prices[decision.symbol],
                                CurrentQuantity(HeldQuantities(b.positions), decision.symbol))
  {
    var decisions, sizing := Decided(watchlist, d.turns), SizingOf(capital, b, d);
    ActiveIff(decisions, decision);
    i := TargetOfDecision(run.targets, decisions, decision, run.prices, sizing, HeldQuantities(b.positions));
  }

  lemma PlannedBuyFillsSlice(capital: real, b: Books, d: DayInput, watchlist: seq<string>, symbol: string, price: real)
    requires Distinct(watchlist)
    ensures FillsSlice(BuildTargetPosition(Decision(symbol, Buy), SizingOf(capital, b, d),
                                           WatchlistSize(Decided(watchlist, d.turns)), price,
                                           CurrentQuantity(HeldQuantities(b.positions), symbol)).value.quantity,
                       price, SliceOf(capital, b, d, watchlist), d.lotSizes(symbol))
  {
    SliceIsShared(capital, b, d, watchlist);
    BuyFillsSlice(Decision(symbol, Buy), SizingOf(capital, b, d), WatchlistSize(Decided(watchlist, d.turns)), price,
                  CurrentQuantity(HeldQuantities(b.positions), symbol));
  }

  lemma ObeyedByBuying(symbol: string, price: real, was: Position, now: Position, rows: seq<FillRow>, quantity: int,
                       slice: real, lot: int)
    requires now.quantity == was.quantity + quantity && FillsSlice(quantity, price, slice, lot)
    requires rows == if quantity > 0 then [FillRow(symbol, Buy, quantity, price, Times(quantity, price))] else []
    ensures Obeyed(symbol, Quoted(price, Some(Buy)), was, now, rows, slice, lot)
  {
  }

  lemma BuyObeys(capital: real, b: Books, run: TradingRun, d: DayInput, watchlist: seq<string>, symbol: string,
                 price: real)
    requires Distinct(watchlist) && RunOf(capital, b, run, d, watchlist)
    requires symbol in watchlist && d.turns(symbol) == Quoted(price, Some(Buy))
    ensures Obeyed(symbol, Quoted(price, Some(Buy)), Held(b.positions, symbol),
                   Held(AfterTrades(b.positions, run.targets, run.prices), symbol),
                   RowsFor(RowsOf(run.targets, run.prices), symbol), SliceOf(capital, b, d, watchlist),
                   d.lotSizes(symbol))
  {
    SignalsAreDecided(watchlist, d.turns, symbol, Buy);
    var i := PlannedQuantity(capital, b, run, d, watchlist, Decision(symbol, Buy));
    TargetObeys(b, run.targets, run.prices, i, Quoted(price, Some(Buy)));
    PlannedBuyFillsSlice(capital, b, d, watchlist, symbol, price);
    ObeyedByBuying(symbol, price, Held(b.positions, symbol),
                   Held(AfterTrades(b.positions, run.targets, run.prices), symbol),
                   RowsFor(RowsOf(run.targets, run.prices), symbol), run.targets[i].quantity,
                   SliceOf(capital, b, d, watchlist), d.lotSizes(symbol));
  }

  lemma SellObeys(capital: real, b: Books, run: TradingRun, d: DayInput, watchlist: seq<string>, symbol: string,
                  price: real)
    requires RunOf(capital, b, run, d, watchlist)
    requires symbol in watchlist && d.turns(symbol) == Quoted(price, Some(Sell))
    ensures Obeyed(symbol, Quoted(price, Some(Sell)), Held(b.positions, symbol),
                   Held(AfterTrades(b.positions, run.targets, run.prices), symbol),
                   RowsFor(RowsOf(run.targets, run.prices), symbol), SliceOf(capital, b, d, watchlist),
                   d.lotSizes(symbol))
  {
    SignalsAreDecided(watchlist, d.turns, symbol, Sell);
    var i := PlannedQuantity(capital, b, run, d, watchlist, Decision(symbol, Sell));
    TargetObeys(b, run.targets, run.prices, i, Quoted(price, Some(Sell)));
  }

  lemma SymbolObeys(capital: real, b: Books, run: TradingRun, d: DayInput, watchlist: seq<string>, symbol: string)
    requires Distinct(watchlist) && RunOf(capital, b, run, d, watchlist)
    ensures Obeyed(symbol, if symbol in watchlist then d.turns(symbol) else NoQuote, Held(b.positions, symbol),
                   Held(AfterTrades(b.positions, run.targets, run.prices), symbol),
                   RowsFor(RowsOf(run.targets, run.prices), symbol), SliceOf(capital, b, d, watchlist),
                   d.lotSizes(symbol))
  {
    var turn := if symbol in watchlist then d.turns(symbol) else NoQuote;
    if turn.Quoted? && turn.action == Some(Buy) {
      BuyObeys(capital, b, run, d, watchlist, symbol, turn.price);
    } else if turn.Quoted? && turn.action == Some(Sell) {
      SellObeys(capital, b, run, d, watchlist, symbol, turn.price);
    } else {
      SignalsAreDecided(watchlist, d.turns, symbol, Buy);
      SignalsAreDecided(watchlist, d.turns, symbol, Sell);
      UnsignalledIsUntouched(capital, b, run, d, watchlist, symbol);
    }
  }

  /** A finished day does to every symbol what its signal says. */
  lemma DayObeysSignals(capital: real, b: Books, run: TradingRun, d: DayInput, watchlist: seq<string>)
    requires Distinct(watchlist) && RunOf(capital, b, run, d, watchlist) && run.done.None?
    ensures AllObeyed(capital, b, d, watchlist, AfterRun(capital, b, run).positions, RowsOf(run.targets, run.prices))
  {
    forall s
      ensures Obeyed(s, if s in watchlist then d.turns(s) else NoQuote, Held(b.positions, s),
                     Held(AfterRun(capital, b, run).positions, s), RowsFor(RowsOf(run.targets, run.prices), s),
                     SliceOf(capital, b, d, watchlist), d.lotSizes(s))
    {
      SymbolObeys(capital, b, run, d, watchlist, s);
    }
  }

  lemma PlannedRun(capital: real, b: Books, run: TradingRun, d: DayInput, watchlist: seq<string>)
    requires Distinct(watchlist)
    requires run
          == TradingRun(d.day, run.targets, PricesOf(watchlist, d.turns), d.quotes, StoppedAt(d.fault, |run.targets|))
    requires IsPlan(run.targets, Decided(watchlist, d.turns), run.prices, SizingOf(capital, b, d),
                    HeldQuantities(b.positions))
    requires SoundPlan(b.positions, run.targets, run.prices)
    ensures RunOf(capital, b, run, d, watchlist)
    ensures run.done.None? ==>
              && DayRow(StartCash(capital, b, d.quotes), b.positions, run.targets, run.prices).nav
                 == StartNav(capital, b, run)
              && AllObeyed(capital, b, d, watchlist, AfterRun(capital, b, run).positions,
                           RowsOf(run.targets, run.prices))
  {
    IsRunOf(capital, b, run, d, watchlist);
    RunConservesNav(capital, b, run);
    if run.done.None? {
      DayObeysSignals(capital, b, run, d, watchlist);
    }
  }

  method PositionsValue(positions: map<string, Position>, prices: map<string, real>) returns (value: real)
    ensures value == Value(positions, prices)
  {
    value := 0.0;
    var pending := positions.Keys;
    ghost var left := MarketValues(positions, prices);
    while pending != {}
      invariant pending <= positions.Keys && left.Keys == pending
      invariant forall s :: s in pending ==> left[s] == MarketValues(positions, prices)[s]
      invariant value + Total(left) == Value(positions, prices)
      decreases pending
    {
      var symbol :| symbol in pending;
      TotalWithout(left, symbol);
      value := value + Times(positions[symbol].quantity, MarkPrice(positions[symbol], symbol, prices));
      pending, left := pending - {symbol}, left - {symbol};
    }
  }

  /** The cash of the day is recomputed from the targets, not from the booked fills. */
  method FinalCash(targets: seq<Target>, prices: map<string, real>, cash: real) returns (finalCash: real)
    ensures finalCash == cash + CashFlow(targets, prices)
  {
    finalCash := cash;
    for i := 0 to |targets|
      invariant finalCash == cash + CashFlow(targets[..i], prices)
    {
      assert targets[..i + 1][..i] == targets[..i];
      if targets[i].quantity > 0 {
        var notional := Times(targets[i].quantity, PriceOf(targets[i], prices));
        if targets[i].side.Buy? {
          finalCash := finalCash - notional;
        } else if targets[i].side.Sell? {
          finalCash := finalCash + notional;
        }
      }
    }
    assert targets[..|targets|] == targets;
  }

  function HeldQuantities(positions: map<string, Position>): map<string, int> {
    map s | s in positions :: positions[s].quantity
  }

  function PriceOf(target: Target, prices: map<string, real>): real {
    if target.symbol in prices then prices[target.symbol] else target.price
  }

  function RowOf(target: Target, price: real): FillRow {
    FillRow(target.symbol, target.side, target.quantity, price, Times(target.quantity, price))
  }

  function RowsOf(targets: seq<Target>, prices: map<string, real>): seq<FillRow> {
    if targets == [] then []
    else
      var t := targets[|targets| - 1];
      RowsOf(targets[..|targets| - 1], prices) + if t.quantity > 0 then [RowOf(t, PriceOf(t, prices))] else []
  }

  function AfterFill(positions: map<string, Position>, target: Target, price: real): map<string, Position> {
    var current := Held(positions, target.symbol);
    match target.side
    case Buy =>
      var total := current.quantity + target.quantity;
      var avgCost := if target.symbol in positions
        then PerShare(Cost(current) + Times(target.quantity, price), total) else price;
      positions[target.symbol := Position(total, avgCost, "")]
    case Sell =>
      if target.symbol !in positions then positions
      else if target.quantity >= current.quantity then positions[target.symbol := Position(0, 0.0, "")]
      else positions[target.symbol := Position(current.quantity - target.quantity, current.avgCost, "")]
    case OtherSide(_) => positions
  }

  function AfterTrades(positions: map<string, Position>, targets: seq<Target>,
                       prices: map<string, real>): map<string, Position> {
    if targets == [] then positions
    else
      var before := AfterTrades(positions, targets[..|targets| - 1], prices);
      var t := targets[|targets| - 1];
      if t.quantity > 0 then AfterFill(before, t, PriceOf(t, prices)) else before
  }

  function Flow(target: Target, price: real): real {
    if target.quantity <= 0 || target.side.OtherSide? then 0.0
    else if target.side.Buy? then -Times(target.quantity, price) else Times(target.quantity, price)
  }

  function CashFlow(targets: seq<Target>, prices: map<string, real>): real {
    if targets == [] then 0.0
    else
      CashFlow(targets[..|targets| - 1], prices)
        + Flow(targets[|targets| - 1], PriceOf(targets[|targets| - 1], prices))
  }

  ghost function Value(positions: map<string, Position>, prices: map<string, real>): real {
    Total(MarketValues(positions, prices))
  }

  // Conservation --------------------------------------------------------------------------------------------------

  /**
    Shares credited to cash that were not there to sell: the cash loop trusts the target, the position loop does not.
   */
  function PhantomShares(positions: map<string, Position>, target: Target): int {
    if target.quantity > 0 && target.side.Sell?
      then target.quantity - Min(target.quantity, Held(positions, target.symbol).quantity) else 0
  }

  function Phantoms(positions: map<string, Position>, targets: seq<Target>, prices: map<string, real>): real {
    if targets == [] then 0.0
    else
      var n := |targets| - 1;
      Phantoms(positions, targets[..n], prices)
        + Times(PhantomShares(AfterTrades(positions, targets[..n], prices), targets[n]), PriceOf(targets[n], prices))
  }

  lemma FillMovesValue(positions: map<string, Position>, target: Target, prices: map<string, real>)
    requires target.quantity > 0 && target.symbol in prices
    ensures var price := prices[target.symbol];
            Value(AfterFill(positions, target, price), prices) + Flow(target, price)
              == Value(positions, prices) + Times(PhantomShares(positions, target), price)
  {
    var price := prices[target.symbol];
    var was := Held(positions, target.symbol).quantity;
    var after := AfterFill(positions, target, price);
    if target.side.Buy? {
      MarketValueUpdated(positions, target.symbol, after[target.symbol], prices);
      SharesAddUp(was, target.quantity, price);
    } else if target.side.Sell? && target.symbol in positions {
      MarketValueUpdated(positions, target.symbol, after[target.symbol], prices);
      SharesAddUp(was, Min(target.quantity, was), price);
      SharesAddUp(target.quantity, Min(target.quantity, was), price);
    } else {
      SharesAddUp(target.quantity, Min(target.quantity, 0), price);
    }
  }

  /** A BUY adds its cost to the cost basis; a sale leaves the average cost of what remains. */
  lemma FillAveragesCost(positions: map<string, Position>, target: Target, price: real)
    requires target.quantity > 0 && Held(positions, target.symbol).quantity >= 0
    ensures var was, now := Held(positions, target.symbol), Held(AfterFill(positions, target, price), target.symbol);
            && (target.side.Buy? ==> Cost(now) == Cost(was) + Times(target.quantity, price))
            && (target.side.Sell? && now.quantity > 0 ==> now.avgCost == was.avgCost)
            && (target.side.Sell? && now.quantity == 0 && target.symbol in positions ==> now.avgCost == 0.0)
  {
    var was := Held(positions, target.symbol);
    if target.side.Buy? && target.symbol in positions {
      AverageGivesCostBack(Cost(was) + Times(target.quantity, price), was.quantity + target.quantity);
    }
  }

  lemma AverageGivesCostBack(cost: real, quantity: int)
    requires quantity > 0
    ensures Times(quantity, PerShare(cost, quantity)) == cost
  {
  }

  /** For any targets in priced symbols: trading moves net asset value by exactly the worth of the phantom shares. */
  lemma {:induction false} TradingMovesNavByPhantoms(positions: map<string, Position>, targets: seq<Target>,
                                                     prices: map<string, real>)
    requires forall t :: t in targets ==> t.symbol in prices
    ensures CashFlow(targets, prices) + Value(AfterTrades(positions, targets, prices), prices)
         == Value(positions, prices) + Phantoms(positions, targets, prices)
  {
    if targets != [] {
      var n := |targets| - 1;
      TradingMovesNavByPhantoms(positions, targets[..n], prices);
      if targets[n].quantity > 0 {
        FillMovesValue(AfterTrades(positions, targets[..n], prices), targets[n], prices);
      }
    }
  }

  lemma {:induction false} UntradedIsUntouched(positions: map<string, Position>, targets: seq<Target>,
                                               prices: map<string, real>, symbol: string)
    requires forall t :: t in targets ==> t.symbol != symbol
    ensures Held(AfterTrades(positions, targets, prices), symbol) == Held(positions, symbol)
  {
    if targets != [] {
      UntradedIsUntouched(positions, targets[..|targets| - 1], prices, symbol);
    }
  }

  /** Each symbol targeted once, each SELL for what is held: no phantom shares, so net asset value is conserved. */
  lemma {:induction false} DistinctPlanHasNoPhantoms(positions: map<string, Position>, targets: seq<Target>,
                                                     prices: map<string, real>)
    requires DistinctTargets(targets)
    requires forall t :: t in targets && t.side.Sell? ==>
               t.quantity == AtLeastZero(CurrentQuantity(HeldQuantities(positions), t.symbol))
    ensures Phantoms(positions, targets, prices) == 0.0
  {
    if targets != [] {
      var n := |targets| - 1;
      DistinctPlanHasNoPhantoms(positions, targets[..n], prices);
      UntradedIsUntouched(positions, targets[..n], prices, targets[n].symbol);
      assert targets[n] in targets;
      var before := AfterTrades(positions, targets[..n], prices);
      assert PhantomShares(before, targets[n]) == PhantomShares(positions, targets[n]) == 0;
      assert Times(0, PriceOf(targets[n], prices)) == 0.0;
    }
  }

  lemma {:induction false} ActiveIsPart(decisions: seq<Decision>)
    ensures forall d :: d in Active(decisions) ==> d in decisions
  {
    if decisions != [] {
      ActiveIsPart(decisions[..|decisions| - 1]);
    }
  }

  /**
    Why the watchlist has to name each symbol once: a target list that sold one holding twice would book it once in the
    positions and twice in the cash. No watchlist yields such a list.
   */
  lemma SellingTwiceCreatesValue(symbol: string, target: Target, positions: map<string, Position>,
                                 prices: map<string, real>)
    requires symbol in prices && target.symbol == symbol && target.side.Sell?
    requires target.quantity == Held(positions, symbol).quantity > 0
    ensures CashFlow([target, target], prices) + Value(AfterTrades(positions, [target, target], prices), prices)
         == Value(positions, prices) + Times(target.quantity, prices[symbol])
  {
    var targets := [target, target];
    TradingMovesNavByPhantoms(positions, targets, prices);
    assert targets[..1] == [target] && [target][..0] == [];
    assert AfterTrades(positions, [], prices) == positions;
    assert AfterTrades(positions, [target], prices) == AfterFill(positions, target, prices[symbol]);
    assert PhantomShares(positions, target) == 0;
    assert PhantomShares(AfterTrades(positions, [target], prices), target) == target.quantity;
    assert Phantoms(positions, [], prices) == 0.0;
    assert Phantoms(positions, [target], prices) == Times(0, prices[symbol]);
  }
}
