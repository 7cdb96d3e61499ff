/** The shadow run: plan targets, gate each of them, execute what was approved, and report the profit of the run. */
module ShadowRun {
  import opened MarketRules
  import opened PaperExecution
  import opened PaperPortfolio
  import opened PreTradeRisk
  import opened Results
  import opened Rounding
  import opened TargetPlanner

  /** The latest account snapshot; a fresh account has no recorded net asset value. */
  datatype Account = Account(portfolio: Portfolio, nav: Option<real>)

  function NavOf(account: Account, sizing: Sizing): real {
    if account.nav.Some? then account.nav.value else sizing.capitalBase
  }

  function Quantities(portfolio: Portfolio): map<string, int> {
    map s | s in portfolio.positions :: portfolio.positions[s].quantity
  }

  /**
    What the gate is asked for one target; the run names no market and no buying day, so the A-share default applies.
   */
  function RequestFor(target: Target, account: Account, sizing: Sizing, killSwitch: bool, today: int): (q: Request)
    requires target.side.Buy? && target.quantity > 0 ==> target.lotSize != 0
    ensures Askable(q)
  {
    Request(target.side, killSwitch, account.portfolio.cash, target.notional as real,
            Times(Held(account.portfolio.positions, target.symbol).quantity, target.price), NavOf(account, sizing),
            sizing.maxPositionRatio, target.quantity, target.lotSize, ChinaA, None, today)
  }

  ghost predicate WellSized(targets: seq<Target>) {
    forall t :: t in targets ==> (t.side.Buy? && t.quantity > 0 ==> t.lotSize != 0)
  }

  function Gated(targets: seq<Target>, account: Account, sizing: Sizing, killSwitch: nat -> bool,
                 today: int): (approved: seq<Target>)
    requires WellSized(targets)
    ensures |approved| <= |targets|
  {
    if targets == [] then []
    else
      var n := |targets| - 1;
      var approved := Gated(targets[..n], account, sizing, killSwitch, today);
      if EvaluateRiskGate(RequestFor(targets[n], account, sizing, killSwitch(n), today)).Approved?
        then approved + [targets[n]]
      else approved
  }

  datatype RunError = PlanFailed(plan: PlanError) | FillFailed(fill: FillError)

  datatype PnlSummary = PnlSummary(feeTotal: real, realizedPnl: real, netPnl: real)

  function BuildRunPnlSummary(previousNav: real, currentNav: real, orders: seq<ExecutionOrder>): PnlSummary {
    PnlSummary(Round2(FeeTotal(orders)), Round2(PnlTotal(orders)), Round2(currentNav - previousNav))
  }

  datatype RunReport = RunReport(executable: seq<Target>, execution: Option<PaperExecution.Execution>,
                                 summary: PnlSummary)

  ghost predicate Reported(report: RunReport, account: Account, sizing: Sizing, costs: Costs, prices: map<string, real>,
                           tradeDate: string) {
    match report.execution
    case None => report.summary == BuildRunPnlSummary(NavOf(account, sizing), NavOf(account, sizing), [])
    case Some(e) =>
      && Replay(account.portfolio, FillsOf(costs, report.executable, tradeDate))
         == Ok(Filled(e.portfolio, PnlTotal(e.orders)))
      && AllBooked(e.orders, report.executable, costs, tradeDate)
      && e.nav == Round2(MarkedValue(e.portfolio, prices))
      && report.summary == BuildRunPnlSummary(NavOf(account, sizing), e.nav, e.orders)
  }

  /** The gate compares with the recorded nav, and with the capital only while none is recorded. */
  lemma GateSeesRecordedNav(target: Target, account: Account, sizing: Sizing, killSwitch: bool, today: int)
    requires target.side.Buy? && target.quantity > 0 ==> target.lotSize != 0
    ensures RequestFor(target, account, sizing, killSwitch, today).nav
         == if account.nav == None then sizing.capitalBase else account.nav.value
  {
  }

  /**
    The report's figures, each to half a cent: net profit against the recorded nav, or the capital while none is
    recorded, and the orders' profits. The fees are the configured part of the turnover to half a cent per order and
    one more.
   */
  lemma ReportIsAgainstRecordedNav(report: RunReport, account: Account, sizing: Sizing, costs: Costs,
                                   prices: map<string, real>, tradeDate: string)
    requires Reported(report, account, sizing, costs, prices, tradeDate)
    ensures var previous := if account.nav == None then sizing.capitalBase else account.nav.value;
            var summary := report.summary;
            match report.execution
            case None => summary.netPnl == summary.feeTotal == summary.realizedPnl == 0.0
            case Some(e) =>
              var fees := Product(Turnover(e.orders), costs.feeBps) / 10000.0;
              && -0.005 <= summary.netPnl - (e.nav - previous) <= 0.005
              && -0.005 <= summary.realizedPnl - PnlTotal(e.orders) <= 0.005
              && -0.005 * (|e.orders| + 1) as real <= summary.feeTotal - fees <= 0.005 * (|e.orders| + 1) as real
  {
    NearestOfInteger(0);
    if report.execution.Some? {
      FeesAreAsConfigured(report.execution.value.orders, report.executable, costs, tradeDate);
    }
  }

  /**
    Every active decision has a price and, unless only decisions are wanted, every approved SELL of the plan is
    covered.
   */
  ghost predicate Executable(decisions: seq<Decision>, prices: map<string, real>, sizing: Sizing, account: Account,
                             killSwitch: nat -> bool, decisionOnly: bool, today: int)
  {
    && (forall d :: d in Active(decisions) ==> d.symbol in prices)
    && (decisionOnly || forall targets ::
        IsPlan(targets, decisions, prices, sizing, Quantities(account.portfolio)) && WellSized(targets) ==>
          AllCovered(account.portfolio.positions, Gated(targets, account, sizing, killSwitch, today)))
  }

  /**
    The decision list in, the executed portfolio and the run's profit out. Over distinct symbols no order is ever
    rejected.
   */
  method Run(service: PaperExecutionService, decisions: seq<Decision>, prices: map<string, real>, sizing: Sizing,
             account: Account, killSwitch: nat -> bool, decisionOnly: bool, tradeDate: string, today: int)
    returns (r: Result<RunReport, RunError>)
    modifies service.store
    ensures r.Ok? <==> Executable(decisions, prices, sizing, account, killSwitch, decisionOnly, today)
    ensures (forall d :: d in Active(decisions) ==> d.symbol in prices) && DistinctDecisions(decisions) ==> r.Ok?
    ensures r.Ok? ==>
      && Reported(r.value, account, sizing, service.costs, prices, tradeDate)
      && (r.value.execution.Some? <==> !decisionOnly && r.value.executable != [])
      && exists targets ::
        && IsPlan(targets, decisions, prices, sizing, Quantities(account.portfolio))
        && WellSized(targets)
        && r.value.executable == Gated(targets, account, sizing, killSwitch, today)
  {
    var planned := BuildTargetPositions(decisions, prices, sizing, Quantities(account.portfolio));
    if planned.Raised? {
      return Raised(PlanFailed(planned.error));
    }
    var targets := planned.value;
    PlanIsWellSized(targets, decisions, prices, sizing, Quantities(account.portfolio));
    var executable := ApproveTargets(targets, account, sizing, killSwitch, today);
    PlanIsUnique(targets, decisions, prices, sizing, Quantities(account.portfolio));
    GatedPlanGoesThroughIff(targets, decisions, prices, sizing, account, killSwitch, today, service.costs, tradeDate);
    var previousNav := NavOf(account, sizing);
    if decisionOnly || executable == [] {
      return Ok(RunReport(executable, None, BuildRunPnlSummary(previousNav, previousNav, [])));
    }
    if DistinctDecisions(decisions) {
      GatedPlanNeverOversells(targets, decisions, prices, sizing, account, killSwitch, today, service.costs, tradeDate);
    }
    var execution := service.ExecuteTargets(executable, account.portfolio, prices, tradeDate);
    if execution.Raised? {
      return Raised(FillFailed(execution.error));
    }
    r := Ok(RunReport(executable, Some(execution.value),
                      BuildRunPnlSummary(previousNav, execution.value.nav, execution.value.orders)));
  }

  /** The loop over the targets, without its records and events. */
  method ApproveTargets(targets: seq<Target>, account: Account, sizing: Sizing, killSwitch: nat -> bool, today: int)
    returns (executable: seq<Target>)
    requires WellSized(targets)
    ensures executable == Gated(targets, account, sizing, killSwitch, today)
  {
    executable := [];
    for i := 0 to |targets|
      invariant executable == Gated(targets[..i], account, sizing, killSwitch, today)
    {
      assert targets[..i + 1][..i] == targets[..i];
      var verdict := EvaluateRiskGate(RequestFor(targets[i], account, sizing, killSwitch(i), today));
      if verdict.Approved? {
        executable := executable + [targets[i]];
      }
    }
    assert targets[..|targets|] == targets;
  }

  lemma PlanIsUnique(targets: seq<Target>, decisions: seq<Decision>, prices: map<string, real>, sizing: Sizing,
                     quantities: map<string, int>)
    requires IsPlan(targets, decisions, prices, sizing, quantities)
    ensures forall other :: IsPlan(other, decisions, prices, sizing, quantities) ==> other == targets
  {
    forall other | IsPlan(other, decisions, prices, sizing, quantities)
      ensures other == targets
    {
      var size, active := WatchlistSize(decisions), Active(decisions);
      forall i | 0 <= i < |targets|
        ensures other[i] == targets[i]
      {
        assert Ok(other[i]) == TargetFor(active[i], sizing, size, prices, quantities) == Ok(targets[i]);
      }
    }
  }

  lemma PlanIsWellSized(targets: seq<Target>, decisions: seq<Decision>, prices: map<string, real>, sizing: Sizing,
                        quantities: map<string, int>)
    requires IsPlan(targets, decisions, prices, sizing, quantities)
    ensures WellSized(targets)
  {
    forall t | t in targets
      ensures t.side.Buy? && t.quantity > 0 ==> t.lotSize != 0
    {
      var i :| 0 <= i < |targets| && targets[i] == t;
      var d := Active(decisions)[i];
      assert Ok(t) == BuildTargetPosition(d, sizing, WatchlistSize(decisions), prices[d.symbol],
                                          CurrentQuantity(quantities, d.symbol));
    }
  }

  // Execution of distinct fills -----------------------------------------------------------------------------------

  ghost predicate DistinctFills(fills: seq<Fill>) {
    forall i, j :: 0 <= i < j < |fills| ==> fills[i].symbol != fills[j].symbol
  }

  ghost predicate SellsWhatIsHeld(fills: seq<Fill>, positions: map<string, Position>) {
    forall i :: 0 <= i < |fills| ==>
      && !fills[i].side.OtherSide?
      && (fills[i].side.Sell? ==> fills[i].quantity == Held(positions, fills[i].symbol).quantity)
  }

  ghost predicate Mentions(fills: seq<Fill>, symbol: string) {
    exists i :: 0 <= i < |fills| && fills[i].symbol == symbol
  }

  ghost predicate MovesAsFilled(before: map<string, Position>, after: map<string, Position>, fill: Fill) {
    Held(after, fill.symbol).quantity
      == if fill.side.Sell? then 0 else Held(before, fill.symbol).quantity + fill.quantity
  }

  lemma FillTouchesOnePosition(state: Portfolio, fill: Fill)
    requires !fill.side.OtherSide?
    requires fill.side.Sell? ==> fill.quantity == Held(state.positions, fill.symbol).quantity
    ensures Applied(state, fill).Ok?
    ensures var after := Applied(state, fill).value.portfolio.positions;
            && MovesAsFilled(state.positions, after, fill)
            && forall s :: s != fill.symbol ==> Held(after, s) == Held(state.positions, s)
  {
  }

  /** The fills' own positions have moved as filled; all others are as they were. */
  ghost predicate MovedBy(fills: seq<Fill>, before: map<string, Position>, after: map<string, Position>) {
    && (forall s :: !Mentions(fills, s) ==> Held(after, s) == Held(before, s))
    && (forall i :: 0 <= i < |fills| ==> MovesAsFilled(before, after, fills[i]))
  }

  lemma OneMoreMoved(fills: seq<Fill>, before: map<string, Position>, middle: map<string, Position>,
                     after: map<string, Position>)
    requires fills != [] && DistinctFills(fills)
    requires MovedBy(fills[..|fills| - 1], before, middle)
    requires MovesAsFilled(middle, after, fills[|fills| - 1])
    requires forall s :: s != fills[|fills| - 1].symbol ==> Held(after, s) == Held(middle, s)
    ensures MovedBy(fills, before, after)
  {
    var n := |fills| - 1;
    var most := fills[..n];
    assert !Mentions(most, fills[n].symbol);
    forall s | !Mentions(fills, s)
      ensures Held(after, s) == Held(before, s)
    {
      assert s != fills[n].symbol;
      assert forall i :: 0 <= i < n ==> most[i] == fills[i];
      assert !Mentions(most, s);
    }
    forall i | 0 <= i < n
      ensures MovesAsFilled(before, after, fills[i])
    {
      assert MovesAsFilled(before, middle, most[i]);
    }
  }

  /**
    Fills in distinct symbols that sell only whole positions all go through, empty what they sell and touch nothing
    else.
   */
  lemma {:induction false} DistinctFillsGoThrough(state: Portfolio, fills: seq<Fill>)
    requires DistinctFills(fills) && SellsWhatIsHeld(fills, state.positions)
    ensures Replay(state, fills).Ok?
    ensures MovedBy(fills, state.positions, Replay(state, fills).value.portfolio.positions)
  {
    if fills != [] {
      var n := |fills| - 1;
      var most := fills[..n];
      DistinctFillsGoThrough(state, most);
      var before := Replay(state, most).value.portfolio;
      assert !Mentions(most, fills[n].symbol);
      FillTouchesOnePosition(before, fills[n]);
      var after := Applied(before, fills[n]).value.portfolio;
      OneMoreMoved(fills, state.positions, before.positions, after.positions);
    }
  }

  function FeesOf(fills: seq<Fill>): real {
    if fills == [] then 0.0 else FeesOf(fills[..|fills| - 1]) + fills[|fills| - 1].fee
  }

  function SlippageOf(fills: seq<Fill>, prices: map<string, real>): real
    requires forall i :: 0 <= i < |fills| ==> fills[i].symbol in prices
  {
    if fills == [] then 0.0
    else SlippageOf(fills[..|fills| - 1], prices) + Slippage(fills[|fills| - 1], prices[fills[|fills| - 1].symbol])
  }

  /**
    Any accepted fills in priced symbols lower the value at those prices by their fees and signed slippage, half a
    cent each way per fill.
   */
  lemma {:induction false} ReplayCostsFeesAndSlippage(state: Portfolio, fills: seq<Fill>, prices: map<string, real>)
    requires forall i :: 0 <= i < |fills| ==> fills[i].symbol in prices
    requires Replay(state, fills).Ok?
    ensures var after := Replay(state, fills).value.portfolio;
            var drift := MarkedValue(after, prices)
              - (MarkedValue(state, prices) - FeesOf(fills) - SlippageOf(fills, prices));
            -0.005 * |fills| as real <= drift <= 0.005 * |fills| as real
  {
    if fills != [] {
      var most := fills[..|fills| - 1];
      ReplayCostsFeesAndSlippage(state, most, prices);
      FillCostsFeeAndSlippage(Replay(state, most).value.portfolio, fills[|fills| - 1], prices);
    }
  }

  // The gated plan ------------------------------------------------------------------------------------------------

  lemma {:induction false} GatedIsOrderedPart(targets: seq<Target>, account: Account, sizing: Sizing,
                                              killSwitch: nat -> bool, today: int)
    requires WellSized(targets) && DistinctTargets(targets)
    ensures var approved := Gated(targets, account, sizing, killSwitch, today);
            && DistinctTargets(approved)
            && (forall t :: t in approved ==> t in targets && t.quantity > 0 && !t.side.OtherSide?)
  {
    if targets != [] {
      var n := |targets| - 1;
      GatedIsOrderedPart(targets[..n], account, sizing, killSwitch, today);
      assert forall t :: t in targets[..n] ==> t.symbol != targets[n].symbol;
    }
  }

  lemma GatedPlanNeverOversells(targets: seq<Target>, decisions: seq<Decision>, prices: map<string, real>,
                                sizing: Sizing, account: Account, killSwitch: nat -> bool, today: int, costs: Costs,
                                tradeDate: string)
    requires IsPlan(targets, decisions, prices, sizing, Quantities(account.portfolio)) && WellSized(targets)
    requires DistinctDecisions(decisions)
    ensures var fills := FillsOf(costs, Gated(targets, account, sizing, killSwitch, today), tradeDate);
            && DistinctFills(fills) && SellsWhatIsHeld(fills, account.portfolio.positions)
            && (forall i :: 0 <= i < |fills| ==> fills[i].symbol in prices)
            && Replay(account.portfolio, fills).Ok?
  {
    PlanSellsWholePositions(targets, decisions, prices, sizing, Quantities(account.portfolio));
    GatedIsOrderedPart(targets, account, sizing, killSwitch, today);
    var approved := Gated(targets, account, sizing, killSwitch, today);
    var fills := FillsOf(costs, approved, tradeDate);
    forall i | 0 <= i < |fills|
      ensures fills[i].symbol in prices && !fills[i].side.OtherSide?
      ensures fills[i].side.Sell? ==> fills[i].quantity == Held(account.portfolio.positions, fills[i].symbol).quantity
    {
      assert approved[i] in approved;
    }
    DistinctFillsGoThrough(account.portfolio, fills);
  }

  lemma {:induction false} GatedWasApproved(targets: seq<Target>, account: Account, sizing: Sizing,
                                            killSwitch: nat -> bool, today: int, t: Target)
    returns (i: nat)
    requires WellSized(targets) && t in Gated(targets, account, sizing, killSwitch, today)
    ensures i < |targets| && targets[i] == t
    ensures EvaluateRiskGate(RequestFor(t, account, sizing, killSwitch(i), today)).Approved?
  {
    var n := |targets| - 1;
    if t in Gated(targets[..n], account, sizing, killSwitch, today) {
      i := GatedWasApproved(targets[..n], account, sizing, killSwitch, today, t);
    } else {
      i := n;
    }
  }

  /**
    Every BUY the run executes is affordable on its own and keeps its holding within the position limit: planner and
    gate together, each to one currency unit. The limit is applied to the nav recorded before the run.
   */
  lemma GatedBuysAreBounded(targets: seq<Target>, decisions: seq<Decision>, prices: map<string, real>, sizing: Sizing,
                            account: Account, killSwitch: nat -> bool, today: int, t: Target)
    requires IsPlan(targets, decisions, prices, sizing, Quantities(account.portfolio)) && WellSized(targets)
    requires t in Gated(targets, account, sizing, killSwitch, today) && t.side.Buy?
    ensures t.symbol in prices && t.price == prices[t.symbol]
    ensures Times(t.quantity, t.price) < account.portfolio.cash + 1.0
    ensures NavOf(account, sizing) > 0.0 ==>
              Times(Held(account.portfolio.positions, t.symbol).quantity + t.quantity, t.price)
                < Product(sizing.maxPositionRatio, NavOf(account, sizing)) + 1.0
  {
    var i := GatedWasApproved(targets, account, sizing, killSwitch, today, t);
    PlannedTarget(targets, i, decisions, prices, sizing, Quantities(account.portfolio));
    var q := RequestFor(t, account, sizing, killSwitch(i), today);
    assert q.nav == NavOf(account, sizing) && q.maxPositionRatio == sizing.maxPositionRatio
           && q.availableCash == account.portfolio.cash;
    ApprovedBuyIsBounded(q, Held(account.portfolio.positions, t.symbol).quantity, t.price);
  }

  /** A run over distinct symbols: what it sold is gone and what it bought was added. */
  lemma {:induction false} RunMovesItsPositions(report: RunReport, targets: seq<Target>, decisions: seq<Decision>,
                                                prices: map<string, real>, sizing: Sizing, account: Account,
                                                killSwitch: nat -> bool, today: int, costs: Costs, tradeDate: string)
    requires IsPlan(targets, decisions, prices, sizing, Quantities(account.portfolio)) && WellSized(targets)
    requires DistinctDecisions(decisions)
    requires report.executable == Gated(targets, account, sizing, killSwitch, today)
    requires report.execution.Some? && Reported(report, account, sizing, costs, prices, tradeDate)
    ensures forall t :: t in report.executable && t.side.Sell? ==>
            Held(report.execution.value.portfolio.positions, t.symbol).quantity == 0
    ensures forall t :: t in report.executable && t.side.Buy? ==>
              Held(report.execution.value.portfolio.positions, t.symbol).quantity
                == Held(account.portfolio.positions, t.symbol).quantity + t.quantity
  {
    GatedPlanNeverOversells(targets, decisions, prices, sizing, account, killSwitch, today, costs, tradeDate);
    var fills := FillsOf(costs, report.executable, tradeDate);
    DistinctFillsGoThrough(account.portfolio, fills);
    var before, after := account.portfolio.positions, report.execution.value.portfolio.positions;
    forall t | t in report.executable
      ensures t.side.Sell? ==> Held(after, t.symbol).quantity == 0
      ensures t.side.Buy? ==> Held(after, t.symbol).quantity == Held(before, t.symbol).quantity + t.quantity
    {
      var i :| 0 <= i < |report.executable| && report.executable[i] == t;
      assert MovesAsFilled(before, after, fills[i]);
    }
  }

  lemma GatedIsPriced(targets: seq<Target>, decisions: seq<Decision>, prices: map<string, real>, sizing: Sizing,
                      account: Account, killSwitch: nat -> bool, today: int, costs: Costs, tradeDate: string)
    requires IsPlan(targets, decisions, prices, sizing, Quantities(account.portfolio)) && WellSized(targets)
    ensures var approved := Gated(targets, account, sizing, killSwitch, today);
            forall i :: 0 <= i < |approved| ==>
              && approved[i].symbol in prices && approved[i].price == prices[approved[i].symbol]
              && FillsOf(costs, approved, tradeDate)[i].symbol in prices
  {
    var approved := Gated(targets, account, sizing, killSwitch, today);
    forall k | 0 <= k < |approved|
      ensures approved[k].symbol in prices && approved[k].price == prices[approved[k].symbol]
    {
      assert approved[k] in approved;
      var i := GatedWasApproved(targets, account, sizing, killSwitch, today, approved[k]);
      PlannedTarget(targets, i, decisions, prices, sizing, Quantities(account.portfolio));
    }
  }

  /**
    Every run that executes, over any decisions: its reported net profit is what the portfolio was worth at the run's
    prices above the previous nav, less the fees and the signed slippage, to within half a cent per fill and a cent
    for the two roundings of the report. With the previous nav marked at the same prices it is minus fees and
    slippage.
   */
  lemma {:induction false} RunProfitIsCost(report: RunReport, targets: seq<Target>, decisions: seq<Decision>,
                                           prices: map<string, real>, sizing: Sizing, account: Account,
                                           killSwitch: nat -> bool, today: int, costs: Costs, tradeDate: string)
    requires IsPlan(targets, decisions, prices, sizing, Quantities(account.portfolio)) && WellSized(targets)
    requires report.executable == Gated(targets, account, sizing, killSwitch, today)
    requires report.execution.Some? && Reported(report, account, sizing, costs, prices, tradeDate)
    ensures forall i :: 0 <= i < |report.executable| ==>
            FillsOf(costs, report.executable, tradeDate)[i].symbol in prices
    ensures var fills := FillsOf(costs, report.executable, tradeDate);
            var gained := MarkedValue(account.portfolio, prices) - NavOf(account, sizing);
            var drift := report.summary.netPnl + FeesOf(fills) + SlippageOf(fills, prices) - gained;
            -0.005 * |fills| as real - 0.01 <= drift <= 0.005 * |fills| as real + 0.01
  {
    GatedIsPriced(targets, decisions, prices, sizing, account, killSwitch, today, costs, tradeDate);
    ReplayCostsFeesAndSlippage(account.portfolio, FillsOf(costs, report.executable, tradeDate), prices);
  }

  lemma SecondSaleIsOversold(state: Portfolio, fill: Fill)
    requires fill.side.Sell? && fill.quantity == Held(state.positions, fill.symbol).quantity > 0
    ensures Replay(state, [fill, fill]) == Raised(Oversold)
  {
    var once := [fill];
    assert once[..0] == [] && [fill, fill][..1] == once;
    FillTouchesOnePosition(state, fill);
    var sold := Applied(state, fill).value.portfolio;
    assert Replay(state, once).Ok? && Replay(state, once).value.portfolio == sold;
    assert Applied(sold, fill) == Raised(Oversold);
  }

  lemma TwoSalesArePlanned(symbol: string, prices: map<string, real>, sizing: Sizing, quantities: map<string, int>)
      returns (t: Target)
    requires symbol in prices && CurrentQuantity(quantities, symbol) > 0
    ensures t.symbol == symbol && t.side.Sell? && t.quantity == CurrentQuantity(quantities, symbol)
    ensures IsPlan([t, t], [Decision(symbol, Sell), Decision(symbol, Sell)], prices, sizing, quantities)
  {
    var sale := Decision(symbol, Sell);
    t := BuildTargetPosition(sale, sizing, 2, prices[symbol], CurrentQuantity(quantities, symbol)).value;
    PairIsPlan(t, t, sale, sale, prices, sizing, quantities);
  }

  lemma SaleIsApproved(t: Target, account: Account, sizing: Sizing, today: int)
    requires t.side.Sell? && t.quantity > 0
    ensures EvaluateRiskGate(RequestFor(t, account, sizing, false, today)).Approved?
  {
  }

  lemma TwoSalesAreApproved(t: Target, account: Account, sizing: Sizing, killSwitch: nat -> bool, today: int)
    requires t.side.Sell? && t.quantity > 0 && !killSwitch(0) && !killSwitch(1)
    ensures WellSized([t, t]) && Gated([t, t], account, sizing, killSwitch, today) == [t, t]
  {
    SaleIsApproved(t, account, sizing, today);
    assert [t, t][..1] == [t] && [t][..0] == [];
    assert Gated([], account, sizing, killSwitch, today) == [];
    assert Gated([t], account, sizing, killSwitch, today) == [] + [t];
  }

  // When a gated plan is accepted ---------------------------------------------------------------------------------

  function CountSales(targets: seq<Target>, symbol: string): nat {
    if targets == [] then 0
    else
      var t := targets[|targets| - 1];
      CountSales(targets[..|targets| - 1], symbol) + if t.symbol == symbol && t.side.Sell? then 1 else 0
  }

  function SharesBought(targets: seq<Target>, symbol: string): int {
    if targets == [] then 0
    else
      var t := targets[|targets| - 1];
      SharesBought(targets[..|targets| - 1], symbol) + if t.symbol == symbol && t.side.Buy? then t.quantity else 0
  }

  function Shares(sales: nat, held: int): int {
    sales * held
  }

  /**
    What a SELL finds: the earlier sales of its symbol, each for the whole morning holding, are covered by earlier
    purchases.
   */
  predicate Covered(positions: map<string, Position>, targets: seq<Target>, i: nat)
    requires i < |targets|
  {
    var symbol := targets[i].symbol;
    targets[i].side.Sell? ==>
      Shares(CountSales(targets[..i], symbol), Held(positions, symbol).quantity) <= SharesBought(targets[..i], symbol)
  }

  ghost predicate AllCovered(positions: map<string, Position>, targets: seq<Target>) {
    forall i :: 0 <= i < |targets| ==> Covered(positions, targets, i)
  }

  ghost predicate SellWhole(positions: map<string, Position>, targets: seq<Target>) {
    forall i :: 0 <= i < |targets| ==>
      !targets[i].side.OtherSide?
        && (targets[i].side.Sell? ==> targets[i].quantity == Held(positions, targets[i].symbol).quantity)
  }

  lemma NetOneMore(fills: seq<Fill>, k: nat, symbol: string)
    requires k < |fills|
    ensures Net(fills[..k + 1], symbol) == Net(fills[..k], symbol) + ShareMove(fills[k], symbol)
  {
    assert fills[..k + 1][..k] == fills[..k];
  }

  lemma OneMoreSale(sales: nat, held: int)
    ensures Shares(0, held) == 0 && Shares(sales + 1, held) == Shares(sales, held) + held
  {
  }

  lemma {:induction false} NetOfWholeSales(positions: map<string, Position>, targets: seq<Target>, costs: Costs,
                                           tradeDate: string, k: nat, symbol: string)
    requires k <= |targets| && SellWhole(positions, targets)
    ensures Net(FillsOf(costs, targets, tradeDate)[..k], symbol)
         == SharesBought(targets[..k], symbol)
           - Shares(CountSales(targets[..k], symbol), Held(positions, symbol).quantity)
  {
    if k == 0 {
      OneMoreSale(0, Held(positions, symbol).quantity);
    } else {
      var fills := FillsOf(costs, targets, tradeDate);
      NetOfWholeSales(positions, targets, costs, tradeDate, k - 1, symbol);
      NetOneMore(fills, k - 1, symbol);
      assert targets[..k][..k - 1] == targets[..k - 1];
      OneMoreSale(CountSales(targets[..k - 1], symbol), Held(positions, symbol).quantity);
    }
  }

  lemma FitsIffCovered(portfolio: Portfolio, targets: seq<Target>, costs: Costs, tradeDate: string, i: nat)
    requires i < |targets| && SellWhole(portfolio.positions, targets)
    ensures Fits(portfolio, FillsOf(costs, targets, tradeDate), i) <==> Covered(portfolio.positions, targets, i)
  {
    NetOfWholeSales(portfolio.positions, targets, costs, tradeDate, i, targets[i].symbol);
  }

  lemma WholeSalesGoThroughIff(portfolio: Portfolio, targets: seq<Target>, costs: Costs, tradeDate: string)
    requires SellWhole(portfolio.positions, targets)
    ensures Replay(portfolio, FillsOf(costs, targets, tradeDate)).Ok? <==> AllCovered(portfolio.positions, targets)
  {
    var fills := FillsOf(costs, targets, tradeDate);
    ReplayAcceptedIff(portfolio, fills);
    forall i | 0 <= i < |targets|
      ensures Fits(portfolio, fills, i) <==> Covered(portfolio.positions, targets, i)
    {
      FitsIffCovered(portfolio, targets, costs, tradeDate, i);
    }
  }

  lemma PlannedSaleIsWhole(targets: seq<Target>, i: nat, decisions: seq<Decision>, prices: map<string, real>,
                           sizing: Sizing, portfolio: Portfolio)
    requires IsPlan(targets, decisions, prices, sizing, Quantities(portfolio)) && i < |targets|
    ensures !targets[i].side.OtherSide?
    ensures targets[i].side.Sell? && targets[i].quantity > 0 ==>
            targets[i].quantity == Held(portfolio.positions, targets[i].symbol).quantity
  {
    var d := Active(decisions)[i];
    ActiveHasSides(decisions, i);
    assert Ok(targets[i]) == BuildTargetPosition(d, sizing, WatchlistSize(decisions), prices[d.symbol],
                                                 CurrentQuantity(Quantities(portfolio), d.symbol));
  }

  lemma {:induction false} ActiveHasSides(decisions: seq<Decision>, i: nat)
    requires i < |Active(decisions)|
    ensures !Active(decisions)[i].side.OtherSide?
  {
    if decisions != [] && i < |Active(decisions[..|decisions| - 1])| {
      ActiveHasSides(decisions[..|decisions| - 1], i);
    }
  }

  lemma GatedSellWhole(targets: seq<Target>, decisions: seq<Decision>, prices: map<string, real>, sizing: Sizing,
                       account: Account, killSwitch: nat -> bool, today: int)
    requires IsPlan(targets, decisions, prices, sizing, Quantities(account.portfolio)) && WellSized(targets)
    ensures SellWhole(account.portfolio.positions, Gated(targets, account, sizing, killSwitch, today))
  {
    var approved := Gated(targets, account, sizing, killSwitch, today);
    forall k | 0 <= k < |approved|
      ensures !approved[k].side.OtherSide?
      ensures approved[k].side.Sell? ==>
              approved[k].quantity == Held(account.portfolio.positions, approved[k].symbol).quantity
    {
      assert approved[k] in approved;
      var i := GatedWasApproved(targets, account, sizing, killSwitch, today, approved[k]);
      PlannedSaleIsWhole(targets, i, decisions, prices, sizing, account.portfolio);
    }
  }

  /**
    For every decision list, repeated symbols included: the gated plan is executed without an oversold error if and
    only if, at each approved SELL of a symbol of which h are held, k earlier approved SELLs of it leave k x h within
    the shares bought before.
   */
  lemma {:induction false} GatedPlanGoesThroughIff(targets: seq<Target>, decisions: seq<Decision>,
                                                   prices: map<string, real>, sizing: Sizing, account: Account,
                                                   killSwitch: nat -> bool, today: int, costs: Costs, tradeDate: string)
    requires IsPlan(targets, decisions, prices, sizing, Quantities(account.portfolio)) && WellSized(targets)
    ensures var approved := Gated(targets, account, sizing, killSwitch, today);
            Replay(account.portfolio, FillsOf(costs, approved, tradeDate)).Ok? <==>
              AllCovered(account.portfolio.positions, approved)
  {
    GatedSellWhole(targets, decisions, prices, sizing, account, killSwitch, today);
    WholeSalesGoThroughIff(account.portfolio, Gated(targets, account, sizing, killSwitch, today), costs, tradeDate);
  }

  /** Distinctness matters: a symbol decided SELL twice and held at all is oversold by its second order. */
  lemma {:induction false} SellingTwiceIsRejected(symbol: string, account: Account, prices: map<string, real>,
                                                  sizing: Sizing, killSwitch: nat -> bool, costs: Costs, today: int,
                                                  tradeDate: string) returns (targets: seq<Target>)
    requires symbol in prices && Held(account.portfolio.positions, symbol).quantity > 0 && !killSwitch(0)
             && !killSwitch(1)
    ensures IsPlan(targets, [Decision(symbol, Sell), Decision(symbol, Sell)], prices, sizing,
                   Quantities(account.portfolio))
    ensures WellSized(targets)
    ensures Replay(account.portfolio, FillsOf(costs, Gated(targets, account, sizing, killSwitch, today), tradeDate))
            == Raised(Oversold)
  {
    var t := TwoSalesArePlanned(symbol, prices, sizing, Quantities(account.portfolio));
    targets := [t, t];
    TwoSalesAreApproved(t, account, sizing, killSwitch, today);
    var fill := FillOf(costs, t, tradeDate);
    assert FillsOf(costs, targets, tradeDate) == [fill, fill];
    SecondSaleIsOversold(account.portfolio, fill);
  }
}
