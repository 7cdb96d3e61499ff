/**
  The cash of a shadow run. The gate compares each BUY with the cash before the run, not with what earlier BUYs leave;
  these are the bounds that planner, gate and broker together still give.
 */
module ShadowRunCash {
  import opened MarketRules
  import opened Numbers
  import opened PaperExecution
  import opened PaperPortfolio
  import opened PreTradeRisk
  import opened Results
  import opened Rounding
  import opened ShadowRun
  import opened TargetPlanner

  /** What a fill moves in cash before rounding. */
  function CashMove(fill: Fill): real {
    if fill.side.Buy? then -(Times(fill.quantity, fill.price) + fill.fee)
      else Times(fill.quantity, fill.price) - fill.fee
  }

  function CashMoves(fills: seq<Fill>): real {
    if fills == [] then 0.0 else CashMoves(fills[..|fills| - 1]) + CashMove(fills[|fills| - 1])
  }

  lemma {:induction false} ReplayMovesCash(state: Portfolio, fills: seq<Fill>)
    requires Replay(state, fills).Ok?
    ensures var drift := Replay(state, fills).value.portfolio.cash - (state.cash + CashMoves(fills));
            -0.005 * |fills| as real <= drift <= 0.005 * |fills| as real
  {
    if fills != [] {
      ReplayMovesCash(state, fills[..|fills| - 1]);
    }
  }

  function Proceeds(target: Target): real {
    if target.side.Sell? then Times(target.quantity, target.price) else 0.0
  }

  function TotalProceeds(targets: seq<Target>): real {
    if targets == [] then 0.0 else TotalProceeds(targets[..|targets| - 1]) + Proceeds(targets[|targets| - 1])
  }

  lemma CashMoveOfTarget(costs: Costs, t: Target, tradeDate: string)
    requires !t.side.OtherSide?
    ensures var fill := FillOf(costs, t, tradeDate);
            CashMove(fill) == Proceeds(t) - Spend(t) - fill.fee - Slippage(fill, t.price)
  {
    var fill := FillOf(costs, t, tradeDate);
    PricesSubtract(t.quantity, fill.price, t.price);
    PricesSubtract(t.quantity, t.price, fill.price);
  }

  ghost predicate Priced(targets: seq<Target>, prices: map<string, real>) {
    forall i :: 0 <= i < |targets| ==>
      !targets[i].side.OtherSide? && targets[i].symbol in prices && targets[i].price == prices[targets[i].symbol]
  }

  lemma {:induction false} CashMovesOfTargets(costs: Costs, targets: seq<Target>, prices: map<string, real>,
                                              tradeDate: string)
    requires Priced(targets, prices)
    ensures var fills := FillsOf(costs, targets, tradeDate);
            && (forall i :: 0 <= i < |fills| ==> fills[i].symbol in prices)
            && CashMoves(fills) == TotalProceeds(targets) - TotalSpend(targets) - FeesOf(fills)
               - SlippageOf(fills, prices)
  {
    if targets != [] {
      var n := |targets| - 1;
      CashMovesOfTargets(costs, targets[..n], prices, tradeDate);
      assert FillsOf(costs, targets, tradeDate)[..n] == FillsOf(costs, targets[..n], tradeDate);
      CashMoveOfTarget(costs, targets[n], tradeDate);
    }
  }

  lemma GatedPriced(targets: seq<Target>, decisions: seq<Decision>, prices: map<string, real>, sizing: Sizing,
                    account: Account, killSwitch: nat -> bool, today: int, costs: Costs, tradeDate: string)
    requires IsPlan(targets, decisions, prices, sizing, Quantities(account.portfolio)) && WellSized(targets)
    ensures Priced(Gated(targets, account, sizing, killSwitch, today), prices)
  {
    GatedIsPriced(targets, decisions, prices, sizing, account, killSwitch, today, costs, tradeDate);
    GatedSellWhole(targets, decisions, prices, sizing, account, killSwitch, today);
  }

  /** What a run pays on balance, known before it executes: purchases less sales at the quotes, fees and slippage. */
  ghost function Outlay(costs: Costs, targets: seq<Target>, prices: map<string, real>, tradeDate: string): real
    requires Priced(targets, prices)
  {
    CashMovesOfTargets(costs, targets, prices, tradeDate);
    var fills := FillsOf(costs, targets, tradeDate);
    TotalSpend(targets) - TotalProceeds(targets) + FeesOf(fills) + SlippageOf(fills, prices)
  }

  /** Over any decisions an executed run leaves the cash less the outlay, half a cent each way per fill. */
  lemma {:induction false} RunLeavesCashLessOutlay(targets: seq<Target>, decisions: seq<Decision>,
                                                   prices: map<string, real>, sizing: Sizing, account: Account,
                                                   killSwitch: nat -> bool, today: int, costs: Costs, tradeDate: string)
    requires IsPlan(targets, decisions, prices, sizing, Quantities(account.portfolio)) && WellSized(targets)
    ensures var approved := Gated(targets, account, sizing, killSwitch, today);
            var replay := Replay(account.portfolio, FillsOf(costs, approved, tradeDate));
            && Priced(approved, prices)
            && (replay.Ok? ==>
                  var drift := replay.value.portfolio.cash
                    - (account.portfolio.cash - Outlay(costs, approved, prices, tradeDate));
                  -0.005 * |approved| as real <= drift <= 0.005 * |approved| as real)
  {
    GatedPriced(targets, decisions, prices, sizing, account, killSwitch, today, costs, tradeDate);
    var approved := Gated(targets, account, sizing, killSwitch, today);
    CashMovesOfTargets(costs, approved, prices, tradeDate);
    if Replay(account.portfolio, FillsOf(costs, approved, tradeDate)).Ok? {
      ReplayMovesCash(account.portfolio, FillsOf(costs, approved, tradeDate));
    }
  }

  lemma {:induction false} ProceedsAreNonNegative(targets: seq<Target>)
    requires forall i :: 0 <= i < |targets| ==> targets[i].quantity >= 0 && targets[i].price >= 0.0
    ensures TotalProceeds(targets) >= 0.0
  {
    if targets != [] {
      var last := targets[|targets| - 1];
      ProceedsAreNonNegative(targets[..|targets| - 1]);
      MoreSharesCostMore(0, last.quantity, last.price);
      assert Times(0, last.price) == 0.0;
    }
  }

  lemma GatedSpendsWithinAllowance(targets: seq<Target>, decisions: seq<Decision>, prices: map<string, real>,
                                   sizing: Sizing, account: Account, killSwitch: nat -> bool, today: int)
    requires IsPlan(targets, decisions, prices, sizing, Quantities(account.portfolio)) && WellSized(targets)
    ensures TotalSpend(Gated(targets, account, sizing, killSwitch, today)) <= Allowance(sizing)
  {
    var approved := Gated(targets, account, sizing, killSwitch, today);
    PlanSpendsSlices(targets, decisions, prices, sizing, Quantities(account.portfolio));
    forall t | t in approved
      ensures t in targets
    {
      var i := GatedWasApproved(targets, account, sizing, killSwitch, today, t);
    }
    var size := WatchlistSize(decisions);
    SlicesAddUp(approved, AmountAtLeastZero(Slice(sizing, size)));
    SliceTimesSize(sizing, size, |approved|);
  }

  /**
    A run over non-negative quotes never costs more than the allowance, its fees and its slippage, to half a cent per
    fill: the planner bounds what the gate, looking at one BUY at a time, does not.
   */
  lemma {:induction false} RunCostsAtMostAllowance(targets: seq<Target>, decisions: seq<Decision>,
                                                   prices: map<string, real>, sizing: Sizing, account: Account,
                                                   killSwitch: nat -> bool, today: int, costs: Costs, tradeDate: string)
    requires IsPlan(targets, decisions, prices, sizing, Quantities(account.portfolio)) && WellSized(targets)
    requires forall s :: s in prices ==> prices[s] >= 0.0
    ensures var approved := Gated(targets, account, sizing, killSwitch, today);
            var fills := FillsOf(costs, approved, tradeDate);
            && (forall i :: 0 <= i < |fills| ==> fills[i].symbol in prices)
            && (Replay(account.portfolio, fills).Ok? ==>
                  Replay(account.portfolio, fills).value.portfolio.cash
                    >= account.portfolio.cash - Allowance(sizing) - FeesOf(fills) - SlippageOf(fills, prices)
                      - 0.005 * |approved| as real)
  {
    var approved := Gated(targets, account, sizing, killSwitch, today);
    RunLeavesCashLessOutlay(targets, decisions, prices, sizing, account, killSwitch, today, costs, tradeDate);
    CashMovesOfTargets(costs, approved, prices, tradeDate);
    GatedSpendsWithinAllowance(targets, decisions, prices, sizing, account, killSwitch, today);
    forall k | 0 <= k < |approved|
      ensures approved[k].quantity >= 0 && approved[k].price >= 0.0
    {
      assert approved[k] in approved;
      var i := GatedWasApproved(targets, account, sizing, killSwitch, today, approved[k]);
    }
    ProceedsAreNonNegative(approved);
  }

  // When the cash stays non-negative ------------------------------------------------------------------------------

  predicate InCents(x: real) {
    (x * 100.0).Floor as real == x * 100.0
  }

  lemma CentsAddUp(a: real, b: real)
    requires InCents(a) && InCents(b)
    ensures InCents(a + b) && Round2(a + b) == a + b
  {
    var m, n := (a * 100.0).Floor, (b * 100.0).Floor;
    assert (a + b) * 100.0 == (m + n) as real;
    NearestOfInteger(m + n);
  }

  ghost predicate MovesInCents(fills: seq<Fill>) {
    forall i :: 0 <= i < |fills| ==> InCents(CashMove(fills[i]))
  }

  lemma FillMovesCents(state: Portfolio, fill: Fill)
    requires Applied(state, fill).Ok?
    ensures InCents(state.cash) && InCents(CashMove(fill)) ==>
              var cash := Applied(state, fill).value.portfolio.cash;
              InCents(cash) && cash == state.cash + CashMove(fill)
  {
    if InCents(state.cash) && InCents(CashMove(fill)) {
      CentsAddUp(state.cash, CashMove(fill));
    }
  }

  /**
    Where every fill moves whole cents, as lots of a hundred at four-decimal prices do, nothing is lost to rounding.
   */
  lemma {:induction false} CentsMoveExactly(state: Portfolio, fills: seq<Fill>)
    requires Replay(state, fills).Ok?
    ensures InCents(state.cash) && MovesInCents(fills) ==>
              && InCents(Replay(state, fills).value.portfolio.cash)
              && Replay(state, fills).value.portfolio.cash == state.cash + CashMoves(fills)
  {
    if fills != [] && MovesInCents(fills) {
      var most := fills[..|fills| - 1];
      CentsMoveExactly(state, most);
      FillMovesCents(Replay(state, most).value.portfolio, fills[|fills| - 1]);
    }
  }

  lemma LotsAreCents(lots: int, tenThousandths: int)
    ensures Times(100 * lots, tenThousandths as real / 10000.0) == (lots * tenThousandths) as real / 100.0
  {
    var a, b := lots as real, tenThousandths as real;
    assert (100 * lots) as real == 100.0 * a && (lots * tenThousandths) as real == a * b;
    CentsOfProduct(a, b);
  }

  lemma CentsOfProduct(a: real, b: real)
    ensures (100.0 * a) * (b / 10000.0) == (a * b) / 100.0
  {
  }

  lemma WholeCents(cents: int)
    ensures InCents(cents as real / 100.0)
  {
    assert cents as real / 100.0 * 100.0 == cents as real;
  }

  lemma LotsOfHundredMoveCents(fill: Fill, lots: int, tenThousandths: int, feeCents: int)
    requires fill.quantity == 100 * lots && fill.price == tenThousandths as real / 10000.0
             && fill.fee == feeCents as real / 100.0
    ensures InCents(CashMove(fill))
  {
    var notional := lots * tenThousandths;
    LotsAreCents(lots, tenThousandths);
    var cents := if fill.side.Buy? then -(notional + feeCents) else notional - feeCents;
    assert CashMove(fill) == cents as real / 100.0;
    WholeCents(cents);
  }

  /**
    In cents, an executed run ends with non-negative cash if and only if its outlay is within the cash it started
    with; with any fractions the two agree up to half a cent per fill.
   */
  lemma {:induction false} CashStaysNonNegativeIff(targets: seq<Target>, decisions: seq<Decision>,
                                                   prices: map<string, real>, sizing: Sizing, account: Account,
                                                   killSwitch: nat -> bool, today: int, costs: Costs, tradeDate: string)
    requires IsPlan(targets, decisions, prices, sizing, Quantities(account.portfolio)) && WellSized(targets)
    ensures var approved := Gated(targets, account, sizing, killSwitch, today);
            var fills := FillsOf(costs, approved, tradeDate);
            && Priced(approved, prices)
            && (Replay(account.portfolio, fills).Ok? ==>
                  var after := Replay(account.portfolio, fills).value.portfolio.cash;
                  var outlay := Outlay(costs, approved, prices, tradeDate);
                  && (InCents(account.portfolio.cash) && MovesInCents(fills) ==>
                      (after >= 0.0 <==> outlay <= account.portfolio.cash))
                  && (outlay + 0.005 * |approved| as real <= account.portfolio.cash ==> after >= 0.0)
                  && (outlay - 0.005 * |approved| as real > account.portfolio.cash ==> after < 0.0))
  {
    var approved := Gated(targets, account, sizing, killSwitch, today);
    var fills := FillsOf(costs, approved, tradeDate);
    RunLeavesCashLessOutlay(targets, decisions, prices, sizing, account, killSwitch, today, costs, tradeDate);
    CashMovesOfTargets(costs, approved, prices, tradeDate);
    if Replay(account.portfolio, fills).Ok? && InCents(account.portfolio.cash) && MovesInCents(fills) {
      CentsMoveExactly(account.portfolio, fills);
    }
  }

  // Approved one by one, too much together ------------------------------------------------------------------------

  /** Half of a capital of 1000 for each of two symbols quoted at 1, with 600 in cash. */
  ghost predicate Example(sizing: Sizing, account: Account, symbol: string) {
    && sizing.capitalBase == 1000.0 && sizing.maxPositionRatio == 1.0 && sizing.lotSizes(symbol) == 1
    && account == Account(Portfolio(600.0, map[]), Some(1000.0))
  }

  lemma LotsAtOne(quantity: int)
    requires quantity > 0
    ensures CalculateLotQuantity(quantity as real, 1.0, 1) == quantity && Times(quantity, 1.0) == quantity as real
  {
    LotQuantityIsLargestAffordable(quantity as real, 1.0, 1);
  }

  lemma HalfIsPlanned(sizing: Sizing, account: Account, symbol: string) returns (t: Target)
    requires Example(sizing, account, symbol)
    ensures Ok(t) == BuildTargetPosition(Decision(symbol, Buy), sizing, 2, 1.0, 0)
    ensures t.side.Buy? && t.symbol == symbol && t.price == 1.0 && t.quantity == 500 && t.notional == 500
            && t.lotSize == 1
  {
    t := BuildTargetPosition(Decision(symbol, Buy), sizing, 2, 1.0, 0).value;
    assert t.targetValue == 500;
    LotsAtOne(500);
  }

  lemma HalfIsApproved(t: Target, account: Account, sizing: Sizing, today: int)
    requires Example(sizing, account, t.symbol)
    requires t.side.Buy? && t.price == 1.0 && t.quantity == 500 && t.notional == 500 && t.lotSize == 1
    ensures EvaluateRiskGate(RequestFor(t, account, sizing, false, today)).Approved?
  {
    var q := RequestFor(t, account, sizing, false, today);
    assert q.currentPositionValue == 0.0 && q.requestedValue == 500.0 && q.nav == 1000.0;
  }

  lemma BothAreApproved(a: Target, b: Target, account: Account, sizing: Sizing, killSwitch: nat -> bool, today: int)
    requires WellSized([a, b]) && !killSwitch(0) && !killSwitch(1)
    requires EvaluateRiskGate(RequestFor(a, account, sizing, false, today)).Approved?
    requires EvaluateRiskGate(RequestFor(b, account, sizing, false, today)).Approved?
    ensures Gated([a, b], account, sizing, killSwitch, today) == [a, b]
  {
    assert [a, b][..1] == [a] && [a][..0] == [];
    assert Gated([], account, sizing, killSwitch, today) == [];
    assert Gated([a], account, sizing, killSwitch, today) == [] + [a];
  }

  lemma TwoBuysArePlanned(x: string, y: string, prices: map<string, real>, sizing: Sizing, account: Account)
      returns (a: Target, b: Target)
    requires Example(sizing, account, x) && Example(sizing, account, y) && prices == map[x := 1.0, y := 1.0]
    ensures IsPlan([a, b], [Decision(x, Buy), Decision(y, Buy)], prices, sizing, Quantities(account.portfolio))
    ensures a.symbol == x && b.symbol == y
    ensures forall t :: t in [a, b] ==>
            t.side.Buy? && t.price == 1.0 && t.quantity == 500 && t.notional == 500 && t.lotSize == 1
  {
    a := HalfIsPlanned(sizing, account, x);
    b := HalfIsPlanned(sizing, account, y);
    var quantities := Quantities(account.portfolio);
    assert CurrentQuantity(quantities, x) == 0 && CurrentQuantity(quantities, y) == 0;
    PairIsPlan(a, b, Decision(x, Buy), Decision(y, Buy), prices, sizing, quantities);
  }

  /** Without fees and slippage, each BUY fits the cash of 600 and is approved; together they leave -400. */
  lemma {:induction false} ApprovedBuysCanOverspend(x: string, y: string, prices: map<string, real>, sizing: Sizing,
                                                    account: Account, killSwitch: nat -> bool, today: int,
                                                    tradeDate: string) returns (targets: seq<Target>)
    requires x != y && prices == map[x := 1.0, y := 1.0] && !killSwitch(0) && !killSwitch(1)
    requires Example(sizing, account, x) && Example(sizing, account, y)
    ensures IsPlan(targets, [Decision(x, Buy), Decision(y, Buy)], prices, sizing, Quantities(account.portfolio))
            && WellSized(targets)
    ensures Gated(targets, account, sizing, killSwitch, today) == targets
    ensures var replay := Replay(account.portfolio, FillsOf(Costs(0.0, 0.0), targets, tradeDate));
            replay.Ok? && replay.value.portfolio.cash == -400.0
  {
    var a, b := TwoBuysArePlanned(x, y, prices, sizing, account);
    targets := [a, b];
    assert WellSized(targets);
    HalfIsApproved(a, account, sizing, today);
    HalfIsApproved(b, account, sizing, today);
    BothAreApproved(a, b, account, sizing, killSwitch, today);
    FreeFill(a, tradeDate);
    FreeFill(b, tradeDate);
    var fills := FillsOf(Costs(0.0, 0.0), targets, tradeDate);
    assert fills == [FillOf(Costs(0.0, 0.0), a, tradeDate), FillOf(Costs(0.0, 0.0), b, tradeDate)];
    TwoFillsSpend(account.portfolio, fills[0], fills[1]);
  }

  lemma FreeFill(t: Target, tradeDate: string)
    requires t.side.Buy? && t.price == 1.0 && t.quantity == 500
    ensures var fill := FillOf(Costs(0.0, 0.0), t, tradeDate);
            fill.side.Buy? && fill.quantity == 500 && CashMove(fill) == -500.0 && InCents(-500.0)
  {
    NearestOfInteger(10000);
    NearestOfInteger(0);
    assert FillPrice(Costs(0.0, 0.0), Buy, 1.0) == 1.0;
    LotsAtOne(500);
    assert Fee(Costs(0.0, 0.0), 500.0) == 0.0;
  }

  lemma TwoFillsSpend(state: Portfolio, first: Fill, second: Fill)
    requires state.cash == 600.0 && first.side.Buy? && second.side.Buy?
    requires CashMove(first) == -500.0 && CashMove(second) == -500.0
    ensures Replay(state, [first, second]).Ok? && Replay(state, [first, second]).value.portfolio.cash == -400.0
  {
    var fills := [first, second];
    assert fills[..1] == [first] && [first][..0] == [];
    assert Replay(state, []).Ok? && Replay(state, [first]).Ok?;
    assert CashMoves([]) == 0.0 && CashMoves([first]) == -500.0;
    assert CashMoves(fills) == -1000.0;
    assert InCents(600.0) && MovesInCents(fills);
    CentsMoveExactly(state, fills);
  }
}
