/** The paper broker: every target is submitted, filled at the slipped price and booked, in order. */
module PaperExecution {
  import opened MarketRules
  import opened PaperPortfolio
  import opened Results
  import opened Rounding
  import opened TargetPlanner

  datatype OrderStatus = Submitted | FilledStatus

  datatype ExecutionOrder = ExecutionOrder(
    symbol: string, side: Side, quantity: int, limitPrice: real, status: OrderStatus,
    filledQuantity: int, fillPrice: real, fee: real, pnlDelta: real)

  datatype Snapshot = Snapshot(cash: real, nav: real, positions: map<string, Position>)

  /** The tables the broker writes: execution orders by insertion, and account snapshots. */
  class OrderStore {
    var orders: seq<ExecutionOrder>
    var snapshots: seq<Snapshot>

    constructor ()
      ensures orders == [] && snapshots == []
    {
      orders, snapshots := [], [];
    }

    method InsertExecutionOrder(order: ExecutionOrder) returns (id: nat)
      modifies this`orders
      ensures id == old(|orders|) && orders == old(orders) + [order]
    {
      id := |orders|;
      orders := orders + [order];
    }

    method UpdateExecutionOrder(id: nat, order: ExecutionOrder)
      requires id < |orders|
      modifies this`orders
      ensures orders == old(orders)[id := order]
    {
      orders := orders[id := order];
    }

    method InsertAccountSnapshot(snapshot: Snapshot)
      modifies this`snapshots
      ensures snapshots == old(snapshots) + [snapshot]
    {
      snapshots := snapshots + [snapshot];
    }
  }

  datatype Costs = Costs(feeBps: real, slippageBps: real)

  function FillPrice(costs: Costs, side: Side, price: real): real {
    var adjustment := costs.slippageBps / 10000.0;
    if side.Buy? then Round4(price * (1.0 + adjustment)) else Round4(price * (1.0 - adjustment))
  }

  function Fee(costs: Costs, notional: real): real {
    Round2(notional * costs.feeBps / 10000.0)
  }

  function FillOf(costs: Costs, target: Target, tradeDate: string): Fill {
    var fillPrice := FillPrice(costs, target.side, target.price);
    Fill(target.symbol, target.side, target.quantity, fillPrice,
         Fee(costs, Times(target.quantity, fillPrice)), tradeDate)
  }

  function FillsOf(costs: Costs, targets: seq<Target>, tradeDate: string): (fills: seq<Fill>)
    ensures |fills| == |targets|
    ensures forall i :: 0 <= i < |fills| ==> fills[i] == FillOf(costs, targets[i], tradeDate)
  {
    seq(|targets|, i requires 0 <= i < |targets| => FillOf(costs, targets[i], tradeDate))
  }

  /** A fill is worse than its quote by the configured slippage, to a twenty-thousandth per share; for either side. */
  lemma SlippageIsAsConfigured(costs: Costs, target: Target, tradeDate: string)
    requires target.quantity >= 0 && !target.side.OtherSide?
    ensures var fill := FillOf(costs, target, tradeDate);
            var slippage := Times(target.quantity, Product(target.price, costs.slippageBps / 10000.0));
            -Times(target.quantity, 0.00005) <= Slippage(fill, target.price) - slippage
              <= Times(target.quantity, 0.00005)
  {
    var fill := FillOf(costs, target, tradeDate);
    var worse := Product(target.price, costs.slippageBps / 10000.0);
    var off := if target.side.Buy? then fill.price - target.price - worse else target.price - fill.price - worse;
    PriceIsAsConfigured(costs, target.side, target.price);
    PricesSubtract(target.quantity, worse + off, worse);
    WithinPerShare(target.quantity, off, 0.00005);
  }

  /** The fee is the configured part of the fill's notional, to half a cent. */
  lemma FeeIsAsConfigured(costs: Costs, target: Target, tradeDate: string)
    ensures var fill := FillOf(costs, target, tradeDate);
            var fee := Product(Times(fill.quantity, fill.price), costs.feeBps) / 10000.0;
            -0.005 <= fill.fee - fee <= 0.005
  {
    FeeOnNotional(costs, Times(target.quantity, FillPrice(costs, target.side, target.price)));
  }

  lemma FeeOnNotional(costs: Costs, notional: real)
    ensures -0.005 <= Fee(costs, notional) - Product(notional, costs.feeBps) / 10000.0 <= 0.005
  {
  }

  lemma PriceIsAsConfigured(costs: Costs, side: Side, price: real)
    requires !side.OtherSide?
    ensures var worse := Product(price, costs.slippageBps / 10000.0);
            var off := if side.Buy? then FillPrice(costs, side, price) - price - worse
              else price - FillPrice(costs, side, price) - worse;
            -0.00005 <= off <= 0.00005
  {
    var adjustment := costs.slippageBps / 10000.0;
    assert price * (1.0 + adjustment) == price + price * adjustment;
    assert price * (1.0 - adjustment) == price - price * adjustment;
  }

  lemma WithinPerShare(quantity: int, off: real, most: real)
    requires quantity >= 0 && -most <= off <= most
    ensures -Times(quantity, most) <= Times(quantity, off) <= Times(quantity, most)
  {
    assert quantity as real * (most - off) >= 0.0;
    assert quantity as real * (most + off) >= 0.0;
  }

  /** Nothing is filled, charged or earned yet. */
  function SubmittedOrder(target: Target): (order: ExecutionOrder)
    ensures order.status == Submitted && order.quantity == target.quantity && order.limitPrice == target.price
    ensures order.filledQuantity == 0 && order.fillPrice == order.fee == order.pnlDelta == 0.0
  {
    ExecutionOrder(target.symbol, target.side, target.quantity, target.price, Submitted, 0, 0.0, 0.0, 0.0)
  }

  /** A stored order agrees with the fill that was booked for it. */
  ghost predicate Booked(order: ExecutionOrder, target: Target, fill: Fill) {
    && order.symbol == target.symbol && order.side == target.side && order.limitPrice == target.price
    && order.status.FilledStatus? && order.quantity == order.filledQuantity == fill.quantity
    && order.fillPrice == fill.price && order.fee == fill.fee
  }

  ghost predicate AllBooked(orders: seq<ExecutionOrder>, targets: seq<Target>, costs: Costs, tradeDate: string) {
    && |orders| == |targets|
    && forall i :: 0 <= i < |targets| ==> Booked(orders[i], targets[i], FillOf(costs, targets[i], tradeDate))
  }

  lemma OneMoreBooked(orders: seq<ExecutionOrder>, targets: seq<Target>, n: nat, order: ExecutionOrder, costs: Costs,
                      tradeDate: string)
    requires n < |targets| && AllBooked(orders, targets[..n], costs, tradeDate)
    requires Booked(order, targets[n], FillOf(costs, targets[n], tradeDate))
    ensures AllBooked(orders + [order], targets[..n + 1], costs, tradeDate)
    ensures PnlTotal(orders + [order]) == PnlTotal(orders) + order.pnlDelta
  {
    assert (orders + [order])[..n] == orders;
    forall i | 0 <= i < n
      ensures Booked((orders + [order])[i], targets[..n + 1][i], FillOf(costs, targets[..n + 1][i], tradeDate))
    {
      assert targets[..n][i] == targets[..n + 1][i];
    }
  }

  function PnlTotal(orders: seq<ExecutionOrder>): real {
    if orders == [] then 0.0 else PnlTotal(orders[..|orders| - 1]) + orders[|orders| - 1].pnlDelta
  }

  function FeeTotal(orders: seq<ExecutionOrder>): real {
    if orders == [] then 0.0 else FeeTotal(orders[..|orders| - 1]) + orders[|orders| - 1].fee
  }

  /** What the stored orders traded for. */
  function Turnover(orders: seq<ExecutionOrder>): real {
    if orders == [] then 0.0
    else
      var last := orders[|orders| - 1];
      Turnover(orders[..|orders| - 1]) + Times(last.filledQuantity, last.fillPrice)
  }

  lemma PartsOfSums(a: real, b: real, feeBps: real)
    ensures Product(a + b, feeBps) / 10000.0 == Product(a, feeBps) / 10000.0 + Product(b, feeBps) / 10000.0
  {
    assert (a + b) * feeBps == a * feeBps + b * feeBps;
  }

  /** Over a run the fees are the configured part of the turnover, to half a cent per order. */
  lemma {:induction false} FeesAreAsConfigured(orders: seq<ExecutionOrder>, targets: seq<Target>, costs: Costs,
                                               tradeDate: string)
    requires AllBooked(orders, targets, costs, tradeDate)
    ensures var off := FeeTotal(orders) - Product(Turnover(orders), costs.feeBps) / 10000.0;
            -0.005 * |orders| as real <= off <= 0.005 * |orders| as real
  {
    if orders == [] {
      assert Product(0.0, costs.feeBps) == 0.0;
    } else {
      var n := |orders| - 1;
      assert AllBooked(orders[..n], targets[..n], costs, tradeDate);
      FeesAreAsConfigured(orders[..n], targets[..n], costs, tradeDate);
      assert Booked(orders[n], targets[n], FillOf(costs, targets[n], tradeDate));
      FeeIsAsConfigured(costs, targets[n], tradeDate);
      PartsOfSums(Turnover(orders[..n]), Times(orders[n].filledQuantity, orders[n].fillPrice), costs.feeBps);
    }
  }

  /** The replay of `fills` ends in `state` and the orders' profits are what it realized. */
  ghost predicate ReplaysTo(initial: Portfolio, fills: seq<Fill>, state: Portfolio, orders: seq<ExecutionOrder>) {
    Replay(initial, fills) == Ok(Filled(state, PnlTotal(orders)))
  }

  lemma PnlOneMore(orders: seq<ExecutionOrder>, order: ExecutionOrder)
    ensures PnlTotal(orders + [order]) == PnlTotal(orders) + order.pnlDelta
  {
    assert (orders + [order])[..|orders|] == orders;
  }

  lemma OneMoreReplayed(initial: Portfolio, fills: seq<Fill>, n: nat, state: Portfolio, orders: seq<ExecutionOrder>,
                        after: Portfolio, order: ExecutionOrder)
    requires n < |fills| && ReplaysTo(initial, fills[..n], state, orders)
    requires Applied(state, fills[n]) == Ok(Filled(after, order.pnlDelta))
    ensures ReplaysTo(initial, fills[..n + 1], after, orders + [order])
  {
    ReplayNext(initial, fills, n);
    PnlOneMore(orders, order);
  }

  datatype Execution = Execution(portfolio: Portfolio, orders: seq<ExecutionOrder>, nav: real)

  class PaperExecutionService {
    const store: OrderStore
    const costs: Costs

    constructor (store: OrderStore, costs: Costs)
      ensures this.store == store && this.costs == costs
    {
      this.store, this.costs := store, costs;
    }

    /**
      The portfolio is the replay of the targets' fills, and every order is stored as filled; when a fill is rejected
      the error escapes, earlier orders stay filled and the rejected order stays submitted.
     */
    method ExecuteTargets(targets: seq<Target>, initial: Portfolio, markPrices: map<string, real>, tradeDate: string)
      returns (r: Result<Execution, FillError>)
      modifies store
      ensures r.Ok? <==> Replay(initial, FillsOf(costs, targets, tradeDate)).Ok?
      ensures r.Ok? ==>
        && Replay(initial, FillsOf(costs, targets, tradeDate))
           == Ok(Filled(r.value.portfolio, PnlTotal(r.value.orders)))
        && r.value.nav == Round2(MarkedValue(r.value.portfolio, markPrices))
        && store.orders == old(store.orders) + r.value.orders
        && AllBooked(r.value.orders, targets, costs, tradeDate)
        && store.snapshots == old(store.snapshots)
           + [Snapshot(r.value.portfolio.cash, r.value.nav, r.value.portfolio.positions)]
      ensures r.Raised? ==>
        && store.snapshots == old(store.snapshots)
        && var n := |store.orders| - |old(store.orders)| - 1;
           0 <= n < |targets| && StoppedAt(store.orders, old(store.orders), initial, targets, n, r.error, tradeDate)
    {
      var filled := FillAll(targets, initial, tradeDate);
      if filled.Raised? {
        return Raised(filled.error);
      }
      var (state, items) := filled.value;
      var nav := ComputeNav(state, markPrices);
      store.InsertAccountSnapshot(Snapshot(state.cash, nav, state.positions));
      r := Ok(Execution(state, items, nav));
    }

    /** The loop over the targets. */
    method FillAll(targets: seq<Target>, initial: Portfolio, tradeDate: string)
      returns (r: Result<(Portfolio, seq<ExecutionOrder>), FillError>)
      modifies store`orders
      ensures match r
              case Ok((state, items)) =>
                && ReplaysTo(initial, FillsOf(costs, targets, tradeDate), state, items)
                && store.orders == old(store.orders) + items
                && AllBooked(items, targets, costs, tradeDate)
              case Raised(error) =>
                && Replay(initial, FillsOf(costs, targets, tradeDate)) == Raised(error)
                && var n := |store.orders| - |old(store.orders)| - 1;
                   0 <= n < |targets| && StoppedAt(store.orders, old(store.orders), initial, targets, n,
                                                   error, tradeDate)
    {
      var state := initial;
      var items: seq<ExecutionOrder> := [];
      ghost var fills := FillsOf(costs, targets, tradeDate);
      for i := 0 to |targets|
        invariant store.orders == old(store.orders) + items
        invariant AllBooked(items, targets[..i], costs, tradeDate)
        invariant ReplaysTo(initial, fills[..i], state, items)
      {
        var booked := ExecuteTarget(targets[i], state, tradeDate);
        if booked.Raised? {
          ReplayNext(initial, fills, i);
          assert store.orders[|old(store.orders)|..|old(store.orders)| + i] == items;
          return Raised(booked.error);
        }
        OneMoreReplayed(initial, fills, i, state, items, booked.value.0, booked.value.1);
        OneMoreBooked(items, targets, i, booked.value.1, costs, tradeDate);
        state := booked.value.0;
        items := items + [booked.value.1];
      }
      assert fills[..|targets|] == fills && targets[..|targets|] == targets;
      r := Ok((state, items));
    }

    /** One target: submit, fill, mark filled. */
    method ExecuteTarget(target: Target, state: Portfolio, tradeDate: string)
      returns (r: Result<(Portfolio, ExecutionOrder), FillError>)
      modifies store`orders
      ensures match r
              case Raised(e) =>
                && Applied(state, FillOf(costs, target, tradeDate)) == Raised(e)
                && store.orders == old(store.orders) + [SubmittedOrder(target)]
              case Ok((after, order)) =>
                && Applied(state, FillOf(costs, target, tradeDate)) == Ok(Filled(after, order.pnlDelta))
                && store.orders == old(store.orders) + [order]
                && Booked(order, target, FillOf(costs, target, tradeDate))
    {
      var fillPrice := FillPrice(costs, target.side, target.price);
      var fee := Fee(costs, Times(target.quantity, fillPrice));
      var id := store.InsertExecutionOrder(SubmittedOrder(target));
      var booked := ApplyFill(state, Fill(target.symbol, target.side, target.quantity, fillPrice, fee, tradeDate));
      if booked.Raised? {
        return Raised(booked.error);
      }
      var order := SubmittedOrder(target).(status := FilledStatus, filledQuantity := target.quantity,
                                           fillPrice := fillPrice,
        fee := fee, pnlDelta := booked.value.realizedPnl);
      store.UpdateExecutionOrder(id, order);
      r := Ok((booked.value.portfolio, order));
    }

    ghost predicate StoppedAt(orders: seq<ExecutionOrder>, before: seq<ExecutionOrder>, initial: Portfolio,
                              targets: seq<Target>, n: nat, error: FillError, tradeDate: string)
      requires n < |targets|
    {
      var fills := FillsOf(costs, targets, tradeDate);
      && |orders| == |before| + n + 1 && orders[..|before|] == before
      && AllBooked(orders[|before|..|before| + n], targets[..n], costs, tradeDate)
      && orders[|before| + n] == SubmittedOrder(targets[n])
      && Replay(initial, fills[..n]).Ok?
      && Replay(initial, fills[..n + 1]) == Raised(error)
    }
  }

  /**
    One more fill: either it is booked on top of what was replayed so far, or the whole replay is rejected with its
    error.
   */
  lemma ReplayNext(initial: Portfolio, fills: seq<Fill>, n: nat)
    requires n < |fills|
    requires Replay(initial, fills[..n]).Ok?
    ensures var before := Replay(initial, fills[..n]).value;
            match Applied(before.portfolio, fills[n])
            case Ok(after) => Replay(initial, fills[..n + 1])
              == Ok(Filled(after.portfolio, before.realizedPnl + after.realizedPnl))
            case Raised(e) => Replay(initial, fills[..n + 1]) == Raised(e) && Replay(initial, fills) == Raised(e)
  {
    assert fills[..n + 1][..n] == fills[..n];
    if Applied(Replay(initial, fills[..n]).value.portfolio, fills[n]).Raised? {
      ReplayStops(initial, fills, n);
    }
  }

  lemma {:induction false} ReplayStops(initial: Portfolio, fills: seq<Fill>, n: nat)
    requires n < |fills|
    requires Replay(initial, fills[..n + 1]).Raised?
    ensures Replay(initial, fills) == Replay(initial, fills[..n + 1])
    decreases |fills|
  {
    if n + 1 == |fills| {
      assert fills[..n + 1] == fills;
    } else {
      var shorter := fills[..|fills| - 1];
      assert shorter[..n + 1] == fills[..n + 1];
      ReplayStops(initial, shorter, n);
    }
  }
}
