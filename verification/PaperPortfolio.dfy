/**
  The paper portfolio: one fill at a time, weighted-average cost, cash kept in cents.
  Positions hold whole shares. A fill is rejected when it sells more than is held or names no known side.
 */
module PaperPortfolio {
  import opened MarketRules
  import opened Results
  import opened Rounding
  import opened Totals

  datatype Position = Position(quantity: int, avgCost: real, buyDate: string)

  datatype Portfolio = Portfolio(cash: real, positions: map<string, Position>)

  datatype Fill = Fill(symbol: string, side: Side, quantity: int, price: real, fee: real, tradeDate: string)

  datatype FillError = Oversold | UnknownSide

  datatype Filled = Filled(portfolio: Portfolio, realizedPnl: real)

  function Held(positions: map<string, Position>, symbol: string): Position {
    if symbol in positions then positions[symbol] else Position(0, 0.0, "")
  }

  function PerShare(cost: real, quantity: int): real {
    if quantity > 0 then cost / quantity as real else 0.0
  }

  function Cost(position: Position): real {
    Times(position.quantity, position.avgCost)
  }

  function Bought(position: Position, fill: Fill): Position {
    var total := position.quantity + fill.quantity;
    Position(total, PerShare(Cost(position) + Times(fill.quantity, fill.price), total), fill.tradeDate)
  }

  function Sold(position: Position, quantity: int): Position {
    var remaining := position.quantity - quantity;
    Position(remaining, if remaining > 0 then position.avgCost else 0.0, position.buyDate)
  }

  /** What one fill does to a portfolio. */
  function Applied(state: Portfolio, fill: Fill): Result<Filled, FillError> {
    var position := Held(state.positions, fill.symbol);
    var amount := Times(fill.quantity, fill.price);
    match fill.side
    case Buy =>
      var bought := state.positions[fill.symbol := Bought(position, fill)];
      Ok(Filled(Portfolio(Round2(state.cash - (amount + fill.fee)), bought), Round2(0.0)))
    case Sell =>
      if fill.quantity > position.quantity then Raised(Oversold)
      else
        var sold := state.positions[fill.symbol := Sold(position, fill.quantity)];
        var realizedPnl := Times(fill.quantity, fill.price - position.avgCost) - fill.fee;
        Ok(Filled(Portfolio(Round2(state.cash + (amount - fill.fee)), sold), Round2(realizedPnl)))
    case OtherSide(_) => Raised(UnknownSide)
  }

  method ApplyFill(state: Portfolio, fill: Fill) returns (r: Result<Filled, FillError>)
    ensures r == Applied(state, fill)
  {
    var cash := state.cash;
    var positions := state.positions;
    var position := if fill.symbol in positions then positions[fill.symbol] else Position(0, 0.0, "");
    var realizedPnl := 0.0;
    match fill.side {
      case Buy =>
        var cost := Times(fill.quantity, fill.price);
        cash := cash - (cost + fill.fee);
        var totalQty := position.quantity + fill.quantity;
        var totalCost := Times(position.quantity, position.avgCost) + cost;
        position := Position(totalQty, PerShare(totalCost, totalQty), fill.tradeDate);
      case Sell =>
        var heldQty := position.quantity;
        if fill.quantity > heldQty {
          return Raised(Oversold);
        }
        var proceeds := Times(fill.quantity, fill.price);
        realizedPnl := Times(fill.quantity, fill.price - position.avgCost) - fill.fee;
        cash := cash + (proceeds - fill.fee);
        var remaining := heldQty - fill.quantity;
        position := Position(remaining, if remaining > 0 then position.avgCost else 0.0, position.buyDate);
      case OtherSide(_) =>
        return Raised(UnknownSide);
    }
    positions := positions[fill.symbol := position];
    r := Ok(Filled(Portfolio(Round2(cash), positions), Round2(realizedPnl)));
  }

  /** Fills one after another, stopping at the first that is rejected; realized profit is summed. */
  function Replay(state: Portfolio, fills: seq<Fill>): Result<Filled, FillError> {
    if fills == [] then Ok(Filled(state, 0.0))
    else
      match Replay(state, fills[..|fills| - 1])
      case Raised(e) => Raised(e)
      case Ok(before) =>
        match Applied(before.portfolio, fills[|fills| - 1])
        case Raised(e) => Raised(e)
        case Ok(after) => Ok(Filled(after.portfolio, before.realizedPnl + after.realizedPnl))
  }

  /**
    What one accepted fill does to its symbol. A purchase adds shares and dates the position; a sale leaves the
    average cost and the date, and clears the average once nothing is left. Profit is taken on sales alone, to half a
    cent. Other symbols stay.
   */
  lemma FillMovesItsSymbol(state: Portfolio, fill: Fill)
    requires Applied(state, fill).Ok?
    ensures var after := Applied(state, fill).value;
            var was, now := Held(state.positions, fill.symbol), Held(after.portfolio.positions, fill.symbol);
            var profit := Times(fill.quantity, fill.price) - Times(fill.quantity, was.avgCost) - fill.fee;
            && (fill.side == Buy ==>
                  now.quantity == was.quantity + fill.quantity && now.buyDate == fill.tradeDate
                    && after.realizedPnl == 0.0)
            && (fill.side == Sell ==>
                  && now.quantity == was.quantity - fill.quantity >= 0 && now.buyDate == was.buyDate
                  && now.avgCost == (if now.quantity == 0 then 0.0 else was.avgCost)
                  && -0.005 <= after.realizedPnl - profit <= 0.005)
            && forall s :: s != fill.symbol ==> Held(after.portfolio.positions, s) == Held(state.positions, s)
  {
    NearestOfInteger(0);
    PricesSubtract(fill.quantity, fill.price, Held(state.positions, fill.symbol).avgCost);
  }

  // When a replay is accepted -------------------------------------------------------------------------------------

  function ShareMove(fill: Fill, symbol: string): int {
    if fill.symbol != symbol || fill.side.OtherSide? then 0
    else if fill.side.Buy? then fill.quantity else -fill.quantity
  }

  /** Shares of a symbol bought less shares sold. */
  function Net(fills: seq<Fill>, symbol: string): int {
    if fills == [] then 0 else Net(fills[..|fills| - 1], symbol) + ShareMove(fills[|fills| - 1], symbol)
  }

  /** A known side, and no sale of more than the start plus what the earlier fills left. */
  predicate Fits(state: Portfolio, fills: seq<Fill>, i: nat)
    requires i < |fills|
  {
    && !fills[i].side.OtherSide?
    && (fills[i].side.Sell? ==>
          fills[i].quantity <= Held(state.positions, fills[i].symbol).quantity + Net(fills[..i], fills[i].symbol))
  }

  lemma FillMovesShares(state: Portfolio, fill: Fill, symbol: string)
    requires Applied(state, fill).Ok?
    ensures Held(Applied(state, fill).value.portfolio.positions, symbol).quantity
         == Held(state.positions, symbol).quantity + ShareMove(fill, symbol)
  {
  }

  /** An accepted replay holds of every symbol what the start held plus the net of the fills. */
  lemma {:induction false} ReplayHoldsNet(state: Portfolio, fills: seq<Fill>, symbol: string)
    requires Replay(state, fills).Ok?
    ensures Held(Replay(state, fills).value.portfolio.positions, symbol).quantity
         == Held(state.positions, symbol).quantity + Net(fills, symbol)
  {
    if fills != [] {
      var most := fills[..|fills| - 1];
      ReplayHoldsNet(state, most, symbol);
      FillMovesShares(Replay(state, most).value.portfolio, fills[|fills| - 1], symbol);
    }
  }

  /** Any fills from any portfolio are accepted to the end if and only if every one of them fits. */
  lemma {:induction false} ReplayAcceptedIff(state: Portfolio, fills: seq<Fill>)
    ensures Replay(state, fills).Ok? <==> forall i :: 0 <= i < |fills| ==> Fits(state, fills, i)
  {
    if fills != [] {
      var n := |fills| - 1;
      var most := fills[..n];
      ReplayAcceptedIff(state, most);
      forall i | 0 <= i < n
        ensures Fits(state, fills, i) == Fits(state, most, i)
      {
        assert most[..i] == fills[..i];
      }
      if Replay(state, most).Ok? {
        ReplayHoldsNet(state, most, fills[n].symbol);
        assert Replay(state, fills).Ok? == Fits(state, fills, n);
      } else {
        var i :| 0 <= i < n && !Fits(state, most, i);
        assert !Fits(state, fills, i);
      }
    }
  }

  // Conservation of book value ------------------------------------------------------------------------------------

  function Costs(positions: map<string, Position>): map<string, real> {
    map s | s in positions :: Cost(positions[s])
  }

  ghost function BookValue(state: Portfolio): real {
    state.cash + Total(Costs(state.positions))
  }

  predicate NothingShort(positions: map<string, Position>) {
    forall s :: s in positions ==> positions[s].quantity >= 0
  }

  /** The cost that the averaging forgets: only a position driven to nothing or below forgets any. */
  function Forgotten(position: Position, fill: Fill): real {
    if fill.side.Buy? then
      if position.quantity + fill.quantity > 0 then 0.0 else Cost(position) + Times(fill.quantity, fill.price)
    else
      if position.quantity - fill.quantity > 0 then 0.0 else Times(position.quantity - fill.quantity, position.avgCost)
  }

  function BuyFee(fill: Fill): real {
    if fill.side.Buy? then fill.fee else 0.0
  }

  function Tolerance(fill: Fill): real {
    if fill.side.Buy? then 0.005 else 0.01
  }

  function BuyFees(fills: seq<Fill>): real {
    if fills == [] then 0.0 else BuyFees(fills[..|fills| - 1]) + BuyFee(fills[|fills| - 1])
  }

  function Tolerances(fills: seq<Fill>): real {
    if fills == [] then 0.0 else Tolerances(fills[..|fills| - 1]) + Tolerance(fills[|fills| - 1])
  }

  function CountSide(fills: seq<Fill>, side: Side): nat {
    if fills == [] then 0
    else CountSide(fills[..|fills| - 1], side) + if fills[|fills| - 1].side == side then 1 else 0
  }

  lemma CostsUpdated(positions: map<string, Position>, symbol: string, position: Position)
    ensures Total(Costs(positions[symbol := position]))
            == Total(Costs(positions)) - Cost(Held(positions, symbol)) + Cost(position)
  {
    assert Costs(positions[symbol := position]) == Costs(positions)[symbol := Cost(position)];
    TotalUpdated(Costs(positions), symbol, Cost(position));
    assert Cost(Held(positions, symbol)) == At(Costs(positions), symbol);
  }

  lemma SellCost(position: Position, fill: Fill)
    requires fill.side.Sell?
    ensures Cost(Sold(position, fill.quantity))
         == Cost(position) - Times(fill.quantity, position.avgCost) - Forgotten(position, fill)
  {
  }

  lemma BuyCost(position: Position, fill: Fill)
    requires fill.side.Buy?
    ensures Cost(Bought(position, fill))
            == Cost(position) + Times(fill.quantity, fill.price) - Forgotten(position, fill)
  {
  }

  /** The bookkeeping of one fill once every product has been given a name. */
  lemma BookDrift(cash: real, costs: real, amount: real, shed: real, forgotten: real, fill: Fill, after: Filled,
                  newCosts: real)
    requires fill.side.Buy? ==>
               && after.portfolio.cash == Round2(cash - (amount + fill.fee)) && after.realizedPnl == Round2(0.0)
               && newCosts == costs + amount - forgotten
    requires fill.side.Sell? ==>
               && after.portfolio.cash == Round2(cash + (amount - fill.fee))
                  && after.realizedPnl == Round2(amount - shed - fill.fee)
               && newCosts == costs - shed - forgotten
    requires !fill.side.OtherSide?
    ensures var drift := after.portfolio.cash
            + newCosts - (cash + costs + after.realizedPnl - BuyFee(fill) - forgotten);
            -Tolerance(fill) <= drift <= Tolerance(fill)
  {
    NearestOfInteger(0);
  }

  /**
    One accepted fill, of any quantity and price: book value moves by realized profit and BUY fees, and by what is
    forgotten.
   */
  lemma FillMovesBookValue(state: Portfolio, fill: Fill)
    requires Applied(state, fill).Ok?
    ensures var after := Applied(state, fill).value;
            var drift := BookValue(after.portfolio)
                         - (BookValue(state) + after.realizedPnl - BuyFee(fill)
                            - Forgotten(Held(state.positions, fill.symbol), fill));
            -Tolerance(fill) <= drift <= Tolerance(fill)
  {
    var position := Held(state.positions, fill.symbol);
    var after := Applied(state, fill).value;
    var costs := Total(Costs(state.positions));
    var newCosts := Total(Costs(after.portfolio.positions));
    var amount := Times(fill.quantity, fill.price);
    var shed := Times(fill.quantity, position.avgCost);
    var forgotten := Forgotten(position, fill);
    if fill.side.Buy? {
      CostsUpdated(state.positions, fill.symbol, Bought(position, fill));
      BuyCost(position, fill);
    } else {
      CostsUpdated(state.positions, fill.symbol, Sold(position, fill.quantity));
      SellCost(position, fill);
      PricesSubtract(fill.quantity, fill.price, position.avgCost);
    }
    BookDrift(state.cash, costs, amount, shed, forgotten, fill, after, newCosts);
  }

  lemma FillKeepsNothingShort(state: Portfolio, fill: Fill)
    requires NothingShort(state.positions) && fill.quantity >= 0 && Applied(state, fill).Ok?
    ensures NothingShort(Applied(state, fill).value.portfolio.positions)
    ensures Forgotten(Held(state.positions, fill.symbol), fill) == 0.0
  {
  }

  /** The cost forgotten over a sequence of fills, for as long as they are accepted. */
  function ForgottenBy(state: Portfolio, fills: seq<Fill>): real {
    if fills == [] then 0.0
    else
      var most, last := fills[..|fills| - 1], fills[|fills| - 1];
      ForgottenBy(state, most)
        + if Replay(state, most).Ok?
          then Forgotten(Held(Replay(state, most).value.portfolio.positions, last.symbol), last) else 0.0
  }

  /**
    Over every accepted sequence of fills, of any quantities: cash plus cost basis is the starting value plus all
    reported realized profit minus all BUY fees and all cost forgotten, within the rounding of cash and profit.
   */
  lemma {:induction false} ReplayMovesBookValue(state: Portfolio, fills: seq<Fill>)
    requires Replay(state, fills).Ok?
    ensures var after := Replay(state, fills).value;
            var drift := BookValue(after.portfolio)
                         - (BookValue(state) + after.realizedPnl - BuyFees(fills) - ForgottenBy(state, fills));
            -Tolerances(fills) <= drift <= Tolerances(fills)
  {
    if fills != [] {
      var most := fills[..|fills| - 1];
      ReplayMovesBookValue(state, most);
      FillMovesBookValue(Replay(state, most).value.portfolio, fills[|fills| - 1]);
    }
  }

  lemma {:induction false} NothingIsForgotten(state: Portfolio, fills: seq<Fill>)
    requires NothingShort(state.positions)
    requires forall i :: 0 <= i < |fills| ==> fills[i].quantity >= 0
    requires Replay(state, fills).Ok?
    ensures NothingShort(Replay(state, fills).value.portfolio.positions) && ForgottenBy(state, fills) == 0.0
  {
    if fills != [] {
      var most := fills[..|fills| - 1];
      NothingIsForgotten(state, most);
      FillKeepsNothingShort(Replay(state, most).value.portfolio, fills[|fills| - 1]);
    }
  }

  /** With non-negative quantities nothing goes short and nothing is forgotten. */
  lemma {:induction false} ReplayConservesBookValue(state: Portfolio, fills: seq<Fill>)
    requires NothingShort(state.positions)
    requires forall i :: 0 <= i < |fills| ==> fills[i].quantity >= 0
    requires Replay(state, fills).Ok?
    ensures var after := Replay(state, fills).value;
            var drift := BookValue(after.portfolio) - (BookValue(state) + after.realizedPnl - BuyFees(fills));
            && NothingShort(after.portfolio.positions)
            && -Tolerances(fills) <= drift <= Tolerances(fills)
  {
    NothingIsForgotten(state, fills);
    ReplayMovesBookValue(state, fills);
  }

  /** The rounding allowed: half a cent per BUY, a cent per SELL. */
  lemma {:induction false} TolerancesByCount(fills: seq<Fill>)
    requires forall i :: 0 <= i < |fills| ==> !fills[i].side.OtherSide?
    ensures Tolerances(fills) == 0.005 * CountSide(fills, Buy) as real + 0.01 * CountSide(fills, Sell) as real
  {
    if fills != [] {
      TolerancesByCount(fills[..|fills| - 1]);
    }
  }

  // Net asset value -----------------------------------------------------------------------------------------------

  function MarkPrice(position: Position, symbol: string, prices: map<string, real>): real {
    if symbol in prices then prices[symbol] else position.avgCost
  }

  function MarketValues(positions: map<string, Position>, prices: map<string, real>): map<string, real> {
    map s | s in positions :: Times(positions[s].quantity, MarkPrice(positions[s], s, prices))
  }

  ghost function MarkedValue(state: Portfolio, prices: map<string, real>): real {
    state.cash + Total(MarketValues(state.positions, prices))
  }

  /** With no price at all the nav is the book value: an unpriced position counts at its average cost. */
  lemma UnpricedIsWorthItsCost(state: Portfolio)
    ensures MarkedValue(state, map[]) == BookValue(state)
  {
    assert MarketValues(state.positions, map[]) == Costs(state.positions);
  }

  function Priced(positions: map<string, Position>, prices: map<string, real>): map<string, real> {
    map s | s in positions && s in prices :: Times(positions[s].quantity, prices[s])
  }

  function Unpriced(positions: map<string, Position>, prices: map<string, real>): map<string, real> {
    map s | s in positions && s !in prices :: Times(positions[s].quantity, positions[s].avgCost)
  }

  /** In general it is cash, the priced positions at their prices and the others at their average cost. */
  lemma NavByPricing(state: Portfolio, prices: map<string, real>)
    ensures MarkedValue(state, prices)
         == state.cash + Total(Priced(state.positions, prices)) + Total(Unpriced(state.positions, prices))
  {
    TotalOfParts(MarketValues(state.positions, prices), Priced(state.positions, prices),
                 Unpriced(state.positions, prices));
  }

  method ComputeNav(state: Portfolio, prices: map<string, real>) returns (nav: real)
    ensures nav == Round2(MarkedValue(state, prices))
  {
    nav := state.cash;
    var pending := state.positions.Keys;
    ghost var left := MarketValues(state.positions, prices);
    while pending != {}
      invariant pending <= state.positions.Keys && left.Keys == pending
      invariant forall s :: s in pending ==> left[s] == MarketValues(state.positions, prices)[s]
      invariant nav + Total(left) == MarkedValue(state, prices)
      decreases pending
    {
      var symbol :| symbol in pending;
      TotalWithout(left, symbol);
      nav := nav + Times(state.positions[symbol].quantity, MarkPrice(state.positions[symbol], symbol, prices));
      pending := pending - {symbol};
      left := left - {symbol};
    }
    nav := Round2(nav);
  }

  /** How much worse than the mark price a fill was, over its whole quantity. */
  function Slippage(fill: Fill, mark: real): real {
    if fill.side.Buy? then Times(fill.quantity, fill.price - mark) else Times(fill.quantity, mark - fill.price)
  }

  lemma MarketValueUpdated(positions: map<string, Position>, symbol: string, position: Position,
                           prices: map<string, real>)
    requires symbol in prices
    ensures Total(MarketValues(positions[symbol := position], prices))
         == Total(MarketValues(positions, prices))
            - Times(Held(positions, symbol).quantity, prices[symbol]) + Times(position.quantity, prices[symbol])
  {
    var values := MarketValues(positions, prices);
    var worth := Times(position.quantity, prices[symbol]);
    assert MarketValues(positions[symbol := position], prices) == values[symbol := worth];
    TotalUpdated(values, symbol, worth);
    assert At(values, symbol) == Times(Held(positions, symbol).quantity, prices[symbol]);
  }

  lemma MarkDrift(cash: real, value: real, was: real, now: real, amount: real, worth: real, fill: Fill, newCash: real,
                  slippage: real)
    requires fill.side.Buy? ==>
               newCash == Round2(cash - (amount + fill.fee)) && now == was + worth && slippage == amount - worth
    requires fill.side.Sell? ==>
             newCash == Round2(cash + (amount - fill.fee)) && now == was - worth && slippage == worth - amount
    requires !fill.side.OtherSide?
    ensures var drift := newCash + (value - was + now) - (cash + value - fill.fee - slippage);
            -0.005 <= drift <= 0.005
  {
  }

  /** At fixed mark prices a fill in a priced symbol costs its fee and its slippage, to half a cent. */
  lemma FillCostsFeeAndSlippage(state: Portfolio, fill: Fill, prices: map<string, real>)
    requires Applied(state, fill).Ok?
    requires fill.symbol in prices
    ensures var after := Applied(state, fill).value.portfolio;
            var drift := MarkedValue(after, prices)
              - (MarkedValue(state, prices) - fill.fee - Slippage(fill, prices[fill.symbol]));
            -0.005 <= drift <= 0.005
  {
    var after := Applied(state, fill).value.portfolio;
    var mark := prices[fill.symbol];
    var was := Held(state.positions, fill.symbol).quantity;
    var position := after.positions[fill.symbol];
    if fill.side.Buy? {
      SharesAddUp(was, fill.quantity, mark);
      PricesSubtract(fill.quantity, fill.price, mark);
    } else {
      SharesAddUp(was, fill.quantity, mark);
      PricesSubtract(fill.quantity, mark, fill.price);
    }
    MarketValueUpdated(state.positions, fill.symbol, position, prices);
    MarkDrift(state.cash, Total(MarketValues(state.positions, prices)), Times(was, mark),
              Times(position.quantity, mark),
              Times(fill.quantity, fill.price), Times(fill.quantity, mark), fill, after.cash, Slippage(fill, mark));
  }
}
