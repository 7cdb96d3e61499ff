/**
  The alpha ledger: manual fills in fractional shares, no rounding. Anything that is not a BUY is a SELL of at most
  what is held.
 */
module AlphaLedger {
  import opened MarketRules
  import opened Totals

  datatype Symbol = Symbol(name: string)

  datatype Holding = Holding(quantity: real, avgCost: real)

  datatype State = State(cashBalance: real, realizedPnl: real, positions: map<Symbol, Holding>)

  datatype Fill = Fill(symbol: Symbol, side: Side, quantity: real, price: real)

  datatype Summary = Summary(cashBalance: real, realizedPnl: real, unrealizedPnl: real, nav: real)

  function HeldIn(positions: map<Symbol, Holding>, symbol: Symbol): Holding {
    if symbol in positions then positions[symbol] else Holding(0.0, 0.0)
  }

  function Book(h: Holding): real {
    Product(h.quantity, h.avgCost)
  }

  function Average(totalCost: real, quantity: real): real {
    if quantity != 0.0 then totalCost / quantity else 0.0
  }

  function Bought(h: Holding, quantity: real, price: real): Holding {
    Holding(h.quantity + quantity, Average(Book(h) + Product(quantity, price), h.quantity + quantity))
  }

  function ActualSell(h: Holding, quantity: real): real {
    if h.quantity < quantity then h.quantity else quantity
  }

  function SoldOff(h: Holding, quantity: real): Holding {
    var left := h.quantity - ActualSell(h, quantity);
    Holding(if left > 0.0 then left else 0.0, h.avgCost)
  }

  /** What one fill does to the ledger. */
  function Applied(state: State, fill: Fill): State {
    var current := HeldIn(state.positions, fill.symbol);
    if fill.side == Buy then
      State(state.cashBalance - Product(fill.quantity, fill.price),
            state.realizedPnl,
            state.positions[fill.symbol := Bought(current, fill.quantity, fill.price)])
    else
      var actualSell := ActualSell(current, fill.quantity);
      State(state.cashBalance + Product(actualSell, fill.price),
            state.realizedPnl + Product(fill.price - current.avgCost, actualSell),
            state.positions[fill.symbol := SoldOff(current, fill.quantity)])
  }

  method ApplyManualFill(state: State, symbol: Symbol, side: Side, quantity: real, price: real) returns (after: State)
    ensures after == Applied(state, Fill(symbol, side, quantity, price))
  {
    var positions := state.positions;
    var current := if symbol in positions then positions[symbol] else Holding(0.0, 0.0);
    var cashBalance := state.cashBalance;
    var realizedPnl := state.realizedPnl;
    if side == Buy {
      var totalCost := Product(current.quantity, current.avgCost) + Product(quantity, price);
      var newQuantity := current.quantity + quantity;
      positions := positions[symbol := Holding(newQuantity, if newQuantity != 0.0
                                               then totalCost / newQuantity else 0.0)];
      cashBalance := cashBalance - Product(quantity, price);
    } else {
      var actualSell := if current.quantity < quantity then current.quantity else quantity;
      realizedPnl := realizedPnl + Product(price - current.avgCost, actualSell);
      var newQuantity := if current.quantity - actualSell > 0.0 then current.quantity - actualSell else 0.0;
      positions := positions[symbol := Holding(newQuantity, current.avgCost)];
      cashBalance := cashBalance + Product(actualSell, price);
    }
    after := State(cashBalance, realizedPnl, positions);
  }

  /** All fills from the first to the last. */
  function Replayed(state: State, fills: seq<Fill>): State {
    if fills == [] then state else Applied(Replayed(state, fills[..|fills| - 1]), fills[|fills| - 1])
  }

  // Marking to market ---------------------------------------------------------------------------------------------

  function MarkPrice(h: Holding, symbol: Symbol, prices: map<Symbol, real>): real {
    if symbol in prices then prices[symbol] else h.avgCost
  }

  function Unrealized(h: Holding, symbol: Symbol, prices: map<Symbol, real>): real {
    Product(MarkPrice(h, symbol, prices) - h.avgCost, h.quantity)
  }

  function MarketValues(positions: map<Symbol, Holding>, prices: map<Symbol, real>): map<Symbol, real> {
    map s | s in positions :: Product(positions[s].quantity, MarkPrice(positions[s], s, prices))
  }

  function Unrealizeds(positions: map<Symbol, Holding>, prices: map<Symbol, real>): map<Symbol, real> {
    map s | s in positions :: Unrealized(positions[s], s, prices)
  }

  function Books(positions: map<Symbol, Holding>): map<Symbol, real> {
    map s | s in positions :: Book(positions[s])
  }

  ghost function Marked(state: State, prices: map<Symbol, real>): Summary {
    Summary(state.cashBalance, state.realizedPnl, Total(Unrealizeds(state.positions, prices)),
            state.cashBalance + Total(MarketValues(state.positions, prices)))
  }

  method MarkToMarket(state: State, prices: map<Symbol, real>) returns (summary: Summary)
    ensures summary == Marked(state, prices)
  {
    var unrealized := 0.0;
    var marketValue := 0.0;
    var pending := state.positions.Keys;
    ghost var gainsLeft := Unrealizeds(state.positions, prices);
    ghost var valuesLeft := MarketValues(state.positions, prices);
    while pending != {}
      invariant pending <= state.positions.Keys && gainsLeft.Keys == pending && valuesLeft.Keys == pending
      invariant forall s :: s in pending ==> gainsLeft[s] == Unrealizeds(state.positions, prices)[s]
      invariant forall s :: s in pending ==> valuesLeft[s] == MarketValues(state.positions, prices)[s]
      invariant unrealized + Total(gainsLeft) == Total(Unrealizeds(state.positions, prices))
      invariant marketValue + Total(valuesLeft) == Total(MarketValues(state.positions, prices))
      decreases pending
    {
      var symbol :| symbol in pending;
      var position := state.positions[symbol];
      TotalWithout(gainsLeft, symbol);
      TotalWithout(valuesLeft, symbol);
      var markPrice := if symbol in prices then prices[symbol] else position.avgCost;
      marketValue := marketValue + Product(position.quantity, markPrice);
      unrealized := unrealized + Product(markPrice - position.avgCost, position.quantity);
      pending := pending - {symbol};
      gainsLeft := gainsLeft - {symbol};
      valuesLeft := valuesLeft - {symbol};
    }
    summary := Summary(state.cashBalance, state.realizedPnl, unrealized, state.cashBalance + marketValue);
  }

  // Conservation --------------------------------------------------------------------------------------------------

  /** Cash and cost basis, without the profits taken. */
  ghost function Capital(state: State): real {
    state.cashBalance + Total(Books(state.positions)) - state.realizedPnl
  }

  /**
    Cost basis a fill makes disappear: a BUY that brings the quantity to exactly zero forgets what the position cost.
   */
  function Forgotten(state: State, fill: Fill): real {
    var current := HeldIn(state.positions, fill.symbol);
    if fill.side == Buy && current.quantity + fill.quantity == 0.0
      then Book(current) + Product(fill.quantity, fill.price)
    else 0.0
  }

  function ForgottenBy(state: State, fills: seq<Fill>): real {
    if fills == [] then 0.0
    else
      var earlier := fills[..|fills| - 1];
      ForgottenBy(state, earlier) + Forgotten(Replayed(state, earlier), fills[|fills| - 1])
  }

  lemma AverageGivesCostBack(totalCost: real, quantity: real)
    requires quantity != 0.0
    ensures Product(quantity, Average(totalCost, quantity)) == totalCost
  {
  }

  lemma BuyMovesBook(h: Holding, quantity: real, price: real)
    ensures Book(Bought(h, quantity, price))
         == if h.quantity + quantity == 0.0 then 0.0 else Book(h) + Product(quantity, price)
  {
    if h.quantity + quantity != 0.0 {
      AverageGivesCostBack(Book(h) + Product(quantity, price), h.quantity + quantity);
    }
  }

  lemma SellMovesBook(h: Holding, quantity: real, price: real)
    ensures var actualSell := ActualSell(h, quantity);
            Book(SoldOff(h, quantity)) == Book(h) - Product(actualSell, price) + Product(price - h.avgCost, actualSell)
  {
    var sold, avg := ActualSell(h, quantity), h.avgCost;
    assert SoldOff(h, quantity).quantity == h.quantity - sold;
    assert (h.quantity - sold) * avg == h.quantity * avg - sold * avg;
    assert (price - avg) * sold == sold * price - sold * avg;
  }

  lemma BooksUpdated(positions: map<Symbol, Holding>, symbol: Symbol, h: Holding)
    ensures Total(Books(positions[symbol := h])) == Total(Books(positions)) - Book(HeldIn(positions, symbol)) + Book(h)
  {
    assert Books(positions[symbol := h]) == Books(positions)[symbol := Book(h)];
    TotalUpdated(Books(positions), symbol, Book(h));
    assert symbol !in positions ==> Book(HeldIn(positions, symbol)) == 0.0 * 0.0;
    assert At(Books(positions), symbol) == Book(HeldIn(positions, symbol));
  }

  /** One fill changes the capital by nothing but the cost basis it forgets. */
  lemma FillMovesCapital(state: State, fill: Fill)
    ensures Capital(Applied(state, fill)) == Capital(state) - Forgotten(state, fill)
  {
    var current := HeldIn(state.positions, fill.symbol);
    if fill.side == Buy {
      BuyMovesBook(current, fill.quantity, fill.price);
      BooksUpdated(state.positions, fill.symbol, Bought(current, fill.quantity, fill.price));
    } else {
      SellMovesBook(current, fill.quantity, fill.price);
      BooksUpdated(state.positions, fill.symbol, SoldOff(current, fill.quantity));
    }
  }

  /** A sale sells what is asked for, but no more than is held, at the kept average cost; a short holding is closed. */
  lemma SaleIsCapped(state: State, fill: Fill)
    requires fill.side != Buy
    ensures var held, avgCost :=
            HeldIn(state.positions, fill.symbol).quantity, HeldIn(state.positions, fill.symbol).avgCost;
            var sold := if fill.quantity <= held then fill.quantity else held;
            var after := Applied(state, fill);
            && (fill.symbol !in state.positions ==> held == 0.0)
            && after.cashBalance == state.cashBalance + Product(sold, fill.price)
            && after.realizedPnl == state.realizedPnl + Product(sold, fill.price) - Product(sold, avgCost)
            && after.positions == state.positions[fill.symbol := Holding(held - sold, avgCost)]
  {
    var held, sold := HeldIn(state.positions, fill.symbol),
      ActualSell(HeldIn(state.positions, fill.symbol), fill.quantity);
    assert (fill.price - held.avgCost) * sold == sold * fill.price - sold * held.avgCost;
  }

  /** A purchase adds its shares, pays for them and takes no profit; every other symbol stays as it is. */
  lemma PurchaseIsPaid(state: State, fill: Fill)
    requires fill.side == Buy
    ensures var after := Applied(state, fill);
            && after.cashBalance == state.cashBalance - Product(fill.quantity, fill.price)
            && after.realizedPnl == state.realizedPnl
            && HeldIn(after.positions, fill.symbol).quantity
               == HeldIn(state.positions, fill.symbol).quantity + fill.quantity
            && forall s :: s != fill.symbol ==> HeldIn(after.positions, s) == HeldIn(state.positions, s)
  {
  }

  /** A BUY that ends at quantity zero with a cost left over. */
  predicate ForgetsCost(state: State, fill: Fill) {
    var current := HeldIn(state.positions, fill.symbol);
    && fill.side == Buy
    && current.quantity + fill.quantity == 0.0
    && Book(current) + Product(fill.quantity, fill.price) != 0.0
  }

  /** Those BUYs are the only fills that do not conserve the capital. */
  lemma FillConservesCapitalIff(state: State, fill: Fill)
    ensures Capital(Applied(state, fill)) == Capital(state) <==> !ForgetsCost(state, fill)
  {
    FillMovesCapital(state, fill);
  }

  /** A negative BUY opens a short position. */
  lemma NegativeBuyOpensAShort(cash: real, symbol: Symbol)
    ensures Applied(Opening(cash), Fill(symbol, Buy, -10.0, 5.0))
            == State(cash + 50.0, 0.0, map[symbol := Holding(-10.0, 5.0)])
  {
    assert Book(Holding(0.0, 0.0)) == 0.0 && Product(-10.0, 5.0) == -50.0;
    assert Average(-50.0, -10.0) == 5.0;
  }

  /** The BUY that covers that short at a higher price loses 20 in cash and reports no loss. */
  lemma CoveringAShortHidesTheLoss(symbol: Symbol)
    ensures var short := State(150.0, 0.0, map[symbol := Holding(-10.0, 5.0)]);
            var cover := Fill(symbol, Buy, 10.0, 7.0);
            Forgotten(short, cover) == 20.0
              && Applied(short, cover) == State(80.0, 0.0, map[symbol := Holding(0.0, 0.0)])
  {
    assert Product(10.0, 7.0) == 70.0;
    assert map[symbol := Holding(-10.0, 5.0)][symbol := Holding(0.0, 0.0)] == map[symbol := Holding(0.0, 0.0)];
  }

  lemma {:induction false} ReplayMovesCapital(state: State, fills: seq<Fill>)
    ensures Capital(Replayed(state, fills)) == Capital(state) - ForgottenBy(state, fills)
  {
    if fills != [] {
      var earlier := fills[..|fills| - 1];
      ReplayMovesCapital(state, earlier);
      FillMovesCapital(Replayed(state, earlier), fills[|fills| - 1]);
    }
  }

  lemma ValueIsBookAndGain(h: Holding, symbol: Symbol, prices: map<Symbol, real>)
    ensures Product(h.quantity, MarkPrice(h, symbol, prices)) == Book(h) + Unrealized(h, symbol, prices)
  {
    var mark := MarkPrice(h, symbol, prices);
    assert h.quantity * mark == h.quantity * h.avgCost + (mark - h.avgCost) * h.quantity;
  }

  /** At any prices, nav is the capital plus the realized and the unrealized profit. */
  lemma NavIsCapitalAndProfit(state: State, prices: map<Symbol, real>)
    ensures var m := Marked(state, prices);
            m.nav == Capital(state) + m.realizedPnl + m.unrealizedPnl
  {
    var books, gains, values :=
      Books(state.positions), Unrealizeds(state.positions, prices), MarketValues(state.positions, prices);
    forall s | s in values
      ensures values[s] == books[s] + gains[s]
    {
      ValueIsBookAndGain(state.positions[s], s, prices);
    }
    TotalOfSums(books, gains, values);
  }

  function Opening(cash: real): State {
    State(cash, 0.0, map[])
  }

  ghost predicate NothingShort(positions: map<Symbol, Holding>) {
    forall s :: s in positions ==> positions[s].quantity >= 0.0
  }

  ghost predicate NonNegativeQuantities(fills: seq<Fill>) {
    forall i :: 0 <= i < |fills| ==> fills[i].quantity >= 0.0
  }

  lemma FillKeepsNothingShort(state: State, fill: Fill)
    requires NothingShort(state.positions) && fill.quantity >= 0.0
    ensures NothingShort(Applied(state, fill).positions)
    ensures Forgotten(state, fill) == 0.0
  {
    var current := HeldIn(state.positions, fill.symbol);
    assert current.quantity >= 0.0;
    if fill.side == Buy && current.quantity + fill.quantity == 0.0 {
      assert current.quantity == 0.0 && fill.quantity == 0.0;
      assert Book(current) == 0.0 && Product(fill.quantity, fill.price) == 0.0;
    }
  }

  lemma {:induction false} NothingIsForgotten(state: State, fills: seq<Fill>)
    requires NothingShort(state.positions) && NonNegativeQuantities(fills)
    ensures NothingShort(Replayed(state, fills).positions)
    ensures ForgottenBy(state, fills) == 0.0
  {
    if fills != [] {
      var earlier := fills[..|fills| - 1];
      NothingIsForgotten(state, earlier);
      FillKeepsNothingShort(Replayed(state, earlier), fills[|fills| - 1]);
    }
  }

  /**
    For every fill sequence and all prices, nav is opening cash plus realized plus unrealized profit less the cost
    basis that BUYs to exactly zero forgot; with non-negative quantities that is nothing, and no position goes short.
   */
  lemma {:induction false} NavDecomposes(cash: real, fills: seq<Fill>, prices: map<Symbol, real>)
    ensures var m := Marked(Replayed(Opening(cash), fills), prices);
            m.nav == cash + m.realizedPnl + m.unrealizedPnl - ForgottenBy(Opening(cash), fills)
    ensures NonNegativeQuantities(fills) ==>
              NothingShort(Replayed(Opening(cash), fills).positions) && ForgottenBy(Opening(cash), fills) == 0.0
  {
    ReplayMovesCapital(Opening(cash), fills);
    NavIsCapitalAndProfit(Replayed(Opening(cash), fills), prices);
    assert Books(Opening(cash).positions).Keys == {};
    if NonNegativeQuantities(fills) {
      NothingIsForgotten(Opening(cash), fills);
    }
  }

  // Positions that are not stored ---------------------------------------------------------------------------------

  /** Only positions with shares are stored. */
  function Kept(positions: map<Symbol, Holding>): map<Symbol, Holding> {
    map s | s in positions && positions[s].quantity > 0.0 :: positions[s]
  }

  function Shorts(positions: map<Symbol, Holding>): map<Symbol, Holding> {
    map s | s in positions && positions[s].quantity < 0.0 :: positions[s]
  }

  /** The unrealized profit that no stored position shows: that of the short ones. */
  ghost function HiddenGains(positions: map<Symbol, Holding>, prices: map<Symbol, real>): real {
    Total(Unrealizeds(Shorts(positions), prices))
  }

  lemma DroppedPositionsHideShorts(positions: map<Symbol, Holding>, prices: map<Symbol, real>)
    ensures Total(Unrealizeds(positions, prices))
            == Total(Unrealizeds(Kept(positions), prices)) + HiddenGains(positions, prices)
  {
    var all := Unrealizeds(positions, prices);
    var kept, shorts := Unrealizeds(Kept(positions), prices), Unrealizeds(Shorts(positions), prices);
    forall s | s in all
      ensures all[s] == At(kept, s) + At(shorts, s)
    {
      assert positions[s].quantity == 0.0 ==> all[s] == 0.0;
    }
    TotalOfParts(all, kept, shorts);
  }

  lemma NothingHidden(positions: map<Symbol, Holding>, prices: map<Symbol, real>)
    requires NothingShort(positions)
    ensures HiddenGains(positions, prices) == 0.0
  {
    assert Unrealizeds(Shorts(positions), prices).Keys == {};
  }

  /** The stored positions account for the whole unrealized profit. */
  ghost predicate KeptAddUp(positions: map<Symbol, Holding>, prices: map<Symbol, real>) {
    Total(Unrealizeds(Kept(positions), prices)) == Total(Unrealizeds(positions, prices))
  }

  /** One unit above its cost, a short position alone is marked at a loss. */
  lemma ShortHidesLoss(positions: map<Symbol, Holding>, short: Symbol)
    requires short in positions && positions[short].quantity < 0.0
    ensures !KeptAddUp(positions, map[short := positions[short].avgCost + 1.0])
  {
    var h := positions[short];
    var prices := map[short := h.avgCost + 1.0];
    var hidden := Unrealizeds(Shorts(positions), prices);
    DroppedPositionsHideShorts(positions, prices);
    forall s | s in hidden && s != short
      ensures hidden[s] == 0.0
    {
      assert MarkPrice(positions[s], s, prices) - positions[s].avgCost == 0.0;
    }
    assert hidden[short] == Product(1.0, h.quantity) == h.quantity;
    TotalOfOne(hidden, short);
  }

  /**
    Leaving out the positions without shares leaves the unrealized total as it was, whatever the prices, if and only
    if none is short.
   */
  lemma DroppedPositionsHideNothingIff(positions: map<Symbol, Holding>)
    ensures (forall prices :: KeptAddUp(positions, prices)) <==> NothingShort(positions)
  {
    if NothingShort(positions) {
      forall prices
        ensures KeptAddUp(positions, prices)
      {
        DroppedPositionsHideShorts(positions, prices);
        NothingHidden(positions, prices);
      }
    } else {
      var short :| short in positions && positions[short].quantity < 0.0;
      ShortHidesLoss(positions, short);
    }
  }
}
