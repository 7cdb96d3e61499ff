/**
  The daily backtest: one instrument, whole lots, buy up to a target value and sell everything. Dates are day numbers.
 */
module Backtest {
  import opened MarketRules
  import opened Numbers
  import opened PaperPortfolio
  import opened Results
  import opened Rounding

  datatype Bar = Bar(date: int, close: real)

  datatype Signal = Signal(date: int, side: Side, targetRatio: real)

  datatype Trade = Trade(date: int, side: Side, quantity: int, price: real, notional: real, fee: real)

  datatype Setup = Setup(initialCash: real, lotSize: int, feeBps: real, slippageBps: real)

  datatype Book = Book(cash: real, position: int, avgCost: real, trades: seq<Trade>)

  datatype Report = Report(equityCurve: seq<real>, trades: seq<Trade>, finalNav: real)

  /** The signal of a date is the last one listed for it. */
  function SignalOn(signals: seq<Signal>, date: int): Signal {
    if signals == [] then Signal(date, OtherSide("HOLD"), 0.0)
    else if signals[|signals| - 1].date == date then signals[|signals| - 1]
    else SignalOn(signals[..|signals| - 1], date)
  }

  function TargetValue(s: Setup, signal: Signal): real {
    s.initialCash * signal.targetRatio
  }

  function BuyQuantity(s: Setup, book: Book, bar: Bar, signal: Signal): int {
    if signal.targetRatio > 0.0 then
      CalculateLotQuantity(AmountAtLeastZero(TargetValue(s, signal) - Times(book.position, bar.close)),
                           bar.close, s.lotSize)
    else 0
  }

  function BuyPrice(s: Setup, close: real): real {
    Round4(Product(close, 1.0 + s.slippageBps / 10000.0))
  }

  function SellPrice(s: Setup, close: real): real {
    Round4(Product(close, 1.0 - s.slippageBps / 10000.0))
  }

  function FeeOn(s: Setup, notional: real): real {
    Round2(Product(notional, s.feeBps) / 10000.0)
  }

  function TradeOf(s: Setup, side: Side, date: int, quantity: int, price: real): Trade {
    var notional := Times(quantity, price);
    Trade(date, side, quantity, price, Round2(notional), FeeOn(s, notional))
  }

  function Spent(trade: Trade): real {
    Times(trade.quantity, trade.price) + trade.fee
  }

  function OnBar(s: Setup, book: Book, bar: Bar, signal: Signal): Book {
    match signal.side
    case Buy =>
      var trade := TradeOf(s, Buy, bar.date, BuyQuantity(s, book, bar, signal), BuyPrice(s, bar.close));
      if trade.quantity <= 0 || book.cash < Spent(trade) then book
      else
        var cost := Times(book.position, book.avgCost) + Times(trade.quantity, trade.price);
        Book(book.cash - Spent(trade), book.position + trade.quantity, PerShare(cost, book.position + trade.quantity),
             book.trades + [trade])
    case Sell =>
      if book.position <= 0 then book
      else
        var trade := TradeOf(s, Sell, bar.date, book.position, SellPrice(s, bar.close));
        Book(book.cash + (Times(trade.quantity, trade.price) - trade.fee), 0, 0.0, book.trades + [trade])
    case OtherSide(_) => book
  }

  function Run(s: Setup, bars: seq<Bar>, signals: seq<Signal>): Book {
    if bars == [] then Book(s.initialCash, 0, 0.0, [])
    else
      var bar := bars[|bars| - 1];
      OnBar(s, Run(s, bars[..|bars| - 1], signals), bar, SignalOn(signals, bar.date))
  }

  function Equity(book: Book, bar: Bar): real {
    Round2(book.cash + Times(book.position, bar.close))
  }

  function EquityCurve(s: Setup, bars: seq<Bar>, signals: seq<Signal>): (curve: seq<real>)
    ensures |curve| == |bars|
  {
    if bars == [] then []
    else EquityCurve(s, bars[..|bars| - 1], signals) + [Equity(Run(s, bars, signals), bars[|bars| - 1])]
  }

  /** Each equity point is the book after that bar, marked at its close: later bars change no earlier point. */
  lemma {:induction false} EquityAt(s: Setup, bars: seq<Bar>, signals: seq<Signal>, i: nat)
    requires i < |bars|
    ensures EquityCurve(s, bars, signals)[i] == Equity(Run(s, bars[..i + 1], signals), bars[i])
    decreases |bars|
  {
    var most := bars[..|bars| - 1];
    if i < |most| {
      EquityAt(s, most, signals, i);
      assert most[..i + 1] == bars[..i + 1];
    } else {
      assert bars[..i + 1] == bars;
    }
  }

  /** One turn of the bar loop, up to its equity point. */
  method TradeBar(s: Setup, book: Book, bar: Bar, signal: Signal) returns (after: Book)
    ensures after == OnBar(s, book, bar, signal)
  {
    var cash, position, avgCost, trades := book.cash, book.position, book.avgCost, book.trades;
    var price := bar.close;
    if signal.side.Buy? && signal.targetRatio > 0.0 {
      var deltaValue := AmountAtLeastZero(TargetValue(s, signal) - Times(position, price));
      var quantity := CalculateLotQuantity(deltaValue, price, s.lotSize);
      if quantity > 0 {
        var fillPrice := BuyPrice(s, price);
        var notional := Times(quantity, fillPrice);
        var fee := FeeOn(s, notional);
        if cash >= notional + fee {
          var totalCost := Times(position, avgCost) + notional;
          position := position + quantity;
          avgCost := PerShare(totalCost, position);
          cash := cash - (notional + fee);
          trades := trades + [Trade(bar.date, Buy, quantity, fillPrice, Round2(notional), fee)];
        }
      }
    } else if signal.side.Sell? && position > 0 {
      var fillPrice := SellPrice(s, price);
      var notional := Times(position, fillPrice);
      var fee := FeeOn(s, notional);
      cash := cash + (notional - fee);
      trades := trades + [Trade(bar.date, Sell, position, fillPrice, Round2(notional), fee)];
      position, avgCost := 0, 0.0;
    }
    after := Book(cash, position, avgCost, trades);
  }

  method RunDailyBacktest(s: Setup, bars: seq<Bar>, signals: seq<Signal>) returns (r: Report)
    ensures r.equityCurve == EquityCurve(s, bars, signals)
    ensures r.trades == Run(s, bars, signals).trades
    ensures r.finalNav == if bars == [] then s.initialCash else Equity(Run(s, bars, signals), bars[|bars| - 1])
    ensures bars != [] && SignalOn(signals, bars[|bars| - 1].date).side == Sell ==>
              OpenQuantity(r.trades) == 0 && r.finalNav == Round2(ReplayCash(s.initialCash, r.trades))
  {
    var book := Book(s.initialCash, 0, 0.0, []);
    var equityCurve: seq<real> := [];
    for i := 0 to |bars|
      invariant book == Run(s, bars[..i], signals)
      invariant equityCurve == EquityCurve(s, bars[..i], signals)
    {
      assert bars[..i + 1][..i] == bars[..i];
      book := TradeBar(s, book, bars[i], SignalOn(signals, bars[i].date));
      equityCurve := equityCurve + [Equity(book, bars[i])];
    }
    assert bars[..|bars|] == bars;
    PositionIsNeverShort(s, bars, signals);
    if bars != [] && SignalOn(signals, bars[|bars| - 1].date).side == Sell {
      SellDayEndsInCash(s, bars, signals, |bars| - 1);
    }
    r := Report(equityCurve, book.trades, if equityCurve != [] then equityCurve[|equityCurve| - 1] else s.initialCash);
  }

  // What each signal does -----------------------------------------------------------------------------------------

  /** The signal of a date is the last one listed for it; a date without one holds. */
  lemma {:induction false} LastSignalCounts(signals: seq<Signal>, k: nat, date: int)
    requires forall j :: k < j < |signals| ==> signals[j].date != date
    ensures k < |signals| && signals[k].date == date ==> SignalOn(signals, date) == signals[k]
    ensures (forall j :: 0 <= j < |signals| ==> signals[j].date != date) ==>
            SignalOn(signals, date).side == OtherSide("HOLD")
    decreases |signals|
  {
    if signals != [] {
      LastSignalCounts(signals[..|signals| - 1], k, date);
    }
  }

  /** A trade of `quantity` at the close moved by `bps`, to a twenty-thousandth, and charged the fee, to half a cent. */
  ghost predicate IsTrade(s: Setup, trade: Trade, side: Side, bar: Bar, quantity: int, bps: real) {
    && trade.date == bar.date && trade.side == side && trade.quantity == quantity
    && -0.00005 <= trade.price - Product(bar.close, 1.0 + bps / 10000.0) <= 0.00005
    && -0.005 <= trade.fee - Product(Times(quantity, trade.price), s.feeBps) / 10000.0 <= 0.005
    && -0.005 <= trade.notional - Times(quantity, trade.price) <= 0.005
  }

  /** On a SELL signal an open position is sold whole, in one trade, and its proceeds less the fee go to cash. */
  lemma SellSignalSellsAll(s: Setup, book: Book, bar: Bar, signal: Signal) returns (trade: Trade)
    requires signal.side == Sell && book.position > 0
    ensures IsTrade(s, trade, Sell, bar, book.position, -s.slippageBps)
    ensures OnBar(s, book, bar, signal)
         == Book(book.cash + Times(book.position, trade.price) - trade.fee, 0, 0.0, book.trades + [trade])
  {
    trade := TradeOf(s, Sell, bar.date, book.position, SellPrice(s, bar.close));
    assert -s.slippageBps / 10000.0 == -(s.slippageBps / 10000.0);
  }

  /** The most whole lots that are worth at most `value` at `price`; none without a value, a price or a lot. */
  ghost predicate IsLargestLot(quantity: int, value: real, price: real, lot: int) {
    if value > 0.0 && price > 0.0 && lot > 0 then
      && quantity % lot == 0 && Times(quantity, price) <= value
      && forall q :: q % lot == 0 && Times(q, price) <= value ==> q <= quantity
    else quantity == 0
  }

  lemma QuantityIsLargestLot(value: real, price: real, lot: int)
    ensures IsLargestLot(CalculateLotQuantity(value, price, lot), value, price, lot)
  {
    if value > 0.0 && price > 0.0 && lot > 0 {
      LotQuantityIsLargestAffordable(value, price, lot);
    }
  }

  lemma BuyQuantityIsLargestLot(s: Setup, book: Book, bar: Bar, signal: Signal)
    requires signal.targetRatio > 0.0
    ensures IsLargestLot(BuyQuantity(s, book, bar, signal),
                         Product(s.initialCash, signal.targetRatio) - Times(book.position, bar.close),
                         bar.close, s.lotSize)
  {
    var value := TargetValue(s, signal) - Times(book.position, bar.close);
    assert TargetValue(s, signal) == Product(s.initialCash, signal.targetRatio);
    QuantityIsLargestLot(AmountAtLeastZero(value), bar.close, s.lotSize);
  }

  function BuyTrade(s: Setup, book: Book, bar: Bar, signal: Signal): Trade {
    TradeOf(s, Buy, bar.date, BuyQuantity(s, book, bar, signal), BuyPrice(s, bar.close))
  }

  lemma BuyTradeIsTrade(s: Setup, book: Book, bar: Bar, signal: Signal)
    ensures IsTrade(s, BuyTrade(s, book, bar, signal), Buy, bar, BuyQuantity(s, book, bar, signal), s.slippageBps)
  {
  }

  lemma CostIsAveraged(cost: real, quantity: int)
    requires quantity > 0
    ensures Times(quantity, PerShare(cost, quantity)) == cost
  {
  }

  lemma BuyTradeIsBooked(s: Setup, book: Book, bar: Bar, signal: Signal)
    requires signal.side == Buy
    ensures var after, trade := OnBar(s, book, bar, signal), BuyTrade(s, book, bar, signal);
            var cost := Times(trade.quantity, trade.price);
            if trade.quantity > 0 && cost + trade.fee <= book.cash then
              && after.cash == book.cash - cost - trade.fee
              && after.position == book.position + trade.quantity && after.trades == book.trades + [trade]
              && (book.position >= 0 ==>
                    Times(after.position, after.avgCost) == Times(book.position, book.avgCost) + cost)
            else after == book
  {
    var trade := BuyTrade(s, book, bar, signal);
    if book.position >= 0 && trade.quantity > 0 {
      CostIsAveraged(Times(book.position, book.avgCost) + Times(trade.quantity, trade.price),
                     book.position + trade.quantity);
    }
  }

  /**
    On a BUY signal of positive ratio the most whole lots below the target less the value held are bought, in one trade,
    whenever there are any and cash covers them and the fee; otherwise nothing happens.
   */
  lemma BuySignalBuysToTarget(s: Setup, book: Book, bar: Bar, signal: Signal) returns (trade: Trade)
    requires signal.side == Buy && signal.targetRatio > 0.0
    ensures IsTrade(s, trade, Buy, bar, trade.quantity, s.slippageBps)
    ensures IsLargestLot(trade.quantity, Product(s.initialCash, signal.targetRatio) - Times(book.position, bar.close),
                         bar.close, s.lotSize)
    ensures var after, cost := OnBar(s, book, bar, signal), Times(trade.quantity, trade.price);
            if trade.quantity > 0 && cost + trade.fee <= book.cash then
              && after.cash == book.cash - cost - trade.fee
              && after.position == book.position + trade.quantity && after.trades == book.trades + [trade]
              && (book.position >= 0 ==>
                    Times(after.position, after.avgCost) == Times(book.position, book.avgCost) + cost)
            else after == book
  {
    trade := BuyTrade(s, book, bar, signal);
    BuyTradeIsTrade(s, book, bar, signal);
    BuyQuantityIsLargestLot(s, book, bar, signal);
    BuyTradeIsBooked(s, book, bar, signal);
  }

  lemma OtherSignalsDoNothing(s: Setup, book: Book, bar: Bar, signal: Signal)
    requires signal.side == Buy ==> signal.targetRatio <= 0.0
    requires signal.side == Sell ==> book.position <= 0
    ensures OnBar(s, book, bar, signal) == book
  {
  }

  lemma {:induction false} PositionIsNeverShort(s: Setup, bars: seq<Bar>, signals: seq<Signal>)
    ensures Run(s, bars, signals).position >= 0
    ensures OpenQuantity(Run(s, bars, signals).trades) == Run(s, bars, signals).position
    ensures ReplayCash(s.initialCash, Run(s, bars, signals).trades) == Run(s, bars, signals).cash
  {
    if bars != [] {
      var n := |bars| - 1;
      PositionIsNeverShort(s, bars[..n], signals);
      BarIsReplayed(s, Run(s, bars[..n], signals), bars[n], SignalOn(signals, bars[n].date));
    }
  }

  lemma TradeIsReplayed(cash: real, trades: seq<Trade>, trade: Trade)
    ensures OpenQuantity(trades + [trade]) == if trade.side.Buy? then OpenQuantity(trades) + trade.quantity else 0
    ensures ReplayCash(cash, trades + [trade])
         == ReplayCash(cash, trades) - trade.fee
            + if trade.side.Buy? then -Times(trade.quantity, trade.price) else Times(trade.quantity, trade.price)
  {
    assert (trades + [trade])[..|trades|] == trades;
  }

  lemma BarIsReplayed(s: Setup, book: Book, bar: Bar, signal: Signal)
    requires book.position >= 0 && OpenQuantity(book.trades) == book.position
    requires ReplayCash(s.initialCash, book.trades) == book.cash
    ensures var after := OnBar(s, book, bar, signal);
            && after.position >= 0 && OpenQuantity(after.trades) == after.position
            && ReplayCash(s.initialCash, after.trades) == after.cash
  {
    if signal.side.Buy? {
      BuyTradeIsBooked(s, book, bar, signal);
      TradeIsReplayed(s.initialCash, book.trades, BuyTrade(s, book, bar, signal));
    } else if signal.side.Sell? && book.position > 0 {
      var trade := SellSignalSellsAll(s, book, bar, signal);
      TradeIsReplayed(s.initialCash, book.trades, trade);
    }
  }

  lemma SellBarEmpties(s: Setup, book: Book, bar: Bar, signal: Signal)
    requires book.position >= 0 && signal.side == Sell
    ensures OnBar(s, book, bar, signal).position == 0
  {
    if book.position > 0 {
      var _ := SellSignalSellsAll(s, book, bar, signal);
    }
  }

  lemma EquityOfCash(book: Book, bar: Bar)
    requires book.position == 0
    ensures Equity(book, bar) == Round2(book.cash)
  {
  }

  /**
    The i-th day of a run: a SELL signal sells what the run holds, a BUY signal buys to the target, others trade
    nothing.
   */
  lemma EveryDayFollowsItsSignal(s: Setup, bars: seq<Bar>, signals: seq<Signal>, i: nat) returns (trade: Trade)
    requires i < |bars|
    ensures var before, after := Run(s, bars[..i], signals), Run(s, bars[..i + 1], signals);
            var signal, bar := SignalOn(signals, bars[i].date), bars[i];
            && before.position >= 0
            && (signal.side == Sell && before.position > 0 ==>
                  && IsTrade(s, trade, Sell, bar, before.position, -s.slippageBps)
                  && after.cash == before.cash + Times(before.position, trade.price) - trade.fee
                  && after.position == 0 && after.trades == before.trades + [trade])
            && (signal.side == Buy && signal.targetRatio > 0.0 ==>
                  && IsTrade(s, trade, Buy, bar, trade.quantity, s.slippageBps)
                  && IsLargestLot(trade.quantity,
                                  Product(s.initialCash, signal.targetRatio) - Times(before.position, bar.close),
                                  bar.close, s.lotSize)
                  && (trade.quantity > 0 && Times(trade.quantity, trade.price) + trade.fee <= before.cash ==>
                        && after.cash == before.cash - Times(trade.quantity, trade.price) - trade.fee
                        && after.position == before.position + trade.quantity
                        && after.trades == before.trades + [trade]))
            && (signal.side != Sell && (signal.side == Buy ==> signal.targetRatio <= 0.0) ==> after == before)
  {
    var before, signal := Run(s, bars[..i], signals), SignalOn(signals, bars[i].date);
    assert bars[..i + 1][..i] == bars[..i];
    PositionIsNeverShort(s, bars[..i], signals);
    trade := BuyTrade(s, before, bars[i], signal);
    if signal.side == Sell && before.position > 0 {
      trade := SellSignalSellsAll(s, before, bars[i], signal);
    } else if signal.side == Buy && signal.targetRatio > 0.0 {
      trade := BuySignalBuysToTarget(s, before, bars[i], signal);
    }
  }

  /**
    A run starts from its cash and nothing else, and each equity point is cash plus the position at the close, to half
    a cent.
   */
  lemma EquityIsMarked(s: Setup, bars: seq<Bar>, signals: seq<Signal>, i: nat)
    requires i < |bars|
    ensures var book := Run(s, bars[..i + 1], signals);
            -0.005 <= EquityCurve(s, bars, signals)[i] - (book.cash + Times(book.position, bars[i].close)) <= 0.005
    ensures var start := Run(s, bars[..0], signals);
            start.cash == s.initialCash && start.position == 0 && start.avgCost == 0.0 && start.trades == []
  {
    EquityAt(s, bars, signals, i);
  }

  /** After any SELL day, whatever happened before, nothing is held and the equity is the cash. */
  lemma SellDayEndsInCash(s: Setup, bars: seq<Bar>, signals: seq<Signal>, i: nat)
    requires i < |bars| && SignalOn(signals, bars[i].date).side == Sell
    ensures Run(s, bars[..i + 1], signals).position == 0
    ensures EquityCurve(s, bars, signals)[i] == Round2(Run(s, bars[..i + 1], signals).cash)
  {
    assert bars[..i + 1][..i] == bars[..i];
    PositionIsNeverShort(s, bars[..i], signals);
    EquityAt(s, bars, signals, i);
    SellBarEmpties(s, Run(s, bars[..i], signals), bars[i], SignalOn(signals, bars[i].date));
    EquityOfCash(Run(s, bars[..i + 1], signals), bars[i]);
  }

  // Replaying the trade list --------------------------------------------------------------------------------------

  function ReplayCash(cash: real, trades: seq<Trade>): real {
    if trades == [] then cash
    else
      var last := trades[|trades| - 1];
      var before := ReplayCash(cash, trades[..|trades| - 1]);
      if last.side.Buy? then before - (Times(last.quantity, last.price) + last.fee)
      else before + (Times(last.quantity, last.price) - last.fee)
  }

  /** Shares bought since the last sale. */
  function OpenQuantity(trades: seq<Trade>): int {
    if trades == [] then 0
    else
      var last := trades[|trades| - 1];
      if last.side.Buy? then OpenQuantity(trades[..|trades| - 1]) + last.quantity else 0
  }

  ghost predicate Sensible(s: Setup, bars: seq<Bar>) {
    && s.initialCash >= 0.0 && 0.0 <= s.slippageBps <= 10000.0 && 0.0 <= s.feeBps <= 5000.0
    && forall i :: 0 <= i < |bars| ==> bars[i].close > 0.0
  }

  predicate InLots(s: Setup, quantity: int) {
    if s.lotSize > 0 then quantity % s.lotSize == 0 else quantity == 0
  }

  predicate Solvent(s: Setup, cash: real, position: int) {
    cash >= 0.0 && position >= 0 && InLots(s, position)
  }

  /**
    At every point of the trade list cash and position are sound, and a SELL is for exactly what was bought since the
    last.
   */
  ghost predicate TradesSound(s: Setup, trades: seq<Trade>) {
    forall k {:trigger trades[..k]} :: 0 <= k <= |trades| ==>
      && Solvent(s, ReplayCash(s.initialCash, trades[..k]), OpenQuantity(trades[..k]))
      && (k < |trades| ==>
            && trades[k].quantity > 0
            && (trades[k].side.Buy? || (trades[k].side.Sell? && trades[k].quantity == OpenQuantity(trades[..k]))))
  }

  ghost predicate BookSound(s: Setup, book: Book) {
    && Solvent(s, book.cash, book.position)
    && ReplayCash(s.initialCash, book.trades) == book.cash
    && OpenQuantity(book.trades) == book.position
    && TradesSound(s, book.trades)
  }

  lemma LotsAddUp(a: int, b: int, lot: int)
    requires lot > 0 && a % lot == 0 && b % lot == 0
    ensures (a + b) % lot == 0
  {
    var m, n := a / lot, b / lot;
    assert a + b == (m + n) * lot;
    MultipleLeavesNothing(m + n, lot);
  }

  lemma LotQuantityIsInLots(value: real, price: real, lot: int)
    requires lot > 0
    ensures CalculateLotQuantity(value, price, lot) % lot == 0
  {
    if value > 0.0 && price > 0.0 {
      LotQuantityIsLargestAffordable(value, price, lot);
    }
  }

  lemma NonNegativeRounds(x: real)
    requires x >= 0.0
    ensures Round2(x) >= 0.0 && Round4(x) >= 0.0
  {
    NearestIsMonotone(0.0, x * 100.0);
    NearestIsMonotone(0.0, x * 10000.0);
    NearestOfInteger(0);
  }

  lemma HalfRoundsWithin(fee: real, notional: real)
    requires 0.0 <= fee <= notional / 2.0
    ensures 0.0 <= Round2(fee) <= notional
  {
    NonNegativeRounds(fee);
    if notional < 0.01 {
      NearestIsUnique(fee * 100.0, 0);
    }
  }

  /** A fee of at most half the notional never eats more than the notional, rounding included. */
  lemma FeeIsCovered(s: Setup, notional: real)
    requires notional >= 0.0 && 0.0 <= s.feeBps <= 5000.0
    ensures 0.0 <= FeeOn(s, notional) <= notional
  {
    ProductIsNonNegative(notional, s.feeBps);
    ProductIsNonNegative(notional, 5000.0 - s.feeBps);
    assert Product(notional, 5000.0 - s.feeBps) == 5000.0 * notional - Product(notional, s.feeBps);
    HalfRoundsWithin(Product(notional, s.feeBps) / 10000.0, notional);
  }

  lemma SellPriceIsNonNegative(s: Setup, close: real)
    requires close > 0.0 && 0.0 <= s.slippageBps <= 10000.0
    ensures SellPrice(s, close) >= 0.0
  {
    var kept := 1.0 - s.slippageBps / 10000.0;
    ProductIsNonNegative(close, kept);
    NonNegativeRounds(Product(close, kept));
  }

  lemma SaleProceedsAreNonNegative(s: Setup, quantity: int, close: real)
    requires quantity >= 0 && close > 0.0 && 0.0 <= s.slippageBps <= 10000.0 && 0.0 <= s.feeBps <= 5000.0
    ensures var notional := Times(quantity, SellPrice(s, close)); notional - FeeOn(s, notional) >= 0.0
  {
    SellPriceIsNonNegative(s, close);
    MoreSharesCostMore(0, quantity, SellPrice(s, close));
    FeeIsCovered(s, Times(quantity, SellPrice(s, close)));
  }

  lemma TradeKeepsSound(s: Setup, trades: seq<Trade>, trade: Trade)
    requires TradesSound(s, trades) && trade.quantity > 0
    requires trade.side.Buy? || (trade.side.Sell? && trade.quantity == OpenQuantity(trades))
    requires Solvent(s, ReplayCash(s.initialCash, trades + [trade]), OpenQuantity(trades + [trade]))
    ensures TradesSound(s, trades + [trade])
  {
    var more := trades + [trade];
    assert trades[..|trades|] == trades;
    forall k {:trigger more[..k]} | 0 <= k <= |more|
      ensures Solvent(s, ReplayCash(s.initialCash, more[..k]), OpenQuantity(more[..k]))
      ensures k < |more| ==>
                && more[k].quantity > 0
                && (more[k].side.Buy? || (more[k].side.Sell? && more[k].quantity == OpenQuantity(more[..k])))
    {
      if k <= |trades| {
        assert more[..k] == trades[..k];
      } else {
        assert more[..k] == more;
      }
    }
  }

  lemma BarKeepsBookSound(s: Setup, book: Book, bar: Bar, signal: Signal)
    requires Sensible(s, [bar]) && BookSound(s, book)
    ensures BookSound(s, OnBar(s, book, bar, signal))
  {
    var after := OnBar(s, book, bar, signal);
    if after != book {
      var trade := after.trades[|after.trades| - 1];
      assert after.trades == book.trades + [trade];
      assert after.trades[..|book.trades|] == book.trades;
      assert [bar][0] == bar;
      if signal.side.Buy? {
        if s.lotSize > 0 {
          LotQuantityIsInLots(AmountAtLeastZero(TargetValue(s, signal) - Times(book.position, bar.close)),
                              bar.close, s.lotSize);
          LotsAddUp(book.position, trade.quantity, s.lotSize);
        }
      } else {
        SaleProceedsAreNonNegative(s, book.position, bar.close);
        assert InLots(s, 0);
      }
      TradeKeepsSound(s, book.trades, trade);
    }
  }

  /**
    For every bar and signal list: cash and position never go negative, the position stays a whole number of lots,
    replaying the trade list gives the final cash and position, and each SELL closes exactly the BUYs since the last
    SELL.
   */
  lemma {:induction false} BacktestIsSound(s: Setup, bars: seq<Bar>, signals: seq<Signal>)
    requires Sensible(s, bars)
    ensures BookSound(s, Run(s, bars, signals))
  {
    if bars != [] {
      var n := |bars| - 1;
      BacktestIsSound(s, bars[..n], signals);
      BarKeepsBookSound(s, Run(s, bars[..n], signals), bars[n], SignalOn(signals, bars[n].date));
    }
  }

  /** A bar never takes the position's value at the close above the larger of what it was and the target. */
  lemma BuyStaysUnderTarget(s: Setup, book: Book, bar: Bar, signal: Signal)
    requires bar.close > 0.0 && book.position >= 0
    ensures var was := Times(book.position, bar.close);
            var now := Times(OnBar(s, book, bar, signal).position, bar.close);
            now <= was || now <= TargetValue(s, signal)
  {
    var after := OnBar(s, book, bar, signal);
    if signal.side.Buy? && after != book {
      var delta := AmountAtLeastZero(TargetValue(s, signal) - Times(book.position, bar.close));
      var quantity := BuyQuantity(s, book, bar, signal);
      LotQuantityIsLargestAffordable(delta, bar.close, s.lotSize);
      SharesAddUp(book.position, quantity, bar.close);
    } else if signal.side.Sell? {
      MoreSharesCostMore(after.position, book.position, bar.close);
    }
  }

  // Pairing trades for the win rate -------------------------------------------------------------------------------

  function OpenBuy(trades: seq<Trade>): Option<Trade> {
    if trades == [] then None
    else
      var last := trades[|trades| - 1];
      if last.side.Buy? then Some(last)
      else if last.side.Sell? then None
      else OpenBuy(trades[..|trades| - 1])
  }

  function PairResult(buy: Trade, sell: Trade): real {
    Times(if buy.quantity <= sell.quantity then buy.quantity else sell.quantity, sell.price - buy.price)
  }

  function Paired(trades: seq<Trade>): seq<real> {
    if trades == [] then []
    else
      var before := trades[..|trades| - 1];
      var last := trades[|trades| - 1];
      if last.side.Sell? && OpenBuy(before).Some? then Paired(before) + [PairResult(OpenBuy(before).value, last)]
        else Paired(before)
  }

  /** The i-th trade is the last BUY before the j-th and nothing was sold in between. */
  predicate IsOpenAt(trades: seq<Trade>, i: nat, j: nat) {
    && i < j <= |trades| && trades[i].side == Buy
    && forall k :: i < k < j ==> trades[k].side != Buy && trades[k].side != Sell
  }

  lemma {:induction false} OpenBuyIsLast(trades: seq<Trade>, i: nat)
    requires IsOpenAt(trades, i, |trades|)
    ensures OpenBuy(trades) == Some(trades[i])
  {
    if i < |trades| - 1 {
      OpenBuyIsLast(trades[..|trades| - 1], i);
    }
  }

  /**
    A SELL with an open BUY adds one result: the difference in price over the smaller quantity. Any other trade adds
    none.
   */
  lemma SaleIsPairedWithOpenBuy(trades: seq<Trade>, i: nat, j: nat)
    requires IsOpenAt(trades, i, j) && j < |trades| && trades[j].side == Sell
    ensures var smaller := if trades[i].quantity <= trades[j].quantity then trades[i].quantity else trades[j].quantity;
            Paired(trades[..j + 1])
              == Paired(trades[..j]) + [Times(smaller, trades[j].price) - Times(smaller, trades[i].price)]
  {
    assert trades[..j + 1][..j] == trades[..j];
    assert forall k :: 0 <= k < j ==> trades[..j][k] == trades[k];
    OpenBuyIsLast(trades[..j], i);
    var smaller := if trades[i].quantity <= trades[j].quantity then trades[i].quantity else trades[j].quantity;
    PricesSubtract(smaller, trades[j].price, trades[i].price);
  }

  lemma OthersAreNotPaired(trades: seq<Trade>)
    requires trades != [] && trades[|trades| - 1].side != Sell
    ensures Paired(trades) == Paired(trades[..|trades| - 1])
  {
  }

  method PairedTradeResults(trades: seq<Trade>) returns (results: seq<real>)
    ensures results == Paired(trades)
  {
    var openBuy: Option<Trade> := None;
    results := [];
    for i := 0 to |trades|
      invariant openBuy == OpenBuy(trades[..i])
      invariant results == Paired(trades[..i])
    {
      assert trades[..i + 1][..i] == trades[..i];
      if trades[i].side.Buy? {
        openBuy := Some(trades[i]);
      } else if trades[i].side.Sell? && openBuy.Some? {
        var buy := openBuy.value;
        var quantity := if buy.quantity <= trades[i].quantity then buy.quantity else trades[i].quantity;
        results := results + [Times(quantity, trades[i].price - buy.price)];
        openBuy := None;
      }
    }
    assert trades[..|trades|] == trades;
  }

  function CountSells(trades: seq<Trade>): nat {
    if trades == [] then 0
    else CountSells(trades[..|trades| - 1]) + if trades[|trades| - 1].side.Sell? then 1 else 0
  }

  lemma {:induction false} SoundTradesPair(s: Setup, trades: seq<Trade>)
    requires TradesSound(s, trades)
    ensures |Paired(trades)| == CountSells(trades)
    ensures OpenBuy(trades).Some? <==> OpenQuantity(trades) > 0
  {
    if trades != [] {
      var n := |trades| - 1;
      var before := trades[..n];
      assert TradesSound(s, before) by {
        forall k {:trigger before[..k]} | 0 <= k <= |before|
          ensures Solvent(s, ReplayCash(s.initialCash, before[..k]), OpenQuantity(before[..k]))
          ensures k < |before| ==>
                    && before[k].quantity > 0
                    && (before[k].side.Buy?
                        || (before[k].side.Sell? && before[k].quantity == OpenQuantity(before[..k])))
        {
          assert before[..k] == trades[..k];
        }
      }
      SoundTradesPair(s, before);
      assert trades[..n] == before;
    }
  }

  /** In the trades of a backtest every SELL is paired with a BUY. */
  lemma EverySellIsPaired(s: Setup, bars: seq<Bar>, signals: seq<Signal>)
    requires Sensible(s, bars)
    ensures |Paired(Run(s, bars, signals).trades)| == CountSells(Run(s, bars, signals).trades)
  {
    BacktestIsSound(s, bars, signals);
    SoundTradesPair(s, Run(s, bars, signals).trades);
  }

  // What the paired results are worth -----------------------------------------------------------------------------

  function Sum(results: seq<real>): real {
    if results == [] then 0.0 else Sum(results[..|results| - 1]) + results[|results| - 1]
  }

  function FeesOf(trades: seq<Trade>): real {
    if trades == [] then 0.0 else FeesOf(trades[..|trades| - 1]) + trades[|trades| - 1].fee
  }

  /** A BUY and a SELL of as much, any number of times. */
  predicate RoundTrips(trades: seq<Trade>) {
    if trades == [] then true
    else
      var n := |trades|;
      && n >= 2 && trades[n - 2].side == Buy && trades[n - 1].side == Sell
      && trades[n - 2].quantity == trades[n - 1].quantity
      && RoundTrips(trades[..n - 2])
  }

  /** A round trip's result is what it earned before fees: a gain exactly when it sold above what it bought at. */
  lemma ResultIsGain(buy: Trade, sell: Trade)
    requires buy.quantity == sell.quantity > 0
    ensures PairResult(buy, sell) == Times(sell.quantity, sell.price) - Times(buy.quantity, buy.price)
    ensures PairResult(buy, sell) > 0.0 <==> sell.price > buy.price
  {
    PricesSubtract(buy.quantity, sell.price, buy.price);
    SignOfProduct(buy.quantity, sell.price - buy.price);
  }

  lemma SignOfProduct(quantity: int, x: real)
    requires quantity > 0
    ensures Times(quantity, x) > 0.0 <==> x > 0.0
  {
  }

  lemma UnfoldTwice(cash: real, trades: seq<Trade>)
    requires |trades| >= 2 && OpenBuy(trades[..|trades| - 2]) == None
    requires trades[|trades| - 2].side == Buy && trades[|trades| - 1].side == Sell
    ensures var most, buy, sell := trades[..|trades| - 2], trades[|trades| - 2], trades[|trades| - 1];
            && ReplayCash(cash, trades) == ReplayCash(cash, most) - (Times(buy.quantity, buy.price) + buy.fee)
                                           + (Times(sell.quantity, sell.price) - sell.fee)
            && FeesOf(trades) == FeesOf(most) + buy.fee + sell.fee
            && Paired(trades) == Paired(most) + [PairResult(buy, sell)] && OpenBuy(trades) == None
  {
    assert trades[..|trades| - 1][..|trades| - 2] == trades[..|trades| - 2];
  }

  /** Over any round trips the cash grows by the paired results less the fees. */
  lemma {:induction false} RoundTripsAddUp(cash: real, trades: seq<Trade>)
    requires RoundTrips(trades) && forall k :: 0 <= k < |trades| ==> trades[k].quantity > 0
    ensures ReplayCash(cash, trades) == cash + Sum(Paired(trades)) - FeesOf(trades)
    ensures OpenBuy(trades) == None
  {
    if trades != [] {
      var n := |trades|;
      var most := trades[..n - 2];
      RoundTripsAddUp(cash, most);
      UnfoldTwice(cash, trades);
      ResultIsGain(trades[n - 2], trades[n - 1]);
      assert (Paired(most) + [PairResult(trades[n - 2], trades[n - 1])])[..|Paired(most)|] == Paired(most);
    }
  }
}
