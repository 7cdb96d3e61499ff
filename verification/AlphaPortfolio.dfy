/**
  Rebuilding the alpha portfolio: from the journal of manual fills through the ledger, or from the holdings entries by
  adding them up per symbol.
 */
module AlphaPortfolio {
  import opened AlphaLedger
  import opened MarketRules
  import opened Results
  import opened Rounding
  import opened Totals

  datatype TicketId = TicketId(id: string)

  datatype Ticket = Ticket(assetSymbol: Symbol, action: Side)

  datatype ManualFill = ManualFill(ticketId: TicketId, executedQuantity: real, executedPrice: real)

  /** A holdings entry. A missing quantity or price counts as zero. */
  datatype Lot = Lot(symbol: Symbol, quantity: real, buyPrice: real)

  datatype StoredPosition = StoredPosition(quantity: real, avgCost: real, markPrice: real, unrealizedPnl: real)

  /** A fill names a ticket that the lookup lacks. */
  datatype KeyError = KeyError(ticketId: TicketId)

  // Manual fills --------------------------------------------------------------------------------------------------

  function Resolved(journal: seq<ManualFill>, lookup: map<TicketId, Ticket>): Result<seq<Fill>, KeyError> {
    if journal == [] then Ok([])
    else
      var earlier, last := Resolved(journal[..|journal| - 1], lookup), journal[|journal| - 1];
      if earlier.Raised? then earlier
      else if last.ticketId !in lookup then Raised(KeyError(last.ticketId))
      else
        var ticket := lookup[last.ticketId];
        Ok(earlier.value + [Fill(ticket.assetSymbol, ticket.action, last.executedQuantity, last.executedPrice)])
  }

  lemma {:induction false} ResolvesIffTicketsKnown(journal: seq<ManualFill>, lookup: map<TicketId, Ticket>)
    ensures Resolved(journal, lookup).Ok? <==> forall i :: 0 <= i < |journal| ==> journal[i].ticketId in lookup
    ensures Resolved(journal, lookup).Ok? ==> |Resolved(journal, lookup).value| == |journal|
    ensures Resolved(journal, lookup).Ok? ==>
              forall i :: 0 <= i < |journal| ==>
                var fill, ticket := Resolved(journal, lookup).value[i], lookup[journal[i].ticketId];
                && fill.symbol == ticket.assetSymbol && fill.side == ticket.action
                && fill.quantity == journal[i].executedQuantity && fill.price == journal[i].executedPrice
  {
    if journal != [] {
      ResolvesIffTicketsKnown(journal[..|journal| - 1], lookup);
    }
  }

  lemma {:induction false} ErrorsStick(journal: seq<ManualFill>, n: nat, lookup: map<TicketId, Ticket>)
    requires n <= |journal| && Resolved(journal[..n], lookup).Raised?
    ensures Resolved(journal, lookup) == Resolved(journal[..n], lookup)
    decreases |journal|
  {
    if n < |journal| {
      assert journal[..|journal| - 1][..n] == journal[..n];
      ErrorsStick(journal[..|journal| - 1], n, lookup);
    } else {
      assert journal[..n] == journal;
    }
  }

  function Stored(h: Holding, symbol: Symbol, prices: map<Symbol, real>): StoredPosition {
    StoredPosition(h.quantity, h.avgCost, MarkPrice(h, symbol, prices), Unrealized(h, symbol, prices))
  }

  function StoredAll(positions: map<Symbol, Holding>, prices: map<Symbol, real>): map<Symbol, StoredPosition> {
    map s | s in positions && positions[s].quantity > 0.0 :: Stored(positions[s], s, prices)
  }

  function StoredGains(stored: map<Symbol, StoredPosition>): map<Symbol, real> {
    map s | s in stored :: stored[s].unrealizedPnl
  }

  // Holdings entries ----------------------------------------------------------------------------------------------

  datatype Column = QuantityColumn | CostColumn

  function Amount(lot: Lot, column: Column): real {
    if column == QuantityColumn then lot.quantity else Product(lot.quantity, lot.buyPrice)
  }

  function Share(lot: Lot, symbol: Symbol, column: Column): real {
    if lot.symbol == symbol then Amount(lot, column) else 0.0
  }

  /** One column, added up over a symbol's lots. */
  function SumOf(lots: seq<Lot>, symbol: Symbol, column: Column): real {
    if lots == [] then 0.0
    else SumOf(lots[..|lots| - 1], symbol, column) + Share(lots[|lots| - 1], symbol, column)
  }

  function Symbols(lots: seq<Lot>): set<Symbol> {
    set i | 0 <= i < |lots| :: lots[i].symbol
  }

  /** `price_map.get(symbol, avg_cost) or avg_cost`: a zero price counts as missing. */
  function PriceOr(prices: map<Symbol, real>, symbol: Symbol, avgCost: real): real {
    if symbol in prices && prices[symbol] != 0.0 then prices[symbol] else avgCost
  }

  function Aggregated(quantity: real, cost: real, symbol: Symbol, prices: map<Symbol, real>): StoredPosition
    requires quantity > 0.0
  {
    var avgCost := Round6(cost / quantity);
    var markPrice := PriceOr(prices, symbol, avgCost);
    StoredPosition(quantity, avgCost, markPrice, Round6(Product(markPrice - avgCost, quantity)))
  }

  function QuantityOf(lots: seq<Lot>, symbol: Symbol): real {
    Round6(SumOf(lots, symbol, QuantityColumn))
  }

  function AggregatedAll(lots: seq<Lot>, prices: map<Symbol, real>): map<Symbol, StoredPosition> {
    map s | s in Symbols(lots) && QuantityOf(lots, s) > 0.0 ::
      Aggregated(QuantityOf(lots, s), SumOf(lots, s, CostColumn), s, prices)
  }

  function StoredValues(stored: map<Symbol, StoredPosition>): map<Symbol, real> {
    map s | s in stored :: Product(stored[s].markPrice, stored[s].quantity)
  }

  ghost function SummaryOf(stored: map<Symbol, StoredPosition>): Summary {
    Summary(0.0, 0.0, Round6(Total(StoredGains(stored))), Round6(Total(StoredValues(stored))))
  }

  /**
    A row is marked at its price, or at its average cost when the price is missing or zero, and its profit is the
    difference over the whole quantity, to half a millionth.
   */
  lemma RowIsMarked(lots: seq<Lot>, prices: map<Symbol, real>, symbol: Symbol)
    requires symbol in AggregatedAll(lots, prices)
    ensures var row := AggregatedAll(lots, prices)[symbol];
            && row.markPrice == (if symbol in prices && prices[symbol] != 0.0 then prices[symbol] else row.avgCost)
            && -0.0000005 <= row.unrealizedPnl - Product(row.markPrice - row.avgCost, row.quantity) <= 0.0000005
            && (row.markPrice == row.avgCost ==> row.unrealizedPnl == 0.0)
  {
    var row := AggregatedAll(lots, prices)[symbol];
    NearestOfInteger(0);
    assert Product(0.0, row.quantity) == 0.0;
  }

  function StoredCosts(stored: map<Symbol, StoredPosition>): map<Symbol, real> {
    map s | s in stored :: Product(stored[s].avgCost, stored[s].quantity)
  }

  /**
    A row's profit is the difference between its price and its average over the whole quantity, to half a millionth.
   */
  predicate IsMarked(row: StoredPosition) {
    -0.0000005 <= row.unrealizedPnl - Product(row.markPrice - row.avgCost, row.quantity) <= 0.0000005
  }

  function ValueCostAndProfit(stored: map<Symbol, StoredPosition>, s: Symbol): (real, real, real)
    requires s in stored
  {
    (StoredValues(stored)[s], StoredCosts(stored)[s], StoredGains(stored)[s])
  }

  lemma OneRowLess(stored: map<Symbol, StoredPosition>, s: Symbol)
    requires s in stored
    ensures var (value, cost, profit) := ValueCostAndProfit(stored, s);
            && Total(StoredValues(stored)) == Total(StoredValues(stored - {s})) + value
            && Total(StoredCosts(stored)) == Total(StoredCosts(stored - {s})) + cost
            && Total(StoredGains(stored)) == Total(StoredGains(stored - {s})) + profit
  {
    TotalWithout(StoredValues(stored), s);
    TotalWithout(StoredCosts(stored), s);
    TotalWithout(StoredGains(stored), s);
    assert StoredValues(stored - {s}) == StoredValues(stored) - {s};
    assert StoredCosts(stored - {s}) == StoredCosts(stored) - {s};
    assert StoredGains(stored - {s}) == StoredGains(stored) - {s};
  }

  lemma OneMoreOff(off: real, one: real, n: nat)
    requires -Times(n, 0.0000005) <= off <= Times(n, 0.0000005) && -0.0000005 <= one <= 0.0000005
    ensures -Times(n + 1, 0.0000005) <= off + one <= Times(n + 1, 0.0000005)
  {
  }

  /** What the value of the rows is off their cost and profit. */
  ghost function Off(stored: map<Symbol, StoredPosition>): real {
    Total(StoredValues(stored)) - Total(StoredCosts(stored)) - Total(StoredGains(stored))
  }

  lemma OneRowOff(stored: map<Symbol, StoredPosition>, s: Symbol)
    requires s in stored && IsMarked(stored[s])
    ensures -0.0000005 <= Off(stored) - Off(stored - {s}) <= 0.0000005
  {
    OneRowLess(stored, s);
    RowDifference(stored[s]);
  }

  lemma {:induction false} RowsAddUp(stored: map<Symbol, StoredPosition>)
    requires forall s :: s in stored ==> IsMarked(stored[s])
    ensures -Times(|stored|, 0.0000005) <= Off(stored) <= Times(|stored|, 0.0000005)
    decreases |stored|
  {
    if stored.Keys == {} {
      assert StoredValues(stored).Keys == StoredCosts(stored).Keys == StoredGains(stored).Keys == {};
    } else {
      var s :| s in stored;
      RowsAddUp(stored - {s});
      OneRowOff(stored, s);
      assert |stored| == |stored - {s}| + 1;
      OneMoreOff(Off(stored - {s}), Off(stored) - Off(stored - {s}), |stored - {s}|);
    }
  }

  lemma RowDifference(row: StoredPosition)
    ensures Product(row.markPrice, row.quantity) - Product(row.avgCost, row.quantity)
         == Product(row.markPrice - row.avgCost, row.quantity)
  {
  }

  /**
    The nav of the holdings is their cost at average plus the reported profit, to half a millionth per row and one
    more each.
   */
  lemma HoldingsNavIsCostAndProfit(lots: seq<Lot>, prices: map<Symbol, real>)
    ensures var stored := AggregatedAll(lots, prices);
            var off := SummaryOf(stored).nav - Total(StoredCosts(stored)) - SummaryOf(stored).unrealizedPnl;
            var most := Times(|stored|, 0.0000005) + 0.000001;
            && -most <= off <= most
            && SummaryOf(stored).cashBalance == 0.0 && SummaryOf(stored).realizedPnl == 0.0
  {
    var stored := AggregatedAll(lots, prices);
    forall s | s in stored
      ensures IsMarked(stored[s])
    {
      RowIsMarked(lots, prices, s);
    }
    RowsAddUp(stored);
  }

  // The service ---------------------------------------------------------------------------------------------------

  class AlphaStore {
    var journal: seq<ManualFill>
    var tickets: map<TicketId, Ticket>
    var holdings: seq<Lot>
    var positions: map<Symbol, StoredPosition>
    var snapshots: seq<Summary>

    constructor (journal: seq<ManualFill>, tickets: map<TicketId, Ticket>, holdings: seq<Lot>)
      ensures this.journal == journal && this.tickets == tickets && this.holdings == holdings
      ensures positions == map[] && snapshots == []
    {
      this.journal, this.tickets, this.holdings := journal, tickets, holdings;
      positions, snapshots := map[], [];
    }

    method ReplaceAlphaPositions(rows: map<Symbol, StoredPosition>)
      modifies this`positions
      ensures positions == rows
    {
      positions := rows;
    }

    method InsertAlphaPortfolioSnapshot(row: Summary)
      modifies this`snapshots
      ensures snapshots == old(snapshots) + [row]
    {
      snapshots := snapshots + [row];
    }
  }

  class AlphaPortfolioService {
    const store: AlphaStore

    constructor (store: AlphaStore)
      ensures this.store == store
    {
      this.store := store;
    }

    /** A missing or empty lookup is replaced by the store's tickets. An unknown ticket leaves the store as it was. */
    method RebuildFromManualFills(openingCash: real, priceMap: map<Symbol, real>, ticketLookup: map<TicketId, Ticket>)
      returns (r: Result<Summary, KeyError>)
      modifies store`positions, store`snapshots
      ensures var lookup := if ticketLookup == map[] then old(store.tickets) else ticketLookup;
              var resolved := Resolved(old(store.journal), lookup);
              match resolved
              case Raised(error) =>
                r == Raised(error) && store.positions == old(store.positions) && store.snapshots == old(store.snapshots)
              case Ok(fills) =>
                var state := Replayed(Opening(openingCash), fills);
                && r == Ok(Marked(state, priceMap))
                && store.positions == StoredAll(state.positions, priceMap)
                && store.snapshots == old(store.snapshots) + [Marked(state, priceMap)]
    {
      var lookup := if ticketLookup == map[] then store.tickets else ticketLookup;
      var journal := store.journal;
      var state := Opening(openingCash);
      ghost var fills: seq<Fill> := [];
      for i := 0 to |journal|
        invariant Resolved(journal[..i], lookup) == Ok(fills)
        invariant state == Replayed(Opening(openingCash), fills)
        invariant store.positions == old(store.positions) && store.snapshots == old(store.snapshots)
      {
        var fill := journal[i];
        assert journal[..i + 1][..i] == journal[..i];
        if fill.ticketId !in lookup {
          ErrorsStick(journal, i + 1, lookup);
          return Raised(KeyError(fill.ticketId));
        }
        var ticket := lookup[fill.ticketId];
        state := ApplyManualFill(state, ticket.assetSymbol, ticket.action, fill.executedQuantity, fill.executedPrice);
        ghost var applied := Fill(ticket.assetSymbol, ticket.action, fill.executedQuantity, fill.executedPrice);
        assert (fills + [applied])[..|fills|] == fills;
        fills := fills + [applied];
      }
      assert journal[..|journal|] == journal;
      var summary := MarkToMarket(state, priceMap);
      store.ReplaceAlphaPositions(StoredAll(state.positions, priceMap));
      store.InsertAlphaPortfolioSnapshot(summary);
      r := Ok(summary);
    }

    /** The first loop: quantities and costs per symbol. */
    method SumBySymbol(entries: seq<Lot>) returns (quantities: map<Symbol, real>, costs: map<Symbol, real>)
      ensures quantities.Keys == costs.Keys == Symbols(entries)
      ensures forall s :: s in quantities ==> quantities[s] == SumOf(entries, s, QuantityColumn)
      ensures forall s :: s in costs ==> costs[s] == SumOf(entries, s, CostColumn)
    {
      quantities, costs := map[], map[];
      for i := 0 to |entries|
        invariant quantities.Keys == costs.Keys == Symbols(entries[..i])
        invariant forall s :: At(quantities, s) == SumOf(entries[..i], s, QuantityColumn)
        invariant forall s :: At(costs, s) == SumOf(entries[..i], s, CostColumn)
      {
        var entry := entries[i];
        var symbol := entry.symbol;
        SymbolsAppended(entries, i);
        SumsAppended(entries, i);
        if symbol !in quantities {
          quantities, costs := quantities[symbol := 0.0], costs[symbol := 0.0];
        }
        quantities := quantities[symbol := quantities[symbol] + entry.quantity];
        costs := costs[symbol := costs[symbol] + Product(entry.quantity, entry.buyPrice)];
      }
      assert entries[..|entries|] == entries;
    }

    method PriceRow(quantity: real, cost: real, symbol: Symbol, priceMap: map<Symbol, real>)
        returns (row: StoredPosition)
      requires quantity > 0.0
      ensures row == Aggregated(quantity, cost, symbol, priceMap)
    {
      var avgCost := Round6(cost / quantity);
      var markPrice := if symbol in priceMap && priceMap[symbol] != 0.0 then priceMap[symbol] else avgCost;
      var positionUnrealized := Round6(Product(markPrice - avgCost, quantity));
      row := StoredPosition(quantity, avgCost, markPrice, positionUnrealized);
    }

    /**
      The second loop: rounded positions and their totals. Symbols whose rounded quantity is not positive are skipped.
     */
    method PricePositions(quantities: map<Symbol, real>, costs: map<Symbol, real>, priceMap: map<Symbol, real>,
                          ghost entries: seq<Lot>)
      returns (positions: map<Symbol, StoredPosition>, unrealizedPnl: real, marketValue: real)
      requires quantities.Keys == costs.Keys == Symbols(entries)
      requires forall s :: s in quantities ==> quantities[s] == SumOf(entries, s, QuantityColumn)
      requires forall s :: s in costs ==> costs[s] == SumOf(entries, s, CostColumn)
      ensures positions == AggregatedAll(entries, priceMap)
      ensures unrealizedPnl == Total(StoredGains(positions)) && marketValue == Total(StoredValues(positions))
    {
      positions, unrealizedPnl, marketValue := map[], 0.0, 0.0;
      var pending := quantities.Keys;
      ghost var all := AggregatedAll(entries, priceMap);
      while pending != {}
        invariant pending <= quantities.Keys
        invariant positions == all - pending
        invariant unrealizedPnl == Total(StoredGains(positions)) && marketValue == Total(StoredValues(positions))
        decreases pending
      {
        var symbol :| symbol in pending;
        var quantity := Round6(quantities[symbol]);
        if quantity > 0.0 {
          var row := PriceRow(quantity, costs[symbol], symbol, priceMap);
          assert row == all[symbol];
          StoredOneMore(positions, symbol, row);
          unrealizedPnl := unrealizedPnl + row.unrealizedPnl;
          marketValue := marketValue + Product(row.markPrice, row.quantity);
          positions := positions[symbol := row];
        }
        OneSymbolLess(all, pending, symbol);
        pending := pending - {symbol};
      }
      assert all - {} == all;
    }

    method RebuildFromHoldingsEntries(priceMap: map<Symbol, real>) returns (summary: Summary)
      modifies store`positions, store`snapshots
      ensures store.positions == AggregatedAll(old(store.holdings), priceMap)
      ensures summary == SummaryOf(store.positions)
      ensures store.snapshots == old(store.snapshots) + [summary]
    {
      var quantities, costs := SumBySymbol(store.holdings);
      var positions, unrealizedPnl, marketValue := PricePositions(quantities, costs, priceMap, store.holdings);
      store.ReplaceAlphaPositions(positions);
      summary := Summary(0.0, 0.0, Round6(unrealizedPnl), Round6(marketValue));
      store.InsertAlphaPortfolioSnapshot(summary);
    }
  }

  lemma OneSymbolLess(all: map<Symbol, StoredPosition>, pending: set<Symbol>, symbol: Symbol)
    requires symbol in pending
    ensures all - (pending - {symbol}) == if symbol in all then (all - pending)[symbol := all[symbol]]
            else all - pending
  {
  }

  lemma SumsAppended(entries: seq<Lot>, i: nat)
    requires i < |entries|
    ensures forall s :: SumOf(entries[..i + 1], s, QuantityColumn)
                        == SumOf(entries[..i], s, QuantityColumn) + Share(entries[i], s, QuantityColumn)
    ensures forall s :: SumOf(entries[..i + 1], s, CostColumn)
                        == SumOf(entries[..i], s, CostColumn) + Share(entries[i], s, CostColumn)
  {
    assert entries[..i + 1][..i] == entries[..i];
  }

  lemma SymbolsAppended(entries: seq<Lot>, i: nat)
    requires i < |entries|
    ensures Symbols(entries[..i + 1]) == Symbols(entries[..i]) + {entries[i].symbol}
  {
    forall s | s in Symbols(entries[..i]) + {entries[i].symbol}
      ensures s in Symbols(entries[..i + 1])
    {
      if s in Symbols(entries[..i]) {
        var j :| 0 <= j < i && entries[..i][j].symbol == s;
        assert entries[..i + 1][j].symbol == s;
      } else {
        assert entries[..i + 1][i].symbol == s;
      }
    }
  }

  lemma StoredOneMore(stored: map<Symbol, StoredPosition>, symbol: Symbol, row: StoredPosition)
    requires symbol !in stored
    ensures Total(StoredGains(stored[symbol := row])) == Total(StoredGains(stored)) + row.unrealizedPnl
    ensures Total(StoredValues(stored[symbol := row]))
            == Total(StoredValues(stored)) + Product(row.markPrice, row.quantity)
  {
    var value := Product(row.markPrice, row.quantity);
    assert StoredGains(stored[symbol := row]) == StoredGains(stored)[symbol := row.unrealizedPnl];
    assert StoredValues(stored[symbol := row]) == StoredValues(stored)[symbol := value];
    TotalUpdated(StoredGains(stored), symbol, row.unrealizedPnl);
    TotalUpdated(StoredValues(stored), symbol, value);
  }

  // What the rebuilt rows say -------------------------------------------------------------------------------------

  /**
    After a rebuild from any journal: exactly the positions with shares are stored, the reported unrealized profit is
    their sum plus that of the short positions, and nav is opening cash plus realized plus unrealized profit less the
    cost forgotten.
   */
  lemma {:induction false} RebuildAddsUp(openingCash: real, journal: seq<ManualFill>, lookup: map<TicketId, Ticket>,
                                         prices: map<Symbol, real>)
    requires Resolved(journal, lookup).Ok?
    ensures var fills := Resolved(journal, lookup).value;
            var state := Replayed(Opening(openingCash), fills);
            var summary, stored := Marked(state, prices), StoredAll(state.positions, prices);
            && (forall s :: s in stored <==> s in state.positions && state.positions[s].quantity > 0.0)
            && summary.unrealizedPnl == Total(StoredGains(stored)) + HiddenGains(state.positions, prices)
            && summary.nav == openingCash + summary.realizedPnl
               + summary.unrealizedPnl - ForgottenBy(Opening(openingCash), fills)
  {
    var fills := Resolved(journal, lookup).value;
    NavDecomposes(openingCash, fills, prices);
    var state := Replayed(Opening(openingCash), fills);
    DroppedPositionsHideShorts(state.positions, prices);
    StoredGainsAreKept(state.positions, prices);
  }

  lemma StoredGainsAreKept(positions: map<Symbol, Holding>, prices: map<Symbol, real>)
    ensures StoredGains(StoredAll(positions, prices)) == Unrealizeds(Kept(positions), prices)
  {
  }

  /** What a rebuild reports is the sum over what it stores. */
  ghost predicate ReportedIsStored(state: State, prices: map<Symbol, real>) {
    Marked(state, prices).unrealizedPnl == Total(StoredGains(StoredAll(state.positions, prices)))
  }

  /** Report and stored positions agree at all prices if and only if the journal left no symbol short. */
  lemma {:induction false} ReportedIsStoredIff(state: State)
    ensures (forall prices :: ReportedIsStored(state, prices)) <==> NothingShort(state.positions)
  {
    DroppedPositionsHideNothingIff(state.positions);
    forall prices
      ensures ReportedIsStored(state, prices) == KeptAddUp(state.positions, prices)
    {
      StoredGainsAreKept(state.positions, prices);
    }
  }

  /** With non-negative quantities nothing is hidden and nothing is forgotten. */
  lemma {:induction false} ForwardRebuildAddsUp(openingCash: real, journal: seq<ManualFill>,
                                                lookup: map<TicketId, Ticket>, prices: map<Symbol, real>)
    requires Resolved(journal, lookup).Ok?
    requires forall i :: 0 <= i < |journal| ==> journal[i].executedQuantity >= 0.0
    ensures var state := Replayed(Opening(openingCash), Resolved(journal, lookup).value);
            var summary, stored := Marked(state, prices), StoredAll(state.positions, prices);
            && (forall s :: s in stored <==> s in state.positions && state.positions[s].quantity != 0.0)
            && summary.unrealizedPnl == Total(StoredGains(stored))
            && summary.nav == openingCash + summary.realizedPnl + summary.unrealizedPnl
  {
    var fills := Resolved(journal, lookup).value;
    ResolvesIffTicketsKnown(journal, lookup);
    NavDecomposes(openingCash, fills, prices);
    NothingHidden(Replayed(Opening(openingCash), fills).positions, prices);
    RebuildAddsUp(openingCash, journal, lookup, prices);
  }

  lemma OneFillResolves(id: TicketId, ticket: Ticket, quantity: real, price: real)
    ensures Resolved([ManualFill(id, quantity, price)], map[id := ticket])
            == Ok([Fill(ticket.assetSymbol, ticket.action, quantity, price)])
  {
    var journal := [ManualFill(id, quantity, price)];
    assert journal[..0] == [];
    assert Resolved([], map[id := ticket]) == Ok([]);
    assert [] + [Fill(ticket.assetSymbol, ticket.action, quantity, price)]
           == [Fill(ticket.assetSymbol, ticket.action, quantity, price)];
  }

  lemma OneShortIsMarked(cash: real, symbol: Symbol)
    ensures var state, prices := State(cash, 0.0, map[symbol := Holding(-10.0, 5.0)]), map[symbol := 7.0];
            Marked(state, prices).unrealizedPnl == -20.0 && StoredAll(state.positions, prices) == map[]
  {
    var positions, prices := map[symbol := Holding(-10.0, 5.0)], map[symbol := 7.0];
    var gains := Unrealizeds(positions, prices);
    assert gains[symbol] == Product(2.0, -10.0) == -20.0;
    TotalOfOne(gains, symbol);
    assert StoredAll(positions, prices).Keys == {};
  }

  /** One BUY of minus ten at 5, marked at 7, reports a loss of 20 and stores no position. */
  lemma ShortIsReportedNotStored(openingCash: real, id: TicketId, symbol: Symbol)
    ensures var fills := [Fill(symbol, Buy, -10.0, 5.0)];
            var state, prices := Replayed(Opening(openingCash), fills), map[symbol := 7.0];
            && Resolved([ManualFill(id, -10.0, 5.0)], map[id := Ticket(symbol, Buy)]) == Ok(fills)
            && Marked(state, prices).unrealizedPnl == -20.0
            && StoredAll(state.positions, prices) == map[]
  {
    var fill := Fill(symbol, Buy, -10.0, 5.0);
    OneFillResolves(id, Ticket(symbol, Buy), -10.0, 5.0);
    assert [fill][..0] == [] && Replayed(Opening(openingCash), []) == Opening(openingCash);
    NegativeBuyOpensAShort(openingCash, symbol);
    OneShortIsMarked(openingCash + 50.0, symbol);
  }

  // Holdings against the ledger -----------------------------------------------------------------------------------

  /** The lots as BUY fills, the way the portfolio page shows them. */
  function BuysOf(lots: seq<Lot>): (fills: seq<Fill>)
    ensures |fills| == |lots|
  {
    if lots == [] then []
    else
      var last := lots[|lots| - 1];
      BuysOf(lots[..|lots| - 1]) + [Fill(last.symbol, Buy, last.quantity, last.buyPrice)]
  }

  ghost predicate NonNegativeLots(lots: seq<Lot>) {
    forall i :: 0 <= i < |lots| ==> lots[i].quantity >= 0.0
  }

  lemma OneMoreBuy(h: Holding, quantity: real, price: real)
    requires h.quantity >= 0.0 && quantity >= 0.0
    ensures Book(Bought(h, quantity, price)) == Book(h) + Product(quantity, price)
  {
    BuyMovesBook(h, quantity, price);
    if h.quantity + quantity == 0.0 {
      assert h.quantity == 0.0 && quantity == 0.0;
    }
  }

  /** Folding lots into the ledger adds up quantity and cost exactly. */
  lemma {:induction false} LedgerAddsUp(cash: real, lots: seq<Lot>, symbol: Symbol)
    requires NonNegativeLots(lots)
    ensures var h := HeldIn(Replayed(Opening(cash), BuysOf(lots)).positions, symbol);
            h.quantity == SumOf(lots, symbol, QuantityColumn) >= 0.0 && Book(h) == SumOf(lots, symbol, CostColumn)
  {
    if lots != [] {
      var earlier, last := lots[..|lots| - 1], lots[|lots| - 1];
      var before := Replayed(Opening(cash), BuysOf(earlier));
      LedgerAddsUp(cash, earlier, symbol);
      var fill := Fill(last.symbol, Buy, last.quantity, last.buyPrice);
      assert BuysOf(lots)[..|lots| - 1] == BuysOf(earlier) && BuysOf(lots)[|lots| - 1] == fill;
      assert Replayed(Opening(cash), BuysOf(lots)) == Applied(before, fill);
      if last.symbol == symbol {
        OneMoreBuy(HeldIn(before.positions, symbol), last.quantity, last.buyPrice);
      }
    } else {
      assert Book(Holding(0.0, 0.0)) == 0.0;
    }
  }

  // The order of the lots does not matter.

  lemma {:induction false} SumWithout(lots: seq<Lot>, k: nat, symbol: Symbol, column: Column)
    requires k < |lots|
    ensures SumOf(lots, symbol, column)
            == SumOf(lots[..k] + lots[k + 1..], symbol, column) + Share(lots[k], symbol, column)
    decreases |lots|
  {
    var n := |lots| - 1;
    var without := lots[..k] + lots[k + 1..];
    if k == n {
      assert without == lots[..n];
    } else {
      var earlier := lots[..n];
      SumWithout(earlier, k, symbol, column);
      assert without[..n - 1] == earlier[..k] + earlier[k + 1..];
      assert without[n - 1] == lots[n];
    }
  }

  lemma {:induction false} SumIgnoresOrder(order: seq<Lot>, lots: seq<Lot>, symbol: Symbol, column: Column)
    requires multiset(order) == multiset(lots)
    ensures SumOf(order, symbol, column) == SumOf(lots, symbol, column)
    decreases |order|
  {
    if order == [] {
      assert |multiset(lots)| == 0;
    } else {
      var n := |order| - 1;
      var last := order[n];
      assert last in multiset(order);
      assert last in lots;
      var k :| 0 <= k < |lots| && lots[k] == last;
      assert order == order[..n] + [last];
      assert lots == lots[..k] + [last] + lots[k + 1..];
      assert multiset(order[..n]) == multiset(order) - multiset{last};
      assert multiset(lots[..k] + lots[k + 1..]) == multiset(lots) - multiset{last};
      SumWithout(lots, k, symbol, column);
      SumIgnoresOrder(order[..n], lots[..k] + lots[k + 1..], symbol, column);
    }
  }

  lemma NonNegativeInAnyOrder(order: seq<Lot>, lots: seq<Lot>)
    requires multiset(order) == multiset(lots) && NonNegativeLots(lots)
    ensures NonNegativeLots(order)
  {
    forall i | 0 <= i < |order|
      ensures order[i].quantity >= 0.0
    {
      assert order[i] in multiset(order);
      assert order[i] in lots;
    }
  }

  // Six decimals.

  predicate SixDecimals(x: real) {
    (x * 1000000.0).Floor as real == x * 1000000.0
  }

  lemma RoundingKeepsSixDecimals(x: real)
    requires SixDecimals(x)
    ensures Round6(x) == x
  {
    NearestOfInteger((x * 1000000.0).Floor);
  }

  lemma SixDecimalsAddUp(a: real, b: real)
    requires SixDecimals(a) && SixDecimals(b)
    ensures SixDecimals(a + b)
  {
    var m, n := (a * 1000000.0).Floor, (b * 1000000.0).Floor;
    assert (a + b) * 1000000.0 == (m + n) as real;
  }

  ghost predicate SixDecimalLots(lots: seq<Lot>) {
    forall i :: 0 <= i < |lots| ==> SixDecimals(lots[i].quantity)
  }

  lemma {:induction false} SumsHaveSixDecimals(lots: seq<Lot>, symbol: Symbol)
    requires SixDecimalLots(lots)
    ensures SixDecimals(SumOf(lots, symbol, QuantityColumn))
  {
    if lots == [] {
      assert (0.0 * 1000000.0).Floor == 0;
    } else {
      SumsHaveSixDecimals(lots[..|lots| - 1], symbol);
      var last := lots[|lots| - 1];
      if last.symbol == symbol {
        SixDecimalsAddUp(SumOf(lots[..|lots| - 1], symbol, QuantityColumn), last.quantity);
      }
    }
  }

  lemma AverageOfBook(h: Holding)
    requires h.quantity > 0.0
    ensures Book(h) / h.quantity == h.avgCost
  {
  }

  function Magnitude(x: real): real {
    if x >= 0.0 then x else -x
  }

  /** Dividing a cost by a quantity that is off by at most half a millionth. */
  lemma AverageOfRounded(h: Holding, quantity: real)
    requires h.quantity >= 0.0 && quantity > 0.0 && -0.0000005 <= quantity - h.quantity <= 0.0000005
    ensures Magnitude(Book(h) / quantity - h.avgCost) <= Magnitude(h.avgCost) * 0.0000005 / quantity
  {
    var off := (h.quantity - quantity) * h.avgCost;
    assert h.quantity * h.avgCost == quantity * h.avgCost + off;
    QuotientOff(Book(h), quantity, h.avgCost, off);
    ProductIsBounded(h.quantity - quantity, h.avgCost, 0.0000005);
    QuotientIsBounded(off, Magnitude(h.avgCost) * 0.0000005, quantity);
  }

  /** Half a millionth more for rounding the average itself. */
  lemma RowAverages(h: Holding, quantity: real, symbol: Symbol, prices: map<Symbol, real>)
    requires h.quantity >= 0.0 && quantity > 0.0 && -0.0000005 <= quantity - h.quantity <= 0.0000005
    ensures Magnitude(Aggregated(quantity, Book(h), symbol, prices).avgCost - h.avgCost)
              <= 0.0000005 + Magnitude(h.avgCost) * 0.0000005 / quantity
  {
    AverageOfRounded(h, quantity);
  }

  lemma QuotientOff(cost: real, quantity: real, avg: real, off: real)
    requires quantity > 0.0 && cost == quantity * avg + off
    ensures cost / quantity - avg == off / quantity
  {
  }

  lemma SignsMultiply(a: real, b: real)
    requires a >= 0.0 && b >= 0.0
    ensures a * b >= 0.0
  {
  }

  lemma ProductIsBounded(x: real, y: real, bound: real)
    requires -bound <= x <= bound
    ensures -(Magnitude(y) * bound) <= x * y <= Magnitude(y) * bound
  {
    SignsMultiply(bound - x, Magnitude(y));
    SignsMultiply(bound + x, Magnitude(y));
  }

  lemma QuotientIsBounded(x: real, bound: real, quantity: real)
    requires quantity > 0.0 && -bound <= x <= bound
    ensures Magnitude(x / quantity) <= bound / quantity
  {
  }

  /**
    Adding holdings up per symbol refines folding the lots into the ledger as BUYs in any order: quantities agree to
    half a millionth, averages to half a millionth more than the average times half a millionth over the quantity;
    where no lot has more than six decimals quantities agree exactly and averages to half a millionth.
   */
  lemma HoldingsRefineLedger(cash: real, lots: seq<Lot>, order: seq<Lot>, prices: map<Symbol, real>, symbol: Symbol)
    requires NonNegativeLots(lots) && multiset(order) == multiset(lots)
    ensures var h := HeldIn(Replayed(Opening(cash), BuysOf(order)).positions, symbol);
            var rows := AggregatedAll(lots, prices);
            && -0.0000005 <= QuantityOf(lots, symbol) - h.quantity <= 0.0000005
            && (symbol in rows <==> QuantityOf(lots, symbol) > 0.0)
            && (symbol in rows ==>
                  && rows[symbol].quantity == QuantityOf(lots, symbol)
                  && Magnitude(rows[symbol].avgCost - h.avgCost)
                     <= 0.0000005 + Magnitude(h.avgCost) * 0.0000005 / QuantityOf(lots, symbol))
            && (SixDecimalLots(lots) ==>
                  && QuantityOf(lots, symbol) == h.quantity
                  && (symbol in rows ==> -0.0000005 <= rows[symbol].avgCost - h.avgCost <= 0.0000005))
  {
    var h := HeldIn(Replayed(Opening(cash), BuysOf(order)).positions, symbol);
    NonNegativeInAnyOrder(order, lots);
    LedgerAddsUp(cash, order, symbol);
    SumIgnoresOrder(order, lots, symbol, QuantityColumn);
    SumIgnoresOrder(order, lots, symbol, CostColumn);
    if symbol !in Symbols(lots) {
      NoLotsNoShares(lots, symbol);
    }
    if symbol in AggregatedAll(lots, prices) {
      RowAverages(h, QuantityOf(lots, symbol), symbol, prices);
    }
    if SixDecimalLots(lots) {
      SumsHaveSixDecimals(lots, symbol);
      RoundingKeepsSixDecimals(h.quantity);
      if h.quantity > 0.0 {
        AverageOfBook(h);
      }
    }
  }

  lemma {:induction false} NoLotsNoShares(lots: seq<Lot>, symbol: Symbol)
    requires symbol !in Symbols(lots)
    ensures SumOf(lots, symbol, QuantityColumn) == 0.0
    ensures QuantityOf(lots, symbol) == 0.0
  {
    RoundingKeepsSixDecimals(0.0);
    if lots != [] {
      var earlier := lots[..|lots| - 1];
      assert lots[|lots| - 1].symbol in Symbols(lots);
      forall s | s in Symbols(earlier)
        ensures s in Symbols(lots)
      {
        var i :| 0 <= i < |earlier| && earlier[i].symbol == s;
        assert lots[i].symbol == s;
      }
      NoLotsNoShares(earlier, symbol);
    }
  }
}
