/**
  Turns decisions into sized targets: an equal slice of the capital per decision for a BUY, the whole position for a
  SELL.
 */
module TargetPlanner {
  import opened MarketRules
  import opened Numbers
  import opened Results
  import opened Rounding

  datatype Decision = Decision(symbol: string, side: Side)

  datatype Target = Target(
    symbol: string, side: Side, targetValue: int, targetRatio: real, rawQuantity: real, roundingLoss: real,
    quantity: int, notional: int, price: real, lotSize: int)

  datatype PlanError = EmptyWatchlist | UnknownPrice(symbol: string)

  datatype Sizing = Sizing(capitalBase: real, maxPositionRatio: real, lotSizes: string -> int)

  function BuildTargetPosition(decision: Decision, sizing: Sizing, watchlistSize: int, price: real,
                               currentQuantity: int)
    : (r: Result<Target, PlanError>)
    ensures r.Ok? <==> watchlistSize > 0
    ensures r.Ok? ==> r.value.symbol == decision.symbol && r.value.side == decision.side && r.value.price == price
    ensures r.Ok? ==> r.value.quantity >= 0 && (r.value.side.Buy? && r.value.quantity > 0 ==> r.value.lotSize > 0)
  {
    var lotSize := sizing.lotSizes(decision.symbol);
    if watchlistSize <= 0 then Raised(EmptyWatchlist)
    else
      match decision.side
      case Buy =>
        var ratio := sizing.maxPositionRatio / watchlistSize as real;
        var targetValue := Truncate(sizing.capitalBase * ratio);
        var raw := if price > 0.0 then Round4(targetValue as real / price) else 0.0;
        var quantity := CalculateLotQuantity(targetValue as real, price, lotSize);
        var loss := Round4(if raw - quantity as real >= 0.0 then raw - quantity as real else 0.0);
        Ok(Target(decision.symbol, Buy, targetValue, ratio, raw, loss, quantity, Truncate(Times(quantity, price)),
                  price, lotSize))
      case Sell =>
        var quantity := AtLeastZero(currentQuantity);
        Ok(Target(decision.symbol, Sell, 0, 0.0, quantity as real, 0.0, quantity, Truncate(Times(quantity, price)),
                  price, lotSize))
      case OtherSide(_) =>
        Ok(Target(decision.symbol, decision.side, 0, 0.0, 0.0, 0.0, 0, 0, price, lotSize))
  }

  function Active(decisions: seq<Decision>): seq<Decision> {
    if decisions == [] then []
    else
      var last := decisions[|decisions| - 1];
      Active(decisions[..|decisions| - 1]) + if last.side.OtherSide? then [] else [last]
  }

  function WatchlistSize(decisions: seq<Decision>): int {
    if |decisions| > 1 then |decisions| else 1
  }

  function CurrentQuantity(quantities: map<string, int>, symbol: string): int {
    if symbol in quantities then quantities[symbol] else 0
  }

  function TargetFor(decision: Decision, sizing: Sizing, watchlistSize: int, prices: map<string, real>,
                     quantities: map<string, int>)
    : Result<Target, PlanError>
  {
    if decision.symbol !in prices then Raised(UnknownPrice(decision.symbol))
    else BuildTargetPosition(decision, sizing, watchlistSize, prices[decision.symbol],
                             CurrentQuantity(quantities, decision.symbol))
  }

  /** One target per active decision, in order; a missing price fails the whole plan. */
  method BuildTargetPositions(decisions: seq<Decision>, prices: map<string, real>, sizing: Sizing,
                              quantities: map<string, int>)
    returns (r: Result<seq<Target>, PlanError>)
    ensures r.Ok? <==> forall d :: d in Active(decisions) ==> d.symbol in prices
    ensures r.Ok? ==> IsPlan(r.value, decisions, prices, sizing, quantities)
  {
    var active := Active(decisions);
    var watchlistSize := WatchlistSize(decisions);
    var targets := [];
    for i := 0 to |active|
      invariant |targets| == i
      invariant forall j :: 0 <= j < i ==>
                Ok(targets[j]) == TargetFor(active[j], sizing, watchlistSize, prices, quantities)
      invariant forall j :: 0 <= j < i ==> active[j].symbol in prices
    {
      if active[i].symbol !in prices {
        return Raised(UnknownPrice(active[i].symbol));
      }
      var target := BuildTargetPosition(active[i], sizing, watchlistSize, prices[active[i].symbol],
                                        CurrentQuantity(quantities, active[i].symbol));
      targets := targets + [target.value];
    }
    r := Ok(targets);
  }

  ghost predicate IsPlan(targets: seq<Target>, decisions: seq<Decision>, prices: map<string, real>, sizing: Sizing,
                         quantities: map<string, int>)
  {
    var active := Active(decisions);
    && |targets| == |active|
    && forall i :: 0 <= i < |targets| ==>
      Ok(targets[i]) == TargetFor(active[i], sizing, WatchlistSize(decisions), prices, quantities)
  }

  // Distinct symbols ----------------------------------------------------------------------------------------------

  ghost predicate DistinctDecisions(decisions: seq<Decision>) {
    forall i, j :: 0 <= i < j < |decisions| ==> decisions[i].symbol != decisions[j].symbol
  }

  ghost predicate DistinctTargets(targets: seq<Target>) {
    forall i, j :: 0 <= i < j < |targets| ==> targets[i].symbol != targets[j].symbol
  }

  lemma {:induction false} ActiveKeepsDistinct(decisions: seq<Decision>)
    requires DistinctDecisions(decisions)
    ensures DistinctDecisions(Active(decisions))
    ensures |Active(decisions)| <= |decisions|
    ensures forall d :: d in Active(decisions) ==> d in decisions && !d.side.OtherSide?
  {
    if decisions != [] {
      ActiveKeepsDistinct(decisions[..|decisions| - 1]);
    }
  }

  lemma {:induction false} ActiveIff(decisions: seq<Decision>, d: Decision)
    ensures d in Active(decisions) <==> d in decisions && (d.side == Buy || d.side == Sell)
  {
    if decisions != [] {
      ActiveIff(decisions[..|decisions| - 1], d);
    }
  }

  /** A plan over distinct symbols targets each symbol once, and a SELL is for exactly what is held. */
  lemma PlanSellsWholePositions(targets: seq<Target>, decisions: seq<Decision>, prices: map<string, real>,
                                sizing: Sizing, quantities: map<string, int>)
    requires IsPlan(targets, decisions, prices, sizing, quantities) && DistinctDecisions(decisions)
    ensures DistinctTargets(targets)
    ensures forall t :: t in targets ==>
      && !t.side.OtherSide? && t.symbol in prices && t.price == prices[t.symbol] && t.quantity >= 0
      && (t.side.Sell? ==> t.quantity == AtLeastZero(CurrentQuantity(quantities, t.symbol)))
  {
    ActiveKeepsDistinct(decisions);
    assert forall i :: 0 <= i < |targets| ==> targets[i].symbol == Active(decisions)[i].symbol;
    forall t | t in targets
      ensures && !t.side.OtherSide? && t.symbol in prices && t.price == prices[t.symbol] && t.quantity >= 0
              && (t.side.Sell? ==> t.quantity == AtLeastZero(CurrentQuantity(quantities, t.symbol)))
    {
      var i :| 0 <= i < |targets| && targets[i] == t;
      assert Active(decisions)[i] in Active(decisions);
    }
  }

  lemma PairIsPlan(a: Target, b: Target, d: Decision, e: Decision, prices: map<string, real>, sizing: Sizing,
                   quantities: map<string, int>)
    requires !d.side.OtherSide? && !e.side.OtherSide?
    requires Ok(a) == TargetFor(d, sizing, 2, prices, quantities)
             && Ok(b) == TargetFor(e, sizing, 2, prices, quantities)
    ensures IsPlan([a, b], [d, e], prices, sizing, quantities)
  {
    assert [d, e][..1] == [d] && [d][..0] == [];
    assert Active([d]) == Active([]) + [d] == [d];
    assert Active([d, e]) == Active([d]) + [e] == [d, e];
  }

  lemma PlannedTarget(targets: seq<Target>, i: nat, decisions: seq<Decision>, prices: map<string, real>, sizing: Sizing,
                      quantities: map<string, int>)
    requires IsPlan(targets, decisions, prices, sizing, quantities) && i < |targets|
    ensures targets[i].symbol in prices && targets[i].price == prices[targets[i].symbol]
    ensures !targets[i].side.OtherSide? ==>
            targets[i].notional == Truncate(Times(targets[i].quantity, targets[i].price))
  {
    var d := Active(decisions)[i];
    assert Ok(targets[i]) == BuildTargetPosition(d, sizing, WatchlistSize(decisions), prices[d.symbol],
                                                 CurrentQuantity(quantities, d.symbol));
  }

  /** Every active decision has its target. */
  lemma TargetOfDecision(targets: seq<Target>, decisions: seq<Decision>, d: Decision, prices: map<string, real>,
                         sizing: Sizing, quantities: map<string, int>) returns (i: nat)
    requires IsPlan(targets, decisions, prices, sizing, quantities) && d in Active(decisions)
    ensures i < |targets| && d.symbol in prices
    ensures Ok(targets[i]) == BuildTargetPosition(d, sizing, WatchlistSize(decisions), prices[d.symbol],
                                                  CurrentQuantity(quantities, d.symbol))
  {
    i :| 0 <= i < |Active(decisions)| && Active(decisions)[i] == d;
    assert Ok(targets[i]) == TargetFor(d, sizing, WatchlistSize(decisions), prices, quantities);
  }

  /** And every target has its active decision. */
  lemma DecisionOfTarget(targets: seq<Target>, i: nat, decisions: seq<Decision>, prices: map<string, real>,
                         sizing: Sizing, quantities: map<string, int>)
    requires IsPlan(targets, decisions, prices, sizing, quantities) && i < |targets|
    ensures Decision(targets[i].symbol, targets[i].side) in decisions && !targets[i].side.OtherSide?
  {
    var d := Active(decisions)[i];
    assert d in Active(decisions);
    ActiveIff(decisions, d);
    assert Ok(targets[i]) == TargetFor(d, sizing, WatchlistSize(decisions), prices, quantities);
  }

  // Capital -------------------------------------------------------------------------------------------------------

  function Spend(target: Target): real {
    if target.side.Buy? then Times(target.quantity, target.price) else 0.0
  }

  function TotalSpend(targets: seq<Target>): real {
    if targets == [] then 0.0 else TotalSpend(targets[..|targets| - 1]) + Spend(targets[|targets| - 1])
  }

  /** The share of the capital each decision may use. */
  function Slice(sizing: Sizing, watchlistSize: int): real
    requires watchlistSize > 0
  {
    sizing.capitalBase * (sizing.maxPositionRatio / watchlistSize as real)
  }

  /** capital_base x max_position_ratio, or nothing when that is negative. */
  function Allowance(sizing: Sizing): real {
    AmountAtLeastZero(sizing.capitalBase * sizing.maxPositionRatio)
  }

  /** A BUY target is the largest lot multiple its slice of the capital affords, and costs no more than the slice. */
  lemma BuyFitsItsSlice(decision: Decision, sizing: Sizing, watchlistSize: int, price: real, currentQuantity: int)
    requires watchlistSize > 0 && decision.side.Buy?
    ensures var t := BuildTargetPosition(decision, sizing, watchlistSize, price, currentQuantity).value;
            var slice := Slice(sizing, watchlistSize);
            && 0.0 <= Spend(t) <= AmountAtLeastZero(slice)
            && (t.quantity > 0 ==> t.quantity % t.lotSize == 0)
            && (slice >= 0.0 && price > 0.0 && t.lotSize > 0 && t.targetValue > 0 ==>
                  && Times(t.quantity, price) <= t.targetValue as real < Times(t.quantity + t.lotSize, price)
                  && slice - 1.0 < t.targetValue as real <= slice)
  {
    var t := BuildTargetPosition(decision, sizing, watchlistSize, price, currentQuantity).value;
    if t.targetValue > 0 && price > 0.0 && t.lotSize > 0 {
      LotQuantityIsLargestAffordable(t.targetValue as real, price, t.lotSize);
      MoreSharesCostMore(0, t.quantity, price);
    }
  }

  /**
    The ratios of as many BUYs as the watchlist is long add up to the maximum, and the target value is the slice
    without its fraction.
   */
  lemma BuyTakesItsShare(decision: Decision, sizing: Sizing, watchlistSize: int, price: real, currentQuantity: int)
    requires watchlistSize > 0 && decision.side.Buy?
    ensures var t := BuildTargetPosition(decision, sizing, watchlistSize, price, currentQuantity).value;
            && Times(watchlistSize, t.targetRatio) == sizing.maxPositionRatio
            && (Slice(sizing, watchlistSize) >= 0.0 ==>
                t.targetValue as real <= Slice(sizing, watchlistSize) < t.targetValue as real + 1.0)
            && (Slice(sizing, watchlistSize) < 1.0 || price <= 0.0 || t.lotSize <= 0 ==> t.quantity == 0)
  {
    var ratio := sizing.maxPositionRatio / watchlistSize as real;
    assert ratio * watchlistSize as real == sizing.maxPositionRatio;
  }

  /**
    What is not a BUY asks for no value: a SELL is for all shares held, never fewer than none, and anything else is
    for nothing.
   */
  lemma OthersAskForNoValue(decision: Decision, sizing: Sizing, watchlistSize: int, price: real, currentQuantity: int)
    requires watchlistSize > 0 && !decision.side.Buy? && price >= 0.0
    ensures var t := BuildTargetPosition(decision, sizing, watchlistSize, price, currentQuantity).value;
            && t.targetValue == 0 && t.targetRatio == 0.0 && t.roundingLoss == 0.0
               && t.rawQuantity == t.quantity as real
            && t.quantity == (if decision.side.Sell? && currentQuantity > 0 then currentQuantity else 0)
            && t.notional as real <= Times(t.quantity, price) < t.notional as real + 1.0
  {
    var t := BuildTargetPosition(decision, sizing, watchlistSize, price, currentQuantity).value;
    MoreSharesCostMore(0, t.quantity, price);
    assert Times(0, price) == 0.0;
  }

  /**
    What a BUY target reports: its notional is its cost without the fraction, and its rounding loss is the fractional
    shares its value would afford beyond the lots, less than one lot, to a ten-thousandth.
   */
  lemma BuyReportsItsRounding(decision: Decision, sizing: Sizing, watchlistSize: int, price: real, currentQuantity: int)
    requires watchlistSize > 0 && decision.side.Buy? && price > 0.0 && sizing.lotSizes(decision.symbol) > 0
    ensures var t := BuildTargetPosition(decision, sizing, watchlistSize, price, currentQuantity).value;
            && t.notional as real <= Times(t.quantity, price) < t.notional as real + 1.0
            && -0.00005 <= t.rawQuantity - t.targetValue as real / price <= 0.00005
            && (t.targetValue > 0 ==>
                  var over := t.targetValue as real / price - t.quantity as real;
                  0.0 <= over < t.lotSize as real && -0.0001 <= t.roundingLoss - over <= 0.0001)
  {
    var t := BuildTargetPosition(decision, sizing, watchlistSize, price, currentQuantity).value;
    MoreSharesCostMore(0, t.quantity, price);
    if t.targetValue > 0 {
      LotQuantityIsLargestAffordable(t.targetValue as real, price, t.lotSize);
      QuotientBetween(t.targetValue as real, price, t.quantity, t.lotSize);
    }
  }

  /** Whole lots, as many as the slice of the capital without its fraction affords. */
  predicate FillsSlice(quantity: int, price: real, slice: real, lot: int) {
    if slice >= 1.0 && price > 0.0 && lot > 0 then
      && quantity >= 0 && quantity % lot == 0
      && Times(quantity, price) <= slice.Floor as real < Times(quantity + lot, price)
    else quantity == 0
  }

  lemma BuyFillsSlice(decision: Decision, sizing: Sizing, watchlistSize: int, price: real, currentQuantity: int)
    requires watchlistSize > 0 && decision.side.Buy?
    ensures FillsSlice(BuildTargetPosition(decision, sizing, watchlistSize, price,
                                           currentQuantity).value.quantity, price,
                       Slice(sizing, watchlistSize), sizing.lotSizes(decision.symbol))
  {
    var t := BuildTargetPosition(decision, sizing, watchlistSize, price, currentQuantity).value;
    BuyFitsItsSlice(decision, sizing, watchlistSize, price, currentQuantity);
    BuyTakesItsShare(decision, sizing, watchlistSize, price, currentQuantity);
    if Slice(sizing, watchlistSize) >= 1.0 && price > 0.0 && t.lotSize > 0 {
      assert t.targetValue == Slice(sizing, watchlistSize).Floor;
      LotQuantityIsLargestAffordable(t.targetValue as real, price, t.lotSize);
    }
  }

  /** Without a price above zero a BUY asks for nothing and reports nothing. */
  lemma UnpricedBuyReportsNothing(decision: Decision, sizing: Sizing, watchlistSize: int, price: real,
                                  currentQuantity: int)
    requires watchlistSize > 0 && decision.side.Buy? && price <= 0.0
    ensures var t := BuildTargetPosition(decision, sizing, watchlistSize, price, currentQuantity).value;
            t.quantity == 0 && t.rawQuantity == 0.0 && t.roundingLoss == 0.0 && t.notional == 0
  {
    NearestOfInteger(0);
    assert Times(0, price) == 0.0;
  }

  lemma QuotientBetween(value: real, price: real, quantity: int, lot: int)
    requires price > 0.0 && Times(quantity, price) <= value < Times(quantity + lot, price)
    ensures quantity as real <= value / price < (quantity + lot) as real
  {
    QuotientOrder(value, price, quantity);
    QuotientOrder(value, price, quantity + lot);
  }

  lemma QuotientOrder(value: real, price: real, quantity: int)
    requires price > 0.0
    ensures quantity as real <= value / price <==> Times(quantity, price) <= value
  {
    var q := value / price;
    assert q * price == value;
    if q < quantity as real {
      BelowTimesPrice(q, quantity, price);
    } else {
      assert (q - quantity as real) * price >= 0.0;
    }
  }

  lemma SpendFitsItsSlice(decision: Decision, sizing: Sizing, size: int, prices: map<string, real>,
                          quantities: map<string, int>, t: Target)
    requires size > 0 && Ok(t) == TargetFor(decision, sizing, size, prices, quantities)
    ensures Spend(t) <= AmountAtLeastZero(Slice(sizing, size))
  {
    if decision.side.Buy? {
      BuyFitsItsSlice(decision, sizing, size, prices[decision.symbol], CurrentQuantity(quantities, decision.symbol));
    }
  }

  lemma {:induction false} SlicesAddUp(targets: seq<Target>, slice: real)
    requires slice >= 0.0
    requires forall t :: t in targets ==> Spend(t) <= slice
    ensures TotalSpend(targets) <= Times(|targets|, slice)
  {
    if targets != [] {
      SlicesAddUp(targets[..|targets| - 1], slice);
      SharesAddUp(|targets|, 1, slice);
    }
  }

  lemma {:induction false} ActiveIsNoLonger(decisions: seq<Decision>)
    ensures |Active(decisions)| <= |decisions|
  {
    if decisions != [] {
      ActiveIsNoLonger(decisions[..|decisions| - 1]);
    }
  }

  lemma SliceTimesSize(sizing: Sizing, size: int, n: int)
    requires size > 0 && 0 <= n <= size
    ensures Times(n, AmountAtLeastZero(Slice(sizing, size))) <= Allowance(sizing)
  {
    var slice := Slice(sizing, size);
    assert sizing.maxPositionRatio / size as real * size as real == sizing.maxPositionRatio;
    assert size as real * slice == sizing.capitalBase * sizing.maxPositionRatio;
    if slice >= 0.0 {
      ProductsKeepOrderWeakly(n as real, size as real, slice);
    }
  }

  lemma ProductsKeepOrderWeakly(a: real, b: real, x: real)
    requires a <= b && x >= 0.0
    ensures a * x <= b * x
  {
  }

  lemma PlanSpendsSlices(targets: seq<Target>, decisions: seq<Decision>, prices: map<string, real>, sizing: Sizing,
                         quantities: map<string, int>)
    requires IsPlan(targets, decisions, prices, sizing, quantities)
    ensures |targets| <= WatchlistSize(decisions)
    ensures forall t :: t in targets ==> Spend(t) <= AmountAtLeastZero(Slice(sizing, WatchlistSize(decisions)))
  {
    ActiveIsNoLonger(decisions);
    forall t | t in targets
      ensures Spend(t) <= AmountAtLeastZero(Slice(sizing, WatchlistSize(decisions)))
    {
      var i :| 0 <= i < |targets| && targets[i] == t;
      SpendFitsItsSlice(Active(decisions)[i], sizing, WatchlistSize(decisions), prices, quantities, t);
    }
  }

  /** However many BUYs there are, together they cost at most the allowance. */
  lemma {:induction false} PlanStaysWithinCapital(targets: seq<Target>, decisions: seq<Decision>,
                                                  prices: map<string, real>, sizing: Sizing,
                                                  quantities: map<string, int>)
    requires IsPlan(targets, decisions, prices, sizing, quantities)
    ensures TotalSpend(targets) <= Allowance(sizing)
  {
    PlanSpendsSlices(targets, decisions, prices, sizing, quantities);
    SlicesAddUp(targets, AmountAtLeastZero(Slice(sizing, WatchlistSize(decisions))));
    SliceTimesSize(sizing, WatchlistSize(decisions), |targets|);
  }
}
