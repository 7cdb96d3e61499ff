/** The pre-trade risk gate: a chain of guards, the first that fires names the rule. */
module PreTradeRisk {
  import opened MarketRules
  import opened Results
  import opened Rounding

  datatype Rule = KillSwitch | UnknownAction | LotSize | RequestValue | Cash | MaxPositionRatio | TPlusOne

  datatype Verdict = Approved | Blocked(rule: Rule)

  datatype Request = Request(
    side: Side, killSwitch: bool, availableCash: real, requestedValue: real, currentPositionValue: real, nav: real,
    maxPositionRatio: real, quantity: int, lotSize: int, market: Market, buyDate: Option<int>, tradeDate: int)

  predicate Askable(q: Request) {
    q.side.Buy? && q.quantity > 0 ==> q.lotSize != 0
  }

  function EvaluateRiskGate(q: Request): (verdict: Verdict)
    requires Askable(q)
    ensures verdict.Approved? ==> !q.killSwitch && !q.side.OtherSide? && q.quantity > 0
  {
    if q.killSwitch then Blocked(KillSwitch)
    else if q.side.OtherSide? then Blocked(UnknownAction)
    else if !IsValidLotQuantity(q.side, q.quantity, q.lotSize) then Blocked(LotSize)
    else if q.side.Buy? && q.requestedValue <= 0.0 then Blocked(RequestValue)
    else if q.side.Buy? && q.requestedValue > q.availableCash then Blocked(Cash)
    else if q.side.Buy? && q.nav > 0.0 && (q.currentPositionValue + q.requestedValue) / q.nav > q.maxPositionRatio then
      Blocked(MaxPositionRatio)
    else if q.side.Sell? && !IsSellAllowed(q.market, q.buyDate, q.tradeDate) then Blocked(TPlusOne)
    else Approved
  }

  /** What each rule objects to; the ratio rule without a division. */
  predicate Violates(q: Request, rule: Rule)
    requires Askable(q)
  {
    match rule
    case KillSwitch => q.killSwitch
    case UnknownAction => q.side.OtherSide?
    case LotSize => !IsValidLotQuantity(q.side, q.quantity, q.lotSize)
    case RequestValue => q.side.Buy? && q.requestedValue <= 0.0
    case Cash => q.side.Buy? && q.requestedValue > q.availableCash
    case MaxPositionRatio => q.side.Buy? && q.nav > 0.0
      && q.currentPositionValue + q.requestedValue > q.maxPositionRatio * q.nav
    case TPlusOne => q.side.Sell? && q.market.ChinaA? && q.buyDate.Some? && q.tradeDate <= q.buyDate.value
  }

  function Rank(rule: Rule): nat {
    match rule
    case KillSwitch => 0
    case UnknownAction => 1
    case LotSize => 2
    case RequestValue => 3
    case Cash => 4
    case MaxPositionRatio => 5
    case TPlusOne => 6
  }

  /** The gate approves exactly what no rule objects to, and otherwise names the first rule that does. */
  lemma VerdictNamesFirstViolation(q: Request)
    requires Askable(q)
    ensures EvaluateRiskGate(q).Approved? <==> forall rule :: !Violates(q, rule)
    ensures forall rule :: EvaluateRiskGate(q) == Blocked(rule) <==>
              Violates(q, rule) && forall earlier :: Rank(earlier) < Rank(rule) ==> !Violates(q, earlier)
  {
    if q.nav > 0.0 {
      RatioWithoutDivision(q.currentPositionValue + q.requestedValue, q.nav, q.maxPositionRatio);
    }
    FirstViolationBlocks(q);
    match EvaluateRiskGate(q) {
      case Approved =>
        forall rule
          ensures !Violates(q, rule)
        {
          var rank := Rank(rule);
        }
      case Blocked(rule) =>
        assert Violates(q, rule);
    }
  }

  lemma FirstViolationBlocks(q: Request)
    requires Askable(q)
    ensures var verdict := EvaluateRiskGate(q);
            verdict.Blocked? ==> Violates(q, verdict.rule) && forall earlier :: Rank(earlier) < Rank(verdict.rule) ==>
              !Violates(q, earlier)
  {
    if q.nav > 0.0 {
      RatioWithoutDivision(q.currentPositionValue + q.requestedValue, q.nav, q.maxPositionRatio);
    }
  }

  lemma RatioWithoutDivision(value: real, nav: real, ratio: real)
    requires nav > 0.0
    ensures value / nav > ratio <==> value > ratio * nav
  {
    var r := value / nav;
    assert r * nav == value;
    if r > ratio {
      assert (r - ratio) * nav > 0.0;
    } else {
      assert (ratio - r) * nav >= 0.0;
    }
  }

  /**
    The gate sees the notional truncated to whole units; so an approved BUY leaves the holding's value below
    max_position_ratio x nav + 1, and its own cost below the available cash + 1.
   */
  lemma ApprovedBuyIsBounded(q: Request, held: int, price: real)
    requires Askable(q) && q.side.Buy? && EvaluateRiskGate(q).Approved?
    requires q.currentPositionValue == Times(held, price)
    requires q.requestedValue == Truncate(Times(q.quantity, price)) as real
    ensures q.quantity > 0 && q.quantity % q.lotSize == 0
    ensures Times(q.quantity, price) < q.availableCash + 1.0
    ensures q.nav > 0.0 ==> Times(held + q.quantity, price) < Product(q.maxPositionRatio, q.nav) + 1.0
  {
    SharesAddUp(held, q.quantity, price);
    if q.nav > 0.0 {
      RatioWithoutDivision(q.currentPositionValue + q.requestedValue, q.nav, q.maxPositionRatio);
    }
  }

  /** On the A-share market a SELL is approved on the buying day or before it under no circumstances. */
  lemma SameDaySaleIsBlocked(q: Request)
    requires Askable(q) && q.side.Sell? && q.market.ChinaA? && q.buyDate.Some? && q.tradeDate <= q.buyDate.value
    ensures EvaluateRiskGate(q).Blocked?
  {
  }
}
