/** Market rules shared by the planner, the risk gate, the paper broker and the backtest. */
module MarketRules {
  import opened Results

  datatype Side = Buy | Sell | OtherSide(text: string)

  datatype Market = ChinaA | OtherMarket

  /** The worth of a number of shares at a price. */
  function Times(quantity: int, price: real): real {
    quantity as real * price
  }

  function Product(a: real, b: real): real {
    a * b
  }

  lemma ProductIsNonNegative(a: real, b: real)
    requires a >= 0.0 && b >= 0.0
    ensures Product(a, b) >= 0.0
  {
  }

  lemma SharesAddUp(a: int, b: int, price: real)
    ensures Times(a + b, price) == Times(a, price) + Times(b, price)
    ensures Times(a - b, price) == Times(a, price) - Times(b, price)
  {
  }

  lemma PricesSubtract(quantity: int, a: real, b: real)
    ensures Times(quantity, a - b) == Times(quantity, a) - Times(quantity, b)
  {
  }

  lemma MoreSharesCostMore(a: int, b: int, price: real)
    requires a <= b && price >= 0.0
    ensures Times(a, price) <= Times(b, price)
  {
  }

  function CalculateLotQuantity(targetValue: real, price: real, lotSize: int): (quantity: int)
    ensures quantity >= 0
    ensures quantity > 0 ==> targetValue > 0.0 && price > 0.0 && lotSize > 0
  {
    if targetValue <= 0.0 || price <= 0.0 || lotSize <= 0 then 0
    else
      var rawQuantity := (targetValue / price).Floor;
      QuotientIsNatural(targetValue, price);
      LotIsNatural(rawQuantity, lotSize);
      rawQuantity / lotSize * lotSize
  }

  lemma QuotientIsNatural(a: real, b: real)
    requires a > 0.0 && b > 0.0
    ensures a / b >= 0.0
  {
  }

  lemma LotIsNatural(raw: int, lot: int)
    requires raw >= 0 && lot > 0
    ensures 0 <= raw / lot * lot <= raw < raw / lot * lot + lot
    ensures raw / lot * lot % lot == 0
  {
    var n := raw / lot;
    assert raw == n * lot + raw % lot;
    MultipleLeavesNothing(n, lot);
  }

  lemma {:induction false} Orders(a: int, b: int, lot: int)
    requires lot > 0 && a < b
    ensures a * lot + lot <= b * lot
    decreases b - a
  {
    if a + 1 < b {
      Orders(a, b - 1, lot);
    }
  }

  lemma MultipleLeavesNothing(n: int, lot: int)
    requires lot > 0
    ensures n * lot % lot == 0
  {
    var k := n * lot / lot;
    assert n * lot == k * lot + n * lot % lot;
    if k < n {
      Orders(k, n, lot);
    } else if n < k {
      Orders(n, k, lot);
    }
  }

  lemma FloorOfQuotient(value: real, price: real)
    requires value > 0.0 && price > 0.0
    ensures var n := (value / price).Floor; n >= 0 && Times(n, price) <= value < Times(n + 1, price)
  {
    var q := value / price;
    QuotientIsNatural(value, price);
    assert q * price == value;
    FloorTimesPrice(q, price);
  }

  lemma BelowTimesPrice(q: real, n: int, price: real)
    requires price > 0.0 && q < n as real
    ensures q * price < Times(n, price)
  {
    assert (n as real - q) * price > 0.0;
  }

  lemma FloorTimesPrice(q: real, price: real)
    requires price > 0.0
    ensures Times(q.Floor, price) <= q * price
    ensures q * price < Times(q.Floor + 1, price)
  {
    assert (q - q.Floor as real) * price >= 0.0;
    BelowTimesPrice(q, q.Floor + 1, price);
  }

  /** The quantity is a whole number of lots, affordable within the target value, and one more lot is not. */
  lemma LotQuantityIsLargestAffordable(targetValue: real, price: real, lotSize: int)
    requires targetValue > 0.0 && price > 0.0 && lotSize > 0
    ensures var quantity := CalculateLotQuantity(targetValue, price, lotSize);
            && quantity % lotSize == 0
            && Times(quantity, price) <= targetValue < Times(quantity + lotSize, price)
            && forall q :: q % lotSize == 0 && Times(q, price) <= targetValue ==> q <= quantity
  {
    var raw := (targetValue / price).Floor;
    var quantity := CalculateLotQuantity(targetValue, price, lotSize);
    FloorOfQuotient(targetValue, price);
    LotIsNatural(raw, lotSize);
    MoreSharesCostMore(quantity, raw, price);
    MoreSharesCostMore(raw + 1, quantity + lotSize, price);
    forall q | q % lotSize == 0 && Times(q, price) <= targetValue
      ensures q <= quantity
    {
      if q > quantity {
        NextMultiple(quantity, q, lotSize);
        MoreSharesCostMore(quantity + lotSize, q, price);
        assert false;
      }
    }
  }

  lemma NextMultiple(a: int, b: int, lot: int)
    requires lot > 0 && a % lot == 0 && b % lot == 0 && a < b
    ensures a + lot <= b
  {
    var m, n := a / lot, b / lot;
    assert a == m * lot && b == n * lot;
    if m < n {
      Orders(m, n, lot);
    } else if n < m {
      Orders(n, m, lot);
      assert false;
    }
  }

  /** A BUY must be a positive whole number of lots; anything else only has to be positive. */
  predicate IsValidLotQuantity(side: Side, quantity: int, lotSize: int)
    requires side.Buy? && quantity > 0 ==> lotSize != 0
  {
    quantity > 0 && (side.Buy? ==> quantity % lotSize == 0)
  }

  predicate IsSellAllowed(market: Market, buyDate: Option<int>, sellDate: int) {
    market.OtherMarket? || buyDate.None? || sellDate > buyDate.value
  }
}
