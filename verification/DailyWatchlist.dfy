/** The scheduler's watchlists and the decisions of a day: one per watched symbol at most. */
module DailyWatchlist {
  import opened MarketRules
  import opened Results
  import opened TargetPlanner

  ghost predicate Distinct(list: seq<string>) {
    forall i, j :: 0 <= i < j < |list| ==> list[i] != list[j]
  }

  const A_SHARES: seq<string> := ["600519.SH", "000858.SZ", "601318.SH", "000333.SZ", "600036.SH"]

  const UNITED_STATES: seq<string> := ["AAPL.US", "MSFT.US", "NVDA.US", "GOOGL.US", "AMZN.US"]

  lemma DefaultsAreDistinct()
    ensures Distinct(A_SHARES) && Distinct(UNITED_STATES)
  {
    assert A_SHARES[0][..6] == "600519" && A_SHARES[1][..6] == "000858" && A_SHARES[2][..6] == "601318";
    assert A_SHARES[3][..6] == "000333" && A_SHARES[4][..6] == "600036";
    assert "600519"[3] != "600036"[3] && "600519"[2] != "601318"[2] && "000858"[3] != "000333"[3]
           && "601318"[2] != "600036"[2];
  }

  /** The lists live as long as the process: what one day appends the next day still watches. */
  class Watchlists {
    var aShares: seq<string>
    var unitedStates: seq<string>

    ghost predicate Valid()
      reads this
    {
      Distinct(aShares) && Distinct(unitedStates)
    }

    constructor ()
      ensures Valid() && aShares == A_SHARES && unitedStates == UNITED_STATES
    {
      aShares, unitedStates := A_SHARES, UNITED_STATES;
      DefaultsAreDistinct();
    }

    /** Any market but "us" watches the A-share list. */
    function Of(market: string): seq<string>
      reads this
    {
      if market == "us" then unitedStates else aShares
    }

    /** Held symbols that are not watched yet are appended to the list itself. */
    method ForMarket(market: string, held: set<string>) returns (watchlist: seq<string>)
      requires Valid()
      modifies this
      ensures Valid() && watchlist == Of(market)
      ensures old(Of(market)) <= watchlist
      ensures forall s :: s in watchlist <==> s in old(Of(market)) || s in held
      ensures market == "us" ==> watchlist == unitedStates && aShares == old(aShares)
      ensures market != "us" ==> watchlist == aShares && unitedStates == old(unitedStates)
    {
      watchlist := Of(market);
      var pending := held;
      while pending != {}
        invariant pending <= held && Distinct(watchlist) && old(Of(market)) <= watchlist
        invariant forall s :: s in watchlist <==> s in old(Of(market)) || s in held - pending
        decreases pending
      {
        var symbol :| symbol in pending;
        if symbol !in watchlist {
          watchlist := watchlist + [symbol];
        }
        pending := pending - {symbol};
      }
      if market == "us" {
        unitedStates := watchlist;
      } else {
        aShares := watchlist;
      }
    }
  }

  /** What a symbol's turn yields: no quote, or a price with the signal's action unless something raised in between. */
  datatype Turn = NoQuote | Quoted(price: real, action: Option<Side>)

  type Turns = string -> Turn

  function Decided(watchlist: seq<string>, turns: Turns): seq<Decision> {
    if watchlist == [] then []
    else
      var symbol := watchlist[|watchlist| - 1];
      Decided(watchlist[..|watchlist| - 1], turns)
        + if turns(symbol).Quoted? && turns(symbol).action.Some?
          then [Decision(symbol, turns(symbol).action.value)] else []
  }

  function PricesOf(watchlist: seq<string>, turns: Turns): map<string, real> {
    map s | s in watchlist && turns(s).Quoted? :: turns(s).price
  }

  method Decide(watchlist: seq<string>, turns: Turns)
      returns (decisions: seq<Decision>, priceBySymbol: map<string, real>)
    ensures decisions == Decided(watchlist, turns) && priceBySymbol == PricesOf(watchlist, turns)
  {
    decisions, priceBySymbol := [], map[];
    for i := 0 to |watchlist|
      invariant decisions == Decided(watchlist[..i], turns) && priceBySymbol == PricesOf(watchlist[..i], turns)
    {
      var symbol := watchlist[i];
      PricesOneMore(watchlist, i, turns);
      assert watchlist[..i + 1][..i] == watchlist[..i];
      match turns(symbol) {
        case NoQuote =>
        case Quoted(price, action) =>
          priceBySymbol := priceBySymbol[symbol := price];
          if action.Some? {
            decisions := decisions + [Decision(symbol, action.value)];
          }
      }
    }
    assert watchlist[..|watchlist|] == watchlist;
  }

  /** The watched symbols that came with a price and a signal, whatever the signal says. */
  function Signalled(watchlist: seq<string>, turns: Turns): set<string> {
    set s | s in watchlist && turns(s).Quoted? && turns(s).action.Some?
  }

  /** `at` are the places with a signal, in the order of the list. */
  ghost predicate SignalPlaces(watchlist: seq<string>, turns: Turns, at: seq<nat>) {
    && (forall i, j :: 0 <= i < j < |at| ==> at[i] < at[j])
    && (forall i :: 0 <= i < |at| ==> at[i] < |watchlist|)
    && forall k :: 0 <= k < |watchlist| ==>
       (k in at <==> turns(watchlist[k]).Quoted? && turns(watchlist[k]).action.Some?)
  }

  /** Each decision is what the signal at its place says. */
  ghost predicate DecidesAt(decisions: seq<Decision>, watchlist: seq<string>, turns: Turns, at: seq<nat>) {
    && |at| == |decisions|
    && forall i :: 0 <= i < |at| && at[i] < |watchlist| ==>
         && turns(watchlist[at[i]]).Quoted?
         && decisions[i].symbol == watchlist[at[i]] && turns(watchlist[at[i]]).action == Some(decisions[i].side)
  }

  predicate Signals(turn: Turn) {
    turn.Quoted? && turn.action.Some?
  }

  function PlacesOf(watchlist: seq<string>, turns: Turns): seq<nat> {
    if watchlist == [] then []
    else
      PlacesOf(watchlist[..|watchlist| - 1], turns)
        + if Signals(turns(watchlist[|watchlist| - 1])) then [|watchlist| - 1] else []
  }

  lemma {:induction false} PlacesAreTheSignals(watchlist: seq<string>, turns: Turns)
    ensures SignalPlaces(watchlist, turns, PlacesOf(watchlist, turns))
  {
    if watchlist != [] {
      PlacesAreTheSignals(watchlist[..|watchlist| - 1], turns);
    }
  }

  /** Each place of the watchlist with a signal has one decision, and they keep the list's order. */
  lemma {:induction false} DecidedInOrder(watchlist: seq<string>, turns: Turns)
    ensures SignalPlaces(watchlist, turns, PlacesOf(watchlist, turns))
    ensures DecidesAt(Decided(watchlist, turns), watchlist, turns, PlacesOf(watchlist, turns))
  {
    PlacesAreTheSignals(watchlist, turns);
    if watchlist != [] {
      DecidedInOrder(watchlist[..|watchlist| - 1], turns);
    }
  }

  /** A symbol is decided on exactly as its turn says, and on nothing else. */
  lemma {:induction false} SignalsAreDecided(watchlist: seq<string>, turns: Turns, symbol: string, side: Side)
    ensures Decision(symbol, side) in Decided(watchlist, turns) <==>
            symbol in watchlist && turns(symbol).Quoted? && turns(symbol).action == Some(side)
  {
    if watchlist != [] {
      SignalsAreDecided(watchlist[..|watchlist| - 1], turns, symbol, side);
    }
  }

  lemma {:induction false} AsManyAsSignalled(watchlist: seq<string>, turns: Turns)
    requires Distinct(watchlist)
    ensures |Decided(watchlist, turns)| == |Signalled(watchlist, turns)|
  {
    if watchlist == [] {
      assert Signalled(watchlist, turns) == {};
    } else {
      var most, last := watchlist[..|watchlist| - 1], watchlist[|watchlist| - 1];
      AsManyAsSignalled(most, turns);
      LastIsNew(watchlist);
      assert watchlist == most + [last];
      assert Signalled(watchlist, turns)
          == Signalled(most, turns) + if turns(last).Quoted? && turns(last).action.Some? then {last} else {};
    }
  }

  lemma LastIsNew(list: seq<string>)
    requires list != [] && Distinct(list)
    ensures list[|list| - 1] !in list[..|list| - 1]
  {
  }

  lemma PricesOneMore(watchlist: seq<string>, i: nat, turns: Turns)
    requires i < |watchlist|
    ensures PricesOf(watchlist[..i + 1], turns)
         == if turns(watchlist[i]).Quoted?
           then PricesOf(watchlist[..i], turns)[watchlist[i] := turns(watchlist[i]).price]
            else PricesOf(watchlist[..i], turns)
  {
    assert watchlist[..i + 1] == watchlist[..i] + [watchlist[i]];
  }

  lemma {:induction false} DecidedAreWatched(watchlist: seq<string>, turns: Turns)
    ensures forall d :: d in Decided(watchlist, turns) ==>
            d.symbol in watchlist && d.symbol in PricesOf(watchlist, turns)
  {
    if watchlist != [] {
      DecidedAreWatched(watchlist[..|watchlist| - 1], turns);
    }
  }

  /** A list without repetition gives each symbol at most one decision, and every decision has a price. */
  lemma {:induction false} DecisionsAreDistinct(watchlist: seq<string>, turns: Turns)
    requires Distinct(watchlist)
    ensures DistinctDecisions(Decided(watchlist, turns))
    ensures forall d :: d in Decided(watchlist, turns) ==> d.symbol in PricesOf(watchlist, turns)
  {
    DecidedAreWatched(watchlist, turns);
    if watchlist != [] {
      var most := watchlist[..|watchlist| - 1];
      DecisionsAreDistinct(most, turns);
      DecidedAreWatched(most, turns);
      var decided := Decided(most, turns);
      forall i | 0 <= i < |decided|
        ensures decided[i].symbol != watchlist[|watchlist| - 1]
      {
        assert decided[i] in decided;
        var j :| 0 <= j < |most| && most[j] == decided[i].symbol;
      }
    }
  }
}
