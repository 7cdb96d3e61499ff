/** Broker events applied to an order: idempotent by event id, filled quantity capped at the order quantity. */
module OrderEvents {
  import opened Numbers
  import opened Results

  datatype EventKind = PartialFill | FullFill | Cancel | Reject | OtherKind(name: string)

  /** A missing or empty event id is `None`; such an event is never recognised as a repeat. */
  datatype Event = Event(kind: EventKind, id: Option<string>, fillQuantity: int, reason: string)

  datatype OrderStatus = Pending | PartiallyFilled | Filled | Cancelled | Rejected

  datatype Order = Order(orderId: string, symbol: string, side: string, quantity: int, status: OrderStatus, filled: int,
                         rejectReason: Option<string>, processed: seq<string>)

  /** Nothing filled and nothing processed yet. */
  predicate IsNew(order: Order) {
    order.filled == 0 && order.processed == []
  }

  function CreateInitialOrderState(orderId: string, symbol: string, quantity: int, side: string): (order: Order)
    ensures IsNew(order) && order.quantity == quantity
  {
    Order(orderId, symbol, side, quantity, Pending, 0, None, [])
  }

  function Transition(order: Order, event: Event): Order {
    match event.kind
    case PartialFill =>
      var filled := Min(order.filled + event.fillQuantity, order.quantity);
      order.(status := if filled >= order.quantity then Filled else PartiallyFilled, filled := filled)
    case FullFill => order.(status := Filled, filled := order.quantity)
    case Cancel => order.(status := Cancelled)
    case Reject => order.(status := Rejected, rejectReason := Some(event.reason))
    case OtherKind(_) => order
  }

  predicate Seen(ids: seq<string>, event: Event) {
    event.id.Some? && event.id.value in ids
  }

  function Apply(order: Order, event: Event): Order {
    if Seen(order.processed, event) then order
    else
      var moved := Transition(order, event);
      if event.id.Some? then moved.(processed := order.processed + [event.id.value]) else moved
  }

  function ApplyAll(order: Order, events: seq<Event>): Order {
    if events == [] then order else Apply(ApplyAll(order, events[..|events| - 1]), events[|events| - 1])
  }

  // The state as the source keeps it: a dictionary holding a reference to a list of ids ---------------------------

  class IdList {
    var ids: seq<string>

    constructor ()
      ensures ids == []
    {
      ids := [];
    }
  }

  class OrderState {
    var fields: Order
    const processed: IdList

    constructor (fields: Order, processed: IdList)
      ensures this.fields == fields && this.processed == processed
    {
      this.fields, this.processed := fields, processed;
    }

    function Value(): Order
      reads this, processed
    {
      fields.(processed := processed.ids)
    }
  }

  /**
    The result is the input with the event applied. Except for a repeat it is a new dictionary, but it shares the id
    list with the input: afterwards the input too has the event marked as processed, with none of its effect.
   */
  method ApplyBrokerEvent(state: OrderState, event: Event) returns (after: OrderState)
    modifies state.processed
    ensures after.Value() == Apply(old(state.Value()), event)
    ensures after == state || fresh(after)
    ensures after.processed == state.processed
    ensures state.Value() == old(state.Value()).(processed := after.Value().processed)
  {
    if event.id.Some? && event.id.value in state.processed.ids {
      return state;
    }
    var fields := state.fields;
    match event.kind {
      case PartialFill =>
        var newFilled := Min(fields.filled + event.fillQuantity, fields.quantity);
        var newStatus := if newFilled >= fields.quantity then Filled else PartiallyFilled;
        fields := fields.(status := newStatus, filled := newFilled);
      case FullFill =>
        fields := fields.(status := Filled, filled := fields.quantity);
      case Cancel =>
        fields := fields.(status := Cancelled);
      case Reject =>
        fields := fields.(status := Rejected, rejectReason := Some(event.reason));
      case OtherKind(_) =>
    }
    if event.id.Some? {
      state.processed.ids := state.processed.ids + [event.id.value];
    }
    after := new OrderState(fields, state.processed);
  }

  // Idempotence ---------------------------------------------------------------------------------------------------

  predicate Repeats(events: seq<Event>, event: Event) {
    event.id.Some? && exists i :: 0 <= i < |events| && events[i].id == event.id
  }

  function WithoutRepeats(events: seq<Event>): seq<Event> {
    if events == [] then []
    else
      var n := |events| - 1;
      WithoutRepeats(events[..n]) + if Repeats(events[..n], events[n]) then [] else [events[n]]
  }

  predicate Carries(events: seq<Event>, id: string) {
    exists i :: 0 <= i < |events| && events[i].id == Some(id)
  }

  lemma CarriesOneMore(events: seq<Event>, id: string)
    requires events != []
    ensures Carries(events, id) <==> Carries(events[..|events| - 1], id) || events[|events| - 1].id == Some(id)
  {
    var most := events[..|events| - 1];
    if i :| 0 <= i < |most| && most[i].id == Some(id) {
      assert events[i].id == Some(id);
    }
    if i :| 0 <= i < |events| && events[i].id == Some(id) {
      assert i < |most| ==> most[i].id == Some(id);
    }
  }

  /** An id is marked as processed exactly when it was before or came with an event. */
  lemma {:induction false} ProcessedWasSent(order: Order, events: seq<Event>)
    ensures forall id :: id in ApplyAll(order, events).processed <==> id in order.processed || Carries(events, id)
  {
    if events != [] {
      ProcessedWasSent(order, events[..|events| - 1]);
      forall id
        ensures id in ApplyAll(order, events).processed <==> id in order.processed || Carries(events, id)
      {
        CarriesOneMore(events, id);
      }
    }
  }

  lemma SeenIffRepeats(order: Order, events: seq<Event>, event: Event)
    ensures Seen(ApplyAll(order, events).processed, event) <==> Seen(order.processed, event) || Repeats(events, event)
  {
    ProcessedWasSent(order, events);
    if event.id.Some? {
      assert Repeats(events, event) <==> Carries(events, event.id.value);
    }
  }

  /** Replaying any stream gives exactly the state of the stream with later repeats removed. */
  lemma {:induction false} RepeatsDoNothing(order: Order, events: seq<Event>)
    ensures ApplyAll(order, events) == ApplyAll(order, WithoutRepeats(events))
  {
    if events != [] {
      var n := |events| - 1;
      RepeatsDoNothing(order, events[..n]);
      if Repeats(events[..n], events[n]) {
        SeenIffRepeats(order, events[..n], events[n]);
        assert WithoutRepeats(events) == WithoutRepeats(events[..n]);
      } else {
        var kept := WithoutRepeats(events[..n]);
        assert (kept + [events[n]])[..|kept|] == kept;
      }
    }
  }

  // How much is filled --------------------------------------------------------------------------------------------

  /** What is added up over a stream: all partial fills, or only those that raise the filled quantity. */
  datatype Column = All | Rising

  function PartialFillOf(event: Event): int {
    if event.kind.PartialFill? then event.fillQuantity else 0
  }

  function Amount(event: Event, column: Column): int {
    if column == All then PartialFillOf(event) else AtLeastZero(PartialFillOf(event))
  }

  function SumOf(events: seq<Event>, column: Column): int {
    if events == [] then 0 else SumOf(events[..|events| - 1], column) + Amount(events[|events| - 1], column)
  }

  function PartialTotal(events: seq<Event>): int {
    SumOf(events, All)
  }

  /** Partial fills are never negative. The source checks nothing of the kind. */
  predicate FillsForward(events: seq<Event>) {
    forall i :: 0 <= i < |events| ==> PartialFillOf(events[i]) >= 0
  }

  predicate HasFullFill(events: seq<Event>) {
    exists i :: 0 <= i < |events| && events[i].kind.FullFill?
  }

  ghost predicate DistinctIds(events: seq<Event>) {
    forall i, j :: 0 <= i < j < |events| && events[i].id.Some? ==> events[i].id != events[j].id
  }

  lemma {:induction false} WithoutRepeatsIsDistinct(events: seq<Event>)
    ensures DistinctIds(WithoutRepeats(events))
    ensures forall e :: e in WithoutRepeats(events) ==> e in events
  {
    if events != [] {
      var n := |events| - 1;
      WithoutRepeatsIsDistinct(events[..n]);
      var kept := WithoutRepeats(events[..n]);
      if !Repeats(events[..n], events[n]) {
        forall j | 0 <= j < |kept| && kept[j].id.Some?
          ensures kept[j].id != events[n].id
        {
          assert kept[j] in events[..n];
        }
      }
    }
  }

  lemma FullFillIsLastOrEarlier(events: seq<Event>)
    requires events != []
    ensures HasFullFill(events) <==> HasFullFill(events[..|events| - 1]) || events[|events| - 1].kind.FullFill?
  {
    var most := events[..|events| - 1];
    if i :| 0 <= i < |most| && most[i].kind.FullFill? {
      assert events[i].kind.FullFill?;
    }
    if i :| 0 <= i < |events| && events[i].kind.FullFill? {
      assert i < |most| ==> most[i].kind.FullFill?;
    }
  }

  /** The filled quantity, event by event, when no event is a repeat. */
  function Level(quantity: int, filled: int, events: seq<Event>): int {
    if events == [] then filled
    else
      var before, last := Level(quantity, filled, events[..|events| - 1]), events[|events| - 1];
      match last.kind
      case PartialFill => Min(before + last.fillQuantity, quantity)
      case FullFill => quantity
      case _ => before
  }

  lemma {:induction false} DistinctFillsLevel(order: Order, events: seq<Event>)
    requires order.processed == [] && DistinctIds(events)
    ensures var after := ApplyAll(order, events);
            after.quantity == order.quantity && after.filled == Level(order.quantity, order.filled, events)
  {
    if events != [] {
      var n := |events| - 1;
      DistinctFillsLevel(order, events[..n]);
      SeenIffRepeats(order, events[..n], events[n]);
      assert !Repeats(events[..n], events[n]);
    }
  }

  /** The events after the last FILLED one. */
  function SinceFull(events: seq<Event>): seq<Event> {
    if events == [] || events[|events| - 1].kind.FullFill? then []
    else SinceFull(events[..|events| - 1]) + [events[|events| - 1]]
  }

  /** How far the running sum of partial fills ever rose above the room there was; the cap cuts off exactly that. */
  function Overshoot(room: int, events: seq<Event>): int {
    if events == [] then 0
    else Max(Overshoot(room, events[..|events| - 1]), PartialTotal(events) - room)
  }

  /** Where the sum starts: a FILLED event leaves all of it filled. */
  function Base(quantity: int, events: seq<Event>): int {
    if HasFullFill(events) then quantity else 0
  }

  function SumLessOvershoot(quantity: int, base: int, events: seq<Event>): int {
    base + PartialTotal(events) - Overshoot(quantity - base, events)
  }

  lemma OneMoreIsCapped(quantity: int, base: int, events: seq<Event>, e: Event)
    requires base <= quantity
    ensures SumLessOvershoot(quantity, base, events + [e])
         == Min(SumLessOvershoot(quantity, base, events) + PartialFillOf(e), quantity)
    ensures SumLessOvershoot(quantity, base, events) <= quantity
  {
    assert (events + [e])[..|events|] == events;
    OvershootCoversSum(quantity - base, events);
  }

  lemma {:induction false} LevelIsSumLessOvershoot(quantity: int, events: seq<Event>)
    requires quantity >= 0
    ensures Level(quantity, 0, events) == SumLessOvershoot(quantity, Base(quantity, events), SinceFull(events))
    ensures HasFullFill(events) || SinceFull(events) == events
  {
    if events != [] {
      var n := |events| - 1;
      LevelIsSumLessOvershoot(quantity, events[..n]);
      FullFillIsLastOrEarlier(events);
      OneMoreIsCapped(quantity, Base(quantity, events[..n]), SinceFull(events[..n]), events[n]);
    }
  }

  lemma OvershootCoversSum(room: int, events: seq<Event>)
    requires room >= 0
    ensures Overshoot(room, events) >= AtLeastZero(PartialTotal(events) - room)
  {
    OvershootIsGreatest(room, events, Overshoot(room, events));
    assert events[..|events|] == events;
  }

  /** No running sum of partial fills exceeds the limit. */
  predicate StaysUnder(events: seq<Event>, limit: int) {
    forall i :: 0 <= i <= |events| ==> PartialTotal(events[..i]) <= limit
  }

  lemma {:induction false} OvershootIsGreatest(room: int, events: seq<Event>, bound: int)
    requires room >= 0
    ensures Overshoot(room, events) >= 0
    ensures bound >= 0 ==> (Overshoot(room, events) <= bound <==> StaysUnder(events, room + bound))
  {
    if events != [] {
      var n := |events| - 1;
      OvershootIsGreatest(room, events[..n], bound);
      assert StaysUnder(events, room + bound) <==>
             StaysUnder(events[..n], room + bound) && PartialTotal(events) <= room + bound by {
        assert events[..n + 1] == events;
        assert forall i :: 0 <= i <= n ==> events[..n][..i] == events[..i];
      }
    }
  }

  /** All of it once a FILLED event is among the events, else the capped sum of the partial fills. */
  function Saturated(quantity: int, events: seq<Event>): int {
    if HasFullFill(events) then quantity else Min(quantity, PartialTotal(events))
  }

  /**
    Since the last FILLED event no running sum of partial fills went above the final one, or, as long as there is
    none, above the larger of the final one and the order quantity.
   */
  predicate NothingIsCutOff(quantity: int, events: seq<Event>) {
    var tail := SinceFull(events);
    StaysUnder(tail, if HasFullFill(events) then PartialTotal(tail) else Max(quantity, PartialTotal(tail)))
  }

  lemma LevelIsSaturatedIff(quantity: int, events: seq<Event>)
    requires quantity >= 0
    ensures Level(quantity, 0, events) == Saturated(quantity, events) <==> NothingIsCutOff(quantity, events)
  {
    var tail := SinceFull(events);
    var sum := PartialTotal(tail);
    LevelIsSumLessOvershoot(quantity, events);
    if HasFullFill(events) {
      OvershootCoversSum(0, tail);
      OvershootIsGreatest(0, tail, sum);
      assert tail[..0] == [];
    } else {
      OvershootCoversSum(quantity, tail);
      OvershootIsGreatest(quantity, tail, AtLeastZero(sum - quantity));
    }
  }

  lemma {:induction false} ForwardFillsSaturate(quantity: int, filled: int, events: seq<Event>)
    requires filled <= quantity && FillsForward(events)
    ensures PartialTotal(events) >= 0
    ensures Level(quantity, filled, events) == if HasFullFill(events) then quantity
            else Min(quantity, filled + PartialTotal(events))
  {
    if events != [] {
      ForwardFillsSaturate(quantity, filled, events[..|events| - 1]);
      FullFillIsLastOrEarlier(events);
    }
  }

  lemma NewOrderLevel(order: Order, events: seq<Event>)
    requires IsNew(order)
    ensures ApplyAll(order, events).filled == Level(order.quantity, 0, WithoutRepeats(events))
  {
    RepeatsDoNothing(order, events);
    WithoutRepeatsIsDistinct(events);
    DistinctFillsLevel(order, WithoutRepeats(events));
  }

  /**
    Any stream on a new order: over its distinct events the filled quantity is the sum since the last FILLED event
    less what the cap cut off.
   */
  lemma FilledIsSumLessOvershoot(order: Order, events: seq<Event>)
    requires order.quantity >= 0 && IsNew(order)
    ensures var distinct := WithoutRepeats(events);
            ApplyAll(order, events).filled
              == SumLessOvershoot(order.quantity, Base(order.quantity, distinct), SinceFull(distinct))
  {
    NewOrderLevel(order, events);
    LevelIsSumLessOvershoot(order.quantity, WithoutRepeats(events));
  }

  /**
    From a new order: all of it once a FILLED event is among the distinct ones, else the capped sum of the distinct
    partial fills, if and only if nothing was cut off on the way; so always when no partial fill is negative.
   */
  lemma FilledIsCappedSumIff(order: Order, events: seq<Event>)
    requires order.quantity >= 0 && IsNew(order)
    ensures var distinct, filled := WithoutRepeats(events), ApplyAll(order, events).filled;
            && (filled == Saturated(order.quantity, distinct) <==> NothingIsCutOff(order.quantity, distinct))
            && (FillsForward(events) ==> filled == Saturated(order.quantity, distinct))
  {
    var distinct := WithoutRepeats(events);
    NewOrderLevel(order, events);
    LevelIsSaturatedIff(order.quantity, distinct);
    if FillsForward(events) {
      WithoutRepeatsIsDistinct(events);
      forall i | 0 <= i < |distinct|
        ensures PartialFillOf(distinct[i]) >= 0
      {
        assert distinct[i] in events;
      }
      ForwardFillsSaturate(order.quantity, 0, distinct);
    }
  }

  // The order of the events ---------------------------------------------------------------------------------------

  lemma {:induction false} SumOfBoth(a: seq<Event>, b: seq<Event>, column: Column)
    ensures SumOf(a + b, column) == SumOf(a, column) + SumOf(b, column)
    decreases |b|
  {
    if b == [] {
      assert a + b == a;
    } else {
      var n := |b| - 1;
      assert (a + b)[..|a + b| - 1] == a + b[..n];
      SumOfBoth(a, b[..n], column);
    }
  }

  lemma SumMovesLast(x: seq<Event>, e: Event, y: seq<Event>, column: Column)
    ensures SumOf(x + [e] + y, column) == SumOf(x + y + [e], column)
  {
    SumOfBoth(x + [e], y, column);
    SumOfBoth(x, [e], column);
    SumOfBoth(x + y, [e], column);
    SumOfBoth(x, y, column);
  }

  function Without(events: seq<Event>, k: nat): seq<Event>
    requires k < |events|
  {
    events[..k] + events[k + 1..]
  }

  lemma AllButOne(events: seq<Event>, k: nat)
    requires k < |events|
    ensures multiset(Without(events, k)) == multiset(events) - multiset{events[k]}
  {
    assert events == events[..k] + [events[k]] + events[k + 1..];
  }

  lemma SumWithout(events: seq<Event>, k: nat, column: Column)
    requires k < |events|
    ensures SumOf(events, column) == SumOf(Without(events, k), column) + Amount(events[k], column)
  {
    var x, y := events[..k], events[k + 1..];
    assert events == x + [events[k]] + y;
    SumMovesLast(x, events[k], y, column);
    assert (x + y + [events[k]])[..|x + y|] == x + y;
  }

  lemma {:induction false} SameEventsSameSum(a: seq<Event>, b: seq<Event>, column: Column)
    requires multiset(a) == multiset(b)
    ensures SumOf(a, column) == SumOf(b, column)
    decreases |a|
  {
    if a == [] {
      assert |multiset(b)| == 0;
    } else {
      assert a[0] in multiset(b);
      var k :| 0 <= k < |b| && b[k] == a[0];
      AllButOne(a, 0);
      AllButOne(b, k);
      SameEventsSameSum(Without(a, 0), Without(b, k), column);
      SumWithout(a, 0, column);
      SumWithout(b, k, column);
    }
  }

  lemma SameEventsSameMembers(a: seq<Event>, b: seq<Event>, e: Event)
    requires multiset(a) == multiset(b)
    ensures e in a <==> e in b
  {
    assert e in a <==> e in multiset(a);
  }

  lemma SameEventsSameKinds(a: seq<Event>, b: seq<Event>)
    requires multiset(a) == multiset(b)
    ensures HasFullFill(a) ==> HasFullFill(b)
    ensures FillsForward(a) ==> FillsForward(b)
  {
    if i :| 0 <= i < |a| && a[i].kind.FullFill? {
      SameEventsSameMembers(a, b, a[i]);
    }
    forall i | 0 <= i < |b|
      ensures b[i] in a
    {
      SameEventsSameMembers(a, b, b[i]);
    }
  }

  lemma StaysElsewhere(events: seq<Event>, k: nat, e: Event) returns (at: nat)
    requires k < |events| && e in Without(events, k)
    ensures at < |events| && at != k && events[at] == e
  {
    var m :| 0 <= m < |Without(events, k)| && Without(events, k)[m] == e;
    at := if m < k then m else m + 1;
  }

  /** Two places of the same event stay two places. */
  lemma TwiceInAnyOrder(a: seq<Event>, b: seq<Event>, i: nat, j: nat) returns (k: nat, l: nat)
    requires multiset(a) == multiset(b) && i < j < |b|
    ensures k < |a| && l < |a| && k != l && a[k] == b[i] && a[l] == b[j]
  {
    SameEventsSameMembers(a, b, b[j]);
    l :| l < |a| && a[l] == b[j];
    AllButOne(a, l);
    AllButOne(b, j);
    assert Without(b, j)[i] == b[i];
    SameEventsSameMembers(Without(a, l), Without(b, j), b[i]);
    k := StaysElsewhere(a, l, b[i]);
  }

  lemma DistinctInAnyOrder(a: seq<Event>, b: seq<Event>)
    requires multiset(a) == multiset(b) && DistinctIds(a)
    ensures DistinctIds(b)
  {
    forall i, j | 0 <= i < j < |b| && b[i].id.Some?
      ensures b[i].id != b[j].id
    {
      var k, l := TwiceInAnyOrder(a, b, i, j);
      assert k < l || l < k;
    }
  }

  predicate Lowers(event: Event) {
    PartialFillOf(event) < 0
  }

  /** The events that lower the filled quantity, or all others, in their order. */
  function Part(events: seq<Event>, lowering: bool): seq<Event> {
    if events == [] then []
    else Part(events[..|events| - 1], lowering) + if Lowers(events[|events| - 1]) == lowering
      then [events[|events| - 1]] else []
  }

  lemma PartOneMore(events: seq<Event>, lowering: bool)
    requires events != []
    ensures var before, last := Part(events[..|events| - 1], lowering), events[|events| - 1];
            multiset(Part(events, lowering)) == if Lowers(last) == lowering then multiset(before) + multiset{last}
              else multiset(before)
  {
  }

  lemma OneMoreInEither(most: multiset<Event>, a: multiset<Event>, b: multiset<Event>, e: Event, inB: bool)
    requires a + b == most
    ensures (if inB then a else a + multiset{e}) + (if inB then b + multiset{e} else b) == most + multiset{e}
  {
  }

  lemma LastOnTop(events: seq<Event>)
    requires events != []
    ensures multiset(events) == multiset(events[..|events| - 1]) + multiset{events[|events| - 1]}
  {
    assert events == events[..|events| - 1] + [events[|events| - 1]];
  }

  lemma {:induction false} PartsCount(events: seq<Event>)
    ensures multiset(Part(events, false)) + multiset(Part(events, true)) == multiset(events)
  {
    if events != [] {
      var most, last := events[..|events| - 1], events[|events| - 1];
      PartsCount(most);
      LastOnTop(events);
      PartOneMore(events, false);
      PartOneMore(events, true);
      OneMoreInEither(multiset(most), multiset(Part(most, false)), multiset(Part(most, true)), last, Lowers(last));
    }
  }

  lemma {:induction false} PartsDiffer(events: seq<Event>, lowering: bool)
    ensures forall i :: 0 <= i < |Part(events, lowering)| ==> Lowers(Part(events, lowering)[i]) == lowering
  {
    if events != [] {
      PartsDiffer(events[..|events| - 1], lowering);
    }
  }

  lemma PartsAreAll(events: seq<Event>)
    ensures multiset(Part(events, false) + Part(events, true)) == multiset(events)
    ensures FillsForward(Part(events, false))
    ensures forall i :: 0 <= i < |Part(events, true)| ==> Lowers(Part(events, true)[i])
  {
    PartsCount(events);
    PartsDiffer(events, false);
    PartsDiffer(events, true);
    forall i | 0 <= i < |Part(events, false)|
      ensures PartialFillOf(Part(events, false)[i]) >= 0
    {
      assert !Lowers(Part(events, false)[i]);
    }
  }

  lemma {:induction false} LevelOfBoth(quantity: int, filled: int, a: seq<Event>, b: seq<Event>)
    ensures Level(quantity, filled, a + b) == Level(quantity, Level(quantity, filled, a), b)
    decreases |b|
  {
    if b == [] {
      assert a + b == a;
    } else {
      assert (a + b)[..|a + b| - 1] == a + b[..|b| - 1];
      LevelOfBoth(quantity, filled, a, b[..|b| - 1]);
    }
  }

  lemma {:induction false} LoweringIsNeverCut(quantity: int, filled: int, events: seq<Event>)
    requires filled <= quantity && forall i :: 0 <= i < |events| ==> Lowers(events[i])
    ensures Level(quantity, filled, events) == filled + PartialTotal(events) <= filled
    ensures events != [] ==> PartialTotal(events) < 0
    ensures !HasFullFill(events)
  {
    if events != [] {
      LoweringIsNeverCut(quantity, filled, events[..|events| - 1]);
      assert Lowers(events[|events| - 1]);
    }
  }

  /** Raising first loses what the cap cuts off; lowering first makes room for it. */
  lemma RaisingFirstFillsLess(quantity: int, events: seq<Event>)
    requires quantity >= 0 && !FillsForward(events)
    requires HasFullFill(events) || SumOf(events, Rising) > quantity
    ensures var rising, lowering := Part(events, false), Part(events, true);
            Level(quantity, 0, rising + lowering) < Level(quantity, 0, lowering + rising)
  {
    var rising, lowering := Part(events, false), Part(events, true);
    PartsAreAll(events);
    assert lowering != [] by {
      if lowering == [] {
        assert rising + lowering == rising;
        SameEventsSameKinds(rising, events);
      }
    }
    LoweringIsNeverCut(quantity, 0, lowering);
    ForwardFillsSaturate(quantity, 0, rising);
    LevelOfBoth(quantity, 0, rising, lowering);
    LoweringIsNeverCut(quantity, Level(quantity, 0, rising), lowering);
    LevelOfBoth(quantity, 0, lowering, rising);
    ForwardFillsSaturate(quantity, PartialTotal(lowering), rising);
    FullFillIsRising(events);
    RisingIsRising(events);
  }

  lemma FullFillIsRising(events: seq<Event>)
    ensures HasFullFill(events) <==> HasFullFill(Part(events, false))
  {
    var rising, lowering := Part(events, false), Part(events, true);
    PartsAreAll(events);
    if i :| 0 <= i < |events| && events[i].kind.FullFill? {
      SameEventsSameMembers(rising + lowering, events, events[i]);
      assert !Lowers(events[i]);
    }
    if i :| 0 <= i < |rising| && rising[i].kind.FullFill? {
      assert rising[i] in rising + lowering;
      SameEventsSameMembers(rising + lowering, events, rising[i]);
    }
  }

  lemma {:induction false} RisingIsRising(events: seq<Event>)
    ensures PartialTotal(Part(events, false)) == SumOf(events, Rising)
  {
    if events != [] {
      var most, last := events[..|events| - 1], events[|events| - 1];
      RisingIsRising(most);
      if Lowers(last) {
        assert Part(events, false) == Part(most, false);
      } else {
        assert Part(events, false) == Part(most, false) + [last];
        assert (Part(most, false) + [last])[..|Part(most, false)|] == Part(most, false);
      }
    }
  }

  lemma {:induction false} EnoughRoomCutsNothing(quantity: int, events: seq<Event>)
    requires SumOf(events, Rising) <= quantity && !HasFullFill(events)
    ensures Level(quantity, 0, events) == PartialTotal(events) <= SumOf(events, Rising)
    ensures SumOf(events, Rising) >= 0
  {
    if events != [] {
      FullFillIsLastOrEarlier(events);
      RisingGrows(events);
      EnoughRoomCutsNothing(quantity, events[..|events| - 1]);
    }
  }

  lemma RisingGrows(events: seq<Event>)
    requires events != []
    ensures SumOf(events[..|events| - 1], Rising) <= SumOf(events, Rising)
  {
  }

  /** The same events in any order fill alike. */
  ghost predicate FilledAlike(order: Order, events: seq<Event>, other: seq<Event>) {
    multiset(other) == multiset(events) ==> ApplyAll(order, other).filled == ApplyAll(order, events).filled
  }

  predicate OrderDoesNotMatter(quantity: int, events: seq<Event>) {
    FillsForward(events) || (!HasFullFill(events) && SumOf(events, Rising) <= quantity)
  }

  lemma SameLevelInAnyOrder(quantity: int, events: seq<Event>, other: seq<Event>)
    requires quantity >= 0 && OrderDoesNotMatter(quantity, events) && multiset(other) == multiset(events)
    ensures Level(quantity, 0, other) == Level(quantity, 0, events)
  {
    SameEventsSameKinds(events, other);
    SameEventsSameKinds(other, events);
    SameEventsSameSum(events, other, All);
    SameEventsSameSum(events, other, Rising);
    if FillsForward(events) {
      ForwardFillsSaturate(quantity, 0, events);
      ForwardFillsSaturate(quantity, 0, other);
    } else {
      EnoughRoomCutsNothing(quantity, events);
      EnoughRoomCutsNothing(quantity, other);
    }
  }

  lemma AlikeIsSameLevel(order: Order, events: seq<Event>, other: seq<Event>)
    requires IsNew(order) && DistinctIds(events) && multiset(other) == multiset(events)
    ensures FilledAlike(order, events, other) <==> Level(order.quantity, 0, other) == Level(order.quantity, 0, events)
  {
    DistinctInAnyOrder(events, other);
    DistinctFillsLevel(order, events);
    DistinctFillsLevel(order, other);
  }

  lemma SomeOrderFillsOtherwise(order: Order, events: seq<Event>) returns (other: seq<Event>)
    requires order.quantity >= 0 && IsNew(order) && DistinctIds(events) && !OrderDoesNotMatter(order.quantity, events)
    ensures !FilledAlike(order, events, other)
  {
    var rising, lowering := Part(events, false), Part(events, true);
    PartsAreAll(events);
    assert multiset(rising + lowering) == multiset(lowering + rising);
    RaisingFirstFillsLess(order.quantity, events);
    AlikeIsSameLevel(order, events, rising + lowering);
    AlikeIsSameLevel(order, events, lowering + rising);
    other := if Level(order.quantity, 0, rising + lowering) == Level(order.quantity, 0, events) then lowering + rising
      else rising + lowering;
  }

  /**
    Distinct events fill a new order alike in whatever order they arrive if and only if no partial fill is negative,
    or none is FILLED and the rising fills together fit the order.
   */
  lemma FilledIgnoresOrderIff(order: Order, events: seq<Event>)
    requires order.quantity >= 0 && IsNew(order) && DistinctIds(events)
    ensures (forall other :: FilledAlike(order, events, other)) <==> OrderDoesNotMatter(order.quantity, events)
  {
    if OrderDoesNotMatter(order.quantity, events) {
      forall other | multiset(other) == multiset(events)
        ensures FilledAlike(order, events, other)
      {
        AlikeIsSameLevel(order, events, other);
        SameLevelInAnyOrder(order.quantity, events, other);
      }
    } else {
      var _ := SomeOrderFillsOtherwise(order, events);
    }
  }

  /** Fills of 15 and -5 on an order of 10 leave 5 in one order and 10 in the other. */
  lemma NegativeFillNeedsItsPlace(order: Order, up: Event, down: Event)
    requires order.quantity == 10 && IsNew(order)
    requires up == Event(PartialFill, Some("u"), 15, "") && down == Event(PartialFill, Some("d"), -5, "")
    ensures ApplyAll(order, [up, down]).filled == 5 && ApplyAll(order, [down, up]).filled == 10
  {
    assert [up, down][..1] == [up] && [down, up][..1] == [down] && [up][..0] == [] && [down][..0] == [];
    assert Level(10, 0, []) == 0;
    assert Level(10, 0, [up]) == 10 && Level(10, 0, [down]) == -5;
    assert Level(10, 0, [up, down]) == 5 && Level(10, 0, [down, up]) == 10;
    DistinctFillsLevel(order, [up, down]);
    DistinctFillsLevel(order, [down, up]);
  }

  // Status and quantity agree -------------------------------------------------------------------------------------

  predicate Consistent(order: Order) {
    && order.filled <= order.quantity
    && (order.status.Filled? ==> order.filled == order.quantity)
    && (order.status.PartiallyFilled? ==> order.filled < order.quantity)
  }

  /**
    Any stream keeps FILLED to completely filled orders and PARTIALLY_FILLED to others; without negative fills none
    goes below zero.
   */
  lemma {:induction false} StatusAgreesWithQuantity(order: Order, events: seq<Event>)
    requires Consistent(order)
    ensures Consistent(ApplyAll(order, events)) && ApplyAll(order, events).quantity == order.quantity
    ensures order.filled >= 0 && FillsForward(events) ==> ApplyAll(order, events).filled >= 0
  {
    if events != [] {
      StatusAgreesWithQuantity(order, events[..|events| - 1]);
    }
  }

  /** Only unknown kinds follow. */
  predicate LastOfKnownKind(events: seq<Event>, k: nat) {
    k < |events| && !events[k].kind.OtherKind? && forall j :: k < j < |events| ==> events[j].kind.OtherKind?
  }

  /**
    Among distinct events the last of a known kind decides the status: a partial fill by whether all is filled then, a
    rejection with its reason. Without one the order stays as it is.
   */
  lemma {:induction false} StatusIsOfLastEvent(order: Order, events: seq<Event>, k: nat)
    requires order.processed == [] && DistinctIds(events) && order.filled <= order.quantity
    ensures var after := ApplyAll(order, events);
            && after.filled <= after.quantity == order.quantity
            && (LastOfKnownKind(events, k) ==>
                  && (events[k].kind == FullFill ==> after.status == Filled && after.filled == order.quantity)
                  && (events[k].kind == Cancel ==> after.status == Cancelled)
                  && (events[k].kind == Reject ==>
                      after.status == Rejected && after.rejectReason == Some(events[k].reason))
                  && (events[k].kind == PartialFill ==>
                        after.status == if after.filled == order.quantity then Filled else PartiallyFilled))
            && ((forall j :: 0 <= j < |events| ==> events[j].kind.OtherKind?) ==>
                  after.status == order.status && after.filled == order.filled
                    && after.rejectReason == order.rejectReason)
  {
    if events != [] {
      var n := |events| - 1;
      StatusIsOfLastEvent(order, events[..n], k);
      SeenIffRepeats(order, events[..n], events[n]);
      assert !Repeats(events[..n], events[n]);
      assert k < n && LastOfKnownKind(events, k) ==> LastOfKnownKind(events[..n], k);
    }
  }

  // Closed orders -------------------------------------------------------------------------------------------------

  /** Kinds of events that leave a cancelled or rejected order in its status. */
  predicate Keeps(status: OrderStatus, kind: EventKind) {
    kind.OtherKind? || (status.Cancelled? && kind.Cancel?) || (status.Rejected? && kind.Reject?)
  }

  /** The i-th event cannot reopen the order: its kind keeps the status, or it is recognised as processed. */
  predicate Harmless(order: Order, events: seq<Event>, i: nat)
    requires i < |events|
  {
    Keeps(order.status, events[i].kind) || Seen(order.processed, events[i]) || Repeats(events[..i], events[i])
  }

  predicate StillIn(order: Order, events: seq<Event>, i: nat)
    requires i <= |events|
  {
    ApplyAll(order, events[..i]).status == order.status
  }

  lemma StepKeepsStatusIff(order: Order, events: seq<Event>, i: nat)
    requires order.status.Cancelled? || order.status.Rejected?
    requires i < |events| && StillIn(order, events, i)
    ensures StillIn(order, events, i + 1) <==> Harmless(order, events, i)
  {
    assert events[..i + 1][..i] == events[..i];
    SeenIffRepeats(order, events[..i], events[i]);
  }

  /**
    A cancelled or rejected order keeps its status through every moment of a stream if and only if each event repeats
    that very status, is of an unknown kind, was processed before, or repeats an earlier id of the stream.
   */
  lemma {:induction false} ClosedOrderStaysClosedIff(order: Order, events: seq<Event>, n: nat)
    requires order.status.Cancelled? || order.status.Rejected?
    requires n <= |events|
    ensures (forall i :: 0 <= i <= n ==> StillIn(order, events, i)) <==>
            (forall i :: 0 <= i < n ==> Harmless(order, events, i))
  {
    if n == 0 {
      assert events[..0] == [];
    } else {
      ClosedOrderStaysClosedIff(order, events, n - 1);
      if forall i :: 0 <= i < n ==> StillIn(order, events, i) {
        assert StillIn(order, events, n - 1);
        StepKeepsStatusIff(order, events, n - 1);
      }
    }
  }

  /** Without a terminal-state guard a cancelled order still fills. */
  lemma CancelledOrderStillFills(order: Order)
    requires order.quantity > 0 && order.processed == []
    ensures var events := [Event(Cancel, Some("c"), 0, ""), Event(FullFill, Some("f"), 0, "")];
            ApplyAll(order, events[..1]).status.Cancelled? && ApplyAll(order, events).status.Filled?
  {
    var events := [Event(Cancel, Some("c"), 0, ""), Event(FullFill, Some("f"), 0, "")];
    assert events[..1][..0] == [];
    assert ApplyAll(order, events[..1]) == Apply(order, events[0]);
  }
}
