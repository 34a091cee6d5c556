/**
 * The order store: each user's orders, most recent first, kept in a map keyed
 * by user id; placing and cancelling orders; and the delivery status shown
 * for an order, derived from its age unless it was cancelled.
 *
 * Times are integer milliseconds (an order's `date` and `cancelledAt` are the
 * instants the source records as ISO strings). The clock and the order-id
 * generator are parameters.
 */
module Orders {
  import opened Options
  import opened CartStore
  import opened Auth

  const DayMs := 86400000
  /** A quarter of a day: six hours. */
  const SixHoursMs := 21600000

  datatype Status = OrderPlaced | Confirmed | Shipped | OutForDelivery | Delivered | Cancelled

  /** The five delivery steps, in order. `Cancelled` is not one of them. */
  const OrderSteps: seq<Status> := [OrderPlaced, Confirmed, Shipped, OutForDelivery, Delivered]

  /** The status as the store records and displays it. */
  function Label(s: Status): (r: string)
    ensures |r| > 0
  {
    match s
    case OrderPlaced => "Order Placed"
    case Confirmed => "Confirmed"
    case Shipped => "Shipped"
    case OutForDelivery => "Out for Delivery"
    case Delivered => "Delivered"
    case Cancelled => "Cancelled"
  }

  /** Distinct statuses have distinct labels, so comparing labels is comparing statuses. */
  lemma LabelInjective(s: Status, t: Status)
    requires Label(s) == Label(t)
    ensures s == t
  {
  }

  /** The position of a status among the delivery steps, or -1 for a status that is not a step. */
  function StepIndex(s: Status): (i: int)
    ensures -1 <= i < |OrderSteps|
    ensures i >= 0 ==> OrderSteps[i] == s
    ensures i == -1 <==> s !in OrderSteps
  {
    match s
    case OrderPlaced => 0
    case Confirmed => 1
    case Shipped => 2
    case OutForDelivery => 3
    case Delivered => 4
    case Cancelled => -1
  }

  /**
   * The simulated delivery status of an order `age` milliseconds old. Every
   * threshold is a strict comparison.
   */
  function FakeStatus(age: int): (s: Status)
    ensures s in OrderSteps && s != Cancelled
    ensures s == Delivered <==> age > 6 * DayMs
    ensures s == OutForDelivery <==> 4 * DayMs < age <= 6 * DayMs
    ensures s == Shipped <==> 2 * DayMs < age <= 4 * DayMs
    ensures s == Confirmed <==> SixHoursMs < age <= 2 * DayMs
    ensures s == OrderPlaced <==> age <= SixHoursMs
  {
    if age > 6 * DayMs then Delivered
    else if age > 4 * DayMs then OutForDelivery
    else if age > 2 * DayMs then Shipped
    else if age > SixHoursMs then Confirmed
    else OrderPlaced
  }

  /**
   * At exactly six hours an order is still placed and at exactly two days it
   * is still confirmed; five days old it is out for delivery, seven days old delivered.
   */
  lemma FakeStatusBoundaries()
    ensures FakeStatus(SixHoursMs) == OrderPlaced && FakeStatus(SixHoursMs + 1) == Confirmed
    ensures FakeStatus(2 * DayMs) == Confirmed && FakeStatus(2 * DayMs + 1) == Shipped
    ensures FakeStatus(4 * DayMs) == Shipped && FakeStatus(6 * DayMs) == OutForDelivery
    ensures FakeStatus(5 * DayMs) == OutForDelivery && FakeStatus(7 * DayMs) == Delivered
  {
  }

  /** An older order is never at an earlier step. */
  lemma FakeStatusMonotone(a1: int, a2: int)
    requires a1 <= a2
    ensures 0 <= StepIndex(FakeStatus(a1)) <= StepIndex(FakeStatus(a2))
  {
  }

  /** A delivery address as the address form confirms it. */
  datatype DeliveryAddress = DeliveryAddress(
    fullName: string,
    phone: string,
    line1: string,
    line2: string,
    city: string,
    state: string,
    pin: string,
    kind: string)

  datatype Order = Order(
    id: int,
    userId: string,
    items: seq<Line>,
    total: int,
    itemCount: int,
    address: Option<DeliveryAddress>,
    date: int,
    status: Status,
    cancelledAt: Option<int>)

  /**
   * The order as it is shown at time `now`: a cancelled order as stored,
   * any other with its status re-derived from its age.
   */
  function WithStatus(o: Order, now: int): (r: Order)
    ensures r.(status := o.status) == o
    ensures r.status == Cancelled <==> o.status == Cancelled
    ensures o.status != Cancelled ==> r.status == FakeStatus(now - o.date)
  {
    if o.status == Cancelled then o else o.(status := FakeStatus(now - o.date))
  }

  /** Reading an order later never shows it at an earlier step, and a cancelled order stays cancelled. */
  lemma WithStatusLater(o: Order, t1: int, t2: int)
    requires t1 <= t2
    ensures WithStatus(o, t1).status == Cancelled <==> WithStatus(o, t2).status == Cancelled
    ensures o.status != Cancelled ==>
              StepIndex(WithStatus(o, t1).status) <= StepIndex(WithStatus(o, t2).status)
  {
    if o.status != Cancelled {
      FakeStatusMonotone(t1 - o.date, t2 - o.date);
    }
  }

  /** The orders stored under `userId`, or none when the user has no entry. */
  function ListOf(all: map<string, seq<Order>>, userId: string): (r: seq<Order>)
    ensures userId !in all ==> r == []
    ensures userId in all ==> r == all[userId]
  {
    if userId in all then all[userId] else []
  }

  /** Every stored order sits under the id of the user who placed it. */
  predicate Scoped(all: map<string, seq<Order>>) {
    forall u :: u in all ==> forall i :: 0 <= i < |all[u]| ==> all[u][i].userId == u
  }

  /** The order `placeOrder` builds: placed now, by the session user. */
  function NewOrder(s: Session, id: int, now: int, items: seq<Line>, total: int, itemCount: int,
                    address: Option<DeliveryAddress>): (o: Order)
    ensures o.id == id && o.userId == s.id && o.date == now
    ensures o.status == OrderPlaced && o.cancelledAt.None?
    ensures o.items == items && o.total == total && o.itemCount == itemCount && o.address == address
  {
    Order(id, s.id, items, total, itemCount, address, now, OrderPlaced, None)
  }

  /** The map after `o` is placed by `userId`. */
  function Placed(all: map<string, seq<Order>>, userId: string, o: Order): (r: map<string, seq<Order>>)
    ensures r.Keys == all.Keys + {userId}
    ensures ListOf(r, userId) == [o] + ListOf(all, userId)
    ensures forall u :: u != userId ==> ListOf(r, u) == ListOf(all, u)
    ensures Scoped(all) && o.userId == userId ==> Scoped(r)
  {
    all[userId := [o] + ListOf(all, userId)]
  }

  /** `order` marked cancelled at `now`. */
  function Cancel(o: Order, now: int): (r: Order)
    ensures r.status == Cancelled && r.cancelledAt == Some(now)
    ensures r.(status := o.status, cancelledAt := o.cancelledAt) == o
  {
    o.(status := Cancelled, cancelledAt := Some(now))
  }

  /** A user's list with every order carrying `orderId` cancelled. */
  function CancelMatching(orders: seq<Order>, orderId: int, now: int): (r: seq<Order>)
    ensures |r| == |orders|
    ensures forall i :: 0 <= i < |orders| && orders[i].id == orderId ==> r[i] == Cancel(orders[i], now)
    ensures forall i :: 0 <= i < |orders| && orders[i].id != orderId ==> r[i] == orders[i]
  {
    seq(|orders|, i requires 0 <= i < |orders| =>
      if orders[i].id == orderId then Cancel(orders[i], now) else orders[i])
  }

  /** The map after `userId` cancels `orderId` at `now`. */
  function CancelledIn(all: map<string, seq<Order>>, userId: string, orderId: int, now: int)
    : (r: map<string, seq<Order>>)
    ensures r.Keys == all.Keys + {userId}
    ensures ListOf(r, userId) == CancelMatching(ListOf(all, userId), orderId, now)
    ensures forall u :: u != userId ==> ListOf(r, u) == ListOf(all, u)
    ensures Scoped(all) ==> Scoped(r)
  {
    all[userId := CancelMatching(ListOf(all, userId), orderId, now)]
  }

  /** What `myOrders` shows at `now`: the session user's list, in stored order, each through `WithStatus`. */
  function MyOrders(all: map<string, seq<Order>>, session: Option<Session>, now: int): (r: seq<Order>)
    ensures session.None? ==> r == []
    ensures session.Some? ==> |r| == |ListOf(all, session.value.id)|
    ensures session.Some? ==> forall i :: 0 <= i < |r| ==> r[i] == WithStatus(ListOf(all, session.value.id)[i], now)
  {
    match session
    case None => []
    case Some(s) =>
      var orders := ListOf(all, s.id);
      seq(|orders|, i requires 0 <= i < |orders| => WithStatus(orders[i], now))
  }

  /**
   * A cancelled order is shown cancelled at every later read, whatever its
   * status was when it was cancelled; every other order of the user is shown
   * exactly as before the cancellation.
   */
  lemma {:induction false} CancelShownCancelled(all: map<string, seq<Order>>, s: Session, orderId: int,
                                                at: int, now: int)
    ensures var before := MyOrders(all, Some(s), now);
            var after := MyOrders(CancelledIn(all, s.id, orderId, at), Some(s), now);
            |after| == |before| &&
            forall i :: 0 <= i < |after| ==>
              if before[i].id == orderId
              then after[i].status == Cancelled && after[i].cancelledAt == Some(at)
              else after[i] == before[i]
  {
    var orders := ListOf(all, s.id);
    var cancelled := CancelMatching(orders, orderId, at);
    assert ListOf(CancelledIn(all, s.id, orderId, at), s.id) == cancelled;
    forall i | 0 <= i < |orders|
      ensures WithStatus(orders[i], now).id == orders[i].id
    {
    }
  }

  /** Placing an order shows it first, with the delivery step derived from its age. */
  lemma PlacedShownFirst(all: map<string, seq<Order>>, s: Session, o: Order, now: int)
    requires o.userId == s.id && o.status != Cancelled
    ensures var shown := MyOrders(Placed(all, s.id, o), Some(s), now);
            |shown| == |MyOrders(all, Some(s), now)| + 1 &&
            shown[0] == o.(status := FakeStatus(now - o.date)) &&
            shown[1..] == MyOrders(all, Some(s), now)
  {
    var shown := MyOrders(Placed(all, s.id, o), Some(s), now);
    var prev := MyOrders(all, Some(s), now);
    assert ListOf(Placed(all, s.id, o), s.id)[0] == o;
    forall i | 0 <= i < |prev|
      ensures shown[1..][i] == prev[i]
    {
      assert ListOf(Placed(all, s.id, o), s.id)[i + 1] == ListOf(all, s.id)[i];
    }
  }

  class OrderStore {
    var allOrders: map<string, seq<Order>>

    ghost predicate Valid()
      reads this
    {
      Scoped(allOrders)
    }

    constructor (saved: map<string, seq<Order>>)
      ensures allOrders == saved
    {
      allOrders := saved;
    }

    /**
     * Places an order for the session user and returns it; with no session
     * it returns nothing and changes nothing.
     */
    method PlaceOrder(session: Option<Session>, newId: int, now: int, items: seq<Line>, total: int,
                      itemCount: int, address: Option<DeliveryAddress>) returns (r: Option<Order>)
      modifies this
      ensures session.None? ==> r.None? && allOrders == old(allOrders)
      ensures session.Some? ==>
                r == Some(NewOrder(session.value, newId, now, items, total, itemCount, address)) &&
                allOrders == Placed(old(allOrders), session.value.id, r.value)
      ensures old(Valid()) ==> Valid()
    {
      if session.None? {
        return None;
      }
      var o := NewOrder(session.value, newId, now, items, total, itemCount, address);
      allOrders := Placed(allOrders, session.value.id, o);
      r := Some(o);
    }

    /**
     * Marks every order of the session user with id `orderId` cancelled at
     * `now`, whatever its status; with no session it changes nothing.
     */
    method CancelOrder(session: Option<Session>, orderId: int, now: int)
      modifies this
      ensures session.None? ==> allOrders == old(allOrders)
      ensures session.Some? ==> allOrders == CancelledIn(old(allOrders), session.value.id, orderId, now)
      ensures old(Valid()) ==> Valid()
    {
      if session.Some? {
        allOrders := CancelledIn(allOrders, session.value.id, orderId, now);
      }
    }
  }
}
