/**
 * OrderService: the in-memory store of orders by id and the list of
 * registered observers. Creating an order stores it and notifies every
 * observer; cancelling succeeds only for a Pending order and notifies again.
 * The observers are PendingOrderProcessor objects; a processor registered
 * twice is notified twice.
 */
module OrderServices {
  import opened Wrappers
  import opened OrderStates
  import opened OrderItems
  import opened Orders
  import OrderFactory
  import opened PendingProcessing

  /** `n` copies of `x`. */
  function Repeat<T>(x: T, n: nat): (r: seq<T>)
    ensures |r| == n
    ensures forall i :: 0 <= i < n ==> r[i] == x
  {
    if n == 0 then [] else Repeat(x, n - 1) + [x]
  }

  /** Tasks that `n` notifications arm on one processor, for an order whose status is `status`. */
  function ArmedBy(status: OrderStatus, order: Order, n: nat): seq<Task> {
    if status == Pending then Repeat(Task(order, DelayMinutes), n) else []
  }

  /** The state cancelOrder leaves behind, given the state it reads. */
  function CancelOutcome(s: OrderState): OrderState {
    if s.Status() == Pending then CancelledState else s
  }

  /**
   * The race between a cancellation and a deferred task: whichever of the two
   * changes the order first, the other finds it no longer Pending and does nothing.
   */
  lemma FirstOfCancelAndFireWins(s: OrderState)
    ensures CancelOutcome(s) != s ==> FireOutcome(CancelOutcome(s)) == CancelOutcome(s) == CancelledState
    ensures FireOutcome(s) != s ==> CancelOutcome(FireOutcome(s)) == FireOutcome(s) == ProcessingState
    ensures CancelOutcome(s) != s <==> FireOutcome(s) != s
  {
  }

  /** A cancellation that changes the state takes a transition the state machine allows. */
  lemma CancelIsPermitted(s: OrderState)
    ensures CancelOutcome(s) != s ==> CanTransitionTo(s, CancelOutcome(s))
  {
  }

  class OrderService {
    var orders: map<string, Order>
    var observers: seq<PendingOrderProcessor>
    /** Every order passed to the observers, in notification order. */
    ghost var notifications: seq<Order>

    /** Every order is stored under its own id. */
    ghost predicate Valid()
      reads this
    {
      forall id :: id in orders ==> orders[id].id == id
    }

    /**
     * The history of every stored order is a path of allowed transitions
     * that starts at Pending, where the factory puts every new order.
     */
    ghost predicate Tracked()
      reads this, orders.Values
    {
      forall id :: id in orders ==> orders[id].Valid() && orders[id].history[0] == PendingState
    }

    ghost function Observers(): set<PendingOrderProcessor>
      reads this
    {
      set p | p in observers
    }

    constructor ()
      ensures Valid() && Tracked()
      ensures orders == map[] && observers == [] && notifications == []
    {
      orders := map[];
      observers := [];
      notifications := [];
    }

    /** addObserver: appends to the observer list and changes nothing else. */
    method AddObserver(observer: PendingOrderProcessor)
      modifies this
      ensures observers == old(observers) + [observer]
      ensures orders == old(orders) && notifications == old(notifications)
      ensures old(Valid()) ==> Valid()
      ensures old(Tracked()) ==> Tracked()
    {
      observers := observers + [observer];
    }

    /** notifyObservers: calls every observer once per registration, in registration order. */
    method NotifyObservers(order: Order)
      modifies this, Observers()
      ensures orders == old(orders) && observers == old(observers)
      ensures notifications == old(notifications) + [order]
      ensures forall p :: p in observers ==>
                p.tasks == old(p.tasks) + ArmedBy(order.GetStatus(), order, multiset(observers)[p])
    {
      ghost var status := order.GetStatus();
      notifications := notifications + [order];
      var i := 0;
      while i < |observers|
        invariant 0 <= i <= |observers|
        invariant orders == old(orders) && observers == old(observers)
        invariant notifications == old(notifications) + [order]
        invariant order.GetStatus() == status
        invariant forall p :: p in observers ==> p.tasks == old(p.tasks) + ArmedBy(status, order, multiset(observers[..i])[p])
      {
        var p := observers[i];
        assert observers[..i + 1] == observers[..i] + [p];
        p.OnOrderStatusChanged(order);
        i := i + 1;
      }
      assert observers[..i] == observers;
    }

    /**
     * createOrder: the factory's new Pending order is stored under its id,
     * every observer is notified, so each processor arms one task per
     * registration, and the order is returned.
     */
    method CreateOrder(items: seq<Item>, id: string, now: nat) returns (order: Order)
      modifies this, Observers()
      ensures fresh(order)
      ensures order.id == id && order.items == items && order.currentState == PendingState
      ensures order.totalAmount == CalculateTotalAmount(items) == SumOfQuantityTimesPrice(items)
      ensures order.createdAt == now && order.lastModifiedAt == now
      ensures order.Valid() && order.history == [PendingState]
      ensures orders == old(orders)[id := order] && observers == old(observers)
      ensures notifications == old(notifications) + [order]
      ensures forall p :: p in observers ==> p.tasks == old(p.tasks) + Repeat(Task(order, DelayMinutes), multiset(observers)[p])
      ensures old(Valid()) ==> Valid()
      ensures old(Tracked()) ==> Tracked()
    {
      order := OrderFactory.CreateOrder(items, id, now);
      orders := orders[order.id := order];
      NotifyObservers(order);
    }

    /** getOrder: present exactly for a stored id, and then the stored order. */
    function GetOrder(id: string): (r: Option<Order>)
      reads this
      ensures r.Some? <==> id in orders
      ensures r.Some? ==> r.value == orders[id]
    {
      if id in orders then Some(orders[id]) else None
    }

    /** getAllOrders: a fresh list holding each stored order exactly once, in no particular order. */
    method GetAllOrders() returns (all: seq<Order>)
      requires Valid()
      ensures forall o :: o in all <==> o in orders.Values
      ensures |all| == |orders|
      ensures forall i, j :: 0 <= i < j < |all| ==> all[i] != all[j]
    {
      all := [];
      var remaining := orders.Keys;
      while remaining != {}
        invariant remaining <= orders.Keys
        invariant |all| + |remaining| == |orders|
        invariant forall i :: 0 <= i < |all| ==> all[i].id in orders && orders[all[i].id] == all[i] && all[i].id !in remaining
        invariant forall id :: id in orders && id !in remaining ==> orders[id] in all
        invariant forall i, j :: 0 <= i < j < |all| ==> all[i] != all[j]
        decreases |remaining|
      {
        var id :| id in remaining;
        all := all + [orders[id]];
        remaining := remaining - {id};
      }
    }

    /** getOrdersByStatus: each stored order whose current status is `status`, exactly once. */
    method GetOrdersByStatus(status: OrderStatus) returns (matching: seq<Order>)
      requires Valid()
      ensures forall o :: o in matching <==> o in orders.Values && o.GetStatus() == status
      ensures forall i, j :: 0 <= i < j < |matching| ==> matching[i] != matching[j]
    {
      matching := [];
      var remaining := orders.Keys;
      while remaining != {}
        invariant remaining <= orders.Keys
        invariant forall i :: 0 <= i < |matching| ==>
                    matching[i].id in orders && orders[matching[i].id] == matching[i]
                    && matching[i].id !in remaining && matching[i].GetStatus() == status
        invariant forall id :: id in orders && id !in remaining && orders[id].GetStatus() == status ==> orders[id] in matching
        invariant forall i, j :: 0 <= i < j < |matching| ==> matching[i] != matching[j]
        decreases |remaining|
      {
        var id :| id in remaining;
        if orders[id].GetStatus() == status {
          matching := matching + [orders[id]];
        }
        remaining := remaining - {id};
      }
    }

    /**
     * cancelOrder: an unknown id or an order that is not Pending gives false
     * and changes nothing; a Pending order is set to Cancelled, the observers
     * are notified (they arm nothing, the order being no longer Pending) and
     * the answer is true.
     */
    method CancelOrder(id: string, now: nat) returns (cancelled: bool)
      modifies this, (if id in orders then {orders[id]} else {}), Observers()
      ensures orders == old(orders) && observers == old(observers)
      ensures cancelled <==> id in old(orders) && old(orders[id].GetStatus()) == Pending
      ensures id in orders ==> orders[id].currentState == CancelOutcome(old(orders[id].currentState))
      ensures cancelled ==>
                && orders[id].lastModifiedAt == now
                && orders[id].history == old(orders[id].history) + [CancelledState]
                && notifications == old(notifications) + [orders[id]]
      ensures !cancelled ==> notifications == old(notifications) && (id in orders ==> unchanged(orders[id]))
      ensures forall p :: p in observers ==> p.tasks == old(p.tasks)
      ensures id in orders && old(orders[id].Valid()) ==> orders[id].Valid()
      ensures old(Valid()) ==> Valid()
      ensures old(Tracked()) ==> Tracked()
    {
      cancelled := false;
      match GetOrder(id) {
        case None =>
        case Some(order) =>
          if order.GetStatus() == Pending {
            var r := order.SetState(CancelledState, now);
            assert r.Pass?;
            NotifyObservers(order);
            cancelled := true;
          }
      }
    }
  }

  /**
   * A stored order that is Pending has never changed state: no transition
   * leads back into Pending, and every stored order started there.
   */
  lemma PendingOrderNeverMoved(service: OrderService, id: string)
    requires service.Tracked() && id in service.orders
    ensures service.orders[id].GetStatus() == Pending <==> service.orders[id].history == [PendingState]
  {
    var h := service.orders[id].history;
    if service.orders[id].GetStatus() == Pending {
      StatusIsOneToOne(h[|h| - 1], PendingState);
      PathShape(h, |h| - 1);
      assert h == [h[0]];
    }
  }
}
