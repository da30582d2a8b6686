/**
 * CreateOrderCommand: `execute` creates an order through the service and
 * remembers it; `undo` asks the service to cancel that order, which only
 * succeeds while it is still Pending.
 */
module Commands {
  import opened Wrappers
  import opened OrderStates
  import opened OrderItems
  import opened Orders
  import opened PendingProcessing
  import opened OrderServices

  class CreateOrderCommand {
    const service: OrderService
    const items: seq<Item>
    /** The order created by the last `execute`, None (null) before any. */
    var createdOrder: Option<Order>

    constructor (service: OrderService, items: seq<Item>)
      ensures this.service == service && this.items == items
      ensures createdOrder == None
    {
      this.service := service;
      this.items := items;
      createdOrder := None;
    }

    /** execute: creates an order from the command's items and records it. */
    method Execute(id: string, now: nat)
      modifies this, service, service.Observers()
      ensures createdOrder.Some? && fresh(createdOrder.value)
      ensures createdOrder.value.id == id && createdOrder.value.items == items
      ensures createdOrder.value.currentState == PendingState
      ensures createdOrder.value.createdAt == now && createdOrder.value.lastModifiedAt == now
      ensures createdOrder.value.Valid() && createdOrder.value.history == [PendingState]
      ensures createdOrder.value.totalAmount == SumOfQuantityTimesPrice(items)
      ensures service.orders == old(service.orders)[id := createdOrder.value]
      ensures service.observers == old(service.observers)
      ensures service.notifications == old(service.notifications) + [createdOrder.value]
      ensures forall p :: p in service.observers ==>
                p.tasks == old(p.tasks) + Repeat(Task(createdOrder.value, DelayMinutes), multiset(service.observers)[p])
      ensures old(service.Valid()) ==> service.Valid()
      ensures old(service.Tracked()) ==> service.Tracked()
    {
      var order := service.CreateOrder(items, id, now);
      createdOrder := Some(order);
    }

    /**
     * undo: nothing before `execute`; afterwards a cancellation of the
     * created order's id. The order stored under that id is cancelled,
     * stamped and passed to the observers if it is Pending; otherwise
     * nothing changes and nobody is notified.
     */
    method Undo(now: nat)
      modifies service, service.Observers()
      modifies if createdOrder.Some? && createdOrder.value.id in service.orders
               then {service.orders[createdOrder.value.id]} else {}
      ensures service.orders == old(service.orders) && service.observers == old(service.observers)
      ensures forall p :: p in service.observers ==> p.tasks == old(p.tasks)
      ensures createdOrder.None? ==> service.notifications == old(service.notifications)
      ensures createdOrder.Some? && createdOrder.value.id in service.orders ==>
                var o := service.orders[createdOrder.value.id];
                && o.currentState == CancelOutcome(old(o.currentState))
                && (old(o.GetStatus()) == Pending ==>
                      && o.lastModifiedAt == now
                      && o.history == old(o.history) + [CancelledState]
                      && service.notifications == old(service.notifications) + [o])
                && (old(o.GetStatus()) != Pending ==>
                      unchanged(o) && service.notifications == old(service.notifications))
      ensures createdOrder.Some? && createdOrder.value.id !in service.orders ==>
                service.notifications == old(service.notifications)
      ensures old(service.Valid()) ==> service.Valid()
      ensures old(service.Tracked()) ==> service.Tracked()
    {
      if createdOrder.Some? {
        var _ := service.CancelOrder(createdOrder.value.id, now);
      }
    }

    /** getCreatedOrderId: None (null) before `execute`, the created order's id afterwards. */
    function GetCreatedOrderId(): (r: Option<string>)
      reads this
      ensures r.Some? <==> createdOrder.Some?
      ensures r.Some? ==> r.value == createdOrder.value.id
    {
      match createdOrder
      case None => None
      case Some(order) => Some(order.id)
    }
  }
}
