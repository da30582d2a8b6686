/** StandardOrderFactory: new orders start Pending; items come from the OrderItem constructor. */
module OrderFactory {
  import opened Wrappers
  import opened OrderStates
  import opened OrderItems
  import opened Orders

  /** createOrder: a new Pending order over exactly the given items; the list itself is not checked. */
  method CreateOrder(items: seq<Item>, id: string, now: nat) returns (order: Order)
    ensures fresh(order)
    ensures order.id == id && order.items == items
    ensures order.currentState == PendingState && order.GetStatus() == Pending
    ensures order.totalAmount == CalculateTotalAmount(items) == SumOfQuantityTimesPrice(items)
    ensures items == [] ==> order.totalAmount == 0
    ensures order.createdAt == now && order.lastModifiedAt == now
    ensures order.Valid() && order.history == [PendingState]
  {
    order := new Order(id, items, PendingState, now);
  }

  /** createOrderItem: succeeds or fails exactly as the OrderItem constructor does. */
  function CreateOrderItem(productId: Option<string>, quantity: Int32, price: Option<Amount>): (r: Result<OrderItem, ItemError>)
    ensures r == NewOrderItem(productId, quantity, price)
  {
    NewOrderItem(productId, quantity, price)
  }
}
