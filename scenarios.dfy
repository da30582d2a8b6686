/**
 * Whole-lifecycle consequences of the contracts above: a service with one
 * PendingOrderProcessor registered, driven through creation, cancellation,
 * the firing of deferred tasks and manual transitions. Each method builds
 * its own objects; its postcondition is what any run of that sequence yields.
 */
module Scenarios {
  import opened Wrappers
  import opened OrderStates
  import opened OrderItems
  import opened Orders
  import opened OrderFactory
  import opened PendingProcessing
  import opened OrderServices
  import opened Commands

  /**
   * Two items, 2 × 10.00 and 1 × 5.00, total 25.00. A cancellation before
   * the deferred task fires succeeds, and the armed task then leaves the order
   * Cancelled: the cancellation wins the race.
   */
  method CancelBeforeDeferredAdvance(id: string, t0: nat, t1: nat, t2: nat)
    returns (total: Amount, cancelled: bool, finalStatus: OrderStatus)
    ensures total == 2500
    ensures cancelled && finalStatus == Cancelled
  {
    var first := CreateOrderItem(Some("SKU-1"), 2, Some(1000));
    var second := CreateOrderItem(Some("SKU-2"), 1, Some(500));
    assert "SKU-1"[0] == 'S' && "SKU-2"[0] == 'S';
    assert first == Success(OrderItem("SKU-1", 2, 1000, 2000));
    assert second == Success(OrderItem("SKU-2", 1, 500, 500));
    var items: seq<Item> := [first.value, second.value];
    assert CalculateTotalAmount([first.value]) == 2000 by {
      assert [first.value][..0] == [];
    }
    assert CalculateTotalAmount(items) == 2500 by {
      assert items[..1] == [first.value];
    }

    var service := new OrderService();
    var processor := new PendingOrderProcessor();
    service.AddObserver(processor);
    var order := service.CreateOrder(items, id, t0);
    total := order.totalAmount;
    assert multiset(service.observers)[processor] == 1;
    assert processor.tasks == [Task(order, DelayMinutes)];

    cancelled := service.CancelOrder(id, t1);
    var fired := processor.Fire(t2);
    finalStatus := order.GetStatus();
  }

  /**
   * The deferred task fires first and moves the order to Processing; a later
   * cancellation is refused and the order stays Processing.
   */
  method DeferredAdvanceBeforeCancel(items: seq<Item>, id: string, t0: nat, t1: nat, t2: nat)
    returns (cancelled: bool, finalStatus: OrderStatus, lastModified: nat)
    ensures !cancelled && finalStatus == Processing && lastModified == t1
  {
    var service := new OrderService();
    var processor := new PendingOrderProcessor();
    service.AddObserver(processor);
    var order := service.CreateOrder(items, id, t0);
    assert multiset(service.observers)[processor] == 1;

    var fired := processor.Fire(t1);
    cancelled := service.CancelOrder(id, t2);
    finalStatus := order.GetStatus();
    lastModified := order.lastModifiedAt;
  }

  /**
   * A processor registered twice arms two tasks for one order; the second
   * firing finds the order no longer Pending and leaves it as the first left it.
   */
  method DuplicateTaskFiresOnce(items: seq<Item>, id: string, t0: nat, t1: nat, t2: nat)
    returns (armed: nat, finalStatus: OrderStatus, lastModified: nat)
    ensures armed == 2 && finalStatus == Processing && lastModified == t1
  {
    var service := new OrderService();
    var processor := new PendingOrderProcessor();
    service.AddObserver(processor);
    service.AddObserver(processor);
    var order := service.CreateOrder(items, id, t0);
    assert multiset(service.observers)[processor] == 2;
    armed := |processor.tasks|;

    var fired := processor.Fire(t1);
    fired := processor.Fire(t2);
    finalStatus := order.GetStatus();
    lastModified := order.lastModifiedAt;
  }

  /**
   * Driving an order by hand through every forward transition succeeds each
   * time; a cancellation of the Delivered order is then refused.
   */
  method ManualLifecycle(items: seq<Item>, id: string, now: nat)
    returns (steps: seq<Outcome<TransitionError>>, cancel: Outcome<TransitionError>, finalStatus: OrderStatus)
    ensures steps == [Pass, Pass, Pass]
    ensures cancel == Fail(InvalidTransition(Delivered, Cancelled))
    ensures finalStatus == Delivered
  {
    var order := CreateOrder(items, id, now);
    var a := order.SetState(ProcessingState, now + 1);
    var b := order.SetState(ShippedState, now + 2);
    var c := order.SetState(DeliveredState, now + 3);
    steps := [a, b, c];
    cancel := order.SetState(CancelledState, now + 4);
    finalStatus := order.GetStatus();
  }

  /** A service holding two new orders under `a` and `b`, the one under `a` cancelled. */
  method TwoOrdersOneCancelled(items: seq<Item>, a: string, b: string, now: nat)
    returns (service: OrderService, oa: Order, ob: Order)
    requires a != b
    ensures fresh(service) && service.Valid()
    ensures service.orders == map[a := oa, b := ob]
    ensures oa.GetStatus() == Cancelled && ob.GetStatus() == Pending
  {
    service := new OrderService();
    oa := service.CreateOrder(items, a, now);
    ob := service.CreateOrder(items, b, now);
    assert service.orders == map[a := oa, b := ob] && oa != ob;
    var cancelled := service.CancelOrder(a, now + 1);
  }

  /** Two orders, one of them cancelled: exactly the other is listed as Pending. */
  method PendingAfterOneCancellation(items: seq<Item>, a: string, b: string, now: nat)
    returns (pendingIds: set<string>)
    requires a != b
    ensures pendingIds == {b}
  {
    var service, oa, ob := TwoOrdersOneCancelled(items, a, b, now);
    var pending := service.GetOrdersByStatus(Pending);
    assert ob in pending by {
      assert service.orders[b] == ob;
    }
    forall o | o in pending
      ensures o == ob
    {
      var k :| k in service.orders && service.orders[k] == o;
    }
    pendingIds := set o | o in pending :: o.id;
    assert ob.id in pendingIds;
  }

  /** A command's undo after its execute cancels the order it created, while that order is still Pending. */
  method ExecuteThenUndo(items: seq<Item>, id: string, t0: nat, t1: nat)
    returns (createdId: Option<string>, finalStatus: OrderStatus)
    ensures createdId == Some(id) && finalStatus == Cancelled
  {
    var service := new OrderService();
    var command := new CreateOrderCommand(service, items);
    command.Execute(id, t0);
    command.Undo(t1);
    createdId := command.GetCreatedOrderId();
    finalStatus := command.createdOrder.value.GetStatus();
  }
}
