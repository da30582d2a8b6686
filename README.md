# Order processing: a verified model

This project models the order lifecycle of a small Java order-processing
library in Dafny:

- the state machine of an order: five statuses, one state per status, the
  transition rule of each state (`canTransitionTo`) and the forward step each
  state takes when the order is processed (`processOrder`);
- the `OrderItem` value, whose constructor validates product id, quantity and
  unit price and caches the line total;
- the `Order` entity, with fixed items, a cached total, and a current state and
  last-modified time that only the guarded `setState` and `processOrder` change;
- `StandardOrderFactory`, which creates Pending orders and items;
- `OrderService`, an id → order store with a list of observers, notified on
  creation and on a successful cancellation. Only Pending orders can be cancelled;
- `PendingOrderProcessor`, which arms a deferred task for a Pending order and,
  when the armed task fires, re-reads the status and advances the order only if it is
  still Pending;
- `CreateOrderCommand`, an execute/undo pair over the service.

Modules, one per component: `Wrappers` (Option, Result, Outcome),
`OrderStates` (state.dfy), `OrderItems` (item.dfy), `Orders` (order.dfy),
`OrderFactory` (factory.dfy), `PendingProcessing` (processor.dfy),
`OrderServices` (service.dfy), `Commands` (command.dfy). `Scenarios`
(scenarios.dfy) drives the classes together through whole lifecycles: the race
between a cancellation and the deferred advance, advancing before a
cancellation, a duplicated task, a manual walk to Delivered, a status
filter after a cancellation, and undo after execute.

Representation choices:

- A state is a variant of the datatype `OrderState`. In the source, every
  `canTransitionTo` tests only the class of its target and each class has one
  status, so a state and its class carry the same information. `Status()` is
  `getStatus`, and `StateOf` is its inverse.
- A state's `processOrder` calls `order.setState(next)` or does nothing.
  `NextState(s)` gives that `next`, or None for the empty bodies. `Order.ProcessOrder`
  does the dispatch, because a Dafny module cannot import the module that imports it.
- `BigDecimal` amounts are exact decimals at scale 2, held as their
  unscaled value (cents). A quantity is a Java `int` (`Int32`). `hashCode` is
  computed with Java's 32-bit wrap-around.
- Orders hold `Item`s: order items that pass the constructor's checks. Java
  cannot create any other `OrderItem`, so an order's cached total is always
  Σ quantity × unit price.
- A `null` product id or price is `None`. A thrown `IllegalArgumentException` is a `Failure`. A thrown
  `IllegalStateException` is a `Fail` outcome that names both statuses.
- Clock readings (`LocalDateTime.now()`) and order ids (`UUID.randomUUID()`)
  are parameters.
- The executor is a FIFO queue of armed tasks with an explicit `Fire` step.
  Every task has the same 5-minute delay, so tasks fire in the order they were armed.
- Each order has a ghost `history` of its states. `Order.Valid()` says the
  history is a path of allowed transitions that ends in the current state.
  Every mutator preserves it. `OrderService.Tracked()` says this of every
  stored order, together with the fact that its history starts at Pending.

Where the code behaves differently from what a reader might expect, the model
follows the code:

- `ProcessingState` also allows Processing → Cancelled. A stricter reading,
  in which Cancelled is reachable only from Pending, would allow only
  Processing → Shipped.
- `StandardOrderFactory.createOrder` and the `Order` constructor accept an
  empty item list, giving an order with total 0. The comment on the
  `OrderFactory` interface promises to reject an empty list, but no code does.
- When a deferred task fires and advances the order, it does not notify the
  observers again.
- The delay is the constant 5 minutes in `PendingOrderProcessor`, not a
  configuration value.
- `OrderItemTest` expects quantity 0 and price 0.00 to be accepted. The
  constructor rejects both, and so does `NewOrderItem`.

## Model

| member | source | states |
|---|---|---|
| OrderStates.StatusesAreFive | src/main/java/com/order/processing/state/OrderStatus.java:7-13 | there are exactly five statuses, pairwise distinct |
| OrderStates.StateOf | src/main/java/com/order/processing/state/OrderState.java:28-33 | for every status there is a state whose getStatus is that status |
| OrderStates.StatusIsOneToOne | src/main/java/com/order/processing/state/OrderState.java:28-33 | two states have the same status iff they are the same state; StateOf inverts getStatus |
| OrderStates.RulesMatchTable | src/main/java/com/order/processing/state/OrderState.java:19-26 | canTransitionTo(from, to) holds iff (from, to) is a row of the transition table, a separate list of allowed status pairs |
| OrderStates.PendingStateRules | src/main/java/com/order/processing/state/PendingState.java:5-23 | Pending allows exactly Processing and Cancelled, processOrder moves to Processing, and getStatus is PENDING |
| OrderStates.ProcessingStateRules | src/main/java/com/order/processing/state/ProcessingState.java:5-23 | Processing allows exactly Shipped and Cancelled, processOrder moves to Shipped, and getStatus is PROCESSING |
| OrderStates.ShippedStateRules | src/main/java/com/order/processing/state/ShippedState.java:5-22 | Shipped allows only Delivered (Cancelled is refused), processOrder moves to Delivered, and getStatus is SHIPPED |
| OrderStates.DeliveredStateRules | src/main/java/com/order/processing/state/DeliveredState.java:5-20 | Delivered allows no target, processOrder changes nothing, and getStatus is DELIVERED |
| OrderStates.CancelledStateRules | src/main/java/com/order/processing/state/CancelledState.java:5-20 | Cancelled allows no target, processOrder changes nothing, and getStatus is CANCELLED |
| OrderStates.NothingEntersPending | src/main/java/com/order/processing/state/PendingState.java:14-17 | no state accepts Pending as a target |
| OrderStates.EndStatesHaveNoSuccessor | src/main/java/com/order/processing/state/OrderState.java:19-26 | a state allows no transition at all iff its status is Delivered or Cancelled |
| OrderStates.NextStateIsPermitted | src/main/java/com/order/processing/state/OrderState.java:11-17 | the state each processOrder hands to setState is allowed by that state's own rule, so processOrder never throws; only the end states have no forward step |
| OrderStates.EndStateIsFixed | src/main/java/com/order/processing/state/DeliveredState.java:7-9 | processing an order in an end state any number of times leaves its state unchanged |
| OrderStates.ForwardPathFromPending | src/main/java/com/order/processing/state/OrderState.java:11-17 | from Pending, repeated processing visits Pending, Processing, Shipped and Delivered, then stays at Delivered |
| OrderStates.TransitionRaisesRank | src/main/java/com/order/processing/state/OrderState.java:19-26 | every allowed transition strictly raises a fixed rank of the states, so the graph has no cycles |
| OrderStates.PathIsStrictlyRanked | src/main/java/com/order/processing/model/Order.java:36-46 | along any sequence of allowed transitions the ranks strictly increase, so no state is visited twice |
| OrderStates.PathShape | src/main/java/com/order/processing/model/Order.java:36-46 | along any sequence of allowed transitions, Pending can only come first and an end state can only come last |
| OrderItems.NewOrderItem | src/main/java/com/order/processing/model/OrderItem.java:14-38 | a null or blank id fails first, then a quantity ≤ 0, then a null or non-positive price; each error occurs exactly when its check is the first to fail. On success the item keeps the given fields and its total is price × quantity |
| OrderItems.ItemTotalIsPositive | src/main/java/com/order/processing/model/OrderItem.java:24-38 | a constructed item has a positive total of at least its unit price |
| OrderItems.TwoAtTenIsTwenty | src/test/java/com/order/processing/model/OrderItemTest.java:15-22 | 2 units at 10.00 construct an item with total 20.00 |
| OrderItems.ItemEqualsIsEquivalence | src/main/java/com/order/processing/model/OrderItem.java:60-68 | equals (product id, quantity, unit price) is reflexive, symmetric and transitive |
| OrderItems.EqualItemsAreIdentical | src/main/java/com/order/processing/model/OrderItem.java:60-68 | two constructed items are equal iff they are the same value, because the total is derived from the compared fields |
| OrderItems.HashCodeRespectsEquals | src/main/java/com/order/processing/model/OrderItem.java:70-73 | equal items have equal hash codes |
| Orders.TotalOfConcatenation | src/main/java/com/order/processing/model/Order.java:30-34 | the reduced total of a concatenation is the sum of the two totals |
| Orders.TotalIsSumOfLines | src/main/java/com/order/processing/model/Order.java:30-34 | for constructed items the reduced total equals the sum of quantity × unit price |
| Orders.TotalIsPositive | src/main/java/com/order/processing/model/Order.java:27-34 | the total of constructed items is 0 iff the list is empty, and positive otherwise |
| Orders.Order.constructor | src/main/java/com/order/processing/model/Order.java:21-34 | the order keeps a copy of the items and the given initial state, and lastModifiedAt equals createdAt. The cached total is the reduced sum and equals Σ quantity × unit price: 0 exactly for no items, positive otherwise |
| Orders.Order.SetState | src/main/java/com/order/processing/model/Order.java:36-46 | succeeds iff the current state allows the target; on success it sets the state and lastModifiedAt; otherwise it fails naming both statuses and changes nothing |
| Orders.Order.ProcessOrder | src/main/java/com/order/processing/model/Order.java:48-51 | the state becomes the current state's forward step (unchanged in an end state), and lastModifiedAt is stamped in every case |
| OrderFactory.CreateOrder | src/main/java/com/order/processing/factory/StandardOrderFactory.java:12-15 | a fresh order over exactly the given items, in Pending, with history [Pending] and total Σ quantity × unit price. The list is not checked, so an empty list gives an order with total 0 |
| OrderFactory.CreateOrderItem | src/main/java/com/order/processing/factory/StandardOrderFactory.java:17-20 | succeeds or fails exactly as the OrderItem constructor does |
| PendingProcessing.FireOnlyAdvancesPending | src/main/java/com/order/processing/observer/PendingOrderProcessor.java:28-32 | a firing task moves Pending to Processing and leaves every other state unchanged |
| PendingProcessing.FireIsIdempotent | src/main/java/com/order/processing/observer/PendingOrderProcessor.java:28-32 | firing twice gives the same state as firing once |
| PendingProcessing.FireIsPermitted | src/main/java/com/order/processing/observer/PendingOrderProcessor.java:28-32 | a firing that changes the state takes an allowed transition |
| PendingProcessing.PendingOrderProcessor.constructor | src/main/java/com/order/processing/observer/PendingOrderProcessor.java:12-14 | a new processor has no armed tasks |
| PendingProcessing.PendingOrderProcessor.OnOrderStatusChanged | src/main/java/com/order/processing/observer/PendingOrderProcessor.java:16-26 | arms exactly one task, with the 5-minute delay, iff the order is Pending at notification time; otherwise arms nothing |
| PendingProcessing.PendingOrderProcessor.RunTask | src/main/java/com/order/processing/observer/PendingOrderProcessor.java:28-32 | re-reads the status at fire time: a Pending order is processed to Processing; any other order is left unchanged |
| PendingProcessing.PendingOrderProcessor.Fire | src/main/java/com/order/processing/observer/PendingOrderProcessor.java:20-24 | runs the oldest armed task and removes it from the queue. A Pending order becomes Processing, is stamped with the firing time and its history gains Processing; any other order is unchanged. Only that task's order can change, and no task is armed |
| OrderServices.FirstOfCancelAndFireWins | src/main/java/com/order/processing/service/OrderService.java:50-59 | of a cancellation and a deferred advance, whichever changes a Pending order first wins, and the other then does nothing |
| OrderServices.CancelIsPermitted | src/main/java/com/order/processing/service/OrderService.java:52-53 | a cancellation that changes the state takes an allowed transition, so its setState never throws |
| OrderServices.OrderService.constructor | src/main/java/com/order/processing/service/OrderService.java:17-23 | a new service has no orders and no observers |
| OrderServices.OrderService.AddObserver | src/main/java/com/order/processing/service/OrderService.java:25-27 | appends the observer and changes no order |
| OrderServices.OrderService.NotifyObservers | src/main/java/com/order/processing/service/OrderService.java:61-63 | every registered processor is notified once per registration, in registration order, and nothing else changes |
| OrderServices.OrderService.CreateOrder | src/main/java/com/order/processing/service/OrderService.java:29-34 | stores the factory's new Pending order, with history [Pending] and total Σ quantity × unit price, under its id. It leaves the other entries alone, notifies once, and returns the order; each processor arms one task per registration. Both service invariants are kept |
| OrderServices.OrderService.GetOrder | src/main/java/com/order/processing/service/OrderService.java:36-38 | present iff the id is stored, and then it is the stored order |
| OrderServices.OrderService.GetAllOrders | src/main/java/com/order/processing/service/OrderService.java:40-42 | a new list holding each stored order exactly once |
| OrderServices.OrderService.GetOrdersByStatus | src/main/java/com/order/processing/service/OrderService.java:44-48 | exactly the stored orders whose current status is the given one, each once |
| OrderServices.OrderService.CancelOrder | src/main/java/com/order/processing/service/OrderService.java:50-59 | returns true iff the id is stored and that order is Pending. Then the order becomes Cancelled and is stamped, its history gains Cancelled, and the observers are notified without arming any task. Otherwise nothing changes and there is no notification. Both service invariants are kept |
| OrderServices.PendingOrderNeverMoved | src/main/java/com/order/processing/state/PendingState.java:13-17 | a stored order is Pending iff its history is just [Pending]: a Pending order has never changed state |
| Commands.CreateOrderCommand.constructor | src/main/java/com/order/processing/command/CreateOrderCommand.java:14-17 | a new command has created no order yet |
| Commands.CreateOrderCommand.Execute | src/main/java/com/order/processing/command/CreateOrderCommand.java:19-22 | creates an order through the service from the command's items and records it. The order is Pending, stamped with `now` (created and last modified), with history [Pending] and total Σ quantity × unit price, it is stored under its id and notified once |
| Commands.CreateOrderCommand.Undo | src/main/java/com/order/processing/command/CreateOrderCommand.java:24-29 | changes nothing before execute. Afterwards it cancels the created id: an order stored there that is Pending becomes Cancelled, is stamped, gains Cancelled in its history and is notified once. Any other stored order is left unchanged and nobody is notified |
| Commands.CreateOrderCommand.GetCreatedOrderId | src/main/java/com/order/processing/command/CreateOrderCommand.java:31-33 | absent before execute, the created order's id afterwards |
| Scenarios.CancelBeforeDeferredAdvance | src/main/java/com/order/processing/observer/PendingOrderProcessor.java:28-32 | an order of 2 × 10.00 and 1 × 5.00 totals 25.00; cancelling it before its task fires succeeds, and it stays Cancelled after the armed task fires |
| Scenarios.DeferredAdvanceBeforeCancel | src/main/java/com/order/processing/service/OrderService.java:50-59 | once the armed task has moved an order to Processing, cancelling is refused and the order stays Processing |
| Scenarios.DuplicateTaskFiresOnce | src/main/java/com/order/processing/observer/PendingOrderProcessor.java:17-32 | a processor registered twice arms two tasks; the second firing leaves the order as the first left it |
| Scenarios.ManualLifecycle | src/main/java/com/order/processing/model/Order.java:36-46 | Processing, Shipped and Delivered are each accepted in turn; a cancellation of the Delivered order is then refused with Delivered → Cancelled |
| Scenarios.PendingAfterOneCancellation | src/main/java/com/order/processing/service/OrderService.java:44-48 | after creating two orders and cancelling one, the Pending filter returns exactly the other one |
| Scenarios.ExecuteThenUndo | src/main/java/com/order/processing/command/CreateOrderCommand.java:19-33 | after execute and then undo, the recorded id is the created id and that order is Cancelled |

## Left out

- Logging: `DebugLogger` and its calls in `OrderItem` only print. They have no effect on behaviour.
- The demo `Main`: the real `ScheduledExecutorService`, its threads, `Thread.sleep` and shutdown. The executor is a queue of tasks and an explicit `Fire` step, with no real time.
- Concurrency: the `ConcurrentHashMap` and the executor's thread pool run concurrently. The model runs one operation at a time. The cancel-versus-advance race is modelled as the two orders in which the two steps can happen.
- `UUID.randomUUID()` and `LocalDateTime.now()`: ids and clock readings are parameters. `OrderService.CreateOrder` overwrites an existing key as `Map.put` does. With fresh UUIDs that never happens.
- `OrderState.getDescription()`: it is declared, but no state class implements it.
- `OrderObserver` implementations other than `PendingOrderProcessor`, such as the tests' mocks: the observer list holds processors only.
- `OrderService` always uses `StandardOrderFactory`: the model drops the constructor's `OrderFactory` parameter (OrderService.java:17-22), so a substituted factory, such as the tests' mock, is not modelled.
- The `OrderFactory`, `OrderObserver` and `OrderCommand` interfaces add no logic. `OrderCommand` is not part of this model.
- `BigDecimal` at scales other than 2: equality that depends on scale (10.0 against 10.00) and `toString` formatting are not modelled.
- OrderItems.HashCode: it follows Java's `String.hashCode` over Dafny characters, which are Unicode scalar values. Java hashes UTF-16 code units, so ids with characters outside the Basic Multilingual Plane hash differently.
- `OrderItem.toString` and the plain getters of `Order` and `OrderItem`: these are field reads, so they are the fields themselves. `getItems` returns the immutable sequence.
- Commands.CreateOrderCommand.constructor: Java stores a reference to the caller's item list, so later changes to that list reach `execute`. The model takes the items as a value.
- Cancelling a scheduled task on the executor: the source has no such operation.
- Null arguments other than a product id or a price: the model has no null
  list, id or state. In Java these fail on the null reference:
  `createOrder(null)` when the `Order` constructor copies the list,
  `getOrder(null)` and `cancelOrder(null)` in `ConcurrentHashMap.get`, and
  `setState(null)` while building its error message. A null element of the
  item list is not modelled either: Java fails on it when the constructor sums
  the totals (`OrderItem::getTotalPrice`, Order.java:29-32).
