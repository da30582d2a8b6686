/**
 * Order: an entity with fixed items, creation time and cached total, and a
 * current state and last-modified time that change only through the guarded
 * SetState and through ProcessOrder, which delegates to the current state.
 * Timestamps are readings of an abstract clock passed in as `now`.
 */
module Orders {
  import opened Wrappers
  import opened OrderStates
  import opened OrderItems

  /** The IllegalStateException of a refused setState, naming both statuses. */
  datatype TransitionError = InvalidTransition(from: OrderStatus, to: OrderStatus)

  /** calculateTotalAmount: a left fold of the line totals, starting at zero. */
  function CalculateTotalAmount(items: seq<OrderItem>): Amount
    decreases |items|
  {
    if items == [] then 0
    else CalculateTotalAmount(items[..|items| - 1]) + items[|items| - 1].totalPrice
  }

  /** Σ quantity × unit price, summed from the front: the total the order promises. */
  function SumOfQuantityTimesPrice(items: seq<OrderItem>): int
    decreases |items|
  {
    if items == [] then 0
    else items[0].quantity * items[0].pricePerUnit + SumOfQuantityTimesPrice(items[1..])
  }

  /** The total of a concatenation is the sum of the totals. */
  lemma {:induction false} TotalOfConcatenation(a: seq<OrderItem>, b: seq<OrderItem>)
    ensures CalculateTotalAmount(a + b) == CalculateTotalAmount(a) + CalculateTotalAmount(b)
    decreases |b|
  {
    if b == [] {
      assert a + b == a;
    } else {
      var b' := b[..|b| - 1];
      assert (a + b)[..|a + b| - 1] == a + b';
      TotalOfConcatenation(a, b');
    }
  }

  /** For constructed items the cached total is Σ quantity × unit price. */
  lemma {:induction false} TotalIsSumOfLines(items: seq<Item>)
    ensures CalculateTotalAmount(items) == SumOfQuantityTimesPrice(items)
    decreases |items|
  {
    if items != [] {
      assert items == [items[0]] + items[1..];
      TotalOfConcatenation([items[0]], items[1..]);
      assert CalculateTotalAmount([items[0]]) == items[0].totalPrice by {
        assert [items[0]][..0] == [];
      }
      TotalIsSumOfLines(items[1..]);
    }
  }

  /** An order of constructed items has total 0 when empty and a positive total otherwise. */
  lemma {:induction false} TotalIsPositive(items: seq<Item>)
    ensures items == [] <==> CalculateTotalAmount(items) == 0
    ensures items != [] ==> CalculateTotalAmount(items) > 0
    decreases |items|
  {
    if items != [] {
      ItemTotalIsPositive(items[|items| - 1]);
      TotalIsPositive(items[..|items| - 1]);
    }
  }

  class Order {
    const id: string
    const items: seq<Item>
    const createdAt: nat
    const totalAmount: Amount
    var lastModifiedAt: nat
    var currentState: OrderState
    /** Every state this order has been in, oldest first. */
    ghost var history: seq<OrderState>

    /** The states the order has been in form a path ending in its current state. */
    ghost predicate Valid()
      reads this
    {
      |history| > 0 && history[|history| - 1] == currentState && IsPath(history)
    }

    /**
     * The constructor copies the items, stamps both times with `now` and
     * caches the total, which is Σ quantity × unit price: 0 for no items and
     * positive otherwise.
     */
    constructor (id: string, items: seq<Item>, initialState: OrderState, now: nat)
      ensures this.id == id && this.items == items
      ensures createdAt == now && lastModifiedAt == createdAt
      ensures currentState == initialState
      ensures totalAmount == CalculateTotalAmount(items) == SumOfQuantityTimesPrice(items)
      ensures items == [] <==> totalAmount == 0
      ensures items != [] ==> totalAmount > 0
      ensures Valid() && history == [initialState]
    {
      TotalIsSumOfLines(items);
      TotalIsPositive(items);
      this.id := id;
      this.items := items;
      this.createdAt := now;
      this.lastModifiedAt := now;
      this.currentState := initialState;
      this.totalAmount := CalculateTotalAmount(items);
      this.history := [initialState];
    }

    /** getStatus: the status of the current state. */
    function GetStatus(): OrderStatus
      reads this
    {
      currentState.Status()
    }

    /**
     * setState: takes the new state and stamps `now` when the current state
     * allows it; otherwise fails naming both statuses and changes nothing.
     */
    method SetState(newState: OrderState, now: nat) returns (r: Outcome<TransitionError>)
      modifies this
      ensures r.Pass? <==> CanTransitionTo(old(currentState), newState)
      ensures r.Pass? ==>
                && currentState == newState
                && lastModifiedAt == now
                && history == old(history) + [newState]
      ensures r.Fail? ==>
                && r.error == InvalidTransition(old(currentState).Status(), newState.Status())
                && unchanged(this)
      ensures old(Valid()) ==> Valid()
    {
      if CanTransitionTo(currentState, newState) {
        currentState := newState;
        lastModifiedAt := now;
        history := history + [newState];
        r := Pass;
      } else {
        r := Fail(InvalidTransition(currentState.Status(), newState.Status()));
      }
    }

    /**
     * processOrder: the current state's processOrder hands its successor to
     * SetState (never refused), or does nothing in an end state; then the
     * last-modified time is stamped in either case.
     */
    method ProcessOrder(now: nat)
      modifies this
      ensures currentState == AfterProcess(old(currentState))
      ensures lastModifiedAt == now
      ensures history == old(history) + (if NextState(old(currentState)).Some? then [currentState] else [])
      ensures old(Valid()) ==> Valid()
    {
      match NextState(currentState) {
        case Some(next) =>
          NextStateIsPermitted(currentState);
          var r := SetState(next, now);
          assert r.Pass?;
        case None =>
      }
      lastModifiedAt := now;
    }
  }
}
