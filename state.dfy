/**
 * The order state machine: the five statuses, one state per status,
 * the transition rule each state enforces (canTransitionTo) and the
 * forward step each state performs when an order is processed.
 */
module OrderStates {
  import opened Wrappers

  /** The status of an order. Pending is the status of a new order; Delivered and Cancelled are end states. */
  datatype OrderStatus = Pending | Processing | Shipped | Delivered | Cancelled

  const AllStatuses: set<OrderStatus> := {Pending, Processing, Shipped, Delivered, Cancelled}

  /** There are exactly five statuses and they are pairwise distinct. */
  lemma StatusesAreFive()
    ensures |AllStatuses| == 5
    ensures forall st: OrderStatus :: st in AllStatuses
  {
    forall st: OrderStatus ensures st in AllStatuses {
      match st
      case Pending =>
      case Processing =>
      case Shipped =>
      case Delivered =>
      case Cancelled =>
    }
  }

  /** The statuses documented as end states. */
  predicate IsEndStatus(st: OrderStatus) {
    st == Delivered || st == Cancelled
  }

  /**
   * One state object per status. The source has one class per state; every
   * rule tests only the class of its target, so a state is fully described
   * by its variant.
   */
  datatype OrderState = PendingState | ProcessingState | ShippedState | DeliveredState | CancelledState
  {
    /** getStatus of each state class. */
    function Status(): OrderStatus {
      match this
      case PendingState => Pending
      case ProcessingState => Processing
      case ShippedState => Shipped
      case DeliveredState => Delivered
      case CancelledState => Cancelled
    }
  }

  /** The state whose getStatus is `st`: the inverse of Status. */
  function StateOf(st: OrderStatus): (s: OrderState)
    ensures s.Status() == st
  {
    match st
    case Pending => PendingState
    case Processing => ProcessingState
    case Shipped => ShippedState
    case Delivered => DeliveredState
    case Cancelled => CancelledState
  }

  /** States and statuses are in one-to-one correspondence. */
  lemma StatusIsOneToOne(s: OrderState, t: OrderState)
    ensures s.Status() == t.Status() <==> s == t
    ensures StateOf(s.Status()) == s
  {
  }

  /** canTransitionTo of the current state `from`, asked about the target `to`. */
  predicate CanTransitionTo(from: OrderState, to: OrderState) {
    match from
    case PendingState => to.ProcessingState? || to.CancelledState?
    case ProcessingState => to.ShippedState? || to.CancelledState?
    case ShippedState => to.DeliveredState?
    case DeliveredState => false
    case CancelledState => false
  }

  /** The transition table as data: each allowed (from, to) pair of statuses. */
  const TransitionTable: set<(OrderStatus, OrderStatus)> :=
    {(Pending, Processing), (Pending, Cancelled),
     (Processing, Shipped), (Processing, Cancelled),
     (Shipped, Delivered)}

  /** The per-state rules agree with the transition table, pair by pair. */
  lemma RulesMatchTable(from: OrderState, to: OrderState)
    ensures CanTransitionTo(from, to) <==> (from.Status(), to.Status()) in TransitionTable
  {
  }

  /** PendingState: Processing and Cancelled are allowed; processOrder moves to Processing. */
  lemma PendingStateRules(to: OrderState)
    ensures CanTransitionTo(PendingState, to) <==> to == ProcessingState || to == CancelledState
    ensures NextState(PendingState) == Some(ProcessingState)
    ensures PendingState.Status() == Pending
  {
  }

  /** ProcessingState: Shipped and, as written, Cancelled are allowed; processOrder moves to Shipped. */
  lemma ProcessingStateRules(to: OrderState)
    ensures CanTransitionTo(ProcessingState, to) <==> to == ShippedState || to == CancelledState
    ensures NextState(ProcessingState) == Some(ShippedState)
    ensures ProcessingState.Status() == Processing
  {
  }

  /** ShippedState: only Delivered is allowed (not Cancelled); processOrder moves to Delivered. */
  lemma ShippedStateRules(to: OrderState)
    ensures CanTransitionTo(ShippedState, to) <==> to == DeliveredState
    ensures NextState(ShippedState) == Some(DeliveredState)
    ensures ShippedState.Status() == Shipped
  {
  }

  /** DeliveredState: no target is allowed and processOrder does nothing. */
  lemma DeliveredStateRules(to: OrderState)
    ensures !CanTransitionTo(DeliveredState, to)
    ensures NextState(DeliveredState) == None && AfterProcess(DeliveredState) == DeliveredState
    ensures DeliveredState.Status() == Delivered
  {
  }

  /** CancelledState: no target is allowed and processOrder does nothing. */
  lemma CancelledStateRules(to: OrderState)
    ensures !CanTransitionTo(CancelledState, to)
    ensures NextState(CancelledState) == None && AfterProcess(CancelledState) == CancelledState
    ensures CancelledState.Status() == Cancelled
  {
  }

  /** No state accepts a transition into Pending. */
  lemma NothingEntersPending(from: OrderState)
    ensures !CanTransitionTo(from, PendingState)
  {
  }

  /** A state admits no transition at all exactly when its status is an end status. */
  lemma EndStatesHaveNoSuccessor(from: OrderState)
    ensures IsEndStatus(from.Status()) <==> forall to: OrderState :: !CanTransitionTo(from, to)
  {
    if !IsEndStatus(from.Status()) {
      assert CanTransitionTo(from, CancelledState) || CanTransitionTo(from, DeliveredState);
    }
  }

  /**
   * The state that processOrder of `s` hands to order.setState, or None
   * when its processOrder does nothing (Delivered and Cancelled).
   */
  function NextState(s: OrderState): Option<OrderState> {
    match s
    case PendingState => Some(ProcessingState)
    case ProcessingState => Some(ShippedState)
    case ShippedState => Some(DeliveredState)
    case DeliveredState => None
    case CancelledState => None
  }

  /** The forward step is always permitted by the state's own rule, so processOrder never throws. */
  lemma NextStateIsPermitted(s: OrderState)
    ensures NextState(s).Some? ==> CanTransitionTo(s, NextState(s).value)
    ensures NextState(s).None? <==> IsEndStatus(s.Status())
  {
  }

  /** The state of an order after one processOrder. */
  function AfterProcess(s: OrderState): OrderState {
    match NextState(s)
    case Some(t) => t
    case None => s
  }

  /** The state of an order after `n` processOrder calls. */
  function ProcessedTimes(s: OrderState, n: nat): OrderState
    decreases n
  {
    if n == 0 then s else ProcessedTimes(AfterProcess(s), n - 1)
  }

  /** An end state stays put however often the order is processed. */
  lemma {:induction false} EndStateIsFixed(s: OrderState, n: nat)
    requires IsEndStatus(s.Status())
    ensures ProcessedTimes(s, n) == s
    decreases n
  {
    if n > 0 {
      assert AfterProcess(s) == s;
      EndStateIsFixed(s, n - 1);
    }
  }

  /** The forward lifecycle: Pending, Processing, Shipped, Delivered, then Delivered forever. */
  const ForwardLifecycle: seq<OrderState> := [PendingState, ProcessingState, ShippedState, DeliveredState]

  lemma {:induction false} ForwardPathFromPending(n: nat)
    ensures ProcessedTimes(PendingState, n) == ForwardLifecycle[if n < 3 then n else 3]
  {
    if n >= 3 {
      calc {
        ProcessedTimes(PendingState, n);
        ProcessedTimes(ProcessingState, n - 1);
        ProcessedTimes(ShippedState, n - 2);
        ProcessedTimes(DeliveredState, n - 3);
        { EndStateIsFixed(DeliveredState, n - 3); }
        DeliveredState;
      }
    } else if n == 2 {
      assert ProcessedTimes(PendingState, 2) == ProcessedTimes(ShippedState, 0);
    } else if n == 1 {
      assert ProcessedTimes(PendingState, 1) == ProcessedTimes(ProcessingState, 0);
    }
  }

  /** A sequence of states in which every step is allowed by the rule of the state it leaves. */
  ghost predicate IsPath(p: seq<OrderState>) {
    forall i :: 0 <= i < |p| - 1 ==> CanTransitionTo(p[i], p[i + 1])
  }

  /** A rank that every allowed transition strictly raises. */
  function Rank(s: OrderState): nat {
    match s
    case PendingState => 0
    case ProcessingState => 1
    case ShippedState => 2
    case DeliveredState => 3
    case CancelledState => 4
  }

  lemma TransitionRaisesRank(from: OrderState, to: OrderState)
    requires CanTransitionTo(from, to)
    ensures Rank(from) < Rank(to)
  {
  }

  /** Along a path ranks strictly increase: no state is ever visited twice. */
  lemma {:induction false} PathIsStrictlyRanked(p: seq<OrderState>, i: int, j: int)
    requires IsPath(p)
    requires 0 <= i < j < |p|
    ensures Rank(p[i]) < Rank(p[j])
    ensures p[i] != p[j]
    decreases j - i
  {
    TransitionRaisesRank(p[i], p[i + 1]);
    if i + 1 < j {
      PathIsStrictlyRanked(p, i + 1, j);
    }
  }

  /** On a path, Pending can only come first and an end state can only come last. */
  lemma PathShape(p: seq<OrderState>, i: int)
    requires IsPath(p)
    requires 0 <= i < |p|
    ensures p[i] == PendingState ==> i == 0
    ensures IsEndStatus(p[i].Status()) ==> i == |p| - 1
  {
    if 0 < i {
      NothingEntersPending(p[i - 1]);
      assert CanTransitionTo(p[i - 1], p[i]);
    }
    if i < |p| - 1 {
      assert CanTransitionTo(p[i], p[i + 1]);
      EndStatesHaveNoSuccessor(p[i]);
    }
  }
}
