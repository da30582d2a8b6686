/**
 * PendingOrderProcessor: on a notification about a Pending order it arms a
 * deferred task; when the armed task fires it re-reads the order's status and
 * processes the order only if it is still Pending. The executor is a queue
 * of armed tasks and an explicit Fire step; every task has the same delay,
 * so tasks fire in the order they were armed.
 */
module PendingProcessing {
  import opened Wrappers
  import opened OrderStates
  import opened Orders

  /** The delay of every armed task, in minutes. */
  const DelayMinutes: nat := 5

  /** A task armed on the executor: process `order` after `delayMinutes`. */
  datatype Task = Task(order: Order, delayMinutes: nat)

  /** The state a firing task leaves behind, given the state it reads at fire time. */
  function FireOutcome(s: OrderState): OrderState {
    if s.Status() == Pending then AfterProcess(s) else s
  }

  /** A fire moves Pending to Processing and leaves every other state alone. */
  lemma FireOnlyAdvancesPending(s: OrderState)
    ensures FireOutcome(s) != s <==> s == PendingState
    ensures FireOutcome(PendingState) == ProcessingState
    ensures s != PendingState ==> FireOutcome(s) == s
  {
  }

  /** Firing twice gives the state firing once gives. */
  lemma FireIsIdempotent(s: OrderState)
    ensures FireOutcome(FireOutcome(s)) == FireOutcome(s)
  {
  }

  /** A fire that changes the state takes a transition the state machine allows. */
  lemma FireIsPermitted(s: OrderState)
    ensures FireOutcome(s) != s ==> CanTransitionTo(s, FireOutcome(s))
  {
  }

  class PendingOrderProcessor {
    /** The armed tasks, oldest first. */
    var tasks: seq<Task>

    constructor ()
      ensures tasks == []
    {
      tasks := [];
    }

    /** onOrderStatusChanged: arms one task with the fixed delay iff the order is Pending now. */
    method OnOrderStatusChanged(order: Order)
      modifies this
      ensures tasks == old(tasks) + (if order.GetStatus() == Pending then [Task(order, DelayMinutes)] else [])
    {
      if order.GetStatus() == Pending {
        tasks := tasks + [Task(order, DelayMinutes)];
      }
    }

    /** The armed task body: re-reads the status and processes the order only if still Pending. */
    method RunTask(order: Order, now: nat)
      modifies order
      ensures order.currentState == FireOutcome(old(order.currentState))
      ensures old(order.GetStatus()) == Pending ==>
                order.lastModifiedAt == now && order.history == old(order.history) + [ProcessingState]
      ensures old(order.GetStatus()) != Pending ==> unchanged(order)
      ensures old(order.Valid()) ==> order.Valid()
    {
      if order.GetStatus() == Pending {
        order.ProcessOrder(now);
      }
    }

    /**
     * The executor fires the oldest armed task, if any. Only that task's
     * order can change, and no task is armed by the firing.
     */
    method Fire(now: nat) returns (fired: Option<Order>)
      modifies this, if tasks == [] then {} else {tasks[0].order}
      ensures fired.None? <==> old(tasks) == []
      ensures old(tasks) == [] ==> tasks == []
      ensures old(tasks) != [] ==>
                && fired == Some(old(tasks[0].order))
                && tasks == old(tasks[1..])
                && fired.value.currentState == FireOutcome(old(tasks[0].order.currentState))
                && (old(tasks[0].order.GetStatus()) == Pending ==>
                      fired.value.lastModifiedAt == now &&
                      fired.value.history == old(tasks[0].order.history) + [ProcessingState])
                && (old(tasks[0].order.GetStatus()) != Pending ==> unchanged(fired.value))
      ensures old(tasks) != [] && old(tasks[0].order.Valid()) ==> fired.value.Valid()
    {
      if tasks == [] {
        fired := None;
      } else {
        var task := tasks[0];
        tasks := tasks[1..];
        RunTask(task.order, now);
        fired := Some(task.order);
      }
    }
  }
}
