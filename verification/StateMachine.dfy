/** The explicit transition table of the saga. */
module StateMachine {
  import opened Domain

  function ValidTransitions(from: OrderStatus): seq<OrderStatus> {
    match from
    case Pending => [PaymentPending]
    case PaymentPending => [PaymentApproved, Failed]
    case PaymentApproved => [InventoryReserved, PaymentRefundPending, Failed]
    case PaymentRefundPending => [Failed]
    case InventoryReserved => [Notified, Completed, Failed]
    case Notified => [Completed]
    case _ => []
  }

  predicate CanTransitionTo(from: OrderStatus, to: OrderStatus) {
    to in ValidTransitions(from)
  }

  /** Distance to the end of the flow; every edge of the table climbs it. */
  function Height(status: OrderStatus): nat {
    match status
    case Pending => 0
    case PaymentPending => 1
    case PaymentApproved => 2
    case PaymentRefundPending => 3
    case InventoryReserved => 3
    case Notified => 4
    case _ => 5
  }

  ghost predicate Path(statuses: seq<OrderStatus>) {
    forall i :: 0 <= i < |statuses| - 1 ==> CanTransitionTo(statuses[i], statuses[i + 1])
  }

  /** The table has no cycle: no path through it is longer than five edges. */
  lemma {:induction false} TableIsAcyclic(statuses: seq<OrderStatus>)
    requires Path(statuses) && |statuses| > 0
    ensures |statuses| - 1 + Height(statuses[0]) <= Height(statuses[|statuses| - 1])
    ensures |statuses| <= 6
  {
    if |statuses| > 1 {
      assert CanTransitionTo(statuses[0], statuses[1]);
      assert Path(statuses[1..]);
      TableIsAcyclic(statuses[1..]);
    }
  }
}
