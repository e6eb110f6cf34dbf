/** The orchestrator's decisions as a table: for every row and every result, whether it is
    accepted, the row it leaves, the event it sends, and what the journal is told. The table
    names statuses, kinds and metadata outright; module SagaSteps computes the same step by
    step, as the handlers do. */
module Decisions {
  import opened Domain
  import opened StateMachine
  import opened SagaSteps

  /** The edges of the transition table, one by one. */
  lemma EdgesAreExactly(from: OrderStatus, to: OrderStatus)
    ensures CanTransitionTo(from, to) <==>
      || (from.Pending? && to.PaymentPending?)
      || (from.PaymentPending? && (to.PaymentApproved? || to.Failed?))
      || (from.PaymentApproved? && (to.InventoryReserved? || to.PaymentRefundPending? || to.Failed?))
      || (from.PaymentRefundPending? && to.Failed?)
      || (from.InventoryReserved? && (to.Notified? || to.Completed? || to.Failed?))
      || (from.Notified? && to.Completed?)
  {
  }

  /** Each kind of result is taken in one status of the saga, with three statuses of its own. */
  predicate Acceptable(current: OrderStatus, e: Event) {
    || (e.kind.PaymentResult? && current.PaymentPending?
        && (e.status.PaymentApproved? || e.status.Retrying? || e.status.Failed?))
    || (e.kind.InventoryResult? && current.PaymentApproved?
        && (e.status.InventoryReserved? || e.status.Retrying? || e.status.Failed?))
    || (e.kind.NotificationResult? && current.InventoryReserved?
        && (e.status.Notified? || e.status.Retrying? || e.status.Failed?))
    || (e.kind.PaymentCompensateResult? && current.PaymentRefundPending?
        && (e.status.PaymentRefunded? || e.status.Retrying? || e.status.Failed?))
  }

  lemma AcceptsExactly(saga: Saga, e: Event, id: EventId, maxRetries: int)
    ensures OnResult(saga, e, id, maxRetries).Ok? <==> Acceptable(saga.current, e)
  {
  }

  /** A retry within the limit. */
  predicate TriesAgain(saga: Saga, e: Event, maxRetries: int) {
    e.status.Retrying? && saga.retryCount < maxRetries
  }

  /** The status an acceptable result leads to. */
  function StatusAfter(saga: Saga, e: Event, maxRetries: int): OrderStatus {
    if TriesAgain(saga, e, maxRetries) then saga.current
    else if saga.current.PaymentPending? then if e.status.PaymentApproved? then PaymentApproved else Failed
    else if saga.current.PaymentApproved? then
      if e.status.InventoryReserved? then InventoryReserved
      else if e.status.Failed? && saga.tx != "" then PaymentRefundPending
      else Failed
    else if saga.current.InventoryReserved? then Completed
    else Failed
  }

  /** The row after an accepted result. A new status starts with no retries and remembers the
      one it came from, COMPLETED by way of NOTIFIED; a retry within the limit only counts. */
  lemma RowAfter(saga: Saga, e: Event, id: EventId, maxRetries: int)
    requires Acceptable(saga.current, e)
    ensures OnResult(saga, e, id, maxRetries).Ok?
    ensures var row := OnResult(saga, e, id, maxRetries).value.saga;
      && row.order == saga.order
      && row.current == StatusAfter(saga, e, maxRetries)
      && (TriesAgain(saga, e, maxRetries) ==>
            row.retryCount == saga.retryCount + 1 && row.previous == saga.previous && row.tx == saga.tx)
      && (!TriesAgain(saga, e, maxRetries) ==> row.retryCount == 0 && row.current != saga.current)
      && (!TriesAgain(saga, e, maxRetries) ==>
            row.previous == if row.current.Completed? then Notified else saga.current)
      && row.tx == if e.kind.PaymentResult? && e.status.PaymentApproved? then e.tx else saga.tx
  {
  }

  /** The command each running status waits on. */
  function CommandOf(current: OrderStatus): EventType {
    if current.PaymentApproved? then InventoryCommand
    else if current.PaymentRefundPending? then PaymentCompensate
    else if current.InventoryReserved? then NotificationCommand
    else PaymentCommand
  }

  /** The metadata of the event that ends an order. */
  function EndingMetadata(saga: Saga, e: Event, completed: bool): Metadata {
    if completed then
      if e.status.Notified? then map[]
      else if e.status.Failed? then map["notification_error" := "true"]
      else map["notification_error" := "true", "motivo" := "retry_limit_exceeded"]
    else
      var base := if e.status.Retrying? then map["motivo" := "retry_limit_exceeded"] else e.metadata;
      if !e.kind.PaymentCompensateResult? then base
      else
        base[if e.status.PaymentRefunded? then "payment_refunded" else "payment_refund_failed" := "true"]
            ["transaction_id" := if e.status.Retrying? then saga.tx else e.tx]
  }

  /** The one event an accepted result sends. A command repeats the status its row is in and the
      one before, and carries the row's transaction id; an ending says from where to where the
      saga went, and why. */
  lemma EventAfter(saga: Saga, e: Event, id: EventId, maxRetries: int)
    requires Acceptable(saga.current, e) && OnResult(saga, e, id, maxRetries).Ok?
    ensures var m := OnResult(saga, e, id, maxRetries).value;
      m.out == if m.saga.current.Completed? then
          Event(id, saga.order, saga.order, "", Completed, Notified, OrderCompleted, SCHEMA_VERSION,
                EndingMetadata(saga, e, true))
        else if m.saga.current.Failed? then
          Event(id, saga.order, saga.order, "", Failed, saga.current, OrderFailed, SCHEMA_VERSION,
                EndingMetadata(saga, e, false))
        else
          Event(id, saga.order, saga.order, m.saga.tx, m.saga.current, m.saga.previous, CommandOf(m.saga.current),
                SCHEMA_VERSION, map[])
  {
    RowAfter(saga, e, id, maxRetries);
  }

  /** The OUT entry of the journal names the status the saga came from: of an ending the one it
      was in, of a command the one its row remembers. */
  lemma LoggedAfter(saga: Saga, e: Event, id: EventId, maxRetries: int)
    requires Acceptable(saga.current, e) && OnResult(saga, e, id, maxRetries).Ok?
    ensures var m := OnResult(saga, e, id, maxRetries).value;
      m.loggedFrom == if IsTerminal(m.saga.current) then saga.current else m.saga.previous
  {
  }

  /** The first step of an order, field by field. Its command alone names no status before. */
  lemma FirstStep(order: OrderId, id: EventId)
    ensures OnCreated(order, id)
         == Ok(Move(Saga(order, Pending, PaymentPending, 0, ""),
                    Event(id, order, order, "", PaymentPending, NoStatus, PaymentCommand, SCHEMA_VERSION, map[]),
                    Pending))
  {
  }
}
