/** The orchestrator's decisions as functions of one saga row and one event. */
module SagaSteps {
  import opened Domain
  import opened StateMachine

  /** One accepted step: the saga row left behind, the single event sent out, and the
      status the journal records as the one the saga came from. */
  datatype Move = Move(saga: Saga, out: Event, loggedFrom: OrderStatus)

  function NextCommand(current: OrderStatus): Result<(OrderStatus, EventType), Failure> {
    match current
    case Pending => Ok((PaymentPending, PaymentCommand))
    case PaymentPending => Ok((PaymentPending, PaymentCommand))
    case PaymentApproved => Ok((PaymentApproved, InventoryCommand))
    case PaymentRefundPending => Ok((PaymentRefundPending, PaymentCompensate))
    case InventoryReserved => Ok((InventoryReserved, NotificationCommand))
    case _ => Err(NoNextStep)
  }

  function ExpectedStatusForResult(kind: EventType): Option<OrderStatus> {
    match kind
    case PaymentResult => Some(PaymentPending)
    case PaymentCompensateResult => Some(PaymentRefundPending)
    case InventoryResult => Some(PaymentApproved)
    case NotificationResult => Some(InventoryReserved)
    case _ => None
  }

  predicate ValidResultStatus(kind: EventType, status: OrderStatus) {
    match kind
    case PaymentResult => status.PaymentApproved? || status.Retrying? || status.Failed?
    case PaymentCompensateResult => status.PaymentRefunded? || status.Retrying? || status.Failed?
    case InventoryResult => status.InventoryReserved? || status.Retrying? || status.Failed?
    case NotificationResult => status.Notified? || status.Retrying? || status.Failed?
    case _ => false
  }

  function TerminalEvent(id: EventId, order: OrderId, previous: OrderStatus, current: OrderStatus,
                         kind: EventType, metadata: Metadata): Event
  {
    Event(id, order, order, "", current, previous, kind, SCHEMA_VERSION, metadata)
  }

  function DispatchNext(saga: Saga, id: EventId): Result<Move, Failure> {
    match NextCommand(saga.current)
    case Err(failure) => Err(failure)
    case Ok((target, kind)) =>
      var command := Event(id, saga.order, saga.order, saga.tx, target, saga.previous, kind, SCHEMA_VERSION, map[]);
      var moved := if target != saga.current then saga.(previous := saga.current, current := target) else saga;
      Ok(Move(moved, command, moved.previous))
  }

  function Fail(saga: Saga, id: EventId, metadata: Metadata): Result<Move, Failure> {
    if !CanTransitionTo(saga.current, Failed) then Err(InvalidTransition)
    else
      var moved := saga.(previous := saga.current, current := Failed, retryCount := 0);
      Ok(Move(moved, TerminalEvent(id, saga.order, saga.current, Failed, OrderFailed, metadata), saga.current))
  }

  function Complete(saga: Saga, id: EventId, metadata: Metadata): Result<Move, Failure> {
    if !CanTransitionTo(saga.current, Notified) then Err(InvalidTransition)
    else
      var moved := saga.(previous := Notified, current := Completed, retryCount := 0);
      Ok(Move(moved, TerminalEvent(id, saga.order, Notified, Completed, OrderCompleted, metadata), saga.current))
  }

  function StartCompensation(saga: Saga, id: EventId): Result<Move, Failure> {
    if !CanTransitionTo(saga.current, PaymentRefundPending) then Err(InvalidTransition)
    else DispatchNext(saga.(previous := saga.current, current := PaymentRefundPending, retryCount := 0), id)
  }

  function Retry(saga: Saga, id: EventId, maxRetries: int): Result<Move, Failure> {
    var counted := saga.(retryCount := saga.retryCount + 1);
    if counted.retryCount > maxRetries then
      if counted.current.InventoryReserved? then
        Complete(counted, id, map["notification_error" := "true", "motivo" := "retry_limit_exceeded"])
      else if counted.current.PaymentRefundPending? then
        Fail(counted, id, map["motivo" := "retry_limit_exceeded", "payment_refund_failed" := "true",
                              "transaction_id" := counted.tx])
      else
        Fail(counted, id, map["motivo" := "retry_limit_exceeded"])
    else
      DispatchNext(counted, id)
  }

  function Advance(saga: Saga, e: Event, id: EventId): Result<Move, Failure> {
    if !CanTransitionTo(saga.current, e.status) then Err(InvalidTransition)
    else
      var moved := saga.(previous := saga.current, current := e.status, retryCount := 0,
                         tx := if e.kind.PaymentResult? then e.tx else saga.tx);
      DispatchNext(moved, id)
  }

  /** What the orchestrator decides for a result that is not a duplicate. */
  function OnResult(saga: Saga, e: Event, id: EventId, maxRetries: int): Result<Move, Failure> {
    match ExpectedStatusForResult(e.kind)
    case None => Err(UnsupportedType)
    case Some(expected) =>
      if saga.current != expected then Err(NonRetryable(OutOfOrder))
      else if !ValidResultStatus(e.kind, e.status) then Err(NonRetryable(IncompatibleStatus))
      else
        match e.status
        case Retrying => Retry(saga, id, maxRetries)
        case Failed =>
          if e.kind.NotificationResult? then
            Complete(saga, id, map["notification_error" := "true"])
          else if e.kind.InventoryResult? && saga.current.PaymentApproved? && saga.tx != "" then
            StartCompensation(saga, id)
          else if e.kind.PaymentCompensateResult? then
            Fail(saga, id, e.metadata["payment_refund_failed" := "true"]["transaction_id" := e.tx])
          else
            Fail(saga, id, e.metadata)
        case PaymentApproved => Advance(saga, e, id)
        case InventoryReserved => Advance(saga, e, id)
        case PaymentRefunded =>
          Fail(saga, id, e.metadata["payment_refunded" := "true"]["transaction_id" := e.tx])
        case Notified => Complete(saga, id, map[])
        case _ => Err(NonRetryable(UnexpectedStatus))
  }

  /** The saga a first ORDER_CREATED starts from, before its payment command. */
  function NewSaga(order: OrderId): Saga {
    Saga(order, NoStatus, Pending, 0, "")
  }

  function OnCreated(order: OrderId, id: EventId): Result<Move, Failure> {
    DispatchNext(NewSaga(order), id)
  }

  /** For every row and every event: a result is accepted exactly when the saga waits for
      that kind and the status suits the kind. The unexpected-status, invalid-transition
      and no-next-step branches are never taken, whatever the row holds. */
  lemma RejectionsAreExactlyTwo(saga: Saga, e: Event, id: EventId, maxRetries: int)
    requires IsResult(e.kind)
    ensures var r := OnResult(saga, e, id, maxRetries);
      && (r.Ok? <==> ExpectedStatusForResult(e.kind) == Some(saga.current) && ValidResultStatus(e.kind, e.status))
      && (r.Err? ==> r.error == NonRetryable(if ExpectedStatusForResult(e.kind) != Some(saga.current) then OutOfOrder
                                             else IncompatibleStatus))
  {
  }

  /** What every accepted step leaves behind. The row still names its order, rests on an
      edge of the table even where the code asserts none, and is either waiting for the
      result of exactly the command just sent, or terminal with the matching event sent. */
  predicate Coherent(order: OrderId, id: EventId, m: Move) {
    && m.saga.order == order
    && CanTransitionTo(m.saga.previous, m.saga.current)
    && m.out.id == id && m.out.order == order && m.out.sagaId == order && m.out.schema == SCHEMA_VERSION
    && (if IsTerminal(m.saga.current) then
          && m.out.kind == (if m.saga.current.Completed? then OrderCompleted else OrderFailed)
          && m.out.status == m.saga.current && m.out.tx == ""
        else
          && NextCommand(m.saga.current) == Ok((m.saga.current, m.out.kind))
          && m.out.status == m.saga.current && m.out.tx == m.saga.tx && m.out.metadata == map[])
  }

  lemma DispatchIsCoherent(saga: Saga, id: EventId)
    requires DispatchNext(saga, id).Ok?
    requires saga.current.Pending? || CanTransitionTo(saga.previous, saga.current)
    ensures Coherent(saga.order, id, DispatchNext(saga, id).value)
  {
  }

  lemma EndIsCoherent(saga: Saga, id: EventId, metadata: Metadata)
    ensures Fail(saga, id, metadata).Ok? ==> Coherent(saga.order, id, Fail(saga, id, metadata).value)
    ensures Complete(saga, id, metadata).Ok? ==> Coherent(saga.order, id, Complete(saga, id, metadata).value)
  {
  }

  lemma MoveIsCoherent(saga: Saga, e: Event, id: EventId, maxRetries: int)
    requires OnResult(saga, e, id, maxRetries).Ok?
    requires CanTransitionTo(saga.previous, saga.current)
    ensures Coherent(saga.order, id, OnResult(saga, e, id, maxRetries).value)
  {
    var counted := saga.(retryCount := saga.retryCount + 1);
    match e.status {
      case Retrying =>
        if counted.retryCount <= maxRetries {
          DispatchIsCoherent(counted, id);
        } else {
          var noted := map["motivo" := "retry_limit_exceeded"];
          EndIsCoherent(counted, id, noted);
          EndIsCoherent(counted, id, map["notification_error" := "true", "motivo" := "retry_limit_exceeded"]);
          EndIsCoherent(counted, id, map["motivo" := "retry_limit_exceeded", "payment_refund_failed" := "true",
                                         "transaction_id" := counted.tx]);
        }
      case Failed =>
        EndIsCoherent(saga, id, map["notification_error" := "true"]);
        EndIsCoherent(saga, id, e.metadata);
        EndIsCoherent(saga, id, e.metadata["payment_refund_failed" := "true"]["transaction_id" := e.tx]);
        if StartCompensation(saga, id).Ok? {
          DispatchIsCoherent(saga.(previous := saga.current, current := PaymentRefundPending, retryCount := 0), id);
        }
      case PaymentRefunded =>
        EndIsCoherent(saga, id, e.metadata["payment_refunded" := "true"]["transaction_id" := e.tx]);
      case Notified =>
        EndIsCoherent(saga, id, map[]);
      case _ =>
        if Advance(saga, e, id).Ok? {
          DispatchIsCoherent(saga.(previous := saga.current, current := e.status, retryCount := 0,
                                   tx := if e.kind.PaymentResult? then e.tx else saga.tx), id);
        }
    }
  }

  /** A first ORDER_CREATED always starts the payment. */
  lemma StartAlwaysMoves(order: OrderId, id: EventId)
    ensures var r := OnCreated(order, id);
      r.Ok? && r.value.saga == Saga(order, Pending, PaymentPending, 0, "")
      && r.value.out.kind == PaymentCommand && Coherent(order, id, r.value)
  {
  }
}
