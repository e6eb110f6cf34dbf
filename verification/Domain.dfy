/** The message contract and the saga record exchanged by every component. */
module Domain {
  datatype Option<+T> = None | Some(value: T)
  datatype Result<+T, +E> = Ok(value: T) | Err(error: E)

  type EventId = string
  type OrderId = string
  type Metadata = map<string, string>

  const SCHEMA_VERSION := 1

  datatype OrderStatus =
    | NoStatus                      // the empty string a fresh saga row starts from
    | Pending
    | PaymentPending
    | PaymentApproved
    | PaymentRefundPending
    | InventoryReserved
    | Notified
    | Completed
    | PaymentRefunded
    | Retrying
    | Failed
    | OtherStatus(statusText: string)

  datatype EventType =
    | OrderCreated
    | OrderCompleted
    | OrderFailed
    | PaymentCompensate
    | PaymentCompensateResult
    | PaymentCommand
    | PaymentResult
    | InventoryCommand
    | InventoryResult
    | NotificationCommand
    | NotificationResult
    | OtherType(typeText: string)

  datatype Event = Event(
    id: EventId,
    order: OrderId,
    sagaId: OrderId,
    tx: string,
    status: OrderStatus,
    previous: OrderStatus,
    kind: EventType,
    schema: int,
    metadata: Metadata)

  datatype Saga = Saga(
    order: OrderId,
    previous: OrderStatus,
    current: OrderStatus,
    retryCount: int,
    tx: string)

  /** Why a definitive error was raised. */
  datatype Reason =
    | SagaAlreadyStarted
    | UnknownSaga
    | OutOfOrder
    | IncompatibleStatus
    | UnexpectedStatus
    | BadCommandStatus
    | MissingTransaction
    | Undecodable
    | UnsupportedSchema

  /** Handler errors. Only NonRetryable sends a message to the dead letter topic. */
  datatype Failure =
    | NonRetryable(reason: Reason)
    | InvalidTransition
    | NoNextStep
    | UnsupportedType
    | NoTopic
    | Transient

  predicate IsCommand(kind: EventType) {
    kind.PaymentCommand? || kind.PaymentCompensate? || kind.InventoryCommand? || kind.NotificationCommand?
  }

  predicate IsResult(kind: EventType) {
    kind.PaymentResult? || kind.PaymentCompensateResult? || kind.InventoryResult? || kind.NotificationResult?
  }

  predicate IsTerminalEvent(kind: EventType) {
    kind.OrderCompleted? || kind.OrderFailed?
  }

  predicate IsTerminal(status: OrderStatus) {
    status.Completed? || status.Failed?
  }
}
