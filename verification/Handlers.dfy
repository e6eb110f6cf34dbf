/** What each handler run decides from the committed tables and one event. */
module Handlers {
  import opened Domain
  import opened Topics
  import opened SagaSteps
  import opened Tables

  function OrchestratorEntry(saga: Saga, e: Event, kind: EventType, direction: Direction, from: OrderStatus,
                             to: OrderStatus): JournalEntry
  {
    JournalEntry(saga.order, saga.order, e.id, kind, Orchestrator, direction, from, to, e, None, None)
  }

  function OutEntry(m: Move): JournalEntry {
    OrchestratorEntry(m.saga, m.out, m.out.kind, Out, m.loggedFrom, m.out.status)
  }

  function Accept(before: Saga, e: Event, seenAs: OrderStatus, m: Move): Effect {
    Commit(Some(m.saga), [OrchestratorEntry(before, e, e.kind, In, before.previous, seenAs), OutEntry(m)], m.out)
  }

  /** The orchestrator's single entry point. */
  function OrchestratorEffect(sagas: map<OrderId, Saga>, journal: seq<JournalEntry>, e: Event, id: EventId,
                              maxRetries: int): Result<Effect, Failure>
  {
    if e.kind.OrderCreated? then
      if Has(journal, e.id, Orchestrator) then Ok(Nothing)
      else if e.order in sagas then Err(NonRetryable(SagaAlreadyStarted))
      else
        match OnCreated(e.order, id)
        case Err(failure) => Err(failure)
        case Ok(m) => Ok(Accept(NewSaga(e.order), e, Pending, m))
    else if !IsResult(e.kind) then Ok(Nothing)
    else if e.order !in sagas then Err(NonRetryable(UnknownSaga))
    else if Has(journal, e.id, Orchestrator) then Ok(Nothing)
    else
      match OnResult(sagas[e.order], e, id, maxRetries)
      case Err(failure) => Err(failure)
      case Ok(m) => Ok(Accept(sagas[e.order], e, e.status, m))
  }

  // ---------------------------------------------------------------- workers

  function WorkerEntry(component: Component, e: Event, direction: Direction, request: Option<GatewayCall>,
                       response: Option<GatewayAnswer>): JournalEntry
  {
    JournalEntry(e.order, e.sagaId, e.id, e.kind, component, direction, e.previous, e.status, e, request, response)
  }

  /** Command contract of each worker: the type it acts on, the status it demands. */
  function CommandCheck(e: Event): Result<(), Failure> {
    match e.kind
    case PaymentCommand => if e.status.PaymentPending? then Ok(()) else Err(NonRetryable(BadCommandStatus))
    case PaymentCompensate =>
      if !e.status.PaymentRefundPending? then Err(NonRetryable(BadCommandStatus))
      else if e.tx == "" then Err(NonRetryable(MissingTransaction))
      else Ok(())
    case InventoryCommand => if e.status.PaymentApproved? then Ok(()) else Err(NonRetryable(BadCommandStatus))
    case NotificationCommand => if e.status.InventoryReserved? then Ok(()) else Err(NonRetryable(BadCommandStatus))
    case _ => Ok(())
  }

  function ResultKind(command: EventType): EventType {
    match command
    case PaymentCommand => PaymentResult
    case PaymentCompensate => PaymentCompensateResult
    case InventoryCommand => InventoryResult
    case _ => NotificationResult
  }

  function SuccessStatus(command: EventType): OrderStatus {
    match command
    case PaymentCommand => PaymentApproved
    case PaymentCompensate => PaymentRefunded
    case InventoryCommand => InventoryReserved
    case _ => Notified
  }

  function CallFor(e: Event): GatewayCall {
    match e.kind
    case PaymentCommand => GatewayCall(e.order, "process", "")
    case PaymentCompensate => GatewayCall(e.order, "refund", e.tx)
    case InventoryCommand => GatewayCall(e.order, "reserve", "")
    case _ => GatewayCall(e.order, "notify", "")
  }

  /** What the journal keeps of an answer: the error alone, or the verdict, with the
      transaction id only for a payment. */
  function NoteOf(e: Event, answer: GatewayAnswer): GatewayAnswer {
    if answer.error.Some? then GatewayAnswer(false, "", answer.error)
    else if e.kind.PaymentCommand? then answer
    else answer.(tx := "")
  }

  /** The result event for a command and a gateway answer. */
  function ResultFor(e: Event, answer: GatewayAnswer, id: EventId): Event {
    Event(id, e.order, e.sagaId,
          if e.kind.PaymentCompensate? then e.tx
          else if e.kind.PaymentCommand? && answer.error.None? && answer.ok then answer.tx
          else "",
          if answer.error.Some? then Retrying else if answer.ok then SuccessStatus(e.kind) else Failed,
          e.status, ResultKind(e.kind), SCHEMA_VERSION,
          if answer.error.Some? then map["erro" := answer.error.value] else map[])
  }

  /** The four journal entries of one processed command. */
  function WorkerBlock(component: Component, e: Event, answer: GatewayAnswer, id: EventId): seq<JournalEntry> {
    [ WorkerEntry(component, e, In, None, None),
      WorkerEntry(component, e, GatewayRequest, Some(CallFor(e)), None),
      WorkerEntry(component, e, GatewayResponse, None, Some(NoteOf(e, answer))),
      WorkerEntry(component, ResultFor(e, answer, id), Out, None, None) ]
  }

  /** One worker run. Events that are not this worker's commands are ignored. */
  function WorkerEffect(journal: seq<JournalEntry>, component: Component, e: Event, answer: GatewayAnswer,
                        id: EventId): Result<Effect, Failure>
  {
    if !IsCommand(e.kind) || ConsumerOf(e.kind) != Some(component) then Ok(Nothing)
    else
      match CommandCheck(e)
      case Err(failure) => Err(failure)
      case Ok(_) =>
        if Has(journal, e.id, component) then Ok(Nothing)
        else Ok(Commit(None, WorkerBlock(component, e, answer, id), ResultFor(e, answer, id)))
  }

  /** The event that announces a new order. */
  function CreatedEvent(order: OrderId, id: EventId): Event {
    Event(id, order, order, "", Pending, NoStatus, OrderCreated, SCHEMA_VERSION, map[])
  }
}
