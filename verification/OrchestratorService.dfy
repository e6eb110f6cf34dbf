/** The orchestrator's handlers, step by step over one transaction. */
module OrchestratorService {
  import opened Domain
  import opened Topics
  import opened StateMachine
  import opened Tables
  import opened Handlers
  import opened Store
  import Steps = SagaSteps

  /** The saga a handler loads and changes in place. */
  class LiveSaga {
    var order: OrderId
    var previous: OrderStatus
    var current: OrderStatus
    var retryCount: int
    var tx: string

    constructor (row: Saga)
      ensures Row() == row
    {
      order, previous, current, retryCount, tx := row.order, row.previous, row.current, row.retryCount, row.tx;
    }

    function Row(): Saga
      reads this
    {
      Saga(order, previous, current, retryCount, tx)
    }
  }

  /** The tables after a move: row saved, OUT entry logged, event enqueued. */
  function Written(t: Tables, m: Steps.Move): Tables {
    Publish(t.(sagas := t.sagas[m.saga.order := m.saga], journal := JournalAppend(t.journal, OutEntry(m))), m.out)
  }

  /** Saving the row early, as the code does, changes nothing in the end. */
  lemma EarlySave(t: Tables, row: Saga, m: Steps.Move)
    requires row.order == m.saga.order
    ensures Written(t.(sagas := t.sagas[row.order := row]), m) == Written(t, m)
  {
  }

  lemma EffectIsWritten(t: Tables, before: Saga, e: Event, seenAs: OrderStatus, m: Steps.Move)
    ensures ApplyEffect(t, Accept(before, e, seenAs, m))
         == Written(t.(journal := JournalAppend(t.journal,
                                                OrchestratorEntry(before, e, e.kind, In, before.previous, seenAs))), m)
  {
    var x, y := OrchestratorEntry(before, e, e.kind, In, before.previous, seenAs), OutEntry(m);
    assert [x, y][1..] == [y] && [y][1..] == [];
    assert JournalAppendAll(JournalAppend(t.journal, x), [y]) == JournalAppend(JournalAppend(t.journal, x), y);
    assert JournalAppendAll(t.journal, [x, y]) == JournalAppendAll(JournalAppend(t.journal, x), [y]);
  }

  /** Whether a step over a transaction did exactly the move, or stopped with the move's own
      error or a fault. */
  ghost predicate Did(before: Tables, after: Tables, row: Saga, move: Result<Steps.Move, Failure>,
                      r: Result<(), Failure>) {
    && (r.Ok? ==> move.Ok? && row == move.value.saga && after == Written(before, move.value))
    && (r.Err? ==> r.error == Transient || move == Err(r.error))
  }

  /** Copies a metadata map entry by entry. */
  method CloneMetadata(metadata: Metadata) returns (cloned: Metadata)
    ensures cloned == metadata
  {
    cloned := map[];
    var keys := metadata.Keys;
    while keys != {}
      invariant keys <= metadata.Keys
      invariant cloned == map k | k in metadata.Keys - keys :: metadata[k]
      decreases keys
    {
      var key :| key in keys;
      cloned := cloned[key := metadata[key]];
      keys := keys - {key};
    }
  }

  class Service {
    const uow: UnitOfWork
    const maxRetries: int

    constructor (uow: UnitOfWork, maxRetries: int)
      ensures this.uow == uow && this.maxRetries == maxRetries
    {
      this.uow, this.maxRetries := uow, maxRetries;
    }

    /** The single entry point. Every run is all or nothing over the three tables. */
    method HandleEvent(e: Event, id: EventId) returns (r: Result<(), Failure>)
      modifies uow
      ensures AllOrNothing(old(uow.committed), uow.committed,
        OrchestratorEffect(old(uow.committed).sagas, old(uow.committed).journal, e, id, maxRetries), r)
    {
      var begun := uow.Begin();
      if begun.Err? {
        return Err(begun.error);
      }
      var tx := begun.value;
      var done;
      if e.kind.OrderCreated? {
        done := StartOrder(tx, e, id);
      } else {
        done := HandleResult(tx, e, id);
      }
      if done.Err? {
        return done;
      }
      r := uow.Commit(tx);
    }

    method StartOrder(tx: Session, e: Event, id: EventId) returns (r: Result<(), Failure>)
      requires e.kind.OrderCreated?
      modifies tx
      ensures RanInTx(old(tx.Contents()), tx.Contents(),
                      OrchestratorEffect(old(tx.sagas), old(tx.journal), e, id, maxRetries), r)
    {
      var seen := tx.HasEntry(e.id, Orchestrator);
      if seen.Err? {
        return Err(seen.error);
      }
      if seen.value {
        return Ok(());
      }
      var loaded := tx.Load(e.order);
      match loaded {
        case Found(_) => return Err(NonRetryable(SagaAlreadyStarted));
        case LoadFailed => return Err(Transient);
        case NotFound =>
      }
      var saga := new LiveSaga(Saga(e.order, NoStatus, Pending, 0, ""));
      ghost var before, t0 := saga.Row(), tx.Contents();
      r := LogEvent(tx, saga, e, OrderCreated, In, Pending);
      if r.Err? {
        return;
      }
      ghost var t1 := tx.Contents();
      r := tx.Save(saga.Row());
      if r.Err? {
        return;
      }
      r := DispatchNext(tx, saga, id);
      ghost var m := Steps.DispatchNext(before, id);
      if r.Ok? {
        EarlySave(t1, before, m.value);
        EffectIsWritten(t0, before, e, Pending, m.value);
      }
    }

    method HandleResult(tx: Session, e: Event, id: EventId) returns (r: Result<(), Failure>)
      requires !e.kind.OrderCreated?
      modifies tx
      ensures RanInTx(old(tx.Contents()), tx.Contents(),
                      OrchestratorEffect(old(tx.sagas), old(tx.journal), e, id, maxRetries), r)
    {
      if !IsResult(e.kind) {
        return Ok(());
      }
      var loaded := tx.Load(e.order);
      var row: Saga;
      match loaded {
        case NotFound => return Err(NonRetryable(UnknownSaga));
        case LoadFailed => return Err(Transient);
        case Found(found) => row := found;
      }
      var seen := tx.HasEntry(e.id, Orchestrator);
      if seen.Err? {
        return Err(seen.error);
      }
      if seen.value {
        return Ok(());
      }
      var saga := new LiveSaga(row);
      ghost var t0 := tx.Contents();
      r := LogEvent(tx, saga, e, e.kind, In, e.status);
      if r.Err? {
        return;
      }
      r := Decide(tx, saga, e, id);
      if r.Ok? {
        EffectIsWritten(t0, row, e, e.status, Steps.OnResult(row, e, id, maxRetries).value);
      }
    }

    /** The part of handleResult that follows the journal entry. */
    method Decide(tx: Session, saga: LiveSaga, e: Event, id: EventId) returns (r: Result<(), Failure>)
      modifies tx, saga
      ensures Did(old(tx.Contents()), tx.Contents(), saga.Row(),
                  Steps.OnResult(old(saga.Row()), e, id, maxRetries), r)
    {
      var expected := Steps.ExpectedStatusForResult(e.kind);
      if expected.None? {
        return Err(UnsupportedType);
      }
      if saga.current != expected.value {
        return Err(NonRetryable(OutOfOrder));
      }
      if !Steps.ValidResultStatus(e.kind, e.status) {
        return Err(NonRetryable(IncompatibleStatus));
      }
      match e.status {
        case Retrying => r := Retry(tx, saga, id);
        case Failed => r := DecideFailed(tx, saga, e, id);
        case PaymentApproved => r := Advance(tx, saga, e, id);
        case InventoryReserved => r := Advance(tx, saga, e, id);
        case PaymentRefunded =>
          var metadata := CloneMetadata(e.metadata);
          metadata := metadata["payment_refunded" := "true"];
          metadata := metadata["transaction_id" := e.tx];
          r := Fail(tx, saga, id, metadata);
        case Notified => r := Complete(tx, saga, id, map[]);
        case _ => r := Err(NonRetryable(UnexpectedStatus));
      }
    }

    method DecideFailed(tx: Session, saga: LiveSaga, e: Event, id: EventId) returns (r: Result<(), Failure>)
      requires e.status.Failed?
      requires Steps.ExpectedStatusForResult(e.kind) == Some(saga.current) && Steps.ValidResultStatus(e.kind, e.status)
      modifies tx, saga
      ensures Did(old(tx.Contents()), tx.Contents(), saga.Row(),
                  Steps.OnResult(old(saga.Row()), e, id, maxRetries), r)
    {
      if e.kind.NotificationResult? {
        r := Complete(tx, saga, id, map["notification_error" := "true"]);
        return;
      }
      if e.kind.InventoryResult? && saga.current.PaymentApproved? && saga.tx != "" {
        r := StartCompensation(tx, saga, id);
        return;
      }
      if e.kind.PaymentCompensateResult? {
        var metadata := CloneMetadata(e.metadata);
        metadata := metadata["payment_refund_failed" := "true"];
        metadata := metadata["transaction_id" := e.tx];
        r := Fail(tx, saga, id, metadata);
        return;
      }
      r := Fail(tx, saga, id, e.metadata);
    }

    method Advance(tx: Session, saga: LiveSaga, e: Event, id: EventId) returns (r: Result<(), Failure>)
      modifies tx, saga
      ensures Did(old(tx.Contents()), tx.Contents(), saga.Row(), Steps.Advance(old(saga.Row()), e, id), r)
    {
      if !CanTransitionTo(saga.current, e.status) {
        return Err(InvalidTransition);
      }
      saga.previous := saga.current;
      saga.current := e.status;
      saga.retryCount := 0;
      if e.kind.PaymentResult? {
        saga.tx := e.tx;
      }
      r := SaveAndDispatch(tx, saga, id);
    }

    /** Saves the row as it is, then dispatches the next command. */
    method SaveAndDispatch(tx: Session, saga: LiveSaga, id: EventId) returns (r: Result<(), Failure>)
      modifies tx, saga
      ensures Did(old(tx.Contents()), tx.Contents(), saga.Row(), Steps.DispatchNext(old(saga.Row()), id), r)
    {
      ghost var t0, row := tx.Contents(), saga.Row();
      r := tx.Save(saga.Row());
      if r.Err? {
        return;
      }
      r := DispatchNext(tx, saga, id);
      if r.Ok? {
        EarlySave(t0, row, Steps.DispatchNext(row, id).value);
      }
    }

    method Retry(tx: Session, saga: LiveSaga, id: EventId) returns (r: Result<(), Failure>)
      modifies tx, saga
      ensures Did(old(tx.Contents()), tx.Contents(), saga.Row(), Steps.Retry(old(saga.Row()), id, maxRetries), r)
    {
      saga.retryCount := saga.retryCount + 1;
      ghost var t0, row := tx.Contents(), saga.Row();
      r := tx.Save(saga.Row());
      if r.Err? {
        return;
      }
      if saga.retryCount > maxRetries {
        r := GiveUp(tx, saga, id);
      } else {
        r := DispatchNext(tx, saga, id);
      }
      if r.Ok? {
        EarlySave(t0, row, Steps.Retry(row.(retryCount := row.retryCount - 1), id, maxRetries).value);
      }
    }

    /** The end of a stage whose retries are used up. */
    method GiveUp(tx: Session, saga: LiveSaga, id: EventId) returns (r: Result<(), Failure>)
      requires saga.retryCount > maxRetries
      modifies tx, saga
      ensures Did(old(tx.Contents()), tx.Contents(), saga.Row(),
                  Steps.Retry(old(saga.Row()).(retryCount := old(saga.retryCount) - 1), id, maxRetries), r)
    {
      if saga.current.InventoryReserved? {
        r := Complete(tx, saga, id, map["notification_error" := "true", "motivo" := "retry_limit_exceeded"]);
        return;
      }
      var metadata := map["motivo" := "retry_limit_exceeded"];
      if saga.current.PaymentRefundPending? {
        metadata := metadata["payment_refund_failed" := "true"];
        metadata := metadata["transaction_id" := saga.tx];
        assert metadata == map["motivo" := "retry_limit_exceeded", "payment_refund_failed" := "true",
                               "transaction_id" := saga.tx];
      }
      r := Fail(tx, saga, id, metadata);
    }

    method StartCompensation(tx: Session, saga: LiveSaga, id: EventId) returns (r: Result<(), Failure>)
      modifies tx, saga
      ensures Did(old(tx.Contents()), tx.Contents(), saga.Row(), Steps.StartCompensation(old(saga.Row()), id), r)
    {
      if !CanTransitionTo(saga.current, PaymentRefundPending) {
        return Err(InvalidTransition);
      }
      saga.previous := saga.current;
      saga.current := PaymentRefundPending;
      saga.retryCount := 0;
      r := SaveAndDispatch(tx, saga, id);
    }

    method Fail(tx: Session, saga: LiveSaga, id: EventId, metadata: Metadata) returns (r: Result<(), Failure>)
      modifies tx, saga
      ensures Did(old(tx.Contents()), tx.Contents(), saga.Row(), Steps.Fail(old(saga.Row()), id, metadata), r)
    {
      if !CanTransitionTo(saga.current, Failed) {
        return Err(InvalidTransition);
      }
      var previousStatus := saga.current;
      saga.previous := previousStatus;
      saga.current := Failed;
      saga.retryCount := 0;
      r := tx.Save(saga.Row());
      if r.Err? {
        return;
      }
      var terminal := Steps.TerminalEvent(id, saga.order, previousStatus, Failed, OrderFailed, metadata);
      r := LogEvent(tx, saga, terminal, OrderFailed, Out, Failed);
      if r.Err? {
        return;
      }
      r := tx.Enqueue(terminal);
    }

    method Complete(tx: Session, saga: LiveSaga, id: EventId, metadata: Metadata) returns (r: Result<(), Failure>)
      modifies tx, saga
      ensures Did(old(tx.Contents()), tx.Contents(), saga.Row(), Steps.Complete(old(saga.Row()), id, metadata), r)
    {
      if !CanTransitionTo(saga.current, Notified) {
        return Err(InvalidTransition);
      }
      ghost var t0 := tx.Contents();
      saga.previous := saga.current;
      saga.current := Notified;
      saga.retryCount := 0;
      r := tx.Save(saga.Row());
      if r.Err? {
        return;
      }
      var terminal := Steps.TerminalEvent(id, saga.order, Notified, Completed, OrderCompleted, metadata);
      r := LogEvent(tx, saga, terminal, OrderCompleted, Out, Completed);
      if r.Err? {
        return;
      }
      r := tx.Enqueue(terminal);
      if r.Err? {
        return;
      }
      saga.previous := Notified;
      saga.current := Completed;
      r := tx.Save(saga.Row());
      assert r.Ok? ==> tx.sagas == t0.sagas[saga.order := saga.Row()];
    }

    method DispatchNext(tx: Session, saga: LiveSaga, id: EventId) returns (r: Result<(), Failure>)
      modifies tx, saga
      ensures Did(old(tx.Contents()), tx.Contents(), saga.Row(), Steps.DispatchNext(old(saga.Row()), id), r)
    {
      var next := Steps.NextCommand(saga.current);
      if next.Err? {
        return Err(next.error);
      }
      var (targetStatus, kind) := next.value;
      var command := Event(id, saga.order, saga.order, saga.tx, targetStatus, saga.previous, kind, SCHEMA_VERSION,
                           map[]);
      if targetStatus != saga.current {
        saga.previous := saga.current;
        saga.current := targetStatus;
      }
      r := tx.Save(saga.Row());
      if r.Err? {
        return;
      }
      r := LogEvent(tx, saga, command, kind, Out, targetStatus);
      if r.Err? {
        return;
      }
      r := tx.Enqueue(command);
    }

    method LogEvent(tx: Session, saga: LiveSaga, payload: Event, kind: EventType, direction: Direction,
                    status: OrderStatus) returns (r: Result<(), Failure>)
      modifies tx`journal
      ensures r.Ok? ==>
        tx.journal == JournalAppend(old(tx.journal),
                                    OrchestratorEntry(saga.Row(), payload, kind, direction, saga.previous, status))
      ensures r.Err? ==> r.error == Transient
    {
      r := tx.AppendEntry(OrchestratorEntry(saga.Row(), payload, kind, direction, saga.previous, status));
    }
  }
}
