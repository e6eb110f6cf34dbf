/** The workers' handlers, step by step over one transaction. */
module WorkerService {
  import opened Domain
  import opened Topics
  import opened Tables
  import opened Handlers
  import opened Store

  /** The tables after a processed command: four journal entries, in order, and the result. */
  function Processed(t: Tables, component: Component, e: Event, call: GatewayCall, response: GatewayAnswer,
                     result: Event): Tables {
    var j1 := JournalAppend(t.journal, WorkerEntry(component, e, In, None, None));
    var j2 := JournalAppend(j1, WorkerEntry(component, e, GatewayRequest, Some(call), None));
    var j3 := JournalAppend(j2, WorkerEntry(component, e, GatewayResponse, None, Some(response)));
    Publish(t.(journal := JournalAppend(j3, WorkerEntry(component, result, Out, None, None))), result)
  }

  lemma EffectIsProcessed(t: Tables, component: Component, e: Event, answer: GatewayAnswer, id: EventId)
    requires IsCommand(e.kind) && ConsumerOf(e.kind) == Some(component) && CommandCheck(e).Ok?
    ensures var decided := WorkerEffect(t.journal, component, e, answer, id);
      decided.Ok? && ApplyEffect(t, decided.value)
        == if Has(t.journal, e.id, component) then t
           else Processed(t, component, e, CallFor(e), NoteOf(e, answer), ResultFor(e, answer, id))
  {
    hide JournalAppend, Publish, Has;
    var block := WorkerBlock(component, e, answer, id);
    var j1 := JournalAppend(t.journal, block[0]);
    var j2 := JournalAppend(j1, block[1]);
    var j3 := JournalAppend(j2, block[2]);
    assert block[1..] == [block[1], block[2], block[3]] && [block[1], block[2], block[3]][1..] == [block[2], block[3]];
    assert [block[2], block[3]][1..] == [block[3]] && [block[3]][1..] == [];
    assert JournalAppendAll(j3, [block[3]]) == JournalAppend(j3, block[3]);
    assert JournalAppendAll(j2, [block[2], block[3]]) == JournalAppendAll(j3, [block[3]]);
    assert JournalAppendAll(j1, [block[1], block[2], block[3]]) == JournalAppendAll(j2, [block[2], block[3]]);
  }

  /** The worker's view of an event, one journal row. */
  method AppendLog(tx: Session, component: Component, e: Event, direction: Direction, request: Option<GatewayCall>,
                   response: Option<GatewayAnswer>) returns (r: Result<(), Failure>)
    modifies tx`journal
    ensures r.Ok? ==>
      tx.journal == JournalAppend(old(tx.journal), WorkerEntry(component, e, direction, request, response))
    ensures r.Err? ==> r.error == Transient
  {
    r := tx.AppendEntry(JournalEntry(e.order, e.sagaId, e.id, e.kind, component, direction, e.previous, e.status, e,
                                     request, response));
  }

  method AlreadyProcessed(tx: Session, component: Component, e: Event) returns (r: Result<bool, Failure>)
    ensures r.Ok? ==> (r.value <==> Has(tx.journal, e.id, component))
    ensures r.Err? ==> r.error == Transient
  {
    r := tx.HasEntry(e.id, component);
  }

  class PaymentUseCase {
    const uow: UnitOfWork

    constructor (uow: UnitOfWork)
      ensures this.uow == uow
    {
      this.uow := uow;
    }

    /** All or nothing, whatever the gateway answers and whichever call fails. */
    method Handle(e: Event, answer: GatewayAnswer, id: EventId) returns (r: Result<(), Failure>)
      modifies uow
      ensures AllOrNothing(old(uow.committed), uow.committed,
                           WorkerEffect(old(uow.committed.journal), PaymentWorker, e, answer, id), r)
    {
      match e.kind {
        case PaymentCommand =>
          if !e.status.PaymentPending? {
            return Err(NonRetryable(BadCommandStatus));
          }
        case PaymentCompensate =>
          if !e.status.PaymentRefundPending? {
            return Err(NonRetryable(BadCommandStatus));
          }
          if e.tx == "" {
            return Err(NonRetryable(MissingTransaction));
          }
        case _ =>
          return Ok(());
      }
      var begun := uow.Begin();
      if begun.Err? {
        return Err(begun.error);
      }
      var tx := begun.value;
      if e.kind.PaymentCommand? {
        r := Process(tx, e, answer, id);
      } else {
        r := Refund(tx, e, answer, id);
      }
      if r.Err? {
        return;
      }
      r := uow.Commit(tx);
    }

    method Process(tx: Session, e: Event, answer: GatewayAnswer, id: EventId) returns (r: Result<(), Failure>)
      requires e.kind.PaymentCommand? && e.status.PaymentPending?
      modifies tx
      ensures RanInTx(old(tx.Contents()), tx.Contents(),
                      WorkerEffect(old(tx.journal), PaymentWorker, e, answer, id), r)
    {
      hide WorkerEffect, ApplyEffect, JournalAppend, Publish, Has;
      EffectIsProcessed(tx.Contents(), PaymentWorker, e, answer, id);
      var seen := AlreadyProcessed(tx, PaymentWorker, e);
      if seen.Err? {
        return Err(seen.error);
      }
      if seen.value {
        return Ok(());
      }
      r := AppendLog(tx, PaymentWorker, e, In, None, None);
      if r.Err? {
        return;
      }
      r := AppendLog(tx, PaymentWorker, e, GatewayRequest, Some(GatewayCall(e.order, "process", "")), None);
      if r.Err? {
        return;
      }
      var response := GatewayAnswer(answer.ok, answer.tx, None);
      if answer.error.Some? {
        response := GatewayAnswer(false, "", answer.error);
      }
      r := AppendLog(tx, PaymentWorker, e, GatewayResponse, None, Some(response));
      if r.Err? {
        return;
      }
      var result := Event(id, e.order, e.sagaId, "", NoStatus, e.status, PaymentResult, SCHEMA_VERSION, map[]);
      if answer.error.Some? {
        result := result.(status := Retrying, metadata := map["erro" := answer.error.value]);
      } else if answer.ok {
        result := result.(status := PaymentApproved, tx := answer.tx);
      } else {
        result := result.(status := Failed);
      }
      r := AppendLog(tx, PaymentWorker, result, Out, None, None);
      if r.Err? {
        return;
      }
      r := tx.Enqueue(result);
    }

    method Refund(tx: Session, e: Event, answer: GatewayAnswer, id: EventId) returns (r: Result<(), Failure>)
      requires e.kind.PaymentCompensate? && e.status.PaymentRefundPending? && e.tx != ""
      modifies tx
      ensures RanInTx(old(tx.Contents()), tx.Contents(),
                      WorkerEffect(old(tx.journal), PaymentWorker, e, answer, id), r)
    {
      hide WorkerEffect, ApplyEffect, JournalAppend, Publish, Has;
      EffectIsProcessed(tx.Contents(), PaymentWorker, e, answer, id);
      var seen := AlreadyProcessed(tx, PaymentWorker, e);
      if seen.Err? {
        return Err(seen.error);
      }
      if seen.value {
        return Ok(());
      }
      r := AppendLog(tx, PaymentWorker, e, In, None, None);
      if r.Err? {
        return;
      }
      r := AppendLog(tx, PaymentWorker, e, GatewayRequest, Some(GatewayCall(e.order, "refund", e.tx)), None);
      if r.Err? {
        return;
      }
      var response := GatewayAnswer(answer.ok, "", None);
      if answer.error.Some? {
        response := GatewayAnswer(false, "", answer.error);
      }
      r := AppendLog(tx, PaymentWorker, e, GatewayResponse, None, Some(response));
      if r.Err? {
        return;
      }
      var result := Event(id, e.order, e.sagaId, e.tx, NoStatus, e.status, PaymentCompensateResult, SCHEMA_VERSION,
                          map[]);
      if answer.error.Some? {
        result := result.(status := Retrying, metadata := map["erro" := answer.error.value]);
      } else if answer.ok {
        result := result.(status := PaymentRefunded);
      } else {
        result := result.(status := Failed);
      }
      r := AppendLog(tx, PaymentWorker, result, Out, None, None);
      if r.Err? {
        return;
      }
      r := tx.Enqueue(result);
    }
  }

  class InventoryUseCase {
    const uow: UnitOfWork

    constructor (uow: UnitOfWork)
      ensures this.uow == uow
    {
      this.uow := uow;
    }

    method Handle(e: Event, answer: GatewayAnswer, id: EventId) returns (r: Result<(), Failure>)
      modifies uow
      ensures AllOrNothing(old(uow.committed), uow.committed,
                           WorkerEffect(old(uow.committed.journal), InventoryWorker, e, answer, id), r)
    {
      if !e.kind.InventoryCommand? {
        return Ok(());
      }
      if !e.status.PaymentApproved? {
        return Err(NonRetryable(BadCommandStatus));
      }
      var begun := uow.Begin();
      if begun.Err? {
        return Err(begun.error);
      }
      var tx := begun.value;
      r := Reserve(tx, e, answer, id);
      if r.Err? {
        return;
      }
      r := uow.Commit(tx);
    }

    method Reserve(tx: Session, e: Event, answer: GatewayAnswer, id: EventId) returns (r: Result<(), Failure>)
      requires e.kind.InventoryCommand? && e.status.PaymentApproved?
      modifies tx
      ensures RanInTx(old(tx.Contents()), tx.Contents(),
                      WorkerEffect(old(tx.journal), InventoryWorker, e, answer, id), r)
    {
      hide WorkerEffect, ApplyEffect, JournalAppend, Publish, Has;
      EffectIsProcessed(tx.Contents(), InventoryWorker, e, answer, id);
      var seen := AlreadyProcessed(tx, InventoryWorker, e);
      if seen.Err? {
        return Err(seen.error);
      }
      if seen.value {
        return Ok(());
      }
      r := AppendLog(tx, InventoryWorker, e, In, None, None);
      if r.Err? {
        return;
      }
      r := AppendLog(tx, InventoryWorker, e, GatewayRequest, Some(GatewayCall(e.order, "reserve", "")), None);
      if r.Err? {
        return;
      }
      var response := GatewayAnswer(answer.ok, "", None);
      if answer.error.Some? {
        response := GatewayAnswer(false, "", answer.error);
      }
      r := AppendLog(tx, InventoryWorker, e, GatewayResponse, None, Some(response));
      if r.Err? {
        return;
      }
      var result := Event(id, e.order, e.sagaId, "", NoStatus, e.status, InventoryResult, SCHEMA_VERSION, map[]);
      if answer.error.Some? {
        result := result.(status := Retrying, metadata := map["erro" := answer.error.value]);
      } else if answer.ok {
        result := result.(status := InventoryReserved);
      } else {
        result := result.(status := Failed);
      }
      r := AppendLog(tx, InventoryWorker, result, Out, None, None);
      if r.Err? {
        return;
      }
      r := tx.Enqueue(result);
    }
  }

  class NotificationUseCase {
    const uow: UnitOfWork

    constructor (uow: UnitOfWork)
      ensures this.uow == uow
    {
      this.uow := uow;
    }

    method Handle(e: Event, answer: GatewayAnswer, id: EventId) returns (r: Result<(), Failure>)
      modifies uow
      ensures AllOrNothing(old(uow.committed), uow.committed,
                           WorkerEffect(old(uow.committed.journal), NotificationWorker, e, answer, id), r)
    {
      if !e.kind.NotificationCommand? {
        return Ok(());
      }
      if !e.status.InventoryReserved? {
        return Err(NonRetryable(BadCommandStatus));
      }
      var begun := uow.Begin();
      if begun.Err? {
        return Err(begun.error);
      }
      var tx := begun.value;
      r := Notify(tx, e, answer, id);
      if r.Err? {
        return;
      }
      r := uow.Commit(tx);
    }

    method Notify(tx: Session, e: Event, answer: GatewayAnswer, id: EventId) returns (r: Result<(), Failure>)
      requires e.kind.NotificationCommand? && e.status.InventoryReserved?
      modifies tx
      ensures RanInTx(old(tx.Contents()), tx.Contents(),
                      WorkerEffect(old(tx.journal), NotificationWorker, e, answer, id), r)
    {
      hide WorkerEffect, ApplyEffect, JournalAppend, Publish, Has;
      EffectIsProcessed(tx.Contents(), NotificationWorker, e, answer, id);
      var seen := AlreadyProcessed(tx, NotificationWorker, e);
      if seen.Err? {
        return Err(seen.error);
      }
      if seen.value {
        return Ok(());
      }
      r := AppendLog(tx, NotificationWorker, e, In, None, None);
      if r.Err? {
        return;
      }
      r := AppendLog(tx, NotificationWorker, e, GatewayRequest, Some(GatewayCall(e.order, "notify", "")), None);
      if r.Err? {
        return;
      }
      var response := GatewayAnswer(answer.ok, "", None);
      if answer.error.Some? {
        response := GatewayAnswer(false, "", answer.error);
      }
      r := AppendLog(tx, NotificationWorker, e, GatewayResponse, None, Some(response));
      if r.Err? {
        return;
      }
      var result := Event(id, e.order, e.sagaId, "", NoStatus, e.status, NotificationResult, SCHEMA_VERSION, map[]);
      if answer.error.Some? {
        result := result.(status := Retrying, metadata := map["erro" := answer.error.value]);
      } else if answer.ok {
        result := result.(status := Notified);
      } else {
        result := result.(status := Failed);
      }
      r := AppendLog(tx, NotificationWorker, result, Out, None, None);
      if r.Err? {
        return;
      }
      r := tx.Enqueue(result);
    }
  }
}
