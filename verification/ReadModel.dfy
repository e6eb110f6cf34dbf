/** What the read model shows of a finished order once all its events have arrived. */
module ReadModel {
  import opened Domain
  import opened StateMachine
  import opened SagaSteps
  import opened History
  import opened Handlers
  import opened Protocol
  import opened Guarantees
  import opened Outcomes
  import opened Projection

  /** Every event ever sent for an order. */
  ghost function EventsOf(w: World, order: OrderId): set<Event> {
    set e | e in w.sent && e.order == order
  }

  /** es delivers every event of the order once, in some order. */
  ghost predicate Delivers(es: seq<Event>, w: World, order: OrderId) {
    multiset(es) == multiset(EventsOf(w, order))
  }

  ghost predicate Finished(w: World, order: OrderId) {
    order in w.sagas && IsTerminal(w.sagas[order].current)
  }

  lemma DeliveredMembers(es: seq<Event>, w: World, order: OrderId)
    requires Delivers(es, w, order)
    ensures forall e :: e in es <==> e in w.sent && e.order == order
  {
    forall e
      ensures e in es <==> e in w.sent && e.order == order
    {
      assert e in es <==> e in multiset(es);
      assert e in multiset(EventsOf(w, order)) <==> e in EventsOf(w, order);
    }
  }

  // ---------------------------------------------------------------- flags in one step

  /** The metadata of the event an accepted result leads to: the notification flag says the
      order completes without a confirmed notification, the refund flag that it fails
      without a confirmed refund. */
  lemma StepFlags(row: Saga, e: Event, id: EventId, maxRetries: int)
    requires OnResult(row, e, id, maxRetries).Ok?
    requires "notification_error" !in e.metadata && "payment_refund_failed" !in e.metadata
    ensures var m := OnResult(row, e, id, maxRetries).value;
      && (Flag(m.out, "notification_error") <==> m.saga.current.Completed? && !e.status.Notified?)
      && (Flag(m.out, "payment_refund_failed") <==>
            m.saga.current.Failed? && e.kind.PaymentCompensateResult? && !e.status.PaymentRefunded?)
  {
    hide CanTransitionTo;
    KeysDiffer();
  }

  lemma StepTells(row: Saga, e: Event, id: EventId, maxRetries: int)
    requires OnResult(row, e, id, maxRetries).Ok?
    requires "payment_refunded" !in e.metadata && "motivo" !in e.metadata
    ensures var m := OnResult(row, e, id, maxRetries).value;
      IsTerminal(m.saga.current) ==>
        && (Flag(m.out, "payment_refunded") <==> e.status.PaymentRefunded?)
        && ("motivo" in m.out.metadata <==> e.status.Retrying?)
        && (e.status.Retrying? ==> m.out.metadata["motivo"] == "retry_limit_exceeded")
        && (row.current.PaymentRefundPending? ==>
              e.kind.PaymentCompensateResult? && "transaction_id" in m.out.metadata
              && m.out.metadata["transaction_id"] == if e.status.Retrying? then row.tx else e.tx)
  {
    hide CanTransitionTo;
    KeysDiffer();
  }

  lemma KeysDiffer()
    ensures "notification_error" != "payment_refund_failed"
    ensures "motivo" != "payment_refund_failed" && "motivo" != "notification_error"
    ensures "transaction_id" != "payment_refund_failed" && "transaction_id" != "notification_error"
    ensures "payment_refunded" != "payment_refund_failed" && "payment_refunded" != "notification_error"
    ensures "motivo" != "payment_refunded" && "transaction_id" != "payment_refunded" && "motivo" != "transaction_id"
    ensures "retry_limit_exceeded" != "true"
  {
  }

  // ---------------------------------------------------------------- what was sent

  /** The result whose acceptance ended the order. */
  ghost function LastConsumed(w: World, order: OrderId): Event
    requires Consumed(OrderJournal(w.journal, order)) != []
  {
    var es := Consumed(OrderJournal(w.journal, order));
    es[|es| - 1]
  }

  lemma ResultShape(w: World, e: Event)
    requires Explained(w, e) && IsResult(e.kind)
    ensures "notification_error" !in e.metadata && "payment_refund_failed" !in e.metadata
    ensures "payment_refunded" !in e.metadata && "motivo" !in e.metadata
    ensures !e.status.Completed?
    ensures e.status.Failed? ==> e.metadata == map[]
  {
  }

  /** A finished order consumed every result ever sent for it. */
  lemma FinishedConsumedAll(w: World, e: Event, maxRetries: int) returns (i: nat)
    requires Ids(w) && OrderOk(w, e.order, maxRetries) && Finished(w, e.order)
    requires e in w.sent && IsResult(e.kind)
    ensures i < |Consumed(OrderJournal(w.journal, e.order))| && Consumed(OrderJournal(w.journal, e.order))[i] == e
  {
    hide OrderOk, Ids, Consumed, OrderJournal;
    if Undelivered(w.journal, e) {
      LiveResult(w, e, maxRetries);
    }
    i := JournaledMeansConsumed(w, e, maxRetries);
  }

  /** A FAILED result other than a notification's dooms the order; a FAILED notification
      completes it at once. */
  lemma FailedResultDecides(es: seq<Event>, i: nat, maxRetries: int)
    requires Accepted(es, maxRetries) && i < |es| && IsResult(es[i].kind) && es[i].status.Failed?
    ensures Replay(es, maxRetries).Some?
    ensures es[i].kind.NotificationResult? ==> i == |es| - 1 && Replay(es, maxRetries).value.current.Completed?
    ensures !es[i].kind.NotificationResult? ==>
      Replay(es, maxRetries).value.current.PaymentRefundPending? || Replay(es, maxRetries).value.current.Failed?
  {
    hide Accepted, Decide, Replay, OnResult;
    CommittedRows(es, maxRetries);
    AcceptedAt(es, i, maxRetries);
    FailedStep(Replay(es[..i], maxRetries).value, es[i], maxRetries);
    StagesAreMonotone(es, i + 1, |es|, maxRetries);
    assert es[..|es|] == es;
  }

  lemma FailedStep(row: Saga, e: Event, maxRetries: int)
    requires OnResult(row, e, "", maxRetries).Ok? && e.status.Failed?
    ensures var next := OnResult(row, e, "", maxRetries).value.saga;
      if e.kind.NotificationResult? then next.current.Completed?
      else next.current.PaymentRefundPending? || next.current.Failed?
  {
  }

  /** Which events of a finished order carry a terminal status: its one ending, and FAILED
      results. All agree with the saga but the FAILED notification of a completed order. */
  lemma TerminalStatuses(w: World, e: Event, maxRetries: int)
    requires Ids(w) && Origins(w) && OrderOk(w, e.order, maxRetries) && Finished(w, e.order)
    requires e in w.sent && IsTerminal(e.status)
    ensures e.status == w.sagas[e.order].current
         || (e.kind.NotificationResult? && e.status.Failed? && w.sagas[e.order].current.Completed?)
    ensures e.kind.NotificationResult? ==> w.sagas[e.order].current.Completed?
  {
    hide OrderOk, Ids, Explained, Consumed, OrderJournal, Accepted, Replay, Ledger;
    assert Explained(w, e);
    var f := OrderJournal(w.journal, e.order);
    HistoryOf(w, e.order, maxRetries);
    if IsResult(e.kind) {
      ResultShape(w, e);
      var i := FinishedConsumedAll(w, e, maxRetries);
      FailedResultDecides(Consumed(f), i, maxRetries);
    } else if e.kind.OrderCreated? {
      CreatedIsPending(w, e);
    } else {
      var i := SentMeansLedger(w, e, maxRetries);
      LedgerOf(w, e.order, maxRetries);
      SentAt(f, i, maxRetries);
      StagesAreMonotone(Consumed(f), i + 1, |Consumed(f)|, maxRetries);
    }
  }

  /** Only the ending of a completed order says COMPLETED. */
  lemma CompletedStatus(w: World, e: Event, maxRetries: int)
    requires Ids(w) && Origins(w) && OrderOk(w, e.order, maxRetries)
    requires e in w.sent && e.status.Completed?
    ensures e.order in w.sagas && w.sagas[e.order].current.Completed?
  {
    hide OrderOk, Ids, Explained, Consumed, OrderJournal, Accepted, Replay, Ledger, CanTransitionTo;
    assert Explained(w, e);
    if IsResult(e.kind) {
      ResultShape(w, e);
    } else if e.kind.OrderCreated? {
      CreatedIsPending(w, e);
    } else {
      var i := SentMeansLedger(w, e, maxRetries);
      LedgerOf(w, e.order, maxRetries);
      SentAt(OrderJournal(w.journal, e.order), i, maxRetries);
      EndingIsLast(w, e, maxRetries);
    }
  }

  lemma CreatedIsPending(w: World, e: Event)
    requires Explained(w, e) && e.kind.OrderCreated?
    ensures e.status.Pending? && e.tx == "" && e.metadata == map[]
  {
  }

  lemma EndingOf(w: World, order: OrderId, maxRetries: int) returns (t: Event)
    requires Ids(w) && OrderOk(w, order, maxRetries) && Finished(w, order)
    ensures t in w.sent && t.order == order && IsTerminalEvent(t.kind) && t.status == w.sagas[order].current
    ensures OrderJournal(w.journal, order) != []
      && t == OrderJournal(w.journal, order)[|OrderJournal(w.journal, order)| - 1].payload
  {
    hide Decide, Replay, Accepted, CanTransitionTo, Chained, TokenOk;
    var f := OrderJournal(w.journal, order);
    LastCommand(f, maxRetries);
    t := f[|f| - 1].payload;
    OrderJournalMembers(w.journal, order, f[|f| - 1]);
  }

  /** Flags travel only on the ending, and tell how the last result ended the order. */
  lemma FlagsOnlyAtTheEnd(w: World, e: Event, maxRetries: int)
    requires Ids(w) && Origins(w) && OrderOk(w, e.order, maxRetries) && Finished(w, e.order) && e in w.sent
    ensures Consumed(OrderJournal(w.journal, e.order)) != []
    ensures Flag(e, "notification_error") ==>
      w.sagas[e.order].current.Completed? && !LastConsumed(w, e.order).status.Notified?
    ensures Flag(e, "payment_refund_failed") ==>
      w.sagas[e.order].current.Failed? && LastConsumed(w, e.order).kind.PaymentCompensateResult?
      && !LastConsumed(w, e.order).status.PaymentRefunded?
  {
    hide OrderOk, Ids, Explained, Consumed, OrderJournal, Accepted, Replay, Ledger;
    assert Explained(w, e);
    var f := OrderJournal(w.journal, e.order);
    HistoryOf(w, e.order, maxRetries);
    if IsResult(e.kind) {
      ResultShape(w, e);
    } else if e.kind.OrderCreated? {
      CreatedIsPending(w, e);
    } else {
      var i := SentMeansLedger(w, e, maxRetries);
      LedgerOf(w, e.order, maxRetries);
      SentAt(f, i, maxRetries);
      if IsTerminalEvent(e.kind) {
        EndingIsLast(w, e, maxRetries);
        EndingFlags(w, e.order, maxRetries);
      }
    }
  }

  lemma EndingFlags(w: World, order: OrderId, maxRetries: int)
    requires Ids(w) && Origins(w) && OrderOk(w, order, maxRetries) && Finished(w, order)
    ensures Consumed(OrderJournal(w.journal, order)) != []
    ensures var f := OrderJournal(w.journal, order);
      f != [] && var t, row, last := f[|f| - 1].payload, w.sagas[order], LastConsumed(w, order);
      && (Flag(t, "notification_error") <==> row.current.Completed? && !last.status.Notified?)
      && (Flag(t, "payment_refund_failed") <==>
            row.current.Failed? && last.kind.PaymentCompensateResult? && !last.status.PaymentRefunded?)
  {
    hide OrderOk, Ids, Explained, Consumed, OrderJournal, Accepted, Replay, Ledger, OnResult;
    var f := OrderJournal(w.journal, order);
    var es := Consumed(f);
    HistoryOf(w, order, maxRetries);
    LedgerOf(w, order, maxRetries);
    CommittedRows(es, maxRetries);
    var i := |es| - 1;
    if i == 0 {
      OneEventRuns(es, maxRetries);
    } else {
      AcceptedAt(es, i, maxRetries);
      LedgerAt(f, i, maxRetries);
      ConsumedWasSent(w, order, i, maxRetries);
      assert Explained(w, es[i]);
      ResultShape(w, es[i]);
      var id := f[2 * i + 1].payload.id;
      var prior := Replay(es[..i], maxRetries).value;
      StepFlags(prior, es[i], id, maxRetries);
      FreshIdOnlyNames(Some(prior), es[i], id, maxRetries);
    }
  }

  /** A refund's result names the transaction of its saga. */
  lemma RefundResultNamesPayment(w: World, e: Event, maxRetries: int)
    requires Reachable(w, maxRetries) && e in w.sent && e.kind.PaymentCompensateResult?
    ensures e.order in w.sagas && e.tx == w.sagas[e.order].tx
  {
    hide Reachable, OrderOk, Ids, Explained, CausedBy;
    InvAt(w, e.order, maxRetries);
    assert Explained(w, e);
    var c := CommandBehind(w, e);
    RefundsMatchPayments(w, c, maxRetries);
    assert Explained(w, c);
    OrchestratorTransaction(w, c, maxRetries);
  }

  lemma CommandBehind(w: World, e: Event) returns (c: Event)
    requires Explained(w, e) && e.kind.PaymentCompensateResult?
    ensures c in w.sent && c.kind.PaymentCompensate? && c.order == e.order && c.tx == e.tx
  {
    c :| c in w.sent && CausedBy(w.journal, c, e);
    var k: nat, answer :| BlockAt(w.journal, k, c, answer, e);
    assert e == ResultFor(c, answer, e.id);
  }

  /** A finished order that entered the refund stage was in it when its last result came. */
  lemma RefundStageAtTheEnd(es: seq<Event>, maxRetries: int)
    requires Accepted(es, maxRetries) && |es| > 1 && EnteredRefund(es, maxRetries)
    requires Replay(es, maxRetries).Some? && IsTerminal(Replay(es, maxRetries).value.current)
    ensures var prior := Replay(es[..|es| - 1], maxRetries);
      prior.Some? && prior.value.current.PaymentRefundPending? && prior.value.tx == Replay(es, maxRetries).value.tx
  {
    hide Accepted, Replay;
    assert es[..|es|] == es;
    var k :| 0 < k <= |es| && Replay(es[..k], maxRetries).Some?
      && Replay(es[..k], maxRetries).value.current.PaymentRefundPending?;
    StagesAreMonotone(es, k, |es| - 1, maxRetries);
    StagesAreMonotone(es, |es| - 1, |es|, maxRetries);
  }

  /** What the one ending of a finished order tells about how it ended: whether a refund was
      confirmed, whether retries ran out, and, if a refund was asked for, the transaction the
      saga holds. */
  lemma EndingTellsWhy(w: World, order: OrderId, maxRetries: int) returns (t: Event)
    requires Reachable(w, maxRetries) && Finished(w, order)
    ensures Endings(w, order) == {t} && Consumed(OrderJournal(w.journal, order)) != []
    ensures var last := LastConsumed(w, order);
      && (Flag(t, "payment_refunded") <==> last.status.PaymentRefunded?)
      && ("motivo" in t.metadata <==> last.status.Retrying?)
      && (last.status.Retrying? ==> t.metadata["motivo"] == "retry_limit_exceeded")
      && (RefundAsked(w, order) ==>
            "transaction_id" in t.metadata && t.metadata["transaction_id"] == w.sagas[order].tx)
  {
    hide Reachable, OrderOk, Ids, Explained, Consumed, OrderJournal, Accepted, Replay, Ledger, OnResult, EnteredRefund,
      RefundAsked;
    InvAt(w, order, maxRetries);
    var f := OrderJournal(w.journal, order);
    var es := Consumed(f);
    HistoryOf(w, order, maxRetries);
    LedgerOf(w, order, maxRetries);
    CommittedRows(es, maxRetries);
    ExactlyOneEnding(w, order, maxRetries);
    t := EndingOf(w, order, maxRetries);
    assert t in Endings(w, order);
    var i := |es| - 1;
    if i == 0 {
      OneEventRuns(es, maxRetries);
    } else {
      AcceptedAt(es, i, maxRetries);
      LedgerAt(f, i, maxRetries);
      ConsumedWasSent(w, order, i, maxRetries);
      assert Explained(w, es[i]);
      ResultShape(w, es[i]);
      var prior := Replay(es[..i], maxRetries).value;
      StepTells(prior, es[i], t.id, maxRetries);
      FreshIdOnlyNames(Some(prior), es[i], t.id, maxRetries);
      RefundAskedMeansEntered(w, order, maxRetries);
      if RefundAsked(w, order) {
        RefundStageAtTheEnd(es, maxRetries);
        RefundResultNamesPayment(w, es[i], maxRetries);
      }
    }
  }

  lemma OneEventRuns(es: seq<Event>, maxRetries: int)
    requires Accepted(es, maxRetries) && |es| == 1
    ensures Replay(es, maxRetries).Some? && Replay(es, maxRetries).value.current.PaymentPending?
  {
  }

  // ---------------------------------------------------------------- the theorems

  lemma DeliveryIsNotEmpty(w: World, order: OrderId, es: seq<Event>, maxRetries: int) returns (t: Event)
    requires Ids(w) && OrderOk(w, order, maxRetries) && Finished(w, order) && Delivers(es, w, order)
    ensures es != [] && t in es && t.status == w.sagas[order].current
    ensures OrderJournal(w.journal, order) != []
      && t == OrderJournal(w.journal, order)[|OrderJournal(w.journal, order)| - 1].payload
  {
    hide OrderOk, Ids;
    t := EndingOf(w, order, maxRetries);
    DeliveredMembers(es, w, order);
  }

  /** Once every event of a finished order has arrived, in any order whatever: the view
      holds the saga's transaction id, its timeline holds each event once, its status is
      terminal, and its two flags say exactly how the order ended. */
  lemma ViewOfFinishedOrder(w: World, order: OrderId, es: seq<Event>, maxRetries: int)
    requires Reachable(w, maxRetries) && Finished(w, order) && Delivers(es, w, order)
    ensures es != [] && Consumed(OrderJournal(w.journal, order)) != []
    ensures var v, row, last := Project(es).value, w.sagas[order], LastConsumed(w, order);
      && v.tx == row.tx
      && v.timeline == es
      && IsTerminal(v.status)
      && (v.notificationError <==> row.current.Completed? && !last.status.Notified?)
      && (v.refundFailed <==>
            row.current.Failed? && last.kind.PaymentCompensateResult? && !last.status.PaymentRefunded?)
  {
    hide OrderOk, Ids, Origins, Consumed, OrderJournal, Delivers, LastConsumed;
    InvAt(w, order, maxRetries);
    var t := DeliveryIsNotEmpty(w, order, es, maxRetries);
    DeliveredMembers(es, w, order);
    ViewFields(es);
    EndingFlags(w, order, maxRetries);
    forall e | e in es
      ensures Flag(e, "notification_error") ==>
        w.sagas[order].current.Completed? && !LastConsumed(w, order).status.Notified?
      ensures Flag(e, "payment_refund_failed") ==>
        w.sagas[order].current.Failed? && LastConsumed(w, order).kind.PaymentCompensateResult?
        && !LastConsumed(w, order).status.PaymentRefunded?
    {
      FlagsOnlyAtTheEnd(w, e, maxRetries);
    }
    ViewTransaction(w, order, es, maxRetries);
  }

  lemma ViewTransaction(w: World, order: OrderId, es: seq<Event>, maxRetries: int)
    requires Ids(w) && Origins(w) && OrderOk(w, order, maxRetries) && Finished(w, order)
    requires Delivers(es, w, order) && es != []
    ensures Project(es).value.tx == w.sagas[order].tx
  {
    hide OrderOk, Ids, Origins, Consumed, OrderJournal, Delivers, Accepted, Replay;
    DeliveredMembers(es, w, order);
    ViewFields(es);
    var v, row := Project(es).value, w.sagas[order];
    if row.tx != "" {
      HistoryOf(w, order, maxRetries);
      var h := Consumed(OrderJournal(w.journal, order));
      TransactionComesFromApproval(h, maxRetries);
      var i :| 0 <= i < |h| && Approval(h[i]) && h[i].tx == row.tx;
      ConsumedWasSent(w, order, i, maxRetries);
      assert h[i] in es;
    }
    if v.tx != "" {
      var e :| e in es && e.tx == v.tx;
      TransactionOf(w, e, maxRetries);
    }
  }

  ghost predicate NotificationFailed(w: World, order: OrderId) {
    exists e :: e in w.sent && e.order == order && e.kind.NotificationResult? && e.status.Failed?
  }

  /** The view status agrees with the saga under every arrival order exactly when no
      notification result reported FAILED: then the saga completes, but a view that sees
      that result before ORDER_COMPLETED stays on FAILED for ever. */
  lemma StatusAgreesUnlessNotificationFailed(w: World, order: OrderId, maxRetries: int)
    requires Reachable(w, maxRetries) && Finished(w, order)
    ensures !NotificationFailed(w, order) <==>
      forall es: seq<Event> :: Delivers(es, w, order) ==>
        Project(es).Some? && Project(es).value.status == w.sagas[order].current
  {
    hide OrderOk, Ids, Origins, OrderJournal, Delivers;
    InvAt(w, order, maxRetries);
    if NotificationFailed(w, order) {
      var e :| e in w.sent && e.order == order && e.kind.NotificationResult? && e.status.Failed?;
      TerminalStatuses(w, e, maxRetries);
      var rest := Enumerate(EventsOf(w, order) - {e});
      var es := [e] + rest;
      assert Delivers(es, w, order) by {
        SplitOff(w, order, e, rest);
      }
      FirstEndingDecides(e, rest);
    } else {
      forall es: seq<Event> | Delivers(es, w, order)
        ensures Project(es).Some? && Project(es).value.status == w.sagas[order].current
      {
        var t := DeliveryIsNotEmpty(w, order, es, maxRetries);
        DeliveredMembers(es, w, order);
        ViewFields(es);
        var x :| x in es && x.status == Project(es).value.status;
        TerminalStatuses(w, x, maxRetries);
      }
    }
  }

  predicate FailedNotification(e: Event) {
    e.kind.NotificationResult? && e.status.Failed?
  }

  /** The event that says COMPLETED is the ending. */
  lemma CompletedIsEnding(w: World, e: Event, maxRetries: int)
    requires Ids(w) && Origins(w) && OrderOk(w, e.order, maxRetries)
    requires e in w.sent && e.status.Completed?
    ensures e.kind.OrderCompleted?
  {
    hide OrderOk, Ids, Explained, Consumed, OrderJournal, Accepted, Replay, Ledger;
    assert Explained(w, e);
    if IsResult(e.kind) {
      ResultShape(w, e);
    } else if e.kind.OrderCreated? {
      CreatedIsPending(w, e);
    } else {
      var i := SentMeansLedger(w, e, maxRetries);
      LedgerOf(w, e.order, maxRetries);
      SentAt(OrderJournal(w.journal, e.order), i, maxRetries);
    }
  }

  lemma FirstTerminal(es: seq<Event>, i: nat) returns (k: nat)
    requires i < |es| && IsTerminal(es[i].status)
    ensures k <= i && IsTerminal(es[k].status) && forall j :: 0 <= j < k ==> !IsTerminal(es[j].status)
  {
    k := 0;
    while !IsTerminal(es[k].status)
      invariant k <= i && forall j :: 0 <= j < k ==> !IsTerminal(es[j].status)
      decreases i - k
    {
      k := k + 1;
    }
  }

  /** For one given arrival order: the view agrees with the saga if and only if ORDER_COMPLETED
      comes before every notification result that reported FAILED. */
  lemma StatusAgreesInThisOrder(w: World, order: OrderId, es: seq<Event>, maxRetries: int)
    requires Reachable(w, maxRetries) && Finished(w, order) && Delivers(es, w, order)
    ensures Project(es).Some?
    ensures Project(es).value.status == w.sagas[order].current <==>
      forall i :: 0 <= i < |es| && FailedNotification(es[i]) ==> exists j :: 0 <= j < i && es[j].kind.OrderCompleted?
  {
    hide Reachable, OrderOk, Ids, Origins, OrderJournal, Delivers, Project;
    InvAt(w, order, maxRetries);
    var t := DeliveryIsNotEmpty(w, order, es, maxRetries);
    DeliveredMembers(es, w, order);
    var at :| 0 <= at < |es| && es[at] == t;
    var k := FirstTerminal(es, at);
    FirstTerminalDecides(es, k);
    TerminalStatuses(w, es[k], maxRetries);
    forall j | 0 <= j < |es| && es[j].kind.OrderCompleted?
      ensures IsTerminal(es[j].status)
    {
      assert es[j] in es;
      EndingIsLast(w, es[j], maxRetries);
      EndingStatus(w, es[j], maxRetries);
    }
    if es[k].status == w.sagas[order].current {
      forall i | 0 <= i < |es| && FailedNotification(es[i])
        ensures exists j :: 0 <= j < i && es[j].kind.OrderCompleted?
      {
        assert es[i] in es && es[k] in es;
        EndingComesFirst(w, order, es, k, i, maxRetries);
      }
    } else {
      assert FailedNotification(es[k]);
    }
  }

  lemma EndingComesFirst(w: World, order: OrderId, es: seq<Event>, k: nat, i: nat, maxRetries: int)
    requires Ids(w) && Origins(w) && OrderOk(w, order, maxRetries) && Finished(w, order)
    requires k < |es| && i < |es| && FailedNotification(es[i]) && es[k].status == w.sagas[order].current
    requires es[i] in w.sent && es[i].order == order && es[k] in w.sent && es[k].order == order
    requires forall j :: 0 <= j < k ==> !IsTerminal(es[j].status)
    ensures k < i && es[k].kind.OrderCompleted?
  {
    hide Ids, Origins, OrderOk;
    TerminalStatuses(w, es[i], maxRetries);
    CompletedIsEnding(w, es[k], maxRetries);
  }

  lemma EndingStatus(w: World, e: Event, maxRetries: int)
    requires Ids(w) && Origins(w) && OrderOk(w, e.order, maxRetries)
    requires e in w.sent && IsTerminalEvent(e.kind)
    ensures IsTerminal(e.status)
  {
    hide Decide, Accepted, Replay, CanTransitionTo, Ledger, Chained, TokenOk;
    EndingIsLast(w, e, maxRetries);
    LedgerOf(w, e.order, maxRetries);
    LastCommand(OrderJournal(w.journal, e.order), maxRetries);
  }

  lemma {:induction false} Enumerate(events: set<Event>) returns (es: seq<Event>)
    ensures multiset(es) == multiset(events)
    decreases |events|
  {
    if events == {} {
      es := [];
    } else {
      var e :| e in events;
      var rest := Enumerate(events - {e});
      es := [e] + rest;
      assert multiset(events) == multiset(events - {e}) + multiset{e};
    }
  }

  lemma SplitOff(w: World, order: OrderId, e: Event, rest: seq<Event>)
    requires e in EventsOf(w, order) && multiset(rest) == multiset(EventsOf(w, order) - {e})
    ensures Delivers([e] + rest, w, order)
  {
  }
}
