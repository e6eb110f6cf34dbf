/** Whole histories of one order: the events the orchestrator accepted, oldest first. */
module History {
  import opened Domain
  import opened StateMachine
  import opened SagaSteps
  import D = Decisions

  /** The decision for the next event of an order, given the row it finds (if any). */
  function Decide(row: Option<Saga>, e: Event, id: EventId, maxRetries: int): Result<Move, Failure> {
    if row.None? then
      if e.kind.OrderCreated? then OnCreated(e.order, id) else Err(NonRetryable(UnknownSaga))
    else if e.kind.OrderCreated? then Err(NonRetryable(SagaAlreadyStarted))
    else OnResult(row.value, e, id, maxRetries)
  }

  /** Folds the pure step over a history. A rejected event leaves the row as it was. */
  function Replay(es: seq<Event>, maxRetries: int): Option<Saga> {
    if es == [] then None
    else
      var before := Replay(es[..|es| - 1], maxRetries);
      var r := Decide(before, es[|es| - 1], "", maxRetries);
      if r.Ok? then Some(r.value.saga) else before
  }

  /** A history all of whose events were accepted and name the same order. */
  ghost predicate Accepted(es: seq<Event>, maxRetries: int) {
    es == [] ||
    var last, before := es[|es| - 1], es[..|es| - 1];
    && Accepted(before, maxRetries)
    && Decide(Replay(before, maxRetries), last, "", maxRetries).Ok?
    && (before != [] ==> last.order == before[0].order)
  }

  /** The event sent when the last event of a history was accepted. */
  function Sent(es: seq<Event>, id: EventId, maxRetries: int): Event
    requires es != []
    requires Decide(Replay(es[..|es| - 1], maxRetries), es[|es| - 1], id, maxRetries).Ok?
  {
    Decide(Replay(es[..|es| - 1], maxRetries), es[|es| - 1], id, maxRetries).value.out
  }

  /** The same verdict, row and event, but for the id of the event sent. */
  ghost predicate SameButForId(r: Result<Move, Failure>, r0: Result<Move, Failure>, id: EventId) {
    && r.Ok? == r0.Ok?
    && (r.Err? ==> r == r0)
    && (r.Ok? ==> r.value == r0.value.(out := r0.value.out.(id := id)))
  }

  /** The fresh id only names the event sent: it changes neither the verdict nor the row,
      and nothing else of the event. */
  lemma FreshIdOnlyNames(row: Option<Saga>, e: Event, id: EventId, maxRetries: int)
    ensures SameButForId(Decide(row, e, id, maxRetries), Decide(row, e, "", maxRetries), id)
  {
    if row.Some? && !e.kind.OrderCreated? {
      IdOnlyNamesResult(row.value, e, id, maxRetries);
    }
  }

  lemma IdOnlyNamesEnds(id: EventId)
    ensures forall saga :: SameButForId(DispatchNext(saga, id), DispatchNext(saga, ""), id)
    ensures forall saga, metadata :: SameButForId(Fail(saga, id, metadata), Fail(saga, "", metadata), id)
    ensures forall saga, metadata :: SameButForId(Complete(saga, id, metadata), Complete(saga, "", metadata), id)
  {
    hide CanTransitionTo;
  }

  lemma IdOnlyNamesResult(saga: Saga, e: Event, id: EventId, maxRetries: int)
    ensures SameButForId(OnResult(saga, e, id, maxRetries), OnResult(saga, e, "", maxRetries), id)
  {
    hide CanTransitionTo, DispatchNext, Fail, Complete, SameButForId;
    IdOnlyNamesEnds(id);
    SameIsSame(id);
  }

  lemma SameIsSame(id: EventId)
    ensures forall failure :: SameButForId(Err(failure), Err(failure), id)
  {
  }

  // ---------------------------------------------------------------- committed rows

  function Limit(maxRetries: int): nat {
    if maxRetries < 0 then 0 else maxRetries
  }

  /** What every committed row satisfies: it is never left in PENDING, NOTIFIED, RETRYING
      or PAYMENT_REFUNDED, rests on an edge of the table, respects the retry limit, and
      holds a transaction id while a refund is pending. */
  ghost predicate RowOk(row: Saga, maxRetries: int) {
    && (row.current.PaymentPending? || row.current.PaymentApproved? || row.current.PaymentRefundPending?
        || row.current.InventoryReserved? || IsTerminal(row.current))
    && CanTransitionTo(row.previous, row.current)
    && 0 <= row.retryCount <= Limit(maxRetries)
    && (row.current.PaymentPending? ==> row.tx == "")
    && (row.current.PaymentRefundPending? ==> row.tx != "")
    && (IsTerminal(row.current) ==> row.retryCount == 0)
  }

  lemma StepKeepsRowOk(row: Saga, e: Event, id: EventId, maxRetries: int)
    requires RowOk(row, maxRetries) && OnResult(row, e, id, maxRetries).Ok?
    ensures RowOk(OnResult(row, e, id, maxRetries).value.saga, maxRetries)
  {
    hide CanTransitionTo;
    MoveIsCoherent(row, e, id, maxRetries);
  }

  lemma {:induction false} CommittedRows(es: seq<Event>, maxRetries: int)
    requires Accepted(es, maxRetries) && es != []
    ensures Replay(es, maxRetries).Some?
    ensures RowOk(Replay(es, maxRetries).value, maxRetries)
    ensures Replay(es, maxRetries).value.order == es[0].order
    ensures es[0].kind == OrderCreated
    ensures forall i :: 0 < i < |es| ==> IsResult(es[i].kind)
    ensures forall i :: 0 <= i < |es| ==> es[i].order == es[0].order
  {
    var before := es[..|es| - 1];
    if before == [] {
      StartAlwaysMoves(es[0].order, "");
    } else {
      CommittedRows(before, maxRetries);
      var row := Replay(before, maxRetries).value;
      var last := es[|es| - 1];
      MoveIsCoherent(row, last, "", maxRetries);
      StepKeepsRowOk(row, last, "", maxRetries);
      assert before[0] == es[0];
      forall i | 0 <= i < |es|
        ensures es[i].order == es[0].order && (i > 0 ==> IsResult(es[i].kind))
      {
        if i < |es| - 1 {
          assert es[i] == before[i];
        }
      }
    }
  }

  lemma {:induction false} PrefixAccepted(es: seq<Event>, k: nat, maxRetries: int)
    requires Accepted(es, maxRetries) && k <= |es|
    ensures Accepted(es[..k], maxRetries)
    decreases |es|
  {
    if k == |es| {
      assert es[..k] == es;
    } else {
      var before := es[..|es| - 1];
      PrefixAccepted(before, k, maxRetries);
      assert before[..k] == es[..k];
    }
  }

  /** The event at position k was accepted by the row its predecessors left. */
  lemma AcceptedAt(es: seq<Event>, k: nat, maxRetries: int)
    requires Accepted(es, maxRetries) && 0 < k < |es|
    ensures Replay(es[..k], maxRetries).Some? && RowOk(Replay(es[..k], maxRetries).value, maxRetries)
    ensures IsResult(es[k].kind)
    ensures OnResult(Replay(es[..k], maxRetries).value, es[k], "", maxRetries).Ok?
    ensures Replay(es[..k + 1], maxRetries)
         == Some(OnResult(Replay(es[..k], maxRetries).value, es[k], "", maxRetries).value.saga)
  {
    PrefixAccepted(es, k + 1, maxRetries);
    PrefixAccepted(es, k, maxRetries);
    var upTo := es[..k + 1];
    assert upTo[..|upTo| - 1] == es[..k];
    CommittedRows(es[..k], maxRetries);
    CommittedRows(es, maxRetries);
  }

  // ---------------------------------------------------------------- what a row remembers

  ghost predicate SameStatus(es: seq<Event>, maxRetries: int)
    requires es != []
  {
    var before, after := Replay(es[..|es| - 1], maxRetries), Replay(es, maxRetries);
    before.Some? && after.Some? && before.value.current == after.value.current
  }

  /** How many results asked for a retry since the order entered the status it is in. */
  ghost function RetriesSince(es: seq<Event>, maxRetries: int): nat {
    if es == [] || !SameStatus(es, maxRetries) then 0
    else RetriesSince(es[..|es| - 1], maxRetries) + if es[|es| - 1].status.Retrying? then 1 else 0
  }

  /** The status the order was in before it entered the one it is in. */
  ghost function StatusBefore(es: seq<Event>, maxRetries: int): OrderStatus {
    if es == [] then NoStatus
    else
      var before := Replay(es[..|es| - 1], maxRetries);
      if SameStatus(es, maxRetries) then StatusBefore(es[..|es| - 1], maxRetries)
      else if before.Some? then before.value.current
      else Pending
  }

  /** In every accepted history the row counts exactly the retries asked for in its current
      status, so every status starts with none, and remembers the status before, which for a
      completed order is recorded as NOTIFIED. */
  lemma {:induction false} RowRemembers(es: seq<Event>, maxRetries: int)
    requires Accepted(es, maxRetries) && es != []
    ensures Replay(es, maxRetries).Some?
    ensures var row := Replay(es, maxRetries).value;
      && row.retryCount == RetriesSince(es, maxRetries)
      && row.previous == if row.current.Completed? then Notified else StatusBefore(es, maxRetries)
  {
    hide Decide, OnResult, Accepted, CanTransitionTo;
    CommittedRows(es, maxRetries);
    var n := |es| - 1;
    assert es[..|es|] == es;
    if n == 0 {
      FirstRow(es, maxRetries);
    } else {
      PrefixAccepted(es, n, maxRetries);
      RowRemembers(es[..n], maxRetries);
      AcceptedAt(es, n, maxRetries);
      var before := Replay(es[..n], maxRetries).value;
      D.AcceptsExactly(before, es[n], "", maxRetries);
      D.RowAfter(before, es[n], "", maxRetries);
    }
  }

  lemma FirstRow(es: seq<Event>, maxRetries: int)
    requires Accepted(es, maxRetries) && |es| == 1
    ensures Replay(es[..0], maxRetries).None?
    ensures Replay(es, maxRetries) == Some(Saga(es[0].order, Pending, PaymentPending, 0, ""))
  {
    assert es[..0] == [];
    StartAlwaysMoves(es[0].order, "");
  }

  // ---------------------------------------------------------------- termination

  /** Results the order can still accept. */
  function Budget(row: Saga, maxRetries: int): int {
    match row.current
    case PaymentPending => 3 * (Limit(maxRetries) + 1) - row.retryCount
    case PaymentApproved => 2 * (Limit(maxRetries) + 1) - row.retryCount
    case PaymentRefundPending => Limit(maxRetries) + 1 - row.retryCount
    case InventoryReserved => Limit(maxRetries) + 1 - row.retryCount
    case _ => 0
  }

  lemma BudgetFalls(row: Saga, e: Event, id: EventId, maxRetries: int)
    requires RowOk(row, maxRetries) && OnResult(row, e, id, maxRetries).Ok?
    ensures 0 <= Budget(OnResult(row, e, id, maxRetries).value.saga, maxRetries) < Budget(row, maxRetries)
  {
    var m := OnResult(row, e, id, maxRetries).value.saga;
    if e.status.Retrying? && row.retryCount + 1 <= maxRetries {
      assert m == row.(retryCount := row.retryCount + 1);
    } else if e.status.PaymentApproved? {
      assert row.current.PaymentPending? && m.current.PaymentApproved? && m.retryCount == 0;
    } else if e.status.InventoryReserved? {
      assert row.current.PaymentApproved? && m.current.InventoryReserved? && m.retryCount == 0;
    } else {
      assert IsTerminal(m.current)
        || (row.current.PaymentApproved? && m.current.PaymentRefundPending? && m.retryCount == 0);
    }
  }

  /** At most 3(M+1) results are ever accepted for an order, where M is the retry limit. */
  lemma {:induction false} HistoryIsBounded(es: seq<Event>, maxRetries: int)
    requires Accepted(es, maxRetries) && es != []
    ensures |es| - 1 + Budget(Replay(es, maxRetries).value, maxRetries) <= 3 * (Limit(maxRetries) + 1)
    ensures |es| - 1 <= 3 * (Limit(maxRetries) + 1)
  {
    var before := es[..|es| - 1];
    CommittedRows(es, maxRetries);
    if before != [] {
      HistoryIsBounded(before, maxRetries);
      CommittedRows(before, maxRetries);
      BudgetFalls(Replay(before, maxRetries).value, es[|es| - 1], "", maxRetries);
    } else {
      StartAlwaysMoves(es[0].order, "");
    }
  }

  // ---------------------------------------------------------------- compensation

  function Stage(status: OrderStatus): nat {
    match status
    case PaymentPending => 0
    case PaymentApproved => 1
    case PaymentRefundPending => 2
    case InventoryReserved => 2
    case _ => 3
  }

  predicate Approval(e: Event) {
    e.kind.PaymentResult? && e.status.PaymentApproved?
  }

  predicate Refund(e: Event) {
    e.kind.PaymentCompensateResult? && e.status.PaymentRefunded?
  }

  lemma StageClimbs(row: Saga, e: Event, maxRetries: int)
    requires RowOk(row, maxRetries) && OnResult(row, e, "", maxRetries).Ok?
    ensures var next := OnResult(row, e, "", maxRetries).value.saga;
      && Stage(next.current) >= Stage(row.current)
      && (Stage(next.current) == Stage(row.current) ==> e.status.Retrying? && next.current == row.current)
      && (row.current.PaymentRefundPending? ==> next.current.PaymentRefundPending? || next.current.Failed?)
      && (!Approval(e) ==> next.tx == row.tx)
      && (Stage(row.current) >= 1 ==> !Approval(e))
      && !IsTerminal(row.current)
  {
  }

  lemma {:induction false} StagesAreMonotone(es: seq<Event>, i: nat, j: nat, maxRetries: int)
    requires Accepted(es, maxRetries) && 0 < i <= j <= |es|
    ensures Replay(es[..i], maxRetries).Some? && Replay(es[..j], maxRetries).Some?
    ensures var a, b := Replay(es[..i], maxRetries).value, Replay(es[..j], maxRetries).value;
      && Stage(a.current) <= Stage(b.current)
      && (a.current.PaymentRefundPending? ==> b.current.PaymentRefundPending? || b.current.Failed?)
      && (Stage(a.current) >= 1 ==> a.tx == b.tx)
      && (IsTerminal(a.current) ==> i == j)
    decreases j
  {
    hide Decide, OnResult, CanTransitionTo;
    PrefixAccepted(es, i, maxRetries);
    PrefixAccepted(es, j, maxRetries);
    CommittedRows(es[..i], maxRetries);
    CommittedRows(es[..j], maxRetries);
    if i < j {
      StagesAreMonotone(es, i, j - 1, maxRetries);
      AcceptedAt(es, j - 1, maxRetries);
      StageClimbs(Replay(es[..j - 1], maxRetries).value, es[j - 1], maxRetries);
    }
  }

  lemma ApprovalAdvances(row: Saga, e: Event, maxRetries: int)
    requires OnResult(row, e, "", maxRetries).Ok?
    ensures var next := OnResult(row, e, "", maxRetries).value.saga;
      && (Approval(e) ==> row.current.PaymentPending? && next.current.PaymentApproved? && next.tx == e.tx)
      && (Refund(e) ==> row.current.PaymentRefundPending? && next.current.Failed?)
  {
  }

  lemma ApprovalAt(es: seq<Event>, i: nat, maxRetries: int)
    requires Accepted(es, maxRetries) && i < |es| && Approval(es[i])
    ensures i > 0
    ensures Replay(es[..i], maxRetries).Some? && Replay(es[..i], maxRetries).value.current.PaymentPending?
    ensures Replay(es[..i + 1], maxRetries).Some? && Replay(es[..i + 1], maxRetries).value.current.PaymentApproved?
    ensures Replay(es[..i + 1], maxRetries).value.tx == es[i].tx
  {
    CommittedRows(es, maxRetries);
    AcceptedAt(es, i, maxRetries);
    ApprovalAdvances(Replay(es[..i], maxRetries).value, es[i], maxRetries);
  }

  /** An order accepts at most one approved payment. */
  lemma AtMostOneApproval(es: seq<Event>, i: nat, j: nat, maxRetries: int)
    requires Accepted(es, maxRetries) && i < |es| && j < |es|
    requires Approval(es[i]) && Approval(es[j])
    ensures i == j
  {
    ApprovalAt(es, i, maxRetries);
    ApprovalAt(es, j, maxRetries);
    if i < j {
      StagesAreMonotone(es, i + 1, j, maxRetries);
    } else if j < i {
      StagesAreMonotone(es, j + 1, i, maxRetries);
    }
  }

  /** Nothing is accepted after a completed refund, so there is at most one. */
  lemma RefundIsLast(es: seq<Event>, i: nat, maxRetries: int)
    requires Accepted(es, maxRetries) && i < |es| && Refund(es[i])
    ensures i == |es| - 1
  {
  }

  /** The transaction id an order holds is the one its approved payment carried. */
  ghost predicate PaidWith(es: seq<Event>, tx: string) {
    exists i :: 0 <= i < |es| && Approval(es[i]) && es[i].tx == tx
  }

  lemma {:induction false} TransactionComesFromApproval(es: seq<Event>, maxRetries: int)
    requires Accepted(es, maxRetries) && es != []
    ensures Replay(es, maxRetries).Some?
    ensures var row := Replay(es, maxRetries).value;
      && (Stage(row.current) < 1 ==> row.tx == "")
      && (row.tx != "" ==> PaidWith(es, row.tx))
  {
    CommittedRows(es, maxRetries);
    var before, last := es[..|es| - 1], es[|es| - 1];
    if before == [] {
      StartAlwaysMoves(es[0].order, "");
    } else {
      TransactionComesFromApproval(before, maxRetries);
      CommittedRows(before, maxRetries);
      var row := Replay(before, maxRetries).value;
      StageClimbs(row, last, maxRetries);
      var next := Replay(es, maxRetries).value;
      if next.tx != "" {
        if Approval(last) {
          assert next.tx == last.tx;
          assert Approval(es[|es| - 1]) && es[|es| - 1].tx == next.tx;
        } else {
          var i :| 0 <= i < |before| && Approval(before[i]) && before[i].tx == row.tx;
          assert es[i] == before[i];
        }
      }
    }
  }

  /** Every refund command carries the non-empty transaction id of the approved payment. */
  lemma RefundNamesThePayment(es: seq<Event>, id: EventId, maxRetries: int)
    requires Accepted(es, maxRetries) && es != []
    ensures Decide(Replay(es[..|es| - 1], maxRetries), es[|es| - 1], id, maxRetries).Ok?
    ensures var c := Sent(es, id, maxRetries);
      c.kind.PaymentCompensate? ==> c.tx != "" && PaidWith(es, c.tx)
  {
    var before, last := es[..|es| - 1], es[|es| - 1];
    FreshIdOnlyNames(Replay(before, maxRetries), last, id, maxRetries);
    TransactionComesFromApproval(es, maxRetries);
    CommittedRows(es, maxRetries);
    if before == [] {
      StartAlwaysMoves(es[0].order, id);
    } else {
      CommittedRows(before, maxRetries);
      MoveIsCoherent(Replay(before, maxRetries).value, last, "", maxRetries);
    }
  }

  ghost predicate EnteredRefund(es: seq<Event>, maxRetries: int) {
    exists k {:trigger es[..k]} :: 0 < k <= |es| && Replay(es[..k], maxRetries).Some?
      && Replay(es[..k], maxRetries).value.current.PaymentRefundPending?
  }

  /** The last event is a stock reservation that asked for one retry too many. */
  ghost predicate StockRetriesExhausted(es: seq<Event>, maxRetries: int) {
    && |es| > 1
    && es[|es| - 1].kind.InventoryResult? && es[|es| - 1].status.Retrying?
    && Replay(es[..|es| - 1], maxRetries).Some?
    && Replay(es[..|es| - 1], maxRetries).value.current.PaymentApproved?
    && Replay(es[..|es| - 1], maxRetries).value.retryCount >= maxRetries
  }

  /** An order that entered the refund stage never completes. */
  lemma RefundNeverCompletes(es: seq<Event>, maxRetries: int)
    requires Accepted(es, maxRetries) && es != [] && EnteredRefund(es, maxRetries)
    ensures Replay(es, maxRetries).Some?
    ensures Replay(es, maxRetries).value.current.PaymentRefundPending? || Replay(es, maxRetries).value.current.Failed?
  {
    assert es[..|es|] == es;
    var k :| 0 < k <= |es| && Replay(es[..k], maxRetries).Some?
      && Replay(es[..k], maxRetries).value.current.PaymentRefundPending?;
    StagesAreMonotone(es, k, |es|, maxRetries);
  }

  lemma FailingWithPayment(row: Saga, e: Event, maxRetries: int)
    requires RowOk(row, maxRetries) && OnResult(row, e, "", maxRetries).Ok?
    requires var next := OnResult(row, e, "", maxRetries).value.saga; next.current.Failed? && next.tx != ""
    ensures row.current.PaymentRefundPending?
         || (row.current.PaymentApproved? && e.kind.InventoryResult? && e.status.Retrying?
             && row.retryCount >= maxRetries)
  {
  }

  lemma NoRefundBefore(es: seq<Event>, last: nat, k: nat, maxRetries: int)
    requires Accepted(es, maxRetries) && 0 < k <= last <= |es|
    requires Replay(es[..last], maxRetries).Some? && Replay(es[..last], maxRetries).value.current.PaymentApproved?
    ensures Replay(es[..k], maxRetries).Some? && !Replay(es[..k], maxRetries).value.current.PaymentRefundPending?
  {
    hide Decide;
    StagesAreMonotone(es, k, last, maxRetries);
  }

  lemma NoRefundWhileReserving(es: seq<Event>, maxRetries: int)
    requires Accepted(es, maxRetries) && StockRetriesExhausted(es, maxRetries)
    requires Replay(es, maxRetries).Some? && Replay(es, maxRetries).value.current.Failed?
    ensures !EnteredRefund(es, maxRetries)
  {
    hide Decide;
    var last := |es| - 1;
    assert es[..|es|] == es;
    if EnteredRefund(es, maxRetries) {
      var k :| 0 < k <= |es| && Replay(es[..k], maxRetries).Some?
        && Replay(es[..k], maxRetries).value.current.PaymentRefundPending?;
      NoRefundBefore(es, last, k, maxRetries);
    }
  }

  /** An order that failed while holding a transaction id either went through the refund
      stage or exhausted its stock reservation retries, never both: in the second case the
      payment is kept and no refund is ever asked for. */
  lemma FailedPaymentsExplained(es: seq<Event>, maxRetries: int)
    requires Accepted(es, maxRetries) && es != []
    ensures Replay(es, maxRetries).Some?
    ensures var row := Replay(es, maxRetries).value;
      row.current.Failed? && row.tx != "" ==>
        EnteredRefund(es, maxRetries) != StockRetriesExhausted(es, maxRetries)
  {
    CommittedRows(es, maxRetries);
    var row := Replay(es, maxRetries).value;
    var last := |es| - 1;
    if row.current.Failed? && row.tx != "" {
      if last == 0 {
        StartAlwaysMoves(es[0].order, "");
        assert false;
      }
      AcceptedAt(es, last, maxRetries);
      var prior := Replay(es[..last], maxRetries);
      FailingWithPayment(prior.value, es[last], maxRetries);
      if StockRetriesExhausted(es, maxRetries) {
        NoRefundWhileReserving(es, maxRetries);
      } else {
        assert EnteredRefund(es, maxRetries);
      }
    }
  }

  /** Exactly which approved payments of failed orders are refunded: those with a transaction
      id, unless stock ran out of retries. */
  lemma RefundedExactly(es: seq<Event>, i: nat, maxRetries: int)
    requires Accepted(es, maxRetries) && i < |es| && Approval(es[i])
    requires Replay(es, maxRetries).Some? && Replay(es, maxRetries).value.current.Failed?
    ensures EnteredRefund(es, maxRetries) <==> es[i].tx != "" && !StockRetriesExhausted(es, maxRetries)
  {
    hide Accepted, Replay, StockRetriesExhausted;
    assert es[..|es|] == es;
    ApprovalAt(es, i, maxRetries);
    StagesAreMonotone(es, i + 1, |es|, maxRetries);
    if es[i].tx != "" {
      FailedPaymentsExplained(es, maxRetries);
    } else if EnteredRefund(es, maxRetries) {
      var k :| 0 < k <= |es| && Replay(es[..k], maxRetries).Some?
        && Replay(es[..k], maxRetries).value.current.PaymentRefundPending?;
      StagesAreMonotone(es, k, |es|, maxRetries);
      PrefixAccepted(es, k, maxRetries);
      CommittedRows(es[..k], maxRetries);
      assert false;
    }
  }
}
