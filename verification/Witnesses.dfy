/** Runs that do happen. The protocol can be driven round by round, a round being one command
    answered by its worker and one result taken by the orchestrator; the bounds and the
    failures the other modules speak of are reached this way in real worlds. */
module Witnesses {
  import opened Domain
  import opened Topics
  import opened SagaSteps
  import opened StateMachine
  import opened History
  import opened Tables
  import opened Handlers
  import opened Protocol
  import opened Guarantees
  import opened Progress
  import O = Outcomes
  import R = ReadModel

  ghost predicate AtCommand(w: World, order: OrderId) {
    Running(w, order) && exists t :: t in Live(w, order) && IsCommand(t.kind)
  }

  ghost function HistoryIn(w: World, order: OrderId): seq<Event> {
    Consumed(OrderJournal(w.journal, order))
  }

  /** The command a running saga waits on, as far as its worker's answer depends on it. */
  function CommandOf(row: Saga): Event
    requires NextCommand(row.current).Ok?
  {
    Event("", row.order, row.order, row.tx, row.current, NoStatus, NextCommand(row.current).value.1, SCHEMA_VERSION,
          map[])
  }

  /** The result of a command answered this way. */
  ghost predicate Replies(row: Saga, answer: GatewayAnswer, r: Event) {
    NextCommand(row.current).Ok? && r == ResultFor(CommandOf(row), answer, r.id)
  }

  /** One world later in a run. */
  ghost predicate Follows(w: World, w': World) {
    w.sent <= w'.sent
  }

  lemma WorkerAnswers(w: World, order: OrderId, answer: GatewayAnswer, maxRetries: int) returns (w': World, r: Event)
    requires Reachable(w, maxRetries) && AtCommand(w, order)
    ensures Reachable(w', maxRetries) && Follows(w, w') && Running(w', order) && w'.sagas == w.sagas
    ensures Live(w', order) == {r} && Replies(w.sagas[order], answer, r)
    ensures HistoryIn(w', order) == HistoryIn(w, order)
  {
    hide Reachable, OrderOk, Ids, Origins, Has, WorkerBlock, ResultFor;
    var a := NoDeadlock(w, order, answer, maxRetries);
    InvAt(w, order, maxRetries);
    SingleToken(w, order, maxRetries);
    var t := a.e;
    var t' :| t' in Live(w, order) && IsCommand(t'.kind);
    assert IsCommand(t.kind);
    SubscriptionsMatchResponsibilities(ConsumerOf(t.kind).value, t.kind);
    assert a.Work?;
    WorkProgresses(w, a, order, maxRetries);
    ReachableStep(w, a, maxRetries);
    LiveCommand(w, t, maxRetries);
    WorkMovesToken(w, a.component, t, answer, a.id);
    WorkLeavesLedger(w, a.component, t, answer, a.id);
    w', r := Next(w, a, maxRetries), ResultFor(t, answer, a.id);
    AnswerFits(w, order, t, answer, a.id, maxRetries);
  }

  lemma AnswerFits(w: World, order: OrderId, t: Event, answer: GatewayAnswer, id: EventId, maxRetries: int)
    requires OrderOk(w, order, maxRetries) && Running(w, order)
    requires OrderJournal(w.journal, order) != []
      && t == OrderJournal(w.journal, order)[|OrderJournal(w.journal, order)| - 1].payload
    ensures Replies(w.sagas[order], answer, ResultFor(t, answer, id)) && ResultFor(t, answer, id).id == id
  {
    hide Ledger, Accepted, Replay, Consumed, OrderJournal;
    LastCommand(OrderJournal(w.journal, order), maxRetries);
  }

  lemma OrchestratorTakes(w: World, order: OrderId, r: Event, maxRetries: int) returns (w': World)
    requires Reachable(w, maxRetries) && Running(w, order) && Live(w, order) == {r} && IsResult(r.kind)
    ensures Reachable(w', maxRetries) && Follows(w, w')
    ensures OnResult(w.sagas[order], r, "", maxRetries).Ok?
    ensures order in w'.sagas && w'.sagas[order] == OnResult(w.sagas[order], r, "", maxRetries).value.saga
    ensures IsTerminal(w'.sagas[order].current) || AtCommand(w', order)
    ensures HistoryIn(w', order) == HistoryIn(w, order) + [r]
  {
    hide Reachable, OrderOk, Ids, Origins, Has, OnResult, Accepted;
    var answer: GatewayAnswer := GatewayAnswer(true, "", None);
    var a := NoDeadlock(w, order, answer, maxRetries);
    InvAt(w, order, maxRetries);
    SubscriptionsMatchResponsibilities(ConsumerOf(r.kind).value, r.kind);
    LiveResult(w, r, maxRetries);
    var row := w.sagas[order];
    RejectionsAreExactlyTwo(row, r, a.id, maxRetries);
    IdOnlyNamesResult(row, r, a.id, maxRetries);
    var m := OnResult(row, r, a.id, maxRetries).value;
    RowKeepsOrder(w, a, order, m, maxRetries);
    ReachableStep(w, a, maxRetries);
    w' := Next(w, a, maxRetries);
    TakenMovesOn(w, a, order, m, maxRetries);
  }

  lemma TakenMovesOn(w: World, a: Action, order: OrderId, m: Move, maxRetries: int)
    requires Reachable(w, maxRetries) && Enabled(w, a) && a.Orchestrate? && IsResult(a.e.kind)
    requires Running(w, order) && Live(w, order) == {a.e} && OnResult(w.sagas[order], a.e, a.id, maxRetries) == Ok(m)
    ensures var w' := Next(w, a, maxRetries);
      && HistoryIn(w', order) == HistoryIn(w, order) + [a.e]
      && Live(w', order) == (if IsTerminal(m.saga.current) then {} else {m.out})
      && (!IsTerminal(m.saga.current) ==> IsCommand(m.out.kind))
  {
    hide Reachable, OrderOk, Ids, Origins, OnResult, Decide, Ledger, Accepted, Replay, Has;
    InvAt(w, order, maxRetries);
    assert a.e in Live(w, order);
    TakenCommits(w, a, order, m, maxRetries);
    var before, seenAs, m' := WhatWasDecided(w, a.e, a.id, maxRetries);
    AcceptIsCoherent(w, a.e, m', before, maxRetries);
    AcceptWrites(w, a.e, m', before, seenAs, maxRetries);
    AcceptMovesToken(w, a.e, m', before, seenAs);
    LedgerGrows(w, a.e, m', before, seenAs, maxRetries);
  }

  lemma TakenCommits(w: World, a: Action, order: OrderId, m: Move, maxRetries: int)
    requires Reachable(w, maxRetries) && Enabled(w, a) && a.Orchestrate? && IsResult(a.e.kind)
    requires Running(w, order) && a.e in Live(w, order) && OnResult(w.sagas[order], a.e, a.id, maxRetries) == Ok(m)
    ensures OrchestratorEffect(w.sagas, w.journal, a.e, a.id, maxRetries)
         == Ok(Handlers.Accept(w.sagas[order], a.e, a.e.status, m))
    ensures a.e.id in w.used
  {
    hide Reachable, OrderOk, OnResult;
    InvAt(w, order, maxRetries);
  }

  /** A round: the worker answers the command, the orchestrator takes the result. */
  lemma Round(w: World, order: OrderId, answer: GatewayAnswer, maxRetries: int) returns (w': World, r: Event)
    requires Reachable(w, maxRetries) && AtCommand(w, order)
    ensures Reachable(w', maxRetries) && Follows(w, w') && r in w'.sent
    ensures Replies(w.sagas[order], answer, r) && OnResult(w.sagas[order], r, "", maxRetries).Ok?
    ensures order in w'.sagas && w'.sagas[order] == OnResult(w.sagas[order], r, "", maxRetries).value.saga
    ensures IsTerminal(w'.sagas[order].current) || AtCommand(w', order)
    ensures HistoryIn(w', order) == HistoryIn(w, order) + [r]
  {
    hide Reachable, OnResult, Replies, HistoryIn;
    var w1;
    w1, r := WorkerAnswers(w, order, answer, maxRetries);
    assert r in Live(w1, order);
    ReplyIsResult(w.sagas[order], answer, r);
    w' := OrchestratorTakes(w1, order, r, maxRetries);
  }

  lemma ReplyIsResult(row: Saga, answer: GatewayAnswer, r: Event)
    requires Replies(row, answer, r)
    ensures IsResult(r.kind)
  {
  }

  /** A world in which one order has just been announced and started. */
  lemma Started(order: OrderId, maxRetries: int) returns (w: World)
    ensures Reachable(w, maxRetries) && AtCommand(w, order)
    ensures w.sagas[order] == Saga(order, Pending, PaymentPending, 0, "")
    ensures HistoryIn(w, order) == [CreatedEvent(order, "created")]
  {
    var none: seq<Action> := [];
    assert Possible(none, maxRetries) && Run(START, none, maxRetries) == START;
    assert Reachable(START, maxRetries);
    hide Has, Reachable, OrderOk, Ids, AtCommand, HistoryIn, OrchestratorEffect;
    var create, e := Create(order, "created"), CreatedEvent(order, "created");
    ReachableStep(START, create, maxRetries);
    var w1 := Next(START, create, maxRetries);
    assert w1 == World(map[], [], {e}, {"created"});
    InvAt(w1, order, maxRetries);
    NothingJournaled(e.id);
    ReachableStep(w1, Orchestrate(e, "first"), maxRetries);
    w := Next(w1, Orchestrate(e, "first"), maxRetries);
    FirstTaken(w1, e, "first", maxRetries);
  }

  lemma FirstTaken(w: World, e: Event, id: EventId, maxRetries: int)
    requires w == World(map[], [], {e}, {e.id}) && e.kind.OrderCreated? && e.id != id
    requires OrderOk(w, e.order, maxRetries) && Ids(w)
    ensures var w' := Next(w, Orchestrate(e, id), maxRetries);
      && AtCommand(w', e.order) && HistoryIn(w', e.order) == [e]
      && w'.sagas[e.order] == Saga(e.order, Pending, PaymentPending, 0, "")
  {
    hide OrderOk, Ids, Has, Ledger, Accepted, Replay;
    NothingJournaled(e.id);
    StartAlwaysMoves(e.order, id);
    var m := OnCreated(e.order, id).value;
    var w' := Next(w, Orchestrate(e, id), maxRetries);
    assert w' == Absorb(w, Handlers.Accept(NewSaga(e.order), e, Pending, m));
    assert Live(w, e.order) == {};
    AcceptWrites(w, e, m, NewSaga(e.order), Pending, maxRetries);
    AcceptMovesToken(w, e, m, NewSaga(e.order), Pending);
    LedgerGrows(w, e, m, NewSaga(e.order), Pending, maxRetries);
    assert m.out in Live(w', e.order) && IsCommand(m.out.kind);
  }

  lemma NothingJournaled(id: EventId)
    ensures !Has([], id, Orchestrator)
  {
  }

  const UNAVAILABLE := GatewayAnswer(false, "", Some("unavailable"))

  /** A gateway that fails n times makes its stage retry n times, within the limit. */
  lemma {:induction false} RetryRounds(w: World, order: OrderId, n: nat, maxRetries: int) returns (w': World)
    requires Reachable(w, maxRetries) && AtCommand(w, order)
    requires n > 0 ==> w.sagas[order].retryCount + n <= maxRetries
    ensures Reachable(w', maxRetries) && AtCommand(w', order) && Follows(w, w')
    ensures w'.sagas[order] == w.sagas[order].(retryCount := w.sagas[order].retryCount + n)
    ensures |HistoryIn(w', order)| == |HistoryIn(w, order)| + n
    decreases n
  {
    hide Reachable, AtCommand, HistoryIn;
    w' := w;
    if n > 0 {
      assert Running(w, order) by { CommandRuns(w, order); }
      var w1, r := Round(w, order, UNAVAILABLE, maxRetries);
      assert w1.sagas[order] == w.sagas[order].(retryCount := w.sagas[order].retryCount + 1);
      w' := RetryRounds(w1, order, n - 1, maxRetries);
    }
  }

  lemma CommandRuns(w: World, order: OrderId)
    requires AtCommand(w, order)
    ensures Running(w, order)
  {
  }

  /** A gateway that then succeeds moves the saga on. */
  lemma SuccessRound(w: World, order: OrderId, tx: string, maxRetries: int) returns (w': World, r: Event)
    requires Reachable(w, maxRetries) && AtCommand(w, order)
    ensures Reachable(w', maxRetries) && Follows(w, w') && order in w'.sagas
    ensures r in w'.sent && HistoryIn(w', order) == HistoryIn(w, order) + [r]
    ensures w.sagas[order].current.PaymentPending? ==>
      w'.sagas[order] == Saga(order, PaymentPending, PaymentApproved, 0, tx) && AtCommand(w', order)
      && Approval(r) && r.tx == tx && r.order == order
    ensures w.sagas[order].current.PaymentApproved? ==>
      w'.sagas[order].current.InventoryReserved? && w'.sagas[order].retryCount == 0 && AtCommand(w', order)
    ensures w.sagas[order].current.InventoryReserved? ==> w'.sagas[order].current.Completed?
  {
    hide Reachable, AtCommand, HistoryIn, CanTransitionTo;
    CommandRuns(w, order);
    RowNamesOrder(w, order, maxRetries);
    w', r := Round(w, order, GatewayAnswer(true, tx, None), maxRetries);
  }

  lemma RowNamesOrder(w: World, order: OrderId, maxRetries: int)
    requires Reachable(w, maxRetries) && order in w.sagas
    ensures w.sagas[order].order == order
  {
    InvAt(w, order, maxRetries);
  }

  /** The bounds are tight: for every retry limit an order can accept exactly 3(M+1) results, and
      send one event more, every stage using all its retries before it moves on. */
  lemma BoundIsTight(order: OrderId, maxRetries: int) returns (w: World)
    ensures Reachable(w, maxRetries) && order in w.sagas && w.sagas[order].current.Completed?
    ensures |HistoryIn(w, order)| - 1 == 3 * (Limit(maxRetries) + 1)
    ensures |O.SentFor(w, order)| == 3 * (Limit(maxRetries) + 1) + 1
  {
    hide Reachable, AtCommand, HistoryIn, O.SentFor;
    var m: nat := Limit(maxRetries);
    var w0 := Started(order, maxRetries);
    var w1 := RetryRounds(w0, order, m, maxRetries);
    var w2, r2 := SuccessRound(w1, order, "tx", maxRetries);
    var w3 := RetryRounds(w2, order, m, maxRetries);
    var w4, r4 := SuccessRound(w3, order, "tx", maxRetries);
    var w5 := RetryRounds(w4, order, m, maxRetries);
    var r6;
    w, r6 := SuccessRound(w5, order, "tx", maxRetries);
    SentMatchesHistory(w, order, maxRetries);
  }

  lemma SentMatchesHistory(w: World, order: OrderId, maxRetries: int)
    requires Reachable(w, maxRetries)
    ensures |O.SentFor(w, order)| == |HistoryIn(w, order)|
  {
    O.EveryOrderEnds(w, order, maxRetries);
  }

  const REFUSED := GatewayAnswer(false, "", None)

  /** For every retry limit, an approved payment can be kept by a failed order without a refund
      ever being asked for: stock uses its retries and fails once more. */
  lemma PaymentCanBeKept(order: OrderId, tx: string, maxRetries: int) returns (w: World, paid: Event)
    requires tx != ""
    ensures Reachable(w, maxRetries) && order in w.sagas && w.sagas[order].current.Failed? && w.sagas[order].tx == tx
    ensures paid in w.sent && Approval(paid) && paid.order == order && paid.tx == tx
    ensures !O.RefundAsked(w, order)
  {
    hide Reachable, AtCommand, HistoryIn, O.RefundAsked, StockRetriesExhausted;
    var w0 := Started(order, maxRetries);
    var w1;
    w1, paid := SuccessRound(w0, order, tx, maxRetries);
    var w2 := RetryRounds(w1, order, Limit(maxRetries), maxRetries);
    CommandRuns(w2, order);
    var r;
    w, r := Round(w2, order, UNAVAILABLE, maxRetries);
    assert r.kind.InventoryResult? && r.status.Retrying?;
    RetriesAreExhausted(w2, w, order, r, maxRetries);
    O.RefundAskedExactly(w, paid, maxRetries);
  }

  lemma RetriesAreExhausted(w: World, w': World, order: OrderId, r: Event, maxRetries: int)
    requires Reachable(w, maxRetries) && order in w.sagas
    requires w.sagas[order].current.PaymentApproved? && w.sagas[order].retryCount >= maxRetries
    requires HistoryIn(w', order) == HistoryIn(w, order) + [r] && r.kind.InventoryResult? && r.status.Retrying?
    ensures StockRetriesExhausted(Consumed(OrderJournal(w'.journal, order)), maxRetries)
  {
    hide Accepted, Replay, OrderOk;
    InvAt(w, order, maxRetries);
    O.HistoryOf(w, order, maxRetries);
    assert HistoryIn(w', order)[..|HistoryIn(w', order)| - 1] == HistoryIn(w, order);
  }

  /** So can one without a transaction id, after a single refusal by stock. */
  lemma PaymentWithoutIdIsKept(order: OrderId, maxRetries: int) returns (w: World, paid: Event)
    ensures Reachable(w, maxRetries) && order in w.sagas && w.sagas[order].current.Failed?
    ensures paid in w.sent && Approval(paid) && paid.order == order && paid.tx == ""
    ensures HistoryIn(w, order) != [] && HistoryIn(w, order)[|HistoryIn(w, order)| - 1].status.Failed?
    ensures !O.RefundAsked(w, order)
  {
    hide Reachable, AtCommand, HistoryIn, O.RefundAsked, StockRetriesExhausted;
    var w0 := Started(order, maxRetries);
    var w1;
    w1, paid := SuccessRound(w0, order, "", maxRetries);
    CommandRuns(w1, order);
    var r;
    w, r := Round(w1, order, REFUSED, maxRetries);
    O.RefundAskedExactly(w, paid, maxRetries);
  }

  /** A completed order whose notification failed. */
  lemma NotificationCanFail(order: OrderId, maxRetries: int) returns (w: World, failure: Event)
    ensures Reachable(w, maxRetries) && order in w.sagas && w.sagas[order].current.Completed?
    ensures failure in w.sent && failure.order == order && failure.kind.NotificationResult? && failure.status.Failed?
    ensures R.NotificationFailed(w, order)
  {
    hide Reachable, AtCommand, HistoryIn;
    var w0 := Started(order, maxRetries);
    var w1, r1 := SuccessRound(w0, order, "tx", maxRetries);
    var w2, r2 := SuccessRound(w1, order, "", maxRetries);
    CommandRuns(w2, order);
    RowNamesOrder(w2, order, maxRetries);
    w, failure := Round(w2, order, REFUSED, maxRetries);
  }

  /** The refund has retries of its own: for every retry limit a reachable order uses all its
      retries in stock, is refused, uses all its retries in the refund, and is refunded. */
  lemma RefundHasItsOwnRetries(order: OrderId, tx: string, maxRetries: int) returns (w: World, refund: Event)
    requires tx != ""
    ensures Reachable(w, maxRetries) && order in w.sagas && w.sagas[order].current.Failed?
    ensures refund in w.sent && Refund(refund) && refund.order == order
    ensures |HistoryIn(w, order)| - 1 == 2 * Limit(maxRetries) + 3
  {
    hide Reachable, AtCommand, HistoryIn;
    var m: nat := Limit(maxRetries);
    var w0 := Started(order, maxRetries);
    var w1, r1 := SuccessRound(w0, order, tx, maxRetries);
    var w2 := RetryRounds(w1, order, m, maxRetries);
    CommandRuns(w2, order);
    RowNamesOrder(w2, order, maxRetries);
    var w3, r3 := Round(w2, order, REFUSED, maxRetries);
    assert w3.sagas[order].current.PaymentRefundPending? && w3.sagas[order].retryCount == 0;
    var w4 := RetryRounds(w3, order, m, maxRetries);
    CommandRuns(w4, order);
    RowNamesOrder(w4, order, maxRetries);
    w, refund := Round(w4, order, GatewayAnswer(true, "", None), maxRetries);
  }
}
