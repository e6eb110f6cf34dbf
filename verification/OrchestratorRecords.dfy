/** What the orchestrator does with each event, for any tables, and what its journal shows. */
module OrchestratorRecords {
  import opened Domain
  import opened Topics
  import opened StateMachine
  import opened SagaSteps
  import opened Decisions
  import opened History
  import opened Tables
  import opened Handlers
  import opened Protocol
  import opened Guarantees

  predicate Seen(journal: seq<JournalEntry>, e: Event) {
    exists x :: x in journal && x.eventId == e.id && x.component.Orchestrator?
  }

  /** For any tables and any event: which of its outcomes the handler reaches. An announcement is
      looked up in the journal first, a result in the sagas first. */
  lemma AnswersExactly(sagas: map<OrderId, Saga>, journal: seq<JournalEntry>, e: Event, id: EventId, maxRetries: int)
    ensures var r, created := OrchestratorEffect(sagas, journal, e, id, maxRetries), e.kind.OrderCreated?;
      && (r == Ok(Nothing) <==>
            if created then Seen(journal, e)
            else !IsResult(e.kind) || (e.order in sagas && Seen(journal, e)))
      && (r == Err(NonRetryable(SagaAlreadyStarted)) <==> created && e.order in sagas && !Seen(journal, e))
      && (r == Err(NonRetryable(UnknownSaga)) <==> IsResult(e.kind) && e.order !in sagas)
      && (r.Ok? && r.value.Commit? <==>
            !Seen(journal, e)
            && if created then e.order !in sagas
               else e.order in sagas && Acceptable(sagas[e.order].current, e))
      && (r.Err? ==> r.error.NonRetryable?)
  {
    hide OnResult, CanTransitionTo;
    if e.order in sagas {
      AcceptsExactly(sagas[e.order], e, id, maxRetries);
      if IsResult(e.kind) {
        RejectionsAreExactlyTwo(sagas[e.order], e, id, maxRetries);
      }
    }
    FirstStep(e.order, id);
  }

  /** The two entries and the row of a committing run, field by field. The IN entry says from which
      status the saga had come and what the event reports; the OUT entry says from which status
      the saga came and to which it goes. */
  lemma WritesExactly(sagas: map<OrderId, Saga>, journal: seq<JournalEntry>, e: Event, id: EventId, maxRetries: int)
    requires OrchestratorEffect(sagas, journal, e, id, maxRetries).Ok?
    requires OrchestratorEffect(sagas, journal, e, id, maxRetries).value.Commit?
    requires e.order in sagas ==> sagas[e.order].order == e.order
    ensures var effect := OrchestratorEffect(sagas, journal, e, id, maxRetries).value;
      && effect.row.Some? && effect.row.value.order == e.order && effect.out.id == id
      && var row := effect.row.value;
         var came := if e.kind.OrderCreated? then NoStatus else sagas[e.order].previous;
         var left := if IsTerminal(row.current) then sagas[e.order].current else row.previous;
         effect.entries ==
           [ JournalEntry(e.order, e.order, e.id, e.kind, Orchestrator, In, came,
                          if e.kind.OrderCreated? then Pending else e.status, e, None, None),
             JournalEntry(e.order, e.order, id, effect.out.kind, Orchestrator, Out, left, effect.out.status, effect.out,
                          None, None) ]
  {
    hide OnResult, CanTransitionTo;
    AnswersExactly(sagas, journal, e, id, maxRetries);
    FirstStep(e.order, id);
    if !e.kind.OrderCreated? {
      RowAfter(sagas[e.order], e, id, maxRetries);
      EventAfter(sagas[e.order], e, id, maxRetries);
      LoggedAfter(sagas[e.order], e, id, maxRetries);
    }
  }

  // ---------------------------------------------------------------- over whole runs

  /** An IN, OUT pair against the rows before and after it. */
  ghost predicate PairTells(before: Option<Saga>, after: Saga, x: JournalEntry, y: JournalEntry) {
    && x.sagaId == x.order && y.sagaId == y.order
    && x.from == (if before.Some? then before.value.previous else NoStatus)
    && x.to == (if x.kind.OrderCreated? then Pending else x.payload.status)
    && (IsTerminal(after.current) ==> before.Some? && y.from == before.value.current)
    && (!IsTerminal(after.current) ==> y.from == after.previous)
    && y.to == y.payload.status
    && x.request.None? && x.response.None? && y.request.None? && y.response.None?
  }

  /** The i-th pair of an order's journal against the rows its history gives. */
  ghost predicate PairAt(f: seq<JournalEntry>, es: seq<Event>, i: nat, maxRetries: int)
    requires i < |es|
  {
    && |f| == 2 * |es|
    && Replay(es[..i + 1], maxRetries).Some?
    && PairTells(Replay(es[..i], maxRetries), Replay(es[..i + 1], maxRetries).value, f[2 * i], f[2 * i + 1])
  }

  /** Every pair of one order's journal tells the statuses of the saga at that point. */
  ghost predicate PairsTell(f: seq<JournalEntry>, maxRetries: int) {
    forall i :: 0 <= i < |Consumed(f)| ==> PairAt(f, Consumed(f), i, maxRetries)
  }

  lemma PairsExtend(f: seq<JournalEntry>, x: JournalEntry, y: JournalEntry, maxRetries: int)
    requires PairsTell(f, maxRetries) && |f| == 2 * |Consumed(f)|
    requires Consumed(f + [x, y]) == Consumed(f) + [x.payload]
    requires Replay(Consumed(f) + [x.payload], maxRetries).Some?
    requires PairTells(Replay(Consumed(f), maxRetries), Replay(Consumed(f) + [x.payload], maxRetries).value, x, y)
    ensures PairsTell(f + [x, y], maxRetries)
  {
    hide Consumed, Replay, PairTells;
    var f', es, es' := f + [x, y], Consumed(f), Consumed(f) + [x.payload];
    forall i | 0 <= i < |es'|
      ensures PairAt(f', es', i, maxRetries)
    {
      if i < |es| {
        assert PairAt(f, es, i, maxRetries);
        assert es'[..i] == es[..i] && es'[..i + 1] == es[..i + 1];
      } else {
        assert es'[..i] == es && es'[..i + 1] == es';
      }
    }
  }

  lemma CommitTells(w: World, e: Event, id: EventId, maxRetries: int)
    requires Inv(w, maxRetries) && Enabled(w, Orchestrate(e, id))
    requires PairsTell(OrderJournal(w.journal, e.order), maxRetries)
    requires OrchestratorEffect(w.sagas, w.journal, e, id, maxRetries).Ok?
    requires OrchestratorEffect(w.sagas, w.journal, e, id, maxRetries).value.Commit?
    ensures PairsTell(OrderJournal(Next(w, Orchestrate(e, id), maxRetries).journal, e.order), maxRetries)
  {
    hide Origins, Decide, Replay, Consumed, Ledger, Chained, TokenOk, OrderJournal, PairsTell;
    assert OrderOk(w, e.order, maxRetries) && Ids(w);
    hide Inv, OrderOk, Ids;
    OrderFacts(w, e.order, maxRetries);
    var before, seenAs, m := WhatWasDecided(w, e, id, maxRetries);
    AcceptIsCoherent(w, e, m, before, maxRetries);
    LedgerGrows(w, e, m, before, seenAs, maxRetries);
    WritesExactly(w.sagas, w.journal, e, id, maxRetries);
    var f := OrderJournal(w.journal, e.order);
    var entries := Handlers.Accept(before, e, seenAs, m).entries;
    assert entries == [entries[0], entries[1]];
    PairsExtend(f, entries[0], entries[1], maxRetries);
  }

  lemma OrderFacts(w: World, order: OrderId, maxRetries: int)
    requires OrderOk(w, order, maxRetries) && Ids(w)
    ensures order in w.sagas ==> w.sagas[order].order == order
    ensures var f := OrderJournal(w.journal, order);
      && |f| == 2 * |Consumed(f)|
      && Replay(Consumed(f), maxRetries) == (if order in w.sagas then Some(w.sagas[order]) else None)
    ensures forall e :: e in w.sent ==> e.id in w.used
  {
    hide Accepted, Decide;
    LedgerIsEven(OrderJournal(w.journal, order), maxRetries);
  }

  lemma StepTells(w: World, a: Action, order: OrderId, maxRetries: int)
    requires Inv(w, maxRetries) && Enabled(w, a) && PairsTell(OrderJournal(w.journal, order), maxRetries)
    ensures PairsTell(OrderJournal(Next(w, a, maxRetries).journal, order), maxRetries)
  {
    hide Inv, PairsTell, OrderJournal, OrchestratorEffect, WorkerBlock, ResultFor, Receives;
    var r := Outcome(w, a, maxRetries);
    if r.Ok? && r.value.Commit? {
      if a.Orchestrate? && a.e.order == order {
        CommitTells(w, a.e, a.id, maxRetries);
      } else {
        OrderJournalGrows(w.journal, r.value.entries, order);
        NothingForOrder(w, a, order, maxRetries);
        assert OrderJournal(w.journal, order) + [] == OrderJournal(w.journal, order);
      }
    }
  }

  lemma NothingForOrder(w: World, a: Action, order: OrderId, maxRetries: int)
    requires Inv(w, maxRetries) && Enabled(w, a) && !(a.Orchestrate? && a.e.order == order)
    requires Outcome(w, a, maxRetries).Ok? && Outcome(w, a, maxRetries).value.Commit?
    ensures OrderJournal(Outcome(w, a, maxRetries).value.entries, order) == []
  {
    hide OrderOk, Origins, OrchestratorEffect, Receives;
    var effect := Outcome(w, a, maxRetries).value;
    if a.Work? {
      WorkersAreElsewhere(effect.entries, order);
    } else if a.Orchestrate? {
      DeliveryWrites(w, a, maxRetries);
      OrderJournalElsewhere(effect.entries, order);
    }
  }

  lemma {:induction false} RunTells(actions: seq<Action>, order: OrderId, maxRetries: int)
    requires Possible(actions, maxRetries)
    ensures PairsTell(OrderJournal(Run(START, actions, maxRetries).journal, order), maxRetries)
  {
    hide PairsTell, Next, Enabled;
    if actions == [] {
      assert PairsTell(OrderJournal(START.journal, order), maxRetries) by { EmptyTells(maxRetries); }
    } else {
      var front, a := actions[..|actions| - 1], actions[|actions| - 1];
      RunTells(front, order, maxRetries);
      RunKeeps(front, maxRetries);
      StepTells(Run(START, front, maxRetries), a, order, maxRetries);
    }
  }

  lemma EmptyTells(maxRetries: int)
    ensures PairsTell([], maxRetries)
  {
  }

  /** In every reachable world, the i-th IN, OUT pair of an order's journal names the statuses its
      saga had then: IN the one remembered before and the one the event reports, OUT the one the
      saga came from and the one it sends. */
  lemma JournalTellsStatuses(w: World, order: OrderId, i: nat, maxRetries: int)
    requires Reachable(w, maxRetries) && i < |Consumed(OrderJournal(w.journal, order))|
    ensures var f := OrderJournal(w.journal, order);
      var es := Consumed(f);
      && |f| == 2 * |es| && Replay(es[..i + 1], maxRetries).Some?
      && PairTells(Replay(es[..i], maxRetries), Replay(es[..i + 1], maxRetries).value, f[2 * i], f[2 * i + 1])
  {
    hide PairTells, Replay, Consumed, OrderJournal;
    var actions :| Possible(actions, maxRetries) && Run(START, actions, maxRetries) == w;
    RunTells(actions, order, maxRetries);
    assert PairAt(OrderJournal(w.journal, order), Consumed(OrderJournal(w.journal, order)), i, maxRetries);
  }
}
