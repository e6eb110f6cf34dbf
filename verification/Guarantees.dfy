/** What the protocol promises in every world a run can reach. */
module Guarantees {
  import opened Domain
  import opened Topics
  import opened StateMachine
  import opened SagaSteps
  import opened History
  import opened Tables
  import opened Handlers
  import opened Protocol

  // ---------------------------------------------------------------- runs

  function Run(w: World, actions: seq<Action>, maxRetries: int): World {
    if actions == [] then w
    else Next(Run(w, actions[..|actions| - 1], maxRetries), actions[|actions| - 1], maxRetries)
  }

  ghost predicate Possible(actions: seq<Action>, maxRetries: int) {
    actions == [] ||
    (Possible(actions[..|actions| - 1], maxRetries)
     && Enabled(Run(START, actions[..|actions| - 1], maxRetries), actions[|actions| - 1]))
  }

  ghost predicate Reachable(w: World, maxRetries: int) {
    exists actions :: Possible(actions, maxRetries) && Run(START, actions, maxRetries) == w
  }

  lemma {:induction false} RunKeeps(actions: seq<Action>, maxRetries: int)
    requires Possible(actions, maxRetries)
    ensures Inv(Run(START, actions, maxRetries), maxRetries)
  {
    if actions == [] {
      StartOk(maxRetries);
    } else {
      var before := actions[..|actions| - 1];
      RunKeeps(before, maxRetries);
      StepKeeps(Run(START, before, maxRetries), actions[|actions| - 1], maxRetries);
    }
  }

  lemma ReachableOk(w: World, maxRetries: int)
    requires Reachable(w, maxRetries)
    ensures Inv(w, maxRetries)
  {
    var actions :| Possible(actions, maxRetries) && Run(START, actions, maxRetries) == w;
    RunKeeps(actions, maxRetries);
  }

  lemma ReachableStep(w: World, a: Action, maxRetries: int)
    requires Reachable(w, maxRetries) && Enabled(w, a)
    ensures Reachable(Next(w, a, maxRetries), maxRetries)
  {
    var actions :| Possible(actions, maxRetries) && Run(START, actions, maxRetries) == w;
    var longer := actions + [a];
    assert longer[..|longer| - 1] == actions;
    assert Possible(longer, maxRetries) && Run(START, longer, maxRetries) == Next(w, a, maxRetries);
  }

  lemma InvAt(w: World, order: OrderId, maxRetries: int)
    requires Reachable(w, maxRetries)
    ensures Ids(w) && Origins(w) && OrderOk(w, order, maxRetries)
  {
    ReachableOk(w, maxRetries);
  }

  // ---------------------------------------------------------------- the single token

  /** Whether a message is the one a saga in this status waits for: the command it sent,
      or a valid result of that stage. */
  predicate Suits(current: OrderStatus, t: Event) {
    if IsCommand(t.kind) then NextCommand(current) == Ok((current, t.kind))
    else ExpectedStatusForResult(t.kind) == Some(current) && ValidResultStatus(t.kind, t.status)
  }

  /** Every order whose saga runs has exactly one message that can still move it, and that
      message suits the saga's status; an order without a saga, or with a finished one,
      has none. Duplicates, reordering and redelivery never change this. */
  lemma SingleToken(w: World, order: OrderId, maxRetries: int)
    requires Reachable(w, maxRetries)
    ensures order in w.sagas && !IsTerminal(w.sagas[order].current) ==>
      exists t :: Live(w, order) == {t} && Suits(w.sagas[order].current, t)
    ensures order !in w.sagas || IsTerminal(w.sagas[order].current) ==> Live(w, order) == {}
  {
    InvAt(w, order, maxRetries);
    if order in w.sagas && !IsTerminal(w.sagas[order].current) {
      var f := OrderJournal(w.journal, order);
      var t :| Live(w, order) == {t} && Fits(w.journal, f, t);
      assert t in Live(w, order);
      LastCommand(f, maxRetries);
      if IsCommand(t.kind) {
        LiveCommand(w, t, maxRetries);
      } else {
        LiveResult(w, t, maxRetries);
      }
      assert Suits(w.sagas[order].current, t);
    }
  }

  /** The only error any handler can return on a delivered message is the refusal of a
      second ORDER_CREATED for an order that already has a saga. In particular no worker
      rejects a command of the orchestrator, and no result is ever out of order, of the
      wrong status, or for an unknown saga. */
  lemma OnlyDuplicateOrdersAreRejected(w: World, a: Action, maxRetries: int)
    requires Reachable(w, maxRetries) && Enabled(w, a)
    ensures Outcome(w, a, maxRetries).Err? <==>
      a.Orchestrate? && a.e.kind.OrderCreated? && a.e.order in w.sagas && !Has(w.journal, a.e.id, Orchestrator)
    ensures Outcome(w, a, maxRetries).Err? ==> Outcome(w, a, maxRetries) == Err(NonRetryable(SagaAlreadyStarted))
  {
    hide OrderOk, OrchestratorEffect, WorkerEffect, Has;
    match a
    case Create(_, _) =>
    case Orchestrate(e, id) =>
      InvAt(w, e.order, maxRetries);
      OrchestratorRejects(w, e, id, maxRetries);
    case Work(component, e, answer, id) =>
      InvAt(w, e.order, maxRetries);
      WorkersNeverReject(w, component, e, answer, id, maxRetries);
  }

  lemma OrchestratorRejects(w: World, e: Event, id: EventId, maxRetries: int)
    requires OrderOk(w, e.order, maxRetries) && e in w.sent
    ensures var r := OrchestratorEffect(w.sagas, w.journal, e, id, maxRetries);
      && (r.Err? <==> e.kind.OrderCreated? && e.order in w.sagas && !Has(w.journal, e.id, Orchestrator))
      && (r.Err? ==> r == Err(NonRetryable(SagaAlreadyStarted)))
  {
    hide OrderOk, OnResult;
    if IsResult(e.kind) {
      ResultsAreNeverRejected(w, e, id, maxRetries);
    } else {
      StartAlwaysMoves(e.order, id);
    }
  }

  lemma WorkersNeverReject(w: World, component: Component, e: Event, answer: GatewayAnswer, id: EventId,
                           maxRetries: int)
    requires Ids(w) && Origins(w) && OrderOk(w, e.order, maxRetries) && e in w.sent
    ensures WorkerEffect(w.journal, component, e, answer, id).Ok?
  {
    hide OrderOk, WorkerBlock, ResultFor;
    if IsCommand(e.kind) {
      assert Explained(w, e);
      CommandsAreValid(w, e, maxRetries);
    }
  }

  lemma ResultsAreNeverRejected(w: World, e: Event, id: EventId, maxRetries: int)
    requires OrderOk(w, e.order, maxRetries) && e in w.sent && IsResult(e.kind)
    ensures OrchestratorEffect(w.sagas, w.journal, e, id, maxRetries).Ok?
  {
    ResultHasSaga(w, e, maxRetries);
    if !Has(w.journal, e.id, Orchestrator) {
      LiveResult(w, e, maxRetries);
      RejectionsAreExactlyTwo(w.sagas[e.order], e, id, maxRetries);
    }
  }

  lemma ResultHasSaga(w: World, e: Event, maxRetries: int)
    requires OrderOk(w, e.order, maxRetries) && e in w.sent && !e.kind.OrderCreated?
    ensures e.order in w.sagas
  {
  }

  // ---------------------------------------------------------------- reading the ledger

  lemma {:induction false} LedgerShape(f: seq<JournalEntry>, i: nat, maxRetries: int)
    requires Ledger(f, maxRetries) && i < |Consumed(f)|
    ensures |f| == 2 * |Consumed(f)|
    ensures f[2 * i].direction.In? && f[2 * i].payload == Consumed(f)[i]
    ensures f[2 * i + 1].direction.Out?
    decreases |f|
  {
    hide Decide, Accepted, Replay;
    LedgerIsEven(f, maxRetries);
    var prior := f[..|f| - 2];
    LedgerIsEven(prior, maxRetries);
    assert Consumed(f) == Consumed(prior) + [f[|f| - 2].payload];
    if i < |Consumed(prior)| {
      LedgerShape(prior, i, maxRetries);
    }
  }

  lemma {:induction false} LedgerPrefix(f: seq<JournalEntry>, i: nat, maxRetries: int)
    requires Ledger(f, maxRetries) && i <= |Consumed(f)|
    ensures |f| == 2 * |Consumed(f)|
    ensures Ledger(f[..2 * i], maxRetries) && Consumed(f[..2 * i]) == Consumed(f)[..i]
    ensures Accepted(Consumed(f), maxRetries)
    decreases |f|
  {
    hide Decide, Replay, Accepted, Ledger, Consumed;
    LedgerIsEven(f, maxRetries);
    LedgerAccepted(f, maxRetries);
    if i == |Consumed(f)| {
      assert f[..2 * i] == f;
      assert Consumed(f)[..i] == Consumed(f);
    } else {
      var prior := f[..|f| - 2];
      PriorLedger(f, maxRetries);
      LedgerPrefix(prior, i, maxRetries);
      assert prior[..2 * i] == f[..2 * i];
      assert Consumed(f)[..i] == Consumed(prior)[..i];
    }
  }

  lemma PriorLedger(f: seq<JournalEntry>, maxRetries: int)
    requires Ledger(f, maxRetries) && f != []
    ensures Ledger(f[..|f| - 2], maxRetries) && Accepted(Consumed(f), maxRetries)
    ensures Consumed(f) == Consumed(f[..|f| - 2]) + [f[|f| - 2].payload]
    ensures |f| == 2 * |Consumed(f)|
  {
  }

  /** Position by position: the i-th pair of an order's journal consumes the i-th event of
      its history and records exactly what the pure step sends for it. */
  lemma LedgerAt(f: seq<JournalEntry>, i: nat, maxRetries: int)
    requires Ledger(f, maxRetries) && i < |Consumed(f)|
    ensures |f| == 2 * |Consumed(f)|
    ensures f[2 * i].payload == Consumed(f)[i]
    ensures var r := Decide(Replay(Consumed(f)[..i], maxRetries), Consumed(f)[i], f[2 * i + 1].payload.id, maxRetries);
      r.Ok? && r.value.out == f[2 * i + 1].payload
  {
    hide Decide, Accepted, Replay, Ledger, Consumed;
    LedgerShape(f, i, maxRetries);
    LedgerPrefix(f, i + 1, maxRetries);
    LedgerPrefix(f, i, maxRetries);
    var upTo := f[..2 * (i + 1)];
    LastPair(upTo, maxRetries);
    assert upTo[..|upTo| - 2] == f[..2 * i];
    assert Consumed(f)[i] == f[2 * i].payload;
  }

  lemma LastPair(f: seq<JournalEntry>, maxRetries: int)
    requires Ledger(f, maxRetries) && f != []
    ensures |f| >= 2
    ensures var prior, seen, out := f[..|f| - 2], f[|f| - 2].payload, f[|f| - 1].payload;
      var r := Decide(Replay(Consumed(prior), maxRetries), seen, out.id, maxRetries);
      r.Ok? && r.value.out == out
  {
  }

  /** The event sent by the i-th pair, read against the row that pair leaves. */
  lemma SentAt(f: seq<JournalEntry>, i: nat, maxRetries: int)
    requires Ledger(f, maxRetries) && i < |Consumed(f)|
    ensures |f| == 2 * |Consumed(f)| && Accepted(Consumed(f), maxRetries)
    ensures Replay(Consumed(f)[..i + 1], maxRetries).Some?
    ensures RowOk(Replay(Consumed(f)[..i + 1], maxRetries).value, maxRetries)
    ensures var row, out := Replay(Consumed(f)[..i + 1], maxRetries).value, f[2 * i + 1].payload;
      && out.order == row.order
      && if IsTerminal(row.current) then
           out.kind == (if row.current.Completed? then OrderCompleted else OrderFailed)
           && out.status == row.current && out.tx == ""
         else
           NextCommand(row.current) == Ok((row.current, out.kind)) && out.status == row.current && out.tx == row.tx
           && out.metadata == map[]
  {
    hide Decide, Accepted, Replay, CanTransitionTo, Ledger;
    LedgerPrefix(f, i + 1, maxRetries);
    var upTo := f[..2 * (i + 1)];
    LastCommand(upTo, maxRetries);
    assert upTo[|upTo| - 1] == f[2 * i + 1];
  }

  lemma EntryInLedger(w: World, x: JournalEntry, maxRetries: int) returns (k: nat)
    requires OrderOk(w, x.order, maxRetries) && x in w.journal && x.component.Orchestrator?
    ensures k < |OrderJournal(w.journal, x.order)| && OrderJournal(w.journal, x.order)[k] == x
  {
    OrderJournalMembers(w.journal, x.order, x);
    k :| 0 <= k < |OrderJournal(w.journal, x.order)| && OrderJournal(w.journal, x.order)[k] == x;
  }

  lemma PairOf(f: seq<JournalEntry>, k: nat, maxRetries: int)
    requires Ledger(f, maxRetries) && k < |f|
    ensures |f| == 2 * |Consumed(f)|
    ensures f[k].direction.In? ==> Consumed(f)[k / 2] == f[k].payload
    ensures f[k].direction.Out? ==> k == 2 * (k / 2) + 1
  {
    hide Decide, Accepted, Replay, Ledger;
    LedgerIsEven(f, maxRetries);
    LedgerShape(f, k / 2, maxRetries);
  }

  /** A journaled result was consumed: it stands in the order's history. */
  lemma JournaledMeansConsumed(w: World, e: Event, maxRetries: int) returns (i: nat)
    requires Ids(w) && OrderOk(w, e.order, maxRetries)
    requires e in w.sent && IsResult(e.kind) && Has(w.journal, e.id, Orchestrator)
    ensures i < |Consumed(OrderJournal(w.journal, e.order))|
    ensures Consumed(OrderJournal(w.journal, e.order))[i] == e
  {
    hide Decide, Accepted, Replay;
    var x :| x in w.journal && x.eventId == e.id && x.component == Orchestrator;
    assert x.payload == e && x.direction.In?;
    var k := EntryInLedger(w, x, maxRetries);
    PairOf(OrderJournal(w.journal, e.order), k, maxRetries);
    i := k / 2;
  }

  /** An event of the orchestrator stands in the order's ledger as an OUT entry. */
  lemma SentMeansLedger(w: World, e: Event, maxRetries: int) returns (i: nat)
    requires Ids(w) && Explained(w, e) && OrderOk(w, e.order, maxRetries)
    requires e in w.sent && !IsResult(e.kind) && !e.kind.OrderCreated?
    ensures i < |Consumed(OrderJournal(w.journal, e.order))|
    ensures |OrderJournal(w.journal, e.order)| == 2 * |Consumed(OrderJournal(w.journal, e.order))|
    ensures OrderJournal(w.journal, e.order)[2 * i + 1].payload == e
  {
    hide Decide, Accepted, Replay, Chained, TokenOk;
    var x :| x in w.journal && x.component.Orchestrator? && x.direction.Out? && x.payload == e;
    var k := EntryInLedger(w, x, maxRetries);
    PairOf(OrderJournal(w.journal, e.order), k, maxRetries);
    i := k / 2;
  }

  lemma CommandsAreValid(w: World, e: Event, maxRetries: int)
    requires Ids(w) && Explained(w, e) && OrderOk(w, e.order, maxRetries)
    requires e in w.sent && IsCommand(e.kind)
    ensures CommandCheck(e).Ok?
  {
    hide Decide, Accepted, Replay, Chained, TokenOk, CanTransitionTo;
    var i := SentMeansLedger(w, e, maxRetries);
    var f := OrderJournal(w.journal, e.order);
    SentAt(f, i, maxRetries);
    CommandsPassTheCheck(Replay(Consumed(f)[..i + 1], maxRetries).value, e, maxRetries);
  }
}
