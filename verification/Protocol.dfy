/** The saga protocol over at-least-once delivery. A world holds the saga rows, the journal,
    every event ever sent, and the ids already drawn. Any sent event may be delivered to its
    subscribers any number of times, in any order; gateways answer anything. */
module Protocol {
  import opened Domain
  import opened Topics
  import opened SagaSteps
  import opened StateMachine
  import opened History
  import opened Tables
  import opened Handlers

  datatype World = World(
    sagas: map<OrderId, Saga>,
    journal: seq<JournalEntry>,
    sent: set<Event>,
    used: set<EventId>)

  /** One step: an order is announced, or a handler runs on a delivered event. The id is the
      one drawn for the event this step may send. */
  datatype Action =
    | Create(order: OrderId, id: EventId)
    | Orchestrate(e: Event, id: EventId)
    | Work(component: Component, e: Event, answer: GatewayAnswer, id: EventId)

  predicate IsWorker(component: Component) {
    component.PaymentWorker? || component.InventoryWorker? || component.NotificationWorker?
  }

  predicate Enabled(w: World, a: Action) {
    match a
    case Create(_, id) => id !in w.used
    case Orchestrate(e, id) => id !in w.used && e in w.sent && Receives(Orchestrator, e.kind)
    case Work(component, e, _, id) =>
      id !in w.used && e in w.sent && IsWorker(component) && Receives(component, e.kind)
  }

  function Absorb(w: World, effect: Effect): World {
    match effect
    case Nothing => w
    case Commit(row, entries, out) =>
      World(if row.Some? then w.sagas[row.value.order := row.value] else w.sagas,
            w.journal + entries, w.sent + {out}, w.used + {out.id})
  }

  function Outcome(w: World, a: Action, maxRetries: int): Result<Effect, Failure> {
    match a
    case Create(order, id) => Ok(Commit(None, [], CreatedEvent(order, id)))
    case Orchestrate(e, id) => OrchestratorEffect(w.sagas, w.journal, e, id, maxRetries)
    case Work(component, e, answer, id) => WorkerEffect(w.journal, component, e, answer, id)
  }

  /** A handler error rolls everything back. */
  function Next(w: World, a: Action, maxRetries: int): World {
    var r := Outcome(w, a, maxRetries);
    if r.Ok? then Absorb(w, r.value) else w
  }

  // ---------------------------------------------------------------- reading the journal

  /** The orchestrator's journal of one order, in commit order. */
  function OrderJournal(journal: seq<JournalEntry>, order: OrderId): seq<JournalEntry> {
    if journal == [] then []
    else
      var rest, x := OrderJournal(journal[..|journal| - 1], order), journal[|journal| - 1];
      if x.component.Orchestrator? && x.order == order then rest + [x] else rest
  }

  /** The events the orchestrator consumed, one for each IN, OUT pair of its journal. */
  function Consumed(f: seq<JournalEntry>): seq<Event>
    decreases |f|
  {
    if |f| < 2 then [] else Consumed(f[..|f| - 2]) + [f[|f| - 2].payload]
  }

  /** The journal of one order is a strict alternation of IN and OUT, its IN entries form
      an accepted history, and each OUT entry is the event that history step sends. */
  ghost predicate Ledger(f: seq<JournalEntry>, maxRetries: int)
    decreases |f|
  {
    f == [] ||
    (|f| >= 2 &&
     var prior, seen, out := f[..|f| - 2], f[|f| - 2], f[|f| - 1];
     && Ledger(prior, maxRetries)
     && seen.direction.In? && out.direction.Out?
     && Accepted(Consumed(f), maxRetries)
     && var r := Decide(Replay(Consumed(prior), maxRetries), seen.payload, out.payload.id, maxRetries);
        r.Ok? && out.payload == r.value.out)
  }

  /** Four adjacent journal entries show a worker turning a command into a result. */
  ghost predicate BlockAt(journal: seq<JournalEntry>, k: nat, command: Event, answer: GatewayAnswer, result: Event) {
    && IsCommand(command.kind)
    && result == ResultFor(command, answer, result.id)
    && k + 4 <= |journal|
    && journal[k..k + 4] == WorkerBlock(ConsumerOf(command.kind).value, command, answer, result.id)
  }

  ghost predicate CausedBy(journal: seq<JournalEntry>, command: Event, result: Event) {
    exists k: nat, answer :: BlockAt(journal, k, command, answer, result)
  }

  /** Sent, but not yet journaled by the one component that acts on it. */
  predicate Undelivered(journal: seq<JournalEntry>, e: Event) {
    && (IsCommand(e.kind) || IsResult(e.kind))
    && !Has(journal, e.id, ConsumerOf(e.kind).value)
  }

  /** The messages of an order that can still move its saga. */
  ghost function Live(w: World, order: OrderId): set<Event> {
    set e | e in w.sent && e.order == order && Undelivered(w.journal, e)
  }

  // ---------------------------------------------------------------- the invariant

  predicate Proper(x: JournalEntry) {
    && x.eventId == x.payload.id && x.order == x.payload.order && x.kind == x.payload.kind
    && match x.component
       case Orchestrator =>
         (x.direction.In? && (x.kind.OrderCreated? || IsResult(x.kind)))
         || (x.direction.Out? && (IsCommand(x.kind) || IsTerminalEvent(x.kind)))
       case ViewProjector => false
       case _ =>
         if x.direction.Out? then IsResult(x.kind)
         else IsCommand(x.kind) && ConsumerOf(x.kind) == Some(x.component)
  }

  ghost predicate Ids(w: World) {
    && (forall e :: e in w.sent ==> e.id in w.used)
    && (forall e, f :: e in w.sent && f in w.sent && e.id == f.id ==> e == f)
    && (forall x :: x in w.journal ==> x.payload in w.sent && Proper(x))
    && KeysDistinct(w.journal)
  }

  ghost predicate SentByOrchestrator(journal: seq<JournalEntry>, e: Event) {
    exists x :: x in journal && x.component.Orchestrator? && x.direction.Out? && x.payload == e
  }

  /** Every event has an author: the coordinator, the orchestrator, or a worker that was
      given a command. */
  ghost predicate Explained(w: World, e: Event) {
    if e.kind.OrderCreated? then e == CreatedEvent(e.order, e.id)
    else if IsResult(e.kind) then exists c :: c in w.sent && CausedBy(w.journal, c, e)
    else SentByOrchestrator(w.journal, e)
  }

  ghost predicate Origins(w: World) {
    forall e :: e in w.sent ==> Explained(w, e)
  }

  /** Every result the orchestrator consumed was caused by the command it sent just before. */
  ghost predicate Chained(journal: seq<JournalEntry>, f: seq<JournalEntry>) {
    forall i :: 1 < i < |f| && i % 2 == 0 ==> CausedBy(journal, f[i - 1].payload, f[i].payload)
  }

  /** The token is the command sent last, or a result that very command caused. */
  ghost predicate Fits(journal: seq<JournalEntry>, f: seq<JournalEntry>, t: Event) {
    && f != []
    && (t == f[|f| - 1].payload || (IsResult(t.kind) && CausedBy(journal, f[|f| - 1].payload, t)))
  }

  ghost predicate TokenOk(w: World, order: OrderId) {
    var f := OrderJournal(w.journal, order);
    if order !in w.sagas then
      forall e :: e in w.sent && e.order == order ==> e.kind.OrderCreated?
    else if IsTerminal(w.sagas[order].current) then Live(w, order) == {}
    else exists t :: Live(w, order) == {t} && Fits(w.journal, f, t)
  }

  ghost predicate OrderOk(w: World, order: OrderId, maxRetries: int) {
    var f := OrderJournal(w.journal, order);
    && Ledger(f, maxRetries)
    && (order in w.sagas <==> f != [])
    && (order in w.sagas ==> w.sagas[order].order == order && Replay(Consumed(f), maxRetries) == Some(w.sagas[order]))
    && Chained(w.journal, f)
    && TokenOk(w, order)
  }

  ghost predicate Inv(w: World, maxRetries: int) {
    Ids(w) && Origins(w) && forall order :: OrderOk(w, order, maxRetries)
  }

  ghost const START := World(map[], [], {}, {})

  lemma StartOk(maxRetries: int)
    ensures Inv(START, maxRetries)
  {
  }

  // ---------------------------------------------------------------- growing the journal

  lemma HasGrows(journal: seq<JournalEntry>, entries: seq<JournalEntry>, id: EventId, component: Component)
    ensures Has(journal + entries, id, component) <==> Has(journal, id, component) || Has(entries, id, component)
  {
  }

  lemma {:induction false} OrderJournalGrows(journal: seq<JournalEntry>, entries: seq<JournalEntry>, order: OrderId)
    ensures OrderJournal(journal + entries, order) == OrderJournal(journal, order) + OrderJournal(entries, order)
    decreases |entries|
  {
    var all := journal + entries;
    if entries == [] {
      assert all == journal;
    } else {
      var shorter := entries[..|entries| - 1];
      assert all[..|all| - 1] == journal + shorter;
      OrderJournalGrows(journal, shorter, order);
    }
  }

  lemma {:induction false} OrderJournalMembers(journal: seq<JournalEntry>, order: OrderId, x: JournalEntry)
    ensures x in OrderJournal(journal, order) <==> x in journal && x.component.Orchestrator? && x.order == order
    decreases |journal|
  {
    if journal != [] {
      var shorter, last := journal[..|journal| - 1], journal[|journal| - 1];
      OrderJournalMembers(shorter, order, x);
      assert journal == shorter + [last];
    }
  }

  lemma CausedByGrows(journal: seq<JournalEntry>, entries: seq<JournalEntry>, command: Event, result: Event)
    requires CausedBy(journal, command, result)
    ensures CausedBy(journal + entries, command, result)
  {
    var k: nat, answer :| BlockAt(journal, k, command, answer, result);
    assert (journal + entries)[k..k + 4] == journal[k..k + 4];
    assert BlockAt(journal + entries, k, command, answer, result);
  }

  lemma ChainedGrows(journal: seq<JournalEntry>, entries: seq<JournalEntry>, f: seq<JournalEntry>)
    requires Chained(journal, f)
    ensures Chained(journal + entries, f)
  {
    forall i | 1 < i < |f| && i % 2 == 0
      ensures CausedBy(journal + entries, f[i - 1].payload, f[i].payload)
    {
      CausedByGrows(journal, entries, f[i - 1].payload, f[i].payload);
    }
  }

  // ---------------------------------------------------------------- one commit

  /** The shape of every committing step: entries about the delivered event and the event
      sent, both of one order; the sent event has a new id. */
  ghost predicate Writes(w: World, effect: Effect, e: Event) {
    && effect.Commit?
    && e in w.sent
    && effect.out.id !in w.used && effect.out.order == e.order
    && (effect.row.Some? ==> effect.row.value.order == e.order)
    && (forall x :: x in effect.entries ==>
          Proper(x) && (x.payload == e || x.payload == effect.out))
    && (forall x :: x in effect.entries && x.payload == e ==> !Has(w.journal, e.id, x.component))
    && KeysDistinct(effect.entries)
  }

  /** The keys a commit inserts are new, so no insert is ever ignored. */
  lemma KeysAreNew(w: World, effect: Effect, e: Event, x: JournalEntry, y: JournalEntry)
    requires Ids(w) && Writes(w, effect, e)
    requires x in w.journal && y in effect.entries
    ensures !SameKey(x, y)
  {
  }

  lemma IdsKept(w: World, effect: Effect, e: Event)
    requires Ids(w) && Writes(w, effect, e)
    ensures Ids(Absorb(w, effect))
  {
  }

  lemma OriginsKept(w: World, effect: Effect)
    requires Origins(w) && effect.Commit?
    requires Explained(Absorb(w, effect), effect.out)
    ensures Origins(Absorb(w, effect))
  {
    var w' := Absorb(w, effect);
    forall e | e in w'.sent
      ensures Explained(w', e)
    {
      if e in w.sent && e != effect.out {
        assert Explained(w, e);
        if IsResult(e.kind) {
          var c :| c in w.sent && CausedBy(w.journal, c, e);
          CausedByGrows(w.journal, effect.entries, c, e);
        } else if !e.kind.OrderCreated? {
          var x :| x in w.journal && x.component.Orchestrator? && x.direction.Out? && x.payload == e;
          assert x in w'.journal;
        }
      }
    }
  }

  lemma UndeliveredElsewhere(w: World, effect: Effect, e: Event, other: Event)
    requires Ids(w) && Writes(w, effect, e)
    requires other in w.sent && other.order != e.order
    ensures Undelivered(Absorb(w, effect).journal, other) <==> Undelivered(w.journal, other)
  {
  }

  lemma {:induction false} OrderJournalElsewhere(entries: seq<JournalEntry>, order: OrderId)
    requires forall x :: x in entries ==> x.order != order
    ensures OrderJournal(entries, order) == []
    decreases |entries|
  {
    if entries != [] {
      assert entries[|entries| - 1] in entries;
      OrderJournalElsewhere(entries[..|entries| - 1], order);
    }
  }

  /** A commit for one order leaves every other order as it was. */
  lemma OtherOrdersKept(w: World, effect: Effect, e: Event, order: OrderId, maxRetries: int)
    requires Ids(w) && Writes(w, effect, e) && OrderOk(w, order, maxRetries) && order != e.order
    ensures OrderOk(Absorb(w, effect), order, maxRetries)
  {
    var w' := Absorb(w, effect);
    var f := OrderJournal(w.journal, order);
    OrderJournalGrows(w.journal, effect.entries, order);
    OrderJournalElsewhere(effect.entries, order);
    assert OrderJournal(w'.journal, order) == f;
    ChainedGrows(w.journal, effect.entries, f);
    assert Live(w', order) == Live(w, order) by {
      forall x | x in w'.sent && x.order == order
        ensures x in w.sent && (Undelivered(w'.journal, x) <==> Undelivered(w.journal, x))
      {
        UndeliveredElsewhere(w, effect, e, x);
      }
    }
    if order in w.sagas && !IsTerminal(w.sagas[order].current) {
      var t :| Live(w, order) == {t} && Fits(w.journal, f, t);
      if t != f[|f| - 1].payload {
        CausedByGrows(w.journal, effect.entries, f[|f| - 1].payload, t);
      }
      assert Fits(w'.journal, f, t);
    }
  }

  // ---------------------------------------------------------------- announcing an order

  lemma CreateKeeps(w: World, order: OrderId, id: EventId, maxRetries: int)
    requires Inv(w, maxRetries) && id !in w.used
    ensures Inv(Next(w, Create(order, id), maxRetries), maxRetries)
  {
    var out := CreatedEvent(order, id);
    var effect := Commit(None, [], out);
    var w' := Absorb(w, effect);
    assert w'.journal == w.journal;
    OriginsKept(w, effect);
    forall o
      ensures OrderOk(w', o, maxRetries)
    {
      assert OrderOk(w, o, maxRetries);
      assert Live(w', o) == Live(w, o);
    }
  }

  // ---------------------------------------------------------------- what the token tells

  /** In a journal that ends on a running saga, the last event sent is the command that
      saga waits on. */
  lemma LastCommand(f: seq<JournalEntry>, maxRetries: int)
    requires Ledger(f, maxRetries) && f != []
    ensures Accepted(Consumed(f), maxRetries) && Consumed(f) != []
    ensures Replay(Consumed(f), maxRetries).Some? && RowOk(Replay(Consumed(f), maxRetries).value, maxRetries)
    ensures var row, c := Replay(Consumed(f), maxRetries).value, f[|f| - 1].payload;
      && c.order == row.order && c.sagaId == row.order
      && if IsTerminal(row.current) then
           && c.kind == (if row.current.Completed? then OrderCompleted else OrderFailed)
           && c.status == row.current && c.tx == ""
         else
           NextCommand(row.current) == Ok((row.current, c.kind)) && c.status == row.current && c.tx == row.tx
           && c.metadata == map[]
  {
    var prior, seen, out := f[..|f| - 2], f[|f| - 2].payload, f[|f| - 1].payload;
    var es := Consumed(f);
    assert es[..|es| - 1] == Consumed(prior);
    CommittedRows(es, maxRetries);
    var row := Replay(Consumed(prior), maxRetries);
    FreshIdOnlyNames(row, seen, out.id, maxRetries);
    if row.Some? {
      CommittedRows(Consumed(prior), maxRetries);
      MoveIsCoherent(row.value, seen, out.id, maxRetries);
    } else {
      StartAlwaysMoves(seen.order, out.id);
    }
  }

  lemma TheToken(w: World, e: Event, maxRetries: int)
    requires OrderOk(w, e.order, maxRetries) && e in w.sent && Undelivered(w.journal, e)
    ensures e.order in w.sagas && !IsTerminal(w.sagas[e.order].current)
    ensures Live(w, e.order) == {e}
    ensures Fits(w.journal, OrderJournal(w.journal, e.order), e)
  {
    assert e in Live(w, e.order);
    var t :| Live(w, e.order) == {t} && Fits(w.journal, OrderJournal(w.journal, e.order), t);
    assert t == e;
  }

  /** The command a running saga waits on passes its worker's check. */
  lemma CommandsPassTheCheck(row: Saga, e: Event, maxRetries: int)
    requires RowOk(row, maxRetries) && !IsTerminal(row.current)
    requires NextCommand(row.current) == Ok((row.current, e.kind)) && e.status == row.current && e.tx == row.tx
    ensures IsCommand(e.kind) && CommandCheck(e).Ok?
    ensures forall answer, id :: var r := ResultFor(e, answer, id);
      ExpectedStatusForResult(r.kind) == Some(row.current) && ValidResultStatus(r.kind, r.status)
  {
  }

  /** A command that no worker has journaled yet is the order's token, and its worker
      accepts it. */
  lemma LiveCommand(w: World, e: Event, maxRetries: int)
    requires OrderOk(w, e.order, maxRetries) && e in w.sent && IsCommand(e.kind) && Undelivered(w.journal, e)
    ensures e.order in w.sagas && !IsTerminal(w.sagas[e.order].current)
    ensures Live(w, e.order) == {e}
    ensures var f := OrderJournal(w.journal, e.order); f != [] && f[|f| - 1].payload == e
    ensures CommandCheck(e).Ok?
  {
    TheToken(w, e, maxRetries);
    LastCommand(OrderJournal(w.journal, e.order), maxRetries);
    CommandsPassTheCheck(w.sagas[e.order], e, maxRetries);
  }

  /** A result the orchestrator has not journaled yet is the order's token, was caused by
      the command sent last, and is accepted. */
  lemma LiveResult(w: World, e: Event, maxRetries: int)
    requires OrderOk(w, e.order, maxRetries) && e in w.sent && IsResult(e.kind) && Undelivered(w.journal, e)
    ensures e.order in w.sagas && !IsTerminal(w.sagas[e.order].current)
    ensures Live(w, e.order) == {e}
    ensures var f := OrderJournal(w.journal, e.order); f != [] && CausedBy(w.journal, f[|f| - 1].payload, e)
    ensures ExpectedStatusForResult(e.kind) == Some(w.sagas[e.order].current)
    ensures ValidResultStatus(e.kind, e.status)
  {
    var f := OrderJournal(w.journal, e.order);
    TheToken(w, e, maxRetries);
    LastCommand(f, maxRetries);
    var c := f[|f| - 1].payload;
    CommandsPassTheCheck(w.sagas[e.order], c, maxRetries);
    var k: nat, answer :| BlockAt(w.journal, k, c, answer, e);
    assert e == ResultFor(c, answer, e.id);
  }

  // ---------------------------------------------------------------- the orchestrator's step

  /** What the orchestrator writes when it accepts an event. */
  ghost predicate Consumes(w: World, e: Event, m: Move, before: Saga, maxRetries: int) {
    && e in w.sent && m.out.id !in w.used && e.id in w.used
    && !Has(w.journal, e.id, Orchestrator)
    && before.order == e.order
    && (e.kind.OrderCreated? || IsResult(e.kind))
    && Decide(if e.order in w.sagas then Some(w.sagas[e.order]) else None, e, m.out.id, maxRetries) == Ok(m)
  }

  lemma AcceptIsCoherent(w: World, e: Event, m: Move, before: Saga, maxRetries: int)
    requires OrderOk(w, e.order, maxRetries) && Consumes(w, e, m, before, maxRetries)
    ensures Coherent(e.order, m.out.id, m)
  {
    hide OnResult;
    if e.order in w.sagas {
      LastCommand(OrderJournal(w.journal, e.order), maxRetries);
      MoveIsCoherent(w.sagas[e.order], e, m.out.id, maxRetries);
    } else {
      StartAlwaysMoves(e.order, m.out.id);
    }
  }

  lemma AcceptWrites(w: World, e: Event, m: Move, before: Saga, seenAs: OrderStatus, maxRetries: int)
    requires Consumes(w, e, m, before, maxRetries) && Coherent(e.order, m.out.id, m)
    ensures Writes(w, Accept(before, e, seenAs, m), e)
  {
  }

  lemma LedgerExtends(f: seq<JournalEntry>, x: JournalEntry, y: JournalEntry, m: Move, maxRetries: int)
    requires Ledger(f, maxRetries)
    requires x.direction.In? && y.direction.Out? && y.payload == m.out
    requires Decide(Replay(Consumed(f), maxRetries), x.payload, m.out.id, maxRetries) == Ok(m)
    requires f != [] ==> Consumed(f) != [] && x.payload.order == Consumed(f)[0].order
    ensures Consumed(f + [x, y]) == Consumed(f) + [x.payload]
    ensures Ledger(f + [x, y], maxRetries)
    ensures Replay(Consumed(f + [x, y]), maxRetries) == Some(m.saga)
  {
    hide Decide, Accepted, Replay;
    var f' := f + [x, y];
    assert f'[..|f'| - 2] == f;
    assert Consumed(f') == Consumed(f) + [x.payload];
    LedgerAccepted(f, maxRetries);
    AcceptedExtends(Consumed(f), x.payload, m, maxRetries);
  }

  lemma LedgerAccepted(f: seq<JournalEntry>, maxRetries: int)
    requires Ledger(f, maxRetries)
    ensures Accepted(Consumed(f), maxRetries)
  {
  }

  lemma AcceptedExtends(es: seq<Event>, e: Event, m: Move, maxRetries: int)
    requires es != [] ==> Accepted(es, maxRetries) && e.order == es[0].order
    requires Decide(Replay(es, maxRetries), e, m.out.id, maxRetries) == Ok(m)
    ensures Accepted(es + [e], maxRetries) && Replay(es + [e], maxRetries) == Some(m.saga)
  {
    hide Decide;
    var es' := es + [e];
    assert es'[..|es'| - 1] == es;
    FreshIdOnlyNames(Replay(es, maxRetries), e, m.out.id, maxRetries);
  }

  /** The order's own ledger grows by one IN, OUT pair that the pure step explains. */
  lemma LedgerGrows(w: World, e: Event, m: Move, before: Saga, seenAs: OrderStatus, maxRetries: int)
    requires OrderOk(w, e.order, maxRetries)
    requires Consumes(w, e, m, before, maxRetries)
    requires Coherent(e.order, m.out.id, m)
    ensures var w' := Absorb(w, Accept(before, e, seenAs, m));
      var f, f' := OrderJournal(w.journal, e.order), OrderJournal(w'.journal, e.order);
      && f' == f + Accept(before, e, seenAs, m).entries
      && Consumed(f') == Consumed(f) + [e]
      && Ledger(f', maxRetries)
      && Replay(Consumed(f'), maxRetries) == Some(m.saga)
  {
    hide Decide;
    var x, y := OrchestratorEntry(before, e, e.kind, In, before.previous, seenAs), OutEntry(m);
    var f := OrderJournal(w.journal, e.order);
    PairInJournal(w.journal, x, y, e.order);
    if f != [] {
      LastCommand(f, maxRetries);
      CommittedRows(Consumed(f), maxRetries);
    }
    LedgerExtends(f, x, y, m, maxRetries);
  }

  lemma PairInJournal(journal: seq<JournalEntry>, x: JournalEntry, y: JournalEntry, order: OrderId)
    requires x.component.Orchestrator? && y.component.Orchestrator? && x.order == order && y.order == order
    ensures OrderJournal(journal + [x, y], order) == OrderJournal(journal, order) + [x, y]
  {
    OrderJournalGrows(journal, [x, y], order);
    assert [x, y][..1] == [x];
    assert [x][..0] == [];
    assert OrderJournal([x], order) == [x];
  }

  predicate Travels(kind: EventType) {
    IsCommand(kind) || IsResult(kind)
  }

  lemma OutIsLive(w: World, effect: Effect, e: Event)
    requires Ids(w) && Writes(w, effect, e)
    requires Travels(effect.out.kind) && !Has(effect.entries, effect.out.id, ConsumerOf(effect.out.kind).value)
    ensures effect.out in Live(Absorb(w, effect), e.order)
  {
  }

  lemma OnlyOutIsLive(w: World, effect: Effect, e: Event, x: Event)
    requires Ids(w) && Writes(w, effect, e) && Live(w, e.order) <= {e}
    requires Travels(e.kind) ==> Has(effect.entries, e.id, ConsumerOf(e.kind).value)
    requires x in Live(Absorb(w, effect), e.order)
    ensures x == effect.out
  {
    HasGrows(w.journal, effect.entries, x.id, ConsumerOf(x.kind).value);
    assert x == effect.out || x in Live(w, e.order);
  }

  /** A commit uses up the message it was caused by: afterwards the order's only live
      message is the one just sent, or none if that one ends the flow. */
  lemma TokenMovesOn(w: World, effect: Effect, e: Event)
    requires Ids(w) && Writes(w, effect, e) && Live(w, e.order) <= {e}
    requires Travels(e.kind) ==> Has(effect.entries, e.id, ConsumerOf(e.kind).value)
    requires Travels(effect.out.kind) ==> !Has(effect.entries, effect.out.id, ConsumerOf(effect.out.kind).value)
    ensures Live(Absorb(w, effect), e.order) == if Travels(effect.out.kind) then {effect.out} else {}
  {
    var w' := Absorb(w, effect);
    forall x | x in Live(w', e.order)
      ensures x == effect.out
    {
      OnlyOutIsLive(w, effect, e, x);
    }
    if Travels(effect.out.kind) {
      OutIsLive(w, effect, e);
    }
  }

  lemma AcceptMovesToken(w: World, e: Event, m: Move, before: Saga, seenAs: OrderStatus)
    requires Ids(w) && Writes(w, Accept(before, e, seenAs, m), e) && Live(w, e.order) <= {e}
    requires Coherent(e.order, m.out.id, m) && (e.kind.OrderCreated? || IsResult(e.kind))
    ensures Live(Absorb(w, Accept(before, e, seenAs, m)), e.order)
         == if IsTerminal(m.saga.current) then {} else {m.out}
    ensures Travels(m.out.kind) <==> !IsTerminal(m.saga.current)
  {
    var effect := Accept(before, e, seenAs, m);
    var seen := effect.entries[0];
    assert seen in effect.entries && seen.eventId == e.id && seen.component == Orchestrator;
    if Travels(m.out.kind) {
      assert IsCommand(m.out.kind);
    }
    TokenMovesOn(w, effect, e);
  }

  lemma ChainExtends(journal: seq<JournalEntry>, f: seq<JournalEntry>, x: JournalEntry, y: JournalEntry)
    requires Chained(journal, f) && |f| % 2 == 0
    requires f != [] ==> CausedBy(journal, f[|f| - 1].payload, x.payload)
    ensures Chained(journal + [x, y], f + [x, y])
  {
    var f' := f + [x, y];
    forall i | 1 < i < |f'| && i % 2 == 0
      ensures CausedBy(journal + [x, y], f'[i - 1].payload, f'[i].payload)
    {
      assert CausedBy(journal, f'[i - 1].payload, f'[i].payload);
      CausedByGrows(journal, [x, y], f'[i - 1].payload, f'[i].payload);
    }
  }

  lemma AcceptKeepsOrder(w: World, e: Event, m: Move, before: Saga, seenAs: OrderStatus, maxRetries: int)
    requires Ids(w) && OrderOk(w, e.order, maxRetries)
    requires Consumes(w, e, m, before, maxRetries)
    requires Writes(w, Accept(before, e, seenAs, m), e) && Coherent(e.order, m.out.id, m)
    requires Live(w, e.order) <= {e}
    requires e.order in w.sagas ==>
      var f := OrderJournal(w.journal, e.order); f != [] && CausedBy(w.journal, f[|f| - 1].payload, e)
    ensures OrderOk(Absorb(w, Accept(before, e, seenAs, m)), e.order, maxRetries)
  {
    hide Decide, Ledger, Replay, Accepted, Consumed, Live, CausedBy, CanTransitionTo;
    LedgerGrows(w, e, m, before, seenAs, maxRetries);
    AcceptMovesToken(w, e, m, before, seenAs);
    LedgerIsEven(OrderJournal(w.journal, e.order), maxRetries);
    ChainExtends(w.journal, OrderJournal(w.journal, e.order),
                 OrchestratorEntry(before, e, e.kind, In, before.previous, seenAs), OutEntry(m));
    var w' := Absorb(w, Accept(before, e, seenAs, m));
    var f' := OrderJournal(w'.journal, e.order);
    assert TokenOk(w', e.order) by {
      if !IsTerminal(m.saga.current) {
        assert f'[|f'| - 1].payload == m.out;
        assert Fits(w'.journal, f', m.out);
      }
    }
  }

  lemma {:induction false} LedgerIsEven(f: seq<JournalEntry>, maxRetries: int)
    requires Ledger(f, maxRetries)
    ensures |f| % 2 == 0
    ensures |f| == 2 * |Consumed(f)|
    decreases |f|
  {
    if f != [] {
      LedgerIsEven(f[..|f| - 2], maxRetries);
    }
  }

  /** The state and decision behind a committing delivery to the orchestrator. */
  lemma WhatWasDecided(w: World, e: Event, id: EventId, maxRetries: int)
      returns (before: Saga, seenAs: OrderStatus, m: Move)
    requires OrderOk(w, e.order, maxRetries) && Enabled(w, Orchestrate(e, id)) && e.id in w.used
    requires OrchestratorEffect(w.sagas, w.journal, e, id, maxRetries).Ok?
    requires OrchestratorEffect(w.sagas, w.journal, e, id, maxRetries).value.Commit?
    ensures OrchestratorEffect(w.sagas, w.journal, e, id, maxRetries).value == Accept(before, e, seenAs, m)
    ensures Consumes(w, e, m, before, maxRetries)
    ensures !Has(w.journal, e.id, Orchestrator)
    ensures e.kind.OrderCreated? <==> e.order !in w.sagas
    ensures m.out.id == id
  {
    before := if e.kind.OrderCreated? then NewSaga(e.order) else w.sagas[e.order];
    seenAs := if e.kind.OrderCreated? then Pending else e.status;
    m := if e.kind.OrderCreated? then OnCreated(e.order, id).value
         else OnResult(w.sagas[e.order], e, id, maxRetries).value;
    OutNamesId(w, e, id, m, maxRetries);
  }

  lemma OrchestrateKeeps(w: World, e: Event, id: EventId, maxRetries: int)
    requires Inv(w, maxRetries) && Enabled(w, Orchestrate(e, id))
    ensures Inv(Next(w, Orchestrate(e, id), maxRetries), maxRetries)
  {
    var r := OrchestratorEffect(w.sagas, w.journal, e, id, maxRetries);
    assert OrderOk(w, e.order, maxRetries);
    if r.Ok? && r.value.Commit? {
      var before, seenAs, m := WhatWasDecided(w, e, id, maxRetries);
      assert Live(w, e.order) <= {e} by {
        if IsResult(e.kind) {
          LiveResult(w, e, maxRetries);
        }
      }
      if IsResult(e.kind) {
        LiveResult(w, e, maxRetries);
      }
      AcceptIsCoherent(w, e, m, before, maxRetries);
      AcceptWrites(w, e, m, before, seenAs, maxRetries);
      AcceptKeepsOrder(w, e, m, before, seenAs, maxRetries);
      OutIsExplained(w, e, m, before, seenAs);
      CommitKeeps(w, r.value, e, maxRetries);
    }
  }

  lemma OutIsExplained(w: World, e: Event, m: Move, before: Saga, seenAs: OrderStatus)
    requires Coherent(e.order, m.out.id, m)
    ensures Explained(Absorb(w, Accept(before, e, seenAs, m)), m.out)
  {
  }

  lemma OutNamesId(w: World, e: Event, id: EventId, m: Move, maxRetries: int)
    requires OrderOk(w, e.order, maxRetries)
    requires if e.kind.OrderCreated? then OnCreated(e.order, id) == Ok(m)
             else e.order in w.sagas && OnResult(w.sagas[e.order], e, id, maxRetries) == Ok(m)
    ensures m.out.id == id
  {
    if !e.kind.OrderCreated? {
      LastCommand(OrderJournal(w.journal, e.order), maxRetries);
      MoveIsCoherent(w.sagas[e.order], e, id, maxRetries);
    }
  }

  /** The invariant survives a commit as soon as the order written to survives it. */
  lemma CommitKeeps(w: World, effect: Effect, e: Event, maxRetries: int)
    requires Inv(w, maxRetries) && Writes(w, effect, e)
    requires OrderOk(Absorb(w, effect), e.order, maxRetries)
    requires Explained(Absorb(w, effect), effect.out)
    ensures Inv(Absorb(w, effect), maxRetries)
  {
    IdsKept(w, effect, e);
    OriginsKept(w, effect);
    forall order
      ensures OrderOk(Absorb(w, effect), order, maxRetries)
    {
      assert OrderOk(w, order, maxRetries);
      if order != e.order {
        OtherOrdersKept(w, effect, e, order, maxRetries);
      }
    }
  }

  // ---------------------------------------------------------------- a worker's step

  lemma BlockIsProper(component: Component, e: Event, answer: GatewayAnswer, id: EventId)
    requires IsCommand(e.kind) && ConsumerOf(e.kind) == Some(component) && e.id != id
    ensures var block, result := WorkerBlock(component, e, answer, id), ResultFor(e, answer, id);
      && KeysDistinct(block)
      && IsResult(result.kind) && result.order == e.order && result.id == id
      && forall x :: x in block ==> Proper(x) && x.component == component && (x.payload == e || x.payload == result)
  {
    var block, result := WorkerBlock(component, e, answer, id), ResultFor(e, answer, id);
    assert IsResult(result.kind) && result.order == e.order && result.id == id;
    hide ResultFor, CallFor, NoteOf;
    forall x | x in block
      ensures Proper(x) && x.component == component && (x.payload == e || x.payload == result)
    {
      var k :| 0 <= k < |block| && block[k] == x;
      assert k == 0 || k == 1 || k == 2 || k == 3;
    }
    assert KeysDistinct(block);
  }

  lemma WorkWrites(w: World, component: Component, e: Event, answer: GatewayAnswer, id: EventId)
    requires IsCommand(e.kind) && ConsumerOf(e.kind) == Some(component) && e in w.sent && id !in w.used
    requires !Has(w.journal, e.id, component)
    requires e.id in w.used
    ensures Writes(w, Commit(None, WorkerBlock(component, e, answer, id), ResultFor(e, answer, id)), e)
    ensures Has(WorkerBlock(component, e, answer, id), e.id, component)
    ensures !Has(WorkerBlock(component, e, answer, id), id, Orchestrator)
    ensures IsResult(ResultFor(e, answer, id).kind)
  {
    var block := WorkerBlock(component, e, answer, id);
    assert block[0] in block && block[0].eventId == e.id;
    hide WorkerBlock, ResultFor, Proper, Has, KeysDistinct;
    BlockIsProper(component, e, answer, id);
    FoundAt(block, 0);
    NotFound(block, component, id);
  }

  lemma FoundAt(journal: seq<JournalEntry>, k: nat)
    requires k < |journal|
    ensures Has(journal, journal[k].eventId, journal[k].component)
  {
  }

  lemma NotFound(journal: seq<JournalEntry>, component: Component, id: EventId)
    requires forall x :: x in journal ==> x.component == component
    ensures component != Orchestrator ==> !Has(journal, id, Orchestrator)
  {
  }

  lemma WorkCauses(journal: seq<JournalEntry>, component: Component, e: Event, answer: GatewayAnswer, id: EventId)
    requires IsCommand(e.kind) && ConsumerOf(e.kind) == Some(component)
    ensures CausedBy(journal + WorkerBlock(component, e, answer, id), e, ResultFor(e, answer, id))
  {
    var block := WorkerBlock(component, e, answer, id);
    var all := journal + block;
    assert all[|journal|..|journal| + 4] == block;
    assert BlockAt(all, |journal|, e, answer, ResultFor(e, answer, id));
  }

  lemma {:induction false} WorkersAreElsewhere(entries: seq<JournalEntry>, order: OrderId)
    requires forall x :: x in entries ==> x.component != Orchestrator
    ensures OrderJournal(entries, order) == []
    decreases |entries|
  {
    if entries != [] {
      assert entries[|entries| - 1] in entries;
      WorkersAreElsewhere(entries[..|entries| - 1], order);
    }
  }

  lemma WorkMovesToken(w: World, component: Component, e: Event, answer: GatewayAnswer, id: EventId)
    requires Ids(w) && Live(w, e.order) <= {e}
    requires IsCommand(e.kind) && ConsumerOf(e.kind) == Some(component) && e in w.sent && id !in w.used
    requires !Has(w.journal, e.id, component)
    ensures var result := ResultFor(e, answer, id);
      Live(Absorb(w, Commit(None, WorkerBlock(component, e, answer, id), result)), e.order) == {result}
  {
    WorkWrites(w, component, e, answer, id);
    TokenMovesOn(w, Commit(None, WorkerBlock(component, e, answer, id), ResultFor(e, answer, id)), e);
  }

  lemma WorkLeavesLedger(w: World, component: Component, e: Event, answer: GatewayAnswer, id: EventId)
    requires IsCommand(e.kind) && ConsumerOf(e.kind) == Some(component)
    ensures OrderJournal(w.journal + WorkerBlock(component, e, answer, id), e.order) == OrderJournal(w.journal, e.order)
  {
    var block := WorkerBlock(component, e, answer, id);
    OrderJournalGrows(w.journal, block, e.order);
    WorkersAreElsewhere(block, e.order);
  }

  lemma WorkKeepsOrder(w: World, component: Component, e: Event, answer: GatewayAnswer, id: EventId, maxRetries: int)
    requires Ids(w) && OrderOk(w, e.order, maxRetries)
    requires IsCommand(e.kind) && ConsumerOf(e.kind) == Some(component) && e in w.sent && id !in w.used
    requires !Has(w.journal, e.id, component)
    ensures OrderOk(Absorb(w, Commit(None, WorkerBlock(component, e, answer, id), ResultFor(e, answer, id))),
                    e.order, maxRetries)
  {
    hide WorkerBlock, ResultFor, BlockAt, Accepted, Replay, Consumed, Ledger;
    var result := ResultFor(e, answer, id);
    var w' := Absorb(w, Commit(None, WorkerBlock(component, e, answer, id), result));
    var f := OrderJournal(w.journal, e.order);
    LiveCommand(w, e, maxRetries);
    WorkWrites(w, component, e, answer, id);
    WorkMovesToken(w, component, e, answer, id);
    WorkLeavesLedger(w, component, e, answer, id);
    ChainedGrows(w.journal, WorkerBlock(component, e, answer, id), f);
    WorkCauses(w.journal, component, e, answer, id);
    assert TokenOk(w', e.order) by {
      assert Live(w', e.order) == {result} && IsResult(result.kind);
      assert Fits(w'.journal, f, result);
    }
  }

  lemma WorkKeeps(w: World, component: Component, e: Event, answer: GatewayAnswer, id: EventId, maxRetries: int)
    requires Inv(w, maxRetries) && Enabled(w, Work(component, e, answer, id))
    ensures Inv(Next(w, Work(component, e, answer, id), maxRetries), maxRetries)
  {
    var r := WorkerEffect(w.journal, component, e, answer, id);
    if r.Ok? && r.value.Commit? {
      assert OrderOk(w, e.order, maxRetries);
      WorkWrites(w, component, e, answer, id);
      WorkKeepsOrder(w, component, e, answer, id, maxRetries);
      WorkCauses(w.journal, component, e, answer, id);
      assert Explained(Absorb(w, r.value), r.value.out) by {
        assert e in Absorb(w, r.value).sent;
      }
      CommitKeeps(w, r.value, e, maxRetries);
    }
  }

  /** What a committing delivery writes: only new keys, only about its own order. */
  lemma DeliveryWrites(w: World, a: Action, maxRetries: int)
    requires Inv(w, maxRetries) && Enabled(w, a) && !a.Create?
    requires Outcome(w, a, maxRetries).Ok? && Outcome(w, a, maxRetries).value.Commit?
    ensures Writes(w, Outcome(w, a, maxRetries).value, a.e)
    ensures Outcome(w, a, maxRetries).value.out.id == a.id
    ensures Travels(Outcome(w, a, maxRetries).value.out.kind)
      || IsTerminalEvent(Outcome(w, a, maxRetries).value.out.kind)
  {
    hide OrderOk, OrchestratorEffect, WorkerEffect, Writes;
    OrderOkOf(w, a.e.order, maxRetries);
    match a
    case Orchestrate(e, id) => OrchestrateWrites(w, e, id, maxRetries);
    case Work(component, e, answer, id) => WorkDeliveryWrites(w, component, e, answer, id);
  }

  lemma OrderOkOf(w: World, order: OrderId, maxRetries: int)
    requires Inv(w, maxRetries)
    ensures OrderOk(w, order, maxRetries) && Ids(w) && Origins(w)
  {
  }

  lemma OrchestrateWrites(w: World, e: Event, id: EventId, maxRetries: int)
    requires OrderOk(w, e.order, maxRetries) && Enabled(w, Orchestrate(e, id)) && e.id in w.used
    requires OrchestratorEffect(w.sagas, w.journal, e, id, maxRetries).Ok?
    requires OrchestratorEffect(w.sagas, w.journal, e, id, maxRetries).value.Commit?
    ensures var effect := OrchestratorEffect(w.sagas, w.journal, e, id, maxRetries).value;
      Writes(w, effect, e) && effect.out.id == id && (Travels(effect.out.kind) || IsTerminalEvent(effect.out.kind))
  {
    hide OrderOk, Writes, Decide;
    var before, seenAs, m := WhatWasDecided(w, e, id, maxRetries);
    hide OrchestratorEffect;
    AcceptIsCoherent(w, e, m, before, maxRetries);
    AcceptWrites(w, e, m, before, seenAs, maxRetries);
  }

  lemma WorkDeliveryWrites(w: World, component: Component, e: Event, answer: GatewayAnswer, id: EventId)
    requires Ids(w) && Enabled(w, Work(component, e, answer, id))
    requires WorkerEffect(w.journal, component, e, answer, id).Ok?
    requires WorkerEffect(w.journal, component, e, answer, id).value.Commit?
    ensures var effect := WorkerEffect(w.journal, component, e, answer, id).value;
      Writes(w, effect, e) && effect.out.id == id && (Travels(effect.out.kind) || IsTerminalEvent(effect.out.kind))
  {
    hide Writes, WorkerBlock;
    WorkWrites(w, component, e, answer, id);
  }

  // ---------------------------------------------------------------- runs

  /** Every step, whatever it delivers and whatever the gateway answers, keeps the invariant. */
  lemma StepKeeps(w: World, a: Action, maxRetries: int)
    requires Inv(w, maxRetries) && Enabled(w, a)
    ensures Inv(Next(w, a, maxRetries), maxRetries)
  {
    match a
    case Create(order, id) => CreateKeeps(w, order, id, maxRetries);
    case Orchestrate(e, id) => OrchestrateKeeps(w, e, id, maxRetries);
    case Work(component, e, answer, id) => WorkKeeps(w, component, e, answer, id, maxRetries);
  }
}
