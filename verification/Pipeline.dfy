/** A consumer group in front of its handler. Each partition is a log of events; a worker of
    the group takes the event at its reader's position in hand, and what the handler returns
    for it decides what the loop does with the offset. */
module Pipeline {
  import opened Domain
  import opened Topics
  import opened Tables
  import opened System
  import opened SystemGuarantees
  import opened Redelivery
  import Loop = Consumption
  import Group = ConsumerGroup
  import P = Protocol
  import G = Guarantees

  type Logs = map<Loop.Place, seq<Event>>

  datatype Joint = Joint(s: State, g: Group.Group, logs: Logs)

  /** Anything the rest of the system does, the return of this group's handler for the message a
      worker has in hand, or anything else the group does. New events may be appended to the
      logs, and anything may happen between a fetch and the return. */
  datatype Move =
    | Elsewhere(a: Action, logs: Logs)
    | Handle(worker: Group.WorkerId, turn: Loop.Turn, a: Action, applied: bool)
    | InGroup(step: Group.Action)

  function LogAt(logs: Logs, p: Loop.Place): seq<Event> {
    if p in logs then logs[p] else []
  }

  ghost predicate OnKafka(logs: Logs, s: State) {
    forall p, e :: e in LogAt(logs, p) ==> e in s.kafka
  }

  /** Success means the effect was applied, a definitive error is the handler's own and applies
      nothing; after any other error the commit may or may not have been installed. */
  ghost predicate HandlerRan(s: State, a: Action, verdict: Result<(), Failure>, applied: bool, cfg: Config)
    requires IsDelivery(a)
  {
    var r := P.Outcome(Abs(s), ProtocolAction(a), cfg.maxRetries);
    && (verdict.Ok? ==> r.Ok? && applied)
    && (verdict.Err? && verdict.error.NonRetryable? ==> r == Err(verdict.error) && !applied)
  }

  ghost predicate Enabled(j: Joint, m: Move, cfg: Config) {
    match m
    case Elsewhere(a, logs) =>
      && System.Enabled(j.s, a)
      && (forall p :: LogAt(j.logs, p) <= LogAt(logs, p)) && OnKafka(logs, System.Next(j.s, a, cfg))
    case Handle(w, t, a, applied) =>
      && t.Returned? && Group.Enabled(j.g, Group.Turns(w, t))
      && j.g.locals[w].stopped.None? && j.g.locals[w].inHand.Some?
      && IsDelivery(a) && System.Enabled(j.s, a) && j.g.locals[w].inHand.value.value == Some(a.e)
      && HandlerRan(j.s, a, t.verdict, applied, cfg)
    case InGroup(step) =>
      && Group.Enabled(j.g, step)
      && (step.Turns? ==> !step.turn.Returned?)
      && (step.Turns? && step.turn.Fetched? ==>
            IsRecordOf(j.logs, step.turn.place, Loop.At(j.g.locals[step.worker].position, step.turn.place),
                       step.turn.value))
  }

  /** The log has this event at this offset. */
  predicate IsRecordOf(logs: Logs, p: Loop.Place, offset: nat, value: Option<Event>) {
    offset < |LogAt(logs, p)| && value == Some(LogAt(logs, p)[offset])
  }

  function Next(j: Joint, m: Move, cfg: Config, settings: Loop.Settings): Joint {
    match m
    case Elsewhere(a, logs) => j.(s := System.Next(j.s, a, cfg), logs := logs)
    case Handle(w, t, a, applied) =>
      j.(s := if applied then System.Next(j.s, a, cfg) else j.s, g := Group.Next(j.g, Group.Turns(w, t), settings))
    case InGroup(step) => j.(g := Group.Next(j.g, step, settings))
  }

  ghost const INITIAL := Joint(START, Group.INITIAL, map[])

  function Run(j: Joint, moves: seq<Move>, cfg: Config, settings: Loop.Settings): Joint {
    if moves == [] then j
    else Next(Run(j, moves[..|moves| - 1], cfg, settings), moves[|moves| - 1], cfg, settings)
  }

  ghost predicate Possible(moves: seq<Move>, cfg: Config, settings: Loop.Settings) {
    moves == [] ||
    (Possible(moves[..|moves| - 1], cfg, settings)
     && Enabled(Run(INITIAL, moves[..|moves| - 1], cfg, settings), moves[|moves| - 1], cfg))
  }

  // ---------------------------------------------------------------- settled events

  /** Nothing waits for this event any more: an announcement whose order has a saga, a command
      or result its component has journaled, or an ending. */
  ghost predicate Settled(s: State, e: Event) {
    if e.kind.OrderCreated? then e.order in s.db.sagas else e !in P.Live(Abs(s), e.order)
  }

  lemma SettledStays(s: State, a: Action, e: Event, cfg: Config)
    requires Reachable(s, cfg) && System.Enabled(s, a) && e in s.kafka && Settled(s, e)
    ensures Settled(System.Next(s, a, cfg), e)
  {
    hide Reachable, Inv, ClaimsOk, ReadOk, G.Reachable, System.Next, System.Enabled, Has;
    ReachableOk(s, cfg);
    StepRefines(s, a, cfg);
    assert e in Abs(s).sent;
    if e.kind.OrderCreated? {
      SagasStay(s, a, e.order, cfg);
    } else if IsCommand(e.kind) || IsResult(e.kind) {
      JournaledStays(s, a, e.id, ConsumerOf(e.kind).value, cfg);
    }
  }

  lemma SagasStay(s: State, a: Action, order: OrderId, cfg: Config)
    requires Inv(s, cfg) && System.Enabled(s, a) && order in s.db.sagas
    ensures order in System.Next(s, a, cfg).db.sagas
  {
    hide Inv, System.Next, System.Enabled, P.Outcome;
    StepRefines(s, a, cfg);
    assert order in Abs(s).sagas && Abs(System.Next(s, a, cfg)).sagas == System.Next(s, a, cfg).db.sagas;
  }

  /** An ORDER_CREATED the orchestrator journaled has started its order. */
  lemma JournaledCreationStarted(w: P.World, e: Event, maxRetries: int)
    requires P.Ids(w) && P.OrderOk(w, e.order, maxRetries) && e in w.sent && Has(w.journal, e.id, Orchestrator)
    ensures e.order in w.sagas
  {
    hide P.Ledger, P.Chained, P.TokenOk;
    var x :| x in w.journal && x.eventId == e.id && x.component == Orchestrator;
    assert x.payload == e;
    P.OrderJournalMembers(w.journal, e.order, x);
  }

  /** A handler that accepts an event settles it. */
  lemma AcceptedIsSettled(s: State, a: Action, cfg: Config)
    requires Reachable(s, cfg) && System.Enabled(s, a) && IsDelivery(a)
    requires P.Outcome(Abs(s), ProtocolAction(a), cfg.maxRetries).Ok?
    ensures Settled(System.Next(s, a, cfg), a.e)
  {
    hide Reachable, FullInv, Inv, G.Reachable, System.Next, Has, P.Outcome, P.Ids, P.OrderOk;
    var component := if a.ToWorker? then a.component else Orchestrator;
    var s' := System.Next(s, a, cfg);
    ReachableStep(s, a, cfg);
    ReachableOk(s, cfg);
    ReachableOk(s', cfg);
    InvOf(s, cfg);
    SubscriptionsMatchResponsibilities(component, a.e.kind);
    assert a.e in s.kafka;
    KafkaOnlyGrows(s, a, cfg);
    assert a.e in s'.kafka && a.e in Abs(s').sent;
    if Redundant(s, a) {
      JournaledStays(s, a, a.e.id, component, cfg);
    } else {
      DeliveryIsJournaled(s, a, cfg);
      if a.e.kind.OrderCreated? && a.e.order in s.db.sagas {
        SagasStay(s, a, a.e.order, cfg);
      }
    }
    if a.e.kind.OrderCreated? && Has(s'.db.journal, a.e.id, Orchestrator) {
      G.InvAt(Abs(s'), a.e.order, cfg.maxRetries);
      JournaledCreationStarted(Abs(s'), a.e, cfg.maxRetries);
    }
  }

  /** A handler that rejects an event definitively rejects one that is settled already. */
  lemma RejectedIsSettled(s: State, a: Action, cfg: Config)
    requires Reachable(s, cfg) && System.Enabled(s, a) && IsDelivery(a)
    requires P.Outcome(Abs(s), ProtocolAction(a), cfg.maxRetries).Err?
    ensures Settled(s, a.e)
  {
    hide Reachable, FullInv, G.Reachable, P.Outcome;
    ReachableOk(s, cfg);
    assert a.e in Abs(s).sent;
    G.OnlyDuplicateOrdersAreRejected(Abs(s), ProtocolAction(a), cfg.maxRetries);
  }

  // ---------------------------------------------------------------- schema

  /** What every event carries: the current schema version and, as its saga, its own order; an
      announcement nothing else but its status. */
  predicate Stamped(e: Event) {
    && e.schema == 1 && e.sagaId == e.order
    && (e.kind.OrderCreated? ==> e == Event(e.id, e.order, e.order, "", Pending, NoStatus, OrderCreated, 1, map[]))
  }

  lemma OutIsStamped(w: P.World, a: P.Action, maxRetries: int)
    requires G.Reachable(w, maxRetries) && P.Enabled(w, a) && forall e :: e in w.sent ==> Stamped(e)
    requires P.Outcome(w, a, maxRetries).Ok? && P.Outcome(w, a, maxRetries).value.Commit?
    ensures Stamped(P.Outcome(w, a, maxRetries).value.out)
  {
    hide G.Reachable, P.OrderOk;
    if a.Orchestrate? {
      G.InvAt(w, a.e.order, maxRetries);
      var before, seenAs, m := P.WhatWasDecided(w, a.e, a.id, maxRetries);
      P.AcceptIsCoherent(w, a.e, m, before, maxRetries);
    }
  }

  /** Every event ever sent carries the current schema version and names its order's saga. */
  lemma {:induction false} EventsAreStamped(actions: seq<P.Action>, maxRetries: int)
    requires G.Possible(actions, maxRetries)
    ensures forall e :: e in G.Run(P.START, actions, maxRetries).sent ==> Stamped(e)
  {
    hide P.Outcome, P.Enabled, Stamped;
    if actions != [] {
      var front, a := actions[..|actions| - 1], actions[|actions| - 1];
      EventsAreStamped(front, maxRetries);
      var w := G.Run(P.START, front, maxRetries);
      assert G.Reachable(w, maxRetries);
      var r := P.Outcome(w, a, maxRetries);
      if r.Ok? && r.value.Commit? {
        OutIsStamped(w, a, maxRetries);
      }
    }
  }

  lemma SchemaOf(s: State, e: Event, cfg: Config)
    requires Reachable(s, cfg) && e in s.kafka
    ensures e.schema == SCHEMA_VERSION
  {
    hide Reachable, FullInv, G.Possible, G.Run;
    ReachableOk(s, cfg);
    var actions :| G.Possible(actions, cfg.maxRetries) && G.Run(P.START, actions, cfg.maxRetries) == Abs(s);
    EventsAreStamped(actions, cfg.maxRetries);
    assert e in Abs(s).sent;
  }

  // ---------------------------------------------------------------- the joint invariant

  ghost predicate Finished(g: Group.Group, p: Loop.Place, offset: nat) {
    Loop.Finished(Group.Shared(g), p, offset)
  }

  /** What the group has finished is settled in the system. */
  ghost predicate Linked(j: Joint) {
    forall p, offset: nat :: Finished(j.g, p, offset) ==>
      offset < |LogAt(j.logs, p)| && Settled(j.s, LogAt(j.logs, p)[offset])
  }

  /** What the workers have in hand comes from the logs. */
  ghost predicate HandsOk(j: Joint) {
    forall w :: w in j.g.locals && j.g.locals[w].inHand.Some? ==>
      var m := j.g.locals[w].inHand.value; IsRecordOf(j.logs, m.place, m.offset, m.value)
  }

  ghost predicate JointOk(j: Joint, cfg: Config, settings: Loop.Settings) {
    Reachable(j.s, cfg) && Group.Inv(j.g, settings) && OnKafka(j.logs, j.s) && Linked(j) && HandsOk(j)
  }

  /** A turn finishes at most the message in hand, and that one only if it was accepted or
      definitively rejected. */
  lemma TurnFinishes(g: Group.Group, a: Group.Action, settings: Loop.Settings, p: Loop.Place, offset: nat)
    requires Group.Enabled(g, a) && Finished(Group.Next(g, a, settings), p, offset)
    ensures Finished(g, p, offset)
         || (a.Turns? && a.turn.Returned? && g.locals[a.worker].inHand.Some?
             && var m := g.locals[a.worker].inHand.value;
                var verdict := Loop.VerdictOf(m.value, a.turn.verdict);
                p == m.place && offset == m.offset && (verdict.Ok? || verdict.error.NonRetryable?))
  {
    hide Loop.CommitOffsets, DLQTopicFor;
    if a.Turns? && a.turn.Returned? && g.locals[a.worker].inHand.Some? {
      var m := g.locals[a.worker].inHand.value;
      var moved := g.dead + [Loop.DeadLetter(DLQTopicFor(m.place.topic), m)];
      assert forall d :: d in moved ==> d in g.dead || d.record == m;
    }
  }

  /** A worker's hands change by a fetch of its own only. */
  lemma HandsChange(g: Group.Group, a: Group.Action, settings: Loop.Settings, w: Group.WorkerId)
    requires Group.Enabled(g, a) && w in Group.Next(g, a, settings).locals
    requires Group.Next(g, a, settings).locals[w].inHand.Some?
    ensures w in g.locals
    ensures Group.Next(g, a, settings).locals[w].inHand == g.locals[w].inHand
         || (a.Turns? && a.worker == w && a.turn.Fetched?
             && Group.Next(g, a, settings).locals[w].inHand
                == Some(Loop.Record(a.turn.place, Loop.At(g.locals[w].position, a.turn.place), a.turn.value)))
  {
    hide Loop.CommitOffsets, DLQTopicFor;
  }

  lemma HandsKept(j: Joint, a: Group.Action, s': State, settings: Loop.Settings)
    requires HandsOk(j) && Group.Enabled(j.g, a)
    requires a.Turns? && a.turn.Fetched? ==>
      IsRecordOf(j.logs, a.turn.place, Loop.At(j.g.locals[a.worker].position, a.turn.place), a.turn.value)
    ensures HandsOk(Joint(s', Group.Next(j.g, a, settings), j.logs))
  {
    hide Group.Next, Group.Enabled;
    var g' := Group.Next(j.g, a, settings);
    forall w | w in g'.locals && g'.locals[w].inHand.Some?
      ensures var m := g'.locals[w].inHand.value; IsRecordOf(j.logs, m.place, m.offset, m.value)
    {
      HandsChange(j.g, a, settings, w);
    }
  }

  lemma ElsewhereKeeps(j: Joint, a: Action, logs: Logs, cfg: Config, settings: Loop.Settings)
    requires JointOk(j, cfg, settings) && Enabled(j, Elsewhere(a, logs), cfg)
    ensures JointOk(Next(j, Elsewhere(a, logs), cfg, settings), cfg, settings)
  {
    hide Reachable, Group.Inv, Settled, System.Next, System.Enabled, Finished;
    ReachableStep(j.s, a, cfg);
    var j' := Next(j, Elsewhere(a, logs), cfg, settings);
    forall p, offset: nat | Finished(j'.g, p, offset)
      ensures offset < |LogAt(j'.logs, p)| && Settled(j'.s, LogAt(j'.logs, p)[offset])
    {
      var e := LogAt(j.logs, p)[offset];
      assert e in LogAt(j.logs, p) && LogAt(logs, p)[offset] == e;
      SettledStays(j.s, a, e, cfg);
    }
  }

  lemma InGroupKeeps(j: Joint, a: Group.Action, cfg: Config, settings: Loop.Settings)
    requires JointOk(j, cfg, settings) && Enabled(j, InGroup(a), cfg)
    ensures JointOk(Next(j, InGroup(a), cfg, settings), cfg, settings)
  {
    hide Reachable, Group.Inv, Settled, Group.Next, Finished, HandsOk, IsRecordOf;
    Group.StepKeeps(j.g, a, settings);
    HandsKept(j, a, j.s, settings);
    forall p, offset: nat | Finished(Group.Next(j.g, a, settings), p, offset)
      ensures Finished(j.g, p, offset)
    {
      TurnFinishes(j.g, a, settings, p, offset);
    }
  }

  lemma HandleKeeps(j: Joint, m: Move, cfg: Config, settings: Loop.Settings)
    requires JointOk(j, cfg, settings) && m.Handle? && Enabled(j, m, cfg)
    ensures JointOk(Next(j, m, cfg, settings), cfg, settings)
  {
    hide Reachable, Group.Inv, Settled, Group.Next, System.Next, System.Enabled, Finished, P.Outcome, HandlerRan;
    var turn := Group.Turns(m.worker, m.turn);
    var j' := Next(j, m, cfg, settings);
    Group.StepKeeps(j.g, turn, settings);
    ReachableStep(j.s, m.a, cfg);
    KafkaOnlyGrows(j.s, m.a, cfg);
    HandsKept(j, turn, j'.s, settings);
    assert Reachable(j'.s, cfg) && Group.Inv(j'.g, settings);
    assert OnKafka(j'.logs, j'.s) by {
      assert forall e :: e in j.s.kafka ==> e in j'.s.kafka;
    }
    var held := j.g.locals[m.worker].inHand.value;
    assert IsRecordOf(j.logs, held.place, held.offset, held.value);
    assert LogAt(j.logs, held.place)[held.offset] == m.a.e;
    forall p, offset: nat | Finished(j'.g, p, offset)
      ensures offset < |LogAt(j'.logs, p)| && Settled(j'.s, LogAt(j'.logs, p)[offset])
    {
      TurnFinishes(j.g, turn, settings, p, offset);
      if Finished(j.g, p, offset) {
        var e := LogAt(j.logs, p)[offset];
        assert e in LogAt(j.logs, p);
        SettledStays(j.s, m.a, e, cfg);
      } else {
        ReturnedIsSettled(j, m, cfg);
      }
    }
  }

  lemma ReturnedIsSettled(j: Joint, m: Move, cfg: Config)
    requires Reachable(j.s, cfg) && OnKafka(j.logs, j.s) && HandsOk(j) && m.Handle? && Enabled(j, m, cfg)
    requires var verdict := Loop.VerdictOf(j.g.locals[m.worker].inHand.value.value, m.turn.verdict);
      verdict.Ok? || verdict.error.NonRetryable?
    ensures Settled(if m.applied then System.Next(j.s, m.a, cfg) else j.s, m.a.e)
  {
    hide Reachable, Settled, System.Next, P.Outcome;
    var held := j.g.locals[m.worker].inHand.value;
    assert m.a.e in LogAt(j.logs, held.place);
    SchemaOf(j.s, m.a.e, cfg);
    if m.turn.verdict.Ok? {
      AcceptedIsSettled(j.s, m.a, cfg);
    } else {
      RejectedIsSettled(j.s, m.a, cfg);
    }
  }

  lemma {:induction false} RunKeeps(moves: seq<Move>, cfg: Config, settings: Loop.Settings)
    requires Possible(moves, cfg, settings)
    ensures JointOk(Run(INITIAL, moves, cfg, settings), cfg, settings)
  {
    hide JointOk, Next, Enabled;
    if moves == [] {
      assert JointOk(INITIAL, cfg, settings) by { InitialOk(cfg, settings); }
    } else {
      var front, m := moves[..|moves| - 1], moves[|moves| - 1];
      RunKeeps(front, cfg, settings);
      var j := Run(INITIAL, front, cfg, settings);
      match m
      case Elsewhere(a, logs) => ElsewhereKeeps(j, a, logs, cfg, settings);
      case Handle(_, _, _, _) => HandleKeeps(j, m, cfg, settings);
      case InGroup(step) => InGroupKeeps(j, step, cfg, settings);
    }
  }

  lemma InitialOk(cfg: Config, settings: Loop.Settings)
    ensures JointOk(INITIAL, cfg, settings)
  {
    StartReachable(cfg);
  }

  /** In every run of the group in front of its handler, with any faults on either side, a
      committed offset never passes an event that something still waits for: a live command or
      result, or the announcement of an order without a saga, is always read again. */
  lemma CommitsNeverPassLiveEvents(moves: seq<Move>, p: Loop.Place, offset: nat, cfg: Config, settings: Loop.Settings)
    requires Possible(moves, cfg, settings)
    ensures var j := Run(INITIAL, moves, cfg, settings);
      offset < Loop.At(j.g.committed, p) ==>
        && offset < |LogAt(j.logs, p)|
        && var e := LogAt(j.logs, p)[offset];
           e !in P.Live(Abs(j.s), e.order) && (e.kind.OrderCreated? ==> e.order in j.s.db.sagas)
  {
    hide Group.Inv, Reachable, OnKafka, HandsOk, Finished, Run, Possible;
    RunKeeps(moves, cfg, settings);
    var j := Run(INITIAL, moves, cfg, settings);
    if offset < Loop.At(j.g.committed, p) {
      GroupFinished(j.g, p, offset, settings);
    }
  }

  lemma GroupFinished(g: Group.Group, p: Loop.Place, offset: nat, settings: Loop.Settings)
    requires Group.Inv(g, settings) && offset < Loop.At(g.committed, p)
    ensures Finished(g, p, offset)
  {
    assert Loop.SafeAt(Group.Shared(g), p);
  }
}
