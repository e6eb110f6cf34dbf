/** The services' methods are steps of the system: whatever a run of one of them leaves
    behind in a reachable state is again a reachable state, and so is whatever any sequence
    of such runs leaves behind. Everything proved of reachable states holds of the code. */
module Deployment {
  import opened Domain
  import opened Topics
  import opened Tables
  import opened Handlers
  import opened Outbox
  import opened Projection
  import opened Store
  import opened System
  import opened SystemGuarantees
  import opened RelayService
  import opened ProjectorService
  import V = ViewGuarantees
  import P = Protocol
  import G = Guarantees

  // ---------------------------------------------------------------- single runs

  /** Any run of the orchestrator's handler, whichever calls failed. A definitive error can
      only be the rejection of a second ORDER_CREATED. */
  lemma OrchestratorRunIsAStep(s: State, e: Event, id: EventId, after: Tables, r: Result<(), Failure>, cfg: Config)
      returns (s': State)
    requires Reachable(s, cfg) && Enabled(s, ToOrchestrator(e, id))
    requires AllOrNothing(s.db, after, OrchestratorEffect(s.db.sagas, s.db.journal, e, id, cfg.maxRetries), r)
    ensures Reachable(s', cfg) && s' == s.(db := after, used := s'.used) && s.used <= s'.used <= s.used + {id}
    ensures r.Err? && r.error != Transient ==>
      r.error == NonRetryable(SagaAlreadyStarted) && e.kind.OrderCreated? && e.order in s.db.sagas && after == s.db
  {
    hide Reachable, OrchestratorEffect, ApplyEffect, G.Reachable, FullInv;
    ReachableStep(s, ToOrchestrator(e, id), cfg);
    ReachableOk(s, cfg);
    assert e in Abs(s).sent;
    G.OnlyDuplicateOrdersAreRejected(Abs(s), P.Orchestrate(e, id), cfg.maxRetries);
    NothingApplied(s.db);
    OnlyIdDrawn(s, ToOrchestrator(e, id), cfg);
    s' := if after == s.db then s else Next(s, ToOrchestrator(e, id), cfg);
  }

  lemma NothingApplied(t: Tables)
    ensures ApplyEffect(t, Nothing) == t
  {
  }

  /** A delivery draws no id but its own. */
  lemma OnlyIdDrawn(s: State, a: Action, cfg: Config)
    requires Reachable(s, cfg) && Enabled(s, a) && IsDelivery(a)
    ensures var s' := Next(s, a, cfg); s' == s.(db := s'.db, used := s'.used) && s.used <= s'.used <= s.used + {a.id}
  {
    hide Reachable, OrchestratorEffect, WorkerEffect, ApplyEffect, G.Reachable, P.Writes, P.Inv, ClaimsOk, ReadOk;
    ReachableOk(s, cfg);
    var r := P.Outcome(Abs(s), ProtocolAction(a), cfg.maxRetries);
    assert Next(s, a, cfg) == Handled(s, r);
    if r.Ok? && r.value.Commit? {
      DeliveryIsEnabled(s, a, cfg);
      P.DeliveryWrites(Abs(s), ProtocolAction(a), cfg.maxRetries);
    }
  }

  lemma DeliveryIsEnabled(s: State, a: Action, cfg: Config)
    requires Enabled(s, a) && IsDelivery(a)
    ensures P.Enabled(Abs(s), ProtocolAction(a))
  {
  }

  /** Any run of a worker's handler, whatever the gateway answers; no command is rejected. */
  lemma WorkerRunIsAStep(s: State, component: Component, e: Event, answer: GatewayAnswer, id: EventId, after: Tables,
                         r: Result<(), Failure>, cfg: Config) returns (s': State)
    requires Reachable(s, cfg) && Enabled(s, ToWorker(component, e, answer, id))
    requires AllOrNothing(s.db, after, WorkerEffect(s.db.journal, component, e, answer, id), r)
    ensures Reachable(s', cfg) && s' == s.(db := after, used := s'.used) && s.used <= s'.used <= s.used + {id}
    ensures r.Err? ==> r.error == Transient
  {
    hide Reachable, WorkerEffect, ApplyEffect, G.Reachable, FullInv;
    ReachableStep(s, ToWorker(component, e, answer, id), cfg);
    ReachableOk(s, cfg);
    assert e in Abs(s).sent;
    G.OnlyDuplicateOrdersAreRejected(Abs(s), P.Work(component, e, answer, id), cfg.maxRetries);
    NothingApplied(s.db);
    OnlyIdDrawn(s, ToWorker(component, e, answer, id), cfg);
    s' := if after == s.db then s else Next(s, ToWorker(component, e, answer, id), cfg);
  }

  /** The events of a log of messages. */
  function Values(log: seq<Message>): seq<Event> {
    seq(|log|, i requires 0 <= i < |log| => log[i].value)
  }

  lemma ValuesMember(log: seq<Message>, m: Message)
    requires m in log
    ensures m.value in Values(log)
  {
    var i :| 0 <= i < |log| && log[i] == m;
    assert Values(log)[i] == m.value;
  }

  lemma ValuesPublished(rows: seq<OutboxRow>, log: seq<Message>, log': seq<Message>)
    requires log <= log'
    ensures Values(log) <= Values(log') && Values(log')[|log|..] == Values(log'[|log|..])
    ensures OnlyPublished(rows, log'[|log|..]) ==>
      forall e :: e in Values(log')[|log|..] ==> exists row :: row in rows && row.payload == e
    ensures AllPublished(rows, log'[|log|..]) ==> forall row :: row in rows ==> row.payload in Values(log')[|log|..]
  {
    var added := log'[|log|..];
    assert Values(log')[|log|..] == Values(added);
    if OnlyPublished(rows, added) {
      forall e | e in Values(added)
        ensures exists row :: row in rows && row.payload == e
      {
        var i :| 0 <= i < |added| && added[i].value == e;
        assert added[i] in added;
      }
    }
    if AllPublished(rows, added) {
      forall row | row in rows
        ensures row.payload in Values(added)
      {
        ValuesMember(added, Message(row.topic, row.key, row.payload));
      }
    }
  }

  /** Any cycle of a relay, whichever call failed. The clock ends at the time of the mark, and
      every message added stands in the topic of its event's type under its event's order. */
  lemma RelayCycleIsARun(s: State, relay: RelayId, rows: seq<OutboxRow>, log: seq<Message>, log': seq<Message>,
                         t: Instant, locked: set<nat>, r: Result<nat, Failure>, cfg: Config) returns (s': State)
    requires Reachable(s, cfg) && relay !in s.relays && Values(log) == s.kafka
    requires t.claimAt == s.now && t.claimAt <= t.markAt
    requires CycleLeaves(s.db.outbox, log, rows, log', cfg.batchSize, t, cfg.claimTimeout, locked, r)
    ensures Reachable(s', cfg)
    ensures s' == s.(db := s.db.(outbox := rows), kafka := Values(log'), now := t.markAt, claims := s'.claims)
    ensures forall m :: m in log'[|log|..] ==> Routed(m)
  {
    hide Reachable, Pick, Stamp, Mark, IdsOf, Enabled, Values;
    StateRoutes(s, cfg);
    CycleRoutes(s.db.outbox, log, rows, log', cfg.batchSize, t, cfg.claimTimeout, locked, r);
    if rows == s.db.outbox && log' == log {
      s' := Stepped(s, Tick(t.markAt - t.claimAt), cfg);
    } else {
      var picked := Pick(s.db.outbox, cfg.batchSize, s.now, cfg.claimTimeout, locked);
      var ok := rows == Mark(Stamp(s.db.outbox, IdsOf(picked), t.claimAt), IdsOf(picked), t.markAt)
                && AllPublished(picked, log'[|log|..]);
      ValuesPublished(picked, log, log');
      LengthOfValues(log);
      s' := PublishedRun(s, relay, Values(log'), t, locked, ok, cfg);
    }
  }

  lemma LengthOfValues(log: seq<Message>)
    ensures |Values(log)| == |log|
  {
  }

  lemma StateRoutes(s: State, cfg: Config)
    requires Reachable(s, cfg)
    ensures RowsRouted(s.db.outbox)
  {
    hide Reachable, P.Inv, ClaimsOk, G.Reachable, RelaysOk, DeliveredOk;
    ReachableOk(s, cfg);
  }

  /** Claim, publish, let time pass, and mark if all was acknowledged. */
  lemma PublishedRun(s: State, relay: RelayId, kafka: seq<Event>, t: Instant, locked: set<nat>, ok: bool, cfg: Config)
      returns (s': State)
    requires Reachable(s, cfg) && relay !in s.relays && t.claimAt == s.now && t.claimAt <= t.markAt && s.kafka <= kafka
    requires var picked := Pick(s.db.outbox, cfg.batchSize, s.now, cfg.claimTimeout, locked);
      && (forall e :: e in kafka[|s.kafka|..] ==> exists row :: row in picked && row.payload == e)
      && (ok ==> forall row :: row in picked ==> row.payload in kafka[|s.kafka|..])
    ensures var picked := Pick(s.db.outbox, cfg.batchSize, s.now, cfg.claimTimeout, locked);
      var claimed := Stamp(s.db.outbox, IdsOf(picked), t.claimAt);
      Reachable(s', cfg)
      && s' == s.(db := s.db.(outbox := if ok then Mark(claimed, IdsOf(picked), t.markAt) else claimed),
                  kafka := kafka, now := t.markAt, claims := s'.claims)
  {
    hide Reachable, Pick, Stamp, Mark, IdsOf, Enabled;
    var picked := Pick(s.db.outbox, cfg.batchSize, s.now, cfg.claimTimeout, locked);
    var delivered := kafka[|s.kafka|..];
    ClaimEnabled(s, relay, locked);
    var s1 := Stepped(s, RelayClaim(relay, locked), cfg);
    PublishEnabled(s1, relay, picked, delivered, ok);
    var s2 := Stepped(s1, RelayPublish(relay, delivered, ok), cfg);
    assert s2.kafka == kafka;
    s' := Stepped(s2, Tick(t.markAt - t.claimAt), cfg);
    if ok {
      MarkEnabled(s', relay);
      s' := Stepped(s', RelayMark(relay), cfg);
    }
    assert s'.relays == s.relays;
  }

  lemma Stepped(s: State, a: Action, cfg: Config) returns (s': State)
    requires Reachable(s, cfg) && (Enabled(s, a) || a.Tick?)
    ensures Reachable(s', cfg) && s' == Next(s, a, cfg)
  {
    s' := Next(s, a, cfg);
    ReachableStep(s, a, cfg);
  }

  lemma ClaimEnabled(s: State, relay: RelayId, locked: set<nat>)
    requires relay !in s.relays
    ensures Enabled(s, RelayClaim(relay, locked))
  {
  }

  lemma PublishEnabled(s: State, relay: RelayId, picked: seq<OutboxRow>, delivered: seq<Event>, ok: bool)
    requires relay in s.relays && s.relays[relay].rows == picked && !s.relays[relay].acknowledged
    requires forall e :: e in delivered ==> exists row :: row in picked && row.payload == e
    requires ok ==> forall row :: row in picked ==> row.payload in delivered
    ensures Enabled(s, RelayPublish(relay, delivered, ok))
  {
  }

  lemma MarkEnabled(s: State, relay: RelayId)
    requires relay in s.relays && s.relays[relay].acknowledged
    ensures Enabled(s, RelayMark(relay))
  {
  }

  /** Any run of the projector's handler. */
  lemma ProjectorRunIsARun(s: State, e: Event, processed: set<EventId>, views: map<OrderId, OrderView>,
                           r: Result<(), Failure>, cfg: Config) returns (s': State)
    requires Reachable(s, cfg) && Enabled(s, ToProjector(e))
    requires ProjectorLeaves(s.processed, s.views, processed, views, e, r)
    ensures Reachable(s', cfg) && s' == s.(processed := processed, views := views)
  {
    hide Reachable, Upsert, FullInv, G.Reachable;
    s' := s;
    if processed != s.processed {
      AppliedIsMarked(s, e, cfg);
      ReachableStep(s, ToProjector(e), cfg);
      var s1 := Next(s, ToProjector(e), cfg);
      ReachableStep(s1, ApplyToView(e), cfg);
      ReachableStep(s1, ProjectorStop({e}), cfg);
      s' := if views == s.views then Next(s1, ProjectorStop({e}), cfg) else Next(s1, ApplyToView(e), cfg);
      assert s'.applying == s.applying;
    }
  }

  lemma AppliedIsMarked(s: State, e: Event, cfg: Config)
    requires Reachable(s, cfg) && e.id !in s.processed
    ensures e !in s.applying
  {
    hide Reachable, Inv, ClaimsOk, G.Reachable;
    ReachableOk(s, cfg);
  }

  // ---------------------------------------------------------------- sequences of runs

  /** What the stores hold between runs, the clock, and the event ids drawn so far. */
  datatype Stores = Stores(
    db: Tables,
    kafka: seq<Message>,
    processed: set<EventId>,
    views: map<OrderId, OrderView>,
    now: int,
    drawn: set<EventId>)

  const EMPTY := Stores(Tables(map[], [], [], 0), [], {}, map[], 0, {})

  /** One run of one service, with what it returned. */
  datatype ServiceRun =
    | Coordinator(order: OrderId, id: EventId)
    | Orchestration(m: Message, id: EventId, returned: Result<(), Failure>)
    | Work(component: Component, m: Message, answer: GatewayAnswer, id: EventId, returned: Result<(), Failure>)
    | RelayCycle(t: Instant, locked: set<nat>, count: Result<nat, Failure>)
    | Purging
    | Waiting(elapsed: nat)
    | Projection(m: Message, returned: Result<(), Failure>)

  /** What the run may leave behind: what the contract of its method promises, on stores where
      the run could take place. */
  ghost predicate Leaves(v: Stores, run: ServiceRun, v': Stores, cfg: Config) {
    match run
    case Coordinator(order, id) =>
      && id !in v.drawn
      && v' == v.(kafka := v.kafka + [Message("orders.created", order, CreatedEvent(order, id))],
                  drawn := v.drawn + {id})
    case Orchestration(m, id, r) =>
      && id !in v.drawn && m in v.kafka && m.topic in Subscriptions(Orchestrator)
      && v' == v.(db := v'.db, drawn := v.drawn + {id})
      && AllOrNothing(v.db, v'.db, OrchestratorEffect(v.db.sagas, v.db.journal, m.value, id, cfg.maxRetries), r)
    case Work(component, m, answer, id, r) =>
      && id !in v.drawn && m in v.kafka && P.IsWorker(component) && m.topic in Subscriptions(component)
      && v' == v.(db := v'.db, drawn := v.drawn + {id})
      && AllOrNothing(v.db, v'.db, WorkerEffect(v.db.journal, component, m.value, answer, id), r)
    case RelayCycle(t, locked, r) =>
      && t.claimAt == v.now && t.claimAt <= t.markAt
      && v' == v.(db := v.db.(outbox := v'.db.outbox), kafka := v'.kafka, now := t.markAt)
      && CycleLeaves(v.db.outbox, v.kafka, v'.db.outbox, v'.kafka, cfg.batchSize, t, cfg.claimTimeout, locked, r)
    case Purging => v' == v.(db := v.db.(outbox := Purge(v.db.outbox, v.now, cfg.purgeAfter)))
    case Waiting(elapsed) => v' == v.(now := v.now + elapsed)
    case Projection(m, r) =>
      && m in v.kafka && m.topic in Subscriptions(ViewProjector)
      && v' == v.(processed := v'.processed, views := v'.views)
      && ProjectorLeaves(v.processed, v.views, v'.processed, v'.views, m.value, r)
  }

  /** The state of the system these stores are the visible part of. Every message stands where its
      event's readers look for it. */
  ghost predicate Matches(s: State, v: Stores) {
    && s.db == v.db && s.kafka == Values(v.kafka) && s.processed == v.processed && s.views == v.views && s.now == v.now
    && s.used <= v.drawn && s.relays == map[] && s.applying == {}
    && (forall m :: m in v.kafka ==> Routed(m))
  }

  lemma RunIsMatched(s: State, v: Stores, run: ServiceRun, v': Stores, cfg: Config) returns (s': State)
    requires Reachable(s, cfg) && Matches(s, v) && Leaves(v, run, v', cfg)
    ensures Reachable(s', cfg) && Matches(s', v')
  {
    hide Reachable, AllOrNothing, CycleLeaves, ProjectorLeaves, OrchestratorEffect, WorkerEffect, Purge, Receives,
      Subscriptions, Values;
    match run
    case Coordinator(order, id) =>
      s' := Stepped(s, CreateOrder(order, id), cfg);
      CreatedIsRouted(v.kafka, order, id);
    case Orchestration(m, id, r) =>
      MessageArrives(v.kafka, m, Orchestrator);
      s' := OrchestratorRunIsAStep(s, m.value, id, v'.db, r, cfg);
    case Work(component, m, answer, id, r) =>
      MessageArrives(v.kafka, m, component);
      s' := WorkerRunIsAStep(s, component, m.value, answer, id, v'.db, r, cfg);
    case RelayCycle(t, locked, r) =>
      s' := RelayCycleIsARun(s, 0, v'.db.outbox, v.kafka, v'.kafka, t, locked, r, cfg);
      CycleOnlyAdds(v.db.outbox, v.kafka, v'.db.outbox, v'.kafka, t, locked, r, cfg);
    case Purging => s' := Stepped(s, PurgeOutbox, cfg);
    case Waiting(elapsed) => s' := Stepped(s, Tick(elapsed), cfg);
    case Projection(m, r) =>
      MessageArrives(v.kafka, m, ViewProjector);
      s' := ProjectorRunIsARun(s, m.value, v'.processed, v'.views, r, cfg);
  }

  lemma CreatedIsRouted(log: seq<Message>, order: OrderId, id: EventId)
    requires forall m :: m in log ==> Routed(m)
    ensures var created := Message("orders.created", order, CreatedEvent(order, id));
      && Routed(created) && Values(log + [created]) == Values(log) + [CreatedEvent(order, id)]
  {
  }

  lemma MessageArrives(log: seq<Message>, m: Message, component: Component)
    requires m in log && Routed(m) && m.topic in Subscriptions(component)
    ensures m.value in Values(log) && Receives(component, m.value.kind)
  {
    ValuesMember(log, m);
    RoutedReaches(m, component);
  }

  lemma CycleOnlyAdds(rows: seq<OutboxRow>, log: seq<Message>, rows': seq<OutboxRow>, log': seq<Message>, t: Instant,
                      locked: set<nat>, r: Result<nat, Failure>, cfg: Config)
    requires CycleLeaves(rows, log, rows', log', cfg.batchSize, t, cfg.claimTimeout, locked, r)
    ensures log <= log' && log' == log + log'[|log|..]
  {
  }

  /** The stores after each of a sequence of runs, from empty stores on. */
  ghost predicate Chronicle(runs: seq<ServiceRun>, stores: seq<Stores>, cfg: Config) {
    && |stores| == |runs| + 1 && stores[0] == EMPTY
    && forall i :: 0 <= i < |runs| ==> Leaves(stores[i], runs[i], stores[i + 1], cfg)
  }

  /** Whatever any sequence of runs of the services leaves in the stores, faults included, is
      the visible part of a reachable state of the system. */
  lemma {:induction false} EveryChronicleIsReachable(runs: seq<ServiceRun>, stores: seq<Stores>, cfg: Config)
      returns (s: State)
    requires Chronicle(runs, stores, cfg)
    ensures Reachable(s, cfg) && Matches(s, stores[|runs|])
    decreases |runs|
  {
    hide Reachable, Leaves;
    if runs == [] {
      s := START;
      assert Reachable(START, cfg) by { StartReachable(cfg); }
    } else {
      var n := |runs| - 1;
      var before := EveryChronicleIsReachable(runs[..n], stores[..n + 1], cfg);
      s := RunIsMatched(before, stores[n], runs[n], stores[n + 1], cfg);
    }
  }

  /** For instance: at every point of every sequence of runs, a view showing COMPLETED is true, every
      message on Kafka stands in the topic of its event's type under its event's order, and every
      definitive error is the refusal of a second ORDER_CREATED. */
  lemma EveryChronicleIsHonest(runs: seq<ServiceRun>, stores: seq<Stores>, i: nat, order: OrderId, m: Message,
                               cfg: Config)
    requires Chronicle(runs, stores, cfg) && i < |runs|
    ensures order in stores[i].views && stores[i].views[order].status.Completed? ==>
      order in stores[i].db.sagas && stores[i].db.sagas[order].current.Completed?
    ensures m in stores[i].kafka ==>
      TopicForEventType(m.value.kind) == Some(m.topic) && m.key == m.value.order
    ensures runs[i].Orchestration? && runs[i].returned.Err? && runs[i].returned.error != Transient ==>
      runs[i].m.value.kind.OrderCreated? && runs[i].m.value.order in stores[i].db.sagas
    ensures runs[i].Work? && runs[i].returned.Err? ==> runs[i].returned.error == Transient
  {
    hide Reachable, AllOrNothing, CycleLeaves, ProjectorLeaves, OrchestratorEffect, WorkerEffect, Receives,
      Subscriptions, Values;
    var s := EveryChronicleIsReachable(runs[..i], stores[..i + 1], cfg);
    assert Leaves(stores[i], runs[i], stores[i + 1], cfg);
    if order in s.views {
      V.ViewsTellTheTruth(s, order, cfg);
    }
    match runs[i]
    case Orchestration(m, id, r) =>
      MessageArrives(stores[i].kafka, m, Orchestrator);
      var _ := OrchestratorRunIsAStep(s, m.value, id, stores[i + 1].db, r, cfg);
    case Work(component, m, answer, id, r) =>
      MessageArrives(stores[i].kafka, m, component);
      var _ := WorkerRunIsAStep(s, component, m.value, answer, id, stores[i + 1].db, r, cfg);
    case _ =>
  }
}
