/** The converse of refinement. Relays that keep running publish every row, and so the whole
    system can do whatever the protocol can: the worlds of the protocol are exactly the views
    of the system's reachable states, and orders can be finished by real deliveries. */
module Realisation {
  import opened Domain
  import opened Topics
  import opened Tables
  import opened Handlers
  import opened Outbox
  import opened System
  import opened SystemGuarantees
  import Progress
  import W = Witnesses
  import P = Protocol
  import G = Guarantees
  import R = ReadModel

  ghost predicate Continues(s: State, actions: seq<Action>, cfg: Config) {
    actions == [] ||
    (Continues(s, actions[..|actions| - 1], cfg)
     && Enabled(Run(s, actions[..|actions| - 1], cfg), actions[|actions| - 1]))
  }

  /** Some run leads from s to s'. */
  ghost predicate Leads(s: State, s': State, cfg: Config) {
    exists actions :: Continues(s, actions, cfg) && Run(s, actions, cfg) == s'
  }

  lemma LeadsNowhere(s: State, cfg: Config)
    ensures Leads(s, s, cfg)
  {
    var none: seq<Action> := [];
    assert Continues(s, none, cfg) && Run(s, none, cfg) == s;
  }

  lemma LeadsOn(s0: State, s: State, a: Action, cfg: Config)
    requires Leads(s0, s, cfg) && Enabled(s, a) && Reachable(s, cfg)
    ensures Leads(s0, Next(s, a, cfg), cfg) && Reachable(Next(s, a, cfg), cfg)
  {
    hide Next, Enabled, Reachable;
    var actions :| Continues(s0, actions, cfg) && Run(s0, actions, cfg) == s;
    var longer := actions + [a];
    assert longer[..|longer| - 1] == actions;
    assert Continues(s0, longer, cfg) && Run(s0, longer, cfg) == Next(s, a, cfg);
    ReachableStep(s, a, cfg);
  }

  // ---------------------------------------------------------------- draining the outbox

  /** Everything ever handed over for sending has reached Kafka. */
  ghost predicate AllSent(s: State) {
    forall e :: e in Sent(s) ==> e in s.kafka
  }

  /** What relays change: only when and whether rows were published. */
  ghost predicate OnlyRelayed(s: State, s': State) {
    && Abs(s') == Abs(s) && s.kafka <= s'.kafka
    && s'.views == s.views && s'.processed == s.processed && s'.applying == s.applying
  }

  function Latest(rows: seq<OutboxRow>): int {
    if rows == [] then 0
    else
      var rest := Latest(rows[1..]);
      if rows[0].claimedAt.Some? && rows[0].claimedAt.value > rest then rows[0].claimedAt.value else rest
  }

  lemma {:induction false} LatestBounds(rows: seq<OutboxRow>)
    ensures forall r :: r in rows && r.claimedAt.Some? ==> r.claimedAt.value <= Latest(rows)
  {
    if rows != [] {
      LatestBounds(rows[1..]);
    }
  }

  /** Enough time passes for every claim to expire. */
  lemma ClaimsExpire(s0: State, s: State, cfg: Config) returns (s': State)
    requires Leads(s0, s, cfg) && Reachable(s, cfg)
    ensures Leads(s0, s', cfg) && Reachable(s', cfg) && OnlyRelayed(s, s')
    ensures AllEligible(s'.db.outbox, s'.now, cfg.claimTimeout)
    ensures s'.db.outbox == s.db.outbox
  {
    hide Leads, Reachable, Abs;
    var target := Latest(s.db.outbox) + cfg.claimTimeout + 1;
    var elapsed: nat := if target > s.now then target - s.now else 0;
    s' := Next(s, Tick(elapsed), cfg);
    LeadsOn(s0, s, Tick(elapsed), cfg);
    LatestBounds(s.db.outbox);
    assert Abs(s') == Abs(s) by { SameView(s, s'); }
  }

  lemma SameView(s: State, s': State)
    requires s'.db == s.db && s'.used == s.used && s'.kafka == s.kafka
    ensures Abs(s') == Abs(s)
  {
  }

  lemma {:induction false} FreshRelay(taken: set<RelayId>) returns (relay: RelayId)
    ensures forall x :: x in taken ==> x < relay
  {
    if taken == {} {
      relay := 0;
    } else {
      var x :| x in taken;
      var rest := FreshRelay(taken - {x});
      relay := if x < rest then rest else x + 1;
      assert forall y :: y in taken ==> y == x || y in taken - {x};
    }
  }

  ghost function PayloadsInOrder(rows: seq<OutboxRow>): seq<Event> {
    seq(|rows|, i requires 0 <= i < |rows| => rows[i].payload)
  }

  lemma PayloadsInOrderMembers(rows: seq<OutboxRow>)
    ensures forall e :: e in PayloadsInOrder(rows) ==> exists r :: r in rows && r.payload == e
    ensures forall r :: r in rows ==> r.payload in PayloadsInOrder(rows)
  {
    forall e | e in PayloadsInOrder(rows)
      ensures exists r :: r in rows && r.payload == e
    {
      var i :| 0 <= i < |rows| && rows[i].payload == e;
      assert rows[i] in rows;
    }
    forall r | r in rows
      ensures r.payload in PayloadsInOrder(rows)
    {
      var i :| 0 <= i < |rows| && rows[i] == r;
      assert PayloadsInOrder(rows)[i] == r.payload;
    }
  }

  lemma StepIsRelayed(s0: State, s: State, a: Action, cfg: Config)
    requires Leads(s0, s, cfg) && Reachable(s, cfg) && Enabled(s, a)
    requires a.RelayClaim? || a.RelayPublish? || a.RelayMark?
    ensures Leads(s0, Next(s, a, cfg), cfg) && Reachable(Next(s, a, cfg), cfg)
    ensures OnlyRelayed(s, Next(s, a, cfg))
  {
    hide Leads, Reachable, Inv, ClaimsOk, ReadOk, G.Reachable, Abs, Pick, Stamp, Mark;
    LeadsOn(s0, s, a, cfg);
    ReachableOk(s, cfg);
    StepRefines(s, a, cfg);
  }

  /** One relay claims, publishes and marks without failing. */
  lemma CleanCycle(s0: State, s: State, cfg: Config) returns (s': State)
    requires Leads(s0, s, cfg) && Reachable(s, cfg)
    ensures Leads(s0, s', cfg) && Reachable(s', cfg) && OnlyRelayed(s, s')
    ensures s'.now == s.now
    ensures s'.db.outbox == Cycle(s.db.outbox, cfg.batchSize, Instant(s.now, s.now), cfg.claimTimeout).0
  {
    hide Leads, Reachable, Abs, Pick, Stamp, Mark;
    var relay := FreshRelay(s.relays.Keys);
    var picked := Pick(s.db.outbox, cfg.batchSize, s.now, cfg.claimTimeout, {});
    StepIsRelayed(s0, s, RelayClaim(relay, {}), cfg);
    var s1 := Next(s, RelayClaim(relay, {}), cfg);
    var publish := RelayPublish(relay, PayloadsInOrder(picked), true);
    PayloadsInOrderMembers(picked);
    StepIsRelayed(s0, s1, publish, cfg);
    var s2 := Next(s1, publish, cfg);
    StepIsRelayed(s0, s2, RelayMark(relay), cfg);
    s' := Next(s2, RelayMark(relay), cfg);
  }

  /** Relays that keep running bring everything to Kafka, and nothing else changes. */
  lemma Drain(s0: State, s: State, cfg: Config) returns (s': State)
    requires Leads(s0, s, cfg) && Reachable(s, cfg) && cfg.batchSize >= 1
    ensures Leads(s0, s', cfg) && Reachable(s', cfg) && OnlyRelayed(s, s') && AllSent(s')
  {
    hide Leads, Reachable, Abs, Cycle, AllEligible, Unpublished;
    s' := ClaimsExpire(s0, s, cfg);
    while Unpublished(s'.db.outbox) != []
      invariant Leads(s0, s', cfg) && Reachable(s', cfg) && OnlyRelayed(s, s')
      invariant AllEligible(s'.db.outbox, s'.now, cfg.claimTimeout)
      decreases |Unpublished(s'.db.outbox)|
    {
      RowsAreOrdered(s', cfg);
      CycleDrains(s'.db.outbox, cfg.batchSize, Instant(s'.now, s'.now), cfg.claimTimeout);
      var next := CleanCycle(s0, s', cfg);
      StillEligible(s'.db.outbox, next.db.outbox, s'.now, cfg.claimTimeout);
      s' := next;
    }
    NothingUnpublished(s', cfg);
  }

  lemma StillEligible(rows: seq<OutboxRow>, rows': seq<OutboxRow>, now: int, timeout: int)
    requires AllEligible(rows, now, timeout)
    requires forall r :: r in rows' && r.publishedAt.None? ==> r in rows
    ensures AllEligible(rows', now, timeout)
  {
  }

  lemma RowsAreOrdered(s: State, cfg: Config)
    requires Reachable(s, cfg)
    ensures Ordered(s.db.outbox)
  {
    hide Reachable, P.Inv, ClaimsOk, ReadOk, G.Reachable;
    ReachableOk(s, cfg);
  }

  lemma NothingUnpublished(s: State, cfg: Config)
    requires Reachable(s, cfg) && Unpublished(s.db.outbox) == []
    ensures AllSent(s)
  {
    hide Reachable, P.Inv, ClaimsOk, ReadOk, G.Reachable;
    ReachableOk(s, cfg);
    UnpublishedMembers(s.db.outbox);
  }

  // ---------------------------------------------------------------- realising the protocol

  /** What realising protocol steps leaves alone. */
  ghost predicate SameReadSide(s: State, s': State) {
    s'.views == s.views && s'.processed == s.processed && s'.applying == s.applying
  }

  ghost function SystemAction(pa: P.Action): Action {
    match pa
    case Create(order, id) => CreateOrder(order, id)
    case Orchestrate(e, id) => ToOrchestrator(e, id)
    case Work(component, e, answer, id) => ToWorker(component, e, answer, id)
  }

  lemma RealiseStep(s0: State, s: State, pa: P.Action, cfg: Config) returns (s': State)
    requires Leads(s0, s, cfg) && Reachable(s, cfg) && cfg.batchSize >= 1 && AllSent(s)
    requires P.Enabled(Abs(s), pa)
    ensures Leads(s0, s', cfg) && Reachable(s', cfg) && AllSent(s') && SameReadSide(s, s')
    ensures Abs(s') == P.Next(Abs(s), pa, cfg.maxRetries)
  {
    hide Leads, Reachable, Inv, ClaimsOk, ReadOk, G.Reachable, P.Next, OrchestratorEffect, WorkerEffect, Receives;
    var a := SystemAction(pa);
    assert Enabled(s, a);
    LeadsOn(s0, s, a, cfg);
    ReachableOk(s, cfg);
    StepRefines(s, a, cfg);
    s' := Drain(s0, Next(s, a, cfg), cfg);
  }

  /** Any continuation the protocol has, the system has. */
  lemma {:induction false} RealiseRun(s0: State, s: State, actions: seq<P.Action>, cfg: Config) returns (s': State)
    requires Leads(s0, s, cfg) && Reachable(s, cfg) && cfg.batchSize >= 1 && AllSent(s)
    requires Progress.Continues(Abs(s), actions, cfg.maxRetries)
    ensures Leads(s0, s', cfg) && Reachable(s', cfg) && AllSent(s') && SameReadSide(s, s')
    ensures Abs(s') == G.Run(Abs(s), actions, cfg.maxRetries)
    decreases |actions|
  {
    hide Leads, Reachable, Abs, P.Next, P.Enabled, AllSent;
    if actions == [] {
      s' := s;
    } else {
      var front := actions[..|actions| - 1];
      var s1 := RealiseRun(s0, s, front, cfg);
      s' := RealiseStep(s0, s1, actions[|actions| - 1], cfg);
    }
  }

  lemma StartIsSent(cfg: Config)
    ensures Reachable(START, cfg) && AllSent(START) && Abs(START) == P.START
  {
    StartReachable(cfg);
    StartOk(cfg);
  }

  /** Every world the protocol can reach is the view of a reachable state whose messages have
      all been published, and in which nothing has been projected yet. */
  lemma EveryWorldHappens(w: P.World, cfg: Config) returns (s: State)
    requires G.Reachable(w, cfg.maxRetries) && cfg.batchSize >= 1
    ensures Reachable(s, cfg) && Abs(s) == w && AllSent(s) && SameReadSide(START, s)
  {
    hide Reachable, Abs, P.Next, P.Enabled, AllSent;
    StartIsSent(cfg);
    var actions :| G.Possible(actions, cfg.maxRetries) && G.Run(P.START, actions, cfg.maxRetries) == w;
    PossibleContinues(actions, cfg.maxRetries);
    LeadsNowhere(START, cfg);
    s := RealiseRun(START, START, actions, cfg);
  }

  lemma {:induction false} PossibleContinues(actions: seq<P.Action>, maxRetries: int)
    requires G.Possible(actions, maxRetries)
    ensures Progress.Continues(P.START, actions, maxRetries)
  {
    if actions != [] {
      PossibleContinues(actions[..|actions| - 1], maxRetries);
    }
  }

  /** Refinement and realisation together: the protocol's worlds are exactly the views of the
      system's reachable states. */
  lemma WorldsAreExactlyViews(w: P.World, cfg: Config)
    requires cfg.batchSize >= 1
    ensures G.Reachable(w, cfg.maxRetries) <==> exists s :: Reachable(s, cfg) && Abs(s) == w
  {
    hide Reachable, Abs, G.Reachable, FullInv;
    if G.Reachable(w, cfg.maxRetries) {
      var s := EveryWorldHappens(w, cfg);
    }
    if s :| Reachable(s, cfg) && Abs(s) == w {
      ReachableOk(s, cfg);
    }
  }

  /** From any reachable state, whatever relays hold and wherever messages are, every order
      with a saga can be brought to its end by claims, publishes and deliveries. */
  lemma EveryOrderCanFinish(s: State, order: OrderId, answer: GatewayAnswer, cfg: Config) returns (s': State)
    requires Reachable(s, cfg) && cfg.batchSize >= 1 && order in s.db.sagas
    ensures Leads(s, s', cfg) && Reachable(s', cfg) && order in s'.db.sagas && IsTerminal(s'.db.sagas[order].current)
  {
    hide Leads, Reachable, FullInv, G.Reachable, AllSent;
    LeadsNowhere(s, cfg);
    var drained := Drain(s, s, cfg);
    ReachableOk(drained, cfg);
    var actions := Progress.CanFinish(Abs(drained), order, answer, cfg.maxRetries);
    s' := RealiseRun(s, drained, actions, cfg);
  }

  // ---------------------------------------------------------------- what does go wrong

  /** A view that shows FAILED for ever over an order that completed: the failed notification
      is projected before any other event of the order. */
  lemma ViewCanFreeze(order: OrderId, cfg: Config) returns (s: State)
    requires cfg.batchSize >= 1
    ensures Reachable(s, cfg) && order in s.db.sagas && s.db.sagas[order].current.Completed?
    ensures order in s.views && s.views[order].status.Failed? && R.NotificationFailed(Abs(s), order)
  {
    hide Reachable, G.Reachable, AllSent;
    var w, failure := W.NotificationCanFail(order, cfg.maxRetries);
    var s0 := EveryWorldHappens(w, cfg);
    assert failure in s0.kafka by { SentReached(s0, failure); }
    SubscriptionsMatchResponsibilities(Orchestrator, failure.kind);
    ReachableStep(s0, ToProjector(failure), cfg);
    var s1 := Next(s0, ToProjector(failure), cfg);
    ReachableStep(s1, ApplyToView(failure), cfg);
    s := Next(s1, ApplyToView(failure), cfg);
    assert Abs(s) == Abs(s0);
  }

  lemma SentReached(s: State, e: Event)
    requires AllSent(s) && e in Abs(s).sent
    ensures e in s.kafka
  {
  }

  /** A command on its way that its worker has not seen, and its result in a row of the outbox
      that never reached Kafka. */
  lemma MessagesTravel(order: OrderId, answer: GatewayAnswer, cfg: Config)
      returns (s: State, s': State, command: Event, result: Event)
    requires cfg.batchSize >= 1
    ensures Reachable(s, cfg) && Reachable(s', cfg)
    ensures P.Live(Abs(s), order) == {command} && IsCommand(command.kind) && command in s.kafka
    ensures P.Live(Abs(s'), order) == {result} && IsResult(result.kind)
    ensures result in Payloads(s'.db.outbox) && result !in s'.kafka
  {
    hide Reachable, G.Reachable, FullInv, P.Ids, P.Origins, P.OrderOk, WorkerEffect, OrchestratorEffect;
    var w := W.Started(order, cfg.maxRetries);
    s := EveryWorldHappens(w, cfg);
    var pa := Progress.NoDeadlock(w, order, answer, cfg.maxRetries);
    G.SingleToken(w, order, cfg.maxRetries);
    command := pa.e;
    SubscriptionsMatchResponsibilities(ConsumerOf(command.kind).value, command.kind);
    ReachableOk(s, cfg);
    InvOf(s, cfg);
    var a := SystemAction(pa);
    ReachableStep(s, a, cfg);
    StepRefines(s, a, cfg);
    s', result := Next(s, a, cfg), ResultFor(command, answer, pa.id);
    hide Next;
    ResultWaits(w, order, pa, cfg.maxRetries);
    assert result in Sent(s') && result !in s.kafka by { NewIsNotSent(s, result, cfg); }
    assert s'.kafka == s.kafka by { DeliveryKeepsKafka(s, a, cfg); }
  }

  lemma ResultWaits(w: P.World, order: OrderId, a: P.Action, maxRetries: int)
    requires G.Reachable(w, maxRetries) && W.AtCommand(w, order) && P.Enabled(w, a) && a.Work?
    requires Progress.DeliversLive(w, a, order)
    ensures IsCommand(a.e.kind) && P.Live(P.Next(w, a, maxRetries), order) == {ResultFor(a.e, a.answer, a.id)}
    ensures IsResult(ResultFor(a.e, a.answer, a.id).kind) && ResultFor(a.e, a.answer, a.id).id !in w.used
  {
    hide G.Reachable, P.OrderOk, P.Ids, P.Origins, WorkerBlock, Has;
    G.InvAt(w, order, maxRetries);
    SubscriptionsMatchResponsibilities(a.component, a.e.kind);
    P.LiveCommand(w, a.e, maxRetries);
    P.WorkMovesToken(w, a.component, a.e, a.answer, a.id);
  }

  lemma NewIsNotSent(s: State, e: Event, cfg: Config)
    requires P.Ids(Abs(s)) && e.id !in s.used
    ensures e !in s.kafka
  {
    forall x | x in s.kafka
      ensures x.id in s.used
    {
      assert x in Abs(s).sent;
    }
  }

  lemma DeliveryKeepsKafka(s: State, a: Action, cfg: Config)
    requires IsDelivery(a)
    ensures Next(s, a, cfg).kafka == s.kafka
  {
  }
}
