/** What holds in every state the whole system can reach. */
module SystemGuarantees {
  import opened Domain
  import opened Topics
  import opened Tables
  import opened Handlers
  import opened Outbox
  import opened Projection
  import opened System
  import G = Guarantees
  import O = Outcomes
  import P = Protocol

  // ---------------------------------------------------------------- history invariants

  /** Two claims of one row are more than the claim timeout apart. */
  ghost predicate ClaimsApart(claims: seq<Claim>, timeout: int) {
    forall i, j :: 0 <= i < j < |claims| && claims[i].row == claims[j].row ==> claims[j].at > claims[i].at + timeout
  }

  ghost predicate ClaimsOk(s: State, cfg: Config) {
    && ClaimsApart(s.claims, cfg.claimTimeout)
    && (forall c :: c in s.claims ==> c.row < s.db.nextRow && c.at <= s.now)
    && (forall c, r :: c in s.claims && r in s.db.outbox && c.row == r.id ==>
          r.claimedAt.Some? && c.at <= r.claimedAt.value)
    && (forall relay, r :: relay in s.relays && r in s.relays[relay].rows ==>
          Claim(relay, r.id, s.relays[relay].at) in s.claims)
  }

  ghost predicate TimelineOk(s: State, order: OrderId, v: OrderView) {
    && v.timeline != [] && Project(v.timeline) == Some(v)
    && (forall e :: e in v.timeline ==> e.order == order && e in s.kafka && e.id in s.processed && e !in s.applying)
    && (forall i, j :: 0 <= i < j < |v.timeline| ==> v.timeline[i] != v.timeline[j])
  }

  ghost predicate ReadOk(s: State) {
    && (forall id :: id in s.processed ==> exists e :: e in s.kafka && e.id == id)
    && (forall e :: e in s.applying ==> e in s.kafka && e.id in s.processed)
    && (forall order :: order in s.views ==> TimelineOk(s, order, s.views[order]))
  }

  lemma AddedClaim(relay: RelayId, picked: seq<OutboxRow>, now: int, c: Claim) returns (r: OutboxRow)
    requires c in ClaimsOf(relay, picked, now)
    ensures r in picked && c == Claim(relay, r.id, now)
  {
    var i :| 0 <= i < |picked| && ClaimsOf(relay, picked, now)[i] == c;
    r := picked[i];
  }

  lemma AddedForRow(relay: RelayId, picked: seq<OutboxRow>, now: int, r: OutboxRow)
    requires r in picked
    ensures Claim(relay, r.id, now) in ClaimsOf(relay, picked, now)
  {
    var i :| 0 <= i < |picked| && picked[i] == r;
    assert ClaimsOf(relay, picked, now)[i] == Claim(relay, r.id, now);
  }

  lemma ClaimCovered(s: State, relay: RelayId, picked: seq<OutboxRow>, c: Claim, r: OutboxRow, cfg: Config)
    requires ClaimsOk(s, cfg)
    requires forall p :: p in picked ==> p in s.db.outbox
    requires c in s.claims + ClaimsOf(relay, picked, s.now) && r in Stamp(s.db.outbox, IdsOf(picked), s.now)
      && c.row == r.id
    ensures r.claimedAt.Some? && c.at <= r.claimedAt.value
  {
  }

  lemma ClaimStepKeeps(s: State, relay: RelayId, locked: set<nat>, cfg: Config)
    requires RowsOk(s) && ClaimsOk(s, cfg)
    ensures ClaimsOk(Next(s, RelayClaim(relay, locked), cfg), cfg)
  {
    hide Pick, Stamp, ClaimsApart;
    var s' := Next(s, RelayClaim(relay, locked), cfg);
    var picked := Pick(s.db.outbox, cfg.batchSize, s.now, cfg.claimTimeout, locked);
    PickIsFirst(s.db.outbox, cfg.batchSize, s.now, cfg.claimTimeout, locked);
    ClaimsStayApart(s, picked, ClaimsOf(relay, picked, s.now), cfg);
    forall c | c in s'.claims
      ensures c.row < s.db.nextRow && c.at <= s.now
    {
      if c !in s.claims {
        var p := AddedClaim(relay, picked, s.now, c);
      }
    }
    forall c, r | c in s'.claims && r in s'.db.outbox && c.row == r.id
      ensures r.claimedAt.Some? && c.at <= r.claimedAt.value
    {
      ClaimCovered(s, relay, picked, c, r, cfg);
    }
    forall other, r | other in s'.relays && r in s'.relays[other].rows
      ensures Claim(other, r.id, s'.relays[other].at) in s'.claims
    {
      if other == relay {
        AddedForRow(relay, picked, s.now, r);
      }
    }
  }

  lemma ClaimsStayApart(s: State, picked: seq<OutboxRow>, added: seq<Claim>, cfg: Config)
    requires ClaimsOk(s, cfg) && |added| == |picked| && Ordered(picked)
    requires forall i :: 0 <= i < |added| ==> added[i].row == picked[i].id && added[i].at == s.now
    requires forall r :: r in picked ==> r in s.db.outbox && ClaimExpired(r, s.now, cfg.claimTimeout)
    ensures ClaimsApart(s.claims + added, cfg.claimTimeout)
  {
  }

  lemma OtherStepKeepsClaims(s: State, a: Action, cfg: Config)
    requires Inv(s, cfg) && ClaimsOk(s, cfg) && Enabled(s, a) && !a.RelayClaim? && !IsDelivery(a)
    ensures ClaimsOk(Next(s, a, cfg), cfg)
  {
    hide P.Inv, P.Enabled, Purge, Mark, Pick, Stamp, DeliveredOk, RelaysOk, OrchestratorEffect, WorkerEffect, Upsert;
    if a.PurgeOutbox? {
      PurgeRemovesOnlyPublished(s.db.outbox, s.now, cfg.purgeAfter);
    } else if a.RelayMark? {
      MarkKeepsClaims(s, s.relays[a.relay].rows, cfg);
    }
  }

  lemma MarkKeepsClaims(s: State, rows: seq<OutboxRow>, cfg: Config)
    requires ClaimsOk(s, cfg)
    ensures forall c, r :: c in s.claims && r in Mark(s.db.outbox, IdsOf(rows), s.now) && c.row == r.id ==>
      r.claimedAt.Some? && c.at <= r.claimedAt.value
  {
  }

  /** A handler run adds at most one row, with an id never claimed. */
  lemma DeliveryKeepsClaims(s: State, a: Action, cfg: Config)
    requires Inv(s, cfg) && ClaimsOk(s, cfg) && Enabled(s, a) && IsDelivery(a)
    ensures ClaimsOk(Next(s, a, cfg), cfg)
  {
    hide P.Inv, OrchestratorEffect, WorkerEffect, RowsOk, DeliveredOk, RelaysOk;
    var r := P.Outcome(Abs(s), ProtocolAction(a), cfg.maxRetries);
    assert Next(s, a, cfg) == Handled(s, r);
    if r.Ok? && r.value.Commit? {
      EffectAddsOneRow(s, a, cfg);
    }
  }

  lemma EffectAddsOneRow(s: State, a: Action, cfg: Config)
    requires Inv(s, cfg) && Enabled(s, a) && IsDelivery(a)
    requires P.Outcome(Abs(s), ProtocolAction(a), cfg.maxRetries).Ok?
    requires P.Outcome(Abs(s), ProtocolAction(a), cfg.maxRetries).value.Commit?
    ensures var effect := P.Outcome(Abs(s), ProtocolAction(a), cfg.maxRetries).value;
      var db := ApplyEffect(s.db, effect);
      && db.nextRow == s.db.nextRow + 1
      && (forall r :: r in db.outbox ==> r in s.db.outbox || r.id == s.db.nextRow)
      && db.journal == s.db.journal + effect.entries
  {
    hide P.Inv, OrchestratorEffect, WorkerEffect;
    var effect := P.Outcome(Abs(s), ProtocolAction(a), cfg.maxRetries).value;
    P.DeliveryWrites(Abs(s), ProtocolAction(a), cfg.maxRetries);
    IdsOfInv(Abs(s), cfg.maxRetries);
    AppendPublishes(s, effect, ProtocolAction(a).e);
  }

  /** Kafka only grows. */
  lemma KafkaOnlyGrows(s: State, a: Action, cfg: Config)
    ensures s.kafka <= Next(s, a, cfg).kafka
  {
  }

  /** Outside the projector's own steps nothing on the read side changes. */
  lemma ReadSideRests(s: State, a: Action, cfg: Config)
    requires !a.ToProjector? && !a.ApplyToView? && !a.ProjectorStop?
    ensures Next(s, a, cfg).views == s.views && Next(s, a, cfg).processed == s.processed
    ensures Next(s, a, cfg).applying == s.applying
  {
  }

  lemma TimelineKept(s: State, s': State, order: OrderId, v: OrderView)
    requires TimelineOk(s, order, v)
    requires s.kafka <= s'.kafka && s.processed <= s'.processed
    requires forall e :: e in s'.applying ==> e in s.applying || e.id !in s.processed
    ensures TimelineOk(s', order, v)
  {
    hide Project;
  }

  /** A step that only adds events of Kafka to the marked ones, and of the newly marked to
      those being applied, keeps every timeline it leaves alone. */
  lemma ReadKept(s: State, s': State)
    requires ReadOk(s) && s.kafka <= s'.kafka && s.processed <= s'.processed
    requires forall id :: id in s'.processed ==> id in s.processed || exists e :: e in s'.kafka && e.id == id
    requires forall e :: e in s'.applying ==>
      e in s.applying || (e in s'.kafka && e.id in s'.processed && e.id !in s.processed)
    requires forall order :: order in s'.views ==>
      (order in s.views && s'.views[order] == s.views[order]) || TimelineOk(s', order, s'.views[order])
    ensures ReadOk(s')
  {
    hide TimelineOk;
    assert forall e :: e in s.kafka ==> e in s'.kafka;
    forall order | order in s'.views
      ensures TimelineOk(s', order, s'.views[order])
    {
      if order in s.views && s'.views[order] == s.views[order] {
        TimelineKept(s, s', order, s.views[order]);
      }
    }
  }

  lemma ReadStepKeeps(s: State, a: Action, cfg: Config)
    requires ReadOk(s) && Enabled(s, a)
    ensures ReadOk(Next(s, a, cfg))
  {
    hide ReadOk, TimelineOk, Upsert, OrchestratorEffect, WorkerEffect, Receives;
    KafkaOnlyGrows(s, a, cfg);
    match a
    case ToProjector(e) => ReadKept(s, Next(s, a, cfg));
    case ApplyToView(e) =>
      ApplyKeepsTimeline(s, e, cfg);
      ReadKept(s, Next(s, a, cfg));
    case ProjectorStop(_) => ReadKept(s, Next(s, a, cfg));
    case _ =>
      ReadSideRests(s, a, cfg);
      hide Next;
      ReadKept(s, Next(s, a, cfg));
  }

  lemma ApplyKeepsTimeline(s: State, e: Event, cfg: Config)
    requires ReadOk(s) && e in s.applying
    ensures TimelineOk(Next(s, ApplyToView(e), cfg), e.order, Next(s, ApplyToView(e), cfg).views[e.order])
  {
  }

  ghost predicate FullInv(s: State, cfg: Config) {
    Inv(s, cfg) && ClaimsOk(s, cfg) && ReadOk(s)
  }

  lemma StepKeeps(s: State, a: Action, cfg: Config)
    requires FullInv(s, cfg) && Enabled(s, a)
    ensures FullInv(Next(s, a, cfg), cfg)
  {
    hide Inv, ClaimsOk, ReadOk;
    StepRefines(s, a, cfg);
    ReadStepKeeps(s, a, cfg);
    if a.RelayClaim? {
      RowsOfInv(s, cfg);
      ClaimStepKeeps(s, a.relay, a.locked, cfg);
    } else if IsDelivery(a) {
      DeliveryKeepsClaims(s, a, cfg);
    } else {
      OtherStepKeepsClaims(s, a, cfg);
    }
  }

  // ---------------------------------------------------------------- runs

  function Run(s: State, actions: seq<Action>, cfg: Config): State {
    if actions == [] then s
    else Next(Run(s, actions[..|actions| - 1], cfg), actions[|actions| - 1], cfg)
  }

  ghost predicate Possible(actions: seq<Action>, cfg: Config) {
    actions == [] ||
    (Possible(actions[..|actions| - 1], cfg)
     && Enabled(Run(START, actions[..|actions| - 1], cfg), actions[|actions| - 1]))
  }

  ghost predicate Reachable(s: State, cfg: Config) {
    exists actions :: Possible(actions, cfg) && Run(START, actions, cfg) == s
  }

  /** Every run of the system keeps the invariant, and its protocol view is reached by a
      run of the protocol: all that module Guarantees and module Outcomes prove of the
      protocol holds of the system. */
  lemma {:induction false} RunRefines(actions: seq<Action>, cfg: Config)
    requires Possible(actions, cfg)
    ensures FullInv(Run(START, actions, cfg), cfg)
    ensures G.Reachable(Abs(Run(START, actions, cfg)), cfg.maxRetries)
  {
    hide FullInv, Next, Abs, P.Next, P.Enabled, Enabled;
    if actions == [] {
      StartIsFine(cfg);
    } else {
      var before := actions[..|actions| - 1];
      var s, a := Run(START, before, cfg), actions[|actions| - 1];
      RunRefines(before, cfg);
      StepKeeps(s, a, cfg);
      InvOf(s, cfg);
      StepRefines(s, a, cfg);
      if IsDelivery(a) || a.CreateOrder? {
        G.ReachableStep(Abs(s), ProtocolAction(a), cfg.maxRetries);
      }
    }
  }

  lemma RowsOfInv(s: State, cfg: Config)
    requires Inv(s, cfg)
    ensures RowsOk(s) && DeliveredOk(s) && RelaysOk(s) && P.Inv(Abs(s), cfg.maxRetries)
  {
  }

  lemma InvOf(s: State, cfg: Config)
    requires FullInv(s, cfg)
    ensures Inv(s, cfg)
  {
  }

  lemma StartIsFine(cfg: Config)
    ensures FullInv(START, cfg) && G.Reachable(Abs(START), cfg.maxRetries)
  {
    hide P.Inv;
    StartOk(cfg);
    var none: seq<P.Action> := [];
    assert G.Possible(none, cfg.maxRetries) && G.Run(P.START, none, cfg.maxRetries) == P.START;
  }

  lemma ReachableOk(s: State, cfg: Config)
    requires Reachable(s, cfg)
    ensures FullInv(s, cfg) && G.Reachable(Abs(s), cfg.maxRetries)
  {
    hide FullInv, G.Reachable;
    var actions :| Possible(actions, cfg) && Run(START, actions, cfg) == s;
    RunRefines(actions, cfg);
  }

  lemma StartReachable(cfg: Config)
    ensures Reachable(START, cfg)
  {
    var none: seq<Action> := [];
    assert Possible(none, cfg) && Run(START, none, cfg) == START;
  }

  lemma ReachableStep(s: State, a: Action, cfg: Config)
    requires Reachable(s, cfg) && Enabled(s, a)
    ensures Reachable(Next(s, a, cfg), cfg)
  {
    hide Next, Enabled;
    var actions :| Possible(actions, cfg) && Run(START, actions, cfg) == s;
    var longer := actions + [a];
    assert longer[..|longer| - 1] == actions;
    assert Possible(longer, cfg) && Run(START, longer, cfg) == Next(s, a, cfg);
  }

  // ---------------------------------------------------------------- the outbox loses nothing

  /** A row that was published, or purged, has reached Kafka; every event a handler ever
      journaled as sent is on Kafka or in an unpublished row that any relay may claim again
      as soon as its claim has expired. */
  lemma NothingIsLost(s: State, x: JournalEntry, cfg: Config)
    requires Reachable(s, cfg) && x in s.db.journal && x.direction.Out?
    ensures x.payload in s.kafka
         || exists r :: r in s.db.outbox && r.payload == x.payload && r.publishedAt.None?
              && forall later: int :: (r.claimedAt.Some? ==> later > r.claimedAt.value + cfg.claimTimeout)
                                      ==> Eligible(r, later, cfg.claimTimeout)
  {
    hide P.Inv, P.Origins;
    ReachableOk(s, cfg);
    IdsOfInv(Abs(s), cfg.maxRetries);
    assert x.payload in Sent(s);
    if x.payload !in s.kafka {
      var r :| r in s.db.outbox && r.payload == x.payload;
      assert r.publishedAt.None?;
    }
  }

  /** A purge deletes exactly the rows published longer ago than the retention period, and what it
      deletes has reached Kafka. */
  lemma PurgedRowsReachedKafka(s: State, r: OutboxRow, cfg: Config)
    requires Reachable(s, cfg) && r in s.db.outbox
    ensures r !in Next(s, PurgeOutbox, cfg).db.outbox <==>
      r.publishedAt.Some? && s.now > r.publishedAt.value + cfg.purgeAfter
    ensures r !in Next(s, PurgeOutbox, cfg).db.outbox ==> r.payload in s.kafka
  {
    hide Inv, G.Reachable, ClaimsOk, ReadOk, Reachable, RowsOk, Purge, Pick, Stamp, Mark, OrchestratorEffect,
      WorkerEffect;
    ReachableOk(s, cfg);
    RowsOfInv(s, cfg);
    PurgedRow(s, r, cfg.purgeAfter);
  }

  lemma PurgedRow(s: State, r: OutboxRow, olderThan: int)
    requires RowsOk(s) && r in s.db.outbox
    ensures r !in Purge(s.db.outbox, s.now, olderThan) <==>
      r.publishedAt.Some? && s.now > r.publishedAt.value + olderThan
    ensures r.publishedAt.Some? ==> r.payload in s.kafka
  {
    PurgeRemovesOnlyPublished(s.db.outbox, s.now, olderThan);
  }

  /** At any time each order has at most one outbox row that never reached Kafka, so no
      ordering of relays, batches or partial publishes can reorder a saga. */
  lemma OneUnsentRowPerOrder(s: State, r1: OutboxRow, r2: OutboxRow, cfg: Config)
    requires Reachable(s, cfg) && r1 in s.db.outbox && r2 in s.db.outbox && r1.key == r2.key
    requires r1.payload !in s.kafka && r2.payload !in s.kafka
    ensures r1 == r2
  {
    hide P.Inv, P.OrderOk, P.Ids, P.Origins, RelaysOk, G.Reachable;
    ReachableOk(s, cfg);
    G.InvAt(Abs(s), r1.key, cfg.maxRetries);
    assert r1.payload in Sent(s) && r2.payload in Sent(s);
    UnsentIsToken(s, r1.payload, cfg);
    UnsentIsToken(s, r2.payload, cfg);
    assert r1.payload == r2.payload;
    SameEventSameRow(s, r1, r2);
  }

  lemma SameEventSameRow(s: State, r1: OutboxRow, r2: OutboxRow)
    requires RowsOk(s) && r1 in s.db.outbox && r2 in s.db.outbox && r1.eventId == r2.eventId
    ensures r1 == r2
  {
  }

  /** An event that never reached Kafka is the order's token, or its ending. */
  lemma UnsentIsToken(s: State, e: Event, cfg: Config)
    requires P.Ids(Abs(s)) && P.Origins(Abs(s)) && P.OrderOk(Abs(s), e.order, cfg.maxRetries)
    requires DeliveredOk(s) && RowsOk(s)
    requires e in Payloads(s.db.outbox) && e !in s.kafka
    ensures e.order in s.db.sagas
    ensures if IsTerminal(s.db.sagas[e.order].current) then
        var f := P.OrderJournal(s.db.journal, e.order); f != [] && e == f[|f| - 1].payload
      else P.Live(Abs(s), e.order) == {e}
  {
    hide P.OrderOk, P.OrderJournal;
    var w := Abs(s);
    assert e in w.sent;
    assert P.Explained(w, e);
    assert IsTerminalEvent(e.kind) || P.Travels(e.kind);
    if IsTerminalEvent(e.kind) {
      O.EndingIsLast(w, e, cfg.maxRetries);
    } else {
      if !P.Undelivered(w.journal, e) {
        NotConsumedYet(s, e);
      }
      P.TheToken(w, e, cfg.maxRetries);
    }
  }

  lemma NotConsumedYet(s: State, e: Event)
    requires P.Ids(Abs(s)) && DeliveredOk(s) && e in Sent(s) && (IsCommand(e.kind) || IsResult(e.kind))
    requires Has(s.db.journal, e.id, ConsumerOf(e.kind).value)
    ensures e in s.kafka
  {
  }

  // ---------------------------------------------------------------- claims

  lemma HeldTwice(s: State, a: RelayId, b: RelayId, id: nat, cfg: Config)
    requires ClaimsOk(s, cfg) && a in s.relays && b in s.relays && a != b
    requires id in IdsOf(s.relays[a].rows) && id in IdsOf(s.relays[b].rows)
    ensures s.now - s.relays[a].at > cfg.claimTimeout || s.now - s.relays[b].at > cfg.claimTimeout
  {
  }

  /** A claim is in force until the claim timeout has passed since it was made. */
  ghost predicate InForce(s: State, relay: RelayId, cfg: Config) {
    relay in s.relays && s.now - s.relays[relay].at <= cfg.claimTimeout
  }

  /** At no time do two relays hold the same row under claims that are both in force, and
      over the whole history two claims of one row are more than the timeout apart. */
  lemma ClaimsAreExclusive(s: State, cfg: Config)
    requires Reachable(s, cfg)
    ensures ClaimsApart(s.claims, cfg.claimTimeout)
    ensures forall a, b :: InForce(s, a, cfg) && InForce(s, b, cfg) && a != b ==>
      IdsOf(s.relays[a].rows) * IdsOf(s.relays[b].rows) == {}
  {
    hide Inv, ReadOk, IdsOf, G.Reachable;
    ReachableOk(s, cfg);
    forall a, b | InForce(s, a, cfg) && InForce(s, b, cfg) && a != b
      ensures IdsOf(s.relays[a].rows) * IdsOf(s.relays[b].rows) == {}
    {
      var shared := IdsOf(s.relays[a].rows) * IdsOf(s.relays[b].rows);
      if shared != {} {
        var id :| id in shared;
        HeldTwice(s, a, b, id, cfg);
      }
    }
  }
}
