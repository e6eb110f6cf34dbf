/** The whole system: the write database, its outbox, the relays, Kafka, and the projector
    with its read database. Deliveries, crashes, claim expiry and partial publishes happen in
    any order; the protocol of module Protocol is what remains when transport is forgotten. */
module System {
  import opened Domain
  import opened Topics
  import opened Tables
  import opened Handlers
  import opened Outbox
  import opened Projection
  import P = Protocol

  datatype Config = Config(maxRetries: int, batchSize: nat, claimTimeout: nat, purgeAfter: nat)

  type RelayId = nat

  /** The rows a relay claimed, when, and whether Kafka acknowledged them all. */
  datatype Batch = Batch(rows: seq<OutboxRow>, at: int, acknowledged: bool)

  /** History of claims, kept only to state what claims exclude. */
  datatype Claim = Claim(relay: RelayId, row: nat, at: int)

  datatype State = State(
    db: Tables,
    used: set<EventId>,
    kafka: seq<Event>,
    now: int,
    relays: map<RelayId, Batch>,
    claims: seq<Claim>,
    processed: set<EventId>,
    applying: set<Event>,
    views: map<OrderId, OrderView>)

  datatype Action =
    | CreateOrder(order: OrderId, id: EventId)
    | ToOrchestrator(e: Event, id: EventId)
    | ToWorker(component: Component, e: Event, answer: GatewayAnswer, id: EventId)
    | RelayClaim(relay: RelayId, locked: set<nat>)
    | RelayPublish(relay: RelayId, delivered: seq<Event>, ok: bool)
    | RelayMark(relay: RelayId)
    | RelayCrash(relay: RelayId)
    | PurgeOutbox
    | Tick(elapsed: nat)
    | ToProjector(e: Event)
    | ApplyToView(e: Event)
    | ProjectorStop(lost: set<Event>)   // runs that end between mark and apply

  ghost predicate Enabled(s: State, a: Action) {
    match a
    case CreateOrder(_, id) => id !in s.used
    case ToOrchestrator(e, id) => id !in s.used && e in s.kafka && Receives(Orchestrator, e.kind)
    case ToWorker(component, e, _, id) =>
      id !in s.used && e in s.kafka && P.IsWorker(component) && Receives(component, e.kind)
    case RelayClaim(relay, _) => relay !in s.relays
    case RelayPublish(relay, delivered, ok) =>
      && relay in s.relays && !s.relays[relay].acknowledged
      && (forall e :: e in delivered ==> exists r :: r in s.relays[relay].rows && r.payload == e)
      && (ok ==> forall r :: r in s.relays[relay].rows ==> r.payload in delivered)
    case RelayMark(relay) => relay in s.relays && s.relays[relay].acknowledged
    case RelayCrash(relay) => relay in s.relays
    case PurgeOutbox => true
    case Tick(_) => true
    case ToProjector(e) => e in s.kafka && Receives(ViewProjector, e.kind)
    case ApplyToView(e) => e in s.applying
    case ProjectorStop(_) => true
  }

  function Handled(s: State, r: Result<Effect, Failure>): State {
    if r.Err? || r.value.Nothing? then s
    else s.(db := ApplyEffect(s.db, r.value), used := s.used + {r.value.out.id})
  }

  function ClaimsOf(relay: RelayId, rows: seq<OutboxRow>, now: int): seq<Claim> {
    seq(|rows|, i requires 0 <= i < |rows| => Claim(relay, rows[i].id, now))
  }

  function Next(s: State, a: Action, cfg: Config): State {
    match a
    case CreateOrder(order, id) => s.(kafka := s.kafka + [CreatedEvent(order, id)], used := s.used + {id})
    case ToOrchestrator(e, id) => Handled(s, OrchestratorEffect(s.db.sagas, s.db.journal, e, id, cfg.maxRetries))
    case ToWorker(component, e, answer, id) => Handled(s, WorkerEffect(s.db.journal, component, e, answer, id))
    case RelayClaim(relay, locked) =>
      var picked := Pick(s.db.outbox, cfg.batchSize, s.now, cfg.claimTimeout, locked);
      s.(db := s.db.(outbox := Stamp(s.db.outbox, IdsOf(picked), s.now)),
         relays := s.relays[relay := Batch(picked, s.now, false)],
         claims := s.claims + ClaimsOf(relay, picked, s.now))
    case RelayPublish(relay, delivered, ok) =>
      if relay !in s.relays then s
      else s.(kafka := s.kafka + delivered,
              relays := if ok then s.relays[relay := s.relays[relay].(acknowledged := true)] else s.relays - {relay})
    case RelayMark(relay) =>
      if relay !in s.relays then s
      else s.(db := s.db.(outbox := Mark(s.db.outbox, IdsOf(s.relays[relay].rows), s.now)),
              relays := s.relays - {relay})
    case RelayCrash(relay) => s.(relays := s.relays - {relay})
    case PurgeOutbox => s.(db := s.db.(outbox := Purge(s.db.outbox, s.now, cfg.purgeAfter)))
    case Tick(elapsed) => s.(now := s.now + elapsed)
    case ToProjector(e) =>
      if e.id in s.processed then s
      else s.(processed := s.processed + {e.id}, applying := s.applying + {e})
    case ApplyToView(e) =>
      s.(views := s.views[e.order := Upsert(ViewAt(s.views, e.order), e)], applying := s.applying - {e})
    case ProjectorStop(lost) => s.(applying := s.applying - lost)
  }

  ghost const START := State(Tables(map[], [], [], 0), {}, [], 0, map[], [], {}, {}, map[])

  // ---------------------------------------------------------------- the protocol view

  ghost function Payloads(rows: seq<OutboxRow>): set<Event> {
    set r | r in rows :: r.payload
  }

  /** Everything handed over for sending: on Kafka already, or still in the outbox. */
  ghost function Sent(s: State): set<Event> {
    (set e | e in s.kafka) + Payloads(s.db.outbox)
  }

  ghost function Abs(s: State): P.World {
    P.World(s.db.sagas, s.db.journal, Sent(s), s.used)
  }

  // ---------------------------------------------------------------- invariants

  ghost predicate RowsOk(s: State) {
    var rows := s.db.outbox;
    && Ordered(rows)
    && (forall r :: r in rows ==>
          && r.id < s.db.nextRow && r.eventId == r.payload.id && r.key == r.payload.order
          && TopicForEventType(r.payload.kind) == Some(r.topic)
          && (P.Travels(r.payload.kind) || IsTerminalEvent(r.payload.kind))
          && (r.publishedAt.Some? ==> r.payload in s.kafka))
    && (forall i, j :: 0 <= i < j < |rows| ==> rows[i].eventId != rows[j].eventId)
  }

  /** Nothing is consumed before it is on Kafka. */
  ghost predicate DeliveredOk(s: State) {
    forall x :: x in s.db.journal && !x.direction.Out? ==> x.payload in s.kafka
  }

  ghost predicate BatchOk(s: State, b: Batch) {
    forall r :: r in b.rows ==>
      && r.id < s.db.nextRow && r.payload in Sent(s)
      && (b.acknowledged ==> r.payload in s.kafka)
      && (forall row :: row in s.db.outbox && row.id == r.id ==> row.payload == r.payload)
  }

  ghost predicate RelaysOk(s: State) {
    forall relay :: relay in s.relays ==> BatchOk(s, s.relays[relay])
  }

  ghost predicate Inv(s: State, cfg: Config) {
    P.Inv(Abs(s), cfg.maxRetries) && RowsOk(s) && DeliveredOk(s) && RelaysOk(s)
  }

  // ---------------------------------------------------------------- handlers

  lemma NewIdHasNoRow(s: State, id: EventId)
    requires RowsOk(s) && P.Ids(Abs(s)) && id !in s.used
    ensures !HasRow(s.db.outbox, id)
  {
  }

  /** The row a new event is appended in. */
  function NewRow(db: Tables, e: Event): OutboxRow {
    var topic := TopicForEventType(e.kind);
    OutboxRow(db.nextRow, e.id, if topic.Some? then topic.value else "", e.order, e, None, None)
  }

  lemma AppendPublishes(s: State, effect: Effect, e: Event)
    requires RowsOk(s) && P.Ids(Abs(s)) && P.Writes(Abs(s), effect, e)
    requires P.Travels(effect.out.kind) || IsTerminalEvent(effect.out.kind)
    ensures ApplyEffect(s.db, effect).journal == s.db.journal + effect.entries
    ensures ApplyEffect(s.db, effect).outbox == s.db.outbox + [NewRow(s.db, effect.out)]
    ensures TopicForEventType(effect.out.kind).Some?
    ensures ApplyEffect(s.db, effect).nextRow == s.db.nextRow + 1
    ensures !HasRow(s.db.outbox, effect.out.id)
  {
    hide P.Writes, P.Ids, RowsOk, KeysDistinct, HasRow;
    WritesKeys(Abs(s), effect, e);
    WritesNew(Abs(s), effect, e);
    FreshEntriesAppend(s.db.journal, effect.entries);
    NewIdHasNoRow(s, effect.out.id);
  }

  lemma WritesNew(w: P.World, effect: Effect, e: Event)
    requires P.Writes(w, effect, e)
    ensures effect.Commit? && effect.out.id !in w.used && effect.out.order == e.order && e in w.sent
  {
  }

  lemma WritesKeys(w: P.World, effect: Effect, e: Event)
    requires P.Ids(w) && P.Writes(w, effect, e)
    ensures effect.Commit? && KeysDistinct(effect.entries)
    ensures forall x, y :: x in w.journal && y in effect.entries ==> !SameKey(x, y)
  {
  }

  /** A committing handler run is, in the protocol view, the absorption of its effect. */
  lemma HandledRefines(s: State, effect: Effect, e: Event)
    requires RowsOk(s) && P.Ids(Abs(s)) && P.Writes(Abs(s), effect, e)
    requires P.Travels(effect.out.kind) || IsTerminalEvent(effect.out.kind)
    ensures Abs(Handled(s, Ok(effect))) == P.Absorb(Abs(s), effect)
  {
    hide P.Writes, P.Ids, RowsOk;
    AppendPublishes(s, effect, e);
    var s' := Handled(s, Ok(effect));
    assert s'.db.outbox[|s.db.outbox|].payload == effect.out;
    assert Payloads(s'.db.outbox) == Payloads(s.db.outbox) + {effect.out} by {
      PayloadsAppend(s.db.outbox, s'.db.outbox[|s.db.outbox|]);
    }
    assert Sent(s') == Sent(s) + {effect.out};
  }

  lemma PayloadsAppend(rows: seq<OutboxRow>, row: OutboxRow)
    ensures Payloads(rows + [row]) == Payloads(rows) + {row.payload}
  {
  }

  lemma HandledKeepsRows(s: State, effect: Effect, e: Event)
    requires RowsOk(s) && P.Ids(Abs(s)) && P.Writes(Abs(s), effect, e)
    requires P.Travels(effect.out.kind) || IsTerminalEvent(effect.out.kind)
    ensures RowsOk(Handled(s, Ok(effect)))
  {
    hide P.Writes, P.Ids;
    AppendPublishes(s, effect, e);
    var rows, rows' := s.db.outbox, Handled(s, Ok(effect)).db.outbox;
    forall i, j | 0 <= i < j < |rows'|
      ensures rows'[i].id < rows'[j].id && rows'[i].eventId != rows'[j].eventId
    {
      assert rows'[i] == rows[i] && rows[i] in rows;
      if j == |rows| {
        assert !HasRow(rows, effect.out.id);
      }
    }
  }

  lemma HandledKeepsTransport(s: State, effect: Effect, e: Event)
    requires RowsOk(s) && P.Ids(Abs(s)) && P.Writes(Abs(s), effect, e)
    requires P.Travels(effect.out.kind) || IsTerminalEvent(effect.out.kind)
    requires e in s.kafka && (forall x :: x in effect.entries && !x.direction.Out? ==> x.payload == e)
    requires DeliveredOk(s) && RelaysOk(s)
    ensures DeliveredOk(Handled(s, Ok(effect))) && RelaysOk(Handled(s, Ok(effect)))
  {
    hide P.Writes, P.Ids, RowsOk;
    AppendPublishes(s, effect, e);
    HandledRefines(s, effect, e);
    var s' := Handled(s, Ok(effect));
    forall relay | relay in s'.relays
      ensures BatchOk(s', s'.relays[relay])
    {
      assert BatchOk(s, s.relays[relay]);
    }
  }

  /** The IN entry of a handler run is the delivered event. */
  lemma EntersDelivered(s: State, pa: P.Action, cfg: Config)
    requires !pa.Create?
    requires P.Outcome(Abs(s), pa, cfg.maxRetries).Ok? && P.Outcome(Abs(s), pa, cfg.maxRetries).value.Commit?
    ensures forall x :: x in P.Outcome(Abs(s), pa, cfg.maxRetries).value.entries && !x.direction.Out? ==>
      x.payload == pa.e
  {
  }

  ghost predicate IsDelivery(a: Action) {
    a.ToOrchestrator? || a.ToWorker?
  }

  ghost function ProtocolAction(a: Action): P.Action
    requires IsDelivery(a) || a.CreateOrder?
  {
    match a
    case CreateOrder(order, id) => P.Create(order, id)
    case ToOrchestrator(e, id) => P.Orchestrate(e, id)
    case ToWorker(component, e, answer, id) => P.Work(component, e, answer, id)
  }

  lemma DeliveryKeeps(s: State, a: Action, cfg: Config)
    requires Inv(s, cfg) && Enabled(s, a) && IsDelivery(a)
    ensures Inv(Next(s, a, cfg), cfg)
    ensures P.Enabled(Abs(s), ProtocolAction(a))
    ensures Abs(Next(s, a, cfg)) == P.Next(Abs(s), ProtocolAction(a), cfg.maxRetries)
  {
    hide P.Inv, RowsOk, DeliveredOk, RelaysOk, OrchestratorEffect, WorkerEffect;
    var pa := ProtocolAction(a);
    var r := P.Outcome(Abs(s), pa, cfg.maxRetries);
    assert Next(s, a, cfg) == Handled(s, r);
    if r.Ok? && r.value.Commit? {
      P.DeliveryWrites(Abs(s), pa, cfg.maxRetries);
      IdsOfInv(Abs(s), cfg.maxRetries);
      HandledRefines(s, r.value, pa.e);
      HandledKeepsRows(s, r.value, pa.e);
      EntersDelivered(s, pa, cfg);
      HandledKeepsTransport(s, r.value, pa.e);
      P.StepKeeps(Abs(s), pa, cfg.maxRetries);
    }
  }

  lemma IdsOfInv(w: P.World, maxRetries: int)
    requires P.Inv(w, maxRetries)
    ensures P.Ids(w) && P.Origins(w)
  {
  }

  lemma CreateKeeps(s: State, order: OrderId, id: EventId, cfg: Config)
    requires Inv(s, cfg) && Enabled(s, CreateOrder(order, id))
    ensures Inv(Next(s, CreateOrder(order, id), cfg), cfg)
    ensures Abs(Next(s, CreateOrder(order, id), cfg)) == P.Next(Abs(s), P.Create(order, id), cfg.maxRetries)
  {
    hide P.Inv;
    var s' := Next(s, CreateOrder(order, id), cfg);
    assert Abs(s') == P.Next(Abs(s), P.Create(order, id), cfg.maxRetries) by {
      assert s'.db.journal == s.db.journal + [];
      assert Sent(s') == Sent(s) + {CreatedEvent(order, id)};
    }
    P.StepKeeps(Abs(s), P.Create(order, id), cfg.maxRetries);
    KafkaGrows(s, s');
  }

  // ---------------------------------------------------------------- transport

  /** Transport invariants survive a longer Kafka log. */
  lemma KafkaGrows(s: State, s': State)
    requires RowsOk(s) && DeliveredOk(s) && RelaysOk(s)
    requires s'.db == s.db && s'.relays == s.relays
    requires forall e :: e in s.kafka ==> e in s'.kafka
    ensures RowsOk(s') && DeliveredOk(s') && RelaysOk(s')
  {
  }

  /** Row by row, only the claim and publication times differ. */
  ghost predicate Retimed(rows: seq<OutboxRow>, rows': seq<OutboxRow>) {
    && |rows'| == |rows|
    && forall i :: 0 <= i < |rows| ==>
         rows'[i] == rows[i].(claimedAt := rows'[i].claimedAt, publishedAt := rows'[i].publishedAt)
  }

  lemma RetimedPayloads(rows: seq<OutboxRow>, rows': seq<OutboxRow>)
    requires Retimed(rows, rows')
    ensures Payloads(rows') == Payloads(rows)
  {
  }

  /** Every relay step and purge only retimes rows, drops published ones, or extends Kafka
      with events of the outbox: the protocol never notices. */
  lemma RetimingKeeps(s: State, s': State, cfg: Config)
    requires Inv(s, cfg)
    requires Retimed(s.db.outbox, s'.db.outbox)
    requires s'.db == s.db.(outbox := s'.db.outbox) && s'.used == s.used && s'.kafka == s.kafka
    requires forall i :: 0 <= i < |s'.db.outbox| && s'.db.outbox[i].publishedAt.Some? ==>
      s'.db.outbox[i].payload in s.kafka
    requires forall relay :: relay in s'.relays ==> BatchOk(s, s'.relays[relay])
    ensures Inv(s', cfg) && Abs(s') == Abs(s)
  {
    hide P.Inv;
    RetimedPayloads(s.db.outbox, s'.db.outbox);
    assert Sent(s') == Sent(s);
    var rows, rows' := s.db.outbox, s'.db.outbox;
    assert RowsOk(s') by {
      forall r | r in rows'
        ensures r.id < s.db.nextRow && r.eventId == r.payload.id && r.key == r.payload.order
        ensures TopicForEventType(r.payload.kind) == Some(r.topic)
        ensures P.Travels(r.payload.kind) || IsTerminalEvent(r.payload.kind)
        ensures r.publishedAt.Some? ==> r.payload in s.kafka
      {
        var i :| 0 <= i < |rows'| && rows'[i] == r;
        assert rows[i] in rows;
      }
    }
    forall relay | relay in s'.relays
      ensures BatchOk(s', s'.relays[relay])
    {
      forall r, row | r in s'.relays[relay].rows && row in rows' && row.id == r.id
        ensures row.payload == r.payload
      {
        var i :| 0 <= i < |rows'| && rows'[i] == row;
        assert rows[i] in rows;
      }
    }
  }

  lemma ClaimKeeps(s: State, relay: RelayId, locked: set<nat>, cfg: Config)
    requires Inv(s, cfg)
    ensures Inv(Next(s, RelayClaim(relay, locked), cfg), cfg)
    ensures Abs(Next(s, RelayClaim(relay, locked), cfg)) == Abs(s)
  {
    hide P.Inv, Pick, Sent;
    var s' := Next(s, RelayClaim(relay, locked), cfg);
    var picked := Pick(s.db.outbox, cfg.batchSize, s.now, cfg.claimTimeout, locked);
    PickIsFirst(s.db.outbox, cfg.batchSize, s.now, cfg.claimTimeout, locked);
    PickedBatchOk(s, picked);
    RetimingKeeps(s, s', cfg);
  }

  lemma PickedBatchOk(s: State, picked: seq<OutboxRow>)
    requires RowsOk(s) && forall r :: r in picked ==> r in s.db.outbox
    ensures BatchOk(s, Batch(picked, s.now, false))
  {
  }

  lemma MarkKeeps(s: State, relay: RelayId, cfg: Config)
    requires Inv(s, cfg) && Enabled(s, RelayMark(relay))
    ensures Inv(Next(s, RelayMark(relay), cfg), cfg)
    ensures Abs(Next(s, RelayMark(relay), cfg)) == Abs(s)
  {
    hide P.Inv;
    var s' := Next(s, RelayMark(relay), cfg);
    var b := s.relays[relay];
    assert BatchOk(s, b);
    forall i | 0 <= i < |s'.db.outbox| && s'.db.outbox[i].publishedAt.Some?
      ensures s'.db.outbox[i].payload in s.kafka
    {
      assert s.db.outbox[i] in s.db.outbox;
      if s.db.outbox[i].id in IdsOf(b.rows) {
        var r :| r in b.rows && r.id == s.db.outbox[i].id;
      }
    }
    RetimingKeeps(s, s', cfg);
  }

  lemma PublishKeeps(s: State, relay: RelayId, delivered: seq<Event>, ok: bool, cfg: Config)
    requires Inv(s, cfg) && Enabled(s, RelayPublish(relay, delivered, ok))
    ensures Inv(Next(s, RelayPublish(relay, delivered, ok), cfg), cfg)
    ensures Abs(Next(s, RelayPublish(relay, delivered, ok), cfg)) == Abs(s)
  {
    hide P.Inv;
    var s' := Next(s, RelayPublish(relay, delivered, ok), cfg);
    assert BatchOk(s, s.relays[relay]);
    assert Sent(s') == Sent(s);
    var mid := s.(kafka := s'.kafka);
    KafkaGrows(s, mid);
    forall other | other in s'.relays
      ensures BatchOk(s', s'.relays[other])
    {
      assert BatchOk(mid, mid.relays[other]);
    }
  }

  lemma PurgeKeeps(s: State, cfg: Config)
    requires Inv(s, cfg)
    ensures Inv(Next(s, PurgeOutbox, cfg), cfg)
    ensures Abs(Next(s, PurgeOutbox, cfg)) == Abs(s)
  {
    hide P.Inv, Purge, Sent, RowsOk;
    var s' := Next(s, PurgeOutbox, cfg);
    PurgeKeepsRows(s, cfg);
    PurgeKeepsSent(s, s');
    FewerRows(s, s');
  }

  lemma PurgeKeepsRows(s: State, cfg: Config)
    requires RowsOk(s)
    ensures var s' := Next(s, PurgeOutbox, cfg);
      && RowsOk(s')
      && (forall r :: r in s'.db.outbox ==> r in s.db.outbox)
      && (forall r :: r in s.db.outbox ==> r in s'.db.outbox || r.payload in s.kafka)
  {
    hide Pick, Stamp, Mark, OrchestratorEffect, WorkerEffect, Upsert;
    PurgeRemovesOnlyPublished(s.db.outbox, s.now, cfg.purgeAfter);
    PurgeKeepsDistinct(s.db.outbox, s.now, cfg.purgeAfter);
    hide Purge;
  }

  lemma PurgeKeepsSent(s: State, s': State)
    requires s'.kafka == s.kafka
    requires forall r :: r in s'.db.outbox ==> r in s.db.outbox
    requires forall r :: r in s.db.outbox ==> r in s'.db.outbox || r.payload in s.kafka
    ensures Sent(s') == Sent(s)
  {
  }

  lemma FewerRows(s: State, s': State)
    requires RelaysOk(s) && Sent(s') == Sent(s)
    requires s'.kafka == s.kafka && s'.relays == s.relays && s'.db == s.db.(outbox := s'.db.outbox)
    requires forall r :: r in s'.db.outbox ==> r in s.db.outbox
    ensures RelaysOk(s')
  {
  }

  lemma PurgeKeepsDistinct(rows: seq<OutboxRow>, now: int, olderThan: int)
    requires Ordered(rows) && forall i, j :: 0 <= i < j < |rows| ==> rows[i].eventId != rows[j].eventId
    ensures var kept := Purge(rows, now, olderThan);
      forall i, j :: 0 <= i < j < |kept| ==> kept[i].eventId != kept[j].eventId
  {
    var kept := Purge(rows, now, olderThan);
    PurgeRemovesOnlyPublished(rows, now, olderThan);
    forall i, j | 0 <= i < j < |kept|
      ensures kept[i].eventId != kept[j].eventId
    {
      assert kept[i] in rows && kept[j] in rows && kept[i].id != kept[j].id;
      var a :| 0 <= a < |rows| && rows[a] == kept[i];
      var b :| 0 <= b < |rows| && rows[b] == kept[j];
      assert a != b;
    }
  }

  // ---------------------------------------------------------------- every step

  /** Every step of the system is a step of the protocol or leaves the protocol view as it
      was, and keeps the invariant. */
  lemma StepRefines(s: State, a: Action, cfg: Config)
    requires Inv(s, cfg) && Enabled(s, a)
    ensures Inv(Next(s, a, cfg), cfg)
    ensures if IsDelivery(a) || a.CreateOrder? then
        P.Enabled(Abs(s), ProtocolAction(a))
        && Abs(Next(s, a, cfg)) == P.Next(Abs(s), ProtocolAction(a), cfg.maxRetries)
      else Abs(Next(s, a, cfg)) == Abs(s)
  {
    hide P.Inv, RowsOk, DeliveredOk, RelaysOk, Pick, Purge, Stamp, Mark;
    match a
    case CreateOrder(order, id) => CreateKeeps(s, order, id, cfg);
    case ToOrchestrator(_, _) => DeliveryKeeps(s, a, cfg);
    case ToWorker(_, _, _, _) => DeliveryKeeps(s, a, cfg);
    case RelayClaim(relay, locked) => ClaimKeeps(s, relay, locked, cfg);
    case RelayPublish(relay, delivered, ok) => PublishKeeps(s, relay, delivered, ok, cfg);
    case RelayMark(relay) => MarkKeeps(s, relay, cfg);
    case RelayCrash(relay) => FewerRelays(s, Next(s, a, cfg), cfg);
    case PurgeOutbox => PurgeKeeps(s, cfg);
    case Tick(_) => FewerRelays(s, Next(s, a, cfg), cfg);
    case ToProjector(_) => FewerRelays(s, Next(s, a, cfg), cfg);
    case ApplyToView(_) => FewerRelays(s, Next(s, a, cfg), cfg);
    case ProjectorStop(_) => FewerRelays(s, Next(s, a, cfg), cfg);
  }

  lemma FewerRelays(s: State, s': State, cfg: Config)
    requires Inv(s, cfg)
    requires s'.db == s.db && s'.used == s.used && s'.kafka == s.kafka
    requires forall relay :: relay in s'.relays ==> relay in s.relays && s'.relays[relay] == s.relays[relay]
    ensures Inv(s', cfg) && Abs(s') == Abs(s)
  {
  }

  lemma StartOk(cfg: Config)
    ensures Inv(START, cfg)
    ensures Abs(START) == P.START
  {
  }
}
