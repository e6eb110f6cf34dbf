/** The three tables that commit together, as values, and the effect of one handler run. */
module Tables {
  import opened Domain
  import opened Topics

  datatype Direction = In | Out | GatewayRequest | GatewayResponse

  /** What a worker asks its gateway. */
  datatype GatewayCall = GatewayCall(order: OrderId, op: string, tx: string)

  /** What a gateway answers: a verdict and, for payments, a transaction id, or an error. */
  datatype GatewayAnswer = GatewayAnswer(ok: bool, tx: string, error: Option<string>)

  /** One row of saga_events. */
  datatype JournalEntry = JournalEntry(
    order: OrderId,
    sagaId: OrderId,
    eventId: EventId,
    kind: EventType,
    component: Component,
    direction: Direction,
    from: OrderStatus,
    to: OrderStatus,
    payload: Event,
    request: Option<GatewayCall>,
    response: Option<GatewayAnswer>)

  /** One row of outbox; times are seconds of the database clock. */
  datatype OutboxRow = OutboxRow(
    id: nat,
    eventId: EventId,
    topic: string,
    key: OrderId,
    payload: Event,
    claimedAt: Option<int>,
    publishedAt: Option<int>)

  datatype Tables = Tables(sagas: map<OrderId, Saga>, journal: seq<JournalEntry>, outbox: seq<OutboxRow>, nextRow: nat)

  // ---------------------------------------------------------------- journal

  predicate Has(journal: seq<JournalEntry>, id: EventId, component: Component) {
    exists x :: x in journal && x.eventId == id && x.component == component
  }

  predicate SameKey(x: JournalEntry, y: JournalEntry) {
    x.eventId == y.eventId && x.component == y.component && x.direction == y.direction
  }

  predicate HasKey(journal: seq<JournalEntry>, entry: JournalEntry) {
    exists x :: x in journal && SameKey(x, entry)
  }

  /** INSERT ... ON CONFLICT (event_id, component, direction) DO NOTHING. */
  function JournalAppend(journal: seq<JournalEntry>, entry: JournalEntry): seq<JournalEntry> {
    if HasKey(journal, entry) then journal else journal + [entry]
  }

  /** An insert is ignored exactly when a row with the same event, component and direction is there;
      otherwise it becomes the last row. */
  lemma InsertIsIgnoredExactly(journal: seq<JournalEntry>, entry: JournalEntry)
    ensures var there := exists x :: x in journal && x.eventId == entry.eventId && x.component == entry.component
                                     && x.direction == entry.direction;
      JournalAppend(journal, entry) == if there then journal else journal + [entry]
  {
  }

  function JournalAppendAll(journal: seq<JournalEntry>, entries: seq<JournalEntry>): seq<JournalEntry>
    decreases |entries|
  {
    if entries == [] then journal
    else JournalAppendAll(JournalAppend(journal, entries[0]), entries[1..])
  }

  ghost predicate KeysDistinct(journal: seq<JournalEntry>) {
    forall i, j :: 0 <= i < j < |journal| ==> !SameKey(journal[i], journal[j])
  }

  lemma {:induction false} AppendedKeysStay(journal: seq<JournalEntry>, entries: seq<JournalEntry>, x: JournalEntry)
    requires HasKey(journal, x) || exists k :: 0 <= k < |entries| && SameKey(entries[k], x)
    ensures HasKey(JournalAppendAll(journal, entries), x)
    decreases |entries|
  {
    if entries != [] {
      var next := JournalAppend(journal, entries[0]);
      if HasKey(journal, x) {
        assert HasKey(next, x);
      } else {
        var k :| 0 <= k < |entries| && SameKey(entries[k], x);
        if k == 0 {
          if next != journal { assert next[|journal|] == entries[0]; }
          assert HasKey(next, x);
        } else {
          assert entries[1..][k - 1] == entries[k];
        }
      }
      AppendedKeysStay(next, entries[1..], x);
    }
  }

  lemma {:induction false} KnownKeysAreIgnored(journal: seq<JournalEntry>, entries: seq<JournalEntry>)
    requires forall k :: 0 <= k < |entries| ==> HasKey(journal, entries[k])
    ensures JournalAppendAll(journal, entries) == journal
    decreases |entries|
  {
    if entries != [] {
      assert HasKey(journal, entries[0]);
      forall k | 0 <= k < |entries[1..]|
        ensures HasKey(journal, entries[1..][k])
      {
        assert entries[1..][k] == entries[k + 1];
      }
      KnownKeysAreIgnored(journal, entries[1..]);
    }
  }

  lemma {:induction false} KeysStayDistinct(journal: seq<JournalEntry>, entries: seq<JournalEntry>)
    requires KeysDistinct(journal)
    ensures KeysDistinct(JournalAppendAll(journal, entries))
    ensures journal <= JournalAppendAll(journal, entries)
    decreases |entries|
  {
    if entries != [] {
      var next := JournalAppend(journal, entries[0]);
      assert KeysDistinct(next);
      KeysStayDistinct(next, entries[1..]);
    }
  }

  /** The journal is append-only, keeps its unique key, and writing the same entries a
      second time changes nothing. */
  lemma JournalIsIdempotent(journal: seq<JournalEntry>, entries: seq<JournalEntry>)
    requires KeysDistinct(journal)
    ensures var once := JournalAppendAll(journal, entries);
      journal <= once && KeysDistinct(once) && JournalAppendAll(once, entries) == once
  {
    var once := JournalAppendAll(journal, entries);
    KeysStayDistinct(journal, entries);
    forall k | 0 <= k < |entries|
      ensures HasKey(once, entries[k])
    {
      AppendedKeysStay(journal, entries, entries[k]);
    }
    KnownKeysAreIgnored(once, entries);
  }

  /** Entries whose keys are new, and distinct among themselves, are all appended in order. */
  lemma {:induction false} FreshEntriesAppend(journal: seq<JournalEntry>, entries: seq<JournalEntry>)
    requires forall x, e :: x in journal && e in entries ==> !SameKey(x, e)
    requires KeysDistinct(entries)
    ensures JournalAppendAll(journal, entries) == journal + entries
    decreases |entries|
  {
    if entries == [] {
      assert journal + entries == journal;
    } else {
      var next := journal + [entries[0]];
      assert entries[0] in entries;
      assert JournalAppend(journal, entries[0]) == next;
      forall x, e | x in next && e in entries[1..]
        ensures !SameKey(x, e)
      {
        if x !in journal {
          var k :| 0 <= k < |entries[1..]| && entries[1..][k] == e;
          assert entries[k + 1] == e;
        }
      }
      FreshEntriesAppend(next, entries[1..]);
      assert next + entries[1..] == journal + entries;
    }
  }

  // ---------------------------------------------------------------- outbox

  predicate HasRow(outbox: seq<OutboxRow>, id: EventId) {
    exists r :: r in outbox && r.eventId == id
  }

  /** Publisher.Publish over INSERT ... ON CONFLICT (event_id) DO NOTHING. */
  function Publish(t: Tables, e: Event): Tables {
    var topic := TopicForEventType(e.kind);
    if topic.None? || HasRow(t.outbox, e.id) then t
    else t.(outbox := t.outbox + [OutboxRow(t.nextRow, e.id, topic.value, e.order, e, None, None)],
            nextRow := t.nextRow + 1)
  }

  // ---------------------------------------------------------------- effects

  /** What one handler run writes: nothing, or a saga row (orchestrator only), journal
      entries, and one event to publish. */
  datatype Effect =
    | Nothing
    | Commit(row: Option<Saga>, entries: seq<JournalEntry>, out: Event)

  function ApplyEffect(t: Tables, effect: Effect): Tables {
    match effect
    case Nothing => t
    case Commit(row, entries, out) =>
      var sagas := if row.Some? then t.sagas[row.value.order := row.value] else t.sagas;
      Publish(t.(sagas := sagas, journal := JournalAppendAll(t.journal, entries)), out)
  }
}
