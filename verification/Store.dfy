/** The write database: repositories over one connection, and the unit of work that makes
    their writes atomic. Any call may fail; a failed call leaves the connection unchanged. */
module Store {
  import opened Domain
  import opened Topics
  import opened Tables
  import opened Outbox

  datatype Loaded = Found(saga: Saga) | NotFound | LoadFailed

  /** The tables as one connection or transaction sees them, with the repositories' calls. */
  class Session {
    var sagas: map<OrderId, Saga>
    var journal: seq<JournalEntry>
    var outbox: seq<OutboxRow>
    var nextRow: nat

    constructor (t: Tables)
      ensures Contents() == t
    {
      sagas, journal, outbox, nextRow := t.sagas, t.journal, t.outbox, t.nextRow;
    }

    function Contents(): Tables
      reads this
    {
      Tables(sagas, journal, outbox, nextRow)
    }

    /** SagaRepository.Save: upsert. */
    method Save(saga: Saga) returns (r: Result<(), Failure>)
      modifies this`sagas
      ensures r.Ok? ==> sagas == old(sagas)[saga.order := saga]
      ensures r.Err? ==> r.error == Transient && sagas == old(sagas)
    {
      var fault: bool := *;
      if fault {
        return Err(Transient);
      }
      sagas := sagas[saga.order := saga];
      return Ok(());
    }

    /** SagaRepository.Load. */
    method Load(order: OrderId) returns (r: Loaded)
      ensures r.Found? ==> order in sagas && r.saga == sagas[order]
      ensures r.NotFound? ==> order !in sagas
    {
      var fault: bool := *;
      if fault {
        return LoadFailed;
      }
      if order in sagas {
        return Found(sagas[order]);
      }
      return NotFound;
    }

    /** EventLogRepository.Append: insert, or ignore on the unique key. */
    method AppendEntry(entry: JournalEntry) returns (r: Result<(), Failure>)
      modifies this`journal
      ensures r.Ok? ==> journal == JournalAppend(old(journal), entry)
      ensures r.Ok? ==>
        journal == if exists x :: x in old(journal) && x.eventId == entry.eventId && x.component == entry.component
                                  && x.direction == entry.direction
                   then old(journal) else old(journal) + [entry]
      ensures r.Err? ==> r.error == Transient && journal == old(journal)
    {
      var fault: bool := *;
      if fault {
        return Err(Transient);
      }
      if !HasKey(journal, entry) {
        journal := journal + [entry];
      }
      return Ok(());
    }

    /** EventLogRepository.Has: any direction counts. */
    method HasEntry(id: EventId, component: Component) returns (r: Result<bool, Failure>)
      ensures r.Ok? ==> (r.value <==> Has(journal, id, component))
      ensures r.Ok? ==> (r.value <==> exists x :: x in journal && x.eventId == id && x.component == component)
      ensures r.Err? ==> r.error == Transient
    {
      var fault: bool := *;
      if fault {
        return Err(Transient);
      }
      return Ok(Has(journal, id, component));
    }

    /** Publisher.Publish over OutboxRepository.Append. */
    method Enqueue(e: Event) returns (r: Result<(), Failure>)
      modifies this`outbox, this`nextRow
      ensures r.Ok? ==> TopicForEventType(e.kind).Some? && Contents() == Publish(old(Contents()), e)
      ensures r.Ok? && (exists row :: row in old(outbox) && row.eventId == e.id) ==> outbox == old(outbox)
      ensures r.Ok? && (forall row :: row in old(outbox) ==> row.eventId != e.id) ==>
        outbox == old(outbox)
          + [OutboxRow(old(nextRow), e.id, TopicForEventType(e.kind).value, e.order, e, None, None)]
      ensures r.Err? ==> Contents() == old(Contents())
      ensures r.Err? ==> r.error == Transient || (r.error == NoTopic && TopicForEventType(e.kind).None?)
    {
      var topic := TopicForEventType(e.kind);
      if topic.None? {
        return Err(NoTopic);
      }
      var fault: bool := *;
      if fault {
        return Err(Transient);
      }
      if !HasRow(outbox, e.id) {
        outbox := outbox + [OutboxRow(nextRow, e.id, topic.value, e.order, e, None, None)];
        nextRow := nextRow + 1;
      }
      return Ok(());
    }

    /** OutboxRepository.ClaimPending. Rows locked by other sessions are skipped; the rows
        come back in no particular order. The relay's statements commit on their own, so one
        that reports an error may still have taken effect. */
    method ClaimPending(limit: nat, now: int, timeout: int, locked: set<nat>)
        returns (r: Result<seq<OutboxRow>, Failure>)
      modifies this`outbox
      ensures var picked := Pick(old(outbox), limit, now, timeout, locked);
        && (r.Ok? ==> multiset(r.value) == multiset(picked) && outbox == Stamp(old(outbox), IdsOf(picked), now))
        && (r.Err? ==> r.error == Transient)
        && (r.Err? ==> outbox == old(outbox) || outbox == Stamp(old(outbox), IdsOf(picked), now))
      ensures |outbox| == |old(outbox)|
      ensures r.Ok? ==> forall i :: 0 <= i < |outbox| ==>
        outbox[i] == if exists row :: row in r.value && row.id == old(outbox)[i].id
                     then old(outbox)[i].(claimedAt := Some(now)) else old(outbox)[i]
    {
      hide Pick, Stamp, IdsOf;
      var fault, lost: bool := *, *;
      if fault && !lost {
        return Err(Transient);
      }
      var entries := SelectPending(limit, now, timeout, locked);
      StampTouchesClaimed(outbox, entries, now);
      outbox := Stamp(outbox, IdsOf(entries), now);
      return if fault then Err(Transient) else Ok(entries);
    }

    /** The rows a claim takes, read in id order. */
    method SelectPending(limit: nat, now: int, timeout: int, locked: set<nat>) returns (entries: seq<OutboxRow>)
      ensures entries == Pick(outbox, limit, now, timeout, locked)
    {
      hide Eligible;
      entries := [];
      var i := 0;
      while i < |outbox| && |entries| < limit
        invariant 0 <= i <= |outbox| && |entries| <= limit
        invariant entries + Pick(outbox[i..], limit - |entries|, now, timeout, locked)
               == Pick(outbox, limit, now, timeout, locked)
      {
        var row := outbox[i];
        assert outbox[i..][0] == row && outbox[i..][1..] == outbox[i + 1..];
        if Eligible(row, now, timeout) && row.id !in locked {
          entries := entries + [row];
        }
        i := i + 1;
      }
      assert Pick(outbox[i..], limit - |entries|, now, timeout, locked) == [];
    }

    /** OutboxRepository.MarkPublishedBatch. */
    method MarkPublishedBatch(ids: seq<nat>, now: int) returns (r: Result<(), Failure>)
      modifies this`outbox
      ensures var marked := Mark(old(outbox), Listed(ids), now);
        && (r.Ok? ==> outbox == marked)
        && (r.Err? ==> r.error == Transient && (outbox == old(outbox) || outbox == marked))
      ensures |outbox| == |old(outbox)|
      ensures r.Ok? ==> forall i :: 0 <= i < |outbox| ==>
        outbox[i] == if old(outbox)[i].id in ids then old(outbox)[i].(publishedAt := Some(now)) else old(outbox)[i]
    {
      if |ids| == 0 {
        assert Mark(outbox, Listed(ids), now) == outbox;
        return Ok(());
      }
      var fault, lost: bool := *, *;
      if !fault || lost {
        outbox := Mark(outbox, Listed(ids), now);
      }
      return if fault then Err(Transient) else Ok(());
    }

    /** OutboxRepository.PurgePublished. */
    method PurgePublished(now: int, olderThan: int) returns (r: Result<nat, Failure>)
      modifies this`outbox
      ensures var kept := Purge(old(outbox), now, olderThan);
        && (r.Ok? ==> outbox == kept && r.value == |old(outbox)| - |kept|)
        && (r.Err? ==> r.error == Transient && (outbox == old(outbox) || outbox == kept))
    {
      var fault, lost: bool := *, *;
      if fault && !lost {
        return Err(Transient);
      }
      PurgeShrinks(outbox, now, olderThan);
      var kept := Purge(outbox, now, olderThan);
      var removed := |outbox| - |kept|;
      outbox := kept;
      return if fault then Err(Transient) else Ok(removed);
    }

    /** OutboxRepository.CountPending. */
    method CountPending() returns (r: Result<nat, Failure>)
      ensures r.Ok? ==> r.value == |Unpublished(outbox)|
      ensures r.Err? ==> r.error == Transient
    {
      var fault: bool := *;
      if fault {
        return Err(Transient);
      }
      var n := 0;
      var i := |outbox|;
      while i > 0
        invariant 0 <= i <= |outbox|
        invariant n == |Unpublished(outbox[i..])|
      {
        i := i - 1;
        assert outbox[i..][0] == outbox[i] && outbox[i..][1..] == outbox[i + 1..];
        if outbox[i].publishedAt.None? {
          n := n + 1;
        }
      }
      return Ok(n);
    }
  }

  lemma {:induction false} PurgeShrinks(rows: seq<OutboxRow>, now: int, olderThan: int)
    ensures |Purge(rows, now, olderThan)| <= |rows|
  {
    if rows != [] {
      PurgeShrinks(rows[1..], now, olderThan);
    }
  }

  /** BEGIN, then COMMIT or ROLLBACK. The committed tables change only by Commit. */
  class UnitOfWork {
    var committed: Tables

    constructor (t: Tables)
      ensures committed == t
    {
      committed := t;
    }

    method Begin() returns (r: Result<Session, Failure>)
      ensures r.Ok? ==> fresh(r.value) && r.value.Contents() == committed
      ensures r.Err? ==> r.error == Transient
    {
      var fault: bool := *;
      if fault {
        return Err(Transient);
      }
      var tx := new Session(committed);
      return Ok(tx);
    }

    /** A commit that reports an error may still have taken effect on the server. */
    method Commit(tx: Session) returns (r: Result<(), Failure>)
      modifies this
      ensures r.Ok? ==> committed == tx.Contents()
      ensures r.Err? ==> r.error == Transient && (committed == old(committed) || committed == tx.Contents())
    {
      var fault, lost: bool := *, *;
      if fault {
        if lost {
          committed := tx.Contents();
        }
        return Err(Transient);
      }
      committed := tx.Contents();
      return Ok(());
    }
  }

  /** Inside a transaction: success means the whole decided effect, a definitive error is the
      decided one; whatever a failed run wrote is still to be rolled back. */
  ghost predicate RanInTx(before: Tables, after: Tables, decided: Result<Effect, Failure>, r: Result<(), Failure>) {
    && (r.Ok? ==> decided.Ok? && after == ApplyEffect(before, decided.value))
    && (r.Err? ==> r.error == Transient || decided == Err(r.error))
  }

  /** What a transactional handler run may leave behind: the tables as they were, or the
      whole effect, never a part of it. Success means the whole effect; a definitive error
      means the tables are untouched and is the error the handler decided. */
  ghost predicate AllOrNothing(before: Tables, after: Tables, decided: Result<Effect, Failure>,
                               r: Result<(), Failure>) {
    && (r.Ok? ==> decided.Ok? && after == ApplyEffect(before, decided.value))
    && (r.Err? && r.error != Transient ==> decided == Err(r.error) && after == before)
    && (r.Err? && r.error == Transient ==>
          after == before || (decided.Ok? && after == ApplyEffect(before, decided.value)))
  }
}
