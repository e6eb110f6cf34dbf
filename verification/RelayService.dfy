/** The outbox relay: claim a batch, publish it, mark it. */
module RelayService {
  import opened Domain
  import opened Topics
  import opened Tables
  import opened Outbox
  import opened Store

  /** The Kafka producer: a batch that fails may have reached its topics in part, and one
      that succeeds may have been written more than once. */
  class Producer {
    var log: seq<Message>

    constructor ()
      ensures log == []
    {
      log := [];
    }

    method PublishBatch(msgs: seq<Message>) returns (r: Result<(), Failure>)
      modifies this
      ensures old(log) <= log
      ensures forall m :: m in log[|old(log)|..] ==> m in msgs
      ensures r.Ok? ==> forall m :: m in msgs ==> m in log[|old(log)|..]
      ensures r.Err? ==> r.error == Transient
    {
      ghost var before := log;
      var left := msgs;
      var failed := false;
      while left != []
        invariant before <= log
        invariant forall m :: m in left ==> m in msgs
        invariant forall m :: m in log[|before|..] ==> m in msgs
        invariant !failed ==> forall m :: m in msgs ==> m in left || m in log[|before|..]
        decreases |left|
      {
        var fault, written, again: bool := *, *, *;
        var m := left[0];
        var copies := if again then [m, m] else [m];
        assert (log + copies)[|before|..] == log[|before|..] + copies;
        assert m in msgs;
        if !fault || written {
          log := log + copies;
        }
        failed := failed || fault;
        left := left[1..];
      }
      return if failed then Err(Transient) else Ok(());
    }
  }

  /** Each of these rows was published: its own event, in its own topic, under its own key. */
  ghost predicate AllPublished(rows: seq<OutboxRow>, msgs: seq<Message>) {
    forall row :: row in rows ==> Message(row.topic, row.key, row.payload) in msgs
  }

  /** Nothing but these rows was published. */
  ghost predicate OnlyPublished(rows: seq<OutboxRow>, msgs: seq<Message>) {
    forall m :: m in msgs ==>
      exists row :: row in rows && row.topic == m.topic && row.key == m.key && row.payload == m.value
  }

  /** What one cycle may leave behind. Only claimed rows are published. A cycle that succeeds has
      published and marked all it claimed; one that fails has marked nothing, or has published
      all it marked. */
  ghost predicate CycleLeaves(rows: seq<OutboxRow>, log: seq<Message>, rows': seq<OutboxRow>, log': seq<Message>,
                              batch: nat, t: Instant, timeout: int, locked: set<nat>, r: Result<nat, Failure>)
  {
    var picked := Pick(rows, batch, t.claimAt, timeout, locked);
    var claimed := Stamp(rows, IdsOf(picked), t.claimAt);
    var marked := Mark(claimed, IdsOf(picked), t.markAt);
    && log <= log'
    && OnlyPublished(picked, log'[|log|..])
    && (r.Ok? ==> r.value == |picked| && rows' == marked && AllPublished(picked, log'[|log|..]))
    && (r.Err? ==> r.error == Transient)
    && (r.Err? ==>
          || (rows' == rows && log' == log)
          || rows' == claimed
          || (rows' == marked && AllPublished(picked, log'[|log|..])))
  }

  lemma NothingPicked(rows: seq<OutboxRow>, t: Instant)
    ensures Mark(Stamp(rows, IdsOf([]), t.claimAt), IdsOf([]), t.markAt) == rows
    ensures Stamp(rows, IdsOf([]), t.claimAt) == rows
  {
  }

  lemma SameRows(a: seq<OutboxRow>, b: seq<OutboxRow>)
    requires multiset(a) == multiset(b)
    ensures |a| == |b| && IdsOf(a) == IdsOf(b) && forall row :: row in a <==> row in b
  {
    assert |multiset(a)| == |multiset(b)|;
    forall row
      ensures row in a <==> row in b
    {
      assert row in a <==> row in multiset(a);
      assert row in b <==> row in multiset(b);
    }
  }

  class Relay {
    const outbox: Session
    const producer: Producer
    const batchSize: nat
    const claimTimeout: int

    constructor (outbox: Session, producer: Producer, batchSize: int, claimTimeout: int)
      ensures this.outbox == outbox && this.producer == producer && this.claimTimeout == claimTimeout
      ensures this.batchSize == (if batchSize < 1 then 500 else batchSize)
    {
      this.outbox, this.producer, this.claimTimeout := outbox, producer, claimTimeout;
      this.batchSize := if batchSize < 1 then 500 else batchSize;
    }

    method RelayOnce(t: Instant, locked: set<nat>) returns (r: Result<nat, Failure>)
      modifies outbox`outbox, producer
      ensures CycleLeaves(old(outbox.outbox), old(producer.log), outbox.outbox, producer.log, batchSize, t,
                          claimTimeout, locked, r)
    {
      hide Pick, Stamp, Mark, IdsOf;
      ghost var rows, log := outbox.outbox, producer.log;
      ghost var picked := Pick(rows, batchSize, t.claimAt, claimTimeout, locked);
      var claim := outbox.ClaimPending(batchSize, t.claimAt, claimTimeout, locked);
      if claim.Err? {
        return Err(claim.error);
      }
      var entries := claim.value;
      SameRows(entries, picked);
      if |entries| == 0 {
        assert picked == [];
        NothingPicked(rows, t);
        return Ok(0);
      }
      var msgs: seq<Message> := [];
      for i := 0 to |entries|
        invariant |msgs| == i
        invariant forall k :: 0 <= k < i ==> msgs[k] == Message(entries[k].topic, entries[k].key, entries[k].payload)
      {
        msgs := msgs + [Message(entries[i].topic, entries[i].key, entries[i].payload)];
      }
      var published := producer.PublishBatch(msgs);
      PublishedRows(entries, msgs, producer.log[|log|..]);
      if published.Err? {
        return Err(published.error);
      }
      var ids: seq<nat> := [];
      for i := 0 to |entries|
        invariant |ids| == i
        invariant forall k :: 0 <= k < i ==> ids[k] == entries[k].id
      {
        ids := ids + [entries[i].id];
      }
      IdsListed(entries, ids);
      var marked := outbox.MarkPublishedBatch(ids, t.markAt);
      assert AllPublished(picked, producer.log[|log|..]);
      assert OnlyPublished(picked, producer.log[|log|..]);
      if marked.Err? {
        return Err(marked.error);
      }
      return Ok(|entries|);
    }

    /** The relay's endless loop, over any number of cycles. Whatever fails, no row is lost, a
        row is marked only after its event reached Kafka, and what routed rows publish is routed.
        If moreover no cycle fails and no other relay's claim is in force, each one takes the next
        `batchSize` rows off the backlog. */
    method Run(times: seq<Instant>, start: int) returns (failed: bool)
      requires Ordered(outbox.outbox) && MarkedArePublished(outbox.outbox, producer.log)
      modifies outbox`outbox, producer
      ensures old(producer.log) <= producer.log
      ensures MarkedArePublished(outbox.outbox, producer.log)
      ensures SamePayloads(old(outbox.outbox), outbox.outbox)
      ensures RowsRouted(old(outbox.outbox)) ==>
        forall m :: m in producer.log[|old(producer.log)|..] ==> Routed(m)
      ensures !failed && Undisturbed(old(outbox.outbox), times, start, claimTimeout) ==>
        Unpublished(outbox.outbox) == Drop(Unpublished(old(outbox.outbox)), |times| * batchSize)
    {
      hide Pick, Stamp, Mark, IdsOf, Unpublished, CycleLeaves, Drop, MarkedArePublished, RowsRouted, Routed;
      failed := false;
      ghost var undisturbed := Undisturbed(outbox.outbox, times, start, claimTimeout);
      DropNone(Unpublished(outbox.outbox));
      for i := 0 to |times|
        invariant old(producer.log) <= producer.log
        invariant MarkedArePublished(outbox.outbox, producer.log)
        invariant SamePayloads(old(outbox.outbox), outbox.outbox)
        invariant Ordered(outbox.outbox)
        invariant RowsRouted(old(outbox.outbox)) ==>
          forall m :: m in producer.log[|old(producer.log)|..] ==> Routed(m)
        invariant undisturbed ==> forall k :: 0 <= k < |times| ==> start <= times[k].claimAt
        invariant !failed && undisturbed ==> AllEligible(outbox.outbox, start, claimTimeout)
        invariant !failed && undisturbed ==>
          Unpublished(outbox.outbox) == Drop(Unpublished(old(outbox.outbox)), i * batchSize)
      {
        ghost var rows, log := outbox.outbox, producer.log;
        var r := RelayOnce(times[i], {});
        CycleIsSafe(rows, log, outbox.outbox, producer.log, batchSize, times[i], claimTimeout, {}, r);
        if RowsRouted(old(outbox.outbox)) {
          RoutedStays(old(outbox.outbox), rows);
        }
        CycleRoutes(rows, log, outbox.outbox, producer.log, batchSize, times[i], claimTimeout, {}, r);
        assert producer.log[|old(producer.log)|..] == log[|old(producer.log)|..] + producer.log[|log|..];
        if r.Err? {
          failed := true;
        } else if !failed && undisturbed {
          CycleAdvances(rows, log, outbox.outbox, producer.log, batchSize, times[i], claimTimeout, r, start);
          DropMore(Unpublished(old(outbox.outbox)), i, batchSize);
        }
      }
    }
  }

  lemma PublishedRows(rows: seq<OutboxRow>, msgs: seq<Message>, written: seq<Message>)
    requires |msgs| == |rows|
    requires forall k :: 0 <= k < |rows| ==> msgs[k] == Message(rows[k].topic, rows[k].key, rows[k].payload)
    ensures (forall m :: m in msgs ==> m in written) ==> AllPublished(rows, written)
    ensures (forall m :: m in written ==> m in msgs) ==> OnlyPublished(rows, written)
  {
    if forall m :: m in msgs ==> m in written {
      forall row | row in rows
        ensures Message(row.topic, row.key, row.payload) in written
      {
        var k :| 0 <= k < |rows| && rows[k] == row;
        assert msgs[k] in msgs;
      }
    }
  }

  lemma IdsListed(rows: seq<OutboxRow>, ids: seq<nat>)
    requires |ids| == |rows| && forall k :: 0 <= k < |rows| ==> ids[k] == rows[k].id
    ensures Listed(ids) == IdsOf(rows)
  {
  }

  // ---------------------------------------------------------------- many cycles

  ghost predicate MarkedArePublished(rows: seq<OutboxRow>, log: seq<Message>) {
    forall row :: row in rows && row.publishedAt.Some? ==> Message(row.topic, row.key, row.payload) in log
  }

  /** Every row names the topic of its event's type and the order of its event. */
  ghost predicate RowsRouted(rows: seq<OutboxRow>) {
    forall row :: row in rows ==> TopicForEventType(row.payload.kind) == Some(row.topic) && row.key == row.payload.order
  }

  lemma RoutedStays(rows: seq<OutboxRow>, rows': seq<OutboxRow>)
    requires SamePayloads(rows, rows') && RowsRouted(rows)
    ensures RowsRouted(rows')
  {
    forall row' | row' in rows'
      ensures TopicForEventType(row'.payload.kind) == Some(row'.topic) && row'.key == row'.payload.order
    {
      var i :| 0 <= i < |rows'| && rows'[i] == row';
      assert rows[i] in rows;
    }
  }

  /** Every message a cycle adds stands in the topic of its event's type under its event's order. */
  lemma CycleRoutes(rows: seq<OutboxRow>, log: seq<Message>, rows': seq<OutboxRow>, log': seq<Message>, batch: nat,
                    t: Instant, timeout: int, locked: set<nat>, r: Result<nat, Failure>)
    requires CycleLeaves(rows, log, rows', log', batch, t, timeout, locked, r)
    ensures RowsRouted(rows) ==> forall m :: m in log'[|log|..] ==> Routed(m)
  {
    hide Pick, IdsOf, Stamp, Mark;
    PickMembers(rows, batch, t.claimAt, timeout, locked);
  }

  /** No claim is in force, and no cycle comes before all of them have expired. */
  ghost predicate Undisturbed(rows: seq<OutboxRow>, times: seq<Instant>, start: int, timeout: int) {
    AllEligible(rows, start, timeout) && forall i :: 0 <= i < |times| ==> start <= times[i].claimAt
  }

  ghost predicate SamePayloads(rows: seq<OutboxRow>, rows': seq<OutboxRow>) {
    && |rows'| == |rows|
    && forall i :: 0 <= i < |rows| ==>
         rows'[i].id == rows[i].id && rows'[i].payload == rows[i].payload
         && rows'[i].topic == rows[i].topic && rows'[i].key == rows[i].key
  }

  lemma CycleIsSafe(rows: seq<OutboxRow>, log: seq<Message>, rows': seq<OutboxRow>, log': seq<Message>, batch: nat,
                    t: Instant, timeout: int, locked: set<nat>, r: Result<nat, Failure>)
    requires Ordered(rows) && MarkedArePublished(rows, log)
    requires CycleLeaves(rows, log, rows', log', batch, t, timeout, locked, r)
    ensures log <= log' && Ordered(rows') && SamePayloads(rows, rows') && MarkedArePublished(rows', log')
  {
    hide Pick, IdsOf, Stamp, Mark;
    var picked := Pick(rows, batch, t.claimAt, timeout, locked);
    PickIsFirst(rows, batch, t.claimAt, timeout, locked);
    var claimed := Stamp(rows, IdsOf(picked), t.claimAt);
    StampOnlyClaims(rows, IdsOf(picked), t.claimAt, log');
    MarksOnlyIds(claimed, IdsOf(picked), t.markAt, log');
    if rows' == Mark(claimed, IdsOf(picked), t.markAt) && AllPublished(picked, log'[|log|..]) {
      forall row | row in claimed && row.id in IdsOf(picked)
        ensures Message(row.topic, row.key, row.payload) in log'
      {
        var was := ClaimedRow(rows, picked, IdsOf(picked), t.claimAt, row);
        assert Message(was.topic, was.key, was.payload) in log'[|log|..];
      }
    }
  }

  lemma StampOnlyClaims(rows: seq<OutboxRow>, ids: set<nat>, now: int, log: seq<Message>)
    requires Ordered(rows)
    ensures Ordered(Stamp(rows, ids, now)) && SamePayloads(rows, Stamp(rows, ids, now))
    ensures MarkedArePublished(rows, log) ==> MarkedArePublished(Stamp(rows, ids, now), log)
  {
  }

  lemma MarksOnlyIds(rows: seq<OutboxRow>, ids: set<nat>, now: int, log: seq<Message>)
    requires Ordered(rows)
    ensures Ordered(Mark(rows, ids, now)) && SamePayloads(rows, Mark(rows, ids, now))
    ensures MarkedArePublished(rows, log)
            && (forall row :: row in rows && row.id in ids ==> Message(row.topic, row.key, row.payload) in log)
        ==> MarkedArePublished(Mark(rows, ids, now), log)
  {
  }

  lemma ClaimedRow(rows: seq<OutboxRow>, picked: seq<OutboxRow>, ids: set<nat>, now: int, row: OutboxRow)
      returns (was: OutboxRow)
    requires Ordered(rows) && forall r :: r in picked ==> r in rows
    requires row in Stamp(rows, ids, now) && row.id in IdsOf(picked)
    ensures was in picked && was.payload == row.payload && was.topic == row.topic && was.key == row.key
  {
    var p :| p in picked && p.id == row.id;
    var i :| 0 <= i < |rows| && Stamp(rows, ids, now)[i] == row;
    var j :| 0 <= j < |rows| && rows[j] == p;
    assert i == j;
    was := p;
  }

  lemma CycleAdvances(rows: seq<OutboxRow>, log: seq<Message>, rows': seq<OutboxRow>, log': seq<Message>, batch: nat,
                      t: Instant, timeout: int, r: Result<nat, Failure>, start: int)
    requires Ordered(rows) && AllEligible(rows, start, timeout) && start <= t.claimAt
    requires CycleLeaves(rows, log, rows', log', batch, t, timeout, {}, r) && r.Ok?
    ensures Unpublished(rows') == Drop(Unpublished(rows), batch)
    ensures AllEligible(rows', start, timeout)
  {
    hide Pick, Stamp, Mark, Unpublished;
    CycleDrains(rows, batch, t, timeout);
  }

  lemma DropNone(u: seq<OutboxRow>)
    ensures Drop(u, 0) == u
  {
  }

  lemma DropMore(u: seq<OutboxRow>, cycles: nat, batch: nat)
    ensures Drop(Drop(u, cycles * batch), batch) == Drop(u, (cycles + 1) * batch)
  {
  }
}
