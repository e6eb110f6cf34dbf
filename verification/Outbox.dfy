/** The outbox as the relay sees it: claiming, marking and purging rows. */
module Outbox {
  import opened Domain
  import opened Tables

  predicate ClaimExpired(row: OutboxRow, now: int, timeout: int) {
    row.claimedAt.None? || row.claimedAt.value < now - timeout
  }

  predicate Eligible(row: OutboxRow, now: int, timeout: int) {
    row.publishedAt.None? && ClaimExpired(row, now, timeout)
  }

  /** The first `limit` eligible rows that no other session has locked, in id order. */
  function Pick(rows: seq<OutboxRow>, limit: nat, now: int, timeout: int, locked: set<nat>): seq<OutboxRow> {
    if rows == [] || limit == 0 then []
    else if Eligible(rows[0], now, timeout) && rows[0].id !in locked then
      [rows[0]] + Pick(rows[1..], limit - 1, now, timeout, locked)
    else Pick(rows[1..], limit, now, timeout, locked)
  }

  function IdsOf(rows: seq<OutboxRow>): set<nat> {
    set r | r in rows :: r.id
  }

  function Listed(ids: seq<nat>): set<nat> {
    set id | id in ids
  }

  /** UPDATE outbox SET claimed_at = now WHERE id IN ids. */
  function Stamp(rows: seq<OutboxRow>, ids: set<nat>, now: int): seq<OutboxRow> {
    seq(|rows|, i requires 0 <= i < |rows| =>
      if rows[i].id in ids then rows[i].(claimedAt := Some(now)) else rows[i])
  }

  /** A claim sets the claim time of the rows it takes and touches no other. */
  lemma StampTouchesClaimed(rows: seq<OutboxRow>, picked: seq<OutboxRow>, now: int)
    ensures var stamped := Stamp(rows, IdsOf(picked), now);
      && |stamped| == |rows|
      && forall i :: 0 <= i < |rows| ==>
           stamped[i] == if exists row :: row in picked && row.id == rows[i].id then rows[i].(claimedAt := Some(now))
                         else rows[i]
  {
  }

  /** UPDATE outbox SET published_at = now WHERE id = ANY(ids). */
  function Mark(rows: seq<OutboxRow>, ids: set<nat>, now: int): seq<OutboxRow> {
    seq(|rows|, i requires 0 <= i < |rows| =>
      if rows[i].id in ids then rows[i].(publishedAt := Some(now)) else rows[i])
  }

  /** A mark sets the publication time of the listed rows and touches no other. */
  lemma MarkTouchesListed(rows: seq<OutboxRow>, ids: seq<nat>, now: int)
    ensures var marked := Mark(rows, Listed(ids), now);
      && |marked| == |rows|
      && forall i :: 0 <= i < |rows| ==>
           marked[i] == if rows[i].id in ids then rows[i].(publishedAt := Some(now)) else rows[i]
  {
  }

  predicate Expired(row: OutboxRow, now: int, olderThan: int) {
    row.publishedAt.Some? && row.publishedAt.value < now - olderThan
  }

  /** DELETE FROM outbox WHERE published long enough ago. */
  function Purge(rows: seq<OutboxRow>, now: int, olderThan: int): seq<OutboxRow> {
    if rows == [] then []
    else if Expired(rows[0], now, olderThan) then Purge(rows[1..], now, olderThan)
    else [rows[0]] + Purge(rows[1..], now, olderThan)
  }

  function Unpublished(rows: seq<OutboxRow>): seq<OutboxRow> {
    if rows == [] then []
    else if rows[0].publishedAt.None? then [rows[0]] + Unpublished(rows[1..])
    else Unpublished(rows[1..])
  }

  /** Rows are kept in id order. */
  ghost predicate Ordered(rows: seq<OutboxRow>) {
    forall i, j :: 0 <= i < j < |rows| ==> rows[i].id < rows[j].id
  }

  lemma OrderedTail(rows: seq<OutboxRow>)
    requires Ordered(rows) && rows != []
    ensures Ordered(rows[1..])
    ensures forall r :: r in rows[1..] ==> rows[0].id < r.id
  {
  }

  lemma {:induction false} PickMembers(rows: seq<OutboxRow>, limit: nat, now: int, timeout: int, locked: set<nat>)
    ensures var picked := Pick(rows, limit, now, timeout, locked);
      && |picked| <= limit
      && (forall r :: r in picked ==> r in rows && Eligible(r, now, timeout) && r.id !in locked)
  {
    hide Eligible;
    if rows != [] && limit > 0 {
      assert forall r :: r in rows[1..] ==> r in rows;
      if Eligible(rows[0], now, timeout) && rows[0].id !in locked {
        PickMembers(rows[1..], limit - 1, now, timeout, locked);
      } else {
        PickMembers(rows[1..], limit, now, timeout, locked);
      }
    }
  }

  lemma {:induction false} PickOrdered(rows: seq<OutboxRow>, limit: nat, now: int, timeout: int, locked: set<nat>)
    requires Ordered(rows)
    ensures Ordered(Pick(rows, limit, now, timeout, locked))
  {
    hide Eligible, Ordered;
    if rows == [] || limit == 0 {
      EmptyOrdered();
    } else {
      OrderedTail(rows);
      if Eligible(rows[0], now, timeout) && rows[0].id !in locked {
        PickMembers(rows[1..], limit - 1, now, timeout, locked);
        PickOrdered(rows[1..], limit - 1, now, timeout, locked);
        OrderedCons(rows[0], Pick(rows[1..], limit - 1, now, timeout, locked));
      } else {
        PickOrdered(rows[1..], limit, now, timeout, locked);
      }
    }
  }

  lemma EmptyOrdered()
    ensures Ordered([])
  {
  }

  lemma OrderedCons(row: OutboxRow, rows: seq<OutboxRow>)
    requires Ordered(rows) && forall r :: r in rows ==> row.id < r.id
    ensures Ordered([row] + rows)
  {
  }

  /** What a claim leaves behind comes after everything it took, and only if it is full. */
  ghost predicate TakenFirst(picked: seq<OutboxRow>, limit: nat, r: OutboxRow) {
    |picked| == limit && forall p :: p in picked ==> p.id < r.id
  }

  lemma {:induction false} PickSkipsNone(rows: seq<OutboxRow>, limit: nat, now: int, timeout: int, locked: set<nat>,
                                         r: OutboxRow)
    requires Ordered(rows) && r in rows && Eligible(r, now, timeout) && r.id !in locked
    requires r !in Pick(rows, limit, now, timeout, locked)
    ensures TakenFirst(Pick(rows, limit, now, timeout, locked), limit, r)
  {
    hide Eligible;
    if limit > 0 {
      OrderedTail(rows);
      var rest := rows[1..];
      if Eligible(rows[0], now, timeout) && rows[0].id !in locked {
        var tail := Pick(rest, limit - 1, now, timeout, locked);
        assert forall p :: p in [rows[0]] + tail <==> p == rows[0] || p in tail;
        PickSkipsNone(rest, limit - 1, now, timeout, locked, r);
      } else {
        PickSkipsNone(rest, limit, now, timeout, locked, r);
      }
    }
  }

  /** A claim takes at most `limit` rows, all eligible and unlocked, in id order; it takes
      fewer only when no other such row is left; and it never passes over a smaller id. */
  lemma PickIsFirst(rows: seq<OutboxRow>, limit: nat, now: int, timeout: int, locked: set<nat>)
    requires Ordered(rows)
    ensures var picked := Pick(rows, limit, now, timeout, locked);
      && |picked| <= limit
      && Ordered(picked)
      && (forall r :: r in picked ==> r in rows && Eligible(r, now, timeout) && r.id !in locked)
      && (forall r :: r in rows && Eligible(r, now, timeout) && r.id !in locked && r !in picked ==>
            |picked| == limit && forall p :: p in picked ==> p.id < r.id)
  {
    hide Pick, Eligible;
    PickMembers(rows, limit, now, timeout, locked);
    PickOrdered(rows, limit, now, timeout, locked);
    var picked := Pick(rows, limit, now, timeout, locked);
    forall r | r in rows && Eligible(r, now, timeout) && r.id !in locked && r !in picked
      ensures TakenFirst(picked, limit, r)
    {
      PickSkipsNone(rows, limit, now, timeout, locked, r);
    }
  }

  /** Purging removes exactly the rows published long enough ago and keeps the order. */
  lemma {:induction false} PurgeRemovesOnlyPublished(rows: seq<OutboxRow>, now: int, olderThan: int)
    requires Ordered(rows)
    ensures var kept := Purge(rows, now, olderThan);
      && Ordered(kept)
      && (forall r :: r in kept <==>
            r in rows && (r.publishedAt.None? || r.publishedAt.value >= now - olderThan))
      && Unpublished(kept) == Unpublished(rows)
  {
    if rows != [] {
      OrderedTail(rows);
      PurgeRemovesOnlyPublished(rows[1..], now, olderThan);
      assert forall r :: r in rows <==> r == rows[0] || r in rows[1..];
      var tail := Purge(rows[1..], now, olderThan);
      if !Expired(rows[0], now, olderThan) {
        var kept := [rows[0]] + tail;
        assert kept[1..] == tail;
        assert forall r :: r in kept <==> r == rows[0] || r in tail;
      }
    }
  }

  // ---------------------------------------------------------------- draining

  /** When a cycle claims its rows and when it marks them. */
  datatype Instant = Instant(claimAt: int, markAt: int)

  /** One cycle of a lone relay in which nothing fails: claim, publish, mark. */
  function Cycle(rows: seq<OutboxRow>, batch: nat, t: Instant, timeout: int): (seq<OutboxRow>, seq<OutboxRow>) {
    var picked := Pick(rows, batch, t.claimAt, timeout, {});
    (Marked(rows, IdsOf(picked), t), picked)
  }

  /** Cycles at the given times: the rows left and everything published, in order. */
  function Cycles(rows: seq<OutboxRow>, batch: nat, times: seq<Instant>, timeout: int): (seq<OutboxRow>, seq<OutboxRow>)
    decreases |times|
  {
    if times == [] then (rows, [])
    else
      var (next, sent) := Cycle(rows, batch, times[0], timeout);
      var (last, more) := Cycles(next, batch, times[1..], timeout);
      (last, sent + more)
  }

  /** No claim is outstanding: every unpublished row is eligible from this time on. */
  ghost predicate AllEligible(rows: seq<OutboxRow>, now: int, timeout: int) {
    forall r :: r in rows && r.publishedAt.None? ==> ClaimExpired(r, now, timeout)
  }

  function Take(rows: seq<OutboxRow>, n: nat): seq<OutboxRow> {
    if n <= |rows| then rows[..n] else rows
  }

  function Drop(rows: seq<OutboxRow>, n: nat): seq<OutboxRow> {
    if n <= |rows| then rows[n..] else []
  }

  lemma {:induction false} PickTakes(rows: seq<OutboxRow>, batch: nat, now: int, timeout: int)
    requires AllEligible(rows, now, timeout)
    ensures Pick(rows, batch, now, timeout, {}) == Take(Unpublished(rows), batch)
  {
    if rows != [] && batch > 0 {
      assert rows[0] in rows;
      assert forall r :: r in rows[1..] ==> r in rows;
      if rows[0].publishedAt.None? {
        PickTakes(rows[1..], batch - 1, now, timeout);
      } else {
        PickTakes(rows[1..], batch, now, timeout);
      }
    }
  }

  function Marked(rows: seq<OutboxRow>, ids: set<nat>, t: Instant): seq<OutboxRow> {
    Mark(Stamp(rows, ids, t.claimAt), ids, t.markAt)
  }

  lemma MarkedHead(rows: seq<OutboxRow>, ids: set<nat>, t: Instant)
    requires rows != []
    ensures var marked := Marked(rows, ids, t);
      && marked != [] && marked[1..] == Marked(rows[1..], ids, t)
      && (marked[0].publishedAt.None? <==> rows[0].publishedAt.None? && rows[0].id !in ids)
      && (rows[0].id !in ids ==> marked[0] == rows[0])
  {
    assert Marked(rows, ids, t)[1..] == Marked(rows[1..], ids, t);
  }

  /** The ids are those of the first n unpublished rows. */
  ghost predicate Names(rows: seq<OutboxRow>, n: nat, ids: set<nat>) {
    forall r :: r in rows && r.publishedAt.None? ==> (r.id in ids <==> r in Take(Unpublished(rows), n))
  }

  lemma NamesAfterPublished(rows: seq<OutboxRow>, n: nat, ids: set<nat>)
    requires rows != [] && rows[0].publishedAt.Some? && Names(rows, n, ids)
    ensures Names(rows[1..], n, ids) && Unpublished(rows) == Unpublished(rows[1..])
  {
    hide Take;
    assert forall r :: r in rows[1..] ==> r in rows;
  }

  lemma NamesAfterClaimed(rows: seq<OutboxRow>, n: nat, ids: set<nat>)
    requires Ordered(rows) && rows != [] && rows[0].publishedAt.None? && n > 0 && Names(rows, n, ids)
    ensures rows[0].id in ids && Names(rows[1..], n - 1, ids)
    ensures Unpublished(rows) == [rows[0]] + Unpublished(rows[1..])
  {
    OrderedTail(rows);
    var rest := Take(Unpublished(rows[1..]), n - 1);
    assert Take(Unpublished(rows), n) == [rows[0]] + rest;
    assert rows[0] in rows && rows[0] in [rows[0]] + rest;
    assert forall r :: r in rows[1..] ==> r in rows;
  }

  lemma NamesAfterSkipped(rows: seq<OutboxRow>, ids: set<nat>)
    requires rows != [] && rows[0].publishedAt.None? && Names(rows, 0, ids)
    ensures rows[0].id !in ids && Names(rows[1..], 0, ids)
    ensures Unpublished(rows) == [rows[0]] + Unpublished(rows[1..])
  {
    assert rows[0] in rows && Take(Unpublished(rows), 0) == [] && Take(Unpublished(rows[1..]), 0) == [];
    assert forall r :: r in rows[1..] ==> r in rows;
  }

  /** Publishing the first n unpublished rows leaves exactly the others unpublished. */
  lemma {:induction false} MarkDrops(rows: seq<OutboxRow>, n: nat, ids: set<nat>, t: Instant)
    requires Ordered(rows) && Names(rows, n, ids)
    ensures Unpublished(Marked(rows, ids, t)) == Drop(Unpublished(rows), n)
  {
    hide Marked, Names, Ordered;
    if rows == [] {
      assert Marked(rows, ids, t) == [] by { NothingMarked(ids, t); }
    } else {
      MarkedHead(rows, ids, t);
      OrderedTail(rows);
      if rows[0].publishedAt.Some? {
        NamesAfterPublished(rows, n, ids);
        MarkDrops(rows[1..], n, ids, t);
      } else if n > 0 {
        NamesAfterClaimed(rows, n, ids);
        MarkDrops(rows[1..], n - 1, ids, t);
      } else {
        NamesAfterSkipped(rows, ids);
        MarkDrops(rows[1..], 0, ids, t);
      }
    }
  }

  lemma NothingMarked(ids: set<nat>, t: Instant)
    ensures Marked([], ids, t) == []
  {
  }

  lemma {:induction false} UnpublishedMembers(rows: seq<OutboxRow>)
    ensures forall r :: r in Unpublished(rows) <==> r in rows && r.publishedAt.None?
  {
    if rows != [] {
      UnpublishedMembers(rows[1..]);
      assert forall r :: r in rows <==> r == rows[0] || r in rows[1..];
    }
  }

  lemma CycleDrains(rows: seq<OutboxRow>, batch: nat, t: Instant, timeout: int)
    requires Ordered(rows) && AllEligible(rows, t.claimAt, timeout)
    ensures var (next, sent) := Cycle(rows, batch, t, timeout);
      && sent == Take(Unpublished(rows), batch)
      && Unpublished(next) == Drop(Unpublished(rows), batch)
      && Ordered(next)
      && (forall r :: r in next && r.publishedAt.None? ==> r in rows)
  {
    PickTakes(rows, batch, t.claimAt, timeout);
    var picked := Pick(rows, batch, t.claimAt, timeout, {});
    UnpublishedMembers(rows);
    forall r | r in rows && r.publishedAt.None?
      ensures r.id in IdsOf(picked) <==> r in picked
    {
      if r.id in IdsOf(picked) {
        var p :| p in picked && p.id == r.id;
        assert p in Unpublished(rows) && p in rows;
        var i :| 0 <= i < |rows| && rows[i] == r;
        var j :| 0 <= j < |rows| && rows[j] == p;
        assert i == j;
      }
    }
    MarkDrops(rows, batch, IdsOf(picked), t);
  }

  /** k cycles publish the first k * batch unpublished rows, each once and in id order. */
  lemma {:induction false} CyclesDrain(rows: seq<OutboxRow>, batch: nat, times: seq<Instant>, timeout: int, start: int)
    requires Ordered(rows) && AllEligible(rows, start, timeout)
    requires forall i :: 0 <= i < |times| ==> start <= times[i].claimAt
    ensures var (last, sent) := Cycles(rows, batch, times, timeout);
      && sent == Take(Unpublished(rows), |times| * batch)
      && Unpublished(last) == Drop(Unpublished(rows), |times| * batch)
    decreases |times|
  {
    var u := Unpublished(rows);
    if times == [] {
      assert Take(u, 0) == [] && Drop(u, 0) == u;
    } else {
      CycleDrains(rows, batch, times[0], timeout);
      var (next, sent) := Cycle(rows, batch, times[0], timeout);
      CyclesDrain(next, batch, times[1..], timeout, start);
      var k := (|times| - 1) * batch;
      assert |times| * batch == batch + k;
      TakeSplits(u, batch, k);
    }
  }

  lemma TakeSplits(u: seq<OutboxRow>, a: nat, b: nat)
    ensures Take(u, a) + Take(Drop(u, a), b) == Take(u, a + b)
    ensures Drop(Drop(u, a), b) == Drop(u, a + b)
  {
  }

  /** A lone relay in which nothing fails drains n rows in ceil(n / batch) cycles, and
      publishes each of them exactly once; one cycle fewer leaves a row behind. */
  lemma DrainBound(rows: seq<OutboxRow>, batch: nat, times: seq<Instant>, timeout: int, start: int)
    requires Ordered(rows) && AllEligible(rows, start, timeout) && batch > 0
    requires forall i :: 0 <= i < |times| ==> start <= times[i].claimAt
    ensures var (last, sent) := Cycles(rows, batch, times, timeout);
      && (|times| >= (|Unpublished(rows)| + batch - 1) / batch ==>
            Unpublished(last) == [] && sent == Unpublished(rows))
      && (|times| < (|Unpublished(rows)| + batch - 1) / batch ==> Unpublished(last) != [])
  {
    CyclesDrain(rows, batch, times, timeout, start);
    CeilingBound(|Unpublished(rows)|, batch, |times|);
  }

  // ---------------------------------------------------------------- claims still in force

  /** How many unpublished rows carry one of these ids. */
  function Named(rows: seq<OutboxRow>, ids: set<nat>): nat {
    if rows == [] then 0
    else Named(rows[1..], ids) + if rows[0].publishedAt.None? && rows[0].id in ids then 1 else 0
  }

  lemma {:induction false} MarkedLeaves(rows: seq<OutboxRow>, ids: set<nat>, t: Instant)
    ensures |Unpublished(Marked(rows, ids, t))| == |Unpublished(rows)| - Named(rows, ids)
  {
    hide Marked;
    if rows == [] {
      NothingMarked(ids, t);
    } else {
      MarkedHead(rows, ids, t);
      MarkedLeaves(rows[1..], ids, t);
    }
  }

  lemma {:induction false} NamedIgnores(rows: seq<OutboxRow>, ids: set<nat>, id: nat)
    requires forall r :: r in rows ==> r.id != id
    ensures Named(rows, ids + {id}) == Named(rows, ids)
  {
    if rows != [] {
      assert rows[0] in rows;
      assert forall r :: r in rows[1..] ==> r in rows;
      NamedIgnores(rows[1..], ids, id);
    }
  }

  /** A claim names exactly as many unpublished rows as it takes. */
  lemma {:induction false} PickNames(rows: seq<OutboxRow>, limit: nat, now: int, timeout: int)
    requires Ordered(rows)
    ensures Named(rows, IdsOf(Pick(rows, limit, now, timeout, {}))) == |Pick(rows, limit, now, timeout, {})|
  {
    hide ClaimExpired;
    var picked := Pick(rows, limit, now, timeout, {});
    if picked == [] {
      NoneNamed(rows);
      assert IdsOf(picked) == {};
    } else {
      OrderedTail(rows);
      var rest := rows[1..];
      if Eligible(rows[0], now, timeout) {
        var tail := Pick(rest, limit - 1, now, timeout, {});
        PickNames(rest, limit - 1, now, timeout);
        assert forall r :: r in [rows[0]] + tail <==> r == rows[0] || r in tail;
        assert IdsOf(picked) == IdsOf(tail) + {rows[0].id};
        NamedIgnores(rest, IdsOf(tail), rows[0].id);
      } else {
        PickNames(rest, limit, now, timeout);
        PickMembers(rest, limit, now, timeout, {});
      }
    }
  }

  lemma {:induction false} NoneNamed(rows: seq<OutboxRow>)
    ensures Named(rows, {}) == 0
  {
    if rows != [] {
      NoneNamed(rows[1..]);
    }
  }

  /** Every row with one of these ids was published. */
  ghost predicate Done(rows: seq<OutboxRow>, ids: set<nat>) {
    forall r :: r in rows && r.id in ids ==> r.publishedAt.Some?
  }

  /** Every row with one of these ids was published, or can be claimed from this time on. */
  ghost predicate Claimable(rows: seq<OutboxRow>, ids: set<nat>, start: int, timeout: int) {
    forall r :: r in rows && r.id in ids ==> r.publishedAt.Some? || ClaimExpired(r, start, timeout)
  }

  /** A row after a cycle is a row before it: picked and published, or untouched. */
  lemma RowAfterCycle(rows: seq<OutboxRow>, batch: nat, t: Instant, timeout: int, r: OutboxRow)
    requires Ordered(rows) && r in Cycle(rows, batch, t, timeout).0
    ensures var picked := Pick(rows, batch, t.claimAt, timeout, {});
      if r.id in IdsOf(picked) then r.publishedAt.Some? else r in rows
  {
    hide Pick;
    var next := Cycle(rows, batch, t, timeout).0;
    var i :| 0 <= i < |next| && next[i] == r;
    assert rows[i] in rows;
  }

  lemma CycleKeepsOrder(rows: seq<OutboxRow>, batch: nat, t: Instant, timeout: int)
    requires Ordered(rows)
    ensures Ordered(Cycle(rows, batch, t, timeout).0)
  {
    hide Pick;
  }

  /** A claim below its limit took every eligible row. */
  lemma ShortPickTakesAll(rows: seq<OutboxRow>, limit: nat, now: int, timeout: int)
    requires Ordered(rows)
    ensures var picked := Pick(rows, limit, now, timeout, {});
      && |picked| <= limit
      && (|picked| < limit ==> forall r :: r in rows && Eligible(r, now, timeout) ==> r.id in IdsOf(picked))
  {
    hide Pick, Eligible;
    PickIsFirst(rows, limit, now, timeout, {});
  }

  /** One cycle publishes a full batch, or every row of a claimable set. */
  lemma CycleTakes(rows: seq<OutboxRow>, batch: nat, t: Instant, timeout: int, ids: set<nat>, start: int)
    requires Ordered(rows) && Claimable(rows, ids, start, timeout) && start <= t.claimAt
    ensures var next := Cycle(rows, batch, t, timeout).0;
      && Claimable(next, ids, start, timeout) && (Done(rows, ids) ==> Done(next, ids))
      && (|Unpublished(next)| == |Unpublished(rows)| - batch || Done(next, ids))
  {
    hide Pick, Marked, Unpublished, Ordered;
    var picked := Pick(rows, batch, t.claimAt, timeout, {});
    var next := Cycle(rows, batch, t, timeout).0;
    ShortPickTakesAll(rows, batch, t.claimAt, timeout);
    PickNames(rows, batch, t.claimAt, timeout);
    MarkedLeaves(rows, IdsOf(picked), t);
    forall r | r in next && r.id in ids
      ensures r.publishedAt.Some? || (r in rows && ClaimExpired(r, start, timeout))
      ensures |picked| < batch ==> r.publishedAt.Some?
    {
      RowAfterCycle(rows, batch, t, timeout, r);
    }
  }

  /** With other relays' claims still in force: k cycles, where k batches are as many rows as are
      unpublished at all, publish every row that could be claimed from the start. */
  lemma {:induction false} ClaimableDrain(rows: seq<OutboxRow>, batch: nat, times: seq<Instant>, timeout: int,
                                          start: int, ids: set<nat>)
    requires Ordered(rows) && Claimable(rows, ids, start, timeout)
    requires forall i :: 0 <= i < |times| ==> start <= times[i].claimAt
    requires Done(rows, ids) || |times| * batch >= |Unpublished(rows)|
    ensures Done(Cycles(rows, batch, times, timeout).0, ids)
    decreases |times|
  {
    hide Cycle, Unpublished, Ordered, Claimable, Done;
    if times == [] {
      if !Done(rows, ids) {
        NoneUnpublished(rows, ids);
      }
    } else {
      CycleTakes(rows, batch, times[0], timeout, ids, start);
      CycleKeepsOrder(rows, batch, times[0], timeout);
      var next := Cycle(rows, batch, times[0], timeout).0;
      assert |times| * batch == (|times| - 1) * batch + batch;
      ClaimableDrain(next, batch, times[1..], timeout, start, ids);
    }
  }

  lemma NoneUnpublished(rows: seq<OutboxRow>, ids: set<nat>)
    requires |Unpublished(rows)| == 0
    ensures Done(rows, ids)
  {
    UnpublishedMembers(rows);
  }

  lemma CeilingBound(n: nat, batch: nat, k: nat)
    requires batch > 0
    ensures k >= (n + batch - 1) / batch <==> k * batch >= n
  {
    var c := (n + batch - 1) / batch;
    assert c * batch <= n + batch - 1 < (c + 1) * batch;
    if k >= c {
      assert k * batch >= c * batch;
    } else {
      assert k * batch <= (c - 1) * batch;
    }
  }
}
