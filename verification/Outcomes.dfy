/** What a whole run can have done to one order: correlation, replay, bounds, endings and
    compensation, for every reachable world. */
module Outcomes {
  import opened Domain
  import opened Topics
  import opened StateMachine
  import opened SagaSteps
  import opened History
  import opened Tables
  import opened Handlers
  import opened Protocol
  import opened Guarantees

  // ---------------------------------------------------------------- correlation

  /** Whatever the journal shows as a cause is the only cause it can show, and a command is
      never answered twice: the unique key of the journal decides both. */
  lemma CauseIsUnique(journal: seq<JournalEntry>, c1: Event, r1: Event, c2: Event, r2: Event)
    requires KeysDistinct(journal)
    requires CausedBy(journal, c1, r1) && CausedBy(journal, c2, r2)
    ensures r1 == r2 <==> c1 == c2
  {
    var k1: nat, a1 :| BlockAt(journal, k1, c1, a1, r1);
    var k2: nat, a2 :| BlockAt(journal, k2, c2, a2, r2);
    BlockEntries(journal, k1, c1, a1, r1);
    BlockEntries(journal, k2, c2, a2, r2);
    if r1 == r2 {
      assert SameKey(journal[k1 + 3], journal[k2 + 3]);
      assert k1 == k2;
    }
    if c1 == c2 {
      assert SameKey(journal[k1], journal[k2]);
      assert k1 == k2;
      assert r1 == journal[k1 + 3].payload == r2;
    }
  }

  lemma BlockEntries(journal: seq<JournalEntry>, k: nat, c: Event, answer: GatewayAnswer, r: Event)
    requires BlockAt(journal, k, c, answer, r)
    ensures var component := ConsumerOf(c.kind).value;
      && journal[k] == WorkerEntry(component, c, In, None, None)
      && journal[k + 3] == WorkerEntry(component, r, Out, None, None)
      && r.kind == ResultKind(c.kind) && r.order == c.order
  {
  }

  /** Results carry no command id, yet every result the orchestrator ever accepted answers
      the command it had sent just before, and no other: no stale result is credited to a
      later attempt or stage. */
  lemma ResultsAnswerTheLastCommand(w: World, order: OrderId, i: nat, maxRetries: int)
    requires Reachable(w, maxRetries)
    requires 0 < i < |Consumed(OrderJournal(w.journal, order))|
    ensures var f := OrderJournal(w.journal, order);
      && |f| == 2 * |Consumed(f)|
      && IsResult(Consumed(f)[i].kind)
      && CausedBy(w.journal, f[2 * i - 1].payload, Consumed(f)[i])
      && forall c :: CausedBy(w.journal, c, Consumed(f)[i]) ==> c == f[2 * i - 1].payload
  {
    hide OrderOk, Ledger, Accepted, CausedBy, Ids, Origins, KeysDistinct, OrderJournal, Replay;
    InvAt(w, order, maxRetries);
    var f := OrderJournal(w.journal, order);
    LedgerOf(w, order, maxRetries);
    LedgerAccepted(f, maxRetries);
    CommittedRows(Consumed(f), maxRetries);
    LedgerShape(f, i, maxRetries);
    ChainAt(w, order, 2 * i, maxRetries);
    KeysOf(w);
    OnlyCause(w.journal, f[2 * i - 1].payload, Consumed(f)[i]);
  }

  lemma OnlyCause(journal: seq<JournalEntry>, command: Event, result: Event)
    requires KeysDistinct(journal) && CausedBy(journal, command, result)
    ensures forall c :: CausedBy(journal, c, result) ==> c == command
  {
    hide CausedBy, KeysDistinct;
    forall c | CausedBy(journal, c, result)
      ensures c == command
    {
      CauseIsUnique(journal, c, result, command, result);
    }
  }

  lemma ChainAt(w: World, order: OrderId, k: nat, maxRetries: int)
    requires OrderOk(w, order, maxRetries) && 1 < k < |OrderJournal(w.journal, order)| && k % 2 == 0
    ensures CausedBy(w.journal, OrderJournal(w.journal, order)[k - 1].payload,
                     OrderJournal(w.journal, order)[k].payload)
  {
  }

  lemma KeysOf(w: World)
    requires Ids(w)
    ensures KeysDistinct(w.journal)
  {
  }

  lemma LedgerOf(w: World, order: OrderId, maxRetries: int)
    requires OrderOk(w, order, maxRetries)
    ensures Ledger(OrderJournal(w.journal, order), maxRetries)
  {
  }

  /** The same for a result that is still on its way: it answers the command sent last. */
  lemma PendingResultAnswersTheLastCommand(w: World, e: Event, maxRetries: int)
    requires Reachable(w, maxRetries)
    requires e in w.sent && IsResult(e.kind) && Undelivered(w.journal, e)
    ensures var f := OrderJournal(w.journal, e.order);
      f != [] && forall c :: CausedBy(w.journal, c, e) <==> c == f[|f| - 1].payload
  {
    hide BlockAt, CausedBy, Undelivered, OrderOk, Ids, Origins, KeysDistinct, OrderJournal;
    InvAt(w, e.order, maxRetries);
    KeysOf(w);
    LiveResult(w, e, maxRetries);
    var f := OrderJournal(w.journal, e.order);
    forall c | CausedBy(w.journal, c, e)
      ensures c == f[|f| - 1].payload
    {
      CauseIsUnique(w.journal, c, e, f[|f| - 1].payload, e);
    }
  }

  // ---------------------------------------------------------------- journal

  /** The committed saga row is the fold of the pure step over the order's consumed events,
      and the journal is a strict alternation: as many IN as OUT entries, the i-th OUT being
      what the pure step sends for the i-th IN. */
  lemma JournalReplays(w: World, order: OrderId, maxRetries: int)
    requires Reachable(w, maxRetries)
    ensures var f := OrderJournal(w.journal, order);
      var es := Consumed(f);
      && Replay(es, maxRetries) == (if order in w.sagas then Some(w.sagas[order]) else None)
      && |f| == 2 * |es|
      && forall i :: 0 <= i < |es| ==>
           f[2 * i].direction == In && f[2 * i].payload == es[i] && f[2 * i + 1].direction == Out
           && Decide(Replay(es[..i], maxRetries), es[i], f[2 * i + 1].payload.id, maxRetries).Ok?
           && Decide(Replay(es[..i], maxRetries), es[i], f[2 * i + 1].payload.id, maxRetries).value.out
             == f[2 * i + 1].payload
  {
    hide Decide, Accepted, TokenOk;
    InvAt(w, order, maxRetries);
    var f := OrderJournal(w.journal, order);
    LedgerIsEven(f, maxRetries);
    forall i | 0 <= i < |Consumed(f)|
      ensures f[2 * i].direction == In && f[2 * i].payload == Consumed(f)[i] && f[2 * i + 1].direction == Out
      ensures Decide(Replay(Consumed(f)[..i], maxRetries), Consumed(f)[i], f[2 * i + 1].payload.id, maxRetries).Ok?
      ensures Decide(Replay(Consumed(f)[..i], maxRetries), Consumed(f)[i], f[2 * i + 1].payload.id,
                     maxRetries).value.out
           == f[2 * i + 1].payload
    {
      LedgerShape(f, i, maxRetries);
      LedgerAt(f, i, maxRetries);
    }
  }

  ghost predicate InBlock(journal: seq<JournalEntry>, k: nat) {
    exists start: nat, c, answer, r :: start <= k < start + 4 && BlockAt(journal, start, c, answer, r)
  }

  ghost predicate Blocked(journal: seq<JournalEntry>) {
    forall k :: 0 <= k < |journal| && IsWorker(journal[k].component) ==> InBlock(journal, k)
  }

  lemma InBlockGrows(journal: seq<JournalEntry>, entries: seq<JournalEntry>, k: nat)
    requires InBlock(journal, k)
    ensures InBlock(journal + entries, k)
  {
    var start: nat, c, answer, r :| start <= k < start + 4 && BlockAt(journal, start, c, answer, r);
    assert (journal + entries)[start..start + 4] == journal[start..start + 4];
    assert BlockAt(journal + entries, start, c, answer, r);
  }

  lemma StepKeepsBlocks(w: World, a: Action, maxRetries: int)
    requires Blocked(w.journal) && Enabled(w, a)
    ensures Blocked(Next(w, a, maxRetries).journal)
  {
    var r := Outcome(w, a, maxRetries);
    if r.Ok? && r.value.Commit? {
      var entries := r.value.entries;
      var all := w.journal + entries;
      forall k | 0 <= k < |all| && IsWorker(all[k].component)
        ensures InBlock(all, k)
      {
        if k < |w.journal| {
          InBlockGrows(w.journal, entries, k);
        } else {
          assert a.Work?;
          assert all[|w.journal|..|w.journal| + 4] == entries;
          assert BlockAt(all, |w.journal|, a.e, a.answer, r.value.out);
        }
      }
    }
  }

  /** Every entry a worker ever journaled lies in a block of four adjacent entries: the
      command, the gateway request, the gateway response, and the result sent. */
  lemma {:induction false} WorkersWriteWholeBlocks(actions: seq<Action>, maxRetries: int)
    requires Possible(actions, maxRetries)
    ensures Blocked(Run(START, actions, maxRetries).journal)
  {
    if actions != [] {
      var before := actions[..|actions| - 1];
      WorkersWriteWholeBlocks(before, maxRetries);
      StepKeepsBlocks(Run(START, before, maxRetries), actions[|actions| - 1], maxRetries);
    }
  }

  // ---------------------------------------------------------------- bounds

  /** Every committed row, in every reachable world. */
  lemma RowsAreOk(w: World, order: OrderId, maxRetries: int)
    requires Reachable(w, maxRetries) && order in w.sagas
    ensures RowOk(w.sagas[order], maxRetries)
  {
    hide RowOk;
    InvAt(w, order, maxRetries);
    LastCommand(OrderJournal(w.journal, order), maxRetries);
  }

  /** What a committed row remembers, in every reachable world: how many results asked for a
      retry since the order entered its status, and the status before. */
  lemma RowsRemember(w: World, order: OrderId, maxRetries: int)
    requires Reachable(w, maxRetries) && order in w.sagas
    ensures var es := Consumed(OrderJournal(w.journal, order));
      && w.sagas[order].retryCount == RetriesSince(es, maxRetries)
      && w.sagas[order].previous
         == if w.sagas[order].current.Completed? then Notified else StatusBefore(es, maxRetries)
  {
    hide OrderOk, RetriesSince, StatusBefore, Replay, Accepted, Consumed, OrderJournal;
    InvAt(w, order, maxRetries);
    HistoryOf(w, order, maxRetries);
    RowRemembers(Consumed(OrderJournal(w.journal, order)), maxRetries);
  }

  ghost function SentFor(w: World, order: OrderId): set<Event> {
    set e | e in w.sent && e.order == order && (IsCommand(e.kind) || IsTerminalEvent(e.kind))
  }

  function Elements<T(==)>(s: seq<T>): set<T> {
    set x | x in s
  }

  lemma SentIsInLedger(w: World, order: OrderId, outs: seq<Event>, e: Event, maxRetries: int)
    requires Ids(w) && Origins(w) && OrderOk(w, order, maxRetries) && e in SentFor(w, order)
    requires |outs| == |Consumed(OrderJournal(w.journal, order))|
    requires |OrderJournal(w.journal, order)| == 2 * |outs|
    requires forall i :: 0 <= i < |outs| ==> outs[i] == OrderJournal(w.journal, order)[2 * i + 1].payload
    ensures e in outs
  {
    hide OrderOk, Ids, Consumed, OrderJournal;
    assert Explained(w, e);
    var i := SentMeansLedger(w, e, maxRetries);
    assert outs[i] == e;
  }

  lemma {:induction false} DistinctElements<T>(s: seq<T>)
    requires forall i, j :: 0 <= i < j < |s| ==> s[i] != s[j]
    ensures |Elements(s)| == |s|
  {
    if s != [] {
      var shorter := s[..|s| - 1];
      DistinctElements(shorter);
      assert Elements(s) == Elements(shorter) + {s[|s| - 1]};
      assert s[|s| - 1] !in shorter;
    }
  }

  /** One order's part of the journal keeps the unique key. */
  lemma {:induction false} OrderJournalKeys(journal: seq<JournalEntry>, order: OrderId)
    requires KeysDistinct(journal)
    ensures KeysDistinct(OrderJournal(journal, order))
    decreases |journal|
  {
    if journal != [] {
      var shorter, last := journal[..|journal| - 1], journal[|journal| - 1];
      OrderJournalKeys(shorter, order);
      forall x | x in OrderJournal(shorter, order)
        ensures !SameKey(x, last)
      {
        OrderJournalMembers(shorter, order, x);
      }
    }
  }

  /** The events an order's ledger sends are different events. */
  lemma OutsDiffer(w: World, order: OrderId, i: nat, j: nat, maxRetries: int)
    requires Ids(w) && OrderOk(w, order, maxRetries)
    requires i < j < |Consumed(OrderJournal(w.journal, order))|
    ensures |OrderJournal(w.journal, order)| == 2 * |Consumed(OrderJournal(w.journal, order))|
    ensures OrderJournal(w.journal, order)[2 * i + 1].payload != OrderJournal(w.journal, order)[2 * j + 1].payload
  {
    hide Ledger, Consumed, OrderJournal, Chained, TokenOk, Replay;
    var f := OrderJournal(w.journal, order);
    LedgerShape(f, i, maxRetries);
    LedgerShape(f, j, maxRetries);
    OrderJournalKeys(w.journal, order);
    OrderJournalMembers(w.journal, order, f[2 * i + 1]);
    OrderJournalMembers(w.journal, order, f[2 * j + 1]);
    assert !SameKey(f[2 * i + 1], f[2 * j + 1]);
  }

  lemma OutIsSentFor(w: World, order: OrderId, i: nat, maxRetries: int)
    requires Ids(w) && OrderOk(w, order, maxRetries) && i < |Consumed(OrderJournal(w.journal, order))|
    ensures |OrderJournal(w.journal, order)| == 2 * |Consumed(OrderJournal(w.journal, order))|
    ensures OrderJournal(w.journal, order)[2 * i + 1].payload in SentFor(w, order)
  {
    hide Ledger, Consumed, OrderJournal, Chained, TokenOk, Replay;
    var f := OrderJournal(w.journal, order);
    LedgerShape(f, i, maxRetries);
    OrderJournalMembers(w.journal, order, f[2 * i + 1]);
  }

  /** Every run ends: an order accepts at most 3(M+1) results besides its announcement, and the
      orchestrator sends exactly one event for each, however often messages are redelivered. */
  lemma EveryOrderEnds(w: World, order: OrderId, maxRetries: int)
    requires Reachable(w, maxRetries)
    ensures |Consumed(OrderJournal(w.journal, order))| <= 3 * (Limit(maxRetries) + 1) + 1
    ensures |SentFor(w, order)| == |Consumed(OrderJournal(w.journal, order))|
  {
    hide OrderOk, Ids, Origins, SentFor, Consumed, OrderJournal, Limit;
    InvAt(w, order, maxRetries);
    ConsumedBound(w, order, maxRetries);
    SentAreOuts(w, order, maxRetries);
    OutsAreDistinct(w, order, maxRetries);
  }

  /** The events an order's ledger sends, in its order. */
  ghost function OutsOf(f: seq<JournalEntry>): seq<Event> {
    seq(|f| / 2, i requires 0 <= i < |f| / 2 => f[2 * i + 1].payload)
  }

  lemma SentAreOuts(w: World, order: OrderId, maxRetries: int)
    requires Ids(w) && Origins(w) && OrderOk(w, order, maxRetries)
    requires |OrderJournal(w.journal, order)| == 2 * |Consumed(OrderJournal(w.journal, order))|
    ensures SentFor(w, order) == Elements(OutsOf(OrderJournal(w.journal, order)))
  {
    hide OrderOk, Ids, Origins, SentFor, Consumed, OrderJournal;
    var outs := OutsOf(OrderJournal(w.journal, order));
    forall e | e in SentFor(w, order)
      ensures e in outs
    {
      SentIsInLedger(w, order, outs, e, maxRetries);
    }
    forall e | e in outs
      ensures e in SentFor(w, order)
    {
      var i :| 0 <= i < |outs| && outs[i] == e;
      OutIsSentFor(w, order, i, maxRetries);
    }
  }

  lemma OutsAreDistinct(w: World, order: OrderId, maxRetries: int)
    requires Ids(w) && OrderOk(w, order, maxRetries)
    requires |OrderJournal(w.journal, order)| == 2 * |Consumed(OrderJournal(w.journal, order))|
    ensures |Elements(OutsOf(OrderJournal(w.journal, order)))| == |Consumed(OrderJournal(w.journal, order))|
  {
    hide OrderOk, Ids, Consumed, OrderJournal, Elements;
    var outs := OutsOf(OrderJournal(w.journal, order));
    forall i, j | 0 <= i < j < |outs|
      ensures outs[i] != outs[j]
    {
      OutsDiffer(w, order, i, j, maxRetries);
    }
    DistinctElements(outs);
  }

  lemma ConsumedBound(w: World, order: OrderId, maxRetries: int)
    requires OrderOk(w, order, maxRetries)
    ensures var f := OrderJournal(w.journal, order);
      |f| == 2 * |Consumed(f)| && |Consumed(f)| <= 3 * (Limit(maxRetries) + 1) + 1
  {
    hide OrderOk, Replay, Accepted, Ledger, Consumed, OrderJournal;
    var f := OrderJournal(w.journal, order);
    LedgerOf(w, order, maxRetries);
    LedgerIsEven(f, maxRetries);
    LedgerAccepted(f, maxRetries);
    if Consumed(f) != [] {
      HistoryIsBounded(Consumed(f), maxRetries);
    }
  }

  // ---------------------------------------------------------------- endings

  ghost function Endings(w: World, order: OrderId): set<Event> {
    set e | e in w.sent && e.order == order && IsTerminalEvent(e.kind)
  }

  lemma EndingIsLast(w: World, e: Event, maxRetries: int)
    requires Ids(w) && Origins(w) && OrderOk(w, e.order, maxRetries)
    requires e in w.sent && IsTerminalEvent(e.kind)
    ensures e.order in w.sagas && IsTerminal(w.sagas[e.order].current)
    ensures var f := OrderJournal(w.journal, e.order); f != [] && e == f[|f| - 1].payload
    ensures e.kind == (if w.sagas[e.order].current.Completed? then OrderCompleted else OrderFailed)
  {
    hide Decide, Accepted, Replay, CanTransitionTo, Ledger, OrderOk, Ids, Explained, Consumed, OrderJournal;
    var f := OrderJournal(w.journal, e.order);
    var es := Consumed(f);
    assert Explained(w, e);
    HistoryOf(w, e.order, maxRetries);
    LedgerOf(w, e.order, maxRetries);
    var i := SentMeansLedger(w, e, maxRetries);
    SentAt(f, i, maxRetries);
    StagesAreMonotone(es, i + 1, |es|, maxRetries);
  }

  /** A saga is COMPLETED exactly when one ORDER_COMPLETED and no ORDER_FAILED was ever sent
      for its order, FAILED exactly when one ORDER_FAILED and no ORDER_COMPLETED was, and
      nothing was sent while it runs. */
  lemma ExactlyOneEnding(w: World, order: OrderId, maxRetries: int)
    requires Reachable(w, maxRetries)
    ensures Endings(w, order) == {} <==> order !in w.sagas || !IsTerminal(w.sagas[order].current)
    ensures order in w.sagas && w.sagas[order].current == Completed <==>
      exists t :: Endings(w, order) == {t} && t.kind.OrderCompleted?
    ensures order in w.sagas && w.sagas[order].current == Failed <==>
      exists t :: Endings(w, order) == {t} && t.kind.OrderFailed?
  {
    hide Decide, Replay, Accepted, CanTransitionTo, Chained, TokenOk;
    InvAt(w, order, maxRetries);
    var f := OrderJournal(w.journal, order);
    forall e | e in Endings(w, order)
      ensures order in w.sagas && IsTerminal(w.sagas[order].current) && f != [] && e == f[|f| - 1].payload
    {
      EndingIsLast(w, e, maxRetries);
    }
    if order in w.sagas && IsTerminal(w.sagas[order].current) {
      LastCommand(f, maxRetries);
      var t := f[|f| - 1].payload;
      OrderJournalMembers(w.journal, order, f[|f| - 1]);
      assert t in w.sent;
      assert Endings(w, order) == {t};
    }
  }

  /** A finished saga never changes again, and its ending stays the only one, whatever is
      delivered later. */
  lemma FinishedStays(w: World, a: Action, order: OrderId, maxRetries: int)
    requires Reachable(w, maxRetries) && Enabled(w, a)
    requires order in w.sagas && IsTerminal(w.sagas[order].current)
    ensures order in Next(w, a, maxRetries).sagas && Next(w, a, maxRetries).sagas[order] == w.sagas[order]
    ensures Endings(Next(w, a, maxRetries), order) == Endings(w, order)
  {
    hide Decide, Replay, Accepted, CanTransitionTo, Chained, Ledger, RowOk, OnResult, WorkerBlock;
    InvAt(w, order, maxRetries);
    if a.Orchestrate? {
      if a.e.order == order {
        if IsResult(a.e.kind) && !Has(w.journal, a.e.id, Orchestrator) {
          LiveResult(w, a.e, maxRetries);
        }
        assert Next(w, a, maxRetries) == w;
      } else {
        InvAt(w, a.e.order, maxRetries);
        OtherOrderUntouched(w, a.e, a.id, order, maxRetries);
      }
    }
  }

  lemma OtherOrderUntouched(w: World, e: Event, id: EventId, order: OrderId, maxRetries: int)
    requires Enabled(w, Orchestrate(e, id)) && OrderOk(w, e.order, maxRetries) && order != e.order && e.id in w.used
    ensures var w' := Next(w, Orchestrate(e, id), maxRetries);
      && (order in w'.sagas <==> order in w.sagas)
      && (order in w.sagas ==> w'.sagas[order] == w.sagas[order])
      && Endings(w', order) == Endings(w, order)
  {
    var r := OrchestratorEffect(w.sagas, w.journal, e, id, maxRetries);
    if r.Ok? && r.value.Commit? {
      var before, seenAs, m := WhatWasDecided(w, e, id, maxRetries);
      hide OrchestratorEffect, Decide, OrderOk;
      AcceptIsCoherent(w, e, m, before, maxRetries);
    }
  }

  // ---------------------------------------------------------------- compensation

  lemma HistoryOf(w: World, order: OrderId, maxRetries: int)
    requires OrderOk(w, order, maxRetries)
    ensures var es := Consumed(OrderJournal(w.journal, order));
      && Accepted(es, maxRetries)
      && es[..|es|] == es
      && (order in w.sagas <==> es != [])
      && Replay(es, maxRetries) == (if order in w.sagas then Some(w.sagas[order]) else None)
  {
  }

  /** At most one approved payment, and at most one completed refund, was ever sent for an
      order by its worker, whether the orchestrator has seen it yet or not. */
  lemma OnePaymentOneRefund(w: World, r1: Event, r2: Event, maxRetries: int)
    requires Reachable(w, maxRetries) && r1 in w.sent && r2 in w.sent && r1.order == r2.order
    requires (Approval(r1) && Approval(r2)) || (Refund(r1) && Refund(r2))
    ensures r1 == r2
  {
    hide OrderOk, Accepted, Replay, Undelivered, Ids;
    InvAt(w, r1.order, maxRetries);
    HistoryOf(w, r1.order, maxRetries);
    if Undelivered(w.journal, r1) || Undelivered(w.journal, r2) {
      if Undelivered(w.journal, r1) {
        LiveExcludesSeen(w, r2, r1, maxRetries);
      } else {
        LiveExcludesSeen(w, r1, r2, maxRetries);
      }
      LiveResult(w, r1, maxRetries);
      LiveResult(w, r2, maxRetries);
    } else {
      var es := Consumed(OrderJournal(w.journal, r1.order));
      SeenOrUndelivered(w, r1);
      SeenOrUndelivered(w, r2);
      var i := JournaledMeansConsumed(w, r1, maxRetries);
      var j := JournaledMeansConsumed(w, r2, maxRetries);
      if Approval(r1) {
        AtMostOneApproval(es, i, j, maxRetries);
      } else {
        RefundIsLast(es, i, maxRetries);
        RefundIsLast(es, j, maxRetries);
      }
    }
  }

  lemma SeenOrUndelivered(w: World, e: Event)
    requires IsResult(e.kind)
    ensures Undelivered(w.journal, e) <==> !Has(w.journal, e.id, Orchestrator)
  {
  }

  /** While an approval or a refund is on its way, no other was consumed. */
  lemma LiveExcludesSeen(w: World, seen: Event, live: Event, maxRetries: int)
    requires Ids(w) && OrderOk(w, live.order, maxRetries) && seen in w.sent && live in w.sent
    requires seen.order == live.order
    requires (Approval(seen) && Approval(live)) || (Refund(seen) && Refund(live))
    requires Undelivered(w.journal, live)
    ensures Undelivered(w.journal, seen)
  {
    hide OrderOk, Accepted, Replay, Ids;
    HistoryOf(w, live.order, maxRetries);
    LiveResult(w, live, maxRetries);
    if !Undelivered(w.journal, seen) {
      var es := Consumed(OrderJournal(w.journal, live.order));
      var i := JournaledMeansConsumed(w, seen, maxRetries);
      if Approval(seen) {
        ApprovalAt(es, i, maxRetries);
        StagesAreMonotone(es, i + 1, |es|, maxRetries);
      } else {
        RefundFails(es, i, maxRetries);
      }
      assert false;
    }
  }

  lemma RefundFails(es: seq<Event>, i: nat, maxRetries: int)
    requires Accepted(es, maxRetries) && i < |es| && Refund(es[i])
    ensures Replay(es, maxRetries).Some? && Replay(es, maxRetries).value.current.Failed?
  {
    hide Decide, OnResult;
    RefundIsLast(es, i, maxRetries);
    CommittedRows(es, maxRetries);
    AcceptedAt(es, i, maxRetries);
    ApprovalAdvances(Replay(es[..i], maxRetries).value, es[i], maxRetries);
    assert es[..|es|] == es;
  }

  /** Every refund command ever sent carries the non-empty transaction id of the approved
      payment of its own order, and its order never completes. */
  lemma RefundsMatchPayments(w: World, c: Event, maxRetries: int)
    requires Reachable(w, maxRetries) && c in w.sent && c.kind.PaymentCompensate?
    ensures c.tx != "" && exists r :: r in w.sent && Approval(r) && r.order == c.order && r.tx == c.tx
    ensures c.order in w.sagas
    ensures w.sagas[c.order].current.PaymentRefundPending? || w.sagas[c.order].current.Failed?
  {
    hide OrderOk, Accepted, Replay, Ids, Explained, Ledger, EnteredRefund, Approval, Consumed, OrderJournal;
    InvAt(w, c.order, maxRetries);
    var f := OrderJournal(w.journal, c.order);
    assert Explained(w, c);
    var i := SentMeansLedger(w, c, maxRetries);
    LedgerOf(w, c.order, maxRetries);
    var j := RefundInHistory(f, i, maxRetries);
    ConsumedWasSent(w, c.order, j, maxRetries);
    HistoryOf(w, c.order, maxRetries);
    RefundNeverCompletes(Consumed(f), maxRetries);
  }

  ghost predicate RefundAsked(w: World, order: OrderId) {
    exists c :: c in w.sent && c.kind.PaymentCompensate? && c.order == order
  }

  /** A refund command was sent for an order if and only if its saga entered the refund stage. */
  lemma RefundAskedMeansEntered(w: World, order: OrderId, maxRetries: int)
    requires Reachable(w, maxRetries)
    ensures RefundAsked(w, order) <==> EnteredRefund(Consumed(OrderJournal(w.journal, order)), maxRetries)
  {
    hide OrderOk, Replay, Ids, Explained, Ledger, Consumed, OrderJournal, RowOk;
    InvAt(w, order, maxRetries);
    var f := OrderJournal(w.journal, order);
    LedgerOf(w, order, maxRetries);
    LedgerIsEven(f, maxRetries);
    if RefundAsked(w, order) {
      hide EnteredRefund;
      var c :| c in w.sent && c.kind.PaymentCompensate? && c.order == order;
      assert Explained(w, c);
      var i := SentMeansLedger(w, c, maxRetries);
      var _ := RefundInHistory(f, i, maxRetries);
    }
    if EnteredRefund(Consumed(f), maxRetries) {
      hide RefundAsked;
      var k :| 0 < k <= |Consumed(f)| && Replay(Consumed(f)[..k], maxRetries).Some?
        && Replay(Consumed(f)[..k], maxRetries).value.current.PaymentRefundPending?;
      EnteredAt(w, order, k, maxRetries);
    }
  }

  lemma EnteredAt(w: World, order: OrderId, k: nat, maxRetries: int)
    requires Ids(w) && Ledger(OrderJournal(w.journal, order), maxRetries)
    requires var es := Consumed(OrderJournal(w.journal, order));
      0 < k <= |es| && Replay(es[..k], maxRetries).Some?
      && Replay(es[..k], maxRetries).value.current.PaymentRefundPending?
    ensures RefundAsked(w, order)
  {
    hide Replay, Ids, Ledger, Consumed, OrderJournal, RowOk;
    var f := OrderJournal(w.journal, order);
    SentAt(f, k - 1, maxRetries);
    var x := f[2 * (k - 1) + 1];
    OrderJournalMembers(w.journal, order, x);
    EntryWasSent(w, x);
    assert x.payload.kind.PaymentCompensate?;
  }

  lemma EntryWasSent(w: World, x: JournalEntry)
    requires Ids(w) && x in w.journal
    ensures x.payload in w.sent && x.payload.order == x.order
  {
  }

  /** Over every approved payment of a failed order: a refund was asked for if and only if the
      payment named a transaction and stock did not run out of retries. */
  lemma RefundAskedExactly(w: World, r: Event, maxRetries: int)
    requires Reachable(w, maxRetries) && r in w.sent && Approval(r)
    requires r.order in w.sagas && w.sagas[r.order].current.Failed?
    ensures RefundAsked(w, r.order)
       <==> r.tx != "" && !StockRetriesExhausted(Consumed(OrderJournal(w.journal, r.order)), maxRetries)
  {
    hide OrderOk, Accepted, Replay, Ids, Undelivered, EnteredRefund, StockRetriesExhausted, Consumed, OrderJournal;
    InvAt(w, r.order, maxRetries);
    HistoryOf(w, r.order, maxRetries);
    if Undelivered(w.journal, r) {
      LiveResult(w, r, maxRetries);
    }
    SeenOrUndelivered(w, r);
    var i := JournaledMeansConsumed(w, r, maxRetries);
    RefundedExactly(Consumed(OrderJournal(w.journal, r.order)), i, maxRetries);
    RefundAskedMeansEntered(w, r.order, maxRetries);
  }

  lemma RefundInHistory(f: seq<JournalEntry>, i: nat, maxRetries: int) returns (j: nat)
    requires Ledger(f, maxRetries) && i < |Consumed(f)| && |f| == 2 * |Consumed(f)|
    requires f[2 * i + 1].payload.kind.PaymentCompensate?
    ensures f[2 * i + 1].payload.tx != ""
    ensures j <= i && Approval(Consumed(f)[j]) && Consumed(f)[j].tx == f[2 * i + 1].payload.tx
    ensures EnteredRefund(Consumed(f), maxRetries)
  {
    hide Decide, Accepted, Replay, CanTransitionTo, Ledger;
    var es := Consumed(f);
    SentAt(f, i, maxRetries);
    var upTo := es[..i + 1];
    PrefixAccepted(es, i + 1, maxRetries);
    TransactionComesFromApproval(upTo, maxRetries);
    var k :| 0 <= k < |upTo| && Approval(upTo[k]) && upTo[k].tx == f[2 * i + 1].payload.tx;
    j := k;
  }

  lemma ConsumedWasSent(w: World, order: OrderId, i: nat, maxRetries: int)
    requires Ids(w) && OrderOk(w, order, maxRetries) && i < |Consumed(OrderJournal(w.journal, order))|
    ensures Consumed(OrderJournal(w.journal, order))[i] in w.sent
    ensures Consumed(OrderJournal(w.journal, order))[i].order == order
    ensures Has(w.journal, Consumed(OrderJournal(w.journal, order))[i].id, Orchestrator)
  {
    hide Accepted, Replay, Decide, Chained, TokenOk;
    var f := OrderJournal(w.journal, order);
    LedgerShape(f, i, maxRetries);
    OrderJournalMembers(w.journal, order, f[2 * i]);
  }

  /** All transaction ids that travel for an order agree: any non-empty one is the id in
      the saga row, or stands in the approval still on its way to a saga that has none. */
  lemma TransactionOf(w: World, e: Event, maxRetries: int)
    requires Ids(w) && Origins(w) && OrderOk(w, e.order, maxRetries) && e in w.sent && e.tx != ""
    ensures e.order in w.sagas
    ensures e.tx == w.sagas[e.order].tx
         || (w.sagas[e.order].current.PaymentPending? && Live(w, e.order) == {e})
  {
    hide OrderOk, Accepted, Replay, Decide, Ids, Undelivered, BlockAt, Ledger;
    assert Explained(w, e);
    if IsResult(e.kind) {
      var c :| c in w.sent && CausedBy(w.journal, c, e);
      var k: nat, answer :| BlockAt(w.journal, k, c, answer, e);
      BlockResult(w.journal, k, c, answer, e);
      if Approval(e) {
        ApprovalTransaction(w, e, maxRetries);
      } else {
        OrchestratorTransaction(w, c, maxRetries);
      }
    } else {
      OrchestratorTransaction(w, e, maxRetries);
    }
  }

  lemma BlockResult(journal: seq<JournalEntry>, k: nat, c: Event, answer: GatewayAnswer, r: Event)
    requires BlockAt(journal, k, c, answer, r)
    ensures r.order == c.order && IsCommand(c.kind)
    ensures r.tx != "" ==> Approval(r) || r.tx == c.tx
    ensures r.status.Failed? || r.status == SuccessStatus(c.kind) ==> r.metadata == map[]
    ensures "notification_error" !in r.metadata && "payment_refund_failed" !in r.metadata
  {
  }

  lemma OrchestratorTransaction(w: World, e: Event, maxRetries: int)
    requires Ids(w) && Explained(w, e) && OrderOk(w, e.order, maxRetries)
    requires e in w.sent && !IsResult(e.kind) && e.tx != ""
    ensures e.order in w.sagas && e.tx == w.sagas[e.order].tx
  {
    hide OrderOk, Accepted, Replay, Decide, Ids, CanTransitionTo, Ledger;
    var f := OrderJournal(w.journal, e.order);
    var es := Consumed(f);
    var i := SentMeansLedger(w, e, maxRetries);
    HistoryOf(w, e.order, maxRetries);
    LedgerOf(w, e.order, maxRetries);
    SentAt(f, i, maxRetries);
    StagesAreMonotone(es, i + 1, |es|, maxRetries);
  }

  lemma ApprovalTransaction(w: World, e: Event, maxRetries: int)
    requires Ids(w) && OrderOk(w, e.order, maxRetries) && e in w.sent && Approval(e)
    ensures e.order in w.sagas
    ensures e.tx == w.sagas[e.order].tx
         || (w.sagas[e.order].current.PaymentPending? && Live(w, e.order) == {e})
  {
    hide OrderOk, Accepted, Replay, Decide, Ids, Undelivered;
    HistoryOf(w, e.order, maxRetries);
    if Undelivered(w.journal, e) {
      LiveResult(w, e, maxRetries);
    } else {
      SeenOrUndelivered(w, e);
      var es := Consumed(OrderJournal(w.journal, e.order));
      var i := JournaledMeansConsumed(w, e, maxRetries);
      ApprovalAt(es, i, maxRetries);
      StagesAreMonotone(es, i + 1, |es|, maxRetries);
    }
  }

  lemma TransactionsAgree(w: World, e1: Event, e2: Event, maxRetries: int)
    requires Reachable(w, maxRetries) && e1 in w.sent && e2 in w.sent && e1.order == e2.order
    requires e1.tx != "" && e2.tx != ""
    ensures e1.tx == e2.tx
  {
    hide OrderOk, Ids, Origins, RowOk;
    InvAt(w, e1.order, maxRetries);
    TransactionOf(w, e1, maxRetries);
    TransactionOf(w, e2, maxRetries);
    if w.sagas[e1.order].current.PaymentPending? {
      RowsAreOk(w, e1.order, maxRetries);
      assert w.sagas[e1.order].tx == "" by { PendingHasNoTransaction(w.sagas[e1.order], maxRetries); }
      assert e1 in Live(w, e1.order) && e2 in Live(w, e1.order);
    }
  }

  lemma PendingHasNoTransaction(row: Saga, maxRetries: int)
    requires RowOk(row, maxRetries) && row.current.PaymentPending?
    ensures row.tx == ""
  {
  }
}
