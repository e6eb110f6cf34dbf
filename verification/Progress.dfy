/** Orders do not get stuck. Each delivery of an order's live message uses up part of a
    bounded measure, no other step gives any of it back, and as long as the order runs its
    live message can be delivered. */
module Progress {
  import opened Domain
  import opened Topics
  import opened SagaSteps
  import opened StateMachine
  import opened History
  import opened Tables
  import opened Handlers
  import opened Protocol
  import opened Guarantees

  ghost predicate Running(w: World, order: OrderId) {
    order in w.sagas && !IsTerminal(w.sagas[order].current)
  }

  /** A delivery of the order's live message to the one component that acts on it. */
  ghost predicate DeliversLive(w: World, a: Action, order: OrderId) {
    !a.Create? && a.e in Live(w, order)
  }

  /** How many deliveries of live messages an order can still take. */
  ghost function Measure(w: World, order: OrderId, maxRetries: int): int {
    if !Running(w, order) then 0
    else 2 * Budget(w.sagas[order], maxRetries) + if exists t :: t in Live(w, order) && IsCommand(t.kind) then 1 else 0
  }

  lemma RunningRow(w: World, order: OrderId, maxRetries: int)
    requires OrderOk(w, order, maxRetries) && Running(w, order)
    ensures RowOk(w.sagas[order], maxRetries) && w.sagas[order].order == order
    ensures 0 < Budget(w.sagas[order], maxRetries) <= 3 * (Limit(maxRetries) + 1)
  {
    hide Accepted, Decide, Replay, Ledger, CanTransitionTo, Chained, TokenOk, RowOk, Budget, NextCommand;
    LastCommand(OrderJournal(w.journal, order), maxRetries);
    RunningBudget(w.sagas[order], maxRetries);
  }

  lemma RunningBudget(row: Saga, maxRetries: int)
    requires RowOk(row, maxRetries) && !IsTerminal(row.current)
    ensures 0 < Budget(row, maxRetries) <= 3 * (Limit(maxRetries) + 1)
  {
    hide CanTransitionTo;
  }

  /** The measure is zero exactly when the order does not run, and bounded by the retry limit. */
  lemma MeasureBounds(w: World, order: OrderId, maxRetries: int)
    requires Reachable(w, maxRetries)
    ensures 0 <= Measure(w, order, maxRetries) <= 6 * (Limit(maxRetries) + 1) + 1
    ensures Measure(w, order, maxRetries) == 0 <==> !Running(w, order)
  {
    hide OrderOk, RowOk, Budget;
    InvAt(w, order, maxRetries);
    if Running(w, order) {
      RunningRow(w, order, maxRetries);
    }
  }

  lemma WorkProgresses(w: World, a: Action, order: OrderId, maxRetries: int)
    requires Reachable(w, maxRetries) && Enabled(w, a) && a.Work? && DeliversLive(w, a, order) && Running(w, order)
    ensures Running(Next(w, a, maxRetries), order)
    ensures Measure(Next(w, a, maxRetries), order, maxRetries) == Measure(w, order, maxRetries) - 1
  {
    hide Reachable, OrderOk, Ids, Origins, Budget, WorkerBlock, Has;
    InvAt(w, order, maxRetries);
    SubscriptionsMatchResponsibilities(a.component, a.e.kind);
    LiveCommand(w, a.e, maxRetries);
    assert a.e in Live(w, order) && IsCommand(a.e.kind);
    WorkMovesToken(w, a.component, a.e, a.answer, a.id);
    var w' := Next(w, a, maxRetries);
    assert Live(w', order) == {ResultFor(a.e, a.answer, a.id)};
    assert w'.sagas == w.sagas;
  }

  lemma OrchestrateProgresses(w: World, a: Action, order: OrderId, maxRetries: int)
    requires Reachable(w, maxRetries) && Enabled(w, a) && a.Orchestrate? && DeliversLive(w, a, order)
      && Running(w, order)
    ensures order in Next(w, a, maxRetries).sagas
    ensures Measure(Next(w, a, maxRetries), order, maxRetries) < Measure(w, order, maxRetries)
  {
    hide Reachable, OrderOk, Ids, Origins, Budget, Has, RowOk, OnResult, Receives;
    InvAt(w, order, maxRetries);
    SubscriptionsMatchResponsibilities(Orchestrator, a.e.kind);
    assert IsResult(a.e.kind);
    LiveResult(w, a.e, maxRetries);
    RunningRow(w, order, maxRetries);
    var row := w.sagas[order];
    RejectionsAreExactlyTwo(row, a.e, a.id, maxRetries);
    BudgetFalls(row, a.e, a.id, maxRetries);
    var m := OnResult(row, a.e, a.id, maxRetries).value;
    RowKeepsOrder(w, a, order, m, maxRetries);
  }

  lemma RowKeepsOrder(w: World, a: Action, order: OrderId, m: Move, maxRetries: int)
    requires Reachable(w, maxRetries) && Enabled(w, a) && a.Orchestrate? && DeliversLive(w, a, order)
      && Running(w, order)
    requires IsResult(a.e.kind) && OnResult(w.sagas[order], a.e, a.id, maxRetries) == Ok(m)
    ensures order in Next(w, a, maxRetries).sagas && Next(w, a, maxRetries).sagas[order] == m.saga
  {
    hide Reachable, OnResult, Ids, Origins, Receives, Ledger, Chained, TokenOk;
    InvAt(w, order, maxRetries);
    hide OrderOk;
    RunningRow(w, order, maxRetries);
    hide RowOk;
    SagaKeepsOrder(w.sagas[order], a.e, a.id, maxRetries);
  }

  lemma SagaKeepsOrder(row: Saga, e: Event, id: EventId, maxRetries: int)
    requires RowOk(row, maxRetries) && OnResult(row, e, id, maxRetries).Ok?
    ensures OnResult(row, e, id, maxRetries).value.saga.order == row.order
  {
    MoveIsCoherent(row, e, id, maxRetries);
  }

  lemma LiveDeliveryProgresses(w: World, a: Action, order: OrderId, maxRetries: int)
    requires Reachable(w, maxRetries) && Enabled(w, a) && DeliversLive(w, a, order)
    ensures order in Next(w, a, maxRetries).sagas
    ensures Measure(Next(w, a, maxRetries), order, maxRetries) < Measure(w, order, maxRetries)
  {
    hide Reachable, Next, Measure, Enabled;
    SingleToken(w, order, maxRetries);
    match a
    case Orchestrate(_, _) => OrchestrateProgresses(w, a, order, maxRetries);
    case Work(_, _, _, _) => WorkProgresses(w, a, order, maxRetries);
  }

  /** Any other step of the system leaves the order's row, live message and measure alone. */
  lemma OtherStepsWait(w: World, a: Action, order: OrderId, maxRetries: int)
    requires Reachable(w, maxRetries) && Enabled(w, a) && !DeliversLive(w, a, order) && order in w.sagas
    ensures order in Next(w, a, maxRetries).sagas && Next(w, a, maxRetries).sagas[order] == w.sagas[order]
    ensures Live(Next(w, a, maxRetries), order) == Live(w, order)
    ensures Measure(Next(w, a, maxRetries), order, maxRetries) == Measure(w, order, maxRetries)
  {
    hide Reachable, Inv, OrderOk, Ids, Origins, Budget, OrchestratorEffect, WorkerEffect, Writes, Receives, Undelivered;
    ReachableOk(w, maxRetries);
    InvAt(w, order, maxRetries);
    var r := Outcome(w, a, maxRetries);
    if a.Create? {
      CreatedIsNotLive(w.journal, a.order, a.id);
      assert w.journal + [] == w.journal;
      assert Live(Next(w, a, maxRetries), order) == Live(w, order);
    } else if r.Ok? && r.value.Commit? {
      DeliveryWrites(w, a, maxRetries);
      if a.e.order == order {
        CommitNeedsLive(w, a, order, maxRetries);
      } else {
        ElsewhereUntouched(w, r.value, a.e, order);
      }
    }
  }

  lemma CreatedIsNotLive(journal: seq<JournalEntry>, order: OrderId, id: EventId)
    ensures !Undelivered(journal, CreatedEvent(order, id))
  {
  }

  /** A handler commits for an order with a saga only on the order's live message. */
  lemma CommitNeedsLive(w: World, a: Action, order: OrderId, maxRetries: int)
    requires Reachable(w, maxRetries) && Enabled(w, a) && !a.Create? && order in w.sagas && a.e.order == order
    requires Outcome(w, a, maxRetries).Ok? && Outcome(w, a, maxRetries).value.Commit?
    ensures DeliversLive(w, a, order)
  {
    hide Reachable, OrderOk, OnResult, WorkerBlock, Receives, Has;
  }

  lemma ElsewhereUntouched(w: World, effect: Effect, e: Event, order: OrderId)
    requires Ids(w) && Writes(w, effect, e) && e.order != order
    ensures Live(Absorb(w, effect), order) == Live(w, order)
    ensures order in Absorb(w, effect).sagas <==> order in w.sagas
    ensures order in w.sagas ==> Absorb(w, effect).sagas[order] == w.sagas[order]
  {
    var w' := Absorb(w, effect);
    forall x | x in w'.sent && x.order == order
      ensures x in w.sent && (Undelivered(w'.journal, x) <==> Undelivered(w.journal, x))
    {
      UndeliveredElsewhere(w, effect, e, x);
    }
  }

  // ---------------------------------------------------------------- no deadlock

  function Longest(used: seq<EventId>): nat {
    if used == [] then 0
    else if |used[0]| > Longest(used[1..]) then |used[0]| else Longest(used[1..])
  }

  lemma {:induction false} LongestBounds(used: seq<EventId>, id: EventId)
    requires id in used
    ensures |id| <= Longest(used)
  {
    if id != used[0] {
      LongestBounds(used[1..], id);
    }
  }

  lemma {:induction false} Listing(used: set<EventId>) returns (listed: seq<EventId>)
    ensures forall id :: id in used ==> id in listed
  {
    if used == {} {
      listed := [];
    } else {
      var id :| id in used;
      var rest := Listing(used - {id});
      listed := [id] + rest;
    }
  }

  /** There is always an id that was never drawn. */
  lemma FreshIdExists(used: set<EventId>) returns (id: EventId)
    ensures id !in used
  {
    var listed := Listing(used);
    id := seq(Longest(listed) + 1, _ => 'x');
    if id in used {
      LongestBounds(listed, id);
    }
  }

  /** Whatever the gateway answers, the live message of a running order can be delivered. */
  lemma NoDeadlock(w: World, order: OrderId, answer: GatewayAnswer, maxRetries: int) returns (a: Action)
    requires Reachable(w, maxRetries) && Running(w, order)
    ensures Enabled(w, a) && DeliversLive(w, a, order)
    ensures a.Work? ==> a.answer == answer
  {
    hide Reachable;
    SingleToken(w, order, maxRetries);
    var t :| Live(w, order) == {t} && Suits(w.sagas[order].current, t);
    assert t in Live(w, order);
    var id := FreshIdExists(w.used);
    var component := ConsumerOf(t.kind).value;
    SubscriptionsMatchResponsibilities(component, t.kind);
    a := if component.Orchestrator? then Orchestrate(t, id) else Work(component, t, answer, id);
  }

  // ---------------------------------------------------------------- whole runs

  ghost predicate Continues(w: World, actions: seq<Action>, maxRetries: int) {
    actions == [] ||
    (Continues(w, actions[..|actions| - 1], maxRetries)
     && Enabled(Run(w, actions[..|actions| - 1], maxRetries), actions[|actions| - 1]))
  }

  /** How often a run delivers the order's message of the moment. */
  ghost function LiveDeliveries(w: World, actions: seq<Action>, order: OrderId, maxRetries: int): nat {
    if actions == [] then 0
    else
      var front := actions[..|actions| - 1];
      LiveDeliveries(w, front, order, maxRetries)
      + if DeliversLive(Run(w, front, maxRetries), actions[|actions| - 1], order) then 1 else 0
  }

  /** However a run goes on, with whatever duplicates, other orders and gateway answers: each
      delivery of the order's live message costs at least one unit of its measure. So after
      at most 6(M+1)+1 of them the order has ended, and while it runs the next can be made. */
  lemma {:induction false} EveryOrderFinishes(w: World, actions: seq<Action>, order: OrderId, maxRetries: int)
    requires Reachable(w, maxRetries) && Continues(w, actions, maxRetries) && order in w.sagas
    ensures var w' := Run(w, actions, maxRetries);
      && Reachable(w', maxRetries) && order in w'.sagas
      && Measure(w', order, maxRetries) + LiveDeliveries(w, actions, order, maxRetries) <= Measure(w, order, maxRetries)
    ensures LiveDeliveries(w, actions, order, maxRetries) <= 6 * (Limit(maxRetries) + 1) + 1
    ensures LiveDeliveries(w, actions, order, maxRetries) >= Measure(w, order, maxRetries)
        ==> IsTerminal(Run(w, actions, maxRetries).sagas[order].current)
  {
    hide Reachable, Next, Measure, DeliversLive, Enabled;
    if actions != [] {
      var front, a := actions[..|actions| - 1], actions[|actions| - 1];
      EveryOrderFinishes(w, front, order, maxRetries);
      var before := Run(w, front, maxRetries);
      ReachableStep(before, a, maxRetries);
      if DeliversLive(before, a, order) {
        LiveDeliveryProgresses(before, a, order, maxRetries);
      } else {
        OtherStepsWait(before, a, order, maxRetries);
      }
    }
    MeasureBounds(w, order, maxRetries);
    MeasureBounds(Run(w, actions, maxRetries), order, maxRetries);
  }

  /** Every running order can be brought to its end, even if all gateways answer the same. */
  lemma CanFinish(w: World, order: OrderId, answer: GatewayAnswer, maxRetries: int) returns (actions: seq<Action>)
    requires Reachable(w, maxRetries) && order in w.sagas
    ensures Continues(w, actions, maxRetries)
    ensures order in Run(w, actions, maxRetries).sagas
    ensures IsTerminal(Run(w, actions, maxRetries).sagas[order].current)
  {
    hide Reachable, Next, Enabled, DeliversLive, Measure;
    actions := [];
    MeasureBounds(w, order, maxRetries);
    while Running(Run(w, actions, maxRetries), order)
      invariant Continues(w, actions, maxRetries) && order in Run(w, actions, maxRetries).sagas
      invariant Reachable(Run(w, actions, maxRetries), maxRetries)
      decreases Measure(Run(w, actions, maxRetries), order, maxRetries)
    {
      var before := Run(w, actions, maxRetries);
      var a := NoDeadlock(before, order, answer, maxRetries);
      ReachableStep(before, a, maxRetries);
      LiveDeliveryProgresses(before, a, order, maxRetries);
      MeasureBounds(before, order, maxRetries);
      MeasureBounds(Next(before, a, maxRetries), order, maxRetries);
      assert (actions + [a])[..|actions + [a]| - 1] == actions;
      actions := actions + [a];
    }
  }
}
