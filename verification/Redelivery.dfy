/** At-least-once delivery refines exactly-once delivery. */
module Redelivery {
  import opened Domain
  import opened Topics
  import opened Tables
  import opened System
  import opened SystemGuarantees
  import P = Protocol
  import G = Guarantees

  /** The component has journaled (or the projector has marked) this event already. */
  predicate Redundant(s: State, a: Action) {
    match a
    case ToOrchestrator(e, _) => Has(s.db.journal, e.id, Orchestrator)
    case ToWorker(component, e, _, _) => Has(s.db.journal, e.id, component)
    case ToProjector(e) => e.id in s.processed
    case _ => false
  }

  /** A redundant delivery succeeds and changes nothing at all, so whatever happens next
      happens as if it had never arrived. */
  lemma RedundantChangesNothing(s: State, a: Action, cfg: Config)
    requires Reachable(s, cfg) && Enabled(s, a) && Redundant(s, a)
    ensures Next(s, a, cfg) == s
    ensures IsDelivery(a) ==> P.Outcome(Abs(s), ProtocolAction(a), cfg.maxRetries) == Ok(Nothing)
  {
    hide FullInv, G.Reachable, Reachable;
    ReachableOk(s, cfg);
    if IsDelivery(a) {
      var pa := ProtocolAction(a);
      assert P.Enabled(Abs(s), pa);
      G.OnlyDuplicateOrdersAreRejected(Abs(s), pa, cfg.maxRetries);
    }
  }

  /** The run with every redundant delivery left out. */
  ghost function Prune(actions: seq<Action>, cfg: Config): seq<Action> {
    if actions == [] then []
    else
      var before, last := actions[..|actions| - 1], actions[|actions| - 1];
      if Redundant(Run(START, before, cfg), last) then Prune(before, cfg) else Prune(before, cfg) + [last]
  }

  ghost predicate ExactlyOnce(actions: seq<Action>, cfg: Config) {
    forall k :: 0 <= k < |actions| ==> !Redundant(Run(START, actions[..k], cfg), actions[k])
  }

  /** Deleting all redundant deliveries from any run leaves a possible run without any, and
      exactly the same tables, journal, outbox, Kafka log, relays and read model. */
  lemma {:induction false} RunsWithoutDuplicates(actions: seq<Action>, cfg: Config)
    requires Possible(actions, cfg)
    ensures Run(START, Prune(actions, cfg), cfg) == Run(START, actions, cfg)
    ensures Possible(Prune(actions, cfg), cfg)
    ensures ExactlyOnce(Prune(actions, cfg), cfg)
  {
    hide Next, Enabled, Redundant;
    if actions != [] {
      var before, last := actions[..|actions| - 1], actions[|actions| - 1];
      var s := Run(START, before, cfg);
      RunsWithoutDuplicates(before, cfg);
      var pruned := Prune(before, cfg);
      if Redundant(s, last) {
        assert Reachable(s, cfg);
        RedundantChangesNothing(s, last, cfg);
      } else {
        PruneAppends(pruned, last, s, cfg);
      }
    }
  }

  lemma PruneAppends(pruned: seq<Action>, last: Action, s: State, cfg: Config)
    requires Possible(pruned, cfg) && ExactlyOnce(pruned, cfg) && Run(START, pruned, cfg) == s
    requires Enabled(s, last) && !Redundant(s, last)
    ensures Run(START, pruned + [last], cfg) == Next(s, last, cfg)
    ensures Possible(pruned + [last], cfg) && ExactlyOnce(pruned + [last], cfg)
  {
    hide Next, Enabled, Redundant;
    var longer := pruned + [last];
    assert longer[..|longer| - 1] == pruned;
    forall k | 0 <= k < |longer|
      ensures !Redundant(Run(START, longer[..k], cfg), longer[k])
    {
      if k < |pruned| {
        assert longer[..k] == pruned[..k];
      } else {
        assert longer[..k] == pruned;
      }
    }
  }

  // ---------------------------------------------------------------- once means once

  lemma JournaledStays(s: State, a: Action, id: EventId, component: Component, cfg: Config)
    requires Inv(s, cfg) && Enabled(s, a) && Has(s.db.journal, id, component)
    ensures Has(Next(s, a, cfg).db.journal, id, component)
  {
    hide Inv, Next, P.Outcome, Enabled;
    StepRefines(s, a, cfg);
    var w, w' := Abs(s), Abs(Next(s, a, cfg));
    if IsDelivery(a) || a.CreateOrder? {
      var r := P.Outcome(w, ProtocolAction(a), cfg.maxRetries);
      if r.Ok? && r.value.Commit? {
        P.HasGrows(w.journal, r.value.entries, id, component);
      }
    }
  }

  lemma {:induction false} JournaledStaysInRun(actions: seq<Action>, i: nat, j: nat, id: EventId, component: Component,
                                               cfg: Config)
    requires Possible(actions, cfg) && i <= j <= |actions|
    requires Has(Run(START, actions[..i], cfg).db.journal, id, component)
    ensures Has(Run(START, actions[..j], cfg).db.journal, id, component)
    decreases j
  {
    hide Next, Enabled, Has, Inv;
    if i < j {
      JournaledStaysInRun(actions, i, j - 1, id, component, cfg);
      PossiblePrefix(actions, j, cfg);
      var upTo := actions[..j];
      assert upTo[..|upTo| - 1] == actions[..j - 1];
      RunRefines(actions[..j - 1], cfg);
      InvOf(Run(START, actions[..j - 1], cfg), cfg);
      JournaledStays(Run(START, actions[..j - 1], cfg), actions[j - 1], id, component, cfg);
    }
  }

  lemma {:induction false} PossiblePrefix(actions: seq<Action>, k: nat, cfg: Config)
    requires Possible(actions, cfg) && k <= |actions|
    ensures Possible(actions[..k], cfg)
    decreases |actions|
  {
    if k == |actions| {
      assert actions[..k] == actions;
    } else {
      var before := actions[..|actions| - 1];
      PossiblePrefix(before, k, cfg);
      assert before[..k] == actions[..k];
    }
  }

  /** A delivery that is not redundant is journaled, unless it is the refusal of a second
      ORDER_CREATED. */
  lemma DeliveryIsJournaled(s: State, a: Action, cfg: Config)
    requires Reachable(s, cfg) && Enabled(s, a) && IsDelivery(a) && !Redundant(s, a)
    ensures Has(Next(s, a, cfg).db.journal, a.e.id, if a.ToWorker? then a.component else Orchestrator)
         || (a.ToOrchestrator? && a.e.kind.OrderCreated? && a.e.order in s.db.sagas)
  {
    hide FullInv, G.Reachable, Reachable;
    ReachableOk(s, cfg);
    var pa := ProtocolAction(a);
    var component := if a.ToWorker? then a.component else Orchestrator;
    SubscriptionsMatchResponsibilities(component, a.e.kind);
    G.OnlyDuplicateOrdersAreRejected(Abs(s), pa, cfg.maxRetries);
    InvOf(s, cfg);
    StepRefines(s, a, cfg);
    if !(a.ToOrchestrator? && a.e.kind.OrderCreated? && a.e.order in s.db.sagas) {
      CommitNamesEvent(Abs(s), pa, component, cfg.maxRetries);
    }
  }

  lemma CommitNamesEvent(w: P.World, pa: P.Action, component: Component, maxRetries: int)
    requires !pa.Create? && P.Outcome(w, pa, maxRetries).Ok? && !Has(w.journal, pa.e.id, component)
    requires component == (if pa.Work? then pa.component else Orchestrator)
    requires ConsumerOf(pa.e.kind) == Some(component) && (pa.Work? ==> P.IsWorker(component))
    ensures Has(P.Next(w, pa, maxRetries).journal, pa.e.id, component)
  {
  }

  /** In a run without redundant deliveries no event reaches the same handler twice, but for
      refused ORDER_CREATED events of orders that already run. */
  lemma EachEventOnce(actions: seq<Action>, i: nat, j: nat, cfg: Config)
    requires Possible(actions, cfg) && ExactlyOnce(actions, cfg) && i < j < |actions|
    requires IsDelivery(actions[i]) && IsDelivery(actions[j]) && actions[i].e == actions[j].e
    requires actions[i].ToWorker? == actions[j].ToWorker?
    requires actions[i].ToWorker? ==> actions[i].component == actions[j].component
    ensures actions[i].ToOrchestrator? && actions[i].e.kind.OrderCreated?
    ensures actions[i].e.order in Run(START, actions[..i], cfg).db.sagas
  {
    hide Next, Enabled, Has, Possible;
    var a := actions[i];
    var s := Run(START, actions[..i], cfg);
    var component := if a.ToWorker? then a.component else Orchestrator;
    StepInRun(actions, i, cfg);
    assert !Redundant(s, a);
    DeliveryIsJournaled(s, a, cfg);
    if Has(Next(s, a, cfg).db.journal, a.e.id, component) {
      JournaledStaysInRun(actions, i + 1, j, a.e.id, component, cfg);
      assert Redundant(Run(START, actions[..j], cfg), actions[j]);
    }
  }

  lemma StepInRun(actions: seq<Action>, i: nat, cfg: Config)
    requires Possible(actions, cfg) && i < |actions|
    ensures Reachable(Run(START, actions[..i], cfg), cfg) && Enabled(Run(START, actions[..i], cfg), actions[i])
    ensures Run(START, actions[..i + 1], cfg) == Next(Run(START, actions[..i], cfg), actions[i], cfg)
  {
    hide Next, Enabled;
    PossiblePrefix(actions, i, cfg);
    PossiblePrefix(actions, i + 1, cfg);
    var upTo := actions[..i + 1];
    assert upTo[..|upTo| - 1] == actions[..i];
  }
}
