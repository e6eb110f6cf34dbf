/** What the read database shows, in every state the system can reach. */
module ViewGuarantees {
  import opened Domain
  import opened Projection
  import opened System
  import opened SystemGuarantees
  import opened Handlers
  import P = Protocol
  import G = Guarantees
  import O = Outcomes
  import R = ReadModel

  lemma ViewOk(s: State, order: OrderId, cfg: Config)
    requires Reachable(s, cfg) && order in s.views
    ensures TimelineOk(s, order, s.views[order])
    ensures forall e :: e in s.views[order].timeline ==> e in Abs(s).sent
    ensures P.Ids(Abs(s)) && P.Origins(Abs(s)) && P.OrderOk(Abs(s), order, cfg.maxRetries)
    ensures G.Reachable(Abs(s), cfg.maxRetries)
  {
    hide Inv, G.Reachable, ClaimsOk, P.Ids, P.Origins, P.OrderOk, Reachable;
    ReachableOk(s, cfg);
    G.InvAt(Abs(s), order, cfg.maxRetries);
  }

  /** A view that shows COMPLETED tells the truth; a view that shows FAILED while the saga
      completed can only stem from a notification result that reported FAILED. */
  lemma ViewsTellTheTruth(s: State, order: OrderId, cfg: Config)
    requires Reachable(s, cfg) && order in s.views
    ensures s.views[order].status.Completed? ==> order in s.db.sagas && s.db.sagas[order].current.Completed?
    ensures s.views[order].status.Failed? && order in s.db.sagas && s.db.sagas[order].current.Completed? ==>
      R.NotificationFailed(Abs(s), order)
  {
    hide Reachable, G.Reachable, P.Ids, P.Origins, P.OrderOk;
    ViewOk(s, order, cfg);
    var v := s.views[order];
    ViewFields(v.timeline);
    var e :| e in v.timeline && e.status == v.status && e.kind == v.lastType;
    if e.status.Completed? {
      R.CompletedStatus(Abs(s), e, cfg.maxRetries);
    }
    if e.status.Failed? && order in s.db.sagas && s.db.sagas[order].current.Completed? {
      R.TerminalStatuses(Abs(s), e, cfg.maxRetries);
    }
  }

  /** Whatever is redelivered and wherever the projector's runs stop, an event occurs at most
      once in all timelines together. */
  lemma EventsAppearOnce(s: State, o1: OrderId, o2: OrderId, i: nat, j: nat, cfg: Config)
    requires Reachable(s, cfg) && o1 in s.views && o2 in s.views
    requires i < |s.views[o1].timeline| && j < |s.views[o2].timeline|
    requires s.views[o1].timeline[i].id == s.views[o2].timeline[j].id
    ensures o1 == o2 && i == j
  {
    hide Reachable, G.Reachable, P.Origins, P.OrderOk, Project;
    ViewOk(s, o1, cfg);
    ViewOk(s, o2, cfg);
    var e1, e2 := s.views[o1].timeline[i], s.views[o2].timeline[j];
    assert e1 in s.views[o1].timeline && e2 in s.views[o2].timeline;
    assert e1 == e2;
  }

  /** What a view shows, in terms of the events applied to it: as long as none was terminal the
      status and type of the last one, from then on those of the first terminal one; and the
      transaction id named last. */
  lemma ViewsShow(s: State, order: OrderId, k: nat, cfg: Config)
    requires Reachable(s, cfg) && order in s.views
    ensures var v, es := s.views[order], s.views[order].timeline;
      && es != []
      && ((forall e :: e in es ==> !IsTerminal(e.status)) ==>
            v.status == es[|es| - 1].status && v.lastType == es[|es| - 1].kind)
      && (k < |es| && IsTerminal(es[k].status) && (forall j :: 0 <= j < k ==> !IsTerminal(es[j].status)) ==>
            v.status == es[k].status && v.lastType == es[k].kind)
      && (v.tx != "" ==> exists i :: 0 <= i < |es| && es[i].tx == v.tx && forall j :: i < j < |es| ==> es[j].tx == "")
  {
    hide Reachable, G.Reachable, P.Ids, P.Origins, P.OrderOk, Project;
    ViewOk(s, order, cfg);
    var es := s.views[order].timeline;
    if forall e :: e in es ==> !IsTerminal(e.status) {
      RunningViewFollows(es);
    }
    if k < |es| && IsTerminal(es[k].status) && (forall j :: 0 <= j < k ==> !IsTerminal(es[j].status)) {
      FirstTerminalDecides(es, k);
    }
    LastTransactionShows(es);
  }

  /** A terminal status, once in a view, is never replaced, and a timeline only grows. */
  lemma TerminalViewsStay(s: State, a: Action, order: OrderId, cfg: Config)
    requires order in s.views
    ensures order in Next(s, a, cfg).views
    ensures s.views[order].timeline <= Next(s, a, cfg).views[order].timeline
    ensures IsTerminal(s.views[order].status) ==> Next(s, a, cfg).views[order].status == s.views[order].status
  {
  }

  /** When every event of a finished order has been applied, in whatever order it came, the
      view holds the saga's transaction id and its flags say how the order ended. */
  lemma CompleteViewsAgree(s: State, order: OrderId, cfg: Config)
    requires Reachable(s, cfg) && order in s.views && R.Finished(Abs(s), order)
    requires R.Delivers(s.views[order].timeline, Abs(s), order)
    ensures P.Consumed(P.OrderJournal(s.db.journal, order)) != []
    ensures var v, row, last := s.views[order], s.db.sagas[order], R.LastConsumed(Abs(s), order);
      && v.tx == row.tx && IsTerminal(v.status)
      && (v.notificationError <==> row.current.Completed? && !last.status.Notified?)
      && (v.refundFailed <==>
            row.current.Failed? && last.kind.PaymentCompensateResult? && !last.status.PaymentRefunded?)
      && (!R.NotificationFailed(Abs(s), order) ==> v.status == row.current)
  {
    hide Reachable, G.Reachable, P.Ids, P.Origins, P.OrderOk, R.Delivers, Project, P.OrderJournal, P.Consumed;
    ViewOk(s, order, cfg);
    R.ViewOfFinishedOrder(Abs(s), order, s.views[order].timeline, cfg.maxRetries);
    R.StatusAgreesUnlessNotificationFailed(Abs(s), order, cfg.maxRetries);
  }

  /** The projector marks before it applies: a run that stops in between, because the process
      crashed, the mark reported an error after taking effect, or the apply failed, loses the
      event for good.
      Once marked and neither applied nor in progress, no later step puts the event into a
      timeline. */
  ghost predicate LostToView(s: State, e: Event) {
    && e.id in s.processed && e !in s.applying
    && (forall order :: order in s.views ==> e !in s.views[order].timeline)
  }

  lemma LostEventsStayLost(s: State, a: Action, e: Event, cfg: Config)
    requires Enabled(s, a) && LostToView(s, e)
    ensures LostToView(Next(s, a, cfg), e)
  {
  }

  /** Over every step of the system: an event is lost to the views exactly when a projector
      run stops while it is being applied. */
  lemma OnlyStopsLose(s: State, a: Action, e: Event, cfg: Config)
    requires Reachable(s, cfg) && Enabled(s, a) && e in Sent(s) && !LostToView(s, e)
    ensures LostToView(Next(s, a, cfg), e) <==> a.ProjectorStop? && e in a.lost && e in s.applying
  {
    hide Inv, ClaimsOk, G.Reachable, Project, Reachable, Upsert, OrchestratorEffect, WorkerEffect;
    ReachableOk(s, cfg);
    match a
    case ToProjector(e') =>
      if e.id == e'.id {
        IdsNameEvents(s, e, e', cfg);
      }
    case ApplyToView(e') => ApplyShows(s, e', e, cfg);
    case ProjectorStop(lost) => StopLosesApplying(s, lost, e, cfg);
    case _ =>
      ReadSideRests(s, a, cfg);
      hide Next;
  }

  lemma ApplyShows(s: State, e': Event, e: Event, cfg: Config)
    requires e' in s.applying && !LostToView(s, e)
    ensures !LostToView(Next(s, ApplyToView(e'), cfg), e)
  {
    var s' := Next(s, ApplyToView(e'), cfg);
    var shown := s'.views[e'.order].timeline;
    assert shown[|shown| - 1] == e' && e' in shown;
    forall order | order in s.views && e in s.views[order].timeline
      ensures order in s'.views && e in s'.views[order].timeline
    {
      TerminalViewsStay(s, ApplyToView(e'), order, cfg);
    }
  }

  lemma IdsNameEvents(s: State, e: Event, e': Event, cfg: Config)
    requires Reachable(s, cfg) && e in Sent(s) && e' in Sent(s) && e.id == e'.id
    ensures e == e'
  {
    hide Reachable, Inv, ClaimsOk, G.Reachable, ReadOk, P.Origins, P.OrderOk;
    ReachableOk(s, cfg);
    InvOf(s, cfg);
    IdsOfState(s, cfg);
    assert e in Abs(s).sent && e' in Abs(s).sent;
  }

  lemma IdsOfState(s: State, cfg: Config)
    requires Inv(s, cfg)
    ensures P.Ids(Abs(s))
  {
    hide P.Ids, P.OrderOk, P.Origins;
  }

  lemma StopLosesApplying(s: State, lost: set<Event>, e: Event, cfg: Config)
    requires ReadOk(s) && !LostToView(s, e)
    ensures LostToView(Next(s, ProjectorStop(lost), cfg), e) <==> e in lost && e in s.applying
  {
    hide Project;
    if e in s.applying {
      forall order | order in s.views
        ensures e !in s.views[order].timeline
      {
        assert TimelineOk(s, order, s.views[order]);
      }
    }
  }

  // ---------------------------------------------------------------- completeness over runs

  /** At some point a projector run stopped while this event was being applied. */
  ghost predicate StopLost(actions: seq<Action>, e: Event, cfg: Config) {
    exists i :: 0 <= i < |actions| && actions[i].ProjectorStop? && e in actions[i].lost
                && e in Run(START, actions[..i], cfg).applying
  }

  lemma StopLostAppend(actions: seq<Action>, e: Event, cfg: Config)
    requires actions != []
    ensures var front, a := actions[..|actions| - 1], actions[|actions| - 1];
      StopLost(actions, e, cfg) <==>
        StopLost(front, e, cfg) || (a.ProjectorStop? && e in a.lost && e in Run(START, front, cfg).applying)
  {
    hide Run;
    var front := actions[..|actions| - 1];
    forall i | 0 <= i < |front|
      ensures actions[..i] == front[..i]
    {
    }
  }

  /** What was not on Kafka was neither marked, nor lost, in the run so far. */
  lemma {:induction false} UnsentIsUntouched(actions: seq<Action>, e: Event, cfg: Config)
    requires Possible(actions, cfg) && e !in Run(START, actions, cfg).kafka
    ensures !StopLost(actions, e, cfg) && e !in Run(START, actions, cfg).applying
  {
    hide Inv, ClaimsOk, G.Reachable, Next, Enabled, StopLost;
    var s := Run(START, actions, cfg);
    assert Reachable(s, cfg);
    ReachableOk(s, cfg);
    if actions == [] {
      assert !StopLost(actions, e, cfg) by { NothingStopped(e, cfg); }
    } else {
      var front := actions[..|actions| - 1];
      StopLostAppend(actions, e, cfg);
      KafkaOnlyGrows(Run(START, front, cfg), actions[|actions| - 1], cfg);
      UnsentIsUntouched(front, e, cfg);
    }
  }

  lemma NothingStopped(e: Event, cfg: Config)
    ensures !StopLost([], e, cfg)
  {
  }

  lemma UnmarkedBeforeSent(s: State, s': State, e: Event, cfg: Config)
    requires Reachable(s, cfg) && Reachable(s', cfg) && s.kafka <= s'.kafka
    requires e !in s.kafka && e in s'.kafka
    ensures e.id !in s.processed
  {
    hide Inv, ClaimsOk, G.Reachable, Reachable;
    ReachableOk(s, cfg);
    if e.id in s.processed {
      var x :| x in s.kafka && x.id == e.id;
      assert x in Sent(s') && e in Sent(s');
      IdsNameEvents(s', x, e, cfg);
      assert false;
    }
  }

  /** Over every run: an event on Kafka is lost to the views if and only if a projector
      run stopped while it was being applied. */
  lemma {:induction false} LostExactlyByStops(actions: seq<Action>, e: Event, cfg: Config)
    requires Possible(actions, cfg) && e in Run(START, actions, cfg).kafka
    ensures LostToView(Run(START, actions, cfg), e) <==> StopLost(actions, e, cfg)
  {
    hide Reachable, Next, Enabled, LostToView, StopLost;
    var front, a := actions[..|actions| - 1], actions[|actions| - 1];
    var s := Run(START, front, cfg);
    ReachedBy(front, cfg);
    ReachedBy(actions, cfg);
    StopLostAppend(actions, e, cfg);
    KafkaOnlyGrows(s, a, cfg);
    if e in s.kafka {
      LostExactlyByStops(front, e, cfg);
      if LostToView(s, e) {
        LostEventsStayLost(s, a, e, cfg);
      } else {
        OnlyStopsLose(s, a, e, cfg);
      }
    } else {
      UnsentIsUntouched(front, e, cfg);
      UnmarkedBeforeSent(s, Next(s, a, cfg), e, cfg);
      NewcomerIsNotLost(s, a, e, cfg);
    }
  }

  lemma ReachedBy(actions: seq<Action>, cfg: Config)
    requires Possible(actions, cfg)
    ensures Reachable(Run(START, actions, cfg), cfg)
  {
  }

  lemma NewcomerIsNotLost(s: State, a: Action, e: Event, cfg: Config)
    requires Enabled(s, a) && e !in s.kafka && e in Next(s, a, cfg).kafka && e.id !in s.processed
    ensures !LostToView(Next(s, a, cfg), e)
  {
  }

  /** Every marked event is being applied, stands in its order's timeline, or was lost when
      its run stopped, and the last excludes the other two. */
  lemma MarkedIsShownOrLost(actions: seq<Action>, e: Event, cfg: Config)
    requires Possible(actions, cfg) && e in Run(START, actions, cfg).kafka
    requires e.id in Run(START, actions, cfg).processed
    ensures var s := Run(START, actions, cfg);
      StopLost(actions, e, cfg) <==>
        e !in s.applying && !(e.order in s.views && e in s.views[e.order].timeline)
  {
    hide Reachable, StopLost, Inv, ClaimsOk, G.Reachable, Project;
    LostExactlyByStops(actions, e, cfg);
    var s := Run(START, actions, cfg);
    ReachedBy(actions, cfg);
    ReachableOk(s, cfg);
    forall order | order in s.views && e in s.views[order].timeline
      ensures order == e.order
    {
      assert TimelineOk(s, order, s.views[order]);
    }
  }

  /** The view of an order has received every event of it if and only if each of them was
      marked, none is still being applied, and no run that stopped lost one. */
  lemma CompleteExactlyWithoutLosses(actions: seq<Action>, order: OrderId, cfg: Config)
    requires Possible(actions, cfg) && R.EventsOf(Abs(Run(START, actions, cfg)), order) != {}
    ensures var s := Run(START, actions, cfg);
      (order in s.views && R.Delivers(s.views[order].timeline, Abs(s), order)) <==>
        forall e :: e in R.EventsOf(Abs(s), order) ==>
          e in s.kafka && e.id in s.processed && e !in s.applying && !StopLost(actions, e, cfg)
  {
    hide Reachable, StopLost, Possible, Run, R.Delivers, Project, TimelineOk, P.Ids, P.Origins, P.OrderOk, G.Reachable;
    var s := Run(START, actions, cfg);
    ReachedBy(actions, cfg);
    var es := R.EventsOf(Abs(s), order);
    if order in s.views && R.Delivers(s.views[order].timeline, Abs(s), order) {
      ViewOk(s, order, cfg);
      R.DeliveredMembers(s.views[order].timeline, Abs(s), order);
      forall e | e in es
        ensures e in s.kafka && e.id in s.processed && e !in s.applying && !StopLost(actions, e, cfg)
      {
        TimelineMember(s, order, s.views[order], e);
        MarkedIsShownOrLost(actions, e, cfg);
      }
    }
    if forall e :: e in es ==> e in s.kafka && e.id in s.processed && e !in s.applying && !StopLost(actions, e, cfg) {
      forall e | e in es
        ensures order in s.views && e in s.views[order].timeline
      {
        MarkedIsShownOrLost(actions, e, cfg);
      }
      ViewOk(s, order, cfg);
      TimelineDelivers(s, order, s.views[order]);
    }
  }

  lemma TimelineMember(s: State, order: OrderId, v: OrderView, e: Event)
    requires TimelineOk(s, order, v) && e in v.timeline
    ensures e.order == order && e in s.kafka && e.id in s.processed && e !in s.applying
  {
  }

  lemma TimelineDelivers(s: State, order: OrderId, v: OrderView)
    requires TimelineOk(s, order, v)
    requires forall e :: e in R.EventsOf(Abs(s), order) ==> e in v.timeline
    requires forall e :: e in v.timeline ==> e in Abs(s).sent
    ensures R.Delivers(v.timeline, Abs(s), order)
  {
    hide Project;
    DistinctMembers(v.timeline, R.EventsOf(Abs(s), order));
  }

  lemma {:induction false} DistinctMembers(es: seq<Event>, members: set<Event>)
    requires forall i, j :: 0 <= i < j < |es| ==> es[i] != es[j]
    requires forall e :: e in es <==> e in members
    ensures multiset(es) == multiset(members)
  {
    if es != [] {
      var front, last := es[..|es| - 1], es[|es| - 1];
      assert es == front + [last];
      forall e
        ensures e in front <==> e in members - {last}
      {
      }
      DistinctMembers(front, members - {last});
      assert last in members;
      assert multiset(members) == multiset(members - {last}) + multiset{last};
    }
  }

  /** In the system, without assuming what the view received: when each event of a finished
      order was marked and none was lost or is being applied, the view agrees with the saga. */
  lemma UnlostViewsAgree(actions: seq<Action>, order: OrderId, cfg: Config)
    requires Possible(actions, cfg) && R.Finished(Abs(Run(START, actions, cfg)), order)
    requires var s := Run(START, actions, cfg);
      forall e :: e in R.EventsOf(Abs(s), order) ==>
        e in s.kafka && e.id in s.processed && e !in s.applying && !StopLost(actions, e, cfg)
    ensures var s := Run(START, actions, cfg);
      order in s.views && s.views[order].tx == s.db.sagas[order].tx && IsTerminal(s.views[order].status)
      && (!R.NotificationFailed(Abs(s), order) ==> s.views[order].status == s.db.sagas[order].current)
  {
    hide Reachable, StopLost, Possible, Run, R.Delivers, P.OrderJournal, P.Consumed, R.NotificationFailed, G.Reachable;
    var s := Run(START, actions, cfg);
    ReachedBy(actions, cfg);
    FinishedHasEvents(s, order, cfg);
    CompleteExactlyWithoutLosses(actions, order, cfg);
    CompleteViewsAgree(s, order, cfg);
  }

  lemma FinishedHasEvents(s: State, order: OrderId, cfg: Config)
    requires Reachable(s, cfg) && R.Finished(Abs(s), order)
    ensures R.EventsOf(Abs(s), order) != {}
  {
    hide Reachable, FullInv, G.Reachable;
    ReachableOk(s, cfg);
    O.ExactlyOneEnding(Abs(s), order, cfg.maxRetries);
    assert O.Endings(Abs(s), order) != {};
    var t :| t in O.Endings(Abs(s), order);
    assert t in R.EventsOf(Abs(s), order);
  }
}
