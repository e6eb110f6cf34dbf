/** The read model of one order as a fold over the events applied to it. */
module Projection {
  import opened Domain

  datatype OrderView = OrderView(
    status: OrderStatus,
    lastType: EventType,
    tx: string,
    notificationError: bool,
    refundFailed: bool,
    timeline: seq<Event>)

  predicate Flag(e: Event, key: string) {
    key in e.metadata && e.metadata[key] == "true"
  }

  /** INSERT ... ON CONFLICT (order_id) DO UPDATE: terminal statuses are final, flags are
      sticky, an empty transaction id never overwrites, every event joins the timeline. */
  function Upsert(prior: Option<OrderView>, e: Event): OrderView {
    match prior
    case None =>
      OrderView(e.status, e.kind, e.tx, Flag(e, "notification_error"), Flag(e, "payment_refund_failed"), [e])
    case Some(v) =>
      OrderView(
        if IsTerminal(v.status) then v.status else e.status,
        if IsTerminal(v.status) then v.lastType else e.kind,
        if e.tx != "" then e.tx else v.tx,
        v.notificationError || Flag(e, "notification_error"),
        v.refundFailed || Flag(e, "payment_refund_failed"),
        v.timeline + [e])
  }

  function ViewAt(views: map<OrderId, OrderView>, order: OrderId): Option<OrderView> {
    if order in views then Some(views[order]) else None
  }

  function Project(es: seq<Event>): Option<OrderView> {
    if es == [] then None else Some(Upsert(Project(es[..|es| - 1]), es[|es| - 1]))
  }

  lemma ProjectAppend(es: seq<Event>)
    requires es != []
    ensures var front, last := es[..|es| - 1], es[|es| - 1];
      Project(es) == Some(Upsert(Project(front), last))
      && (front != [] ==> Project(front).Some?) && (front == [] ==> Project(front).None?)
      && forall e :: e in es <==> e in front || e == last
  {
    assert es == es[..|es| - 1] + [es[|es| - 1]];
    MembersGrow(es[..|es| - 1], es[|es| - 1]);
  }

  lemma {:induction false} TimelineAndFlags(es: seq<Event>)
    requires es != []
    ensures Project(es).Some? && Project(es).value.timeline == es
    ensures Project(es).value.notificationError <==> exists e :: e in es && Flag(e, "notification_error")
    ensures Project(es).value.refundFailed <==> exists e :: e in es && Flag(e, "payment_refund_failed")
  {
    hide Project, Flag;
    ProjectAppend(es);
    if es[..|es| - 1] != [] {
      TimelineAndFlags(es[..|es| - 1]);
    }
  }

  lemma {:induction false} TransactionShown(es: seq<Event>)
    requires es != []
    ensures Project(es).Some? && (Project(es).value.tx == "" <==> forall e :: e in es ==> e.tx == "")
    ensures Project(es).value.tx != "" ==> exists e :: e in es && e.tx == Project(es).value.tx
  {
    hide Project, Flag;
    ProjectAppend(es);
    if es[..|es| - 1] != [] {
      TransactionShown(es[..|es| - 1]);
    }
  }

  lemma {:induction false} StatusShown(es: seq<Event>)
    requires es != []
    ensures Project(es).Some? && (IsTerminal(Project(es).value.status) <==> exists e :: e in es && IsTerminal(e.status))
    ensures exists e :: e in es && e.status == Project(es).value.status && e.kind == Project(es).value.lastType
  {
    hide Project, Flag;
    ProjectAppend(es);
    if es[..|es| - 1] != [] {
      StatusShown(es[..|es| - 1]);
    }
  }

  /** The view of a non-empty sequence, field by field, without reference to order except
      for the status of an order that has not ended. */
  lemma ViewFields(es: seq<Event>)
    requires es != []
    ensures var v := Project(es).value;
      && v.timeline == es
      && (v.notificationError <==> exists e :: e in es && Flag(e, "notification_error"))
      && (v.refundFailed <==> exists e :: e in es && Flag(e, "payment_refund_failed"))
      && (v.tx == "" <==> forall e :: e in es ==> e.tx == "")
      && (v.tx != "" ==> exists e :: e in es && e.tx == v.tx)
      && (IsTerminal(v.status) <==> exists e :: e in es && IsTerminal(e.status))
      && (exists e :: e in es && e.status == v.status && e.kind == v.lastType)
  {
    hide Project, Flag;
    TimelineAndFlags(es);
    TransactionShown(es);
    StatusShown(es);
  }

  lemma MembersGrow(es: seq<Event>, last: Event)
    ensures forall e :: e in es + [last] <==> e in es || e == last
  {
  }

  /** A terminal status, once shown, is shown for ever. */
  lemma {:induction false} TerminalStatusIsFinal(es: seq<Event>, more: seq<Event>)
    requires es != [] && IsTerminal(Project(es).value.status)
    ensures Project(es + more).Some?
    ensures Project(es + more).value.status == Project(es).value.status
    ensures Project(es + more).value.lastType == Project(es).value.lastType
  {
    if more == [] {
      assert es + more == es;
    } else {
      var shorter := more[..|more| - 1];
      assert (es + more)[..|es + more| - 1] == es + shorter;
      TerminalStatusIsFinal(es, shorter);
    }
  }

  ghost predicate TransactionsAgreeIn(es: multiset<Event>) {
    forall e1, e2 :: e1 in es && e2 in es && e1.tx != "" && e2.tx != "" ==> e1.tx == e2.tx
  }

  ghost predicate EndingsAgreeIn(es: multiset<Event>) {
    forall e1, e2 :: e1 in es && e2 in es && IsTerminal(e1.status) && IsTerminal(e2.status) ==> e1.status == e2.status
  }

  /** Confluence: whatever order the same events arrive in, the flags, the transaction id
      and the timeline as a multiset come out the same, and so does the status of an order
      whose terminal events agree. */
  lemma OrderDoesNotMatter(es1: seq<Event>, es2: seq<Event>)
    requires es1 != [] && multiset(es1) == multiset(es2)
    requires TransactionsAgreeIn(multiset(es1))
    ensures es2 != []
    ensures var v1, v2 := Project(es1).value, Project(es2).value;
      && v1.notificationError == v2.notificationError && v1.refundFailed == v2.refundFailed
      && v1.tx == v2.tx
      && multiset(v1.timeline) == multiset(v2.timeline)
      && IsTerminal(v1.status) == IsTerminal(v2.status)
      && (IsTerminal(v1.status) && EndingsAgreeIn(multiset(es1)) ==> v1.status == v2.status)
  {
    assert es1[0] in multiset(es1);
    assert es2 != [];
    SameMembers(es1, es2);
    ViewFields(es1);
    ViewFields(es2);
    var v1, v2 := Project(es1).value, Project(es2).value;
    if v1.tx != "" {
      var e1 :| e1 in es1 && e1.tx == v1.tx;
      assert v2.tx != "";
      var e2 :| e2 in es2 && e2.tx == v2.tx;
      assert e1 in multiset(es1) && e2 in multiset(es1);
    }
    if IsTerminal(v1.status) && EndingsAgreeIn(multiset(es1)) {
      var e1 :| e1 in es1 && e1.status == v1.status;
      var e2 :| e2 in es2 && e2.status == v2.status;
      assert e1 in multiset(es1) && e2 in multiset(es1);
    }
  }

  lemma SameMembers(es1: seq<Event>, es2: seq<Event>)
    requires multiset(es1) == multiset(es2)
    ensures forall e :: e in es1 <==> e in es2
  {
    forall e
      ensures e in es1 <==> e in es2
    {
      assert e in es1 <==> e in multiset(es1);
      assert e in es2 <==> e in multiset(es2);
    }
  }

  /** The agreement of terminal events is needed: the one that arrives first decides. */
  lemma FirstEndingDecides(e: Event, rest: seq<Event>)
    requires IsTerminal(e.status)
    ensures Project([e] + rest).Some? && Project([e] + rest).value.status == e.status
  {
    assert [e][..0] == [];
    assert Project([e]).value.status == e.status;
    TerminalStatusIsFinal([e], rest);
  }

  /** As long as no terminal status has come, the view shows the status and the type of the event
      applied last. */
  lemma RunningViewFollows(es: seq<Event>)
    requires es != [] && forall j :: 0 <= j < |es| ==> !IsTerminal(es[j].status)
    ensures Project(es).Some?
    ensures Project(es).value.status == es[|es| - 1].status && Project(es).value.lastType == es[|es| - 1].kind
  {
    ShowsLastUnlessTerminal(es);
  }

  /** The event applied last shows unless an earlier one was terminal. */
  lemma ShowsLastUnlessTerminal(es: seq<Event>)
    requires es != [] && forall j :: 0 <= j < |es| - 1 ==> !IsTerminal(es[j].status)
    ensures Project(es).Some?
    ensures Project(es).value.status == es[|es| - 1].status && Project(es).value.lastType == es[|es| - 1].kind
  {
    hide Project, Flag;
    ProjectAppend(es);
    var front := es[..|es| - 1];
    if front != [] {
      StatusShown(front);
    }
  }

  /** The first event with a terminal status decides what the view shows for ever: its status and
      its type. */
  lemma FirstTerminalDecides(es: seq<Event>, k: nat)
    requires k < |es| && IsTerminal(es[k].status)
    requires forall j :: 0 <= j < k ==> !IsTerminal(es[j].status)
    ensures Project(es).Some?
    ensures Project(es).value.status == es[k].status && Project(es).value.lastType == es[k].kind
  {
    hide Project, Upsert;
    var shown := es[..k + 1];
    assert es == shown + es[k + 1..];
    ShowsLastUnlessTerminal(shown);
    TerminalStatusIsFinal(shown, es[k + 1..]);
  }

  /** The transaction id shown is the one named last; an event without one changes nothing. */
  lemma {:induction false} LastTransactionShows(es: seq<Event>)
    requires es != []
    ensures Project(es).Some?
    ensures Project(es).value.tx == "" ==> forall j :: 0 <= j < |es| ==> es[j].tx == ""
    ensures Project(es).value.tx != "" ==>
      exists k :: 0 <= k < |es| && es[k].tx == Project(es).value.tx && forall j :: k < j < |es| ==> es[j].tx == ""
  {
    hide Project, Flag;
    ProjectAppend(es);
    var front, n := es[..|es| - 1], |es| - 1;
    if front != [] {
      LastTransactionShows(front);
      if es[n].tx == "" && Project(front).value.tx != "" {
        var k :| 0 <= k < |front| && front[k].tx == Project(front).value.tx
          && forall j :: k < j < |front| ==> front[j].tx == "";
        assert es[k].tx == Project(es).value.tx && forall j :: k < j < |es| ==> es[j].tx == "";
      }
    }
  }
}
