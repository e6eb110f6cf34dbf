/** What the journal shows of the workers: each command, the question put to its gateway, the
    gateway's answer, and the result, four adjacent entries that agree with each other. */
module WorkerRecords {
  import opened Domain
  import opened Topics
  import opened Tables
  import opened Handlers
  import opened Protocol
  import opened Guarantees
  import opened Outcomes

  /** Which worker acts on a command, what it asks, and the two names its result can carry. */
  datatype Duty = Duty(worker: Component, op: string, result: EventType, success: OrderStatus, demands: OrderStatus)

  function DutyOf(kind: EventType): Option<Duty> {
    match kind
    case PaymentCommand => Some(Duty(PaymentWorker, "process", PaymentResult, PaymentApproved, PaymentPending))
    case PaymentCompensate =>
      Some(Duty(PaymentWorker, "refund", PaymentCompensateResult, PaymentRefunded, PaymentRefundPending))
    case InventoryCommand => Some(Duty(InventoryWorker, "reserve", InventoryResult, InventoryReserved, PaymentApproved))
    case NotificationCommand =>
      Some(Duty(NotificationWorker, "notify", NotificationResult, Notified, InventoryReserved))
    case _ => None
  }

  /** A journal row that copies an event, nothing asked and nothing answered. */
  predicate Copies(x: JournalEntry, e: Event, component: Component, direction: Direction) {
    && x.order == e.order && x.sagaId == e.sagaId && x.eventId == e.id && x.kind == e.kind
    && x.component == component && x.direction == direction
    && x.from == e.previous && x.to == e.status && x.payload == e
  }

  /** The request entry asks the gateway for the command's own operation on its own order, a
      refund also for the transaction of the command. */
  predicate AsksRight(x: JournalEntry, c: Event, duty: Duty) {
    && x.request == Some(GatewayCall(c.order, duty.op, if c.kind.PaymentCompensate? then c.tx else ""))
    && x.response.None?
  }

  /** The result says what the answer entry says: success if and only if the gateway agreed
      without an error, FAILED if and only if it refused without one, RETRYING, with the error,
      if and only if it reported one. A payment's result carries the transaction id of the answer
      when it approves and none otherwise; a refund's the one of its command. */
  predicate ReportsRight(r: Event, answer: GatewayAnswer, c: Event, duty: Duty) {
    && (r.status == duty.success <==> answer.ok && answer.error.None?)
    && (r.status == Failed <==> !answer.ok && answer.error.None?)
    && (r.status == Retrying <==> answer.error.Some?)
    && r.metadata == (if answer.error.Some? then map["erro" := answer.error.value] else map[])
    && (c.kind.PaymentCommand? ==> r.tx == if r.status.PaymentApproved? then answer.tx else "")
    && (c.kind.PaymentCompensate? ==> r.tx == c.tx)
    && (c.kind.InventoryCommand? || c.kind.NotificationCommand? ==> r.tx == "")
    && r.kind == duty.result && r.order == c.order && r.sagaId == c.sagaId && r.previous == c.status
    && r.schema == SCHEMA_VERSION
  }

  /** The entries at k to k + 3 record one command from its receipt to its result. */
  ghost predicate Records(journal: seq<JournalEntry>, k: int) {
    0 <= k && k + 4 <= |journal|
    && var c, answer, r := journal[k].payload, journal[k + 2].response, journal[k + 3].payload;
       var duty := DutyOf(c.kind);
       && duty.Some?
       && Copies(journal[k], c, duty.value.worker, In) && journal[k].request.None? && journal[k].response.None?
       && Copies(journal[k + 1], c, duty.value.worker, GatewayRequest) && AsksRight(journal[k + 1], c, duty.value)
       && Copies(journal[k + 2], c, duty.value.worker, GatewayResponse) && journal[k + 2].request.None?
       && Copies(journal[k + 3], r, duty.value.worker, Out)
       && journal[k + 3].request.None? && journal[k + 3].response.None?
       && answer.Some? && ReportsRight(r, answer.value, c, duty.value)
  }

  lemma BlockRecords(journal: seq<JournalEntry>, k: nat, c: Event, answer: GatewayAnswer, r: Event)
    requires BlockAt(journal, k, c, answer, r)
    ensures Records(journal, k)
  {
    var block := journal[k..k + 4];
    assert block[0] == journal[k] && block[1] == journal[k + 1];
    assert block[2] == journal[k + 2] && block[3] == journal[k + 3];
  }

  /** In every reachable world each entry of a worker is one of four adjacent ones that record a
      command truthfully. */
  lemma WorkersRecordTruthfully(w: World, i: nat, maxRetries: int)
    requires Reachable(w, maxRetries) && i < |w.journal| && !w.journal[i].component.Orchestrator?
    ensures exists k :: k <= i < k + 4 && Records(w.journal, k)
  {
    hide BlockAt, Records, OrderOk, Reachable;
    InvAt(w, "", maxRetries);
    assert Proper(w.journal[i]);
    TruthfulBlock(w, i, maxRetries);
  }

  lemma TruthfulBlock(w: World, i: nat, maxRetries: int)
    requires Reachable(w, maxRetries) && i < |w.journal| && IsWorker(w.journal[i].component)
    ensures exists k :: k <= i < k + 4 && Records(w.journal, k)
  {
    hide BlockAt, Records;
    var actions :| Possible(actions, maxRetries) && Run(START, actions, maxRetries) == w;
    WorkersWriteWholeBlocks(actions, maxRetries);
    assert InBlock(w.journal, i);
    var k: nat, c, answer, r :| k <= i < k + 4 && BlockAt(w.journal, k, c, answer, r);
    BlockRecords(w.journal, k, c, answer, r);
  }

  /** What a worker's run writes quotes the gateway: its answer entry repeats the verdict and, of a
      payment, the transaction id, or else the error alone. */
  lemma GatewayIsQuoted(journal: seq<JournalEntry>, component: Component, e: Event, answer: GatewayAnswer, id: EventId)
    requires WorkerEffect(journal, component, e, answer, id).Ok?
    requires WorkerEffect(journal, component, e, answer, id).value.Commit?
    ensures var effect := WorkerEffect(journal, component, e, answer, id).value;
      && effect.row.None? && |effect.entries| == 4 && effect.entries[3].payload == effect.out && effect.out.id == id
      && effect.entries[2].response
         == Some(if answer.error.Some? then GatewayAnswer(false, "", answer.error)
                 else GatewayAnswer(answer.ok, if e.kind.PaymentCommand? then answer.tx else "", None))
  {
  }

  /** When a worker refuses: only its own commands, and those exactly when the status is not the
      one the command demands, or a refund names no transaction. */
  lemma RefusesExactly(journal: seq<JournalEntry>, component: Component, e: Event, answer: GatewayAnswer, id: EventId)
    ensures var r, duty := WorkerEffect(journal, component, e, answer, id), DutyOf(e.kind);
      && (r.Err? <==> duty.Some? && duty.value.worker == component
                      && (e.status != duty.value.demands || (e.kind.PaymentCompensate? && e.tx == "")))
      && (r.Err? ==> r.error == NonRetryable(if e.status != duty.value.demands then BadCommandStatus
                                             else MissingTransaction))
  {
  }

  /** When a worker acts: on its own commands it does not refuse, once each. */
  lemma ActsExactly(journal: seq<JournalEntry>, component: Component, e: Event, answer: GatewayAnswer, id: EventId)
    requires WorkerEffect(journal, component, e, answer, id).Ok?
    ensures WorkerEffect(journal, component, e, answer, id).value.Commit? <==>
      && DutyOf(e.kind).Some? && DutyOf(e.kind).value.worker == component
      && forall x :: x in journal ==> !(x.eventId == e.id && x.component == component)
  {
  }
}
