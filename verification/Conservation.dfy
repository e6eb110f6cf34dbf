/** What the journal and the outbox say of each other over whole runs. */
module Conservation {
  import opened Domain
  import opened Tables
  import opened Handlers
  import opened Outbox
  import opened System
  import opened SystemGuarantees
  import P = Protocol
  import G = Guarantees

  /** The events of the OUT entries, in journal order. */
  function Outs(journal: seq<JournalEntry>): seq<Event> {
    if journal == [] then []
    else
      var rest, x := Outs(journal[..|journal| - 1]), journal[|journal| - 1];
      if x.direction.Out? then rest + [x.payload] else rest
  }

  lemma {:induction false} OutsAppend(journal: seq<JournalEntry>, entries: seq<JournalEntry>)
    ensures Outs(journal + entries) == Outs(journal) + Outs(entries)
    decreases |entries|
  {
    if entries == [] {
      assert journal + entries == journal;
    } else {
      var all := journal + entries;
      assert all[..|all| - 1] == journal + entries[..|entries| - 1];
      OutsAppend(journal, entries[..|entries| - 1]);
    }
  }

  lemma {:induction false} OutsMembers(journal: seq<JournalEntry>, e: Event)
    requires e in Outs(journal)
    ensures exists x :: x in journal && x.direction.Out? && x.payload == e
  {
    var front, last := journal[..|journal| - 1], journal[|journal| - 1];
    if e in Outs(front) {
      OutsMembers(front, e);
    }
  }

  /** The k-th OUT entry of the journal and the k-th append to the outbox are the same event:
      its row, once purged, had reached Kafka, and no event id is appended twice. */
  ghost predicate OneAppendEach(s: State) {
    var outs := Outs(s.db.journal);
    && |outs| == s.db.nextRow
    && (forall i, j :: 0 <= i < j < |outs| ==> outs[i].id != outs[j].id)
    && (forall r :: r in s.db.outbox ==> r.id < |outs| && r.payload == outs[r.id] && r.eventId == outs[r.id].id)
    && (forall k :: 0 <= k < |outs| ==> (exists r :: r in s.db.outbox && r.id == k) || outs[k] in s.kafka)
  }

  /** A committing handler writes one OUT entry, for the event it sends. */
  lemma EffectHasOneOut(w: P.World, a: P.Action, maxRetries: int)
    requires !a.Create? && P.Outcome(w, a, maxRetries).Ok? && P.Outcome(w, a, maxRetries).value.Commit?
    ensures Outs(P.Outcome(w, a, maxRetries).value.entries) == [P.Outcome(w, a, maxRetries).value.out]
  {
    var effect := P.Outcome(w, a, maxRetries).value;
    if a.Work? {
      FourEntries(effect.entries, effect.out);
    } else {
      TwoEntries(effect.entries, effect.out);
    }
  }

  lemma TwoEntries(entries: seq<JournalEntry>, out: Event)
    requires |entries| == 2 && entries[0].direction.In? && entries[1].direction.Out? && entries[1].payload == out
    ensures Outs(entries) == [out]
  {
    assert entries[..1][..0] == [];
    assert Outs(entries[..0]) == [] && Outs(entries[..1]) == [];
  }

  lemma FourEntries(entries: seq<JournalEntry>, out: Event)
    requires |entries| == 4 && entries[3].direction.Out? && entries[3].payload == out
    requires forall i :: 0 <= i < 3 ==> !entries[i].direction.Out?
    ensures Outs(entries) == [out]
  {
    assert entries[..3][..2] == entries[..2] && entries[..2][..1] == entries[..1] && entries[..1][..0] == [];
    assert Outs(entries[..0]) == [] && Outs(entries[..1]) == [] && Outs(entries[..2]) == [] && Outs(entries[..3]) == [];
  }

  lemma OutsWereUsed(s: State, e: Event)
    requires P.Ids(Abs(s)) && e in Outs(s.db.journal)
    ensures e.id in s.used
  {
    OutsMembers(s.db.journal, e);
    var x :| x in s.db.journal && x.direction.Out? && x.payload == e;
    assert x.payload in Abs(s).sent;
  }

  lemma CommitKeeps(s: State, a: Action, cfg: Config)
    requires Inv(s, cfg) && Enabled(s, a) && IsDelivery(a) && OneAppendEach(s)
    requires P.Outcome(Abs(s), ProtocolAction(a), cfg.maxRetries).Ok?
    requires P.Outcome(Abs(s), ProtocolAction(a), cfg.maxRetries).value.Commit?
    ensures OneAppendEach(Handled(s, P.Outcome(Abs(s), ProtocolAction(a), cfg.maxRetries)))
  {
    hide P.Inv, OrchestratorEffect, WorkerEffect, P.Writes, P.Ids, P.Origins, DeliveredOk, RelaysOk;
    var pa := ProtocolAction(a);
    var effect := P.Outcome(Abs(s), pa, cfg.maxRetries).value;
    P.DeliveryWrites(Abs(s), pa, cfg.maxRetries);
    IdsOfInv(Abs(s), cfg.maxRetries);
    AppendPublishes(s, effect, pa.e);
    WritesNew(Abs(s), effect, pa.e);
    EffectHasOneOut(Abs(s), pa, cfg.maxRetries);
    OutsAppend(s.db.journal, effect.entries);
    var s' := Handled(s, P.Outcome(Abs(s), pa, cfg.maxRetries));
    var outs := Outs(s.db.journal);
    forall i | 0 <= i < |outs|
      ensures outs[i].id != effect.out.id
    {
      OutsWereUsed(s, outs[i]);
    }
    AppendKeeps(s, s', effect.out, s'.db.outbox[|s.db.outbox|]);
  }

  lemma AppendKeeps(s: State, s': State, out: Event, row: OutboxRow)
    requires OneAppendEach(s) && s'.kafka == s.kafka
    requires Outs(s'.db.journal) == Outs(s.db.journal) + [out] && s'.db.nextRow == s.db.nextRow + 1
    requires forall i :: 0 <= i < |Outs(s.db.journal)| ==> Outs(s.db.journal)[i].id != out.id
    requires s'.db.outbox == s.db.outbox + [row]
    requires row.id == s.db.nextRow && row.payload == out && row.eventId == out.id
    ensures OneAppendEach(s')
  {
    var outs, outs' := Outs(s.db.journal), Outs(s'.db.journal);
    assert s'.db.outbox[|s.db.outbox|] == row && row in s'.db.outbox;
    forall k | 0 <= k < |outs'|
      ensures (exists r :: r in s'.db.outbox && r.id == k) || outs'[k] in s'.kafka
    {
      if k < |outs| && !(outs[k] in s.kafka) {
        var r :| r in s.db.outbox && r.id == k;
        assert r in s'.db.outbox;
      }
    }
  }

  /** Transport steps only retime rows, or drop published ones, while Kafka grows. */
  lemma TransportKeeps(s: State, s': State)
    requires OneAppendEach(s) && s'.db.journal == s.db.journal && s'.db.nextRow == s.db.nextRow
    requires s.kafka <= s'.kafka
    requires forall r' :: r' in s'.db.outbox ==>
      exists r :: r in s.db.outbox && r.id == r'.id && r.payload == r'.payload && r.eventId == r'.eventId
    requires forall r :: r in s.db.outbox ==> r.payload in s'.kafka || exists r' :: r' in s'.db.outbox && r'.id == r.id
    ensures OneAppendEach(s')
  {
    hide Outs;
    var outs := Outs(s.db.journal);
    forall k | 0 <= k < |outs|
      ensures (exists r :: r in s'.db.outbox && r.id == k) || outs[k] in s'.kafka
    {
      if outs[k] in s.kafka {
        assert outs[k] in s'.kafka;
      } else {
        var r :| r in s.db.outbox && r.id == k;
      }
    }
  }

  lemma RetimedRows(s: State, s': State)
    requires Retimed(s.db.outbox, s'.db.outbox)
    ensures forall r' :: r' in s'.db.outbox ==>
      exists r :: r in s.db.outbox && r.id == r'.id && r.payload == r'.payload && r.eventId == r'.eventId
    ensures forall r :: r in s.db.outbox ==> exists r' :: r' in s'.db.outbox && r'.id == r.id
  {
    forall r' | r' in s'.db.outbox
      ensures exists r :: r in s.db.outbox && r.id == r'.id && r.payload == r'.payload && r.eventId == r'.eventId
    {
      var i :| 0 <= i < |s'.db.outbox| && s'.db.outbox[i] == r';
      assert s.db.outbox[i] in s.db.outbox;
    }
    forall r | r in s.db.outbox
      ensures exists r' :: r' in s'.db.outbox && r'.id == r.id
    {
      var i :| 0 <= i < |s.db.outbox| && s.db.outbox[i] == r;
      assert s'.db.outbox[i] in s'.db.outbox;
    }
  }

  lemma StepRetimes(s: State, a: Action, cfg: Config)
    requires !IsDelivery(a) && !a.PurgeOutbox?
    ensures var s' := Next(s, a, cfg);
      && Retimed(s.db.outbox, s'.db.outbox)
      && s'.db.journal == s.db.journal && s'.db.nextRow == s.db.nextRow && s.kafka <= s'.kafka
  {
    hide Pick, IdsOf;
  }

  lemma OtherStepsKeep(s: State, a: Action, cfg: Config)
    requires Inv(s, cfg) && Enabled(s, a) && !IsDelivery(a) && OneAppendEach(s)
    ensures OneAppendEach(Next(s, a, cfg))
  {
    hide P.Inv, OneAppendEach, Purge, DeliveredOk, RelaysOk, Retimed;
    var s' := Next(s, a, cfg);
    if a.PurgeOutbox? {
      PurgeRemovesOnlyPublished(s.db.outbox, s.now, cfg.purgeAfter);
    } else {
      StepRetimes(s, a, cfg);
      hide RowsOk, Next, Enabled;
      RetimedRows(s, s');
    }
    TransportKeeps(s, s');
  }

  lemma {:induction false} RunKeeps(actions: seq<Action>, cfg: Config)
    requires Possible(actions, cfg)
    ensures OneAppendEach(Run(START, actions, cfg))
  {
    if actions != [] {
      hide OneAppendEach, Next, Enabled, Inv, ClaimsOk, ReadOk, G.Reachable;
      var front, a := actions[..|actions| - 1], actions[|actions| - 1];
      RunKeeps(front, cfg);
      var s := Run(START, front, cfg);
      assert Reachable(s, cfg);
      ReachableOk(s, cfg);
      if IsDelivery(a) {
        DeliveryKeepsAppends(s, a, cfg);
      } else {
        OtherStepsKeep(s, a, cfg);
      }
    }
  }

  lemma DeliveryKeepsAppends(s: State, a: Action, cfg: Config)
    requires Inv(s, cfg) && Enabled(s, a) && IsDelivery(a) && OneAppendEach(s)
    ensures OneAppendEach(Next(s, a, cfg))
  {
    hide Inv, OneAppendEach, OrchestratorEffect, WorkerEffect;
    var r := P.Outcome(Abs(s), ProtocolAction(a), cfg.maxRetries);
    assert Next(s, a, cfg) == Handled(s, r);
    if r.Ok? && r.value.Commit? {
      CommitKeeps(s, a, cfg);
    }
  }

  /** In every reachable state the OUT entries of the journal and the appends to the outbox
      correspond one to one, purged rows included. */
  lemma OneAppendPerOut(s: State, cfg: Config)
    requires Reachable(s, cfg)
    ensures var outs := Outs(s.db.journal);
      && |outs| == s.db.nextRow
      && (forall i, j :: 0 <= i < j < |outs| ==> outs[i].id != outs[j].id)
      && (forall r :: r in s.db.outbox ==> r.id < |outs| && r.payload == outs[r.id] && r.eventId == outs[r.id].id)
      && (forall k :: 0 <= k < |outs| ==> (exists r :: r in s.db.outbox && r.id == k) || outs[k] in s.kafka)
  {
    hide Possible, Run;
    var actions :| Possible(actions, cfg) && Run(START, actions, cfg) == s;
    RunKeeps(actions, cfg);
  }
}
