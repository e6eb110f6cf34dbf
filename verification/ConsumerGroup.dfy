/** Several workers of one consumer group. A rebalance may come between any two turns, also
    while a handler works on a message. It hands partitions over and sends every reader back
    to the committed offsets, but a worker that survives it keeps its buffer and the message
    in its hands, and may commit them later. */
module ConsumerGroup {
  import opened Domain
  import opened Topics
  import opened Consumption

  type WorkerId = nat

  datatype Local = Local(
    position: map<Place, nat>,
    inHand: Option<Record>,
    pending: seq<Record>,
    count: int,
    last: int,
    stopped: Option<Stop>)

  /** What the group shares, who reads which partition, and each worker's own state. `kept`
      records the partitions some worker held a message of, in its buffer or in its hands,
      when a rebalance came. */
  datatype Group = Group(
    committed: map<Place, nat>,
    dead: seq<DeadLetter>,
    handled: set<(Place, nat)>,
    owner: map<Place, WorkerId>,
    locals: map<WorkerId, Local>,
    kept: set<Place>)

  datatype Action =
    | Turns(worker: WorkerId, turn: Turn)
    | Begin(worker: WorkerId, now: int)
    | Rebalance(owner: map<Place, WorkerId>)

  const INITIAL := Group(map[], [], {}, map[], map[], {})

  predicate Owns(g: Group, w: WorkerId, p: Place) {
    p in g.owner && g.owner[p] == w
  }

  /** A message reaches only the worker that owns its partition. */
  predicate Enabled(g: Group, a: Action) {
    match a
    case Turns(w, t) => w in g.locals && !t.Restarted? && (t.Fetched? ==> Owns(g, w, t.place))
    case Begin(_, _) => true
    case Rebalance(_) => true
  }

  /** The loop as this worker sees it. */
  function View(g: Group, w: WorkerId): Loop
    requires w in g.locals
  {
    var own := g.locals[w];
    Loop(g.committed, g.dead, g.handled, own.position, own.inHand, own.pending, own.count, own.last, own.stopped)
  }

  function Update(g: Group, w: WorkerId, s: Loop): Group {
    g.(committed := s.committed, dead := s.dead, handled := s.handled,
       locals := g.locals[w := Local(s.position, s.inHand, s.pending, s.count, s.last, s.stopped)])
  }

  /** The partitions this worker holds a message of, in its buffer or in its hands. */
  function HeldBy(own: Local): set<Place> {
    Places(own.pending) + if own.inHand.Some? then {own.inHand.value.place} else {}
  }

  function Held(g: Group): set<Place> {
    set w, p | w in g.locals && p in HeldBy(g.locals[w]) :: p
  }

  function Next(g: Group, a: Action, cfg: Settings): Group {
    match a
    case Turns(w, t) => if w in g.locals then Update(g, w, Step(View(g, w), t, cfg)) else g
    case Begin(w, now) => g.(locals := g.locals[w := Local(g.committed, None, [], 0, now, None)])
    case Rebalance(owner) =>
      g.(owner := owner,
         locals := map w | w in g.locals :: g.locals[w].(position := g.committed),
         kept := g.kept + Held(g))
  }

  function Run(g: Group, actions: seq<Action>, cfg: Settings): Group {
    if actions == [] then g
    else Next(Run(g, actions[..|actions| - 1], cfg), actions[|actions| - 1], cfg)
  }

  ghost predicate Possible(g: Group, actions: seq<Action>, cfg: Settings) {
    actions == [] ||
    (Possible(g, actions[..|actions| - 1], cfg)
     && Enabled(Run(g, actions[..|actions| - 1], cfg), actions[|actions| - 1]))
  }

  ghost predicate Reachable(g: Group, cfg: Settings) {
    exists actions :: Possible(INITIAL, actions, cfg) && Run(INITIAL, actions, cfg) == g
  }

  // ---------------------------------------------------------------- invariant

  /** The group's shared state alone. */
  function Shared(g: Group): Loop {
    Loop(g.committed, g.dead, g.handled, g.committed, None, [], 0, 0, None)
  }

  /** Of a partition that was never kept across a rebalance, only the owner holds messages, and
      the owner's reader is ahead of what is committed. */
  ghost predicate Orderly(g: Group, w: WorkerId, p: Place)
    requires w in g.locals
  {
    p !in g.kept ==> if Owns(g, w, p) then InStep(View(g, w), p) else p !in HeldBy(g.locals[w])
  }

  ghost predicate WorkerOk(g: Group, w: WorkerId, cfg: Settings)
    requires w in g.locals
  {
    BufferOk(View(g, w), cfg) && forall p :: SafeAt(View(g, w), p) && Orderly(g, w, p)
  }

  ghost predicate Inv(g: Group, cfg: Settings) {
    && (forall p :: SafeAt(Shared(g), p))
    && (forall w :: w in g.locals ==> WorkerOk(g, w, cfg))
  }

  lemma StepGrows(s: Loop, t: Turn, cfg: Settings)
    ensures s.handled <= Step(s, t, cfg).handled && s.dead <= Step(s, t, cfg).dead
  {
  }

  /** The acting worker itself. */
  lemma TurnKeepsActor(g: Group, w: WorkerId, t: Turn, cfg: Settings)
    requires Inv(g, cfg) && Enabled(g, Turns(w, t))
    ensures WorkerOk(Next(g, Turns(w, t), cfg), w, cfg)
  {
    hide SafeAt, InStep, Step, BufferOk;
    var g', s := Next(g, Turns(w, t), cfg), View(g, w);
    assert WorkerOk(g, w, cfg);
    assert View(g', w) == Step(s, t, cfg);
    StepKeepsBuffer(s, t, cfg);
    forall p
      ensures SafeAt(View(g', w), p) && Orderly(g', w, p)
    {
      assert SafeAt(s, p) && Orderly(g, w, p);
      StepKeepsPlace(s, t, cfg, p);
      if p !in g.kept && !Owns(g, w, p) {
        StepTouches(s, t, cfg, p);
      }
    }
  }

  /** What one worker finishes and commits leaves every other worker's state in order. */
  lemma TurnKeepsOther(g: Group, w: WorkerId, t: Turn, v: WorkerId, cfg: Settings)
    requires Inv(g, cfg) && Enabled(g, Turns(w, t)) && v in g.locals && v != w
    ensures WorkerOk(Next(g, Turns(w, t), cfg), v, cfg)
  {
    hide Step, NextOffset, IsDead;
    var g', s := Next(g, Turns(w, t), cfg), View(g, w);
    assert WorkerOk(g, w, cfg) && WorkerOk(g, v, cfg);
    StepGrows(s, t, cfg);
    forall p
      ensures SafeAt(View(g', v), p) && Orderly(g', v, p)
    {
      assert SafeAt(s, p) && Orderly(g, w, p) && SafeAt(View(g, v), p) && Orderly(g, v, p);
      StepKeepsPlace(s, t, cfg, p);
      OtherStaysSafe(View(g, v), View(g', v), Step(s, t, cfg), p);
      if p !in g.kept && Owns(g, v, p) {
        StepTouches(s, t, cfg, p);
        OtherStaysInStep(View(g, v), View(g', v), p);
      }
    }
  }

  lemma OtherStaysSafe(s: Loop, s': Loop, acted: Loop, p: Place)
    requires SafeAt(s, p) && SafeAt(acted, p)
    requires s' == s.(committed := acted.committed, dead := acted.dead, handled := acted.handled)
    requires s.handled <= s'.handled && s.dead <= s'.dead
    ensures SafeAt(s', p)
  {
    assert forall offset :: Finished(s, p, offset) ==> Finished(s', p, offset);
    assert forall offset :: Finished(acted, p, offset) ==> Finished(s', p, offset);
  }

  lemma OtherStaysInStep(s: Loop, s': Loop, p: Place)
    requires InStep(s, p) && s.dead <= s'.dead
    requires s' == s.(committed := s'.committed, dead := s'.dead, handled := s'.handled)
    requires At(s'.committed, p) == At(s.committed, p)
    ensures InStep(s', p)
  {
    assert forall offset :: IsDead(s, p, offset) ==> IsDead(s', p, offset);
  }

  lemma SharedIsSafe(g: Group, s: Loop, p: Place)
    requires SafeAt(s, p)
    requires g.committed == s.committed && g.dead == s.dead && g.handled == s.handled
    ensures SafeAt(Shared(g), p)
  {
    FinishedGrows(s, Shared(g), p, At(s.committed, p));
  }

  lemma TurnKeeps(g: Group, w: WorkerId, t: Turn, cfg: Settings)
    requires Inv(g, cfg) && Enabled(g, Turns(w, t))
    ensures Inv(Next(g, Turns(w, t), cfg), cfg)
  {
    hide SafeAt, Orderly, BufferOk, Step;
    var g' := Next(g, Turns(w, t), cfg);
    TurnKeepsActor(g, w, t, cfg);
    forall v | v in g'.locals
      ensures WorkerOk(g', v, cfg)
    {
      if v != w {
        TurnKeepsOther(g, w, t, v, cfg);
      }
    }
    forall p
      ensures SafeAt(Shared(g'), p)
    {
      assert SafeAt(View(g', w), p);
      SharedIsSafe(g', View(g', w), p);
    }
  }

  lemma BeginKeeps(g: Group, w: WorkerId, now: int, cfg: Settings)
    requires Inv(g, cfg)
    ensures Inv(Next(g, Begin(w, now), cfg), cfg)
  {
    hide FinishedBelow;
    var g' := Next(g, Begin(w, now), cfg);
    forall v | v in g'.locals
      ensures WorkerOk(g', v, cfg)
    {
      if v != w {
        assert WorkerOk(g, v, cfg);
        assert View(g', v) == View(g, v);
        assert forall p :: Orderly(g, v, p) ==> Orderly(g', v, p);
      } else {
        forall p
          ensures SafeAt(View(g', w), p) && Orderly(g', w, p)
        {
          assert SafeAt(Shared(g), p);
          ResumeKeepsPlace(Shared(g), View(g', w), p);
        }
      }
    }
    forall p
      ensures SafeAt(Shared(g'), p)
    {
      assert SafeAt(Shared(g), p);
    }
  }

  lemma RebalanceKeeps(g: Group, owner: map<Place, WorkerId>, cfg: Settings)
    requires Inv(g, cfg)
    ensures Inv(Next(g, Rebalance(owner), cfg), cfg)
  {
    hide NextOffset;
    var g' := Next(g, Rebalance(owner), cfg);
    forall w | w in g'.locals
      ensures WorkerOk(g', w, cfg)
    {
      assert WorkerOk(g, w, cfg);
      forall p
        ensures SafeAt(View(g', w), p) && Orderly(g', w, p)
      {
        assert SafeAt(View(g, w), p);
        RepositionKeepsSafe(View(g, w), View(g', w), p);
        HeldIsKept(g, owner, cfg, w, p);
        NextOffsetBounds(g.locals[w].pending, p);
      }
    }
    forall p
      ensures SafeAt(Shared(g'), p)
    {
      assert SafeAt(Shared(g), p);
    }
  }

  /** What a worker holds in a rebalance it still holds afterwards, and it counts as kept. */
  lemma HeldIsKept(g: Group, owner: map<Place, WorkerId>, cfg: Settings, w: WorkerId, p: Place)
    requires w in g.locals
    ensures var g' := Next(g, Rebalance(owner), cfg);
      w in g'.locals && HeldBy(g'.locals[w]) == HeldBy(g.locals[w]) && (p in HeldBy(g.locals[w]) ==> p in g'.kept)
  {
    if p in HeldBy(g.locals[w]) {
      assert p in Held(g);
    }
  }

  lemma RepositionKeepsSafe(s: Loop, s': Loop, p: Place)
    requires SafeAt(s, p) && s' == s.(position := s.committed)
    ensures SafeAt(s', p)
  {
    assert forall offset :: Finished(s, p, offset) ==> Finished(s', p, offset);
  }

  lemma StepKeeps(g: Group, a: Action, cfg: Settings)
    requires Inv(g, cfg) && Enabled(g, a)
    ensures Inv(Next(g, a, cfg), cfg)
  {
    hide Inv, Next;
    match a
    case Turns(w, t) => TurnKeeps(g, w, t, cfg);
    case Begin(w, now) => BeginKeeps(g, w, now, cfg);
    case Rebalance(owner) => RebalanceKeeps(g, owner, cfg);
  }

  lemma {:induction false} RunKeeps(actions: seq<Action>, cfg: Settings)
    requires Possible(INITIAL, actions, cfg)
    ensures Inv(Run(INITIAL, actions, cfg), cfg)
  {
    if actions != [] {
      hide Inv, Next, Enabled;
      RunKeeps(actions[..|actions| - 1], cfg);
      StepKeeps(Run(INITIAL, actions[..|actions| - 1], cfg), actions[|actions| - 1], cfg);
    }
  }

  lemma ReachableOk(g: Group, cfg: Settings)
    requires Reachable(g, cfg)
    ensures Inv(g, cfg)
  {
    var actions :| Possible(INITIAL, actions, cfg) && Run(INITIAL, actions, cfg) == g;
    RunKeeps(actions, cfg);
  }

  // ---------------------------------------------------------------- never skips

  /** However workers interleave, crash, reconnect and exchange partitions, with failing
      commits and dead letters anywhere: no offset is committed past a message that was neither
      accepted by a handler nor written to the dead letter topic. */
  lemma NeverSkips(g: Group, cfg: Settings, p: Place, offset: nat)
    requires Reachable(g, cfg) && offset < At(g.committed, p)
    ensures Finished(Shared(g), p, offset)
  {
    ReachableOk(g, cfg);
    assert SafeAt(Shared(g), p);
  }

  /** Of every worker: the counter is the size of the buffer, which stays below the batch, and
      the reader of a partition nothing was kept of across a rebalance is ahead of its offset. */
  lemma WorkersStayInStep(g: Group, w: WorkerId, cfg: Settings, p: Place)
    requires Reachable(g, cfg) && cfg.batch >= 1 && w in g.locals
    ensures g.locals[w].count == |g.locals[w].pending| < cfg.batch
    ensures Owns(g, w, p) && p !in g.kept ==> At(g.committed, p) <= At(g.locals[w].position, p)
  {
    ReachableOk(g, cfg);
    assert WorkerOk(g, w, cfg);
    assert Orderly(g, w, p);
  }

  /** What a live reader has passed was finished, but for the message in hand, so what a restart
      or a rebalance makes it read again was finished before. */
  lemma RedeliveredWasFinished(g: Group, w: WorkerId, cfg: Settings, p: Place, offset: nat)
    requires Reachable(g, cfg) && w in g.locals && g.locals[w].stopped.None?
    requires offset < At(g.locals[w].position, p)
    ensures Finished(Shared(g), p, offset) || Holds(View(g, w), p, offset)
  {
    ReachableOk(g, cfg);
    assert WorkerOk(g, w, cfg);
    assert SafeAt(View(g, w), p);
    assert Finished(View(g, w), p, offset) ==> Finished(Shared(g), p, offset);
  }

  // ---------------------------------------------------------------- commits may go back

  /** A message of the partition at or past this offset was dead-lettered, and its commit is
      the offset the group has recorded. */
  ghost predicate LetterOvertook(g: Group, p: Place, written: nat) {
    exists d :: d in g.dead && d.record.place == p && d.record.offset >= written
                && At(g.committed, p) == d.record.offset + 1
  }

  lemma WrittenIsHeld(s: Loop, t: Turn, cfg: Settings, p: Place)
    requires Written(s, t, cfg, p) > 0
    ensures p in Places(s.pending) || HoldsOf(s, p)
  {
    hide NextOffset;
    NextOffsetBounds(s.pending, p);
    if s.inHand.Some? {
      NextOffsetAppend(s.pending, s.inHand.value, p);
    }
  }

  /** Only a dead letter comes between what an orderly owner writes and what is committed. */
  lemma OwnerIsOvertakenByLetters(s: Loop, t: Turn, cfg: Settings, p: Place)
    requires InStep(s, p) && 0 < Written(s, t, cfg, p) < At(s.committed, p)
    ensures Written(s, t, cfg, p) <= At(s.committed, p) - 1 && IsDead(s, p, At(s.committed, p) - 1)
  {
    hide NextOffset, VerdictOf;
    if s.inHand.Some? {
      NextOffsetAppend(s.pending, s.inHand.value, p);
    }
  }

  /** Over every turn of every worker: it lowers a committed offset exactly when what it writes
      is recorded and lies below, and that is so only because a dead letter was committed since,
      or because a message of the partition was kept across a rebalance. Whether a reconnect, a
      full batch, the interval or a dead letter of its own made it write does not matter. */
  lemma TurnLowersExactly(g: Group, w: WorkerId, t: Turn, cfg: Settings, p: Place)
    requires Reachable(g, cfg) && Enabled(g, Turns(w, t))
    ensures var written := Written(View(g, w), t, cfg, p);
      At(Next(g, Turns(w, t), cfg).committed, p) < At(g.committed, p)
      <==> Commits(t) && Recorded(t.commit, p) && 0 < written < At(g.committed, p)
           && (p in g.kept || LetterOvertook(g, p, written))
  {
    hide Written, Step, InStep, SafeAt;
    ReachableOk(g, cfg);
    var s := View(g, w);
    assert WorkerOk(g, w, cfg);
    assert Orderly(g, w, p);
    StepCommits(s, t, cfg, p);
    if 0 < Written(s, t, cfg, p) < At(g.committed, p) && p !in g.kept {
      WrittenIsHeld(s, t, cfg, p);
      OwnerIsOvertakenByLetters(s, t, cfg, p);
    }
  }

  /** The other steps of the group commit nothing. */
  lemma OnlyTurnsCommit(g: Group, a: Action, cfg: Settings)
    requires !a.Turns?
    ensures Next(g, a, cfg).committed == g.committed
  {
  }

  /** While no message of a partition was dead-lettered and none was kept across a rebalance,
      its committed offset only rises, whichever worker does what. */
  lemma CommitsRiseUntilOvertaken(g: Group, a: Action, cfg: Settings, p: Place)
    requires Reachable(g, cfg) && Enabled(g, a)
    requires p !in g.kept && forall d :: d in g.dead ==> d.record.place != p
    ensures At(Next(g, a, cfg).committed, p) >= At(g.committed, p)
  {
    hide Next, Written;
    if a.Turns? {
      TurnLowersExactly(g, a.worker, a.turn, cfg, p);
    } else {
      OnlyTurnsCommit(g, a, cfg);
    }
  }

  // ---------------------------------------------------------------- reading on

  /** What sends this worker's reader back: a reconnect of its own, a new start, or a rebalance. */
  predicate SendsBack(g: Group, a: Action, w: WorkerId) {
    match a
    case Turns(v, t) =>
      v == w && w in g.locals && t.Stalled? && g.locals[w].stopped.None? && g.locals[w].inHand.None?
    case Begin(v, _) => v == w
    case Rebalance(_) => w in g.locals
  }

  /** In every reachable state: after a reconnect, a start or a rebalance the worker's reader stands
      at the committed offset of every partition. Of those it owns then it next takes the message
      at that offset in hand, and from there on one after the other, so that whatever it had read
      past the committed offset it reads again. A reconnect and a start leave no buffer. */
  lemma ReadsOnFromCommitted(g: Group, a: Action, w: WorkerId, p: Place, value: Option<Event>, cfg: Settings)
    requires Reachable(g, cfg) && Enabled(g, a) && SendsBack(g, a, w)
    ensures var g' := Next(g, a, cfg);
      && w in g'.locals && (forall q :: At(g'.locals[w].position, q) == At(g'.committed, q))
      && (!a.Rebalance? ==> g'.locals[w].pending == [] && g'.locals[w].inHand.None?)
      && (Owns(g', w, p) && g'.locals[w].stopped.None? && g'.locals[w].inHand.None? ==>
            var next := Next(g', Turns(w, Fetched(p, value)), cfg);
            && Enabled(g', Turns(w, Fetched(p, value)))
            && next.locals[w].inHand == Some(Record(p, At(g'.committed, p), value))
            && At(next.locals[w].position, p) == At(g'.committed, p) + 1)
  {
    hide Reachable, Step;
    var g' := Next(g, a, cfg);
    if a.Turns? {
      ResumesAtCommitted(View(g, w), a.turn, p, value, cfg);
    }
    if g'.locals[w].stopped.None? && g'.locals[w].inHand.None? {
      FetchTakesNext(View(g', w), p, value, cfg);
    }
  }

  // ---------------------------------------------------------------- how it comes about

  lemma Then(g: Group, a: Action, cfg: Settings) returns (g': Group)
    requires Reachable(g, cfg) && Enabled(g, a)
    ensures Reachable(g', cfg) && g' == Next(g, a, cfg)
  {
    hide Next, Enabled;
    var actions :| Possible(INITIAL, actions, cfg) && Run(INITIAL, actions, cfg) == g;
    var longer := actions + [a];
    assert longer[..|longer| - 1] == actions;
    g' := Next(g, a, cfg);
    assert Possible(INITIAL, longer, cfg) && Run(INITIAL, longer, cfg) == g';
  }

  /** A worker takes the next message of a partition it owns in hand. */
  lemma Take(g: Group, w: WorkerId, p: Place, value: Option<Event>, cfg: Settings) returns (g': Group)
    requires Reachable(g, cfg) && w in g.locals && Owns(g, w, p)
    requires g.locals[w].stopped.None? && g.locals[w].inHand.None?
    ensures Reachable(g', cfg)
    ensures var own, at := g.locals[w], At(g.locals[w].position, p);
      g' == g.(locals := g.locals[w := own.(position := own.position[p := at + 1],
                                            inHand := Some(Record(p, at, value)))])
  {
    hide Reachable, Step;
    g' := Then(g, Turns(w, Fetched(p, value)), cfg);
    TakeStep(View(g, w), p, value, cfg);
  }

  lemma TakeStep(s: Loop, p: Place, value: Option<Event>, cfg: Settings)
    requires s.stopped.None? && s.inHand.None?
    ensures Step(s, Fetched(p, value), cfg)
         == s.(position := s.position[p := At(s.position, p) + 1], inHand := Some(Record(p, At(s.position, p), value)))
  {
  }

  /** The handler accepts the message in hand, and no flush is due. */
  lemma Keep(g: Group, w: WorkerId, cfg: Settings) returns (g': Group)
    requires Reachable(g, cfg) && w in g.locals && g.locals[w].stopped.None? && g.locals[w].inHand.Some?
    requires VerdictOf(g.locals[w].inHand.value.value, Ok(())).Ok?
    requires g.locals[w].count + 1 < cfg.batch && g.locals[w].last == 0 && cfg.interval > 0
    ensures Reachable(g', cfg)
    ensures var own, m := g.locals[w], g.locals[w].inHand.value;
      g' == g.(handled := g.handled + {(m.place, m.offset)},
               locals := g.locals[w := own.(inHand := None, pending := own.pending + [m], count := own.count + 1)])
  {
    hide Reachable, Step;
    g' := Then(g, Turns(w, Returned(Ok(()), Acknowledged, Fate(true, {}), 0)), cfg);
    KeepStep(View(g, w), cfg);
  }

  lemma KeepStep(s: Loop, cfg: Settings)
    requires s.stopped.None? && s.inHand.Some? && VerdictOf(s.inHand.value.value, Ok(())).Ok?
    requires s.count + 1 < cfg.batch && s.last == 0 && cfg.interval > 0
    ensures var m := s.inHand.value;
      Step(s, Returned(Ok(()), Acknowledged, Fate(true, {}), 0), cfg)
      == s.(inHand := None, handled := s.handled + {(m.place, m.offset)}, pending := s.pending + [m],
            count := s.count + 1)
  {
    hide CommitOffsets;
  }

  /** A turn of this worker, all of whose commits are recorded. */
  lemma Commit(g: Group, w: WorkerId, t: Turn, cfg: Settings, p: Place) returns (g': Group)
    requires Reachable(g, cfg) && w in g.locals && (t.Returned? || t.Stalled?) && t.commit.ok
    ensures Reachable(g', cfg) && g' == Next(g, Turns(w, t), cfg)
    ensures At(g'.committed, p)
         == if Written(View(g, w), t, cfg, p) > 0 then Written(View(g, w), t, cfg, p) else At(g.committed, p)
    ensures forall v :: v in g.locals && v != w ==> v in g'.locals && g'.locals[v] == g.locals[v]
    ensures g'.owner == g.owner && g'.kept == g.kept
  {
    hide Step, Written;
    g' := Then(g, Turns(w, t), cfg);
    StepCommits(View(g, w), t, cfg, p);
  }

  /** A worker that owns the one partition read and has message 0 in hand. */
  lemma OneInHand(p: Place, value: Option<Event>, w: WorkerId, cfg: Settings) returns (g: Group)
    ensures Reachable(g, cfg) && g.owner == map[p := w] && g.kept == {} && g.dead == [] && g.committed == map[]
    ensures g.locals == map[w := Local(map[p := 1], Some(Record(p, 0, value)), [], 0, 0, None)]
  {
    hide Reachable;
    var g1 := OneIdle(p, w, cfg);
    g := Take(g1, w, p, value, cfg);
  }

  /** A worker that owns the one partition read and has seen no message yet. */
  lemma OneIdle(p: Place, w: WorkerId, cfg: Settings) returns (g: Group)
    ensures Reachable(g, cfg)
    ensures g == Group(map[], [], {}, map[p := w], map[w := Local(map[], None, [], 0, 0, None)], {})
  {
    var none: seq<Action> := [];
    assert Possible(INITIAL, none, cfg) && Run(INITIAL, none, cfg) == INITIAL;
    assert Reachable(INITIAL, cfg);
    hide Reachable, Run, Possible;
    var g1 := Then(INITIAL, Begin(w, 0), cfg);
    assert g1.locals == map[w := Local(map[], None, [], 0, 0, None)];
    assert Held(g1) == {} by { BeginHoldsNothing(INITIAL, w, 0, cfg); }
    g := Then(g1, Rebalance(map[p := w]), cfg);
    assert g.locals == g1.locals;
  }

  /** A second worker takes the partition over; the first keeps what it holds. */
  lemma HandOver(g: Group, p: Place, cfg: Settings) returns (g': Group)
    requires Reachable(g, cfg) && g.locals.Keys == {1} && g.committed == map[]
    ensures Reachable(g', cfg) && g'.owner == map[p := 2] && g'.dead == g.dead && g'.committed == map[]
    ensures g'.locals == map[1 := g.locals[1].(position := map[]), 2 := Local(map[], None, [], 0, 0, None)]
    ensures g'.kept == g.kept + Held(g)
  {
    hide Reachable;
    var g1 := Then(g, Begin(2, 0), cfg);
    g' := Then(g1, Rebalance(map[p := 2]), cfg);
    BeginHoldsNothing(g, 2, 0, cfg);
  }

  lemma BeginHoldsNothing(g: Group, w: WorkerId, now: int, cfg: Settings)
    requires w !in g.locals
    ensures Held(Next(g, Begin(w, now), cfg)) == Held(g)
  {
    var g' := Next(g, Begin(w, now), cfg);
    assert HeldBy(g'.locals[w]) == {};
    forall p | p in Held(g)
      ensures p in Held(g')
    {
      var v :| v in g.locals && p in HeldBy(g.locals[v]);
      assert g'.locals[v] == g.locals[v];
    }
    forall p | p in Held(g')
      ensures p in Held(g)
    {
      var v :| v in g'.locals && p in HeldBy(g'.locals[v]);
      assert v in g.locals;
    }
  }

  /** The second worker handles messages 0 and 1 and commits them as a full batch of two. */
  lemma SecondCommitsTwo(g: Group, p: Place, e: Event, cfg: Settings) returns (g': Group)
    requires Reachable(g, cfg) && cfg.batch == 2 && cfg.interval > 0 && SchemaSupported(e)
    requires 1 in g.locals && 2 in g.locals && Owns(g, 2, p)
    requires g.locals[2] == Local(map[], None, [], 0, 0, None)
    ensures Reachable(g', cfg) && At(g'.committed, p) == 2 && g'.dead == g.dead && g'.kept == g.kept
    ensures 1 in g'.locals && g'.locals[1] == g.locals[1]
  {
    hide Reachable, Step, NextOffset;
    var m0, m1 := Record(p, 0, Some(e)), Record(p, 1, Some(e));
    var g1 := Take(g, 2, p, Some(e), cfg);
    var g2 := Keep(g1, 2, cfg);
    assert g2.locals[2].pending == [m0];
    var g3 := Take(g2, 2, p, Some(e), cfg);
    assert g3.locals[2].pending == [m0] && g3.locals[2].inHand == Some(m1) && g3.locals[2].count == 1;
    NextOffsetAppend([], m0, p);
    NextOffsetAppend([m0], m1, p);
    var t := Returned(Ok(()), Acknowledged, Fate(true, {}), 0);
    assert Written(View(g3, 2), t, cfg, p) == 2;
    g' := Commit(g3, 2, t, cfg, p);
    AcceptAddsNoLetter(View(g3, 2), t, cfg);
  }

  lemma AcceptAddsNoLetter(s: Loop, t: Turn, cfg: Settings)
    requires t.Stalled? || (t.Returned? && s.inHand.Some? && VerdictOf(s.inHand.value.value, t.verdict).Ok?)
    ensures Step(s, t, cfg).dead == s.dead
  {
    hide CommitOffsets;
  }

  /** A dead letter makes a committed offset go back: message 0 waits in the buffer, message 1
      is dead-lettered and committed, then a reconnect flushes message 0. */
  lemma DeadLetterLowersOffset(p: Place, e: Event, cfg: Settings) returns (g: Group, a: Action)
    requires cfg.dlq && cfg.batch >= 2 && cfg.interval > 0 && SchemaSupported(e)
    ensures Reachable(g, cfg) && Enabled(g, a) && g.kept == {}
    ensures At(g.committed, p) == 2 && At(Next(g, a, cfg).committed, p) == 1
  {
    hide Reachable, NextOffset, DLQTopicFor;
    var g1 := OneInHand(p, Some(e), 0, cfg);
    var g2 := Keep(g1, 0, cfg);
    var g3 := Take(g2, 0, p, None, cfg);
    var m, d := Record(p, 0, Some(e)), Record(p, 1, None);
    NextOffsetAppend([], m, p);
    NextOffsetAppend([], d, p);
    assert g3.locals[0].pending == [m] && g3.locals[0].inHand == Some(d);
    g := Commit(g3, 0, Returned(Ok(()), Acknowledged, Fate(true, {}), 0), cfg, p);
    assert g.locals[0].pending == [m];
    var flush := Stalled(Fate(true, {}), 0);
    a := Turns(0, flush);
    StepCommits(View(g, 0), flush, cfg, p);
  }

  /** A rebalance does, with no dead letter at all: a worker keeps message 0 in its buffer while
      the next owner commits messages 0 and 1, then flushes its own. */
  lemma RebalanceLowersOffset(p: Place, e: Event, cfg: Settings) returns (g: Group, a: Action)
    requires cfg.batch == 2 && cfg.interval > 0 && SchemaSupported(e)
    ensures Reachable(g, cfg) && Enabled(g, a) && g.dead == []
    ensures At(g.committed, p) == 2 && At(Next(g, a, cfg).committed, p) == 1
  {
    hide Reachable, NextOffset;
    var m := Record(p, 0, Some(e));
    NextOffsetAppend([], m, p);
    var g1 := OneInHand(p, Some(e), 1, cfg);
    var g2 := Keep(g1, 1, cfg);
    assert g2.locals[1].pending == [m];
    var g3 := HandOver(g2, p, cfg);
    g := SecondCommitsTwo(g3, p, e, cfg);
    var flush := Stalled(Fate(true, {}), 0);
    a := Turns(1, flush);
    StepCommits(View(g, 1), flush, cfg, p);
  }

  /** A verdict after which the loop commits at once: accepted with the interval over, or
      definitively rejected with a dead letter topic. */
  predicate CommitsAtOnce(verdict: Result<(), Failure>, cfg: Settings) {
    verdict.Ok? || (verdict.error.NonRetryable? && cfg.dlq)
  }

  /** It takes no buffer: a worker has message 0 in its handler when the rebalance comes, and
      commits it, or the dead letter it becomes, after the next owner has committed two. */
  lemma LateReturnLowersOffset(p: Place, e: Event, verdict: Result<(), Failure>, cfg: Settings)
      returns (g: Group, a: Action)
    requires cfg.batch == 2 && cfg.interval > 0 && SchemaSupported(e) && CommitsAtOnce(verdict, cfg)
    ensures Reachable(g, cfg) && Enabled(g, a) && g.dead == []
    ensures a.Turns? && a.worker in g.locals && g.locals[a.worker].pending == []
    ensures At(g.committed, p) == 2 && At(Next(g, a, cfg).committed, p) == 1
  {
    hide Reachable, NextOffset, DLQTopicFor;
    var m := Record(p, 0, Some(e));
    NextOffsetAppend([], m, p);
    var g1 := OneInHand(p, Some(e), 1, cfg);
    var g2 := HandOver(g1, p, cfg);
    g := SecondCommitsTwo(g2, p, e, cfg);
    var t := Returned(verdict, Acknowledged, Fate(true, {}), cfg.interval);
    a := Turns(1, t);
    assert [] + [m] == [m];
    StepCommits(View(g, 1), t, cfg, p);
  }

  /** And it may be the new owner that lowers it, with an empty buffer and no dead letter so far:
      the old owner flushed two messages after the rebalance, and the new one starts over. */
  lemma NewOwnerLowersOffset(p: Place, e: Event, verdict: Result<(), Failure>, cfg: Settings)
      returns (g: Group, a: Action)
    requires cfg.batch >= 3 && cfg.interval > 0 && SchemaSupported(e) && CommitsAtOnce(verdict, cfg)
    ensures Reachable(g, cfg) && Enabled(g, a) && g.dead == []
    ensures a.Turns? && Owns(g, a.worker, p) && a.worker in g.locals && g.locals[a.worker].pending == []
    ensures At(g.committed, p) == 2 && At(Next(g, a, cfg).committed, p) == 1
  {
    hide Reachable, NextOffset, DLQTopicFor, Step, Next;
    var m := Record(p, 0, Some(e));
    NextOffsetAppend([], m, p);
    g := FlushedByTheOldOwner(p, e, cfg);
    var t := Returned(verdict, Acknowledged, Fate(true, {}), cfg.interval);
    a := Turns(2, t);
    assert [] + [m] == [m] && Written(View(g, 2), t, cfg, p) == 1;
    var g' := Commit(g, 2, t, cfg, p);
  }

  /** The old owner has flushed messages 0 and 1 after the hand-over, while the new one has
      message 0 in hand. */
  lemma FlushedByTheOldOwner(p: Place, e: Event, cfg: Settings) returns (g: Group)
    requires cfg.batch >= 3 && cfg.interval > 0 && SchemaSupported(e)
    ensures Reachable(g, cfg) && g.dead == [] && At(g.committed, p) == 2 && Owns(g, 2, p) && 2 in g.locals
    ensures g.locals[2] == Local(map[p := 1], Some(Record(p, 0, Some(e))), [], 0, 0, None)
  {
    hide Reachable, NextOffset, Step;
    var m0, m1 := Record(p, 0, Some(e)), Record(p, 1, Some(e));
    var g1 := OneInHand(p, Some(e), 1, cfg);
    var g2 := Keep(g1, 1, cfg);
    var g3 := Take(g2, 1, p, Some(e), cfg);
    var g4 := Keep(g3, 1, cfg);
    assert g4.locals[1].pending == [m0, m1] && g4.locals[1].inHand == None;
    NextOffsetAppend([], m0, p);
    NextOffsetAppend([m0], m1, p);
    assert [m0] + [m1] == [m0, m1];
    var g5 := HandOver(g4, p, cfg);
    var g6 := Take(g5, 2, p, Some(e), cfg);
    var flush := Stalled(Fate(true, {}), 0);
    assert Written(View(g6, 1), flush, cfg, p) == 2;
    g := Commit(g6, 1, flush, cfg, p);
    AcceptAddsNoLetter(View(g6, 1), flush, cfg);
  }

  // ---------------------------------------------------------------- catching up

  /** Of a partition nothing was kept of across a rebalance: whenever a turn writes an offset
      and it is recorded, whether the messages were buffered now or long ago, only dead letters
      remain between what is committed and the reader. */
  lemma CommitCatchesUp(g: Group, w: WorkerId, t: Turn, cfg: Settings, p: Place, offset: nat)
    requires Reachable(g, cfg) && Enabled(g, Turns(w, t)) && p !in g.kept
    requires Commits(t) && Recorded(t.commit, p) && Written(View(g, w), t, cfg, p) > 0
    ensures var g' := Next(g, Turns(w, t), cfg);
      At(g'.committed, p) <= offset < At(g'.locals[w].position, p) ==> IsDead(Shared(g'), p, offset)
  {
    hide Written, Step, InStep, SafeAt;
    ReachableOk(g, cfg);
    var s := View(g, w);
    assert WorkerOk(g, w, cfg);
    assert Orderly(g, w, p);
    StepCommits(s, t, cfg, p);
    WrittenIsHeld(s, t, cfg, p);
    OnlyLettersRemain(s, t, cfg, p, offset);
    var g' := Next(g, Turns(w, t), cfg);
    assert View(g', w) == Step(s, t, cfg);
    assert IsDead(View(g', w), p, offset) ==> IsDead(Shared(g'), p, offset);
  }

  lemma OnlyLettersRemain(s: Loop, t: Turn, cfg: Settings, p: Place, offset: nat)
    requires InStep(s, p) && Commits(t) && Recorded(t.commit, p) && Written(s, t, cfg, p) > 0
    ensures var s' := Step(s, t, cfg);
      At(s'.committed, p) <= offset < At(s'.position, p) ==> IsDead(s', p, offset)
  {
    hide CommitOffsets, NextOffset, DLQTopicFor;
    StepCommits(s, t, cfg, p);
    if s.inHand.Some? {
      NextOffsetAppend(s.pending, s.inHand.value, p);
    }
    assert s.dead <= Step(s, t, cfg).dead by { StepGrows(s, t, cfg); }
    assert IsDead(s, p, offset) ==> IsDead(Step(s, t, cfg), p, offset);
  }

  /** The message in hand itself, accepted with a flush due or dead-lettered, brings the offset
      right up to the reader. */
  lemma MessageHeals(g: Group, w: WorkerId, t: Turn, cfg: Settings, p: Place)
    requires Reachable(g, cfg) && Enabled(g, Turns(w, t)) && p !in g.kept
    requires t.Returned? && HoldsOf(View(g, w), p) && Recorded(t.commit, p) && Written(View(g, w), t, cfg, p) > 0
    ensures At(Next(g, Turns(w, t), cfg).committed, p) == At(g.locals[w].position, p)
  {
    hide NextOffset, CommitOffsets, DLQTopicFor;
    ReachableOk(g, cfg);
    var s := View(g, w);
    assert WorkerOk(g, w, cfg);
    assert Orderly(g, w, p);
    NextOffsetAppend(s.pending, s.inHand.value, p);
    StepCommits(s, t, cfg, p);
  }

  /** A flush that failed emptied its buffer. With nothing of a partition held by any worker,
      whatever the workers do short of fetching one of its messages leaves its offset where it is. */
  lemma {:induction false} NothingHealsButAMessage(g: Group, actions: seq<Action>, cfg: Settings, p: Place)
    requires Possible(g, actions, cfg) && forall w :: w in g.locals ==> p !in HeldBy(g.locals[w])
    requires forall a :: a in actions && a.Turns? && a.turn.Fetched? ==> a.turn.place != p
    ensures At(Run(g, actions, cfg).committed, p) == At(g.committed, p)
    ensures forall w :: w in Run(g, actions, cfg).locals ==> p !in HeldBy(Run(g, actions, cfg).locals[w])
  {
    if actions != [] {
      var front, a := actions[..|actions| - 1], actions[|actions| - 1];
      assert a in actions && forall x :: x in front ==> x in actions;
      NothingHealsButAMessage(g, front, cfg, p);
      var before := Run(g, front, cfg);
      if a.Turns? {
        hide Step;
        StepTouches(View(before, a.worker), a.turn, cfg, p);
      }
    }
  }

  // ---------------------------------------------------------------- how much is redelivered

  /** Commits succeed. */
  predicate CleanAction(a: Action) {
    a.Turns? ==> Clean(a.turn)
  }

  /** The owner of a partition that was not kept across a rebalance accounts for all it read. */
  ghost predicate TightAt(g: Group, p: Place) {
    p !in g.kept ==>
      (forall w :: w in g.locals && Owns(g, w, p) ==> Tight(View(g, w), p))
      && (forall w :: w in g.locals && !Owns(g, w, p) ==> p !in HeldBy(g.locals[w]))
  }

  lemma RebalanceTightens(g: Group, owner: map<Place, WorkerId>, cfg: Settings, p: Place)
    ensures TightAt(Next(g, Rebalance(owner), cfg), p)
  {
    var g' := Next(g, Rebalance(owner), cfg);
    if p !in g'.kept {
      forall w | w in g'.locals
        ensures p !in HeldBy(g'.locals[w]) && Tight(View(g', w), p)
      {
        HeldIsKept(g, owner, cfg, w, p);
        CountAtMost(g'.locals[w].pending, p);
        NextOffsetBounds(g'.locals[w].pending, p);
      }
    }
  }

  lemma CleanTurnKeepsTight(g: Group, w: WorkerId, t: Turn, cfg: Settings, p: Place)
    requires TightAt(g, p) && Enabled(g, Turns(w, t)) && Clean(t) && Next(g, Turns(w, t), cfg).dead == g.dead
    ensures TightAt(Next(g, Turns(w, t), cfg), p)
  {
    hide Step, Tight, NextOffset, CountIn;
    var g' := Next(g, Turns(w, t), cfg);
    if p !in g'.kept {
      var s := View(g, w);
      assert View(g', w) == Step(s, t, cfg);
      if Owns(g, w, p) {
        CleanStepKeepsTight(s, t, cfg, p);
      } else {
        StepTouches(s, t, cfg, p);
      }
      forall v | v in g'.locals && Owns(g', v, p) && v != w
        ensures Tight(View(g', v), p)
      {
        SameTight(View(g, v), View(g', v), p);
      }
    }
  }

  lemma SameTight(s: Loop, s': Loop, p: Place)
    requires Tight(s, p) && s' == s.(committed := s'.committed, dead := s'.dead, handled := s'.handled)
    requires At(s'.committed, p) == At(s.committed, p)
    ensures Tight(s', p)
  {
  }

  lemma CleanStepKeepsTightAt(g: Group, a: Action, cfg: Settings, p: Place)
    requires TightAt(g, p) && Enabled(g, a) && CleanAction(a) && Next(g, a, cfg).dead == g.dead
    ensures TightAt(Next(g, a, cfg), p)
  {
    match a
    case Turns(w, t) => CleanTurnKeepsTight(g, w, t, cfg, p);
    case Begin(_, _) => NothingCounted(p);
    case Rebalance(owner) => RebalanceTightens(g, owner, cfg, p);
  }

  lemma DeadGrows(g: Group, a: Action, cfg: Settings)
    ensures g.dead <= Next(g, a, cfg).dead
  {
    if a.Turns? && a.worker in g.locals {
      StepGrows(View(g, a.worker), a.turn, cfg);
    }
  }

  lemma {:induction false} CleanRunKeepsTight(g: Group, actions: seq<Action>, cfg: Settings, p: Place)
    requires TightAt(g, p) && Possible(g, actions, cfg) && forall a :: a in actions ==> CleanAction(a)
    ensures g.dead <= Run(g, actions, cfg).dead
    ensures Run(g, actions, cfg).dead == g.dead ==> TightAt(Run(g, actions, cfg), p)
  {
    hide TightAt, Next, Enabled, CleanAction;
    if actions != [] {
      var front, a := actions[..|actions| - 1], actions[|actions| - 1];
      assert a in actions && forall x :: x in front ==> x in actions;
      CleanRunKeepsTight(g, front, cfg, p);
      var before := Run(g, front, cfg);
      DeadGrows(before, a, cfg);
      if Run(g, actions, cfg).dead == g.dead {
        CleanStepKeepsTightAt(before, a, cfg, p);
      }
    }
  }

  lemma {:induction false} RunStaysReachable(g: Group, actions: seq<Action>, cfg: Settings)
    requires Reachable(g, cfg) && Possible(g, actions, cfg)
    ensures Reachable(Run(g, actions, cfg), cfg)
  {
    hide Reachable, Next, Enabled;
    if actions != [] {
      RunStaysReachable(g, actions[..|actions| - 1], cfg);
      var _ := Then(Run(g, actions[..|actions| - 1], cfg), actions[|actions| - 1], cfg);
    }
  }

  /** Whatever state a rebalance comes in: as long as commits succeed from then on, nothing is
      dead-lettered and nothing of the partition is kept across further rebalances, a crash
      makes its owner repeat less than one batch besides the message in hand, whatever the other
      workers do. */
  lemma RedeliveryIsBounded(g: Group, owner: map<Place, WorkerId>, actions: seq<Action>, cfg: Settings, p: Place,
                            w: WorkerId)
    requires Reachable(g, cfg) && cfg.batch >= 1
    requires var from := Next(g, Rebalance(owner), cfg);
      Possible(from, actions, cfg) && Run(from, actions, cfg).dead == from.dead
    requires forall a :: a in actions ==> CleanAction(a)
    ensures var g' := Run(Next(g, Rebalance(owner), cfg), actions, cfg);
      p !in g'.kept && Owns(g', w, p) && w in g'.locals && g'.locals[w].stopped.None? ==>
        At(g'.locals[w].position, p) - At(g'.committed, p)
        < cfg.batch + if HoldsOf(View(g', w), p) then 1 else 0
  {
    hide Reachable, Next, Run, Possible;
    var from := Then(g, Rebalance(owner), cfg);
    RebalanceTightens(g, owner, cfg, p);
    CleanRunKeepsTight(from, actions, cfg, p);
    RunStaysReachable(from, actions, cfg);
    var g' := Run(from, actions, cfg);
    ReachableOk(g', cfg);
    if w in g'.locals {
      assert WorkerOk(g', w, cfg);
      CountAtMost(g'.locals[w].pending, p);
    }
  }
}
