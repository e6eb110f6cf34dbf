/** One consumer worker's loop as a state machine: messages in hand, batched offset commits,
    dead letters, reconnects and crashes. What several workers of a group do to each other,
    module ConsumerGroup adds. */
module Consumption {
  import opened Domain
  import opened Topics

  datatype Place = Place(topic: string, partition: nat)

  /** A fetched message; no value when its bytes do not decode. */
  datatype Record = Record(place: Place, offset: nat, value: Option<Event>)

  datatype DeadLetter = DeadLetter(topic: string, record: Record)

  /** What becomes of an offset commit. One that reports an error may still have been
      recorded for some partitions. */
  datatype Fate = Fate(ok: bool, recorded: set<Place>)

  /** What becomes of a write to the dead letter topic. */
  datatype Write = Acknowledged | Refused(landed: bool)

  /** What the loop meets next. A pass through it is a fetch and the return of the handler, and
      other workers may act in between. A crash and a new process are both a restart, which may
      come at any time. A turn the loop is not waiting for leaves it as it is. */
  datatype Turn =
    | Stalled(commit: Fate, now: int)
    | FetchError(retryable: bool, cancelled: bool, commit: Fate, now: int)
    | Fetched(place: Place, value: Option<Event>)
    | Returned(verdict: Result<(), Failure>, write: Write, commit: Fate, now: int)
    | Restarted(now: int)

  datatype Settings = Settings(dlq: bool, batch: nat, interval: int)

  datatype Stop = FetchFailed | Cancelled | DeadLetterFailed | HandlerFailed(failure: Failure)

  /** The group's committed offsets and dead letters and the offsets handlers have accepted so
      far; one worker's reader, the message in its hands, and its buffer. */
  datatype Loop = Loop(
    committed: map<Place, nat>,
    dead: seq<DeadLetter>,
    handled: set<(Place, nat)>,
    position: map<Place, nat>,
    inHand: Option<Record>,
    pending: seq<Record>,
    count: int,
    last: int,
    stopped: Option<Stop>)

  function At(offsets: map<Place, nat>, p: Place): nat {
    if p in offsets then offsets[p] else 0
  }

  // ---------------------------------------------------------------- offsets

  /** One past the highest offset of a partition among some messages; 0 when there is none. */
  function NextOffset(msgs: seq<Record>, p: Place): nat {
    if msgs == [] then 0
    else
      var rest, m := NextOffset(msgs[..|msgs| - 1], p), msgs[|msgs| - 1];
      if m.place == p && m.offset + 1 > rest then m.offset + 1 else rest
  }

  function Places(msgs: seq<Record>): set<Place> {
    set m | m in msgs :: m.place
  }

  predicate Recorded(fate: Fate, p: Place) {
    fate.ok || p in fate.recorded
  }

  /** CommitMessages: the highest offset of each partition, whatever was committed before. */
  function CommitOffsets(committed: map<Place, nat>, msgs: seq<Record>, fate: Fate): map<Place, nat> {
    map p | p in committed.Keys + Places(msgs) ::
      if p in Places(msgs) && Recorded(fate, p) then NextOffset(msgs, p) else At(committed, p)
  }

  lemma {:induction false} NextOffsetBounds(msgs: seq<Record>, p: Place)
    ensures NextOffset(msgs, p) > 0 <==> p in Places(msgs)
    ensures forall m :: m in msgs && m.place == p ==> m.offset < NextOffset(msgs, p)
    ensures NextOffset(msgs, p) > 0 ==> exists m :: m in msgs && m.place == p && m.offset + 1 == NextOffset(msgs, p)
  {
    if msgs != [] {
      var front, last := msgs[..|msgs| - 1], msgs[|msgs| - 1];
      NextOffsetBounds(front, p);
      assert msgs == front + [last];
      assert forall m :: m in msgs <==> m in front || m == last;
      if NextOffset(front, p) > 0 {
        var m :| m in front && m.place == p && m.offset + 1 == NextOffset(front, p);
        assert m in msgs;
      }
      assert last in msgs;
    }
  }

  lemma NextOffsetAppend(msgs: seq<Record>, m: Record, p: Place)
    ensures NextOffset(msgs + [m], p)
         == if m.place == p && m.offset + 1 > NextOffset(msgs, p) then m.offset + 1 else NextOffset(msgs, p)
    ensures NextOffset([m], p) == if m.place == p then m.offset + 1 else 0
  {
  }

  lemma CommitAt(committed: map<Place, nat>, msgs: seq<Record>, fate: Fate, p: Place)
    ensures At(CommitOffsets(committed, msgs, fate), p)
         == if NextOffset(msgs, p) > 0 && Recorded(fate, p) then NextOffset(msgs, p) else At(committed, p)
  {
  }

  // ---------------------------------------------------------------- steps

  function Flush(s: Loop, commit: Fate, now: int): Loop {
    if s.pending == [] then s
    else s.(committed := CommitOffsets(s.committed, s.pending, commit), pending := [], count := 0, last := now)
  }

  /** A worker that knows nothing but what the group has committed. */
  function Resume(s: Loop, now: int): Loop {
    s.(position := s.committed, inHand := None, pending := [], count := 0, last := now, stopped := None)
  }

  function Halt(s: Loop, why: Stop): Loop {
    s.(stopped := Some(why))
  }

  predicate SchemaSupported(e: Event) {
    e.schema == SCHEMA_VERSION
  }

  /** Decoding and the schema check come before the handler. */
  function VerdictOf(value: Option<Event>, handler: Result<(), Failure>): Result<(), Failure> {
    if value.None? then Err(NonRetryable(Undecodable))
    else if !SchemaSupported(value.value) then Err(NonRetryable(UnsupportedSchema))
    else handler
  }

  function MoveToDLQ(s: Loop, m: Record, write: Write, commit: Fate): Loop {
    var moved := s.(dead := s.dead + [DeadLetter(DLQTopicFor(m.place.topic), m)]);
    match write
    case Refused(landed) => Halt(if landed then moved else s, DeadLetterFailed)
    case Acknowledged => moved.(committed := CommitOffsets(s.committed, [m], commit))
  }

  predicate ShouldFlush(s: Loop, now: int, cfg: Settings) {
    s.count >= cfg.batch || now - s.last >= cfg.interval
  }

  function Accept(s: Loop, m: Record, commit: Fate, now: int, cfg: Settings): Loop {
    var added := s.(handled := s.handled + {(m.place, m.offset)}, pending := s.pending + [m], count := s.count + 1);
    if ShouldFlush(added, now, cfg) then Flush(added, commit, now) else added
  }

  /** The handler has returned for the message in hand. */
  function Conclude(s: Loop, m: Record, verdict: Result<(), Failure>, write: Write, commit: Fate, now: int,
                    cfg: Settings): Loop
  {
    match VerdictOf(m.value, verdict)
    case Ok(_) => Accept(s, m, commit, now, cfg)
    case Err(failure) =>
      if cfg.dlq && failure.NonRetryable? then MoveToDLQ(s, m, write, commit)
      else Halt(s, HandlerFailed(failure))
  }

  function Step(s: Loop, t: Turn, cfg: Settings): Loop {
    if s.stopped.Some? && !t.Restarted? then s
    else
      match t
      case Restarted(now) => Resume(s, now)
      case Stalled(commit, now) =>
        if s.inHand.Some? then s
        else
          var flushed := Flush(s, commit, now);
          flushed.(position := flushed.committed)
      case FetchError(retryable, cancelled, commit, now) =>
        if s.inHand.Some? || (retryable && !cancelled) then s
        else Halt(Flush(s, commit, now), if retryable then Cancelled else FetchFailed)
      case Fetched(place, value) =>
        if s.inHand.Some? then s
        else
          var m := Record(place, At(s.position, place), value);
          s.(position := s.position[place := m.offset + 1], inHand := Some(m))
      case Returned(verdict, write, commit, now) =>
        if s.inHand.None? then s
        else Conclude(s.(inHand := None), s.inHand.value, verdict, write, commit, now, cfg)
  }

  function Run(s: Loop, turns: seq<Turn>, cfg: Settings): Loop {
    if turns == [] then s
    else Step(Run(s, turns[..|turns| - 1], cfg), turns[|turns| - 1], cfg)
  }

  // ---------------------------------------------------------------- what each turn does

  /** A fetch takes the message at the reader's position and moves the reader on by one. */
  lemma FetchTakesNext(s: Loop, p: Place, value: Option<Event>, cfg: Settings)
    requires s.stopped.None? && s.inHand.None?
    ensures var s' := Step(s, Fetched(p, value), cfg);
      && s'.inHand == Some(Record(p, At(s.position, p), value)) && At(s'.position, p) == At(s.position, p) + 1
      && (forall q :: q != p ==> At(s'.position, q) == At(s.position, q))
      && s'.committed == s.committed && s'.dead == s.dead && s'.handled == s.handled && s'.pending == s.pending
      && s'.stopped.None?
  {
  }

  /** After a reconnect or a restart the buffer is empty, and the next message fetched of any
      partition is the one at its committed offset, whatever had been read before. */
  lemma ResumesAtCommitted(s: Loop, t: Turn, p: Place, value: Option<Event>, cfg: Settings)
    requires t.Restarted? || (t.Stalled? && s.stopped.None? && s.inHand.None?)
    ensures var s' := Step(s, t, cfg);
      && s'.pending == []
      && s'.inHand.None? && s'.stopped.None? && s'.dead == s.dead && s'.handled == s.handled
      && (t.Restarted? ==> s'.committed == s.committed)
      && (t.Restarted? || s.pending != [] ==> s'.count == 0 && s'.last == t.now)
      && (t.Stalled? && s.pending == [] ==>
            s'.count == s.count && s'.last == s.last && s'.committed == s.committed)
      && (forall q :: At(s'.position, q) == At(s'.committed, q))
      && Step(s', Fetched(p, value), cfg).inHand == Some(Record(p, At(s'.committed, p), value))
  {
    hide CommitOffsets;
  }

  /** A fetch error is waited out, or it ends the worker after its buffer is flushed. */
  lemma FetchErrorEndsExactly(s: Loop, t: Turn, cfg: Settings)
    requires t.FetchError? && s.stopped.None? && s.inHand.None?
    ensures var s' := Step(s, t, cfg);
      && (t.retryable && !t.cancelled ==> s' == s)
      && (!(t.retryable && !t.cancelled) ==>
            s'.pending == [] && s'.stopped == Some(if t.retryable then Cancelled else FetchFailed)
            && s'.position == s.position && s'.dead == s.dead && s'.handled == s.handled)
  {
    hide CommitOffsets;
  }

  /** Why the loop refuses a message, if it does: its bytes, its schema, or its handler. */
  function Refusal(m: Record, verdict: Result<(), Failure>): Option<Failure> {
    if m.value.None? then Some(NonRetryable(Undecodable))
    else if m.value.value.schema != 1 then Some(NonRetryable(UnsupportedSchema))
    else if verdict.Err? then Some(verdict.error)
    else None
  }

  /** An accepted message waits in the buffer, unless the batch is full with it or the interval
      since the last commit is over: then the buffer is emptied. */
  lemma AcceptedMessage(s: Loop, t: Turn, cfg: Settings)
    requires t.Returned? && s.stopped.None? && s.inHand.Some? && Refusal(s.inHand.value, t.verdict).None?
    ensures var m, s' := s.inHand.value, Step(s, t, cfg);
      var due := s.count + 1 >= cfg.batch || t.now - s.last >= cfg.interval;
      && s'.inHand.None? && s'.handled == s.handled + {(m.place, m.offset)} && s'.dead == s.dead
      && s'.position == s.position && s'.stopped.None?
      && (due ==> s'.pending == [] && s'.count == 0 && s'.last == t.now)
      && (!due ==> s'.pending == s.pending + [m] && s'.count == s.count + 1 && s'.last == s.last
                   && s'.committed == s.committed)
  {
    hide CommitOffsets;
  }

  /** A definitively refused message becomes a dead letter under its topic's name with ".dlq", if
      there is a dead letter topic, and the loop goes on; if the write is refused, or the error
      is not definitive, or there is no such topic, the loop stops and nothing is committed. */
  lemma RefusedMessage(s: Loop, t: Turn, cfg: Settings)
    requires t.Returned? && s.stopped.None? && s.inHand.Some? && Refusal(s.inHand.value, t.verdict).Some?
    ensures var m, why, s' := s.inHand.value, Refusal(s.inHand.value, t.verdict).value, Step(s, t, cfg);
      var moves := cfg.dlq && why.NonRetryable?;
      var letter := DeadLetter(m.place.topic + ".dlq", m);
      && s'.inHand.None? && s'.handled == s.handled && s'.position == s.position
      && s'.pending == s.pending && s'.count == s.count && s'.last == s.last
      && (moves && t.write.Acknowledged? ==> s'.dead == s.dead + [letter] && s'.stopped.None?)
      && (moves && t.write.Refused? ==>
            s'.dead == (if t.write.landed then s.dead + [letter] else s.dead)
            && s'.stopped == Some(DeadLetterFailed) && s'.committed == s.committed)
      && (!moves ==> s'.dead == s.dead && s'.stopped == Some(HandlerFailed(why)) && s'.committed == s.committed)
  {
    hide CommitOffsets;
  }

  // ---------------------------------------------------------------- finished messages

  predicate IsDead(s: Loop, p: Place, offset: nat) {
    exists d :: d in s.dead && d.record.place == p && d.record.offset == offset
  }

  /** The message at this offset was accepted by the handler or is in the dead letter topic. */
  predicate Finished(s: Loop, p: Place, offset: nat) {
    (p, offset) in s.handled || IsDead(s, p, offset)
  }

  ghost predicate FinishedBelow(s: Loop, p: Place, limit: nat) {
    forall offset :: 0 <= offset < limit ==> Finished(s, p, offset)
  }

  /** The worker has this message in hand. */
  predicate Holds(s: Loop, p: Place, offset: nat) {
    s.inHand.Some? && s.inHand.value.place == p && s.inHand.value.offset == offset
  }

  predicate HoldsOf(s: Loop, p: Place) {
    s.inHand.Some? && s.inHand.value.place == p
  }

  /** Everything committed, about to be committed, before the message in hand, or passed by a
      live reader is finished, but for the message in hand. */
  ghost predicate SafeAt(s: Loop, p: Place) {
    && FinishedBelow(s, p, At(s.committed, p))
    && FinishedBelow(s, p, NextOffset(s.pending, p))
    && (HoldsOf(s, p) ==> FinishedBelow(s, p, s.inHand.value.offset))
    && (s.stopped.None? ==>
          forall offset :: 0 <= offset < At(s.position, p) ==> Finished(s, p, offset) || Holds(s, p, offset))
  }

  /** Between the last pending message of a partition and the reader there are only dead
      letters and the message in hand. */
  ghost predicate OnlyDeadAhead(s: Loop, p: Place) {
    NextOffset(s.pending, p) > 0 ==>
      forall offset :: NextOffset(s.pending, p) <= offset < At(s.position, p) ==>
        IsDead(s, p, offset) || Holds(s, p, offset)
  }

  /** The message in hand is the last the reader passed, and beyond the buffer and what is
      committed. */
  ghost predicate HeldLast(s: Loop, p: Place) {
    HoldsOf(s, p) ==>
      var held := s.inHand.value.offset;
      held + 1 == At(s.position, p) && At(s.committed, p) <= held && NextOffset(s.pending, p) <= held
  }

  /** The reader is ahead of the buffer and of what is committed. */
  ghost predicate InStep(s: Loop, p: Place) {
    && At(s.committed, p) <= At(s.position, p)
    && NextOffset(s.pending, p) <= At(s.position, p)
    && HeldLast(s, p)
    && (s.stopped.None? ==> OnlyDeadAhead(s, p))
  }

  ghost predicate BufferOk(s: Loop, cfg: Settings) {
    s.count == |s.pending| && (cfg.batch >= 1 ==> |s.pending| < cfg.batch)
  }

  lemma FinishedGrows(s: Loop, s': Loop, p: Place, limit: nat)
    requires FinishedBelow(s, p, limit)
    requires s.handled <= s'.handled && s.dead <= s'.dead
    ensures FinishedBelow(s', p, limit)
  {
    forall offset | 0 <= offset < limit
      ensures Finished(s', p, offset)
    {
      assert Finished(s, p, offset);
    }
  }

  lemma FlushKeepsPlace(s: Loop, commit: Fate, now: int, p: Place)
    requires SafeAt(s, p) && s.inHand.None?
    ensures SafeAt(Flush(s, commit, now), p)
    ensures InStep(s, p) ==> InStep(Flush(s, commit, now), p)
  {
    hide CommitOffsets;
    if s.pending != [] {
      CommitAt(s.committed, s.pending, commit, p);
      var s' := Flush(s, commit, now);
      assert forall offset :: Finished(s, p, offset) ==> Finished(s', p, offset);
    }
  }

  lemma ResumeKeepsPlace(s: Loop, s': Loop, p: Place)
    requires SafeAt(s, p)
    requires s' == s.(position := s.committed, inHand := None, pending := [], count := s'.count, last := s'.last,
                      stopped := s'.stopped)
    ensures SafeAt(s', p) && InStep(s', p)
  {
    assert forall offset :: Finished(s, p, offset) ==> Finished(s', p, offset);
  }

  lemma HaltKeepsPlace(s: Loop, s': Loop, p: Place)
    requires SafeAt(s, p) && s'.stopped.Some? && s.dead <= s'.dead
    requires s' == s.(inHand := None, dead := s'.dead, stopped := s'.stopped)
    ensures SafeAt(s', p)
    ensures InStep(s, p) ==> InStep(s', p)
  {
    assert forall offset :: Finished(s, p, offset) ==> Finished(s', p, offset);
  }

  /** The message at the reader's position is taken in hand. */
  lemma FetchKeepsPlace(s: Loop, s': Loop, m: Record, p: Place)
    requires SafeAt(s, p) && s.stopped.None? && s.inHand.None? && m.offset == At(s.position, m.place)
    requires s' == s.(position := s.position[m.place := m.offset + 1], inHand := Some(m))
    ensures SafeAt(s', p)
    ensures InStep(s, p) ==> InStep(s', p)
  {
    assert forall offset :: Finished(s, p, offset) ==> Finished(s', p, offset);
    assert forall offset :: IsDead(s, p, offset) ==> IsDead(s', p, offset);
  }

  /** The handler accepts the message in hand. */
  lemma AddedKeepsPlace(s: Loop, s': Loop, m: Record, p: Place)
    requires SafeAt(s, p) && s.stopped.None? && s.inHand == Some(m)
    requires s' == s.(inHand := None, handled := s.handled + {(m.place, m.offset)}, pending := s.pending + [m],
                      count := s.count + 1)
    ensures SafeAt(s', p)
    ensures InStep(s, p) ==> InStep(s', p)
  {
    hide NextOffset;
    NextOffsetAppend(s.pending, m, p);
    assert forall offset :: Finished(s, p, offset) ==> Finished(s', p, offset);
    assert forall offset :: Holds(s, p, offset) ==> Finished(s', p, offset);
    assert forall offset :: IsDead(s, p, offset) ==> IsDead(s', p, offset);
  }

  /** The message in hand becomes a dead letter. */
  lemma MovedKeepsPlace(s: Loop, s': Loop, m: Record, commit: Fate, p: Place)
    requires SafeAt(s, p) && s.stopped.None? && s.inHand == Some(m)
    requires s' == s.(inHand := None, dead := s.dead + [DeadLetter(DLQTopicFor(m.place.topic), m)],
                      committed := CommitOffsets(s.committed, [m], commit))
    ensures SafeAt(s', p)
    ensures InStep(s, p) ==> InStep(s', p)
  {
    hide CommitOffsets, NextOffset;
    CommitAt(s.committed, [m], commit, p);
    NextOffsetAppend([], m, p);
    var d := DeadLetter(DLQTopicFor(m.place.topic), m);
    assert s'.dead[|s.dead|] == d && d in s'.dead;
    assert IsDead(s', m.place, m.offset);
    assert forall offset :: Finished(s, p, offset) ==> Finished(s', p, offset);
    assert forall offset :: Holds(s, p, offset) ==> IsDead(s', p, offset);
    assert forall offset :: IsDead(s, p, offset) ==> IsDead(s', p, offset);
  }

  lemma ReturnKeepsPlace(s: Loop, t: Turn, cfg: Settings, p: Place)
    requires SafeAt(s, p) && s.stopped.None? && t.Returned? && s.inHand.Some?
    ensures SafeAt(Step(s, t, cfg), p)
    ensures InStep(s, p) ==> InStep(Step(s, t, cfg), p)
  {
    hide SafeAt, InStep, CommitOffsets, DLQTopicFor;
    var m := s.inHand.value;
    match VerdictOf(m.value, t.verdict)
    case Ok(_) =>
      var added := s.(inHand := None, handled := s.handled + {(m.place, m.offset)}, pending := s.pending + [m],
                      count := s.count + 1);
      AddedKeepsPlace(s, added, m, p);
      FlushKeepsPlace(added, t.commit, t.now, p);
    case Err(failure) =>
      if cfg.dlq && failure.NonRetryable? && t.write.Acknowledged? {
        MovedKeepsPlace(s, Step(s, t, cfg), m, t.commit, p);
      } else {
        HaltKeepsPlace(s, Step(s, t, cfg), p);
      }
  }

  lemma StepKeepsPlace(s: Loop, t: Turn, cfg: Settings, p: Place)
    requires SafeAt(s, p)
    ensures SafeAt(Step(s, t, cfg), p)
    ensures InStep(s, p) ==> InStep(Step(s, t, cfg), p)
  {
    hide SafeAt, InStep, CommitOffsets, Conclude;
    match t
    case Restarted(now) => ResumeKeepsPlace(s, Step(s, t, cfg), p);
    case Stalled(commit, now) =>
      if s.inHand.None? && s.stopped.None? {
        FlushKeepsPlace(s, commit, now, p);
        ResumeKeepsPlace(Flush(s, commit, now), Step(s, t, cfg), p);
      }
    case FetchError(retryable, cancelled, commit, now) =>
      if s.inHand.None? && s.stopped.None? && !(retryable && !cancelled) {
        FlushKeepsPlace(s, commit, now, p);
        HaltKeepsPlace(Flush(s, commit, now), Step(s, t, cfg), p);
      }
    case Fetched(place, value) =>
      if s.inHand.None? && s.stopped.None? {
        FetchKeepsPlace(s, Step(s, t, cfg), Record(place, At(s.position, place), value), p);
      }
    case Returned(_, _, _, _) =>
      if s.inHand.Some? && s.stopped.None? {
        ReturnKeepsPlace(s, t, cfg, p);
      }
  }

  lemma StepKeepsBuffer(s: Loop, t: Turn, cfg: Settings)
    requires BufferOk(s, cfg)
    ensures BufferOk(Step(s, t, cfg), cfg)
  {
    hide CommitOffsets;
  }

  // ---------------------------------------------------------------- what a turn commits

  /** The offset a turn asks the broker to record for a partition; 0 when it asks for none. */
  function Written(s: Loop, t: Turn, cfg: Settings, p: Place): nat {
    if s.stopped.Some? then 0
    else
      match t
      case Stalled(_, _) => if s.inHand.None? then NextOffset(s.pending, p) else 0
      case FetchError(retryable, cancelled, _, _) =>
        if s.inHand.None? && !(retryable && !cancelled) then NextOffset(s.pending, p) else 0
      case Returned(verdict, write, _, now) =>
        if s.inHand.None? then 0
        else
          var m := s.inHand.value;
          (match VerdictOf(m.value, verdict)
           case Ok(_) =>
             if ShouldFlush(s.(count := s.count + 1), now, cfg) then NextOffset(s.pending + [m], p) else 0
           case Err(failure) =>
             if cfg.dlq && failure.NonRetryable? && write.Acknowledged? then NextOffset([m], p) else 0)
      case _ => 0
  }

  predicate Commits(t: Turn) {
    t.Stalled? || t.FetchError? || t.Returned?
  }

  /** The committed offset after any turn: what the turn wrote, if it was recorded. */
  lemma StepCommits(s: Loop, t: Turn, cfg: Settings, p: Place)
    ensures At(Step(s, t, cfg).committed, p)
         == if Commits(t) && Written(s, t, cfg, p) > 0 && Recorded(t.commit, p) then Written(s, t, cfg, p)
            else At(s.committed, p)
  {
    hide CommitOffsets, NextOffset, DLQTopicFor, VerdictOf;
    match t
    case Stalled(commit, _) =>
      CommitAt(s.committed, s.pending, commit, p);
      NothingPending(p);
    case FetchError(_, _, commit, _) =>
      CommitAt(s.committed, s.pending, commit, p);
      NothingPending(p);
    case Returned(_, _, commit, _) =>
      if s.inHand.Some? {
        CommitAt(s.committed, s.pending + [s.inHand.value], commit, p);
        CommitAt(s.committed, [s.inHand.value], commit, p);
      }
    case _ =>
  }

  lemma NothingPending(p: Place)
    ensures NextOffset([], p) == 0
  {
  }

  /** A turn touches the committed offset of a partition only by a message of it: one that
      waits in the buffer, or the one in hand. */
  lemma StepTouches(s: Loop, t: Turn, cfg: Settings, p: Place)
    requires p !in Places(s.pending) && !HoldsOf(s, p)
    requires t.Fetched? ==> t.place != p
    ensures At(Step(s, t, cfg).committed, p) == At(s.committed, p)
    ensures p !in Places(Step(s, t, cfg).pending) && !HoldsOf(Step(s, t, cfg), p)
  {
    hide CommitOffsets, NextOffset, VerdictOf, DLQTopicFor;
    StepCommits(s, t, cfg, p);
    NextOffsetBounds(s.pending, p);
    if s.inHand.Some? {
      NextOffsetAppend(s.pending, s.inHand.value, p);
    }
  }

  // ---------------------------------------------------------------- how much is redelivered

  function CountIn(msgs: seq<Record>, p: Place): nat {
    if msgs == [] then 0
    else CountIn(msgs[..|msgs| - 1], p) + if msgs[|msgs| - 1].place == p then 1 else 0
  }

  lemma {:induction false} CountAtMost(msgs: seq<Record>, p: Place)
    ensures CountIn(msgs, p) <= |msgs|
    ensures CountIn(msgs, p) > 0 <==> NextOffset(msgs, p) > 0
  {
    if msgs != [] {
      CountAtMost(msgs[..|msgs| - 1], p);
    }
  }

  /** Turns whose commit, if any, succeeds. */
  predicate Clean(t: Turn) {
    Commits(t) ==> t.commit.ok
  }

  /** What is committed, buffered and in hand accounts for everything the reader has passed. */
  ghost predicate Tight(s: Loop, p: Place) {
    s.stopped.None? ==>
      var held := if HoldsOf(s, p) then 1 else 0;
      && At(s.committed, p) + CountIn(s.pending, p) + held == At(s.position, p)
      && (CountIn(s.pending, p) > 0 ==> NextOffset(s.pending, p) + held == At(s.position, p))
      && (HoldsOf(s, p) ==> s.inHand.value.offset + 1 == At(s.position, p))
  }

  lemma FlushKeepsTight(s: Loop, commit: Fate, now: int, p: Place)
    requires Tight(s, p) && commit.ok && s.inHand.None?
    ensures Tight(Flush(s, commit, now), p)
  {
    hide CommitOffsets;
    CommitAt(s.committed, s.pending, commit, p);
    CountAtMost(s.pending, p);
  }

  lemma NothingCounted(p: Place)
    ensures CountIn([], p) == 0 && NextOffset([], p) == 0
  {
  }

  /** A clean turn that dead-letters nothing. */
  lemma CleanStepKeepsTight(s: Loop, t: Turn, cfg: Settings, p: Place)
    requires Tight(s, p) && Clean(t) && Step(s, t, cfg).dead == s.dead
    ensures Tight(Step(s, t, cfg), p)
  {
    hide CommitOffsets, NextOffset, Accept, CountIn, DLQTopicFor;
    NothingCounted(p);
    match t
    case Restarted(_) =>
    case Stalled(commit, now) =>
      if s.inHand.None? {
        FlushKeepsTight(s, commit, now, p);
      }
    case FetchError(_, _, commit, now) =>
    case Fetched(_, _) =>
    case Returned(verdict, _, commit, now) =>
      if s.stopped.None? && s.inHand.Some? && VerdictOf(s.inHand.value.value, verdict).Ok? {
        AcceptKeepsTight(s, s.inHand.value, commit, now, cfg, p);
      }
  }

  lemma AcceptKeepsTight(s: Loop, m: Record, commit: Fate, now: int, cfg: Settings, p: Place)
    requires Tight(s, p) && commit.ok && s.stopped.None? && s.inHand == Some(m)
    ensures Tight(Accept(s.(inHand := None), m, commit, now, cfg), p)
  {
    hide CommitOffsets, NextOffset, CountIn, Tight;
    var added := s.(inHand := None, handled := s.handled + {(m.place, m.offset)}, pending := s.pending + [m],
                    count := s.count + 1);
    AddedKeepsTight(s, added, m, p);
    FlushKeepsTight(added, commit, now, p);
  }

  lemma AddedKeepsTight(s: Loop, added: Loop, m: Record, p: Place)
    requires Tight(s, p) && s.stopped.None? && s.inHand == Some(m)
    requires added.position == s.position && added.pending == s.pending + [m] && added.inHand.None?
    requires added.committed == s.committed && added.stopped == s.stopped
    ensures Tight(added, p)
  {
    hide NextOffset;
    assert added.pending[..|added.pending| - 1] == s.pending;
    CountAtMost(s.pending, p);
    NextOffsetAppend(s.pending, m, p);
  }
}
