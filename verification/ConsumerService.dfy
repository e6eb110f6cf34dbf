/** The consumer worker's loop and its commit batcher, with their mutable state. */
module ConsumerService {
  import opened Domain
  import opened Topics
  import opened Consumption

  class CommitBatcher {
    const batch: nat
    const interval: int
    var pending: int
    var last: int

    constructor (batch: nat, interval: int, now: int)
      ensures this.batch == batch && this.interval == interval && pending == 0 && last == now
    {
      this.batch, this.interval, pending, last := batch, interval, 0, now;
    }

    method Add()
      modifies this`pending
      ensures pending == old(pending) + 1
    {
      pending := pending + 1;
    }

    method Due(now: int) returns (due: bool)
      ensures due <==> pending >= batch || now - last >= interval
    {
      due := pending >= batch || now - last >= interval;
    }

    method Reset(now: int)
      modifies this`pending, this`last
      ensures pending == 0 && last == now
    {
      pending, last := 0, now;
    }
  }

  class Worker {
    const dlq: bool
    const batcher: CommitBatcher
    var committed: map<Place, nat>
    var dead: seq<DeadLetter>
    var handled: set<(Place, nat)>
    var position: map<Place, nat>
    var inHand: Option<Record>
    var pending: seq<Record>
    var stopped: Option<Stop>

    /** A new worker resumes from what the group has committed. */
    constructor (group: Loop, cfg: Settings, now: int)
      ensures Contents() == Step(group, Restarted(now), cfg) && Config() == cfg
      ensures fresh(batcher)
    {
      dlq := cfg.dlq;
      batcher := new CommitBatcher(cfg.batch, cfg.interval, now);
      committed, dead, handled := group.committed, group.dead, group.handled;
      position, inHand, pending, stopped := group.committed, None, [], None;
    }

    function Contents(): Loop
      reads this, batcher
    {
      Loop(committed, dead, handled, position, inHand, pending, batcher.pending, batcher.last, stopped)
    }

    function Config(): Settings
    {
      Settings(dlq, batcher.batch, batcher.interval)
    }

    method CommitMessages(msgs: seq<Record>, fate: Fate) returns (ok: bool)
      modifies this`committed
      ensures committed == CommitOffsets(old(committed), msgs, fate) && ok == fate.ok
    {
      committed := CommitOffsets(committed, msgs, fate);
      ok := fate.ok;
    }

    /** The buffer is emptied even when the commit fails. */
    method Flush(commit: Fate, now: int) returns (ok: bool)
      modifies this, batcher
      ensures Contents() == Consumption.Flush(old(Contents()), commit, now)
    {
      if |pending| == 0 {
        return true;
      }
      ok := CommitMessages(pending, commit);
      batcher.Reset(now);
      pending := [];
    }

    /** Returns whether the message was moved. */
    method MoveToDLQ(m: Record, why: Failure, write: Write, commit: Fate) returns (r: Result<bool, Stop>)
      modifies this, batcher
      ensures !(dlq && why.NonRetryable?) ==> r == Ok(false) && Contents() == old(Contents())
      ensures dlq && why.NonRetryable? ==>
        Contents().(stopped := if r.Err? then Some(r.error) else old(stopped))
          == Consumption.MoveToDLQ(old(Contents()), m, write, commit)
      ensures dlq && why.NonRetryable? && r.Ok? ==> r.value && write.Acknowledged? && stopped == old(stopped)
      ensures dlq && why.NonRetryable? && r.Err? ==> write.Refused?
    {
      if !dlq || !why.NonRetryable? {
        return Ok(false);
      }
      var letter := DeadLetter(DLQTopicFor(m.place.topic), m);
      match write {
        case Refused(landed) =>
          if landed {
            dead := dead + [letter];
          }
          return Err(DeadLetterFailed);
        case Acknowledged =>
          dead := dead + [letter];
      }
      var _ := CommitMessages([m], commit);
      return Ok(true);
    }

    /** The loop, over the first turns it is given, until something stops it. */
    method Consume(turns: seq<Turn>) returns (n: nat)
      requires stopped.None? && forall t :: t in turns ==> !t.Restarted?
      modifies this, batcher
      ensures n <= |turns| && (n < |turns| ==> stopped.Some?)
      ensures Contents() == Run(old(Contents()), turns[..n], Config())
    {
      n := 0;
      while n < |turns| && stopped.None?
        invariant n <= |turns|
        invariant Contents() == Run(old(Contents()), turns[..n], Config())
      {
        assert turns[..n + 1][..n] == turns[..n] && turns[n] in turns;
        OneTurn(turns[n]);
        n := n + 1;
      }
    }

    method OneTurn(t: Turn)
      requires stopped.None? && !t.Restarted?
      modifies this, batcher
      ensures Contents() == Step(old(Contents()), t, Config())
    {
      match t {
        case Stalled(commit, now) =>
          if inHand.None? {
            var _ := Flush(commit, now);
            position := committed;
          }
        case FetchError(retryable, cancelled, commit, now) =>
          if inHand.Some? || (retryable && !cancelled) {
            return;
          }
          var _ := Flush(commit, now);
          stopped := Some(if retryable then Cancelled else FetchFailed);
        case Fetched(place, value) =>
          if inHand.None? {
            inHand := Some(Record(place, At(position, place), value));
            position := position[place := At(position, place) + 1];
          }
        case Returned(verdict, write, commit, now) =>
          if inHand.Some? {
            var m := inHand.value;
            inHand := None;
            OneMessage(m, verdict, write, commit, now);
          }
      }
    }

    /** What the loop does with a fetched message once the handler, if it is called, returned. */
    method OneMessage(m: Record, verdict: Result<(), Failure>, write: Write, commit: Fate, now: int)
      requires stopped.None?
      modifies this, batcher
      ensures Contents() == Conclude(old(Contents()), m, verdict, write, commit, now, Config())
    {
      var err: Option<Failure> := None;
      if m.value.None? {
        err := Some(NonRetryable(Undecodable));
      } else if !SchemaSupported(m.value.value) {
        err := Some(NonRetryable(UnsupportedSchema));
      } else if verdict.Err? {
        err := Some(verdict.error);
      }
      if err.Some? {
        var moved := MoveToDLQ(m, err.value, write, commit);
        if moved.Err? {
          stopped := Some(moved.error);
        } else if !moved.value {
          stopped := Some(HandlerFailed(err.value));
        }
        return;
      }
      handled := handled + {(m.place, m.offset)};
      pending := pending + [m];
      batcher.Add();
      var due := batcher.Due(now);
      if due {
        var _ := Flush(commit, now);
      }
    }
  }
}
