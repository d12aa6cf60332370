/** One iteration of the pipeline worker as a function of its state and of everything it cannot
    control, and whole runs as folds. */
module WorkerLoop {
  import opened Common
  import opened Ids
  import opened ReplayRange
  import opened Outbox
  import opened Retention
  import B = CircuitBreaker
  import D = DeliveryModel

  // ── Configuration, state and inputs ────────────────────────────────────

  const U64_RANGE: nat := 0x1_0000_0000_0000_0000

  /** `pollInterval` and `maxBackoff` are the configured values after their cast to 64 unsigned bits. */
  datatype Config = Config(
    key: Key, batchSize: nat, dryRun: bool, dlqEnabled: bool, maxRetries: nat,
    pollInterval: nat, maxBackoff: nat, replay: Option<Range>, breaker: B.Config)

  /** `settled` lists the messages of every batch the worker has disposed of, in order. */
  datatype View = View(
    last: int, offsets: map<Key, int>, failures: nat, backoff: nat, breaker: B.View, settled: seq<int>)

  datatype Reply = Fine | Transient | Permanent

  /** The sink took the whole batch, or it answered with an error after taking some messages. */
  datatype SinkReply = Took | Refused(taken: set<int>, transient: bool)

  datatype CommitReply = Committed | NotCommitted | CommitReplyLost

  /** Everything one iteration depends on from outside: stop signals, replies, clock readings, whether the
      batch passes the connector's size limits (`None`) or not, and whether a dead-letter insert that is
      reported as failed has committed all the same. */
  datatype Tick = Tick(
    stop: bool, poll: Reply, limits: Option<bool>, asked: nat, answered: nat, sink: SinkReply,
    dlq: Reply, dlqStored: bool, commit: CommitReply, stopInSleep: bool)

  datatype Control = Continue | Finished | Stopped | Died

  /** The result of an iteration: the new state, what the loop does next, whether it made a publish
      attempt, and the delivery events of its batch. */
  datatype Result = Result(view: View, control: Control, attempted: bool, events: seq<D.DeliveryEvent>)

  // ── Publishing ─────────────────────────────────────────────────────────

  datatype PublishOutcome = Success | Failure(transient: bool) | BreakerOpen

  datatype Directive = Acknowledge | BackOff | RouteToDlq | Shutdown

  /** The directive and the new failure count. */
  function Direct(c: Config, outcome: PublishOutcome, failures: nat): (Directive, nat) {
    match outcome
    case Success => (Acknowledge, 0)
    case BreakerOpen => (if c.dlqEnabled then RouteToDlq else BackOff, failures)
    case Failure(transient) =>
      (if !transient then (if c.dlqEnabled then RouteToDlq else Shutdown)
       else if c.dlqEnabled && failures + 1 > c.maxRetries then RouteToDlq else BackOff,
       failures + 1)
  }

  /** The attempt is given up on: the breaker refused it, it failed for good, or it failed once too often. */
  predicate GivenUp(c: Config, outcome: PublishOutcome, failures: nat) {
    match outcome
    case Success => false
    case BreakerOpen => true
    case Failure(transient) => !transient || failures + 1 > c.maxRetries
  }

  /** A batch over the limits never reaches the breaker; a refusal by the breaker never reaches the sink. */
  function Publish(c: Config, breaker: B.View, t: Tick): (PublishOutcome, B.View) {
    if t.limits.Some? then (Failure(t.limits.value), breaker)
    else
      var (asked, allow) := B.ShouldAllow(c.breaker, breaker, t.asked);
      if !allow then (BreakerOpen, asked)
      else
        match t.sink
        case Took => (Success, B.RecordSuccess(c.breaker, asked))
        case Refused(_, transient) => (Failure(transient), B.RecordFailure(c.breaker, asked, t.answered))
  }

  /** The messages of the batch that the sink takes if it is called. */
  function Taken(t: Tick, messages: seq<int>): set<int> {
    match t.sink
    case Took => Elems(messages)
    case Refused(taken, _) => taken * Elems(messages)
  }

  function PublishEvents(t: Tick, outcome: PublishOutcome, messages: seq<int>, frontier: nat): seq<D.DeliveryEvent> {
    match outcome
    case Success => [D.Encode, D.StartPublish, D.AcknowledgeBySink(frontier)]
    case BreakerOpen => [D.Encode, D.StartPublish, D.FailPublish(true)]
    case Failure(transient) =>
      if t.limits.None? && Taken(t, messages) != {}
      then [D.Encode, D.StartPublish, D.AcceptBySink, D.FailPublish(transient)]
      else [D.Encode, D.StartPublish, D.FailPublish(transient)]
  }

  // ── The source ─────────────────────────────────────────────────────────

  function Poll(c: Config, rows: Rows, last: int): seq<int> {
    SelectAfter(rows, c.key.outbox, last, c.batchSize)
  }

  function Messages(c: Config, ids: seq<int>): seq<int> {
    if c.replay.Some? then InRange(ids, c.replay.value) else ids
  }

  /** Commits the checkpoint: the durable offset unless this is a replay, then the cursor. A negative
      offset is refused. */
  function Commit(c: Config, v: View, top: int, messages: seq<int>, reply: CommitReply): (View, bool) {
    if c.replay.None? && top < 0 then (v, false)
    else
      var durable := if c.replay.None? && reply != NotCommitted then UpsertOffset(v.offsets, c.key, top) else v.offsets;
      if reply == Committed
      then (v.(offsets := durable, last := Max(v.last, top), settled := v.settled + messages), true)
      else (v.(offsets := durable), false)
  }

  // ── One iteration ──────────────────────────────────────────────────────

  function NextBackoff(c: Config, backoff: nat): nat {
    Min((backoff * 2) % U64_RANGE, c.maxBackoff)
  }

  function Sleep(v: View, t: Tick, attempted: bool, events: seq<D.DeliveryEvent>): Result {
    Result(v, if t.stopInSleep then Stopped else Continue, attempted, events)
  }

  function Settle(c: Config, v: View, top: int, messages: seq<int>, t: Tick, failures: nat,
                  attempted: bool, events: seq<D.DeliveryEvent>): Result {
    var (w, ok) := Commit(c, v, top, messages, t.commit);
    if ok then Result(w.(failures := failures), Continue, attempted, events + [D.CommitCheckpoint])
    else Result(w, Died, attempted, events)
  }

  function Deliver(c: Config, v: View, top: int, messages: seq<int>, t: Tick): Result {
    if c.dryRun then Settle(c, v, top, messages, t, v.failures, false, [D.Encode, D.ObserveDryRun])
    else
      var (outcome, breaker) := Publish(c, v.breaker, t);
      var (directive, failures) := Direct(c, outcome, v.failures);
      var w := v.(breaker := breaker, failures := failures);
      var events := PublishEvents(t, outcome, messages, Max(top, 0));
      match directive
      case Acknowledge => Settle(c, w, top, messages, t, failures, true, events)
      case BackOff => Sleep(w, t, true, events)
      case Shutdown => Result(w, Died, true, events)
      case RouteToDlq =>
        match t.dlq
        case Fine => Settle(c, w, top, messages, t, 0, true, events + [D.PersistToDlq])
        case Transient => Sleep(w, t, true, events)
        case Permanent => Result(w, Died, true, events)
  }

  function Iterate(c: Config, rows: Rows, v: View, t: Tick): Result {
    if t.stop then Result(v, Stopped, false, [])
    else
      match t.poll
      case Permanent => Result(v, Died, false, [])
      case Transient =>
        var w := v.(failures := v.failures + 1);
        if t.stopInSleep then Result(w, Stopped, false, [])
        else Result(w.(backoff := NextBackoff(c, v.backoff)), Continue, false, [])
      case Fine =>
        var ids := Poll(c, rows, v.last);
        var messages := Messages(c, ids);
        if c.replay.Some? && messages == [] then Result(v, Finished, false, [])
        else
          var w := v.(backoff := c.pollInterval);
          if ids == [] then Sleep(w, t, false, [])
          else Deliver(c, w, ids[|ids| - 1], messages, t)
  }

  /** One iteration's surroundings: the rows there are when it polls, and its inputs. */
  datatype Moment = Moment(rows: Rows, tick: Tick)

  /** The loop: iterations until one of them ends it. Between two of them the rows may change. */
  function Run(c: Config, v: View, moments: seq<Moment>): Result
    decreases |moments|
  {
    if moments == [] then Result(v, Continue, false, [])
    else
      var r := Iterate(c, moments[0].rows, v, moments[0].tick);
      if r.control == Continue then Run(c, r.view, moments[1..]) else r
  }

  function Start(c: Config, offsets: map<Key, int>): View {
    View(if c.replay.Some? then c.replay.value.from - 1
         else if c.key in offsets then offsets[c.key] else 0,
         offsets, 0, c.pollInterval, B.CLOSED, [])
  }
}
