/** The worker loop runs inside the protocol: every iteration is a path of protocol steps that does to the
    destinations exactly what the sink, the dead-letter queue and the dry run answered, while anything else
    happens between iterations. So what the protocol guarantees holds of the loop. */
module WorkerInProtocol {
  import opened Common
  import opened Ids
  import opened Upsert
  import opened ReplayRange
  import opened Outbox
  import opened Retention
  import opened Protocol
  import opened ProtocolInvariants
  import opened ProtocolDest
  import opened ProtocolRuns
  import L = WorkerLoop

  // ── What an iteration does to the destinations ─────────────────────────

  /** What the sink really takes; an inbox insert is one statement and takes all or nothing. */
  function Took(sink: Sink, ids: seq<int>, t: L.Tick): set<int> {
    var taken := L.Taken(t, ids);
    if sink.Inbox? && taken != Elems(ids) then {} else taken
  }

  /** The sink is called: the batch is within the limits and the breaker lets it through. */
  predicate SinkCalled(outcome: L.PublishOutcome, t: L.Tick) {
    outcome.Success? || (outcome.Failure? && t.limits.None?)
  }

  function Published(d: Dest, k: Key, sink: Sink, ids: seq<int>, outcome: L.PublishOutcome, t: L.Tick): Dest {
    if SinkCalled(outcome, t) then Accept(d, k, sink, ids, Took(sink, ids, t)) else d
  }

  function DeadLettered(d: Dest, k: Key, ids: seq<int>): Dest {
    d.(dlq := InsertIgnore(d.dlq, DlqBatch(k, ids)))
  }

  /** The destinations after a batch has been handled, read off the inputs alone: a dry run observes it; a
      called sink takes what it says it took; the dead-letter queue holds a batch the worker gave up on, if its
      insert committed; and nothing else changes. */
  function BatchDest(c: L.Config, sink: Sink, d: Dest, v: L.View, ids: seq<int>, t: L.Tick): Dest {
    if c.dryRun then d.(dryRun := d.dryRun + set i | i in ids :: (c.key, i))
    else
      var outcome := L.Publish(c, v.breaker, t).0;
      var published := Published(d, c.key, sink, ids, outcome, t);
      if c.dlqEnabled && L.GivenUp(c, outcome, v.failures) && (t.dlq == L.Fine || t.dlqStored)
      then DeadLettered(published, c.key, ids)
      else published
  }

  function DestOf(c: L.Config, sink: Sink, d: Dest, rows: Rows, v: L.View, t: L.Tick): Dest {
    var ids := L.Messages(c, L.Poll(c, rows, v.last));
    if t.stop || t.poll != L.Fine || ids == [] then d else BatchDest(c, sink, d, v, ids, t)
  }

  // ── Where the worker is ────────────────────────────────────────────────

  /** Worker `w` of the protocol is in this phase, with this cursor and, if it holds a batch, this end of its
      last poll, over these checkpoints, and nobody is using the fence. */
  ghost predicate At(s: State, w: int, c: L.Config, sink: Sink, offsets: map<Key, int>, last: int, top: int, phase: Phase) {
    && w in s.workers && w in s.live
    && s.workers[w].key == c.key && s.workers[w].dryRun == c.dryRun && s.workers[w].replay == c.replay
    && s.workers[w].sink == sink && s.workers[w].last == last && s.workers[w].phase == phase
    && (HasBatch(phase) ==> s.workers[w].top == top)
    && s.cat.offsets == offsets && FenceFree(s.store, c.key.outbox)
  }

  /** The worker waits for its next poll. */
  ghost predicate Ready(s: State, w: int, c: L.Config, sink: Sink, offsets: map<Key, int>, last: int) {
    At(s, w, c, sink, offsets, last, 0, Idle)
  }

  /** Rows, sweeps, groups and pipelines are as before. */
  ghost predicate Kept(s: State, n: State) {
    && n.store.rows == s.store.rows && n.store.committed == s.store.committed
    && n.sweeps == s.sweeps && n.swept == s.swept
    && n.cat == s.cat.(offsets := n.cat.offsets)
  }

  /** A path from `s` that keeps everything but this worker, the destinations and the checkpoints. */
  ghost predicate Way(h: Hash, s: State, n: State) {
    Leads(h, s, n) && Kept(s, n)
  }

  lemma NoWay(h: Hash, s: State)
    ensures Way(h, s, s)
  {
    LeadsNowhere(h, s);
  }

  lemma WayOn(h: Hash, s: State, a: State, n: State)
    requires Way(h, s, a) && Way(h, a, n)
    ensures Way(h, s, n)
  {
    LeadsFurther(h, s, a, n);
  }

  // ── One protocol step or a few ─────────────────────────────────────────

  /** A worker that has polled: idle again if there was nothing to hand on. */
  ghost predicate AfterPolling(n: State, w: int, c: L.Config, sink: Sink, offsets: map<Key, int>, last: int,
                               ids: seq<int>) {
    var messages := L.Messages(c, ids);
    At(n, w, c, sink, offsets, last, LastOr(ids, last), if messages == [] then Idle else Polled(messages))
  }

  lemma PollPath(h: Hash, s: State, w: int, c: L.Config, sink: Sink, offsets: map<Key, int>, last: int) returns (n: State)
    requires Ready(s, w, c, sink, offsets, last)
    ensures Way(h, s, n) && n.dest == s.dest
    ensures AfterPolling(n, w, c, sink, offsets, last, L.Poll(c, s.store.rows, last))
  {
    hide SelectAfter, InRange;
    n := PollRows(h, s, w, c.batchSize);
  }

  /** One delivery step of the worker. */
  lemma DeliverPath(h: Hash, s: State, w: int, step: DeliverStep, c: L.Config, sink: Sink, offsets: map<Key, int>,
                    last: int, top: int, phase: Phase) returns (n: State)
    requires At(s, w, c, sink, offsets, last, top, phase) && HasBatch(phase) && DeliverEnabled(s, w, step)
    ensures Way(h, s, n) && n == AfterDeliver(s, w, step)
    ensures At(n, w, c, sink, n.cat.offsets, n.workers[w].last, top, n.workers[w].phase)
    ensures !step.WriteCheckpoint? ==> n.cat.offsets == offsets
    ensures !step.AdvanceCursor? ==> n.workers[w].last == last
  {
    hide Accept, InsertIgnore, DlqBatch, UpsertOffset, Elems, LastOr;
    n := Next(h, s, Deliver(w, step));
    LeadsNowhere(h, s);
    LeadsOn(h, s, s, Deliver(w, step));
  }

  /** The poll ended at `top`, which for an ordinary worker is where its batch ends. */
  predicate EndsAt(c: L.Config, ids: seq<int>, top: int) {
    ids != [] && (c.replay.None? ==> top == ids[|ids| - 1])
  }

  lemma CheckpointPath(h: Hash, s: State, w: int, c: L.Config, sink: Sink, offsets: map<Key, int>, last: int, top: int,
                       ids: seq<int>, phase: Phase) returns (n: State)
    requires At(s, w, c, sink, offsets, last, top, phase) && EndsAt(c, ids, top)
    requires phase == SinkAcknowledged(ids) || phase == DlqPersisted(ids) || phase == DryRunObserved(ids)
    ensures Way(h, s, n) && n.dest == s.dest
    ensures At(n, w, c, sink, if c.replay.Some? then offsets else UpsertOffset(offsets, c.key, top), last, top,
               Protocol.Committed(ids))
  {
    n := DeliverPath(h, s, w, WriteCheckpoint, c, sink, offsets, last, top, phase);
  }

  lemma CursorPath(h: Hash, s: State, w: int, c: L.Config, sink: Sink, offsets: map<Key, int>, last: int, top: int,
                   ids: seq<int>) returns (n: State)
    requires At(s, w, c, sink, offsets, last, top, Protocol.Committed(ids)) && EndsAt(c, ids, top)
    ensures Way(h, s, n) && n.dest == s.dest && Ready(n, w, c, sink, offsets, Max(last, top))
  {
    n := DeliverPath(h, s, w, AdvanceCursor, c, sink, offsets, last, top, Protocol.Committed(ids));
  }

  lemma EncodePath(h: Hash, s: State, w: int, c: L.Config, sink: Sink, offsets: map<Key, int>, last: int, top: int,
                   ids: seq<int>) returns (n: State)
    requires At(s, w, c, sink, offsets, last, top, Polled(ids))
    ensures Way(h, s, n) && n.dest == s.dest && At(n, w, c, sink, offsets, last, top, Encoded(ids))
  {
    n := DeliverPath(h, s, w, Encode, c, sink, offsets, last, top, Polled(ids));
  }

  lemma StartPath(h: Hash, s: State, w: int, c: L.Config, sink: Sink, offsets: map<Key, int>, last: int, top: int,
                  ids: seq<int>) returns (n: State)
    requires At(s, w, c, sink, offsets, last, top, Encoded(ids)) && !c.dryRun
    ensures Way(h, s, n) && n.dest == s.dest && At(n, w, c, sink, offsets, last, top, PublishStarted(ids))
  {
    n := DeliverPath(h, s, w, StartPublish, c, sink, offsets, last, top, Encoded(ids));
  }

  /** The phase a publish attempt ends in. */
  function Answered(outcome: L.PublishOutcome, ids: seq<int>): Phase {
    match outcome
    case Success => SinkAcknowledged(ids)
    case BreakerOpen => PublishFailed(ids, true)
    case Failure(transient) => PublishFailed(ids, transient)
  }

  /** The protocol step for the sink's answer, or for the refusal to call it. */
  function AnswerStep(outcome: L.PublishOutcome, sink: Sink, t: L.Tick, ids: seq<int>): DeliverStep {
    match outcome
    case Success => SinkReply(Elems(ids), true, false)
    case BreakerOpen => Refuse(true)
    case Failure(transient) =>
      if t.limits.None? then SinkReply(Took(sink, ids, t), false, transient) else Refuse(transient)
  }

  lemma AnswerAllowed(s: State, w: int, sink: Sink, ids: seq<int>, outcome: L.PublishOutcome, t: L.Tick)
    requires w in s.workers && s.workers[w].phase == PublishStarted(ids) && s.workers[w].sink == sink
    requires outcome.Success? ==> t.sink.Took?
    ensures DeliverEnabled(s, w, AnswerStep(outcome, sink, t, ids))
    ensures outcome.Success? ==> Took(sink, ids, t) == Elems(ids)
  {
  }

  lemma AnswerPath(h: Hash, s: State, w: int, c: L.Config, sink: Sink, offsets: map<Key, int>, last: int, top: int,
                   ids: seq<int>, outcome: L.PublishOutcome, t: L.Tick) returns (n: State)
    requires At(s, w, c, sink, offsets, last, top, PublishStarted(ids))
    requires outcome.Success? ==> t.sink.Took?
    ensures Way(h, s, n) && At(n, w, c, sink, offsets, last, top, Answered(outcome, ids))
    ensures n.dest == Published(s.dest, c.key, sink, ids, outcome, t)
  {
    hide Accept, UpsertOffset, Elems, Took, L.Taken, DeliverEnabled, FenceFree;
    AnswerAllowed(s, w, sink, ids, outcome, t);
    n := DeliverPath(h, s, w, AnswerStep(outcome, sink, t, ids), c, sink, offsets, last, top, PublishStarted(ids));
  }

  lemma RetryPath(h: Hash, s: State, w: int, c: L.Config, sink: Sink, offsets: map<Key, int>, last: int, top: int,
                  phase: Phase) returns (n: State)
    requires At(s, w, c, sink, offsets, last, top, phase) && phase.PublishFailed?
    ensures Way(h, s, n) && n.dest == s.dest && Ready(n, w, c, sink, offsets, last)
  {
    n := DeliverPath(h, s, w, Retry, c, sink, offsets, last, top, phase);
  }

  lemma DlqPath(h: Hash, s: State, w: int, c: L.Config, sink: Sink, offsets: map<Key, int>, last: int, top: int,
                phase: Phase, stored: bool, ok: bool) returns (n: State)
    requires At(s, w, c, sink, offsets, last, top, phase) && phase.PublishFailed? && (ok ==> stored)
    ensures Way(h, s, n)
    ensures if ok then At(n, w, c, sink, offsets, last, top, DlqPersisted(phase.batch))
            else Ready(n, w, c, sink, offsets, last)
    ensures n.dest == if stored then DeadLettered(s.dest, c.key, phase.batch) else s.dest
  {
    hide Accept, UpsertOffset, LastOr, FenceFree;
    n := DeliverPath(h, s, w, WriteDlq(stored, ok), c, sink, offsets, last, top, phase);
  }

  lemma ObservePath(h: Hash, s: State, w: int, c: L.Config, sink: Sink, offsets: map<Key, int>, last: int, top: int,
                    ids: seq<int>) returns (n: State)
    requires At(s, w, c, sink, offsets, last, top, Encoded(ids)) && c.dryRun
    ensures Way(h, s, n) && At(n, w, c, sink, offsets, last, top, DryRunObserved(ids))
    ensures n.dest == s.dest.(dryRun := s.dest.dryRun + set i | i in ids :: (c.key, i))
  {
    n := DeliverPath(h, s, w, ObserveDryRun, c, sink, offsets, last, top, Encoded(ids));
  }

  // ── A batch, an iteration ──────────────────────────────────────────────

  lemma AtOffsets(s: State, w: int, c: L.Config, sink: Sink, offsets: map<Key, int>, last: int, top: int, phase: Phase)
    requires At(s, w, c, sink, offsets, last, top, phase)
    ensures s.cat.offsets == offsets
  {
  }

  /** The checkpoints after a commit of the loop that was at least carried out. */
  function Stored(c: L.Config, offsets: map<Key, int>, top: int): map<Key, int> {
    if c.replay.Some? then offsets else UpsertOffset(offsets, c.key, top)
  }

  /** From a terminal disposition: the checkpoint write, and the cursor if the reply arrives. */
  lemma SettlePath(h: Hash, s: State, w: int, c: L.Config, sink: Sink, v: L.View, top: int, ids: seq<int>, phase: Phase,
                   reply: L.CommitReply) returns (n: State)
    requires At(s, w, c, sink, v.offsets, v.last, top, phase) && EndsAt(c, ids, top) && 0 <= top
    requires phase == SinkAcknowledged(ids) || phase == DlqPersisted(ids) || phase == DryRunObserved(ids)
    ensures Way(h, s, n) && n.dest == s.dest && Settling(n, w, c, sink, v, top, ids, reply)
  {
    hide At, Way, UpsertOffset;
    NoWay(h, s);
    AtOffsets(s, w, c, sink, v.offsets, v.last, top, phase);
    n := s;
    if reply != L.NotCommitted {
      var stored := Stored(c, v.offsets, top);
      var a := CheckpointPath(h, s, w, c, sink, v.offsets, v.last, top, ids, phase);
      AtOffsets(a, w, c, sink, stored, v.last, top, Protocol.Committed(ids));
      n := a;
      if reply == L.Committed {
        n := CursorPath(h, a, w, c, sink, stored, v.last, top, ids);
        WayOn(h, s, a, n);
        AtOffsets(n, w, c, sink, stored, Max(v.last, top), 0, Idle);
      }
    }
  }

  /** The result of the loop, read off the protocol state: the same checkpoints, and if the loop goes on, the
      same cursor. */
  ghost predicate SameProgress(n: State, w: int, c: L.Config, sink: Sink, r: L.Result) {
    n.cat.offsets == r.view.offsets
    && (r.control == L.Continue ==> Ready(n, w, c, sink, r.view.offsets, r.view.last))
  }

  ghost predicate Settling(n: State, w: int, c: L.Config, sink: Sink, v: L.View, top: int, ids: seq<int>,
                           reply: L.CommitReply) {
    var (v', ok) := L.Commit(c, v, top, ids, reply);
    n.cat.offsets == v'.offsets && (ok ==> Ready(n, w, c, sink, v'.offsets, v'.last))
  }

  /** What follows a publish attempt. */
  lemma AfterAttempt(h: Hash, s: State, w: int, c: L.Config, sink: Sink, v: L.View, top: int, ids: seq<int>,
                     outcome: L.PublishOutcome, t: L.Tick) returns (n: State)
    requires At(s, w, c, sink, v.offsets, v.last, top, Answered(outcome, ids)) && EndsAt(c, ids, top) && 0 <= top
    ensures Way(h, s, n)
    ensures n.dest == if c.dlqEnabled && L.GivenUp(c, outcome, v.failures) && (t.dlq == L.Fine || t.dlqStored)
                      then DeadLettered(s.dest, c.key, ids) else s.dest
    ensures var (directive, failures) := L.Direct(c, outcome, v.failures);
            match directive
            case Acknowledge => Settling(n, w, c, sink, v, top, ids, t.commit)
            case BackOff => Ready(n, w, c, sink, v.offsets, v.last)
            case Shutdown => n.cat.offsets == v.offsets
            case RouteToDlq =>
              match t.dlq
              case Fine => Settling(n, w, c, sink, v, top, ids, t.commit)
              case Transient => Ready(n, w, c, sink, v.offsets, v.last)
              case Permanent => n.cat.offsets == v.offsets
  {
    hide At, Way, L.Commit, Settling;
    var phase := Answered(outcome, ids);
    var directive := L.Direct(c, outcome, v.failures).0;
    if directive == L.Acknowledge {
      n := SettlePath(h, s, w, c, sink, v, top, ids, phase, t.commit);
    } else if directive == L.BackOff {
      n := RetryPath(h, s, w, c, sink, v.offsets, v.last, top, phase);
    } else if directive == L.Shutdown {
      NoWay(h, s);
      AtOffsets(s, w, c, sink, v.offsets, v.last, top, phase);
      n := s;
    } else {
      var ok := t.dlq == L.Fine;
      var a := DlqPath(h, s, w, c, sink, v.offsets, v.last, top, phase, ok || t.dlqStored, ok);
      n := a;
      if ok {
        n := SettlePath(h, a, w, c, sink, v, top, ids, DlqPersisted(ids), t.commit);
        WayOn(h, s, a, n);
      } else {
        AtOffsets(a, w, c, sink, v.offsets, v.last, 0, Idle);
      }
    }
  }

  lemma BatchPath(h: Hash, s: State, w: int, c: L.Config, sink: Sink, v: L.View, top: int, ids: seq<int>, t: L.Tick)
    returns (n: State)
    requires At(s, w, c, sink, v.offsets, v.last, top, Polled(ids)) && EndsAt(c, ids, top) && 0 <= top
    ensures Way(h, s, n) && n.dest == BatchDest(c, sink, s.dest, v, ids, t)
    ensures SameProgress(n, w, c, sink, L.Deliver(c, v, top, ids, t))
  {
    hide At, Way, Published, DeadLettered, UpsertOffset;
    var a := EncodePath(h, s, w, c, sink, v.offsets, v.last, top, ids);
    if c.dryRun {
      var b := ObservePath(h, a, w, c, sink, v.offsets, v.last, top, ids);
      WayOn(h, s, a, b);
      n := SettlePath(h, b, w, c, sink, v, top, ids, DryRunObserved(ids), t.commit);
      WayOn(h, s, b, n);
    } else {
      var outcome := L.Publish(c, v.breaker, t).0;
      var b := StartPath(h, a, w, c, sink, v.offsets, v.last, top, ids);
      WayOn(h, s, a, b);
      var e := AnswerPath(h, b, w, c, sink, v.offsets, v.last, top, ids, outcome, t);
      WayOn(h, s, b, e);
      n := AfterAttempt(h, e, w, c, sink, v, top, ids, outcome, t);
      WayOn(h, s, e, n);
      ReadyOffsets(n, w, c, sink, v);
    }
  }

  lemma ReadyOffsets(n: State, w: int, c: L.Config, sink: Sink, v: L.View)
    ensures Ready(n, w, c, sink, v.offsets, v.last) ==> n.cat.offsets == v.offsets
  {
  }

  /** Every iteration of the loop, of a live pipeline or of a replay, whatever its inputs, is a path of the
      protocol that ends with the loop's checkpoints and cursor and with exactly the destinations its inputs
      call for. */
  lemma IterationInProtocol(h: Hash, s: State, w: int, c: L.Config, sink: Sink, v: L.View, t: L.Tick) returns (n: State)
    requires Ready(s, w, c, sink, v.offsets, v.last)
    requires forall i :: i in s.store.rows ==> 0 <= i
    ensures Leads(h, s, n) && Kept(s, n)
    ensures n.dest == DestOf(c, sink, s.dest, s.store.rows, v, t)
    ensures SameProgress(n, w, c, sink, L.Iterate(c, s.store.rows, v, t))
  {
    hide SelectAfter, InRange, At, L.Deliver, BatchDest, Leads, Kept;
    NoWay(h, s);
    ReadyOffsets(s, w, c, sink, v);
    n := s;
    if !t.stop && t.poll == L.Fine {
      var ids := L.Poll(c, s.store.rows, v.last);
      var messages := L.Messages(c, ids);
      n := PollPath(h, s, w, c, sink, v.offsets, v.last);
      if messages != [] {
        Handing(c, ids);
        assert ids[|ids| - 1] in ids;
        var a := n;
        n := BatchPath(h, a, w, c, sink, v.(backoff := c.pollInterval), ids[|ids| - 1], messages, t);
        WayOn(h, s, a, n);
        SameBatchDest(c, sink, s.dest, v, messages, t);
      } else {
        AtOffsets(n, w, c, sink, v.offsets, v.last, LastOr(ids, v.last), Idle);
        IdleReady(n, w, c, sink, v.offsets, v.last, LastOr(ids, v.last));
      }
    }
  }

  /** A poll that hands something on has read something, and a live pipeline hands on everything. */
  lemma Handing(c: L.Config, ids: seq<int>)
    requires L.Messages(c, ids) != []
    ensures ids != [] && EndsAt(c, L.Messages(c, ids), ids[|ids| - 1])
  {
  }

  lemma IdleReady(n: State, w: int, c: L.Config, sink: Sink, offsets: map<Key, int>, last: int, top: int)
    requires At(n, w, c, sink, offsets, last, top, Idle)
    ensures Ready(n, w, c, sink, offsets, last)
  {
  }

  lemma SameBatchDest(c: L.Config, sink: Sink, d: Dest, v: L.View, ids: seq<int>, t: L.Tick)
    ensures BatchDest(c, sink, d, v.(backoff := c.pollInterval), ids, t) == BatchDest(c, sink, d, v, ids, t)
  {
  }

  // ── What the loop calls settled is settled ─────────────────────────────

  lemma PublishedSettles(d: Dest, k: Key, sink: Sink, ids: seq<int>, outcome: L.PublishOutcome, t: L.Tick)
    requires DestInv(d)
    ensures var d' := Published(d, k, sink, ids, outcome, t);
            && DestInv(d') && Remembers(d, d')
            && (outcome.Success? && t.sink.Took? ==> forall i :: i in ids ==> Settled(d', k, i))
  {
    if SinkCalled(outcome, t) {
      AcceptKeepsDest(d, k, sink, ids, Took(sink, ids, t));
      var d' := Published(d, k, sink, ids, outcome, t);
      forall i | i in Took(sink, ids, t)
        ensures Settled(d', k, i)
      {
        assert Delivery(k, i, sink) in d'.accepted;
      }
    }
  }

  lemma DeadLetteredSettles(d: Dest, k: Key, ids: seq<int>)
    requires DestInv(d)
    ensures var d' := DeadLettered(d, k, ids);
            DestInv(d') && Remembers(d, d') && forall i :: i in ids ==> Settled(d', k, i)
  {
    DlqKeepsDest(d, k, ids);
  }

  lemma ObservedSettles(d: Dest, k: Key, ids: seq<int>)
    requires DestInv(d)
    ensures var d' := d.(dryRun := d.dryRun + set i | i in ids :: (k, i));
            DestInv(d') && Remembers(d, d') && forall i :: i in ids ==> Settled(d', k, i)
  {
    var d' := d.(dryRun := d.dryRun + set i | i in ids :: (k, i));
    forall q, i, n | Delivery(q, i, Inbox(n)) in d'.accepted
      ensures InInbox(d', n, q.outbox, i)
    {
      assert InInbox(d, n, q.outbox, i);
    }
  }

  lemma RemembersThrough(a: Dest, b: Dest, d: Dest)
    requires Remembers(a, b) && Remembers(b, d)
    ensures Remembers(a, d)
  {
    forall n
      ensures InboxTable(a, n) <= InboxTable(d, n)
    {
      assert InboxTable(a, n) <= InboxTable(b, n) <= InboxTable(d, n);
    }
  }

  /** The batch is disposed of, by its inputs alone. */
  predicate DisposedBy(c: L.Config, v: L.View, t: L.Tick) {
    c.dryRun || L.Publish(c, v.breaker, t).0.Success?
    || (c.dlqEnabled && L.GivenUp(c, L.Publish(c, v.breaker, t).0, v.failures) && t.dlq == L.Fine)
  }

  lemma BatchSettles(c: L.Config, sink: Sink, d: Dest, v: L.View, ids: seq<int>, t: L.Tick)
    requires DestInv(d)
    ensures var d' := BatchDest(c, sink, d, v, ids, t);
            && DestInv(d') && Remembers(d, d')
            && (DisposedBy(c, v, t) ==> forall i :: i in ids ==> Settled(d', c.key, i))
  {
    hide DestInv, Remembers, Settled, Published, DeadLettered;
    if c.dryRun {
      ObservedSettles(d, c.key, ids);
    } else {
      var outcome := L.Publish(c, v.breaker, t).0;
      var published := Published(d, c.key, sink, ids, outcome, t);
      PublishedSettles(d, c.key, sink, ids, outcome, t);
      if c.dlqEnabled && L.GivenUp(c, outcome, v.failures) && (t.dlq == L.Fine || t.dlqStored) {
        DeadLetteredSettles(published, c.key, ids);
        RemembersThrough(d, published, DeadLettered(published, c.key, ids));
      }
    }
  }

  lemma DeliverSettlesOnlyDisposed(c: L.Config, v: L.View, top: int, ids: seq<int>, t: L.Tick)
    ensures var r := L.Deliver(c, v, top, ids, t);
            r.view.settled == v.settled || (r.view.settled == v.settled + ids && DisposedBy(c, v, t))
  {
  }

  /** What one iteration adds to the loop's settled messages has really been accepted, dead-lettered or
      observed, by what its inputs did to the destinations; and nothing a destination held is forgotten. */
  lemma IterationSettles(c: L.Config, sink: Sink, d: Dest, rows: Rows, v: L.View, t: L.Tick)
    requires DestInv(d)
    ensures var d' := DestOf(c, sink, d, rows, v, t);
            && Remembers(d, d')
            && forall i :: i in L.Iterate(c, rows, v, t).view.settled ==> i in v.settled || Settled(d', c.key, i)
  {
    hide SelectAfter, InRange, L.Deliver, BatchDest, DestInv, Settled, DisposedBy;
    var ids := L.Poll(c, rows, v.last);
    var messages := L.Messages(c, ids);
    if !t.stop && t.poll == L.Fine && messages != [] {
      var w := v.(backoff := c.pollInterval);
      Handing(c, ids);
      DeliverSettlesOnlyDisposed(c, w, ids[|ids| - 1], messages, t);
      BatchSettles(c, sink, d, w, messages, t);
      SameBatchDest(c, sink, d, v, messages, t);
    } else {
      NothingHandedOn(c, rows, v, t);
    }
  }

  lemma NothingHandedOn(c: L.Config, rows: Rows, v: L.View, t: L.Tick)
    requires t.stop || t.poll != L.Fine || L.Messages(c, L.Poll(c, rows, v.last)) == []
    ensures L.Iterate(c, rows, v, t).view.settled == v.settled
  {
    hide SelectAfter;
  }
}
