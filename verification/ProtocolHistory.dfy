/** What the tables hold is exactly what the steps of the run have put there: nothing is published, delivered,
    dead-lettered, swept or committed but by the step that says so. */
module ProtocolHistory {
  import opened Ids
  import opened Upsert
  import opened Outbox
  import opened Retention
  import opened Protocol
  import opened ProtocolInvariants
  import opened ProtocolDest
  import opened ProtocolRuns

  // ── Publishing ─────────────────────────────────────────────────────────

  predicate Holds(rows: Rows, id: int, row: Row) { id in rows && rows[id] == row }

  predicate Pending(st: Store, t: int, id: int, row: Row) {
    t in st.txs && Holds(st.txs[t].pending, id, row)
  }

  /** The step inserts this row under this id in transaction `t`. */
  predicate Inserts(s: State, step: Step, t: int, id: int, row: Row) {
    step == Publish(t, TxInsert(row.outbox, row.created)) && id == s.store.nextId
  }

  /** The step ends transaction `t`, one way or the other. */
  predicate Ends(step: Step, t: int) {
    step == Publish(t, TxCommit) || step == Publish(t, TxAbort)
  }

  lemma PublishPending(st: Store, u: int, step: PublishStep, t: int, id: int, row: Row)
    requires StoreInv(st) && PublishEnabled(st, u, step)
    ensures Pending(AfterPublish(st, u, step), t, id, row)
       <==> (Pending(st, t, id, row) && !Ends(Publish(u, step), t))
            || (step == TxInsert(row.outbox, row.created) && u == t && id == st.nextId)
  {
    if t in st.txs {
      assert TxInv(st, st.txs[t]);
    }
  }

  lemma PendingStep(h: Hash, s: State, step: Step, t: int, id: int, row: Row)
    requires StoreInv(s.store) && Enabled(h, s, step)
    ensures Pending(Next(h, s, step).store, t, id, row)
       <==> (Pending(s.store, t, id, row) && !Ends(step, t)) || Inserts(s, step, t, id, row)
  {
    hide StoreInv, AfterPublish, AfterSession, AfterPoll, AfterDeliver, AfterCleanup, AfterAdmin;
    match step
    case Publish(u, p) => PublishPending(s.store, u, p, t, id, row);
    case Session(w, p) => SessionFrame(h, s, w, p);
    case Poll(w, p) => PollFrame(s, w, p);
    case Deliver(w, p) => DeliverFrame(s, w, p);
    case Cleanup(v, p) => CleanupFrame(s, v, p);
    case Admin(p) => AdminFrame(s, p);
  }

  /** Transaction `t` inserted the row at step `m` and has not ended since. */
  ghost predicate OpenSince(states: seq<State>, steps: seq<Step>, m: nat, i: nat, t: int, id: int, row: Row)
    requires m < i <= |steps| && |states| == |steps| + 1
  {
    Inserts(states[m], steps[m], t, id, row) && forall q :: m < q < i ==> !Ends(steps[q], t)
  }

  /** A row is pending in a transaction exactly if the transaction inserted it and is still open. */
  lemma {:induction false} PendingExactly(h: Hash, clock: int, states: seq<State>, steps: seq<Step>, i: nat,
                                          t: int, id: int, row: Row)
    requires IsRun(h, clock, states, steps) && i <= |steps|
    ensures Pending(states[i].store, t, id, row)
       <==> exists m: nat :: m < i && OpenSince(states, steps, m, i, t, id, row)
    decreases i
  {
    hide Pending, Inserts, Ends, Next, Enabled, StoreInv, PollInv, FlightInv, DestInv, OwnInv, SweepsInv, LossInv;
    if i > 0 {
      var j := i - 1;
      PendingExactly(h, clock, states, steps, j, t, id, row);
      RunKeepsInv(h, clock, states, steps, j);
      PendingStep(h, states[j], steps[j], t, id, row);
      InsertIsNoEnd(states[j], steps[j], t, id, row);
      if Inserts(states[j], steps[j], t, id, row) {
        assert OpenSince(states, steps, j, i, t, id, row);
      }
      if m: nat :| m < j && OpenSince(states, steps, m, j, t, id, row) && !Ends(steps[j], t) {
        assert OpenSince(states, steps, m, i, t, id, row);
      }
      if m: nat :| m < i && OpenSince(states, steps, m, i, t, id, row) {
        assert m < j ==> OpenSince(states, steps, m, j, t, id, row);
      }
    } else {
      NothingPending(clock, t, id, row);
    }
  }

  lemma InsertIsNoEnd(s: State, step: Step, t: int, id: int, row: Row)
    ensures Inserts(s, step, t, id, row) ==> !Ends(step, t)
  {
  }

  lemma NothingPending(clock: int, t: int, id: int, row: Row)
    ensures !Pending(Init(clock).store, t, id, row)
  {
  }

  /** The step commits a transaction in which this row is pending. */
  predicate Commits(s: State, step: Step, id: int, row: Row) {
    step.Publish? && step.publish.TxCommit? && Pending(s.store, step.tx, id, row)
  }

  lemma PublishCommitted(st: Store, t: int, step: PublishStep, id: int, row: Row)
    requires StoreInv(st) && PublishEnabled(st, t, step)
    ensures Holds(AfterPublish(st, t, step).committed, id, row)
       <==> Holds(st.committed, id, row) || (step.TxCommit? && Pending(st, t, id, row))
  {
    if t in st.txs {
      assert TxInv(st, st.txs[t]);
    }
  }

  lemma CommittedStep(h: Hash, s: State, step: Step, id: int, row: Row)
    requires StoreInv(s.store) && Enabled(h, s, step)
    ensures Holds(Next(h, s, step).store.committed, id, row)
       <==> Holds(s.store.committed, id, row) || Commits(s, step, id, row)
  {
    hide StoreInv, AfterPublish, AfterSession, AfterPoll, AfterDeliver, AfterCleanup, AfterAdmin, Pending;
    match step
    case Publish(t, p) => PublishCommitted(s.store, t, p, id, row);
    case Session(w, p) => SessionFrame(h, s, w, p);
    case Poll(w, p) => PollFrame(s, w, p);
    case Deliver(w, p) => DeliverFrame(s, w, p);
    case Cleanup(v, p) => CleanupFrame(s, v, p);
    case Admin(p) => AdminFrame(s, p);
  }

  /** A row is committed exactly if some transaction in which it was pending has committed. */
  lemma {:induction false} CommittedExactly(h: Hash, clock: int, states: seq<State>, steps: seq<Step>, i: nat,
                                            id: int, row: Row)
    requires IsRun(h, clock, states, steps) && i <= |steps|
    ensures Holds(states[i].store.committed, id, row)
       <==> exists j: nat :: j < i && Commits(states[j], steps[j], id, row)
    decreases i
  {
    hide Holds, Commits, Next, Enabled, StoreInv, PollInv, FlightInv, DestInv, OwnInv, SweepsInv, LossInv;
    if i > 0 {
      CommittedExactly(h, clock, states, steps, i - 1, id, row);
      RunKeepsInv(h, clock, states, steps, i - 1);
      CommittedStep(h, states[i - 1], steps[i - 1], id, row);
    } else {
      NothingCommitted(clock, id, row);
    }
  }

  lemma NothingCommitted(clock: int, id: int, row: Row)
    ensures !Holds(Init(clock).store.committed, id, row)
  {
  }

  /** Transaction `t` inserted the row at step `m` and committed at step `j`, its first end since. */
  ghost predicate PublishedBy(states: seq<State>, steps: seq<Step>, m: nat, j: nat, t: int, id: int, row: Row)
    requires m < j < |steps| && |states| == |steps| + 1
  {
    OpenSince(states, steps, m, j, t, id, row) && steps[j] == Publish(t, TxCommit)
  }

  /** A message exists exactly if its business transaction inserted it and then committed. */
  lemma PublishedExactly(h: Hash, clock: int, states: seq<State>, steps: seq<Step>, i: nat, id: int, row: Row)
    requires IsRun(h, clock, states, steps) && i <= |steps|
    ensures Holds(states[i].store.committed, id, row)
       <==> exists m: nat, j: nat, t :: m < j < i && PublishedBy(states, steps, m, j, t, id, row)
  {
    hide Holds, Inserts, Pending, Enabled, Next;
    CommittedExactly(h, clock, states, steps, i, id, row);
    if j: nat :| j < i && Commits(states[j], steps[j], id, row) {
      var t := steps[j].tx;
      PendingExactly(h, clock, states, steps, j, t, id, row);
      var m: nat :| m < j && OpenSince(states, steps, m, j, t, id, row);
      assert PublishedBy(states, steps, m, j, t, id, row);
    }
    if m: nat, j: nat, t :| m < j < i && PublishedBy(states, steps, m, j, t, id, row) {
      PendingExactly(h, clock, states, steps, j, t, id, row);
      assert Commits(states[j], steps[j], id, row);
    }
  }

  // ── Rolling back ───────────────────────────────────────────────────────

  /** The id has been used up, and nobody holds a row under it. */
  ghost predicate UsedUp(st: Store, id: int) {
    id < st.nextId && id !in st.committed && forall t :: t in st.txs ==> id !in st.txs[t].pending
  }

  lemma AbortUsesUp(st: Store, t: int, id: int)
    requires StoreInv(st) && t in st.txs && id in st.txs[t].pending
    ensures UsedUp(AfterPublish(st, t, TxAbort), id)
  {
    assert TxInv(st, st.txs[t]);
  }

  lemma PublishUsesUp(st: Store, t: int, step: PublishStep, id: int)
    requires UsedUp(st, id) && PublishEnabled(st, t, step)
    ensures UsedUp(AfterPublish(st, t, step), id)
  {
  }

  lemma UsedUpForGood(h: Hash, s: State, step: Step, id: int)
    requires StoreInv(s.store) && UsedUp(s.store, id) && Enabled(h, s, step)
    ensures UsedUp(Next(h, s, step).store, id)
  {
    hide StoreInv, AfterPublish, AfterSession, AfterPoll, AfterDeliver, AfterCleanup, AfterAdmin;
    match step
    case Publish(t, p) => PublishUsesUp(s.store, t, p, id);
    case Session(w, p) => SessionFrame(h, s, w, p);
    case Poll(w, p) => PollFrame(s, w, p);
    case Deliver(w, p) => DeliverFrame(s, w, p);
    case Cleanup(v, p) => CleanupFrame(s, v, p);
    case Admin(p) => AdminFrame(s, p);
  }

  lemma {:induction false} AbortedForGood(h: Hash, clock: int, states: seq<State>, steps: seq<Step>, j: nat, i: nat,
                                          t: int, id: int)
    requires IsRun(h, clock, states, steps) && j < i <= |steps|
    requires steps[j] == Publish(t, TxAbort) && id in states[j].store.txs[t].pending
    ensures UsedUp(states[i].store, id)
    decreases i
  {
    hide UsedUp, AfterPublish, StoreInv, PollInv, FlightInv, DestInv, OwnInv, SweepsInv, LossInv;
    RunKeepsInv(h, clock, states, steps, i - 1);
    assert states[i] == Next(h, states[i - 1], steps[i - 1]);
    if i == j + 1 {
      AbortUsesUp(states[j].store, t, id);
    } else {
      AbortedForGood(h, clock, states, steps, j, i - 1, t, id);
      UsedUpForGood(h, states[i - 1], steps[i - 1], id);
    }
  }

  /** If the business transaction rolls back, the message disappears with it: it is never stored, never
      committed, never in a worker's hands and never settled at any destination. */
  lemma RolledBackForGood(h: Hash, clock: int, states: seq<State>, steps: seq<Step>, j: nat, i: nat, t: int, id: int)
    requires IsRun(h, clock, states, steps) && j < i <= |steps|
    requires steps[j] == Publish(t, TxAbort) && id in states[j].store.txs[t].pending
    ensures id !in states[i].store.rows && id !in states[i].store.committed
    ensures forall w :: w in states[i].workers ==> id !in IdsOf(states[i].workers[w].phase)
    ensures forall k :: !Settled(states[i].dest, k, id)
  {
    hide DestInv, OwnInv, SweepsInv, LossInv, Settled;
    AbortedForGood(h, clock, states, steps, j, i, t, id);
    RunKeepsInv(h, clock, states, steps, i);
    forall w | w in states[i].workers
      ensures id !in IdsOf(states[i].workers[w].phase)
    {
      assert FlightInv(states[i].store, states[i].workers[w]);
    }
    forall k
      ensures !Settled(states[i].dest, k, id)
    {
      if Settled(states[i].dest, k, id) {
        SettledWasCommitted(h, clock, states, steps, i, k, id);
      }
    }
  }

  // ── Destinations ───────────────────────────────────────────────────────

  /** The sink takes this message of this worker. */
  ghost predicate Takes(s: State, step: Step, e: Delivery) {
    && step.Deliver? && step.deliver.SinkReply? && e.id in step.deliver.took
    && step.worker in s.workers && s.workers[step.worker].key == e.key && s.workers[step.worker].sink == e.sink
  }

  /** An insert into the dead-letter queue that commits, and holds this message of this pipeline. */
  ghost predicate DeadLetters(s: State, step: Step, k: Key, id: int) {
    && step.Deliver? && step.deliver.WriteDlq? && step.deliver.stored && step.worker in s.workers
    && s.workers[step.worker].key.pipeline == k.pipeline && s.workers[step.worker].key.outbox == k.outbox
    && id in IdsOf(s.workers[step.worker].phase)
  }

  /** A dry run observes this message. */
  ghost predicate Observes(s: State, step: Step, k: Key, id: int) {
    && step.Deliver? && step.deliver.ObserveDryRun? && step.worker in s.workers
    && s.workers[step.worker].key == k && id in IdsOf(s.workers[step.worker].phase)
  }

  /** The sink is this inbox and takes the batch with this message. */
  ghost predicate Inserted(s: State, step: Step, name: string, outbox: string, id: int) {
    && step.Deliver? && step.deliver.SinkReply? && step.deliver.took != {} && step.worker in s.workers
    && s.workers[step.worker].sink == Inbox(name) && s.workers[step.worker].key.outbox == outbox
    && id in IdsOf(s.workers[step.worker].phase)
  }

  lemma DeliverTakes(s: State, w: int, step: DeliverStep, e: Delivery)
    requires DeliverEnabled(s, w, step)
    ensures e in AfterDeliver(s, w, step).dest.accepted <==> e in s.dest.accepted || Takes(s, Deliver(w, step), e)
  {
    hide InsertIgnore, DlqBatch, InboxBatch, UpsertOffset, LastOr, Elems;
  }

  lemma DeliverObserves(s: State, w: int, step: DeliverStep, k: Key, id: int)
    requires DeliverEnabled(s, w, step)
    ensures (k, id) in AfterDeliver(s, w, step).dest.dryRun
       <==> (k, id) in s.dest.dryRun || Observes(s, Deliver(w, step), k, id)
  {
    hide InsertIgnore, DlqBatch, InboxBatch, UpsertOffset, LastOr, Elems;
  }

  lemma DlqHolds(d: Dest, q: Key, ids: seq<int>, k: Key, id: int)
    requires DestInv(d)
    ensures InDlq(d.(dlq := InsertIgnore(d.dlq, DlqBatch(q, ids))), k, id)
       <==> InDlq(d, k, id) || (q.pipeline == k.pipeline && q.outbox == k.outbox && id in ids)
  {
    var e := ((k.pipeline, EventKey(k.outbox, id)), Msg(k.outbox, id));
    var r := InsertIgnore(d.dlq, DlqBatch(q, ids));
    DlqKeepsDest(d, q, ids);
    InsertIgnoreSpec(d.dlq, DlqBatch(q, ids));
    if e in r {
      var j :| 0 <= j < |r| && r[j] == e;
      if j < |d.dlq| {
        assert d.dlq[j] == e;
      } else {
        assert e in DlqBatch(q, ids);
      }
    }
    if e in d.dlq {
      var j :| 0 <= j < |d.dlq| && d.dlq[j] == e;
      assert r[j] == e;
    }
  }

  lemma DeliverDeadLetters(s: State, w: int, step: DeliverStep, k: Key, id: int)
    requires DestInv(s.dest) && DeliverEnabled(s, w, step)
    ensures InDlq(AfterDeliver(s, w, step).dest, k, id)
       <==> InDlq(s.dest, k, id) || DeadLetters(s, Deliver(w, step), k, id)
  {
    hide InsertIgnore, DlqBatch, InboxBatch, UpsertOffset, LastOr, Elems, DestInv;
    if step.WriteDlq? && step.stored {
      DlqHolds(s.dest, s.workers[w].key, IdsOf(s.workers[w].phase), k, id);
    }
  }

  lemma InboxHolds(table: seq<(string, Msg)>, o: string, ids: seq<int>, outbox: string, id: int)
    requires InboxInv(table)
    ensures (EventKey(outbox, id), Msg(outbox, id)) in InsertIgnore(table, InboxBatch(o, ids))
       <==> (EventKey(outbox, id), Msg(outbox, id)) in table || (o == outbox && id in ids)
  {
    var e := (EventKey(outbox, id), Msg(outbox, id));
    var r := InsertIgnore(table, InboxBatch(o, ids));
    InboxInsert(table, o, ids);
    InsertIgnoreSpec(table, InboxBatch(o, ids));
    if e in r {
      var j :| 0 <= j < |r| && r[j] == e;
      if j < |table| {
        assert table[j] == e;
      } else {
        assert e in InboxBatch(o, ids);
      }
    }
    if e in table {
      var j :| 0 <= j < |table| && table[j] == e;
      assert r[j] == e;
    }
  }

  lemma TableInv(d: Dest, name: string)
    requires DestInv(d)
    ensures InboxInv(InboxTable(d, name))
  {
  }

  lemma DeliverInserts(s: State, w: int, step: DeliverStep, name: string, outbox: string, id: int)
    requires DestInv(s.dest) && DeliverEnabled(s, w, step)
    ensures InInbox(AfterDeliver(s, w, step).dest, name, outbox, id)
       <==> InInbox(s.dest, name, outbox, id) || Inserted(s, Deliver(w, step), name, outbox, id)
  {
    hide InsertIgnore, DlqBatch, InboxBatch, UpsertOffset, LastOr, Elems, DestInv;
    TableInv(s.dest, name);
    InboxHolds(InboxTable(s.dest, name), s.workers[w].key.outbox, IdsOf(s.workers[w].phase), outbox, id);
  }

  lemma OnlyDeliveries(h: Hash, s: State, step: Step)
    requires Enabled(h, s, step) && !step.Deliver?
    ensures Next(h, s, step).dest == s.dest
  {
    hide AfterPublish, AfterSession, AfterPoll, AfterDeliver, AfterCleanup, AfterAdmin;
    match step
    case Publish(t, p) =>
    case Session(w, p) => SessionFrame(h, s, w, p);
    case Poll(w, p) => PollFrame(s, w, p);
    case Cleanup(v, p) => CleanupFrame(s, v, p);
    case Admin(p) => AdminFrame(s, p);
  }

  lemma DestStep(h: Hash, s: State, step: Step, k: Key, id: int, sink: Sink, name: string)
    requires DestInv(s.dest) && Enabled(h, s, step)
    ensures var d, e := Next(h, s, step).dest, Delivery(k, id, sink);
            && (e in d.accepted <==> e in s.dest.accepted || Takes(s, step, e))
            && (InDlq(d, k, id) <==> InDlq(s.dest, k, id) || DeadLetters(s, step, k, id))
            && ((k, id) in d.dryRun <==> (k, id) in s.dest.dryRun || Observes(s, step, k, id))
            && (InInbox(d, name, k.outbox, id) <==> InInbox(s.dest, name, k.outbox, id)
                                                    || Inserted(s, step, name, k.outbox, id))
  {
    hide DestInv, InDlq, InInbox, AfterDeliver, AfterPublish, AfterSession, AfterPoll, AfterCleanup, AfterAdmin;
    if step.Deliver? {
      var w, p := step.worker, step.deliver;
      DeliverTakes(s, w, p, Delivery(k, id, sink));
      DeliverDeadLetters(s, w, p, k, id);
      DeliverObserves(s, w, p, k, id);
      DeliverInserts(s, w, p, name, k.outbox, id);
    } else {
      OnlyDeliveries(h, s, step);
    }
  }

  /** What a destination holds is what the steps of the run have put there, and nothing else: a sink has accepted
      a message exactly if some reply took it, the dead-letter queue holds it exactly if some insert with it
      committed, a dry run observed it exactly in a step that says so, and an inbox stores it exactly if it took a
      batch with it. */
  lemma {:induction false} DestinationsExactly(h: Hash, clock: int, states: seq<State>, steps: seq<Step>, i: nat,
                                               k: Key, id: int, sink: Sink, name: string)
    requires IsRun(h, clock, states, steps) && i <= |steps|
    ensures var d, e := states[i].dest, Delivery(k, id, sink);
            && (e in d.accepted <==> exists m: nat :: m < i && Takes(states[m], steps[m], e))
            && (InDlq(d, k, id) <==> exists m: nat :: m < i && DeadLetters(states[m], steps[m], k, id))
            && ((k, id) in d.dryRun <==> exists m: nat :: m < i && Observes(states[m], steps[m], k, id))
            && (InInbox(d, name, k.outbox, id) <==>
                  exists m: nat :: m < i && Inserted(states[m], steps[m], name, k.outbox, id))
    decreases i
  {
    hide InDlq, InInbox, Takes, DeadLetters, Observes, Inserted, Next, Enabled;
    hide Physical, DestInv, OwnInv, SweepsInv, LossInv;
    if i > 0 {
      DestinationsExactly(h, clock, states, steps, i - 1, k, id, sink, name);
      RunKeepsInv(h, clock, states, steps, i - 1);
      DestStep(h, states[i - 1], steps[i - 1], k, id, sink, name);
    } else {
      NothingDelivered(clock, k, id, sink, name);
    }
  }

  lemma NothingDelivered(clock: int, k: Key, id: int, sink: Sink, name: string)
    ensures var d := Init(clock).dest;
            Delivery(k, id, sink) !in d.accepted && !InDlq(d, k, id) && (k, id) !in d.dryRun
            && !InInbox(d, name, k.outbox, id)
  {
  }

  /** The step settles this message for this checkpoint. */
  ghost predicate Settles(s: State, step: Step, k: Key, id: int) {
    || (exists sink :: Takes(s, step, Delivery(k, id, sink)))
    || DeadLetters(s, step, k, id) || Observes(s, step, k, id)
  }

  lemma SettledExactly(h: Hash, clock: int, states: seq<State>, steps: seq<Step>, i: nat, k: Key, id: int)
    requires IsRun(h, clock, states, steps) && i <= |steps|
    ensures Settled(states[i].dest, k, id) <==> exists m: nat :: m < i && Settles(states[m], steps[m], k, id)
  {
    hide InDlq, InInbox, Takes, DeadLetters, Observes, Inserted, Next, Enabled;
    DestinationsExactly(h, clock, states, steps, i, k, id, External, "");
    if sink :| Delivery(k, id, sink) in states[i].dest.accepted {
      DestinationsExactly(h, clock, states, steps, i, k, id, sink, "");
      var m: nat :| m < i && Takes(states[m], steps[m], Delivery(k, id, sink));
      assert Settles(states[m], steps[m], k, id);
    }
    if m: nat :| m < i && DeadLetters(states[m], steps[m], k, id) {
      assert Settles(states[m], steps[m], k, id);
    }
    if m: nat :| m < i && Observes(states[m], steps[m], k, id) {
      assert Settles(states[m], steps[m], k, id);
    }
    if m: nat :| m < i && Settles(states[m], steps[m], k, id) {
      if sink :| Takes(states[m], steps[m], Delivery(k, id, sink)) {
        DestinationsExactly(h, clock, states, steps, i, k, id, sink, "");
      }
    }
  }

  /** Only what a worker holds is settled, and that has been committed. */
  lemma SettlesCommitted(h: Hash, s: State, step: Step, k: Key, id: int)
    requires Inv(h, s) && Enabled(h, s, step) && Settles(s, step, k, id)
    ensures id in s.store.committed && s.store.committed[id].outbox == k.outbox
  {
    hide DestInv, OwnInv, SweepsInv, LossInv, PollInv;
    var w := step.worker;
    assert FlightInv(s.store, s.workers[w]);
    assert id in IdsOf(s.workers[w].phase);
  }

  lemma {:induction false} StaysCommitted(h: Hash, clock: int, states: seq<State>, steps: seq<Step>,
                                          j: nat, i: nat, id: int)
    requires IsRun(h, clock, states, steps) && j <= i <= |steps| && id in states[j].store.committed
    ensures id in states[i].store.committed && states[i].store.committed[id] == states[j].store.committed[id]
    decreases i
  {
    hide Next, Enabled, StoreInv, PollInv, FlightInv, DestInv, OwnInv, SweepsInv, LossInv;
    if j < i {
      StaysCommitted(h, clock, states, steps, j, i - 1, id);
      RunKeepsInv(h, clock, states, steps, i - 1);
      StoreMonotone(h, states[i - 1], steps[i - 1]);
    }
  }

  /** Nothing is invented: whatever is settled for a checkpoint is a committed row of its outbox. */
  lemma SettledWasCommitted(h: Hash, clock: int, states: seq<State>, steps: seq<Step>, i: nat, k: Key, id: int)
    requires IsRun(h, clock, states, steps) && i <= |steps| && Settled(states[i].dest, k, id)
    ensures id in states[i].store.committed && states[i].store.committed[id].outbox == k.outbox
  {
    hide Settled, Settles, Inv, Next, Enabled;
    SettledExactly(h, clock, states, steps, i, k, id);
    var m: nat :| m < i && Settles(states[m], steps[m], k, id);
    RunKeepsInv(h, clock, states, steps, m);
    SettlesCommitted(h, states[m], steps[m], k, id);
    StaysCommitted(h, clock, states, steps, m, i, id);
  }
}
