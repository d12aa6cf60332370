/** What the protocol guarantees over every run. */
module ProtocolTheorems {
  import opened Ids
  import opened Upsert
  import opened Outbox
  import opened Retention
  import opened Protocol
  import opened ProtocolInvariants
  import opened ProtocolDest
  import opened ProtocolRuns

  // ── No loss ────────────────────────────────────────────────────────────

  /** In every reachable state every committed row at or below a checkpoint was accepted by the sink,
      persisted in the dead-letter queue or observed by a dry run, or it was deleted by a sweep that
      ran before this checkpoint had a recorded offset among the sweep's participants. */
  lemma NoLoss(h: Hash, s: State, k: Key, id: int)
    requires Reachable(h, s)
    requires k in s.cat.offsets && id in s.store.committed && s.store.committed[id].outbox == k.outbox
    requires id <= s.cat.offsets[k]
    ensures Settled(s.dest, k, id) || (id in s.swept && k !in s.swept[id])
  {
    hide Physical, DestInv, OwnInv, SweepsInv, SweptInv, WorkerAccounted;
    ReachableInv(h, s);
  }

  /** The pipeline is registered on the checkpoint's outbox, and no other relay group has a checkpoint
      for it there. */
  ghost predicate SoleParticipant(s: State, k: Key) {
    && k.pipeline in s.cat.pipelines && s.cat.pipelines[k.pipeline].outbox == k.outbox
    && forall q :: q in s.cat.offsets && q.pipeline == k.pipeline && q.outbox == k.outbox ==> q == k
  }

  ghost predicate SweepRespects(sw: Sweep, k: Key) {
    sw.outbox == k.outbox ==>
      || sw.stage == Fenced || (sw.stage == Unlocked && sw.doomed == {})
      || k in sw.covered || (sw.safe.Some? && sw.safe.value <= 0)
  }

  ghost predicate Respected(s: State, k: Key) {
    && (forall v :: v in s.sweeps ==> SweepRespects(s.sweeps[v], k))
    && (forall i :: i in s.swept && i in s.store.committed && s.store.committed[i].outbox == k.outbox ==> k in s.swept[i])
  }

  /** A sweep that reads the participants now either reads this checkpoint or may delete nothing. */
  ghost predicate Heeded(c: Catalog, k: Key) {
    k in CoveredKeys(c, k.outbox) || (SafeOffset(c, k.outbox).Some? && SafeOffset(c, k.outbox).value <= 0)
  }

  lemma SoleParticipantHeeded(s: State, k: Key)
    requires SoleParticipant(s, k)
    ensures Heeded(s.cat, k)
  {
    SafeBelowPipeline(s.cat, k.outbox, k.pipeline);
    if k !in s.cat.offsets {
      assert PipelineOffsets(s.cat, k.pipeline, k.outbox) == {};
    }
  }

  /** The step reads the participants of the checkpoint's outbox. */
  predicate ResolvesFor(s: State, step: Step, k: Key) {
    step.Cleanup? && step.cleanup.SweepResolve? && step.sweep in s.sweeps && s.sweeps[step.sweep].outbox == k.outbox
  }

  lemma RespectedAfterCommit(s: State, v: int, k: Key)
    requires StoreInv(s.store) && v in s.sweeps && SweepInv(s, s.sweeps[v])
    requires Respected(s, k) && CleanupEnabled(s, v, SweepCommit)
    ensures Respected(AfterCleanup(s, v, SweepCommit), k)
  {
    var sw := s.sweeps[v];
    var n := AfterCleanup(s, v, SweepCommit);
    assert SweepRespects(sw, k);
    forall i | i in n.swept && i in n.store.committed && n.store.committed[i].outbox == k.outbox
      ensures k in n.swept[i]
    {
      if i in sw.doomed {
        assert i in s.store.rows && s.store.rows[i] == s.store.committed[i];
      }
    }
  }

  lemma RespectedAfterCleanup(s: State, v: int, step: CleanupStep, k: Key)
    requires StoreInv(s.store) && (v in s.sweeps ==> SweepInv(s, s.sweeps[v]))
    requires Respected(s, k) && CleanupEnabled(s, v, step)
    requires ResolvesFor(s, Cleanup(v, step), k) ==> Heeded(s.cat, k)
    ensures Respected(AfterCleanup(s, v, step), k)
  {
    if step.SweepCommit? {
      RespectedAfterCommit(s, v, k);
    }
  }

  /** Outside of cleanup the sweeps stand still, but for the consumers a dropped group takes along. */
  lemma SweepsStandStill(h: Hash, s: State, step: Step, k: Key)
    requires Enabled(h, s, step) && !step.Cleanup?
    ensures var n := Next(h, s, step);
            && n.swept == s.swept && n.sweeps.Keys == s.sweeps.Keys
            && forall v :: v in s.sweeps && SweepRespects(s.sweeps[v], k) ==> SweepRespects(n.sweeps[v], k)
  {
    match step
    case Publish(_, _) =>
    case Session(w, p) => SessionFrame(h, s, w, p);
    case Poll(w, p) => PollFrame(s, w, p);
    case Deliver(w, p) => DeliverFrame(s, w, p);
    case Admin(p) => AdminFrame(s, p);
  }

  lemma RespectedElsewhere(h: Hash, s: State, step: Step, k: Key)
    requires Physical(s) && SweptInv(s) && Respected(s, k) && Enabled(h, s, step) && !step.Cleanup?
    ensures Respected(Next(h, s, step), k)
  {
    SweepsStandStill(h, s, step, k);
    StoreMonotone(h, s, step);
  }

  lemma RespectedAfterStep(h: Hash, s: State, step: Step, k: Key)
    requires Inv(h, s) && Respected(s, k) && Enabled(h, s, step)
    requires ResolvesFor(s, step, k) ==> Heeded(s.cat, k)
    ensures Respected(Next(h, s, step), k)
  {
    hide Heeded, Respected;
    if step.Cleanup? {
      RespectedAfterCleanup(s, step.sweep, step.cleanup, k);
    } else {
      RespectedElsewhere(h, s, step, k);
    }
  }

  lemma {:induction false} RunRespects(h: Hash, clock: int, states: seq<State>, steps: seq<Step>, k: Key, i: nat)
    requires IsRun(h, clock, states, steps) && i <= |steps|
    requires forall j :: 0 <= j < i && ResolvesFor(states[j], steps[j], k) ==> Heeded(states[j].cat, k)
    ensures Respected(states[i], k)
    decreases i
  {
    hide Heeded, ResolvesFor;
    if i > 0 {
      RunRespects(h, clock, states, steps, k, i - 1);
      RunKeepsInv(h, clock, states, steps, i - 1);
      RespectedAfterStep(h, states[i - 1], steps[i - 1], k);
    }
  }

  /** No loss, without exception: if every sweep of this outbox, at the moment it reads the participants,
      either reads this checkpoint or may delete nothing, then every committed row at or below the checkpoint
      was accepted, dead-lettered or observed by a dry run. */
  lemma NoLossIfHeeded(h: Hash, clock: int, states: seq<State>, steps: seq<Step>, k: Key, i: nat, id: int)
    requires IsRun(h, clock, states, steps) && i <= |steps|
    requires forall j :: 0 <= j < i && ResolvesFor(states[j], steps[j], k) ==> Heeded(states[j].cat, k)
    requires k in states[i].cat.offsets && id <= states[i].cat.offsets[k]
    requires id in states[i].store.committed && states[i].store.committed[id].outbox == k.outbox
    ensures Settled(states[i].dest, k, id)
  {
    RunKeepsInv(h, clock, states, steps, i);
    RunRespects(h, clock, states, steps, k, i);
    assert Accounted(states[i], k, id);
  }

  /** In particular, if at those moments the pipeline is registered on the outbox and only one relay group
      keeps checkpoints for it. */
  lemma NoLossForSoleParticipant(h: Hash, clock: int, states: seq<State>, steps: seq<Step>, k: Key, i: nat, id: int)
    requires IsRun(h, clock, states, steps) && i <= |steps|
    requires forall j :: 0 <= j < i && ResolvesFor(states[j], steps[j], k) ==> SoleParticipant(states[j], k)
    requires k in states[i].cat.offsets && id <= states[i].cat.offsets[k]
    requires id in states[i].store.committed && states[i].store.committed[id].outbox == k.outbox
    ensures Settled(states[i].dest, k, id)
  {
    forall j | 0 <= j < i && ResolvesFor(states[j], steps[j], k)
      ensures Heeded(states[j].cat, k)
    {
      SoleParticipantHeeded(states[j], k);
    }
    NoLossIfHeeded(h, clock, states, steps, k, i, id);
  }

  // ── Without dry runs ───────────────────────────────────────────────────

  /** No step of the run before state `i` starts a worker in dry-run mode. */
  ghost predicate NoDryRunStarted(steps: seq<Step>, i: nat)
    requires i <= |steps|
  {
    forall j :: 0 <= j < i && steps[j].Session? ==>
      match steps[j].session
      case Acquire(_, _, _, _, dryRun) => !dryRun
      case StartReplay(_, _, dryRun, _) => !dryRun
      case _ => true
  }

  ghost predicate NoDryRun(s: State) {
    s.dest.dryRun == {} && forall w :: w in s.workers ==> !s.workers[w].dryRun
  }

  lemma StaysWet(h: Hash, s: State, step: Step)
    requires NoDryRun(s) && Enabled(h, s, step) && NoDryRunStarted([step], 1)
    ensures NoDryRun(Next(h, s, step))
  {
    hide AfterPoll, AfterDeliver, SafeOffset, LeaseBlocked, CoveredKeys, CoveredConsumers, Released;
    match step
    case Session(w, p) => assert [step][0].session == p;
    case Poll(w, p) => PollFrame(s, w, p); WetPoll(s, w, p);
    case Deliver(w, p) => WetDelivery(s, w, p);
    case _ =>
  }

  lemma WetPoll(s: State, w: int, step: PollStep)
    requires NoDryRun(s) && PollEnabled(s, w, step)
    ensures NoDryRun(AfterPoll(s, w, step))
  {
    hide SelectAfter, LastOr, Messages;
  }

  lemma WetDelivery(s: State, w: int, step: DeliverStep)
    requires NoDryRun(s) && DeliverEnabled(s, w, step)
    ensures NoDryRun(AfterDeliver(s, w, step))
  {
    hide InsertIgnore, UpsertOffset, LastOr, Elems;
  }

  lemma {:induction false} RunStaysWet(h: Hash, clock: int, states: seq<State>, steps: seq<Step>, i: nat)
    requires IsRun(h, clock, states, steps) && i <= |steps| && NoDryRunStarted(steps, i)
    ensures NoDryRun(states[i])
    decreases i
  {
    hide NoDryRun;
    if i > 0 {
      RunStaysWet(h, clock, states, steps, i - 1);
      assert [steps[i - 1]][0] == steps[i - 1];
      StaysWet(h, states[i - 1], steps[i - 1]);
    } else {
      InitIsWet(clock);
    }
  }

  lemma InitIsWet(clock: int)
    ensures NoDryRun(Init(clock))
  {
  }

  /** In a run without dry runs, which the pipeline schema does not admit, every committed row at or below a
      checkpoint was accepted by the sink or dead-lettered, or swept unseen. */
  lemma NoLossWithoutDryRuns(h: Hash, clock: int, states: seq<State>, steps: seq<Step>, i: nat, k: Key, id: int)
    requires IsRun(h, clock, states, steps) && i <= |steps| && NoDryRunStarted(steps, i)
    requires k in states[i].cat.offsets && id <= states[i].cat.offsets[k]
    requires id in states[i].store.committed && states[i].store.committed[id].outbox == k.outbox
    ensures || Accepted(states[i].dest, k, id) || InDlq(states[i].dest, k, id)
            || (id in states[i].swept && k !in states[i].swept[id])
  {
    RunKeepsInv(h, clock, states, steps, i);
    RunStaysWet(h, clock, states, steps, i);
    assert Accounted(states[i], k, id);
  }

  // ── Effectively exactly once into the inbox ────────────────────────────

  /** A row at or below the checkpoint that was neither dead-lettered nor dry-run nor swept unseen, and
      that was only ever delivered into one inbox, is stored there exactly once, with its own content. */
  lemma InboxExactlyOnce(h: Hash, s: State, k: Key, id: int, inbox: string)
    requires Reachable(h, s)
    requires k in s.cat.offsets && id in s.store.committed && s.store.committed[id].outbox == k.outbox
    requires id <= s.cat.offsets[k]
    requires !InDlq(s.dest, k, id) && (k, id) !in s.dest.dryRun && (id in s.swept ==> k in s.swept[id])
    requires forall sink :: Delivery(k, id, sink) in s.dest.accepted ==> sink == Inbox(inbox)
    ensures var table := InboxTable(s.dest, inbox);
            exists j :: 0 <= j < |table| && table[j] == (EventKey(k.outbox, id), Msg(k.outbox, id))
                        && forall i :: 0 <= i < |table| && table[i].0 == EventKey(k.outbox, id) ==> i == j
  {
    hide Physical, OwnInv, SweepsInv, SweptInv;
    ReachableInv(h, s);
    assert Accounted(s, k, id);
    var sink :| Delivery(k, id, sink) in s.dest.accepted;
    var table := InboxTable(s.dest, inbox);
    assert InInbox(s.dest, inbox, k.outbox, id);
    var j :| 0 <= j < |table| && table[j] == (EventKey(k.outbox, id), Msg(k.outbox, id));
    forall i | 0 <= i < |table| && table[i].0 == EventKey(k.outbox, id)
      ensures i == j
    {
      assert Keys(table)[i] == Keys(table)[j];
    }
  }

  /** In any inbox, at any time, a message is stored at most once, and under no key but its own. */
  lemma InboxAtMostOnce(h: Hash, s: State, inbox: string, i: int, j: int)
    requires Reachable(h, s)
    requires 0 <= i < |InboxTable(s.dest, inbox)| && 0 <= j < |InboxTable(s.dest, inbox)|
    ensures InboxTable(s.dest, inbox)[i].1 == InboxTable(s.dest, inbox)[j].1
       <==> InboxTable(s.dest, inbox)[i].0 == InboxTable(s.dest, inbox)[j].0
    ensures InboxTable(s.dest, inbox)[i].1 == InboxTable(s.dest, inbox)[j].1 <==> i == j
  {
    ReachableInv(h, s);
    var table := InboxTable(s.dest, inbox);
    assert table[i] in table && table[j] in table;
    EventKeyInjective(table[i].1.outbox, table[i].1.id, table[j].1.outbox, table[j].1.id);
    assert Keys(table)[i] == table[i].0 && Keys(table)[j] == table[j].0;
  }

  // ── The fence hides no ids ─────────────────────────────────────────────

  lemma {:induction false} PolledNeverFalls(
      h: Hash, clock: int, states: seq<State>, steps: seq<Step>, i: nat, j: nat, outbox: string)
    requires IsRun(h, clock, states, steps) && i <= j <= |steps|
    ensures PolledUpTo(states[i].store, outbox) <= PolledUpTo(states[j].store, outbox)
    decreases j
  {
    hide DestInv, OwnInv, SweepsInv, LossInv, FlightInv, StoreInv, PollInv, Next, Enabled;
    if i < j {
      PolledNeverFalls(h, clock, states, steps, i, j - 1, outbox);
      RunKeepsInv(h, clock, states, steps, j - 1);
      StoreMonotone(h, states[j - 1], steps[j - 1]);
    }
  }

  /** Once a fenced poll has returned id `seen`, no transaction ever commits a row of that outbox with
      an id at or below it. */
  lemma FenceHidesNoIds(h: Hash, clock: int, states: seq<State>, steps: seq<Step>,
                        i: nat, w: int, seen: int, j: nat, t: int, id: int)
    requires IsRun(h, clock, states, steps) && i < j < |steps|
    requires steps[i].Poll? && steps[i].poll.PollSelect? && steps[i].worker == w
    requires seen in IdsOf(states[i + 1].workers[w].phase)
    requires steps[j] == Publish(t, TxCommit) && id in states[j].store.txs[t].pending
    requires states[j].store.txs[t].pending[id].outbox == states[i].workers[w].key.outbox
    ensures seen < id
  {
    hide DestInv, OwnInv, SweepsInv, LossInv;
    var outbox := states[i].workers[w].key.outbox;
    RunKeepsInv(h, clock, states, steps, i + 1);
    RunKeepsInv(h, clock, states, steps, j);
    assert FlightInv(states[i + 1].store, states[i + 1].workers[w]);
    PolledNeverFalls(h, clock, states, steps, i + 1, j, outbox);
    assert TxInv(states[j].store, states[j].store.txs[t]);
  }

  // ── Retention ──────────────────────────────────────────────────────────

  /** At the moment of deletion: every row a sweep deletes is past the retention age, at or below the
      current offset of every checkpoint and consumer the sweep had read (whether or not the pipeline is
      enabled), settled for each of those checkpoints, and no lease of the outbox is unexpired. */
  lemma RetentionSafe(h: Hash, s: State, v: int, doomed: set<int>, id: int)
    requires Reachable(h, s) && CleanupEnabled(s, v, SweepDelete(doomed)) && id in doomed
    ensures var sw := s.sweeps[v];
            && s.store.rows[id].outbox == sw.outbox && s.store.rows[id].created < sw.cutoff
            && !LeaseBlocked(s.cat, sw.outbox, s.clock)
            && (forall k :: k in sw.covered ==>
                  k in s.cat.offsets && id <= s.cat.offsets[k] && Settled(s.dest, k, id))
            && (forall gc :: gc in sw.coveredConsumers ==>
                  gc in s.cat.groupOffsets && id <= s.cat.groupOffsets[gc])
  {
    hide DestInv, OwnInv, WorkerAccounted, PollInv, FlightInv;
    ReachableInv(h, s);
    var sw := s.sweeps[v];
    assert SweepInv(s, sw);
    forall k | k in sw.covered
      ensures id <= s.cat.offsets[k] && Settled(s.dest, k, id)
    {
      assert Accounted(s, k, id);
    }
  }

  /** And when the deletion commits, after the fence has been released: all of that still holds but for the
      leases, whose guard ends with the fence. */
  lemma RetentionSafeAtCommit(h: Hash, s: State, v: int, id: int)
    requires Reachable(h, s) && CleanupEnabled(s, v, SweepCommit) && id in s.sweeps[v].doomed
    ensures var sw := s.sweeps[v];
            && id in s.store.rows && s.store.rows[id].outbox == sw.outbox && s.store.rows[id].created < sw.cutoff
            && (forall k :: k in sw.covered ==>
                  k in s.cat.offsets && id <= s.cat.offsets[k] && Settled(s.dest, k, id))
            && (forall gc :: gc in sw.coveredConsumers ==>
                  gc in s.cat.groupOffsets && id <= s.cat.groupOffsets[gc])
  {
    ReachableInv(h, s);
    var sw := s.sweeps[v];
    assert SweepInv(s, sw);
    forall k | k in sw.covered
      ensures id <= s.cat.offsets[k] && Settled(s.dest, k, id)
    {
      assert Accounted(s, k, id);
    }
  }

  /** What a sweep reads: every checkpoint of every registered pipeline of the outbox, disabled ones
      included, and every consumer of its groups; and a registered pipeline without any checkpoint
      forbids every deletion. */
  lemma SweepReadsEveryParticipant(h: Hash, s: State, v: int)
    requires Reachable(h, s) && CleanupEnabled(s, v, SweepResolve)
    ensures var sw := AfterCleanup(s, v, SweepResolve).sweeps[v];
            && (forall k :: k in sw.covered <==>
                  (k in s.cat.offsets && k.outbox == sw.outbox
                   && k.pipeline in s.cat.pipelines && s.cat.pipelines[k.pipeline].outbox == sw.outbox))
            && (forall gc :: gc in sw.coveredConsumers <==>
                  (gc in s.cat.groupOffsets && gc.0 in s.cat.groups && s.cat.groups[gc.0] == sw.outbox))
            && (forall p, id :: p in s.cat.pipelines && s.cat.pipelines[p].outbox == sw.outbox
                                && PipelineOffsets(s.cat, p, sw.outbox) == {}
                  ==> id !in Eligible(s.store.rows, sw.outbox, sw.cutoff, sw.safe))
  {
    ReachableInv(h, s);
    var sw := AfterCleanup(s, v, SweepResolve).sweeps[v];
    forall p, id | p in s.cat.pipelines && s.cat.pipelines[p].outbox == sw.outbox
                   && PipelineOffsets(s.cat, p, sw.outbox) == {}
      ensures id !in Eligible(s.store.rows, sw.outbox, sw.cutoff, sw.safe)
    {
      SafeBelowPipeline(s.cat, sw.outbox, p);
    }
  }

  // ── Single writer ──────────────────────────────────────────────────────

  /** A checkpoint may only rise. */
  ghost predicate Raised(offsets: map<Key, int>, offsets': map<Key, int>) {
    forall k :: k in offsets ==> k in offsets' && offsets[k] <= offsets'[k]
  }

  lemma DeliverWrites(s: State, w: int, step: DeliverStep)
    requires DeliverEnabled(s, w, step)
    ensures var n := AfterDeliver(s, w, step);
            && Raised(s.cat.offsets, n.cat.offsets)
            && (n.cat.offsets != s.cat.offsets ==>
                  step.WriteCheckpoint? && s.workers[w].replay.None?
                  && n.cat.offsets == s.cat.offsets[s.workers[w].key := LastOr(IdsOf(s.workers[w].phase), 0)])
            && (n.dest.dlq != s.dest.dlq ==> step.WriteDlq?)
  {
  }

  lemma CheckpointStep(h: Hash, s: State, step: Step)
    requires Enabled(h, s, step)
    ensures Raised(s.cat.offsets, Next(h, s, step).cat.offsets)
    ensures !step.Deliver? ==> Next(h, s, step).cat.offsets == s.cat.offsets && Next(h, s, step).dest == s.dest
  {
    match step
    case Publish(_, _) =>
    case Session(w, p) => SessionFrame(h, s, w, p);
    case Poll(w, p) => PollFrame(s, w, p);
    case Deliver(w, p) => DeliverWrites(s, w, p);
    case Cleanup(v, p) => CleanupFrame(s, v, p);
    case Admin(p) => AdminFrame(s, p);
  }

  ghost predicate HoldsLock(h: Hash, s: State, w: int)
    requires w in s.workers
  {
    var lock := h(s.workers[w].key.relayGroup, LockScope(s.workers[w].key, s.workers[w].tenant));
    lock in s.locks && s.locks[lock] == w
  }

  /** A live session holds the lock of its pipeline exactly if its worker is not a replay. */
  lemma LockedExactly(h: Hash, s: State, w: int)
    requires OwnInv(h, s) && w in s.workers && w in s.live
    ensures HoldsLock(h, s, w) <==> s.workers[w].replay.None?
  {
  }

  /** Whatever changes the checkpoints is a write of a worker whose live session holds the lock of its pipeline;
      it touches that worker's own key only, and moves it to the end of a settled batch. Whatever changes the
      dead-letter queue is a write of a live session, and that session holds its lock if and only if its worker
      is not a bounded replay. */
  lemma DurableWritesUnderLock(h: Hash, s: State, step: Step)
    requires Reachable(h, s) && Enabled(h, s, step)
    ensures Next(h, s, step).cat.offsets != s.cat.offsets ==>
              && step.Deliver? && step.deliver.WriteCheckpoint? && step.worker in s.workers
              && step.worker in s.live && HoldsLock(h, s, step.worker)
              && var k, batch := s.workers[step.worker].key, IdsOf(s.workers[step.worker].phase);
                 Next(h, s, step).cat.offsets == s.cat.offsets[k := LastOr(batch, 0)]
                 && forall i :: i in batch ==> Settled(s.dest, k, i)
    ensures Next(h, s, step).dest.dlq != s.dest.dlq ==>
              && step.Deliver? && step.deliver.WriteDlq? && step.worker in s.workers && step.worker in s.live
              && (HoldsLock(h, s, step.worker) <==> s.workers[step.worker].replay.None?)
  {
    hide Physical, DestInv, SweepsInv, SweptInv, OffsetsAccounted, Raised;
    CheckpointStep(h, s, step);
    ReachableInv(h, s);
    if step.Deliver? {
      DeliverWrites(s, step.worker, step.deliver);
      assert WorkerAccounted(s, s.workers[step.worker]);
      if step.worker in s.live {
        LockedExactly(h, s, step.worker);
      }
    }
  }

  /** Of two workers of one lock scope that could both write, checkpoints or dead letters, at least one is a
      bounded replay, which writes no checkpoint; and a dead session writes neither, even though its worker
      may still be publishing. */
  lemma SingleWriter(h: Hash, s: State, w: int, v: int)
    requires Reachable(h, s) && w in s.workers && v in s.workers
    requires s.workers[w].key.relayGroup == s.workers[v].key.relayGroup
    requires LockScope(s.workers[w].key, s.workers[w].tenant) == LockScope(s.workers[v].key, s.workers[v].tenant)
    requires CanWrite(s, w) && CanWrite(s, v)
    ensures w == v || s.workers[w].replay.Some? || s.workers[v].replay.Some?
    ensures s.workers[w].replay.None? ==> w in s.live && HoldsLock(h, s, w)
  {
    hide Physical, DestInv, SweepsInv, LossInv;
    ReachableInv(h, s);
  }

  ghost predicate CanWrite(s: State, w: int) {
    || DeliverEnabled(s, w, WriteCheckpoint)
    || exists stored, ok :: DeliverEnabled(s, w, WriteDlq(stored, ok))
  }

  /** A durable checkpoint never decreases, whoever writes and whoever has been fenced out. */
  lemma {:induction false} CheckpointsNeverDecrease(
      h: Hash, clock: int, states: seq<State>, steps: seq<Step>, i: nat, j: nat, k: Key)
    requires IsRun(h, clock, states, steps) && i <= j <= |steps| && k in states[i].cat.offsets
    ensures k in states[j].cat.offsets && states[i].cat.offsets[k] <= states[j].cat.offsets[k]
    decreases j
  {
    if i < j {
      var m := j - 1;
      CheckpointsNeverDecrease(h, clock, states, steps, i, m, k);
      CheckpointStep(h, states[m], steps[m]);
      assert states[m + 1] == Next(h, states[m], steps[m]);
    }
  }
}
