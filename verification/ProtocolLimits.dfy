/** Where the protocol's guarantees end, and exactly why. */
module ProtocolLimits {
  import opened Common
  import opened Ids
  import opened ReplayRange
  import opened Outbox
  import opened Retention
  import opened Protocol
  import opened ProtocolInvariants
  import opened ProtocolOwnership
  import opened ProtocolLoss
  import opened ProtocolRuns
  import opened ProtocolTheorems

  // ── Two writers for one checkpoint ─────────────────────────────────────

  /** The lock scope contains the tenant, the checkpoint key does not. So two live workers, say one
      started before and one after the pipeline changed hands, can own the same checkpoint exactly when
      their lock scopes hash differently. */
  lemma TwoWritersExactly(h: Hash, k: Key, tenant: string, tenant': string)
    ensures (exists s, w, v :: Reachable(h, s) && w != v && LiveWorker(s, w, k, tenant) && LiveWorker(s, v, k, tenant'))
       <==> h(k.relayGroup, LockScope(k, tenant)) != h(k.relayGroup, LockScope(k, tenant'))
  {
    var a := h(k.relayGroup, LockScope(k, tenant));
    var b := h(k.relayGroup, LockScope(k, tenant'));
    if s, w, v :| Reachable(h, s) && w != v && LiveWorker(s, w, k, tenant) && LiveWorker(s, v, k, tenant') {
      ReachableInv(h, s);
    }
    if a != b {
      var s0 := Init(0);
      var s1 := Next(h, s0, Session(1, Acquire(k, a, tenant, External, false)));
      var s2 := Next(h, s1, Session(2, Acquire(k, b, tenant', External, false)));
      LeadsNowhere(h, s0);
      LeadsOn(h, s0, s0, Session(1, Acquire(k, a, tenant, External, false)));
      LeadsOn(h, s0, s1, Session(2, Acquire(k, b, tenant', External, false)));
      assert LiveWorker(s2, 1, k, tenant) && LiveWorker(s2, 2, k, tenant');
    }
  }

  /** Tenants share no lock scope of a pipeline, and pipelines share no lock scope of a tenant; the checkpoint's
      outbox and relay group are not part of the scope. */
  lemma ScopesExactly(k: Key, q: Key, tenant: string, tenant': string)
    ensures k.pipeline == q.pipeline ==> (LockScope(k, tenant) == LockScope(q, tenant') <==> tenant == tenant')
    ensures LockScope(k, tenant) == LockScope(q, tenant) <==> k.pipeline == q.pipeline
  {
    var a, b := tenant + ":forward:", tenant' + ":forward:";
    assert LockScope(q, tenant)[|a|..] == q.pipeline && LockScope(k, tenant)[|a|..] == k.pipeline;
    if k.pipeline == q.pipeline && LockScope(k, tenant) == LockScope(q, tenant') {
      assert |tenant| == |tenant'|;
      assert LockScope(k, tenant)[..|tenant|] == tenant && LockScope(q, tenant')[..|tenant'|] == tenant';
    }
  }

  ghost predicate LiveWorker(s: State, w: int, k: Key, tenant: string) {
    && w in s.live && w in s.workers
    && s.workers[w].replay.None? && s.workers[w].key == k && s.workers[w].tenant == tenant
  }

  // ── Settled once, settled for good ─────────────────────────────────────

  lemma SettledOverStep(h: Hash, s: State, step: Step, k: Key, id: int)
    requires DestInv(s.dest) && Enabled(h, s, step) && Settled(s.dest, k, id)
    ensures Settled(Next(h, s, step).dest, k, id)
  {
    if step.Deliver? {
      DeliverRemembers(s, step.worker, step.deliver);
    } else {
      CheckpointStep(h, s, step);
    }
  }

  lemma DestAlongPath(h: Hash, s: State, states: seq<State>, steps: seq<Step>, i: nat)
    requires Reachable(h, s) && IsPath(h, s, states, steps) && i <= |steps|
    ensures DestInv(states[i].dest)
  {
    LeadsNowhere(h, s);
    PathExtends(h, s, s, states, steps, i);
    ReachableOn(h, s, states[i]);
    ReachableInv(h, states[i]);
  }

  lemma {:induction false} SettledOverPath(h: Hash, s: State, states: seq<State>, steps: seq<Step>, k: Key, id: int, i: nat)
    requires Reachable(h, s) && Settled(s.dest, k, id) && IsPath(h, s, states, steps) && i <= |steps|
    ensures Settled(states[i].dest, k, id)
    decreases i
  {
    if i > 0 {
      SettledOverPath(h, s, states, steps, k, id, i - 1);
      DestAlongPath(h, s, states, steps, i - 1);
      SettledOverStep(h, states[i - 1], steps[i - 1], k, id);
    }
  }

  lemma SettledForGood(h: Hash, s: State, n: State, k: Key, id: int)
    requires Reachable(h, s) && Leads(h, s, n) && Settled(s.dest, k, id)
    ensures Settled(n.dest, k, id)
  {
    var states, steps :| IsPath(h, s, states, steps) && states[|steps|] == n;
    SettledOverPath(h, s, states, steps, k, id, |steps|);
  }

  // ── Moves that are always open ─────────────────────────────────────────

  function FreshId(ids: set<int>): (x: int)
    ensures x !in ids
  {
    if ids == {} then 0 else MinOf(ids) - 1
  }

  function WithRow(st: Store, o: string, created: int): Store {
    st.(rows := st.rows[st.nextId := Row(o, created)], committed := st.committed[st.nextId := Row(o, created)],
        nextId := st.nextId + 1)
  }

  lemma TxStores(st: Store, t: int, o: string, created: int)
    requires t !in st.txs && o !in st.fence
    ensures var a := AfterPublish(st, t, TxFence(o));
            && PublishEnabled(a, t, TxInsert(o, created))
            && var b := AfterPublish(a, t, TxInsert(o, created));
               PublishEnabled(b, t, TxCommit) && AfterPublish(b, t, TxCommit) == WithRow(st, o, created)
  {
    var tx := Tx({o}, map[st.nextId := Row(o, created)]);
    var b := st.(txs := st.txs[t := tx], nextId := st.nextId + 1);
    assert AfterPublish(AfterPublish(st, t, TxFence(o)), t, TxInsert(o, created)) == b by {
      assert {} + {o} == {o};
    }
    assert b.txs - {t} == st.txs;
    assert st.rows + tx.pending == st.rows[st.nextId := Row(o, created)];
    assert st.committed + tx.pending == st.committed[st.nextId := Row(o, created)];
  }

  /** A publisher can always commit one more row when nobody holds the fence. */
  lemma PublishRow(h: Hash, s: State, o: string, created: int)
    requires o !in s.store.fence
    ensures Leads(h, s, s.(store := WithRow(s.store, o, created)))
  {
    var t := FreshId(s.store.txs.Keys);
    TxStores(s.store, t, o, created);
    var a := Next(h, s, Publish(t, TxFence(o)));
    var b := Next(h, a, Publish(t, TxInsert(o, created)));
    LeadsNowhere(h, s);
    LeadsOn(h, s, s, Publish(t, TxFence(o)));
    LeadsOn(h, s, a, Publish(t, TxInsert(o, created)));
    LeadsOn(h, s, b, Publish(t, TxCommit));
  }

  /** Nothing but sessions, locks and fences differs, and no fence was taken. */
  ghost predicate SameButSessions(s: State, n: State) {
    && n.cat == s.cat && n.dest == s.dest && n.sweeps == s.sweeps && n.swept == s.swept && n.clock == s.clock
    && n.store == s.store.(fence := n.store.fence)
    && n.store.fence.Keys <= s.store.fence.Keys
  }

  /** Whoever holds a lock can go away. */
  lemma FreeLock(h: Hash, s: State, lock: int) returns (n: State)
    requires OwnInv(h, s)
    ensures Leads(h, s, n) && SameButSessions(s, n) && lock !in n.locks
  {
    LeadsNowhere(h, s);
    if lock in s.locks {
      var w := s.locks[lock];
      n := Next(h, s, Session(w, Exit));
      LeadsOn(h, s, s, Session(w, Exit));
    } else {
      n := s;
    }
  }

  /** An ordinary worker, idle at this cursor. */
  ghost predicate Waiting(s: State, w: int, k: Key, last: int) {
    && w in s.workers && w in s.live && s.workers[w].phase.Idle?
    && s.workers[w].key == k && s.workers[w].last == last
    && s.workers[w].sink.External? && !s.workers[w].dryRun && s.workers[w].replay.None?
  }

  /** A worker starts and loads its checkpoint. */
  lemma StartWorker(h: Hash, s: State, k: Key) returns (w: int, n: State)
    requires h(k.relayGroup, LockScope(k, "")) !in s.locks
    ensures Leads(h, s, n) && SameButSessions(s, n) && n.store == s.store
    ensures Waiting(n, w, k, if k in s.cat.offsets then s.cat.offsets[k] else 0)
  {
    w := FreshId(s.workers.Keys);
    var acquire := Session(w, Acquire(k, h(k.relayGroup, LockScope(k, "")), "", External, false));
    var a := Next(h, s, acquire);
    n := Next(h, a, Session(w, LoadOffset));
    LeadsNowhere(h, s);
    LeadsOn(h, s, s, acquire);
    LeadsOn(h, s, a, Session(w, LoadOffset));
  }

  /** The worker holds this batch and has not started on it. */
  ghost predicate Holding(s: State, w: int, k: Key, batch: seq<int>) {
    && w in s.workers && w in s.live && s.workers[w].phase == Polled(batch) && s.workers[w].key == k
    && s.workers[w].sink.External? && !s.workers[w].dryRun && s.workers[w].replay.None?
  }

  /** An idle worker polls everything above its cursor. */
  lemma PollAll(h: Hash, s: State, w: int, k: Key, last: int) returns (batch: seq<int>, n: State)
    requires Waiting(s, w, k, last) && FenceFree(s.store, k.outbox)
    requires IdsAfter(s.store.rows, k.outbox, last) != {}
    ensures Leads(h, s, n)
    ensures n.cat == s.cat && n.dest == s.dest && n.sweeps == s.sweeps && n.swept == s.swept && n.clock == s.clock
    ensures n.store.rows == s.store.rows && n.store.committed == s.store.committed
    ensures FenceFree(n.store, k.outbox)
    ensures batch == SortedIds(IdsAfter(s.store.rows, k.outbox, last))
    ensures Holding(n, w, k, batch)
  {
    hide SelectAfter, SortedIds, IdsAfter;
    var all := IdsAfter(s.store.rows, k.outbox, last);
    batch := SortedIds(all);
    n := PollRows(h, s, w, |all|);
    SelectEverything(s.store.rows, k.outbox, last);
  }

  lemma SelectEverything(rows: Rows, o: string, last: int)
    ensures SelectAfter(rows, o, last, |IdsAfter(rows, o, last)|) == SortedIds(IdsAfter(rows, o, last))
  {
    hide SortedIds;
    var all := SortedIds(IdsAfter(rows, o, last));
    assert all[..|all|] == all;
  }

  lemma StartBatch(h: Hash, s: State, w: int, batch: seq<int>) returns (n: State)
    requires w in s.workers && s.workers[w].phase == Polled(batch) && !s.workers[w].dryRun
    ensures Leads(h, s, n) && n == WithPhase(s, w, PublishStarted(batch))
  {
    hide LastOr, Elems, Accept;
    var a := Next(h, s, Deliver(w, Encode));
    n := Next(h, a, Deliver(w, StartPublish));
    LeadsNowhere(h, s);
    LeadsOn(h, s, s, Deliver(w, Encode));
    LeadsOn(h, s, a, Deliver(w, StartPublish));
    assert n.workers == s.workers[w := s.workers[w].(phase := PublishStarted(batch))];
  }

  /** The sink takes the whole batch and the checkpoint is committed. */
  lemma PublishBatch(h: Hash, s: State, w: int, k: Key, batch: seq<int>) returns (n: State)
    requires Holding(s, w, k, batch)
    ensures Leads(h, s, n)
    ensures n.cat == s.cat.(offsets := UpsertOffset(s.cat.offsets, k, LastOr(batch, 0)))
    ensures n.dest == s.dest.(accepted := s.dest.accepted + set i | i in Elems(batch) :: Delivery(k, i, External))
    ensures n.sweeps == s.sweeps && n.swept == s.swept && n.store == s.store && n.clock == s.clock
  {
    hide UpsertOffset, Elems, LastOr;
    var reply := Deliver(w, SinkReply(Elems(batch), true, false));
    var b := StartBatch(h, s, w, batch);
    var c := Next(h, b, reply);
    n := Next(h, c, Deliver(w, WriteCheckpoint));
    LeadsOn(h, s, b, reply);
    LeadsOn(h, s, c, Deliver(w, WriteCheckpoint));
  }

  /** A fresh row and a fresh worker that has not seen it. */
  lemma PublishAndStart(h: Hash, s: State, k: Key, created: int) returns (w: int, last: int, n: State)
    requires Physical(s) && OwnInv(h, s) && FenceFree(s.store, k.outbox)
    ensures Leads(h, s, n) && n.clock == s.clock
    ensures n.cat == s.cat && n.dest == s.dest && n.sweeps == s.sweeps && n.swept == s.swept
    ensures n.store.(fence := s.store.fence) == WithRow(s.store, k.outbox, created) && FenceFree(n.store, k.outbox)
    ensures Waiting(n, w, k, last) && last < s.store.nextId
  {
    hide FlightInv, PollInv, OwnInv;
    PublishRow(h, s, k.outbox, created);
    var a := s.(store := WithRow(s.store, k.outbox, created));
    OwnKept(h, s, a);
    var b := FreeLock(h, a, h(k.relayGroup, LockScope(k, "")));
    last := if k in s.cat.offsets then s.cat.offsets[k] else 0;
    w, n := StartWorker(h, b, k);
    LeadsFurther(h, s, a, b);
    LeadsFurther(h, s, b, n);
  }

  lemma NewestIsLast(s: State, k: Key, created: int, after: int)
    requires after < s.store.nextId && forall i :: i in s.store.rows ==> i < s.store.nextId
    ensures var all := IdsAfter(WithRow(s.store, k.outbox, created).rows, k.outbox, after);
            all != {} && LastOr(SortedIds(all), 0) == s.store.nextId
            && forall i :: i in SortedIds(all) ==> i in WithRow(s.store, k.outbox, created).rows
  {
    var all := IdsAfter(WithRow(s.store, k.outbox, created).rows, k.outbox, after);
    assert s.store.nextId in all;
    var ids := SortedIds(all);
    LastIsTop(ids);
    assert ids[|ids| - 1] in ids;
  }

  /** From any reachable state whose outbox is not fenced, this checkpoint can move past every row there is,
      committed or deleted, while the sink takes only rows that are still there. */
  lemma CheckpointCanPass(h: Hash, s: State, k: Key, created: int) returns (n: State)
    requires Physical(s) && OwnInv(h, s) && FenceFree(s.store, k.outbox)
    ensures Leads(h, s, n) && n.clock == s.clock
    ensures n.sweeps == s.sweeps && n.swept == s.swept && FenceFree(n.store, k.outbox)
    ensures n.store.committed == WithRow(s.store, k.outbox, created).committed
    ensures n.store.rows == WithRow(s.store, k.outbox, created).rows
    ensures n.cat == s.cat.(offsets := UpsertOffset(s.cat.offsets, k, s.store.nextId))
    ensures n.dest == s.dest.(accepted := n.dest.accepted)
    ensures forall e :: e in n.dest.accepted ==> e in s.dest.accepted || (e.key == k && e.id in n.store.rows)
  {
    hide UpsertOffset, IdsAfter, SortedIds, LastOr;
    var w, last, c := PublishAndStart(h, s, k, created);
    NewestIsLast(s, k, created, last);
    var batch, d := PollAll(h, c, w, k, last);
    n := PublishBatch(h, d, w, k, batch);
    LeadsFurther(h, s, c, d);
    LeadsFurther(h, s, d, n);
  }

  // ── Two writers for one dead-letter queue ──────────────────────────────

  /** A replay can always start: it takes no lock, and stands just before its range. */
  lemma StartReplayer(h: Hash, s: State, k: Key, sink: Sink, dryRun: bool, r: Range) returns (v: int, n: State)
    requires k.relayGroup == "replay:" + k.pipeline && 0 <= r.from <= r.to
    ensures Leads(h, s, n) && v !in s.workers
    ensures n == s.(workers := s.workers[v := Worker(k, 0, "", sink, dryRun, Some(r), r.from - 1, 0, Idle)],
                    live := s.live + {v})
  {
    v := FreshId(s.workers.Keys);
    var start := Session(v, StartReplay(k, sink, dryRun, r));
    var a := Next(h, s, start);
    n := Next(h, a, Session(v, LoadOffset));
    LeadsNowhere(h, s);
    LeadsOn(h, s, s, start);
    LeadsOn(h, s, a, Session(v, LoadOffset));
    assert n.workers == s.workers[v := Worker(k, 0, "", sink, dryRun, Some(r), r.from - 1, 0, Idle)];
  }

  /** A replay of exactly row `id` starts and polls it. */
  lemma StartReplayOf(h: Hash, s: State, k: Key, id: int) returns (v: int, n: State)
    requires FenceFree(s.store, k.outbox) && 0 <= id && id in s.store.rows && s.store.rows[id].outbox == k.outbox
    ensures Leads(h, s, n) && v !in s.workers && n.dest == s.dest && n.cat == s.cat && n.locks == s.locks
    ensures v in n.workers && n.live == s.live + {v}
    ensures n.workers[v].replay == Some(Range(id, id)) && !n.workers[v].dryRun
    ensures n.workers[v].key == Key("replay:" + k.pipeline, k.pipeline, k.outbox)
    ensures forall w :: w in s.workers ==> w in n.workers && n.workers[w] == s.workers[w]
    ensures n.workers[v].phase == Polled([id])
  {
    hide SelectAfter, InRange;
    var b;
    v, b := StartReplayer(h, s, Key("replay:" + k.pipeline, k.pipeline, k.outbox), External, false, Range(id, id));
    n := PollRows(h, b, v, 1);
    LeadsFurther(h, s, b, n);
    SelectsOne(s.store.rows, k.outbox, id);
  }

  lemma SelectsOne(rows: Rows, o: string, id: int)
    requires id in rows && rows[id].outbox == o
    ensures SelectAfter(rows, o, id - 1, 1) == [id] && InRange([id], Range(id, id)) == [id]
  {
    hide FirstIds;
    var ids := SelectAfter(rows, o, id - 1, 1);
    assert id in IdsAfter(rows, o, id - 1);
    assert ids[0] in ids;
    assert id in ids;
  }

  /** The worker can write its batch to the dead-letter queue. */
  ghost predicate CanDeadLetter(s: State, w: int) {
    DeliverEnabled(s, w, WriteDlq(true, true))
  }

  /** Starts on the batch, and has it refused for good. */
  lemma RefuseBatch(h: Hash, s: State, w: int, batch: seq<int>) returns (n: State)
    requires w in s.workers && w in s.live && s.workers[w].phase == Polled(batch) && !s.workers[w].dryRun
    ensures Leads(h, s, n) && n == WithPhase(s, w, PublishFailed(batch, false)) && CanDeadLetter(n, w)
  {
    var a := StartBatch(h, s, w, batch);
    n := Next(h, a, Deliver(w, Refuse(false)));
    LeadsOn(h, s, a, Deliver(w, Refuse(false)));
    assert n.workers == s.workers[w := s.workers[w].(phase := PublishFailed(batch, false))];
  }

  /** A replay of this pipeline that can write row `id` to the pipeline's dead-letter queue. */
  ghost predicate ReplayDeadLetters(s: State, v: int, k: Key, id: int) {
    && CanDeadLetter(s, v) && s.workers[v].replay.Some?
    && s.workers[v].key.pipeline == k.pipeline && s.workers[v].key.outbox == k.outbox
    && IdsOf(s.workers[v].phase) == [id]
  }

  /** Whatever the pipeline's owner is doing, whenever its outbox is not fenced a replay of any stored row can
      become a second writer of the pipeline's dead-letter queue, next to an owner that has stood still. */
  lemma ReplayCanDeadLetterToo(h: Hash, s: State, k: Key, id: int) returns (v: int, n: State)
    requires Reachable(h, s) && FenceFree(s.store, k.outbox)
    requires id in s.store.rows && s.store.rows[id].outbox == k.outbox
    ensures Leads(h, s, n) && ReplayDeadLetters(n, v, k, id) && v !in s.workers
    ensures n.dest == s.dest && n.locks == s.locks
    ensures forall w :: w in s.workers ==>
              w in n.workers && n.workers[w] == s.workers[w] && (w in s.live ==> w in n.live)
  {
    hide DestInv, OwnInv, SweepsInv, LossInv, FlightInv, PollInv;
    ReachableInv(h, s);
    var a;
    v, a := StartReplayOf(h, s, k, id);
    n := RefuseBatch(h, a, v, [id]);
    LeadsFurther(h, s, a, n);
  }

  /** An owner with a failed batch over row 1. */
  lemma OwnerCanDeadLetter(h: Hash, k: Key) returns (w: int, n: State)
    ensures Reachable(h, n) && CanDeadLetter(n, w) && n.workers[w].replay.None? && n.workers[w].key == k
    ensures FenceFree(n.store, k.outbox) && 1 in n.store.rows && n.store.rows[1].outbox == k.outbox
  {
    hide SortedIds, SelectAfter, DestInv, SweepsInv, LossInv;
    var s := Init(0);
    var last, a;
    InvInit(h, 0);
    w, last, a := PublishAndStart(h, s, k, 0);
    NewestIsLast(s, k, 0, last);
    var batch, b := PollAll(h, a, w, k, last);
    n := RefuseBatch(h, b, w, batch);
    LeadsFurther(h, s, a, b);
    LeadsFurther(h, s, b, n);
  }

  /** So the single writer of a pipeline is single among its owners only: for every pipeline there is a run
      in which its owner and a replay can both write the same dead-letter queue. */
  lemma TwoDeadLetterWriters(h: Hash, k: Key)
    ensures exists s, w, v ::
              Reachable(h, s) && ReplayDeadLetters(s, v, k, 1)
              && CanDeadLetter(s, w) && s.workers[w].replay.None? && s.workers[w].key == k
  {
    var w, s := OwnerCanDeadLetter(h, k);
    var v, n := ReplayCanDeadLetterToo(h, s, k, 1);
    ReachableOn(h, s, n);
    assert CanDeadLetter(n, w);
  }

  // ── A sweep that does not see a checkpoint ─────────────────────────────

  ghost predicate Lost(s: State, k: Key, id: int) {
    && k in s.cat.offsets && id in s.store.committed && s.store.committed[id].outbox == k.outbox
    && id <= s.cat.offsets[k] && !Settled(s.dest, k, id)
  }

  /** The sweep releases the fence and commits its deletion. */
  lemma FinishSweep(h: Hash, s: State, v: int, doomed: set<int>, id: int) returns (n: State)
    requires Inv(h, s) && CleanupEnabled(s, v, SweepDelete(doomed)) && id in doomed
    ensures Leads(h, Next(h, s, Cleanup(v, SweepDelete(doomed))), n) && n.cat == s.cat && n.dest == s.dest
    ensures FenceFree(n.store, s.sweeps[v].outbox)
    ensures id !in n.store.rows && id in n.store.committed && n.store.committed[id].outbox == s.sweeps[v].outbox
    ensures id < n.store.nextId
  {
    var a := Next(h, s, Cleanup(v, SweepDelete(doomed)));
    var b := Next(h, a, Cleanup(v, SweepUnlock));
    n := Next(h, b, Cleanup(v, SweepCommit));
    LeadsNowhere(h, a);
    LeadsOn(h, a, a, Cleanup(v, SweepUnlock));
    LeadsOn(h, a, b, Cleanup(v, SweepCommit));
    assert !Shared(s.store, s.sweeps[v].outbox);
    assert !Shared(n.store, s.sweeps[v].outbox);
  }

  /** A row that a sweep may delete is settled for every checkpoint the sweep has read. */
  lemma CoveredIsSettled(h: Hash, s: State, v: int, doomed: set<int>, id: int, k: Key)
    requires Inv(h, s) && CleanupEnabled(s, v, SweepDelete(doomed)) && id in doomed && k in s.sweeps[v].covered
    ensures Settled(s.dest, k, id)
  {
    assert SweepInv(s, s.sweeps[v]);
    assert id in s.store.committed;
    assert Accounted(s, k, id);
  }

  lemma DeletedCanBeLost(h: Hash, s: State, id: int, k: Key) returns (n: State)
    requires Reachable(h, s) && FenceFree(s.store, k.outbox) && !Settled(s.dest, k, id)
    requires id in s.store.committed && id !in s.store.rows && s.store.committed[id].outbox == k.outbox
    requires id < s.store.nextId
    ensures Leads(h, s, n) && Lost(n, k, id)
  {
    hide DestInv, OwnInv, SweepsInv, LossInv;
    ReachableInv(h, s);
    n := CheckpointCanPass(h, s, k, 0);
  }

  lemma UncoveredCanBeLost(h: Hash, s: State, v: int, doomed: set<int>, id: int, k: Key) returns (n: State)
    requires Reachable(h, s) && CleanupEnabled(s, v, SweepDelete(doomed)) && id in doomed
    requires s.sweeps[v].outbox == k.outbox
    requires !Settled(s.dest, k, id)
    ensures Leads(h, Next(h, s, Cleanup(v, SweepDelete(doomed))), n) && Lost(n, k, id)
  {
    ReachableInv(h, s);
    var a := Next(h, s, Cleanup(v, SweepDelete(doomed)));
    LeadsNowhere(h, s);
    LeadsOn(h, s, s, Cleanup(v, SweepDelete(doomed)));
    var b := FinishSweep(h, s, v, doomed, id);
    LeadsFurther(h, s, a, b);
    ReachableOn(h, s, b);
    n := DeletedCanBeLost(h, b, id, k);
    LeadsFurther(h, a, b, n);
  }

  /** A sweep about to delete a batch with row `id` in it can end in a loss of that row for checkpoint `k`
      exactly when the sweep has not read that checkpoint and the row is not yet settled for it. */
  lemma SweepLosesExactly(h: Hash, s: State, v: int, doomed: set<int>, id: int, k: Key)
    requires Reachable(h, s) && CleanupEnabled(s, v, SweepDelete(doomed)) && id in doomed
    requires s.sweeps[v].outbox == k.outbox
    ensures (exists n :: Leads(h, Next(h, s, Cleanup(v, SweepDelete(doomed))), n) && Lost(n, k, id))
       <==> (k !in s.sweeps[v].covered && !Settled(s.dest, k, id))
  {
    ReachableInv(h, s);
    if k in s.sweeps[v].covered {
      CoveredIsSettled(h, s, v, doomed, id, k);
    }
    if Settled(s.dest, k, id) {
      var a := Next(h, s, Cleanup(v, SweepDelete(doomed)));
      LeadsNowhere(h, s);
      LeadsOn(h, s, s, Cleanup(v, SweepDelete(doomed)));
      ReachableOn(h, s, a);
      forall n | Leads(h, a, n)
        ensures !Lost(n, k, id)
      {
        SettledForGood(h, a, n, k, id);
      }
    } else {
      var n := UncoveredCanBeLost(h, s, v, doomed, id, k);
    }
  }

  // ── A concrete loss ────────────────────────────────────────────────────

  const WEST: Key := Key("west", "orders", "o")
  const EAST: Key := Key("east", "orders", "o")

  lemma PipelineRegistered(h: Hash) returns (n: State)
    ensures Reachable(h, n) && Leads(h, Init(0), n) && Physical(n) && OwnInv(h, n)
    ensures n == Init(0).(cat := EMPTY_CATALOG.(pipelines := map["orders" := Pipeline("o", true)]))
  {
    var register := Admin(SetPipeline("orders", Pipeline("o", true)));
    n := Next(h, Init(0), register);
    LeadsNowhere(h, Init(0));
    LeadsOn(h, Init(0), Init(0), register);
  }

  lemma AcceptedFor(d: Dest, k: Key, q: Key, id: int)
    requires d.dlq == [] && d.dryRun == {} && (forall e :: e in d.accepted ==> e.key == k) && q != k
    ensures !Settled(d, q, id)
  {
  }

  /** The first relay group publishes row 1 and passes it; the second has no offset row yet. */
  lemma FirstGroupPasses(h: Hash) returns (n: State)
    ensures Reachable(h, n) && !Settled(n.dest, EAST, 1)
    ensures n.sweeps == map[] && FenceFree(n.store, "o") && n.clock == 0
    ensures n.cat == EMPTY_CATALOG.(pipelines := map["orders" := Pipeline("o", true)], offsets := map[WEST := 1])
    ensures 1 in n.store.rows && n.store.rows[1] == Row("o", -1)
  {
    hide Inv, Physical, OwnInv, Settled, IsPath;
    var s := PipelineRegistered(h);
    n := CheckpointCanPass(h, s, WEST, -1);
    ReachableOn(h, s, n);
    AcceptedFor(n.dest, WEST, EAST, 1);
  }

  /** The only participant has reached position 1. */
  lemma SafeIsOne(c: Catalog)
    requires c.pipelines == map["orders" := Pipeline("o", true)] && c.offsets == map[WEST := 1] && c.groups == map[]
    ensures SafeOffset(c, "o") == Some(1)
  {
    SafeOffsetAttained(c, "o");
    SafeBelowPipeline(c, "o", "orders");
    assert c.offsets[WEST] in PipelineOffsets(c, "orders", "o");
  }

  /** The sweep reads one participant, at position 1, and may delete row 1. */
  lemma SweepAfterFirst(h: Hash, s: State) returns (n: State)
    requires s.sweeps == map[] && FenceFree(s.store, "o") && s.clock == 0
    requires s.cat == EMPTY_CATALOG.(pipelines := map["orders" := Pipeline("o", true)], offsets := map[WEST := 1])
    requires 1 in s.store.rows && s.store.rows[1] == Row("o", -1)
    ensures Leads(h, s, n) && n.dest == s.dest
    ensures CleanupEnabled(n, 7, SweepDelete({1})) && n.sweeps[7].outbox == "o" && n.cat.groups == map[]
  {
    hide SafeOffset;
    var fence := Cleanup(7, SweepFence("o", 0, 0));
    var a := Next(h, s, fence);
    n := Next(h, a, Cleanup(7, SweepResolve));
    SafeIsOne(s.cat);
    LeadsNowhere(h, s);
    LeadsOn(h, s, s, fence);
    LeadsOn(h, s, a, Cleanup(7, SweepResolve));
  }

  /** Two relay groups run the same pipeline. The minimum over the recorded offsets ignores the group
      that has none, a sweep deletes row 1, and that group's checkpoint later moves past a message it
      never delivered. */
  lemma SecondGroupCanLose(h: Hash)
    ensures exists s :: Reachable(h, s) && Lost(s, EAST, 1)
  {
    var s := FirstGroupPasses(h);
    var n := SweepAfterFirst(h, s);
    ReachableOn(h, s, n);
    var d := Cleanup(7, SweepDelete({1}));
    var lost := UncoveredCanBeLost(h, n, 7, {1}, 1, EAST);
    LeadsOn(h, s, n, d);
    LeadsFurther(h, s, Next(h, n, d), lost);
    ReachableOn(h, s, lost);
  }
}
