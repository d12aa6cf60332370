/** What every step of the protocol keeps. */
module ProtocolInvariants {
  import opened Ids
  import opened Upsert
  import opened Retention
  import opened Protocol

  // ── The outbox store and its fence ─────────────────────────────────────

  ghost predicate TxInv(st: Store, tx: Tx) {
    forall i :: i in tx.pending ==>
      && 1 <= i < st.nextId && i !in st.committed
      && tx.pending[i].outbox in tx.fences
      && PolledUpTo(st, tx.pending[i].outbox) < i
  }

  /** Ids only grow, visible rows were committed, and no open transaction holds an id that a poll of
      its outbox has already passed. */
  ghost predicate StoreInv(st: Store) {
    && 1 <= st.nextId
    && (forall i :: i in st.rows ==> i in st.committed && st.rows[i] == st.committed[i])
    && (forall i :: i in st.committed ==> 1 <= i < st.nextId)
    && (forall t :: t in st.txs ==> TxInv(st, st.txs[t]))
    && (forall t, u, i :: t in st.txs && u in st.txs && t != u && i in st.txs[t].pending ==> i !in st.txs[u].pending)
    && (forall o :: o in st.fence ==> !Shared(st, o))
    && (forall o :: o in st.polled ==> 0 <= st.polled[o] < st.nextId)
  }

  /** The ids a worker has read lie within what was polled, in order, and so does its cursor, unless it is a
      replay that stands where it was told to start. */
  ghost predicate FlightInv(st: Store, w: Worker) {
    && (w.replay.None? ==> 0 <= w.last)
    && (w.last <= PolledUpTo(st, w.key.outbox) || (w.replay.Some? && w.last == w.replay.value.from - 1))
    && (HasBatch(w.phase) ==> w.top <= PolledUpTo(st, w.key.outbox))
    && (HasBatch(w.phase) ==> w.phase.batch != [])
    && Ascending(IdsOf(w.phase))
    && (forall i :: i in IdsOf(w.phase) ==>
          i in st.committed && st.committed[i].outbox == w.key.outbox
          && w.last < i <= PolledUpTo(st, w.key.outbox))
  }

  ghost predicate OffsetsInv(st: Store, offsets: map<Key, int>) {
    forall k :: k in offsets ==> 0 <= offsets[k] <= PolledUpTo(st, k.outbox)
  }

  /** A poll fence is held exactly by the live worker that is polling. */
  ghost predicate PollInv(s: State) {
    && (forall o :: o in s.store.fence && s.store.fence[o].Poller? ==>
          var w := s.store.fence[o].worker;
          w in s.workers && w in s.live && s.workers[w].key.outbox == o
          && (s.workers[w].phase.PollFenced? || s.workers[w].phase.PollRead?))
    && (forall w :: w in s.workers && w in s.live && (s.workers[w].phase.PollFenced? || s.workers[w].phase.PollRead?) ==>
          s.workers[w].key.outbox in s.store.fence && s.store.fence[s.workers[w].key.outbox] == Poller(w))
  }

  ghost predicate Physical(s: State) {
    && StoreInv(s.store)
    && OffsetsInv(s.store, s.cat.offsets)
    && (forall w :: w in s.workers ==> FlightInv(s.store, s.workers[w]))
    && PollInv(s)
  }

  // ── Destinations ───────────────────────────────────────────────────────

  /** Unique keys, and every stored row carries the key of its own message. */
  ghost predicate DestInv(d: Dest) {
    && NoDup(Keys(d.dlq))
    && (forall e :: e in d.dlq ==> e.0.1 == EventKey(e.1.outbox, e.1.id))
    && (forall n :: n in d.inboxes ==> InboxInv(d.inboxes[n]))
    && (forall k, i, n :: Delivery(k, i, Inbox(n)) in d.accepted ==> InInbox(d, n, k.outbox, i))
  }

  ghost predicate InboxInv(table: seq<(string, Msg)>) {
    && NoDup(Keys(table))
    && (forall e :: e in table ==> e.0 == EventKey(e.1.outbox, e.1.id))
  }

  ghost predicate InInbox(d: Dest, name: string, outbox: string, id: int) {
    (EventKey(outbox, id), Msg(outbox, id)) in InboxTable(d, name)
  }

  ghost predicate InDlq(d: Dest, k: Key, id: int) {
    ((k.pipeline, EventKey(k.outbox, id)), Msg(k.outbox, id)) in d.dlq
  }

  ghost predicate Accepted(d: Dest, k: Key, id: int) {
    exists sink :: Delivery(k, id, sink) in d.accepted
  }

  /** The message was accepted by the sink, persisted in the DLQ, or observed by a dry run. */
  ghost predicate Settled(d: Dest, k: Key, id: int) {
    Accepted(d, k, id) || InDlq(d, k, id) || (k, id) in d.dryRun
  }

  // ── Ownership ──────────────────────────────────────────────────────────

  ghost predicate OwnInv(h: Hash, s: State) {
    && (forall w :: w in s.live ==>
          w in s.workers && (s.workers[w].replay.None? ==>
            s.workers[w].lock in s.locks && s.locks[s.workers[w].lock] == w))
    && (forall w :: w in s.workers && s.workers[w].replay.None? ==>
          s.workers[w].lock == h(s.workers[w].key.relayGroup, LockScope(s.workers[w].key, s.workers[w].tenant)))
    && (forall l :: l in s.locks ==> s.locks[l] in s.live && s.workers[s.locks[l]].replay.None?)
  }

  // ── Sweeps ─────────────────────────────────────────────────────────────

  ghost predicate SweepInv(s: State, sw: Sweep) {
    && sw.started <= s.clock
    && (forall k :: k in sw.covered ==>
          k in s.cat.offsets && k.outbox == sw.outbox && sw.safe.Some? && sw.safe.value <= s.cat.offsets[k])
    && (forall gc :: gc in sw.coveredConsumers ==>
          gc in s.cat.groupOffsets && sw.safe.Some? && sw.safe.value <= s.cat.groupOffsets[gc])
    && (forall i :: i in sw.doomed ==>
          i in s.store.rows && s.store.rows[i].outbox == sw.outbox && s.store.rows[i].created < sw.cutoff
          && (sw.safe.Some? ==> i <= sw.safe.value))
    && (sw.stage == Fenced || sw.stage == Resolved ==> sw.doomed == {})
    && (sw.stage == Fenced ==> sw.covered == {} && sw.coveredConsumers == {})
    && ((sw.stage == Resolved || sw.stage == Deleted) && !sw.blocked ==>
          !LeaseBlocked(s.cat, sw.outbox, sw.started))
  }

  /** A sweep holds its outbox's fence exactly until it unlocks. */
  ghost predicate SweepFences(fence: map<string, Holder>, sweeps: map<int, Sweep>) {
    && (forall v :: v in sweeps && sweeps[v].stage != Unlocked ==>
          sweeps[v].outbox in fence && fence[sweeps[v].outbox] == Sweeper(v))
    && (forall o :: o in fence && fence[o].Sweeper? ==>
          var v := fence[o].sweep;
          v in sweeps && sweeps[v].outbox == o && sweeps[v].stage != Unlocked)
  }

  ghost predicate DoomedOnce(sweeps: map<int, Sweep>) {
    forall u, v :: u in sweeps && v in sweeps && u != v ==> sweeps[u].doomed !! sweeps[v].doomed
  }

  ghost predicate SweepsInv(s: State) {
    && (forall v :: v in s.sweeps ==> SweepInv(s, s.sweeps[v]))
    && SweepFences(s.store.fence, s.sweeps)
    && DoomedOnce(s.sweeps)
    && (forall gc :: gc in s.cat.leases ==> gc.0 in s.cat.groups)
  }

  // ── Nothing is lost ────────────────────────────────────────────────────

  /** Settled for this checkpoint, or deleted by a sweep that never read this checkpoint. */
  ghost predicate Accounted(s: State, k: Key, id: int) {
    Settled(s.dest, k, id) || (id in s.swept && k !in s.swept[id])
  }

  ghost predicate OffsetsAccounted(s: State) {
    forall k, i | k in s.cat.offsets && i in s.store.committed && s.store.committed[i].outbox == k.outbox
      :: i <= s.cat.offsets[k] ==> Accounted(s, k, i)
  }

  /** Below an owner's cursor everything is accounted for; up to the end of its batch everything is
      in the batch or accounted for; and a disposed batch is settled. */
  ghost predicate WorkerAccounted(s: State, w: Worker) {
    && (w.replay.None? ==> forall i | i in s.store.committed && s.store.committed[i].outbox == w.key.outbox
          :: i <= LastOr(IdsOf(w.phase), w.last) ==> i in IdsOf(w.phase) || Accounted(s, w.key, i))
    && (Disposed(w.phase) ==> forall i :: i in w.phase.batch ==> Settled(s.dest, w.key, i))
  }

  ghost predicate SweptInv(s: State) {
    && (forall i :: i in s.store.committed <==> i in s.store.rows || i in s.swept)
    && (forall i :: i in s.swept ==> i !in s.store.rows)
    && (forall i, k :: i in s.swept && k in s.swept[i] ==>
          k.outbox == s.store.committed[i].outbox && Settled(s.dest, k, i))
  }

  ghost predicate LossInv(s: State) {
    && OffsetsAccounted(s)
    && (forall w :: w in s.workers ==> WorkerAccounted(s, s.workers[w]))
    && SweptInv(s)
  }

  ghost predicate Inv(h: Hash, s: State) {
    Physical(s) && DestInv(s.dest) && OwnInv(h, s) && SweepsInv(s) && LossInv(s)
  }
}
