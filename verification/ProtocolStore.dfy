/** The outbox store: the fence, the ids, and every worker's position in them. */
module ProtocolStore {
  import opened Common
  import opened Outbox
  import opened Retention
  import opened Protocol
  import opened ProtocolInvariants

  // ── One lemma per way the store changes ────────────────────────────────

  lemma SharedFence(st: Store, t: int, o: string)
    requires StoreInv(st) && o !in st.fence
    ensures var tx := if t in st.txs then st.txs[t] else Tx({}, map[]);
            StoreInv(st.(txs := st.txs[t := tx.(fences := tx.fences + {o})]))
  {
    var tx := if t in st.txs then st.txs[t] else Tx({}, map[]);
    var st' := st.(txs := st.txs[t := tx.(fences := tx.fences + {o})]);
    forall p | p in st'.fence
      ensures !Shared(st', p)
    {
      forall u | u in st'.txs
        ensures p !in st'.txs[u].fences
      {
        assert !Shared(st, p);
      }
    }
  }

  lemma InsertRow(st: Store, t: int, o: string, created: int)
    requires StoreInv(st) && t in st.txs && o in st.txs[t].fences
    requires forall p :: p in st.polled ==> st.polled[p] < st.nextId
    ensures var tx := st.txs[t];
            StoreInv(st.(txs := st.txs[t := tx.(pending := tx.pending[st.nextId := Row(o, created)])],
                      nextId := st.nextId + 1))
  {
    var tx := st.txs[t];
    var st' := st.(txs := st.txs[t := tx.(pending := tx.pending[st.nextId := Row(o, created)])],
                      nextId := st.nextId + 1);
    forall p | p in st'.fence
      ensures !Shared(st', p)
    {
      forall u | u in st'.txs
        ensures p !in st'.txs[u].fences
      {
        assert !Shared(st, p);
      }
    }
  }

  lemma CommitTx(st: Store, t: int)
    requires StoreInv(st) && t in st.txs
    ensures var tx := st.txs[t];
      StoreInv(st.(rows := st.rows + tx.pending, committed := st.committed + tx.pending, txs := st.txs - {t}))
  {
    var tx := st.txs[t];
    var st' := st.(rows := st.rows + tx.pending, committed := st.committed + tx.pending, txs := st.txs - {t});
    forall p | p in st'.fence
      ensures !Shared(st', p)
    {
      assert !Shared(st, p);
    }
  }

  lemma AbortTx(st: Store, t: int)
    requires StoreInv(st) && t in st.txs
    ensures StoreInv(st.(txs := st.txs - {t}))
  {
    var st' := st.(txs := st.txs - {t});
    forall p | p in st'.fence
      ensures !Shared(st', p)
    {
      assert !Shared(st, p);
    }
  }

  lemma ExclusiveFence(st: Store, o: string, holder: Holder)
    requires StoreInv(st) && FenceFree(st, o)
    ensures StoreInv(st.(fence := st.fence[o := holder]))
  {
    var st' := st.(fence := st.fence[o := holder]);
    forall p | p in st'.fence
      ensures !Shared(st', p)
    {
      assert !Shared(st, p);
    }
  }

  lemma ReleaseFence(st: Store, holder: Holder)
    requires StoreInv(st)
    ensures StoreInv(Released(st, holder))
  {
    var st' := Released(st, holder);
    forall p | p in st'.fence
      ensures !Shared(st', p)
    {
      assert !Shared(st, p);
    }
  }

  lemma RaisePolled(st: Store, o: string, top: int)
    requires StoreInv(st) && o in st.fence && PolledUpTo(st, o) <= top < st.nextId
    ensures StoreInv(st.(polled := st.polled[o := top]))
  {
    var st' := st.(polled := st.polled[o := top]);
    forall p | p in st'.fence
      ensures !Shared(st', p)
    {
      assert !Shared(st, p);
    }
    forall t | t in st.txs
      ensures TxInv(st', st.txs[t])
    {
      assert TxInv(st, st.txs[t]);
      assert o !in st.txs[t].fences by { assert !Shared(st, o); }
    }
  }

  lemma RemoveRows(st: Store, gone: set<int>)
    requires StoreInv(st)
    ensures StoreInv(st.(rows := st.rows - gone))
  {
    var st' := st.(rows := st.rows - gone);
    forall p | p in st'.fence
      ensures !Shared(st', p)
    {
      assert !Shared(st, p);
    }
  }

  // ── Growth ─────────────────────────────────────────────────────────────

  ghost predicate Grows(st: Store, st': Store) {
    && (forall i :: i in st.committed ==> i in st'.committed && st'.committed[i] == st.committed[i])
    && (forall o :: PolledUpTo(st, o) <= PolledUpTo(st', o))
  }

  lemma FlightGrows(st: Store, st': Store, w: Worker)
    requires FlightInv(st, w) && Grows(st, st')
    ensures FlightInv(st', w)
  {
  }

  lemma OffsetsGrow(st: Store, st': Store, offsets: map<Key, int>)
    requires OffsetsInv(st, offsets) && Grows(st, st')
    ensures OffsetsInv(st', offsets)
  {
  }

  // ── The store over a step of each kind ───────────────────────────────────────────

  lemma PublishKeepsStore(st: Store, t: int, step: PublishStep)
    requires StoreInv(st) && PublishEnabled(st, t, step)
    ensures StoreInv(AfterPublish(st, t, step)) && Grows(st, AfterPublish(st, t, step))
  {
    match step
    case TxFence(o) => SharedFence(st, t, o);
    case TxInsert(o, created) => InsertRow(st, t, o, created);
    case TxCommit => CommitTx(st, t);
                     assert TxInv(st, st.txs[t]);
    case TxAbort => AbortTx(st, t);
  }

  lemma SelectedIds(s: State, w: int, limit: nat)
    requires StoreInv(s.store) && PollInv(s) && PollEnabled(s, w, PollSelect(limit))
    ensures var o := s.workers[w].key.outbox;
            var ids := SelectAfter(s.store.rows, o, s.workers[w].last, limit);
            && o in s.store.fence
            && (forall i :: i in ids ==> i <= LastOr(ids, 0))
            && LastOr(ids, 0) < s.store.nextId
  {
    hide SelectAfter;
    var o := s.workers[w].key.outbox;
    var ids := SelectAfter(s.store.rows, o, s.workers[w].last, limit);
    if ids != [] {
      assert ids[|ids| - 1] in ids;
    }
  }

  lemma PollKeepsStore(s: State, w: int, step: PollStep)
    requires StoreInv(s.store) && PollInv(s) && PollEnabled(s, w, step)
    ensures StoreInv(AfterPoll(s, w, step).store) && Grows(s.store, AfterPoll(s, w, step).store)
  {
    var o := s.workers[w].key.outbox;
    match step
    case PollFence => ExclusiveFence(s.store, o, Poller(w));
    case PollSelect(limit) =>
      SelectedIds(s, w, limit);
      var ids := SelectAfter(s.store.rows, o, s.workers[w].last, limit);
      RaisePolled(s.store, o, Max(PolledUpTo(s.store, o), LastOr(ids, 0)));
    case PollDone => ReleaseFence(s.store, Poller(w));
    case PollFailed => ReleaseFence(s.store, Poller(w));
  }

  lemma SessionKeepsStore(h: Hash, s: State, w: int, step: SessionStep)
    requires StoreInv(s.store) && SessionEnabled(h, s, w, step)
    ensures StoreInv(AfterSession(h, s, w, step).store) && Grows(s.store, AfterSession(h, s, w, step).store)
  {
    ReleaseFence(s.store, Poller(w));
  }

  lemma CleanupKeepsStore(s: State, v: int, step: CleanupStep)
    requires StoreInv(s.store) && CleanupEnabled(s, v, step)
    ensures StoreInv(AfterCleanup(s, v, step).store) && Grows(s.store, AfterCleanup(s, v, step).store)
  {
    match step
    case SweepFence(o, _, _) => ExclusiveFence(s.store, o, Sweeper(v));
    case SweepCommit => RemoveRows(s.store, s.sweeps[v].doomed);
    case _ => ReleaseFence(s.store, Sweeper(v));
  }
}
