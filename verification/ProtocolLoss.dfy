/** Every committed row at or below a checkpoint stays accounted for. */
module ProtocolLoss {
  import opened Ids
  import opened Upsert
  import opened Outbox
  import opened Retention
  import opened Protocol
  import opened ProtocolInvariants
  import opened ProtocolPositions
  import opened ProtocolDest

  /** A commit adds rows above everything polled, and so above every cursor and batch. */
  lemma CommitAboveWorker(s: State, t: int, w: int)
    requires StoreInv(s.store) && PublishEnabled(s.store, t, TxCommit)
    requires w in s.workers && FlightInv(s.store, s.workers[w]) && WorkerAccounted(s, s.workers[w])
    ensures WorkerAccounted(s.(store := AfterPublish(s.store, t, TxCommit)), s.workers[w])
  {
    var n := s.(store := AfterPublish(s.store, t, TxCommit));
    var k := s.workers[w].key;
    BatchEnd(s.store, s.workers[w]);
    SameAccounts(s, n);
    if s.workers[w].replay.None? {
      forall i | i in n.store.committed && n.store.committed[i].outbox == k.outbox
                 && i <= LastOr(IdsOf(s.workers[w].phase), s.workers[w].last)
        ensures i in IdsOf(s.workers[w].phase) || Accounted(n, k, i)
      {
        CommittedBelow(s.store, t, k.outbox, i);
      }
    }
  }

  lemma CommittedBelow(st: Store, t: int, outbox: string, i: int)
    requires StoreInv(st) && PublishEnabled(st, t, TxCommit)
    requires i in AfterPublish(st, t, TxCommit).committed && i <= PolledUpTo(st, outbox)
    requires AfterPublish(st, t, TxCommit).committed[i].outbox == outbox
    ensures i in st.committed && st.committed[i].outbox == outbox
  {
    assert TxInv(st, st.txs[t]);
  }

  lemma SameAccounts(s: State, n: State)
    requires n.dest == s.dest && n.swept == s.swept
    ensures forall k, i :: Accounted(n, k, i) <==> Accounted(s, k, i)
  {
  }

  lemma CommitAboveOffsets(s: State, t: int)
    requires StoreInv(s.store) && OffsetsInv(s.store, s.cat.offsets) && OffsetsAccounted(s)
    requires PublishEnabled(s.store, t, TxCommit)
    ensures OffsetsAccounted(s.(store := AfterPublish(s.store, t, TxCommit)))
  {
    var n := s.(store := AfterPublish(s.store, t, TxCommit));
    SameAccounts(s, n);
    forall k, i | k in n.cat.offsets && i in n.store.committed && n.store.committed[i].outbox == k.outbox
                  && i <= n.cat.offsets[k]
      ensures Accounted(n, k, i)
    {
      CommittedBelow(s.store, t, k.outbox, i);
    }
  }

  lemma LossAfterPublish(s: State, t: int, step: PublishStep)
    requires Physical(s) && LossInv(s) && PublishEnabled(s.store, t, step)
    ensures LossInv(s.(store := AfterPublish(s.store, t, step)))
  {
    var n := s.(store := AfterPublish(s.store, t, step));
    if step.TxCommit? {
      CommitAboveOffsets(s, t);
      forall w | w in n.workers
        ensures WorkerAccounted(n, n.workers[w])
      {
        CommitAboveWorker(s, t, w);
      }
      CommitKeepsSwept(s, t);
    } else {
      BooksKept(s, n, {});
    }
  }

  lemma CommitKeepsSwept(s: State, t: int)
    requires StoreInv(s.store) && SweptInv(s) && PublishEnabled(s.store, t, TxCommit)
    ensures SweptInv(s.(store := AfterPublish(s.store, t, TxCommit)))
  {
    assert TxInv(s.store, s.store.txs[t]);
  }

  /** Steps that touch neither the rows, the destinations, the checkpoints nor the swept record. */
  ghost predicate SameBooks(s: State, n: State) {
    && n.dest == s.dest && n.swept == s.swept && n.cat.offsets == s.cat.offsets
    && n.store.rows == s.store.rows && n.store.committed == s.store.committed
  }

  lemma BooksKept(s: State, n: State, except: set<int>)
    requires LossInv(s) && SameBooks(s, n)
    requires forall w :: w in n.workers && w !in except ==> w in s.workers && n.workers[w] == s.workers[w]
    ensures OffsetsAccounted(n) && SweptInv(n)
    ensures forall w :: w in n.workers && w !in except ==> WorkerAccounted(n, n.workers[w])
    ensures forall k, i :: Accounted(n, k, i) <==> Accounted(s, k, i)
  {
    assert forall k, i :: Accounted(n, k, i) <==> Accounted(s, k, i);
    forall w | w in n.workers && w !in except
      ensures WorkerAccounted(n, n.workers[w])
    {
      assert WorkerAccounted(s, s.workers[w]);
    }
  }

  lemma LossAfterSession(h: Hash, s: State, w: int, step: SessionStep)
    requires Physical(s) && LossInv(s) && SessionEnabled(h, s, w, step)
    ensures LossInv(AfterSession(h, s, w, step))
  {
    var n := AfterSession(h, s, w, step);
    BooksKept(s, n, {w});
    if w in s.workers {
      assert WorkerAccounted(s, s.workers[w]);
    }
  }

  /** After the SELECT every committed row up to the end of the batch is in the batch, or it had been
      swept, and then either settled or swept without regard to this checkpoint. */
  lemma SelectAccounts(s: State, w: int, limit: nat)
    requires Physical(s) && LossInv(s) && PollEnabled(s, w, PollSelect(limit))
    ensures WorkerAccounted(s, AfterPoll(s, w, PollSelect(limit)).workers[w])
  {
    hide SelectAfter;
    var k := s.workers[w].key;
    var last := s.workers[w].last;
    var ids := SelectAfter(s.store.rows, k.outbox, last, limit);
    assert WorkerAccounted(s, s.workers[w]);
    forall i | s.workers[w].replay.None? && i in s.store.committed && s.store.committed[i].outbox == k.outbox
               && i <= LastOr(ids, last)
      ensures i in ids || Accounted(s, k, i)
    {
      if last < i {
        assert ids[|ids| - 1] in ids;
        if i in s.store.rows {
          assert i in ids;
        } else {
          assert i in s.swept;
        }
      }
    }
  }

  lemma PollerAccounted(s: State, w: int, step: PollStep)
    requires PollEnabled(s, w, step) && !step.PollSelect?
    requires WorkerAccounted(s, s.workers[w]) && FlightInv(s.store, s.workers[w])
    ensures WorkerAccounted(s, AfterPoll(s, w, step).workers[w])
  {
    BatchEnd(s.store, s.workers[w]);
  }

  lemma LossAfterPoll(s: State, w: int, step: PollStep)
    requires Physical(s) && LossInv(s) && PollEnabled(s, w, step)
    ensures LossInv(AfterPoll(s, w, step))
  {
    var n := AfterPoll(s, w, step);
    BooksKept(s, n, {w});
    if step.PollSelect? {
      SelectAccounts(s, w, step.limit);
    } else {
      PollerAccounted(s, w, step);
    }
    assert WorkerAccounted(s, n.workers[w]);
  }

  /** What was accounted for stays so over a delivery step. */
  lemma DeliverRemembers(s: State, w: int, step: DeliverStep)
    requires DestInv(s.dest) && DeliverEnabled(s, w, step)
    ensures var n := AfterDeliver(s, w, step);
            && n.swept == s.swept && n.store == s.store
            && (forall k, i :: Settled(s.dest, k, i) ==> Settled(n.dest, k, i))
            && (forall k, i :: Accounted(s, k, i) ==> Accounted(n, k, i))
  {
    var n := AfterDeliver(s, w, step);
    DestAfterDeliver(s, w, step);
    forall k, i
      ensures Settled(s.dest, k, i) ==> Settled(n.dest, k, i)
    {
      RememberSettled(s.dest, n.dest, k, i);
    }
  }

  /** The delivering worker: a batch is settled before it is called disposed, and only a disposed
      batch moves the cursor. */
  lemma DelivererAccounted(s: State, w: int, step: DeliverStep)
    requires DestInv(s.dest) && DeliverEnabled(s, w, step)
    requires WorkerAccounted(s, s.workers[w]) && FlightInv(s.store, s.workers[w])
    ensures WorkerAccounted(AfterDeliver(s, w, step), AfterDeliver(s, w, step).workers[w])
  {
    hide Accept, InsertIgnore, DlqBatch, UpsertOffset, Elems;
    DeliverRemembers(s, w, step);
    DestAfterDeliver(s, w, step);
    BatchEnd(s.store, s.workers[w]);
  }

  lemma CheckpointAccounted(s: State, w: int, step: DeliverStep)
    requires DestInv(s.dest) && OffsetsAccounted(s) && DeliverEnabled(s, w, step)
    requires WorkerAccounted(s, s.workers[w]) && FlightInv(s.store, s.workers[w])
    ensures OffsetsAccounted(AfterDeliver(s, w, step))
  {
    DeliverRemembers(s, w, step);
    BatchEnd(s.store, s.workers[w]);
  }

  lemma LossAfterDeliver(s: State, w: int, step: DeliverStep)
    requires Physical(s) && DestInv(s.dest) && LossInv(s) && DeliverEnabled(s, w, step)
    ensures LossInv(AfterDeliver(s, w, step))
  {
    hide Accept, InsertIgnore, DlqBatch, UpsertOffset, Elems, Settled;
    var n := AfterDeliver(s, w, step);
    DeliverRemembers(s, w, step);
    DelivererAccounted(s, w, step);
    CheckpointAccounted(s, w, step);
    forall v | v in n.workers && v != w
      ensures WorkerAccounted(n, n.workers[v])
    {
      assert WorkerAccounted(s, s.workers[v]);
    }
  }

  /** What was accounted for stays so when the deletion commits: a deleted row was not swept before. */
  lemma SweptKeepsAccounts(s: State, v: int, k: Key, i: int)
    requires StoreInv(s.store) && SweptInv(s) && CleanupEnabled(s, v, SweepCommit) && SweepInv(s, s.sweeps[v])
    requires Accounted(s, k, i)
    ensures Accounted(AfterCleanup(s, v, SweepCommit), k, i)
  {
    if !Settled(s.dest, k, i) {
      assert i !in s.sweeps[v].doomed;
    }
  }

  /** A deleted row was at or below every checkpoint its sweep had read, hence settled for each. */
  lemma DoomedSettled(s: State, v: int, k: Key, i: int)
    requires StoreInv(s.store) && OffsetsAccounted(s) && SweptInv(s) && v in s.sweeps && SweepInv(s, s.sweeps[v])
    requires i in s.sweeps[v].doomed && k in s.sweeps[v].covered
    ensures k.outbox == s.store.committed[i].outbox && Settled(s.dest, k, i)
  {
    assert i in s.store.committed && i <= s.cat.offsets[k];
    assert Accounted(s, k, i);
  }

  /** Every committed row is still either stored or swept. */
  lemma StoredOrSwept(s: State, v: int)
    requires StoreInv(s.store) && SweptInv(s) && CleanupEnabled(s, v, SweepCommit) && SweepInv(s, s.sweeps[v])
    ensures var n := AfterCleanup(s, v, SweepCommit);
            && (forall i :: i in n.store.committed <==> i in n.store.rows || i in n.swept)
            && (forall i :: i in n.swept ==> i !in n.store.rows)
  {
    hide Settled, LeaseBlocked;
    var n := AfterCleanup(s, v, SweepCommit);
    assert n.store.rows.Keys == s.store.rows.Keys - s.sweeps[v].doomed;
    assert n.swept.Keys == s.swept.Keys + s.sweeps[v].doomed;
  }

  lemma SweptAfterCommit(s: State, v: int)
    requires StoreInv(s.store) && OffsetsAccounted(s) && SweptInv(s)
    requires CleanupEnabled(s, v, SweepCommit) && SweepInv(s, s.sweeps[v])
    ensures SweptInv(AfterCleanup(s, v, SweepCommit))
  {
    hide Settled, LeaseBlocked;
    var n := AfterCleanup(s, v, SweepCommit);
    StoredOrSwept(s, v);
    forall i, k | i in n.swept && k in n.swept[i]
      ensures k.outbox == n.store.committed[i].outbox && Settled(n.dest, k, i)
    {
      if i in s.sweeps[v].doomed {
        DoomedSettled(s, v, k, i);
      }
    }
  }

  lemma LossAfterCommit(s: State, v: int)
    requires Physical(s) && SweepsInv(s) && LossInv(s) && CleanupEnabled(s, v, SweepCommit)
    ensures LossInv(AfterCleanup(s, v, SweepCommit))
  {
    hide Accounted;
    var n := AfterCleanup(s, v, SweepCommit);
    SweptAfterCommit(s, v);
    forall k, i | Accounted(s, k, i)
      ensures Accounted(n, k, i)
    {
      SweptKeepsAccounts(s, v, k, i);
    }
    forall u | u in n.workers
      ensures WorkerAccounted(n, n.workers[u])
    {
      assert WorkerAccounted(s, s.workers[u]);
    }
  }

  lemma LossAfterCleanup(s: State, v: int, step: CleanupStep)
    requires Physical(s) && SweepsInv(s) && LossInv(s) && CleanupEnabled(s, v, step)
    ensures LossInv(AfterCleanup(s, v, step))
  {
    if step.SweepCommit? {
      LossAfterCommit(s, v);
    } else {
      BooksKept(s, AfterCleanup(s, v, step), {});
    }
  }

  lemma LossAfterAdmin(s: State, step: AdminStep)
    requires LossInv(s) && AdminEnabled(s, step)
    ensures LossInv(AfterAdmin(s, step))
  {
    BooksKept(s, AfterAdmin(s, step), {});
  }
}
