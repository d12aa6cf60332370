/** Every worker's cursor, batch and poll fence, over a step of each kind. */
module ProtocolPositions {
  import opened Ids
  import opened Upsert
  import opened ReplayRange
  import opened Outbox
  import opened Retention
  import opened Protocol
  import opened ProtocolInvariants
  import opened ProtocolStore

  /** All workers whose record a step does not touch keep their position when the store grows. */
  lemma OthersKeepPosition(s: State, n: State, except: set<int>)
    requires forall w :: w in s.workers ==> FlightInv(s.store, s.workers[w])
    requires Grows(s.store, n.store)
    requires forall w :: w in n.workers && w !in except ==> w in s.workers && n.workers[w] == s.workers[w]
    ensures forall w :: w in n.workers && w !in except ==> FlightInv(n.store, n.workers[w])
  {
    forall w | w in n.workers && w !in except
      ensures FlightInv(n.store, n.workers[w])
    {
      FlightGrows(s.store, n.store, s.workers[w]);
    }
  }

  lemma PhysicalAfterPublish(s: State, t: int, step: PublishStep)
    requires Physical(s) && PublishEnabled(s.store, t, step)
    ensures Physical(s.(store := AfterPublish(s.store, t, step)))
  {
    var n := s.(store := AfterPublish(s.store, t, step));
    PublishKeepsStore(s.store, t, step);
    OthersKeepPosition(s, n, {});
    OffsetsGrow(s.store, n.store, s.cat.offsets);
  }

  lemma SessionKeepsPolls(h: Hash, s: State, w: int, step: SessionStep)
    requires PollInv(s) && SessionEnabled(h, s, w, step)
    ensures PollInv(AfterSession(h, s, w, step))
  {
  }

  lemma PhysicalAfterSession(h: Hash, s: State, w: int, step: SessionStep)
    requires Physical(s) && SessionEnabled(h, s, w, step)
    ensures Physical(AfterSession(h, s, w, step))
  {
    var n := AfterSession(h, s, w, step);
    SessionKeepsStore(h, s, w, step);
    SessionKeepsPolls(h, s, w, step);
    OthersKeepPosition(s, n, {w});
    OffsetsGrow(s.store, n.store, s.cat.offsets);
    if w in n.workers && w in s.workers {
      FlightGrows(s.store, n.store, s.workers[w]);
    }
  }

  lemma PollKeepsPolls(s: State, w: int, step: PollStep)
    requires PollInv(s) && PollEnabled(s, w, step)
    ensures PollInv(AfterPoll(s, w, step))
  {
    hide SelectAfter, Messages, LastOr;
  }

  /** What a poll hands on is part of what it read, in order. */
  lemma HandedOn(w: Worker, ids: seq<int>)
    requires Ascending(ids)
    ensures Ascending(Messages(w, ids)) && forall i :: i in Messages(w, ids) ==> i in ids
  {
    if w.replay.Some? {
      FilterSpec(ids, w.replay.value);
    }
  }

  lemma DonePosition(s: State, w: int)
    requires StoreInv(s.store) && PollEnabled(s, w, PollDone) && FlightInv(s.store, s.workers[w])
    ensures FlightInv(s.store, AfterPoll(s, w, PollDone).workers[w])
  {
    hide InRange, StoreInv;
    var ids := s.workers[w].phase.read;
    HandedOn(s.workers[w], ids);
    if Messages(s.workers[w], ids) != [] {
      assert Messages(s.workers[w], ids)[0] in Messages(s.workers[w], ids);
      assert ids != [];
      assert ids[|ids| - 1] in IdsOf(s.workers[w].phase);
    }
  }

  lemma SelectPosition(s: State, w: int, limit: nat)
    requires StoreInv(s.store) && PollInv(s) && PollEnabled(s, w, PollSelect(limit)) && FlightInv(s.store, s.workers[w])
    ensures FlightInv(AfterPoll(s, w, PollSelect(limit)).store, AfterPoll(s, w, PollSelect(limit)).workers[w])
  {
    hide SelectAfter, PollInv;
    SelectedIds(s, w, limit);
    var k := s.workers[w].key;
    assert forall i :: i in SelectAfter(s.store.rows, k.outbox, s.workers[w].last, limit) ==> i in s.store.committed;
  }

  lemma PollerPosition(s: State, w: int, step: PollStep)
    requires StoreInv(s.store) && PollInv(s) && PollEnabled(s, w, step) && FlightInv(s.store, s.workers[w])
    requires Grows(s.store, AfterPoll(s, w, step).store)
    ensures FlightInv(AfterPoll(s, w, step).store, AfterPoll(s, w, step).workers[w])
  {
    hide InRange, PollInv, StoreInv, SelectAfter;
    var n := AfterPoll(s, w, step);
    FlightGrows(s.store, n.store, s.workers[w]);
    match step
    case PollSelect(limit) => SelectPosition(s, w, limit);
    case PollDone =>
      DonePosition(s, w);
      FlightGrows(s.store, n.store, n.workers[w]);
    case _ =>
  }

  lemma PhysicalAfterPoll(s: State, w: int, step: PollStep)
    requires Physical(s) && PollEnabled(s, w, step)
    ensures Physical(AfterPoll(s, w, step))
  {
    var n := AfterPoll(s, w, step);
    PollKeepsStore(s, w, step);
    PollKeepsPolls(s, w, step);
    PollerPosition(s, w, step);
    OthersKeepPosition(s, n, {w});
    OffsetsGrow(s.store, n.store, s.cat.offsets);
  }

  /** The last id of a batch is its largest. */
  lemma BatchEnd(st: Store, w: Worker)
    requires FlightInv(st, w)
    ensures var ids := IdsOf(w.phase);
            && (w.replay.None? || ids != [] ==> w.last <= LastOr(ids, w.last) <= PolledUpTo(st, w.key.outbox))
            && (ids != [] ==> LastOr(ids, 0) == LastOr(ids, w.last) > w.last)
            && forall i :: i in ids ==> i <= LastOr(ids, w.last)
  {
    var ids := IdsOf(w.phase);
    if ids != [] {
      assert ids[|ids| - 1] in ids;
    }
  }

  lemma DeliverKeepsPolls(s: State, w: int, step: DeliverStep)
    requires PollInv(s) && DeliverEnabled(s, w, step)
    ensures PollInv(AfterDeliver(s, w, step)) && AfterDeliver(s, w, step).store == s.store
  {
    hide Accept, UpsertOffset, InsertIgnore, DlqBatch, Elems, LastOr;
  }

  lemma DelivererPosition(s: State, w: int, step: DeliverStep)
    requires DeliverEnabled(s, w, step) && FlightInv(s.store, s.workers[w])
    requires OffsetsInv(s.store, s.cat.offsets)
    ensures FlightInv(s.store, AfterDeliver(s, w, step).workers[w])
    ensures OffsetsInv(s.store, AfterDeliver(s, w, step).cat.offsets)
  {
    hide Accept, InsertIgnore, DlqBatch, Elems;
    BatchEnd(s.store, s.workers[w]);
  }

  lemma PhysicalAfterDeliver(s: State, w: int, step: DeliverStep)
    requires Physical(s) && DeliverEnabled(s, w, step)
    ensures Physical(AfterDeliver(s, w, step))
  {
    DeliverKeepsPolls(s, w, step);
    DelivererPosition(s, w, step);
    OthersKeepPosition(s, AfterDeliver(s, w, step), {w});
  }

  lemma PhysicalAfterCleanup(s: State, v: int, step: CleanupStep)
    requires Physical(s) && CleanupEnabled(s, v, step)
    ensures Physical(AfterCleanup(s, v, step))
  {
    var n := AfterCleanup(s, v, step);
    CleanupKeepsStore(s, v, step);
    OthersKeepPosition(s, n, {});
    OffsetsGrow(s.store, n.store, s.cat.offsets);
  }

  lemma PhysicalAfterAdmin(s: State, step: AdminStep)
    requires Physical(s) && AdminEnabled(s, step)
    ensures Physical(AfterAdmin(s, step))
  {
  }
}
