/** Advisory locks: who may write on behalf of a pipeline. */
module ProtocolOwnership {
  import opened Ids
  import opened Upsert
  import opened Outbox
  import opened Retention
  import opened Protocol
  import opened ProtocolInvariants

  lemma OwnAfterSession(h: Hash, s: State, w: int, step: SessionStep)
    requires OwnInv(h, s) && SessionEnabled(h, s, w, step)
    ensures OwnInv(h, AfterSession(h, s, w, step))
  {
  }

  /** Poll and delivery steps only move their own worker's phase and cursor. */
  ghost predicate SameOwnership(s: State, n: State) {
    && n.live == s.live && n.locks == s.locks && n.workers.Keys == s.workers.Keys
    && forall w :: w in s.workers ==>
         n.workers[w].key == s.workers[w].key && n.workers[w].lock == s.workers[w].lock
         && n.workers[w].tenant == s.workers[w].tenant && n.workers[w].sink == s.workers[w].sink
         && n.workers[w].replay == s.workers[w].replay
  }

  lemma PollKeepsOwnership(s: State, w: int, step: PollStep)
    requires PollEnabled(s, w, step)
    ensures SameOwnership(s, AfterPoll(s, w, step))
  {
    hide SelectAfter, Messages, LastOr;
  }

  lemma DeliverKeepsOwnership(s: State, w: int, step: DeliverStep)
    requires DeliverEnabled(s, w, step)
    ensures SameOwnership(s, AfterDeliver(s, w, step))
  {
    hide Accept, UpsertOffset, InsertIgnore, DlqBatch, Elems, LastOr;
  }

  lemma OwnKept(h: Hash, s: State, n: State)
    requires OwnInv(h, s) && SameOwnership(s, n)
    ensures OwnInv(h, n)
  {
    forall l | l in s.locks
      ensures s.locks[l] in n.workers && n.workers[s.locks[l]].replay.None?
    {
      var w := s.locks[l];
      assert w in s.live && w in s.workers.Keys;
    }
  }
}
