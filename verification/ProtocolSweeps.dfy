/** What a sweep read stays a valid bound until it commits. */
module ProtocolSweeps {
  import opened Retention
  import opened Protocol
  import opened ProtocolInvariants

  /** A sweep's bounds survive as long as offsets only grow, its rows stay, and no lease of its outbox
      is granted behind its back. */
  lemma SweepSurvives(s: State, n: State, sw: Sweep)
    requires SweepInv(s, sw)
    requires s.clock <= n.clock
    requires forall k :: k in s.cat.offsets ==> k in n.cat.offsets && s.cat.offsets[k] <= n.cat.offsets[k]
    requires forall gc :: gc in sw.coveredConsumers ==>
               gc in n.cat.groupOffsets && s.cat.groupOffsets[gc] <= n.cat.groupOffsets[gc]
    requires forall i :: i in sw.doomed ==> i in n.store.rows && n.store.rows[i] == s.store.rows[i]
    requires (sw.stage == Resolved || sw.stage == Deleted) && !sw.blocked ==>
               !LeaseBlocked(s.cat, sw.outbox, sw.started) ==> !LeaseBlocked(n.cat, sw.outbox, sw.started)
    ensures SweepInv(n, sw)
  {
  }

  lemma SweepsAfterPublish(s: State, t: int, step: PublishStep)
    requires SweepsInv(s) && StoreInv(s.store) && PublishEnabled(s.store, t, step)
    ensures SweepsInv(s.(store := AfterPublish(s.store, t, step)))
  {
    var n := s.(store := AfterPublish(s.store, t, step));
    forall v | v in s.sweeps
      ensures SweepInv(n, s.sweeps[v])
    {
      if step.TxCommit? {
        assert TxInv(s.store, s.store.txs[t]);
      }
      SweepSurvives(s, n, s.sweeps[v]);
    }
  }

  lemma SweepsAfterSession(h: Hash, s: State, w: int, step: SessionStep)
    requires SweepsInv(s) && SessionEnabled(h, s, w, step)
    ensures SweepsInv(AfterSession(h, s, w, step))
  {
    var n := AfterSession(h, s, w, step);
    forall v | v in s.sweeps
      ensures SweepInv(n, s.sweeps[v])
    {
      SweepSurvives(s, n, s.sweeps[v]);
    }
  }

  lemma SweepsAfterPoll(s: State, w: int, step: PollStep)
    requires SweepsInv(s) && PollEnabled(s, w, step)
    ensures SweepsInv(AfterPoll(s, w, step))
  {
    var n := AfterPoll(s, w, step);
    forall v | v in s.sweeps
      ensures SweepInv(n, s.sweeps[v])
    {
      SweepSurvives(s, n, s.sweeps[v]);
    }
  }

  lemma SweepsAfterDeliver(s: State, w: int, step: DeliverStep)
    requires SweepsInv(s) && DeliverEnabled(s, w, step)
    ensures SweepsInv(AfterDeliver(s, w, step))
  {
    var n := AfterDeliver(s, w, step);
    forall v | v in s.sweeps
      ensures SweepInv(n, s.sweeps[v])
    {
      SweepSurvives(s, n, s.sweeps[v]);
    }
  }

  /** What reading the participants establishes. */
  lemma ResolvedSweep(s: State, sw: Sweep)
    requires SweepInv(s, sw) && sw.stage == Fenced
    ensures SweepInv(s, sw.(stage := Resolved,
                            safe := SafeOffset(s.cat, sw.outbox),
                            blocked := LeaseBlocked(s.cat, sw.outbox, sw.started),
                            covered := CoveredKeys(s.cat, sw.outbox),
                            coveredConsumers := CoveredConsumers(s.cat, sw.outbox)))
  {
    forall k | k in CoveredKeys(s.cat, sw.outbox)
      ensures SafeOffset(s.cat, sw.outbox).Some? && SafeOffset(s.cat, sw.outbox).value <= s.cat.offsets[k]
    {
      SafeBelowKey(s.cat, sw.outbox, k);
    }
    forall gc | gc in CoveredConsumers(s.cat, sw.outbox)
      ensures SafeOffset(s.cat, sw.outbox).Some? && SafeOffset(s.cat, sw.outbox).value <= s.cat.groupOffsets[gc]
    {
      SafeBelowConsumer(s.cat, sw.outbox, gc);
    }
  }

  lemma CleanupFences(s: State, v: int, step: CleanupStep)
    requires SweepFences(s.store.fence, s.sweeps) && CleanupEnabled(s, v, step)
    ensures SweepFences(AfterCleanup(s, v, step).store.fence, AfterCleanup(s, v, step).sweeps)
  {
  }

  lemma CleanupDoomsOnce(s: State, v: int, step: CleanupStep)
    requires DoomedOnce(s.sweeps) && CleanupEnabled(s, v, step)
    ensures DoomedOnce(AfterCleanup(s, v, step).sweeps)
  {
  }

  lemma OwnSweepAfterCleanup(s: State, v: int, step: CleanupStep)
    requires CleanupEnabled(s, v, step) && (v in s.sweeps ==> SweepInv(s, s.sweeps[v]))
    ensures var n := AfterCleanup(s, v, step); v in n.sweeps ==> SweepInv(n, n.sweeps[v])
  {
    if step.SweepResolve? {
      ResolvedSweep(s, s.sweeps[v]);
    }
  }

  lemma SweepsAfterCleanup(s: State, v: int, step: CleanupStep)
    requires SweepsInv(s) && CleanupEnabled(s, v, step)
    ensures SweepsInv(AfterCleanup(s, v, step))
  {
    var n := AfterCleanup(s, v, step);
    forall u | u in s.sweeps && u != v
      ensures SweepInv(n, s.sweeps[u])
    {
      SweepSurvives(s, n, s.sweeps[u]);
    }
    OwnSweepAfterCleanup(s, v, step);
    CleanupFences(s, v, step);
    CleanupDoomsOnce(s, v, step);
  }

  lemma SweepsAfterAdmin(s: State, step: AdminStep)
    requires SweepsInv(s) && AdminEnabled(s, step)
    ensures SweepsInv(AfterAdmin(s, step))
  {
    var n := AfterAdmin(s, step);
    forall v | v in s.sweeps
      ensures SweepInv(n, n.sweeps[v])
    {
      match step
      case GrantLease(g, _, _) => GrantSparesSweeps(s, step, v);
      case DropGroup(g) => DropSparesSweeps(s, g, v);
      case _ => SweepSurvives(s, n, s.sweeps[v]);
    }
  }

  lemma GrantSparesSweeps(s: State, step: AdminStep, v: int)
    requires SweepsInv(s) && step.GrantLease? && AdminEnabled(s, step) && v in s.sweeps
    ensures SweepInv(AfterAdmin(s, step), s.sweeps[v])
  {
    var n := AfterAdmin(s, step);
    var sw := s.sweeps[v];
    if sw.stage != Unlocked {
      assert sw.outbox in s.store.fence;
      assert sw.outbox != s.cat.groups[step.group];
    }
    SweepSurvives(s, n, sw);
  }

  lemma DropSparesSweeps(s: State, g: string, v: int)
    requires SweepsInv(s) && v in s.sweeps
    ensures SweepInv(WithoutGroup(s, g), WithoutGroup(s, g).sweeps[v])
  {
    var sw := s.sweeps[v].(coveredConsumers := set gc | gc in s.sweeps[v].coveredConsumers && gc.0 != g);
    assert SweepInv(s, sw);
    SweepSurvives(s, WithoutGroup(s, g), sw);
  }
}
