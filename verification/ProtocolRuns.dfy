/** The invariant over whole runs, and how runs grow and compose. */
module ProtocolRuns {
  import opened ReplayRange
  import opened Outbox
  import opened Retention
  import opened Protocol
  import opened ProtocolInvariants
  import opened ProtocolStore
  import opened ProtocolPositions
  import opened ProtocolOwnership
  import opened ProtocolDest
  import opened ProtocolSweeps
  import opened ProtocolLoss

  // ── Reachable states ───────────────────────────────────────────────────

  lemma InvInit(h: Hash, clock: int)
    ensures Inv(h, Init(clock))
  {
  }

  lemma InvAfterPublish(h: Hash, s: State, t: int, step: PublishStep)
    requires Inv(h, s) && PublishEnabled(s.store, t, step)
    ensures Inv(h, s.(store := AfterPublish(s.store, t, step)))
  {
    PhysicalAfterPublish(s, t, step);
    SweepsAfterPublish(s, t, step);
    LossAfterPublish(s, t, step);
    OwnKept(h, s, s.(store := AfterPublish(s.store, t, step)));
  }

  lemma InvAfterSession(h: Hash, s: State, w: int, step: SessionStep)
    requires Inv(h, s) && SessionEnabled(h, s, w, step)
    ensures Inv(h, AfterSession(h, s, w, step))
  {
    PhysicalAfterSession(h, s, w, step);
    OwnAfterSession(h, s, w, step);
    SweepsAfterSession(h, s, w, step);
    LossAfterSession(h, s, w, step);
  }

  lemma InvAfterPoll(h: Hash, s: State, w: int, step: PollStep)
    requires Inv(h, s) && PollEnabled(s, w, step)
    ensures Inv(h, AfterPoll(s, w, step))
  {
    PhysicalAfterPoll(s, w, step);
    PollKeepsOwnership(s, w, step);
    OwnKept(h, s, AfterPoll(s, w, step));
    SweepsAfterPoll(s, w, step);
    LossAfterPoll(s, w, step);
  }

  lemma InvAfterDeliver(h: Hash, s: State, w: int, step: DeliverStep)
    requires Inv(h, s) && DeliverEnabled(s, w, step)
    ensures Inv(h, AfterDeliver(s, w, step))
  {
    PhysicalAfterDeliver(s, w, step);
    DestAfterDeliver(s, w, step);
    DeliverKeepsOwnership(s, w, step);
    OwnKept(h, s, AfterDeliver(s, w, step));
    SweepsAfterDeliver(s, w, step);
    LossAfterDeliver(s, w, step);
  }

  lemma InvAfterCleanup(h: Hash, s: State, v: int, step: CleanupStep)
    requires Inv(h, s) && CleanupEnabled(s, v, step)
    ensures Inv(h, AfterCleanup(s, v, step))
  {
    hide Physical, DestInv, LossInv, SweepsInv, OwnInv;
    PhysicalAfterCleanup(s, v, step);
    OwnKept(h, s, AfterCleanup(s, v, step));
    SweepsAfterCleanup(s, v, step);
    LossAfterCleanup(s, v, step);
  }

  lemma InvAfterAdmin(h: Hash, s: State, step: AdminStep)
    requires Inv(h, s) && AdminEnabled(s, step)
    ensures Inv(h, AfterAdmin(s, step))
  {
    hide Physical, DestInv, LossInv, SweepsInv, OwnInv;
    PhysicalAfterAdmin(s, step);
    OwnKept(h, s, AfterAdmin(s, step));
    SweepsAfterAdmin(s, step);
    LossAfterAdmin(s, step);
  }

  /** Every step of every participant keeps the whole invariant. */
  lemma InvKept(h: Hash, s: State, step: Step)
    requires Inv(h, s) && Enabled(h, s, step)
    ensures Inv(h, Next(h, s, step))
  {
    hide Inv, AfterPublish, AfterSession, AfterPoll, AfterDeliver, AfterCleanup, AfterAdmin;
    match step
    case Publish(t, p) => InvAfterPublish(h, s, t, p);
    case Session(w, p) => InvAfterSession(h, s, w, p);
    case Poll(w, p) => InvAfterPoll(h, s, w, p);
    case Deliver(w, p) => InvAfterDeliver(h, s, w, p);
    case Cleanup(v, p) => InvAfterCleanup(h, s, v, p);
    case Admin(p) => InvAfterAdmin(h, s, p);
  }

  lemma {:induction false} RunKeepsInv(h: Hash, clock: int, states: seq<State>, steps: seq<Step>, i: nat)
    requires IsRun(h, clock, states, steps) && i <= |steps|
    ensures Inv(h, states[i])
    decreases i
  {
    hide Inv, Next, Enabled;
    if i == 0 {
      InvInit(h, clock);
    } else {
      RunKeepsInv(h, clock, states, steps, i - 1);
      InvKept(h, states[i - 1], steps[i - 1]);
    }
  }

  lemma ReachableInv(h: Hash, s: State)
    requires Reachable(h, s)
    ensures Inv(h, s)
  {
    hide Inv, Next, Enabled;
    var clock :| Leads(h, Init(clock), s);
    var states, steps :| IsPath(h, Init(clock), states, steps) && states[|steps|] == s;
    RunKeepsInv(h, clock, states, steps, |steps|);
  }

  // Paths grow one step at a time, and compose.

  lemma LeadsNowhere(h: Hash, s: State)
    ensures Leads(h, s, s)
  {
    assert IsPath(h, s, [s], []);
  }

  lemma LeadsOn(h: Hash, from: State, s: State, step: Step)
    requires Leads(h, from, s) && Enabled(h, s, step)
    ensures Leads(h, from, Next(h, s, step))
  {
    hide Next, Enabled;
    var states, steps :| IsPath(h, from, states, steps) && states[|steps|] == s;
    assert IsPath(h, from, states + [Next(h, s, step)], steps + [step]);
  }

  lemma {:induction false} PathExtends(h: Hash, from: State, s: State, states: seq<State>, steps: seq<Step>, i: nat)
    requires Leads(h, from, s) && IsPath(h, s, states, steps) && i <= |steps|
    ensures Leads(h, from, states[i])
    decreases i
  {
    if i > 0 {
      PathExtends(h, from, s, states, steps, i - 1);
      LeadsOn(h, from, states[i - 1], steps[i - 1]);
    }
  }

  lemma LeadsFurther(h: Hash, from: State, s: State, to: State)
    requires Leads(h, from, s) && Leads(h, s, to)
    ensures Leads(h, from, to)
  {
    var states, steps :| IsPath(h, s, states, steps) && states[|steps|] == to;
    PathExtends(h, from, s, states, steps, |steps|);
  }

  lemma ReachableOn(h: Hash, s: State, to: State)
    requires Reachable(h, s) && Leads(h, s, to)
    ensures Reachable(h, to)
  {
    var clock :| Leads(h, Init(clock), s);
    LeadsFurther(h, Init(clock), s, to);
  }

  /** An idle worker whose outbox is not fenced takes its fence, reads up to `limit` rows above its cursor,
      and hands on what it owes. */
  lemma PollRows(h: Hash, s: State, w: int, limit: nat) returns (n: State)
    requires w in s.workers && w in s.live && s.workers[w].phase.Idle? && FenceFree(s.store, s.workers[w].key.outbox)
    ensures Leads(h, s, n)
    ensures n.cat == s.cat && n.dest == s.dest && n.sweeps == s.sweeps && n.swept == s.swept && n.clock == s.clock
    ensures n.live == s.live && n.locks == s.locks
    ensures n.store.rows == s.store.rows && n.store.committed == s.store.committed && n.store.txs == s.store.txs
    ensures forall o :: PolledUpTo(s.store, o) <= PolledUpTo(n.store, o)
    ensures FenceFree(n.store, s.workers[w].key.outbox)
    ensures n.workers == s.workers[w := PolledWorker(s.workers[w], s.store.rows, limit)]
  {
    hide SelectAfter, InRange, LastOr;
    var o := s.workers[w].key.outbox;
    var a := Next(h, s, Poll(w, PollFence));
    var b := Next(h, a, Poll(w, PollSelect(limit)));
    n := Next(h, b, Poll(w, PollDone));
    LeadsNowhere(h, s);
    LeadsOn(h, s, s, Poll(w, PollFence));
    LeadsOn(h, s, a, Poll(w, PollSelect(limit)));
    LeadsOn(h, s, b, Poll(w, PollDone));
    assert !Shared(s.store, o);
    assert !Shared(n.store, o);
    assert n.workers == s.workers[w := PolledWorker(s.workers[w], s.store.rows, limit)];
  }

  function PolledWorker(w: Worker, rows: Rows, limit: nat): Worker {
    var ids := SelectAfter(rows, w.key.outbox, w.last, limit);
    var batch := Messages(w, ids);
    w.(top := LastOr(ids, w.last), phase := if batch == [] then Idle else Polled(batch))
  }

  lemma StoreMonotone(h: Hash, s: State, step: Step)
    requires StoreInv(s.store) && PollInv(s) && Enabled(h, s, step)
    ensures Grows(s.store, Next(h, s, step).store)
  {
    hide AfterPublish, AfterSession, AfterPoll, AfterCleanup;
    match step
    case Publish(t, p) => PublishKeepsStore(s.store, t, p);
    case Session(w, p) => SessionKeepsStore(h, s, w, p);
    case Poll(w, p) => PollKeepsStore(s, w, p);
    case Cleanup(v, p) => CleanupKeepsStore(s, v, p);
    case Deliver(w, p) => DeliverKeepsPolls(s, w, p);
    case Admin(_) =>
  }

  // What each kind of step leaves alone.

  lemma SessionFrame(h: Hash, s: State, w: int, step: SessionStep)
    requires SessionEnabled(h, s, w, step)
    ensures var n := AfterSession(h, s, w, step);
            && n.cat == s.cat && n.dest == s.dest && n.sweeps == s.sweeps && n.swept == s.swept && n.clock == s.clock
            && n.store == s.store.(fence := n.store.fence)
  {
  }

  lemma PollFrame(s: State, w: int, step: PollStep)
    requires PollEnabled(s, w, step)
    ensures var n := AfterPoll(s, w, step);
            && n.cat == s.cat && n.dest == s.dest && n.sweeps == s.sweeps && n.swept == s.swept && n.clock == s.clock
            && n.store == s.store.(fence := n.store.fence, polled := n.store.polled)
  {
    hide SelectAfter, Messages, LastOr;
  }

  lemma DeliverFrame(s: State, w: int, step: DeliverStep)
    requires DeliverEnabled(s, w, step)
    ensures var n := AfterDeliver(s, w, step);
            && n.sweeps == s.sweeps && n.swept == s.swept && n.store == s.store && n.clock == s.clock
            && n.cat == s.cat.(offsets := n.cat.offsets)
  {
  }

  lemma CleanupFrame(s: State, v: int, step: CleanupStep)
    requires CleanupEnabled(s, v, step)
    ensures var n := AfterCleanup(s, v, step);
            && n.cat == s.cat && n.dest == s.dest && n.clock == s.clock
            && n.workers == s.workers && n.live == s.live && n.locks == s.locks
            && n.store == s.store.(fence := n.store.fence, rows := n.store.rows)
  {
    hide SafeOffset, LeaseBlocked, CoveredKeys, CoveredConsumers;
  }

  lemma AdminFrame(s: State, step: AdminStep)
    requires AdminEnabled(s, step)
    ensures var n := AfterAdmin(s, step);
            && n.cat.offsets == s.cat.offsets && n.dest == s.dest && n.swept == s.swept && s.clock <= n.clock
            && n.store == s.store && n.workers == s.workers && n.live == s.live && n.locks == s.locks
  {
  }
}
