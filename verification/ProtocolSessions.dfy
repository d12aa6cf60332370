/** Workers and sessions, read off the steps of the run: who has been started as what, whose session is up, and who
    holds which lock. */
module ProtocolSessions {
  import opened Common
  import opened ReplayRange
  import opened Outbox
  import opened Retention
  import opened Protocol
  import opened ProtocolInvariants
  import opened ProtocolOwnership
  import opened ProtocolRuns

  /** What a worker was started as. */
  datatype Life = Life(key: Key, lock: int, tenant: string, sink: Sink, dryRun: bool, replay: Option<Range>)

  function Started(steps: seq<Step>, w: int, i: nat): Option<Life>
    requires i <= |steps|
  {
    if i == 0 then None else StartAfter(steps[i - 1], w, Started(steps, w, i - 1))
  }

  function StartAfter(step: Step, w: int, before: Option<Life>): Option<Life> {
    if !step.Session? || step.worker != w then before
    else
      match step.session
      case Acquire(k, lock, tenant, sink, dryRun) => Some(Life(k, lock, tenant, sink, dryRun, None))
      case StartReplay(k, sink, dryRun, range) => Some(Life(k, 0, "", sink, dryRun, Some(range)))
      case Exit => None
      case _ => before
  }

  /** The worker's session has been up since its last start. */
  function Up(steps: seq<Step>, w: int, i: nat): bool
    requires i <= |steps|
  {
    i > 0 && UpAfter(steps[i - 1], w, Up(steps, w, i - 1))
  }

  function UpAfter(step: Step, w: int, before: bool): bool {
    if !step.Session? || step.worker != w then before
    else
      match step.session
      case Acquire(_, _, _, _, _) => true
      case StartReplay(_, _, _, _) => true
      case LoseSession => false
      case Exit => false
      case _ => before
  }

  function LifeOf(w: Worker): Life { Life(w.key, w.lock, w.tenant, w.sink, w.dryRun, w.replay) }

  ghost predicate LivesAs(s: State, w: int, life: Option<Life>, up: bool) {
    && (w in s.workers <==> life.Some?)
    && (w in s.workers ==> LifeOf(s.workers[w]) == life.value)
    && (w in s.live <==> up)
  }

  lemma LivesAfterSession(h: Hash, s: State, v: int, step: SessionStep, w: int, life: Option<Life>, up: bool)
    requires SessionEnabled(h, s, v, step) && LivesAs(s, w, life, up)
    ensures LivesAs(AfterSession(h, s, v, step), w, StartAfter(Session(v, step), w, life), UpAfter(Session(v, step), w, up))
  {
  }

  /** Polls and deliveries leave every worker what it was started as. */
  lemma SameLives(s: State, n: State, w: int, life: Option<Life>, up: bool)
    requires LivesAs(s, w, life, up) && SameOwnership(s, n)
    requires forall v :: v in s.workers ==> n.workers[v].dryRun == s.workers[v].dryRun
    ensures LivesAs(n, w, life, up)
  {
    assert w in n.workers.Keys <==> w in s.workers.Keys;
  }

  lemma PollKeepsMode(s: State, w: int, step: PollStep)
    requires PollEnabled(s, w, step)
    ensures var n := AfterPoll(s, w, step);
            n.workers.Keys == s.workers.Keys && forall v :: v in s.workers ==> n.workers[v].dryRun == s.workers[v].dryRun
  {
    hide SelectAfter, Messages, LastOr;
  }

  lemma DeliverKeepsMode(s: State, w: int, step: DeliverStep)
    requires DeliverEnabled(s, w, step)
    ensures var n := AfterDeliver(s, w, step);
            n.workers.Keys == s.workers.Keys && forall v :: v in s.workers ==> n.workers[v].dryRun == s.workers[v].dryRun
  {
    hide Accept, UpsertOffset, DlqBatch, LastOr;
  }

  lemma OthersKeepWorkers(h: Hash, s: State, step: Step)
    requires Enabled(h, s, step) && (step.Publish? || step.Cleanup? || step.Admin?)
    ensures var n := Next(h, s, step); n.workers == s.workers && n.live == s.live && n.locks == s.locks
  {
    hide AfterCleanup, AfterAdmin, AfterPublish;
    match step
    case Cleanup(v, p) => CleanupFrame(s, v, p);
    case Admin(p) => AdminFrame(s, p);
    case _ =>
  }

  lemma LivesAfter(h: Hash, s: State, step: Step, w: int, life: Option<Life>, up: bool)
    requires Enabled(h, s, step) && LivesAs(s, w, life, up)
    ensures LivesAs(Next(h, s, step), w, StartAfter(step, w, life), UpAfter(step, w, up))
  {
    hide LivesAs, SameOwnership, AfterSession, AfterPoll, AfterDeliver;
    match step
    case Session(v, p) => LivesAfterSession(h, s, v, p, w, life, up);
    case Poll(v, p) =>
      PollKeepsOwnership(s, v, p);
      PollKeepsMode(s, v, p);
      SameLives(s, AfterPoll(s, v, p), w, life, up);
    case Deliver(v, p) =>
      DeliverKeepsOwnership(s, v, p);
      DeliverKeepsMode(s, v, p);
      SameLives(s, AfterDeliver(s, v, p), w, life, up);
    case _ =>
      OthersKeepWorkers(h, s, step);
      SameWorkers(s, Next(h, s, step), w, life, up);
  }

  lemma SameWorkers(s: State, n: State, w: int, life: Option<Life>, up: bool)
    requires LivesAs(s, w, life, up) && n.workers == s.workers && n.live == s.live
    ensures LivesAs(n, w, life, up)
  {
  }

  /** A worker is there from its start to its exit, as what it was started as, and its session is up from its start
      until it is lost or the worker exits. */
  lemma {:induction false} WorkersExactly(h: Hash, clock: int, states: seq<State>, steps: seq<Step>, i: nat, w: int)
    requires IsRun(h, clock, states, steps) && i <= |steps|
    ensures LivesAs(states[i], w, Started(steps, w, i), Up(steps, w, i))
    decreases i
  {
    hide Next, Enabled, StartAfter, UpAfter;
    if i > 0 {
      WorkersExactly(h, clock, states, steps, i - 1, w);
      LivesAfter(h, states[i - 1], steps[i - 1], w, Started(steps, w, i - 1), Up(steps, w, i - 1));
    }
  }

  // ── Locks ──────────────────────────────────────────────────────────────

  /** Every held lock is the holder's own. */
  ghost predicate LocksOwn(s: State) {
    forall l :: l in s.locks ==> s.locks[l] in s.workers && s.workers[s.locks[l]].lock == l
  }

  lemma LocksAfterSession(h: Hash, s: State, w: int, step: SessionStep)
    requires LocksOwn(s) && OwnInv(h, s) && SessionEnabled(h, s, w, step)
    ensures LocksOwn(AfterSession(h, s, w, step))
  {
  }

  lemma LocksSame(s: State, n: State)
    requires LocksOwn(s) && SameOwnership(s, n)
    ensures LocksOwn(n)
  {
    forall l | l in n.locks
      ensures n.locks[l] in n.workers && n.workers[n.locks[l]].lock == l
    {
      var v := s.locks[l];
      assert v in s.workers.Keys && n.workers[v].lock == s.workers[v].lock;
    }
  }

  lemma LocksAfter(h: Hash, s: State, step: Step)
    requires LocksOwn(s) && OwnInv(h, s) && Enabled(h, s, step)
    ensures LocksOwn(Next(h, s, step))
  {
    hide LocksOwn, SameOwnership, OwnInv, AfterSession, AfterPoll, AfterDeliver;
    match step
    case Session(v, p) => LocksAfterSession(h, s, v, p);
    case Poll(v, p) =>
      PollKeepsOwnership(s, v, p);
      LocksSame(s, AfterPoll(s, v, p));
    case Deliver(v, p) =>
      DeliverKeepsOwnership(s, v, p);
      LocksSame(s, AfterDeliver(s, v, p));
    case _ =>
      OthersKeepWorkers(h, s, step);
      LocksUnmoved(s, Next(h, s, step));
  }

  lemma LocksUnmoved(s: State, n: State)
    requires LocksOwn(s) && n.workers == s.workers && n.locks == s.locks
    ensures LocksOwn(n)
  {
  }

  lemma {:induction false} LocksStayOwn(h: Hash, clock: int, states: seq<State>, steps: seq<Step>, i: nat)
    requires IsRun(h, clock, states, steps) && i <= |steps|
    ensures LocksOwn(states[i])
    decreases i
  {
    hide Next, Enabled, LocksOwn, Physical, DestInv, OwnInv, SweepsInv, LossInv;
    if i > 0 {
      LocksStayOwn(h, clock, states, steps, i - 1);
      RunKeepsInv(h, clock, states, steps, i - 1);
      LocksAfter(h, states[i - 1], steps[i - 1]);
    } else {
      NoLocks(clock);
    }
  }

  lemma NoLocks(clock: int)
    ensures LocksOwn(Init(clock))
  {
  }

  /** A lock is held by a worker exactly if the worker was started with it, as an owner, and its session has been up
      since. */
  lemma LocksExactly(h: Hash, clock: int, states: seq<State>, steps: seq<Step>, i: nat, l: int, w: int)
    requires IsRun(h, clock, states, steps) && i <= |steps|
    ensures l in states[i].locks && states[i].locks[l] == w
       <==> Up(steps, w, i) && Started(steps, w, i).Some?
            && Started(steps, w, i).value.replay.None? && Started(steps, w, i).value.lock == l
  {
    hide Next, Enabled, Physical, DestInv, SweepsInv, LossInv;
    WorkersExactly(h, clock, states, steps, i, w);
    LocksStayOwn(h, clock, states, steps, i);
    RunKeepsInv(h, clock, states, steps, i);
  }
}
