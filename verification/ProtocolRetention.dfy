/** What cleanup goes by, read off the steps of the run: the offsets consumers have committed, the pipelines and
    groups that are registered, the time a sweep started, and the retention it was given. */
module ProtocolRetention {
  import opened Common
  import opened Retention
  import opened Protocol
  import opened ProtocolInvariants
  import opened ProtocolRuns

  // ── The catalog ────────────────────────────────────────────────────────

  /** The offset a consumer last committed, unless its group has been dropped since. */
  function LastCommit(steps: seq<Step>, gc: (string, string), i: nat): Option<int>
    requires i <= |steps|
  {
    if i == 0 then None else CommitAfter(steps[i - 1], gc, LastCommit(steps, gc, i - 1))
  }

  function CommitAfter(step: Step, gc: (string, string), before: Option<int>): Option<int> {
    match step
    case Admin(CommitGroup(g, c, offset)) => if (g, c) == gc then Some(offset) else before
    case Admin(DropGroup(g)) => if g == gc.0 then None else before
    case _ => before
  }

  /** The outbox a group was created for, unless it has been dropped since. */
  function LastGroup(steps: seq<Step>, g: string, i: nat): Option<string>
    requires i <= |steps|
  {
    if i == 0 then None else GroupAfter(steps[i - 1], g, LastGroup(steps, g, i - 1))
  }

  function GroupAfter(step: Step, g: string, before: Option<string>): Option<string> {
    match step
    case Admin(CreateGroup(g', o)) => if g' == g then Some(o) else before
    case Admin(DropGroup(g')) => if g' == g then None else before
    case _ => before
  }

  /** The pipeline as it was last registered, unless it has been deleted since. */
  function LastPipeline(steps: seq<Step>, name: string, i: nat): Option<Pipeline>
    requires i <= |steps|
  {
    if i == 0 then None else PipelineAfter(steps[i - 1], name, LastPipeline(steps, name, i - 1))
  }

  function PipelineAfter(step: Step, name: string, before: Option<Pipeline>): Option<Pipeline> {
    match step
    case Admin(SetPipeline(name', p)) => if name' == name then Some(p) else before
    case Admin(DeletePipeline(name')) => if name' == name then None else before
    case _ => before
  }

  function Lookup<K, V>(m: map<K, V>, k: K): Option<V> { if k in m then Some(m[k]) else None }

  lemma CatalogAfterAdmin(s: State, step: AdminStep, gc: (string, string), g: string, name: string)
    requires AdminEnabled(s, step)
    ensures var c := AfterAdmin(s, step).cat;
            && Lookup(c.groupOffsets, gc) == CommitAfter(Admin(step), gc, Lookup(s.cat.groupOffsets, gc))
            && Lookup(c.groups, g) == GroupAfter(Admin(step), g, Lookup(s.cat.groups, g))
            && Lookup(c.pipelines, name) == PipelineAfter(Admin(step), name, Lookup(s.cat.pipelines, name))
  {
  }

  lemma OnlyAdmin(h: Hash, s: State, step: Step)
    requires Enabled(h, s, step) && !step.Admin?
    ensures Next(h, s, step).cat == s.cat.(offsets := Next(h, s, step).cat.offsets)
    ensures Next(h, s, step).clock == s.clock
  {
    hide AfterPublish, AfterSession, AfterPoll, AfterDeliver, AfterCleanup, AfterAdmin;
    match step
    case Publish(t, p) =>
    case Session(w, p) => SessionFrame(h, s, w, p);
    case Poll(w, p) => PollFrame(s, w, p);
    case Deliver(w, p) => DeliverFrame(s, w, p);
    case Cleanup(v, p) => CleanupFrame(s, v, p);
  }

  /** The catalog is what the administrative steps say: each consumer's recorded offset is the one it last
      committed, each group belongs to the outbox it was created for, and each pipeline is as last registered;
      what was dropped or deleted is gone. */
  lemma {:induction false} CatalogExactly(h: Hash, clock: int, states: seq<State>, steps: seq<Step>, i: nat,
                                          gc: (string, string), g: string, name: string)
    requires IsRun(h, clock, states, steps) && i <= |steps|
    ensures Lookup(states[i].cat.groupOffsets, gc) == LastCommit(steps, gc, i)
    ensures Lookup(states[i].cat.groups, g) == LastGroup(steps, g, i)
    ensures Lookup(states[i].cat.pipelines, name) == LastPipeline(steps, name, i)
    decreases i
  {
    hide Next, Enabled, AfterAdmin;
    if i > 0 {
      CatalogExactly(h, clock, states, steps, i - 1, gc, g, name);
      CatalogStep(h, states[i - 1], steps[i - 1], gc, g, name);
    }
  }

  lemma CatalogStep(h: Hash, s: State, step: Step, gc: (string, string), g: string, name: string)
    requires Enabled(h, s, step)
    ensures var c := Next(h, s, step).cat;
            && Lookup(c.groupOffsets, gc) == CommitAfter(step, gc, Lookup(s.cat.groupOffsets, gc))
            && Lookup(c.groups, g) == GroupAfter(step, g, Lookup(s.cat.groups, g))
            && Lookup(c.pipelines, name) == PipelineAfter(step, name, Lookup(s.cat.pipelines, name))
  {
    hide AfterPublish, AfterSession, AfterPoll, AfterDeliver, AfterCleanup, AfterAdmin;
    if step.Admin? {
      CatalogAfterAdmin(s, step.admin, gc, g, name);
    } else {
      OnlyAdmin(h, s, step);
    }
  }

  /** A commit is enabled only for a known group, with an offset that is not negative and not a step back. */
  lemma CommitsForward(h: Hash, s: State, step: Step, gc: (string, string))
    requires Enabled(h, s, step) && Lookup(s.cat.groupOffsets, gc).Some?
    requires step != Admin(DropGroup(gc.0))
    ensures var after := Lookup(Next(h, s, step).cat.groupOffsets, gc);
            after.Some? && s.cat.groupOffsets[gc] <= after.value
  {
    CatalogStep(h, s, step, gc, "", "");
  }

  /** Until its group is dropped, a consumer's recorded offset never falls. */
  lemma {:induction false} ConsumerNeverFalls(h: Hash, clock: int, states: seq<State>, steps: seq<Step>, j: nat, i: nat,
                                              gc: (string, string))
    requires IsRun(h, clock, states, steps) && j <= i <= |steps| && gc in states[j].cat.groupOffsets
    requires forall q :: j <= q < i ==> steps[q] != Admin(DropGroup(gc.0))
    ensures gc in states[i].cat.groupOffsets && states[j].cat.groupOffsets[gc] <= states[i].cat.groupOffsets[gc]
    decreases i
  {
    hide Next, Enabled;
    if j < i {
      ConsumerNeverFalls(h, clock, states, steps, j, i - 1, gc);
      CommitsForward(h, states[i - 1], steps[i - 1], gc);
    }
  }

  ghost predicate ConsumersKnown(c: Catalog) {
    forall gc :: gc in c.groupOffsets ==> gc.0 in c.groups && c.groupOffsets[gc] >= 0
  }

  lemma ConsumersStayKnown(h: Hash, s: State, step: Step)
    requires ConsumersKnown(s.cat) && Enabled(h, s, step)
    ensures ConsumersKnown(Next(h, s, step).cat)
  {
    hide AfterPublish, AfterSession, AfterPoll, AfterDeliver, AfterCleanup, AfterAdmin, ConsumersKnown;
    if step.Admin? {
      AdminKeepsKnown(s, step.admin);
    } else {
      OnlyAdmin(h, s, step);
      KnownSame(s.cat, Next(h, s, step).cat);
    }
  }

  lemma KnownSame(c: Catalog, c': Catalog)
    requires ConsumersKnown(c) && c' == c.(offsets := c'.offsets)
    ensures ConsumersKnown(c')
  {
  }

  lemma AdminKeepsKnown(s: State, step: AdminStep)
    requires ConsumersKnown(s.cat) && AdminEnabled(s, step)
    ensures ConsumersKnown(AfterAdmin(s, step).cat)
  {
    if step.CommitGroup? {
      CommitKeepsKnown(s.cat, step.group, step.consumer, step.offset);
    }
  }

  lemma CommitKeepsKnown(c: Catalog, g: string, consumer: string, offset: int)
    requires ConsumersKnown(c) && CommitGroupOffset(c, g, consumer, offset).Some?
    ensures ConsumersKnown(CommitGroupOffset(c, g, consumer, offset).value)
  {
  }

  /** Every recorded consumer belongs to an existing group, at an offset that is not negative. */
  lemma {:induction false} ConsumersAreKnown(h: Hash, clock: int, states: seq<State>, steps: seq<Step>, i: nat)
    requires IsRun(h, clock, states, steps) && i <= |steps|
    ensures ConsumersKnown(states[i].cat)
    decreases i
  {
    hide Next, Enabled;
    if i > 0 {
      ConsumersAreKnown(h, clock, states, steps, i - 1);
      ConsumersStayKnown(h, states[i - 1], steps[i - 1]);
    }
  }

  // ── Time ───────────────────────────────────────────────────────────────

  /** The time that has passed. */
  function Waited(steps: seq<Step>, i: nat): nat
    requires i <= |steps|
  {
    if i == 0 then 0
    else Waited(steps, i - 1) + match steps[i - 1] { case Admin(Wait(time)) => time case _ => 0 }
  }

  lemma ClockAfter(h: Hash, s: State, step: Step)
    requires Enabled(h, s, step)
    ensures Next(h, s, step).clock == s.clock + match step { case Admin(Wait(time)) => time case _ => 0 }
  {
    hide AfterPublish, AfterSession, AfterPoll, AfterDeliver, AfterCleanup;
    if !step.Admin? {
      OnlyAdmin(h, s, step);
    }
  }

  lemma {:induction false} ClockExactly(h: Hash, clock: int, states: seq<State>, steps: seq<Step>, i: nat)
    requires IsRun(h, clock, states, steps) && i <= |steps|
    ensures states[i].clock == clock + Waited(steps, i)
    decreases i
  {
    hide Next, Enabled;
    if i > 0 {
      ClockExactly(h, clock, states, steps, i - 1);
      ClockAfter(h, states[i - 1], steps[i - 1]);
    }
  }

  // ── Sweeps ─────────────────────────────────────────────────────────────

  /** How a sweep was started: its outbox, its time and the retention it was given. */
  datatype Opening = Opening(outbox: string, started: int, retention: int)

  function Opened(steps: seq<Step>, v: int, i: nat): Option<Opening>
    requires i <= |steps|
  {
    if i == 0 then None else OpenAfter(steps[i - 1], v, Opened(steps, v, i - 1))
  }

  function OpenAfter(step: Step, v: int, before: Option<Opening>): Option<Opening> {
    if !step.Cleanup? || step.sweep != v then before
    else
      match step.cleanup
      case SweepFence(o, started, retention) => Some(Opening(o, started, retention))
      case SweepCommit => None
      case SweepAbort => None
      case _ => before
  }

  /** The rows a sweep has chosen and not yet deleted for good. */
  function Chosen(steps: seq<Step>, v: int, i: nat): set<int>
    requires i <= |steps|
  {
    if i == 0 then {} else ChosenAfter(steps[i - 1], v, Chosen(steps, v, i - 1))
  }

  function ChosenAfter(step: Step, v: int, before: set<int>): set<int> {
    if !step.Cleanup? || step.sweep != v then before
    else
      match step.cleanup
      case SweepFence(_, _, _) => {}
      case SweepDelete(doomed) => doomed
      case SweepCommit => {}
      case SweepAbort => {}
      case _ => before
  }

  /** The sweep is as it was started, and has chosen these rows. */
  ghost predicate RunsAs(s: State, v: int, opening: Option<Opening>, chosen: set<int>) {
    && (v in s.sweeps <==> opening.Some?)
    && (opening.Some? ==>
          && s.sweeps[v].outbox == opening.value.outbox && s.sweeps[v].started == opening.value.started
          && s.sweeps[v].cutoff == opening.value.started - opening.value.retention
          && s.sweeps[v].doomed == chosen)
    && (opening.None? ==> chosen == {})
  }

  lemma RunsAfterCleanup(s: State, u: int, step: CleanupStep, v: int, opening: Option<Opening>, chosen: set<int>)
    requires CleanupEnabled(s, u, step) && RunsAs(s, v, opening, chosen)
    ensures RunsAs(AfterCleanup(s, u, step), v, OpenAfter(Cleanup(u, step), v, opening),
                   ChosenAfter(Cleanup(u, step), v, chosen))
  {
    hide SafeOffset, LeaseBlocked, CoveredKeys, CoveredConsumers, Released, Eligible;
  }

  lemma RunsAfterAdmin(s: State, step: AdminStep, v: int, opening: Option<Opening>, chosen: set<int>)
    requires AdminEnabled(s, step) && RunsAs(s, v, opening, chosen)
    ensures RunsAs(AfterAdmin(s, step), v, opening, chosen)
  {
    hide CommitGroupOffset;
  }

  lemma RunsAfter(h: Hash, s: State, step: Step, v: int, opening: Option<Opening>, chosen: set<int>)
    requires Enabled(h, s, step) && RunsAs(s, v, opening, chosen)
    ensures RunsAs(Next(h, s, step), v, OpenAfter(step, v, opening), ChosenAfter(step, v, chosen))
  {
    hide AfterPublish, AfterSession, AfterPoll, AfterDeliver, AfterCleanup, AfterAdmin;
    match step
    case Publish(t, p) =>
    case Session(w, p) => SessionFrame(h, s, w, p);
    case Poll(w, p) => PollFrame(s, w, p);
    case Deliver(w, p) => DeliverFrame(s, w, p);
    case Cleanup(u, p) => RunsAfterCleanup(s, u, p, v, opening, chosen);
    case Admin(p) => RunsAfterAdmin(s, p, v, opening, chosen);
  }

  lemma {:induction false} SweepsExactly(h: Hash, clock: int, states: seq<State>, steps: seq<Step>, i: nat, v: int)
    requires IsRun(h, clock, states, steps) && i <= |steps|
    ensures RunsAs(states[i], v, Opened(steps, v, i), Chosen(steps, v, i))
    decreases i
  {
    hide Next, Enabled, OpenAfter, ChosenAfter;
    if i > 0 {
      SweepsExactly(h, clock, states, steps, i - 1, v);
      RunsAfter(h, states[i - 1], steps[i - 1], v, Opened(steps, v, i - 1), Chosen(steps, v, i - 1));
    }
  }

  /** From the DELETE to the COMMIT, every row a sweep has chosen is a stored row of the sweep's outbox, and older
      than the retention the sweep was given when it started, which was not in the future; and every consumer
      the sweep had read, unless it has been dropped since, has itself committed an offset at or above it. */
  lemma RetentionAge(h: Hash, clock: int, states: seq<State>, steps: seq<Step>, i: nat, v: int, id: int)
    requires IsRun(h, clock, states, steps) && i <= |steps| && v in states[i].sweeps && id in states[i].sweeps[v].doomed
    ensures Opened(steps, v, i).Some? && id in Chosen(steps, v, i) && id in states[i].store.rows
    ensures var row, o := states[i].store.rows[id], Opened(steps, v, i).value;
            row.outbox == o.outbox && row.created + o.retention < o.started <= states[i].clock
    ensures forall gc :: gc in states[i].sweeps[v].coveredConsumers ==>
              var c := LastCommit(steps, gc, i); c.Some? && id <= c.value
  {
    hide Next, Enabled, Physical, DestInv, OwnInv, LossInv;
    RunKeepsInv(h, clock, states, steps, i);
    SweepsExactly(h, clock, states, steps, i, v);
    assert SweepInv(states[i], states[i].sweeps[v]);
    forall gc | gc in states[i].sweeps[v].coveredConsumers
      ensures var c := LastCommit(steps, gc, i); c.Some? && id <= c.value
    {
      CatalogExactly(h, clock, states, steps, i, gc, "", "");
    }
  }

  /** The candidates of an unblocked sweep are exactly the stored rows of its outbox that are that old, at or below
      the safe offset, and not already chosen by another sweep. */
  lemma CandidatesExactly(h: Hash, clock: int, states: seq<State>, steps: seq<Step>, i: nat, v: int, id: int)
    requires IsRun(h, clock, states, steps) && i <= |steps|
    requires SweepIn(states[i], v, Resolved) && !states[i].sweeps[v].blocked
    ensures Opened(steps, v, i).Some?
    ensures CleanupEnabled(states[i], v, SweepDelete({id}))
       <==> Candidate(states[i], Opened(steps, v, i).value, states[i].sweeps[v].safe, id)
  {
    hide Next, Enabled;
    SweepsExactly(h, clock, states, steps, i, v);
  }

  /** A row a sweep with this opening and this safe offset may choose. */
  ghost predicate Candidate(s: State, o: Opening, safe: Option<int>, id: int) {
    && id in s.store.rows && s.store.rows[id].outbox == o.outbox
    && s.store.rows[id].created + o.retention < o.started
    && (safe.None? || id <= safe.value)
    && forall u :: u in s.sweeps ==> id !in s.sweeps[u].doomed
  }

  /** The step commits a sweep that has chosen this row. */
  predicate Removes(s: State, step: Step, id: int) {
    step.Cleanup? && step.cleanup.SweepCommit? && step.sweep in s.sweeps && id in s.sweeps[step.sweep].doomed
  }

  predicate Gone(st: Store, id: int) { id in st.committed && id !in st.rows }

  lemma GoneAfterPublish(st: Store, t: int, step: PublishStep, id: int)
    requires StoreInv(st) && PublishEnabled(st, t, step)
    ensures Gone(AfterPublish(st, t, step), id) <==> Gone(st, id)
  {
    if t in st.txs {
      assert TxInv(st, st.txs[t]);
    }
  }

  lemma GoneAfterCleanup(s: State, v: int, step: CleanupStep, id: int)
    requires StoreInv(s.store) && CleanupEnabled(s, v, step) && (v in s.sweeps ==> SweepInv(s, s.sweeps[v]))
    ensures Gone(AfterCleanup(s, v, step).store, id) <==> Gone(s.store, id) || Removes(s, Cleanup(v, step), id)
  {
    hide SafeOffset, LeaseBlocked, CoveredKeys, CoveredConsumers;
  }

  lemma GoneStep(h: Hash, s: State, step: Step, id: int)
    requires StoreInv(s.store) && SweepsInv(s) && Enabled(h, s, step)
    ensures Gone(Next(h, s, step).store, id) <==> Gone(s.store, id) || Removes(s, step, id)
  {
    hide StoreInv, SweepInv, AfterPublish, AfterSession, AfterPoll, AfterDeliver, AfterCleanup, AfterAdmin;
    match step
    case Publish(t, p) => GoneAfterPublish(s.store, t, p, id);
    case Session(w, p) => SessionFrame(h, s, w, p);
    case Poll(w, p) => PollFrame(s, w, p);
    case Deliver(w, p) => DeliverFrame(s, w, p);
    case Cleanup(v, p) => GoneAfterCleanup(s, v, p, id);
    case Admin(p) => AdminFrame(s, p);
  }

  lemma {:induction false} GoneExactly(h: Hash, clock: int, states: seq<State>, steps: seq<Step>, i: nat, id: int)
    requires IsRun(h, clock, states, steps) && i <= |steps|
    ensures Gone(states[i].store, id) <==> exists m: nat :: m < i && Removes(states[m], steps[m], id)
    decreases i
  {
    hide Gone, Removes, Next, Enabled, PollInv, FlightInv, DestInv, OwnInv, LossInv, SweepInv, StoreInv;
    if i > 0 {
      GoneExactly(h, clock, states, steps, i - 1, id);
      RunKeepsInv(h, clock, states, steps, i - 1);
      GoneStep(h, states[i - 1], steps[i - 1], id);
    } else {
      NothingGone(clock, id);
    }
  }

  lemma NothingGone(clock: int, id: int)
    ensures !Gone(Init(clock).store, id)
  {
  }

  /** A committed row is gone exactly if a sweep chose it and then committed: nothing else ever deletes a row, and
      an aborted sweep deletes none. */
  lemma DeletedExactly(h: Hash, clock: int, states: seq<State>, steps: seq<Step>, i: nat, id: int)
    requires IsRun(h, clock, states, steps) && i <= |steps|
    ensures id in states[i].store.committed && id !in states[i].store.rows
       <==> exists m: nat, v :: m < i && steps[m] == Cleanup(v, SweepCommit) && id in Chosen(steps, v, m)
  {
    hide Next;
    GoneExactly(h, clock, states, steps, i, id);
    if m: nat :| m < i && Removes(states[m], steps[m], id) {
      SweepsExactly(h, clock, states, steps, m, steps[m].sweep);
      assert steps[m] == Cleanup(steps[m].sweep, SweepCommit);
    }
    if m: nat, v :| m < i && steps[m] == Cleanup(v, SweepCommit) && id in Chosen(steps, v, m) {
      SweepsExactly(h, clock, states, steps, m, v);
      assert Removes(states[m], steps[m], id);
    }
  }
}
