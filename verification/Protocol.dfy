/** The delivery and retention protocol as one step system. PostgreSQL tables and locks are the
    state, and every SQL statement, sink reply, crash or lost connection is one step, so that any
    number of publishers, relays, consumers and sweeps interleave freely. */
module Protocol {
  import opened Common
  import opened Ids
  import opened Upsert
  import opened DedupKey
  import opened ReplayRange
  import opened Outbox
  import opened Retention

  // ── State ──────────────────────────────────────────────────────────────

  /** A publisher's open transaction: the fences it shares and the rows it has inserted. */
  datatype Tx = Tx(fences: set<string>, pending: Rows)

  datatype Holder = Poller(worker: int) | Sweeper(sweep: int)

  /** `fence` maps an outbox to the holder of its exclusive lock. `committed` and `polled` record the
      past: every row ever committed, and the highest id any poll of an outbox has returned. */
  datatype Store = Store(
    rows: Rows,
    nextId: int,
    txs: map<int, Tx>,
    fence: map<string, Holder>,
    committed: Rows,
    polled: map<string, int>)

  datatype Sink = External | Inbox(name: string)

  datatype Msg = Msg(outbox: string, id: int)

  datatype Delivery = Delivery(key: Key, id: int, sink: Sink)

  /** Where messages end up. Inboxes and the dead-letter queue are tables with a unique key. */
  datatype Dest = Dest(
    accepted: set<Delivery>,
    dryRun: set<(Key, int)>,
    dlq: seq<((string, string), Msg)>,
    inboxes: map<string, seq<(string, Msg)>>)

  datatype Phase =
    | Starting
    | Idle
    | PollFenced
    | PollRead(read: seq<int>)
    | Polled(batch: seq<int>)
    | Encoded(batch: seq<int>)
    | PublishStarted(batch: seq<int>)
    | PublishFailed(batch: seq<int>, transient: bool)
    | SinkAcknowledged(batch: seq<int>)
    | DlqPersisted(batch: seq<int>)
    | DryRunObserved(batch: seq<int>)
    | Committed(batch: seq<int>)

  /** A pipeline worker and the PostgreSQL session it owns for its whole life. A bounded replay is a worker
      too: it holds no lock, starts its private cursor just before its range, hands on only rows in range, and
      writes no checkpoint. `top` is the last id of its last nonempty poll. */
  datatype Worker = Worker(
    key: Key, lock: int, tenant: string, sink: Sink, dryRun: bool, replay: Option<Range>,
    last: int, top: int, phase: Phase)

  datatype Stage = Fenced | Resolved | Deleted | Unlocked

  /** `covered` and `coveredConsumers` record which offsets the sweep read; `doomed` are the rows its
      transaction has deleted but not yet committed. */
  datatype Sweep = Sweep(
    outbox: string, started: int, cutoff: int, stage: Stage,
    safe: Option<int>, blocked: bool, covered: set<Key>, coveredConsumers: set<(string, string)>,
    doomed: set<int>)

  /** `live` are the workers whose session is up, `locks` their advisory locks, and `swept` records for
      every deleted row the checkpoints the deleting sweep had read. */
  datatype State = State(
    store: Store, dest: Dest, cat: Catalog,
    workers: map<int, Worker>, live: set<int>, locks: map<int, int>,
    sweeps: map<int, Sweep>, swept: map<int, set<Key>>, clock: int)

  function Init(clock: int): State {
    State(Store(map[], 1, map[], map[], map[], map[]), Dest({}, {}, [], map[]), EMPTY_CATALOG,
          map[], {}, map[], map[], map[], clock)
  }

  /** `hashtext` of the two lock keys; nothing is assumed about it. */
  type Hash = (string, string) -> int

  function LockScope(k: Key, tenant: string): string { tenant + ":forward:" + k.pipeline }

  // ── Reading the state ──────────────────────────────────────────────────

  function PolledUpTo(st: Store, outbox: string): int {
    if outbox in st.polled then st.polled[outbox] else 0
  }

  predicate Shared(st: Store, outbox: string) {
    exists t :: t in st.txs && outbox in st.txs[t].fences
  }

  predicate FenceFree(st: Store, outbox: string) {
    outbox !in st.fence && !Shared(st, outbox)
  }

  predicate HasBatch(p: Phase) {
    !p.Starting? && !p.Idle? && !p.PollFenced? && !p.PollRead?
  }

  function LastOr(ids: seq<int>, default: int): int {
    if ids == [] then default else ids[|ids| - 1]
  }

  /** The ids a worker has read and not yet disposed of, from the SELECT onwards. */
  function IdsOf(p: Phase): seq<int> {
    if p.PollRead? then p.read else if HasBatch(p) then p.batch else []
  }

  /** What a poll hands on: everything, or for a replay the rows in range. */
  function Messages(w: Worker, ids: seq<int>): seq<int> {
    if w.replay.Some? then InRange(ids, w.replay.value) else ids
  }

  /** The batch has reached a durable terminal disposition. */
  predicate Disposed(p: Phase) {
    p.SinkAcknowledged? || p.DlqPersisted? || p.DryRunObserved? || p.Committed?
  }

  /** The message identity that travels with outbox row `id`. */
  function EventKey(outbox: string, id: int): string {
    PrintKey(Identity("outbox_" + outbox, id, 0))
  }

  function InboxBatch(outbox: string, ids: seq<int>): seq<(string, Msg)> {
    seq(|ids|, i requires 0 <= i < |ids| => (EventKey(outbox, ids[i]), Msg(outbox, ids[i])))
  }

  function DlqBatch(k: Key, ids: seq<int>): seq<((string, string), Msg)> {
    seq(|ids|, i requires 0 <= i < |ids| => ((k.pipeline, EventKey(k.outbox, ids[i])), Msg(k.outbox, ids[i])))
  }

  function InboxTable(d: Dest, name: string): seq<(string, Msg)> {
    if name in d.inboxes then d.inboxes[name] else []
  }

  // ── Steps ──────────────────────────────────────────────────────────────

  /** Statements of a publisher's transaction. */
  datatype PublishStep =
    | TxFence(outbox: string)
    | TxInsert(outbox: string, created: int)
    | TxCommit
    | TxAbort

  /** The life of a worker and its session. */
  datatype SessionStep =
    | Acquire(key: Key, lock: int, tenant: string, sink: Sink, dryRun: bool)
    | StartReplay(key: Key, sink: Sink, dryRun: bool, range: Range)
    | LoadOffset
    | LoseSession
    | Exit

  /** The fenced poll transaction. */
  datatype PollStep =
    | PollFence
    | PollSelect(limit: nat)
    | PollDone
    | PollFailed

  /** What happens to a polled batch. `took` are the messages the sink really accepted, whatever it
      answers; `stored` says whether the DLQ insert committed, whatever the relay is told. */
  datatype DeliverStep =
    | Encode
    | ObserveDryRun
    | StartPublish
    | SinkReply(took: set<int>, ok: bool, transient: bool)
    | Refuse(transient: bool)
    | Retry
    | WriteDlq(stored: bool, ok: bool)
    | WriteCheckpoint
    | AdvanceCursor

  datatype CleanupStep =
    | SweepFence(outbox: string, started: int, retention: int)
    | SweepResolve
    | SweepDelete(doomed: set<int>)
    | SweepUnlock
    | SweepCommit
    | SweepAbort

  /** Catalog changes, consumer groups, and the passing of time. */
  datatype AdminStep =
    | SetPipeline(name: string, pipeline: Pipeline)
    | DeletePipeline(name: string)
    | CreateGroup(group: string, outbox: string)
    | DropGroup(group: string)
    | CommitGroup(group: string, consumer: string, offset: int)
    | GrantLease(group: string, consumer: string, expires: int)
    | Wait(time: nat)

  datatype Step =
    | Publish(tx: int, publish: PublishStep)
    | Session(worker: int, session: SessionStep)
    | Poll(worker: int, poll: PollStep)
    | Deliver(worker: int, deliver: DeliverStep)
    | Cleanup(sweep: int, cleanup: CleanupStep)
    | Admin(admin: AdminStep)

  // ── Publishing ─────────────────────────────────────────────────────────

  predicate PublishEnabled(st: Store, t: int, step: PublishStep) {
    match step
    case TxFence(o) => o !in st.fence
    case TxInsert(o, _) => t in st.txs && o in st.txs[t].fences
    case TxCommit => t in st.txs
    case TxAbort => t in st.txs
  }

  function AfterPublish(st: Store, t: int, step: PublishStep): Store
    requires PublishEnabled(st, t, step)
  {
    var tx := if t in st.txs then st.txs[t] else Tx({}, map[]);
    match step
    case TxFence(o) => st.(txs := st.txs[t := tx.(fences := tx.fences + {o})])
    case TxInsert(o, created) =>
      st.(txs := st.txs[t := tx.(pending := tx.pending[st.nextId := Row(o, created)])], nextId := st.nextId + 1)
    case TxCommit =>
      st.(rows := st.rows + tx.pending, committed := st.committed + tx.pending, txs := st.txs - {t})
    case TxAbort => st.(txs := st.txs - {t})
  }

  // ── Workers ────────────────────────────────────────────────────────────

  function WithPhase(s: State, w: int, p: Phase): State
    requires w in s.workers
  {
    s.(workers := s.workers[w := s.workers[w].(phase := p)])
  }

  /** An exclusive fence is released when its transaction ends or its session dies. */
  function Released(st: Store, holder: Holder): Store {
    st.(fence := map o | o in st.fence && st.fence[o] != holder :: st.fence[o])
  }

  function SessionClosed(s: State, w: int): State {
    s.(store := Released(s.store, Poller(w)),
       live := s.live - {w},
       locks := map l | l in s.locks && s.locks[l] != w :: s.locks[l])
  }

  predicate SessionEnabled(h: Hash, s: State, w: int, step: SessionStep) {
    match step
    case Acquire(k, lock, tenant, _, _) =>
      w !in s.workers && lock !in s.locks && lock == h(k.relayGroup, LockScope(k, tenant))
    case StartReplay(k, _, _, r) =>
      w !in s.workers && k.relayGroup == "replay:" + k.pipeline && 0 <= r.from <= r.to
    case LoadOffset => w in s.workers && w in s.live && s.workers[w].phase.Starting?
    case LoseSession => w in s.live
    case Exit => w in s.workers
  }

  /** The loaded checkpoint, or just before the range of a replay. */
  function FirstCursor(c: Catalog, w: Worker): int {
    if w.replay.Some? then w.replay.value.from - 1
    else if w.key in c.offsets then c.offsets[w.key]
    else 0
  }

  function AfterSession(h: Hash, s: State, w: int, step: SessionStep): State
    requires SessionEnabled(h, s, w, step)
  {
    match step
    case Acquire(k, lock, tenant, sink, dryRun) =>
      s.(workers := s.workers[w := Worker(k, lock, tenant, sink, dryRun, None, 0, 0, Starting)],
         live := s.live + {w}, locks := s.locks[lock := w])
    case StartReplay(k, sink, dryRun, r) =>
      s.(workers := s.workers[w := Worker(k, 0, "", sink, dryRun, Some(r), 0, 0, Starting)], live := s.live + {w})
    case LoadOffset =>
      s.(workers := s.workers[w := s.workers[w].(last := FirstCursor(s.cat, s.workers[w]), phase := Idle)])
    case LoseSession => SessionClosed(s, w)
    case Exit => SessionClosed(s, w).(workers := s.workers - {w})
  }

  predicate PollEnabled(s: State, w: int, step: PollStep) {
    && w in s.workers && w in s.live
    && var p := s.workers[w].phase;
       match step
       case PollFence => p.Idle? && FenceFree(s.store, s.workers[w].key.outbox)
       case PollSelect(_) => p.PollFenced?
       case PollDone => p.PollRead?
       case PollFailed => p.PollFenced? || p.PollRead?
  }

  function AfterPoll(s: State, w: int, step: PollStep): State
    requires PollEnabled(s, w, step)
  {
    var st := s.store;
    var o := s.workers[w].key.outbox;
    match step
    case PollFence => WithPhase(s.(store := st.(fence := st.fence[o := Poller(w)])), w, PollFenced)
    case PollSelect(limit) =>
      var ids := SelectAfter(st.rows, o, s.workers[w].last, limit);
      var top := Max(PolledUpTo(st, o), LastOr(ids, 0));
      WithPhase(s.(store := st.(polled := st.polled[o := top])), w, PollRead(ids))
    case PollDone =>
      var ids := s.workers[w].phase.read;
      var batch := Messages(s.workers[w], ids);
      var n := s.(store := Released(st, Poller(w)));
      n.(workers := s.workers[w := s.workers[w].(
           top := LastOr(ids, s.workers[w].last), phase := if batch == [] then Idle else Polled(batch))])
    case PollFailed => WithPhase(s.(store := Released(st, Poller(w))), w, Idle)
  }

  /** DLQ and checkpoint writes go through the worker's own session; the sink does not, and a replay's
      acknowledgement writes nothing. */
  predicate DeliverEnabled(s: State, w: int, step: DeliverStep) {
    && w in s.workers
    && var p := s.workers[w].phase;
       match step
       case Encode => p.Polled?
       case ObserveDryRun => p.Encoded? && s.workers[w].dryRun
       case StartPublish => p.Encoded? && !s.workers[w].dryRun
       case SinkReply(took, ok, _) =>
         && p.PublishStarted?
         && took <= Elems(p.batch)
         && (ok ==> took == Elems(p.batch))
         && (s.workers[w].sink.Inbox? ==> took == {} || took == Elems(p.batch))
       case Refuse(_) => p.PublishStarted?
       case Retry => p.PublishFailed?
       case WriteDlq(stored, ok) => w in s.live && p.PublishFailed? && (ok ==> stored)
       case WriteCheckpoint =>
         (w in s.live || s.workers[w].replay.Some?) && (p.SinkAcknowledged? || p.DlqPersisted? || p.DryRunObserved?)
       case AdvanceCursor => p.Committed?
  }

  function Accept(d: Dest, k: Key, sink: Sink, batch: seq<int>, took: set<int>): Dest {
    var d' := d.(accepted := d.accepted + set i | i in took :: Delivery(k, i, sink));
    match sink
    case External => d'
    case Inbox(name) =>
      if took == {} then d'
      else d'.(inboxes := d.inboxes[name := InsertIgnore(InboxTable(d, name), InboxBatch(k.outbox, batch))])
  }

  function AfterDeliver(s: State, w: int, step: DeliverStep): State
    requires DeliverEnabled(s, w, step)
  {
    var k := s.workers[w].key;
    var b := IdsOf(s.workers[w].phase);
    match step
    case Encode => WithPhase(s, w, Encoded(b))
    case ObserveDryRun =>
      WithPhase(s.(dest := s.dest.(dryRun := s.dest.dryRun + set i | i in b :: (k, i))), w, DryRunObserved(b))
    case StartPublish => WithPhase(s, w, PublishStarted(b))
    case SinkReply(took, ok, transient) =>
      WithPhase(s.(dest := Accept(s.dest, k, s.workers[w].sink, b, took)), w,
                if ok then SinkAcknowledged(b) else PublishFailed(b, transient))
    case Refuse(transient) => WithPhase(s, w, PublishFailed(b, transient))
    case Retry => WithPhase(s, w, Idle)
    case WriteDlq(stored, ok) =>
      var d := if stored then s.dest.(dlq := InsertIgnore(s.dest.dlq, DlqBatch(k, b))) else s.dest;
      WithPhase(s.(dest := d), w, if ok then DlqPersisted(b) else Idle)
    case WriteCheckpoint =>
      var offsets := if s.workers[w].replay.Some? then s.cat.offsets
                     else UpsertOffset(s.cat.offsets, k, LastOr(b, 0));
      WithPhase(s.(cat := s.cat.(offsets := offsets)), w, Committed(b))
    case AdvanceCursor =>
      var last := s.workers[w].last;
      var top := if s.workers[w].replay.Some? then s.workers[w].top else LastOr(b, last);
      s.(workers := s.workers[w := s.workers[w].(last := Max(last, top), phase := Idle)])
  }

  // ── Sweeps ─────────────────────────────────────────────────────────────

  predicate SweepIn(s: State, v: int, stage: Stage) {
    v in s.sweeps && s.sweeps[v].stage == stage
  }

  predicate CleanupEnabled(s: State, v: int, step: CleanupStep) {
    match step
    case SweepFence(o, started, _) => v !in s.sweeps && FenceFree(s.store, o) && started <= s.clock
    case SweepResolve => SweepIn(s, v, Fenced)
    case SweepDelete(doomed) =>
      && SweepIn(s, v, Resolved) && !s.sweeps[v].blocked
      && doomed <= Eligible(s.store.rows, s.sweeps[v].outbox, s.sweeps[v].cutoff, s.sweeps[v].safe)
      && (forall u :: u in s.sweeps ==> doomed !! s.sweeps[u].doomed)
    case SweepUnlock => v in s.sweeps && s.sweeps[v].stage != Unlocked
    case SweepCommit => SweepIn(s, v, Unlocked)
    case SweepAbort => v in s.sweeps
  }

  /** The session lock is released before the transaction commits, so the rows of an unlocked sweep
      are still visible to polls. */
  function AfterCleanup(s: State, v: int, step: CleanupStep): State
    requires CleanupEnabled(s, v, step)
  {
    var st := s.store;
    match step
    case SweepFence(o, started, retention) =>
      s.(store := st.(fence := st.fence[o := Sweeper(v)]),
         sweeps := s.sweeps[v := Sweep(o, started, started - retention, Fenced, None, false, {}, {}, {})])
    case SweepResolve =>
      var sw := s.sweeps[v];
      s.(sweeps := s.sweeps[v := sw.(stage := Resolved,
                                     safe := SafeOffset(s.cat, sw.outbox),
                                     blocked := LeaseBlocked(s.cat, sw.outbox, sw.started),
                                     covered := CoveredKeys(s.cat, sw.outbox),
                                     coveredConsumers := CoveredConsumers(s.cat, sw.outbox))])
    case SweepDelete(doomed) => s.(sweeps := s.sweeps[v := s.sweeps[v].(stage := Deleted, doomed := doomed)])
    case SweepUnlock =>
      s.(store := Released(st, Sweeper(v)), sweeps := s.sweeps[v := s.sweeps[v].(stage := Unlocked)])
    case SweepCommit =>
      var sw := s.sweeps[v];
      s.(store := st.(rows := st.rows - sw.doomed),
         swept := s.swept + map i | i in sw.doomed :: sw.covered,
         sweeps := s.sweeps - {v})
    case SweepAbort => s.(store := Released(st, Sweeper(v)), sweeps := s.sweeps - {v})
  }

  // ── Administration ─────────────────────────────────────────────────────

  predicate AdminEnabled(s: State, step: AdminStep) {
    match step
    case SetPipeline(_, _) => true
    case DeletePipeline(_) => true
    case CreateGroup(g, _) => g !in s.cat.groups
    case DropGroup(_) => true
    case CommitGroup(g, c, off) => CommitGroupOffset(s.cat, g, c, off).Some?
    case GrantLease(g, _, _) => g in s.cat.groups && FenceFree(s.store, s.cat.groups[g])
    case Wait(_) => true
  }

  /** Dropping a group retires its consumers from the sweeps that counted them. */
  function WithoutGroup(s: State, g: string): State {
    var c := s.cat;
    s.(cat := c.(groups := c.groups - {g},
                 groupOffsets := map gc | gc in c.groupOffsets && gc.0 != g :: c.groupOffsets[gc],
                 leases := map gc | gc in c.leases && gc.0 != g :: c.leases[gc]),
       sweeps := map v | v in s.sweeps ::
                   s.sweeps[v].(coveredConsumers := set gc | gc in s.sweeps[v].coveredConsumers && gc.0 != g))
  }

  function AfterAdmin(s: State, step: AdminStep): State
    requires AdminEnabled(s, step)
  {
    match step
    case SetPipeline(name, p) => s.(cat := s.cat.(pipelines := s.cat.pipelines[name := p]))
    case DeletePipeline(name) => s.(cat := s.cat.(pipelines := s.cat.pipelines - {name}))
    case CreateGroup(g, o) => s.(cat := s.cat.(groups := s.cat.groups[g := o]))
    case DropGroup(g) => WithoutGroup(s, g)
    case CommitGroup(g, c, off) => s.(cat := CommitGroupOffset(s.cat, g, c, off).value)
    case GrantLease(g, c, expires) => s.(cat := s.cat.(leases := s.cat.leases[(g, c) := expires]))
    case Wait(time) => s.(clock := s.clock + time)
  }

  // ── The system ─────────────────────────────────────────────────────────

  predicate Enabled(h: Hash, s: State, step: Step) {
    match step
    case Publish(t, p) => PublishEnabled(s.store, t, p)
    case Session(w, p) => SessionEnabled(h, s, w, p)
    case Poll(w, p) => PollEnabled(s, w, p)
    case Deliver(w, p) => DeliverEnabled(s, w, p)
    case Cleanup(v, p) => CleanupEnabled(s, v, p)
    case Admin(p) => AdminEnabled(s, p)
  }

  function Next(h: Hash, s: State, step: Step): State
    requires Enabled(h, s, step)
  {
    match step
    case Publish(t, p) => s.(store := AfterPublish(s.store, t, p))
    case Session(w, p) => AfterSession(h, s, w, p)
    case Poll(w, p) => AfterPoll(s, w, p)
    case Deliver(w, p) => AfterDeliver(s, w, p)
    case Cleanup(v, p) => AfterCleanup(s, v, p)
    case Admin(p) => AfterAdmin(s, p)
  }

  /** States joined by enabled steps, from a given state on. */
  ghost predicate IsPath(h: Hash, from: State, states: seq<State>, steps: seq<Step>) {
    && |states| == |steps| + 1
    && states[0] == from
    && forall i :: 0 <= i < |steps| ==> Enabled(h, states[i], steps[i]) && states[i + 1] == Next(h, states[i], steps[i])
  }

  ghost predicate IsRun(h: Hash, clock: int, states: seq<State>, steps: seq<Step>) {
    IsPath(h, Init(clock), states, steps)
  }

  ghost predicate Leads(h: Hash, from: State, to: State) {
    exists states, steps :: IsPath(h, from, states, steps) && states[|steps|] == to
  }

  ghost predicate Reachable(h: Hash, s: State) {
    exists clock :: Leads(h, Init(clock), s)
  }
}
