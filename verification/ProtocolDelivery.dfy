/** The relay's delivery state machine, simulated by every worker of the protocol. */
module ProtocolDelivery {
  import opened Common
  import opened Ids
  import opened Upsert
  import opened Outbox
  import opened Retention
  import opened Protocol
  import opened ProtocolInvariants
  import opened ProtocolOwnership
  import opened ProtocolRuns
  import D = DeliveryModel

  /** The facts describe a worker that holds a batch in this phase, polled up to `top`. */
  ghost predicate Matches(p: Phase, top: int, f: D.DeliveryFacts) {
    && HasBatch(p)
    && f.sourceCheckpoint.Some? && f.sourceCheckpoint.value == top
    && match p
       case Polled(_) => f == D.FreshlyPolled(f.sourceCheckpoint.value)
       case Encoded(_) => f.state == D.Encoded
       case PublishStarted(_) => f.state == D.PublishStarted
       case PublishFailed(_, transient) => f.state == D.PublishFailed && f.failureTransient == transient
       case SinkAcknowledged(_) => f.state == D.SinkAcknowledged
       case DlqPersisted(_) => f.state == D.DlqPersisted
       case DryRunObserved(_) => f.state == D.DryRunObserved
       case Committed(_) => f.state == D.CheckpointCommitted
  }

  function Answer(ok: bool, transient: bool, c: nat): D.DeliveryEvent {
    if ok then D.AcknowledgeBySink(c) else D.FailPublish(transient)
  }

  /** The delivery events of one step, acknowledging frontier `c`. The sink may have taken messages
      before it answers with an error. */
  function Events(step: DeliverStep, c: nat): seq<D.DeliveryEvent> {
    match step
    case Encode => [D.Encode]
    case ObserveDryRun => [D.ObserveDryRun]
    case StartPublish => [D.StartPublish]
    case SinkReply(took, ok, transient) =>
      if took == {} then [Answer(ok, transient, c)] else [D.AcceptBySink, Answer(ok, transient, c)]
    case Refuse(transient) => [D.FailPublish(transient)]
    case WriteDlq(_, ok) => if ok then [D.PersistToDlq] else []
    case WriteCheckpoint => [D.CommitCheckpoint]
    case Retry => []
    case AdvanceCursor => []
  }

  lemma ApplyOne(f: D.DeliveryFacts, e: D.DeliveryEvent)
    ensures D.Apply(f, [e]) == D.Transition(f, e)
  {
    D.ApplySnoc(f, [], e);
    assert [] + [e] == [e];
  }

  lemma ApplyTwo(f: D.DeliveryFacts, e: D.DeliveryEvent, e': D.DeliveryEvent)
    requires D.Transition(f, e).Some?
    ensures D.Apply(f, [e, e']) == D.Transition(D.Transition(f, e).value, e')
  {
    ApplyOne(f, e);
    D.ApplySnoc(f, [e], e');
    assert [e] + [e'] == [e, e'];
  }

  ghost predicate Answered(f: D.DeliveryFacts, g: Option<D.DeliveryFacts>, ok: bool, transient: bool) {
    && g.Some? && g.value.sourceCheckpoint == f.sourceCheckpoint
    && g.value.state == (if ok then D.SinkAcknowledged else D.PublishFailed)
    && (!ok ==> g.value.failureTransient == transient)
  }

  lemma AnswerMoves(f: D.DeliveryFacts, ok: bool, transient: bool)
    requires (f.state == D.PublishStarted || f.state == D.SinkAccepted) && f.sourceCheckpoint.Some?
    ensures Answered(f, D.Transition(f, Answer(ok, transient, f.sourceCheckpoint.value)), ok, transient)
  {
  }

  lemma SinkReplyPath(f: D.DeliveryFacts, took: set<int>, ok: bool, transient: bool)
    requires f.state == D.PublishStarted && f.sourceCheckpoint.Some?
    ensures Answered(f, D.Apply(f, Events(SinkReply(took, ok, transient), f.sourceCheckpoint.value)), ok, transient)
  {
    var answer := Answer(ok, transient, f.sourceCheckpoint.value);
    if took == {} {
      ApplyOne(f, answer);
      AnswerMoves(f, ok, transient);
    } else {
      ApplyTwo(f, D.AcceptBySink, answer);
      AnswerMoves(D.Transition(f, D.AcceptBySink).value, ok, transient);
    }
  }

  lemma PhaseAfter(s: State, w: int, step: DeliverStep)
    requires DeliverEnabled(s, w, step)
    ensures w in AfterDeliver(s, w, step).workers
    ensures var p := s.workers[w].phase;
            var q := AfterDeliver(s, w, step).workers[w].phase;
            match step
            case Encode => p.Polled? && q == Encoded(p.batch)
            case ObserveDryRun => p.Encoded? && q == DryRunObserved(p.batch)
            case StartPublish => p.Encoded? && q == PublishStarted(p.batch)
            case SinkReply(_, ok, transient) =>
              p.PublishStarted? && q == if ok then SinkAcknowledged(p.batch) else PublishFailed(p.batch, transient)
            case Refuse(transient) => p.PublishStarted? && q == PublishFailed(p.batch, transient)
            case Retry => q == Idle
            case WriteDlq(_, ok) => p.PublishFailed? && q == if ok then DlqPersisted(p.batch) else Idle
            case WriteCheckpoint => (p.SinkAcknowledged? || p.DlqPersisted? || p.DryRunObserved?) && q == Committed(p.batch)
            case AdvanceCursor => q == Idle
    ensures var w0, w1 := s.workers[w], AfterDeliver(s, w, step).workers[w];
            w1.top == w0.top && w1.key == w0.key && w1.sink == w0.sink
  {
    hide Accept, UpsertOffset, InsertIgnore, DlqBatch, Elems, LastOr;
  }

  /** Simulation: as long as the worker keeps its batch, each of its steps is a legal path of the
      delivery machine; giving the batch up needs no transition, since the retry is polled afresh. */
  lemma DeliverSimulates(s: State, w: int, step: DeliverStep, f: D.DeliveryFacts)
    requires DeliverEnabled(s, w, step) && Matches(s.workers[w].phase, s.workers[w].top, f)
    ensures var p := AfterDeliver(s, w, step).workers[w].phase;
            HasBatch(p) ==>
              var g := D.Apply(f, Events(step, f.sourceCheckpoint.value));
              g.Some? && Matches(p, s.workers[w].top, g.value)
  {
    hide Accept, UpsertOffset, InsertIgnore, DlqBatch, Elems, LastOr, AfterDeliver;
    PhaseAfter(s, w, step);
    match step
    case Encode => ApplyOne(f, D.Encode);
    case ObserveDryRun => ApplyOne(f, D.ObserveDryRun);
    case StartPublish => ApplyOne(f, D.StartPublish);
    case SinkReply(took, ok, transient) => SinkReplyPath(f, took, ok, transient);
    case Refuse(transient) => ApplyOne(f, D.FailPublish(transient));
    case WriteDlq(_, ok) =>
      if ok { ApplyOne(f, D.PersistToDlq); }
    case WriteCheckpoint => ApplyOne(f, D.CommitCheckpoint);
    case _ =>
  }

  // ── Over whole runs ────────────────────────────────────────────────────

  lemma {:induction false} ApplyAppend(f: D.DeliveryFacts, a: seq<D.DeliveryEvent>, b: seq<D.DeliveryEvent>)
    requires D.Apply(f, a).Some?
    ensures D.Apply(f, a + b) == D.Apply(D.Apply(f, a).value, b)
    decreases |b|
  {
    if b == [] {
      assert a + b == a;
    } else {
      var c := b[..|b| - 1];
      ApplyAppend(f, a, c);
      assert a + b == (a + c) + [b[|b| - 1]];
      D.ApplySnoc(f, a + c, b[|b| - 1]);
    }
  }

  /** The id at the end of the worker's last poll: the checkpoint its delivery starts from. */
  function BatchTop(w: Worker): nat { Max(w.top, 0) }

  /** What one step of a run adds to the delivery of worker `w`'s current batch: a poll starts afresh, a
      delivery step of this worker appends its events, and nothing else counts. */
  function Extend(s: State, step: Step, w: int, events: seq<D.DeliveryEvent>): seq<D.DeliveryEvent> {
    match step
    case Poll(v, p) => if v == w && p.PollDone? then [] else events
    case Deliver(v, p) =>
      if v == w && w in s.workers then events + Events(p, BatchTop(s.workers[w])) else events
    case _ => events
  }

  /** The delivery events of worker `w` in this run since its last completed poll. */
  function History(states: seq<State>, steps: seq<Step>, w: int, i: nat): seq<D.DeliveryEvent>
    requires |states| == |steps| + 1 && i <= |steps|
  {
    if i == 0 then [] else Extend(states[i - 1], steps[i - 1], w, History(states, steps, w, i - 1))
  }

  /** What the facts claim about the sink is so: an acknowledged frontier means that the sink has accepted the
      whole batch, and a possible duplicate that it has accepted some of it. */
  ghost predicate Borne(d: Dest, w: Worker, f: D.DeliveryFacts)
    requires HasBatch(w.phase)
  {
    && (f.sinkAcknowledgedFrontier.Some? ==> forall i :: i in w.phase.batch ==> Delivery(w.key, i, w.sink) in d.accepted)
    && (f.duplicatePossible ==> exists i :: i in w.phase.batch && Delivery(w.key, i, w.sink) in d.accepted)
  }

  /** These events are a legal delivery run, from the freshly polled batch to exactly this worker's phase, and
      the destinations bear out its facts. */
  ghost predicate Explains(events: seq<D.DeliveryEvent>, w: Worker, d: Dest) {
    HasBatch(w.phase) ==>
      var f := D.Apply(D.FreshlyPolled(BatchTop(w)), events);
      f.Some? && Matches(w.phase, w.top, f.value) && Borne(d, w, f.value)
  }

  /** Only the sink's reply changes what the facts claim about the sink. */
  lemma EventsClaim(f: D.DeliveryFacts, step: DeliverStep, c: nat)
    requires D.Apply(f, Events(step, c)).Some?
    ensures var g := D.Apply(f, Events(step, c)).value;
            && (g.sinkAcknowledgedFrontier.Some? ==> f.sinkAcknowledgedFrontier.Some? || (step.SinkReply? && step.ok))
            && (g.duplicatePossible ==> f.duplicatePossible || (step.SinkReply? && step.took != {}))
  {
    var events := Events(step, c);
    if |events| == 1 {
      ApplyOne(f, events[0]);
    } else if |events| == 2 {
      assert events[..1] == [events[0]];
      ApplyOne(f, events[0]);
    }
  }

  lemma DeliverBorne(s: State, w: int, step: DeliverStep, f: D.DeliveryFacts)
    requires DeliverEnabled(s, w, step) && HasBatch(s.workers[w].phase) && Borne(s.dest, s.workers[w], f)
    requires D.Apply(f, Events(step, BatchTop(s.workers[w]))).Some?
    requires HasBatch(AfterDeliver(s, w, step).workers[w].phase)
    ensures Borne(AfterDeliver(s, w, step).dest, AfterDeliver(s, w, step).workers[w],
                  D.Apply(f, Events(step, BatchTop(s.workers[w]))).value)
  {
    hide D.Apply, Events;
    PhaseAfter(s, w, step);
    EventsClaim(f, step, BatchTop(s.workers[w]));
    var n := AfterDeliver(s, w, step);
    assert n.workers[w].phase.batch == s.workers[w].phase.batch;
    if step.SinkReply? && step.took != {} {
      assert Delivery(s.workers[w].key, MinOf(step.took), s.workers[w].sink) in n.dest.accepted;
    }
  }

  lemma DeliverExplains(s: State, w: int, step: DeliverStep, events: seq<D.DeliveryEvent>)
    requires DeliverEnabled(s, w, step) && Explains(events, s.workers[w], s.dest)
    ensures var n := AfterDeliver(s, w, step);
            Explains(events + Events(step, BatchTop(s.workers[w])), n.workers[w], n.dest)
  {
    hide D.Apply, D.Transition, Events, Borne, AfterDeliver, LastOr;
    PhaseAfter(s, w, step);
    if HasBatch(AfterDeliver(s, w, step).workers[w].phase) {
      var c := BatchTop(s.workers[w]);
      var f := D.Apply(D.FreshlyPolled(c), events).value;
      DeliverSimulates(s, w, step, f);
      DeliverBorne(s, w, step, f);
      ApplyAppend(D.FreshlyPolled(c), events, Events(step, c));
    }
  }

  /** Another worker's delivery leaves an explanation standing. */
  lemma ExplainedStill(events: seq<D.DeliveryEvent>, w: Worker, d: Dest, d': Dest)
    requires Explains(events, w, d) && d.accepted <= d'.accepted
    ensures Explains(events, w, d')
  {
  }

  lemma PollExplains(s: State, w: int, step: PollStep, events: seq<D.DeliveryEvent>)
    requires PollEnabled(s, w, step) && FlightInv(s.store, s.workers[w]) && StoreInv(s.store)
    ensures Explains(if step.PollDone? then [] else events, AfterPoll(s, w, step).workers[w], s.dest)
  {
    hide SelectAfter;
    var n := AfterPoll(s, w, step).workers[w];
    if step.PollDone? && HasBatch(n.phase) {
      var ids := s.workers[w].phase.read;
      assert ids[|ids| - 1] in ids;
      assert D.Apply(D.FreshlyPolled(BatchTop(n)), []) == Some(D.FreshlyPolled(BatchTop(n)));
    }
  }

  /** Poll and delivery steps move one worker only. */
  ghost predicate MovesOnly(s: State, n: State, w: int) {
    n.workers.Keys == s.workers.Keys && forall v :: v in s.workers && v != w ==> n.workers[v] == s.workers[v]
  }

  lemma PollMoves(s: State, w: int, step: PollStep)
    requires PollEnabled(s, w, step)
    ensures MovesOnly(s, AfterPoll(s, w, step), w)
  {
  }

  lemma DeliverMoves(s: State, w: int, step: DeliverStep)
    requires DeliverEnabled(s, w, step)
    ensures MovesOnly(s, AfterDeliver(s, w, step), w)
  {
  }

  lemma StandingStill(h: Hash, s: State, step: Step)
    requires Enabled(h, s, step) && (step.Publish? || step.Cleanup? || step.Admin?)
    ensures var n := Next(h, s, step); n.workers == s.workers && n.live == s.live && n.dest == s.dest
  {
    hide AfterPublish, AfterCleanup, AfterAdmin;
    match step
    case Cleanup(v, p) => CleanupFrame(s, v, p);
    case Admin(p) => AdminFrame(s, p);
    case _ =>
  }

  lemma SessionExplains(h: Hash, s: State, v: int, step: SessionStep, w: int, events: seq<D.DeliveryEvent>)
    requires SessionEnabled(h, s, v, step) && (w in s.workers ==> Explains(events, s.workers[w], s.dest))
    ensures var n := AfterSession(h, s, v, step); w in n.workers ==> Explains(events, n.workers[w], n.dest)
  {
    hide Explains;
    var n := AfterSession(h, s, v, step);
    if v == w && w in n.workers && !HasBatch(n.workers[w].phase) {
      NoBatch(events, n.workers[w], n.dest);
    }
  }

  lemma NoBatch(events: seq<D.DeliveryEvent>, w: Worker, d: Dest)
    requires !HasBatch(w.phase)
    ensures Explains(events, w, d)
  {
  }

  lemma AcceptedGrows(s: State, w: int, step: DeliverStep)
    requires DeliverEnabled(s, w, step)
    ensures s.dest.accepted <= AfterDeliver(s, w, step).dest.accepted
  {
  }

  lemma StepExplains(h: Hash, s: State, step: Step, w: int, events: seq<D.DeliveryEvent>)
    requires StoreInv(s.store) && (forall v :: v in s.workers ==> FlightInv(s.store, s.workers[v]))
    requires Enabled(h, s, step) && (w in s.workers ==> Explains(events, s.workers[w], s.dest))
    ensures var n := Next(h, s, step); w in n.workers ==> Explains(Extend(s, step, w, events), n.workers[w], n.dest)
  {
    hide Explains, AfterDeliver, AfterPoll, AfterSession, AfterCleanup, StoreInv, FlightInv, Events;
    match step
    case Session(v, p) => SessionExplains(h, s, v, p, w, events);
    case Poll(v, p) => PollExplains(s, v, p, events); PollMoves(s, v, p); PollFrame(s, v, p);
    case Deliver(v, p) =>
      if v == w {
        DeliverExplains(s, v, p, events);
      } else if w in s.workers {
        AcceptedGrows(s, v, p);
        ExplainedStill(events, s.workers[w], s.dest, Next(h, s, step).dest);
      }
      DeliverMoves(s, v, p);
    case _ => StandingStill(h, s, step);
  }

  /** In every state of every run, the delivery events that a worker's own steps have produced since its last
      poll are a legal run of the delivery machine, from its batch freshly polled to exactly the phase it is
      in, whatever crashed, failed or was retried before; and what its facts claim of the sink is so. */
  lemma WorkersRefineDeliveryModel(h: Hash, clock: int, states: seq<State>, steps: seq<Step>, i: nat, w: int)
    requires IsRun(h, clock, states, steps) && i <= |steps| && w in states[i].workers
    ensures HasBatch(states[i].workers[w].phase) ==>
              var worker := states[i].workers[w];
              var f := D.Apply(D.FreshlyPolled(BatchTop(worker)), History(states, steps, w, i));
              f.Some? && Matches(worker.phase, worker.top, f.value) && Borne(states[i].dest, worker, f.value)
  {
    HistoryExplains(h, clock, states, steps, i, w);
  }

  lemma {:induction false} HistoryExplains(h: Hash, clock: int, states: seq<State>, steps: seq<Step>, i: nat, w: int)
    requires IsRun(h, clock, states, steps) && i <= |steps|
    ensures w in states[i].workers ==> Explains(History(states, steps, w, i), states[i].workers[w], states[i].dest)
    decreases i
  {
    hide Explains, Extend, Next, Enabled, DestInv, OwnInv, SweepsInv, LossInv, FlightInv, StoreInv;
    if i > 0 {
      HistoryExplains(h, clock, states, steps, i - 1, w);
      RunKeepsInv(h, clock, states, steps, i - 1);
      StepExplains(h, states[i - 1], steps[i - 1], w, History(states, steps, w, i - 1));
    } else {
      assert w !in Init(clock).workers;
    }
  }

  // ── The source of a live owner ─────────────────────────────────────────

  /** The durable checkpoint, zero if there is none. */
  function DurableAt(c: Catalog, k: Key): int { if k in c.offsets then c.offsets[k] else 0 }

  /** No two live owners share a checkpoint. */
  ghost predicate SoleOwners(s: State) {
    forall w, v :: w in s.live && v in s.live && w in s.workers && v in s.workers
                   && s.workers[w].replay.None? && s.workers[v].replay.None? && s.workers[w].key == s.workers[v].key
              ==> w == v
  }

  /** The durable checkpoint is where the owner's cursor is, and at the end of its batch once that is committed. */
  ghost predicate InStep(c: Catalog, w: Worker) {
    w.replay.Some? || w.phase.Starting?
    || DurableAt(c, w.key) == if w.phase.Committed? then LastOr(w.phase.batch, w.last) else w.last
  }

  ghost predicate OwnersInStep(s: State) {
    forall w :: w in s.live && w in s.workers ==> InStep(s.cat, s.workers[w])
  }

  lemma DeliverInStep(s: State, w: int, step: DeliverStep)
    requires DeliverEnabled(s, w, step) && FlightInv(s.store, s.workers[w]) && InStep(s.cat, s.workers[w])
    ensures InStep(AfterDeliver(s, w, step).cat, AfterDeliver(s, w, step).workers[w])
  {
    hide Accept, InsertIgnore, DlqBatch, Elems;
    var b := IdsOf(s.workers[w].phase);
    assert b != [] ==> b[|b| - 1] in b;
  }

  lemma DeliverElsewhere(s: State, w: int, step: DeliverStep, v: int)
    requires DeliverEnabled(s, w, step) && SoleOwners(s) && v in s.live && v in s.workers && v != w
    requires InStep(s.cat, s.workers[v])
    requires w in s.live || s.workers[w].replay.Some? || !step.WriteCheckpoint?
    ensures InStep(AfterDeliver(s, w, step).cat, AfterDeliver(s, w, step).workers[v])
  {
    hide Accept, InsertIgnore, DlqBatch, Elems;
  }

  lemma StepsInStep(h: Hash, s: State, step: Step)
    requires (forall w :: w in s.workers ==> FlightInv(s.store, s.workers[w]))
    requires SoleOwners(s) && OwnersInStep(s) && Enabled(h, s, step)
    ensures OwnersInStep(Next(h, s, step))
  {
    hide SelectAfter, Messages, LastOr, AfterDeliver, AfterCleanup, FlightInv, SoleOwners;
    match step
    case Session(v, p) => SessionFrame(h, s, v, p);
    case Poll(v, p) => PollFrame(s, v, p); PollMoves(s, v, p);
    case Deliver(w, p) =>
      DeliverMoves(s, w, p);
      DeliverKeepsOwnership(s, w, p);
      forall v | v in s.live && v in s.workers
        ensures InStep(Next(h, s, step).cat, Next(h, s, step).workers[v])
      {
        if v == w { DeliverInStep(s, w, p); } else { DeliverElsewhere(s, w, p, v); }
      }
    case Cleanup(v, p) => CleanupFrame(s, v, p); StandingStill(h, s, step);
    case Admin(p) => AdminFrame(s, p);
    case _ =>
  }

  lemma {:induction false} RunInStep(h: Hash, clock: int, states: seq<State>, steps: seq<Step>, i: nat)
    requires IsRun(h, clock, states, steps) && i <= |steps|
    requires forall j :: 0 <= j < i ==> SoleOwners(states[j])
    ensures OwnersInStep(states[i])
    decreases i
  {
    hide OwnersInStep, SoleOwners, Next, Enabled, DestInv, OwnInv, SweepsInv, LossInv, FlightInv, StoreInv;
    if i > 0 {
      RunInStep(h, clock, states, steps, i - 1);
      RunKeepsInv(h, clock, states, steps, i - 1);
      StepsInStep(h, states[i - 1], steps[i - 1]);
    } else {
      NobodyAtFirst(clock);
    }
  }

  lemma NobodyAtFirst(clock: int)
    ensures OwnersInStep(Init(clock))
  {
  }

  /** As long as no two live owners share a checkpoint, the delivery machine's view of the source is the durable
      one: of the batch a live owner holds, the machine calls the source visible if and only if the durable
      checkpoint is below the end of the batch. */
  lemma VisibleExactly(h: Hash, clock: int, states: seq<State>, steps: seq<Step>, i: nat, w: int)
    requires IsRun(h, clock, states, steps) && i <= |steps|
    requires forall j :: 0 <= j < i ==> SoleOwners(states[j])
    requires w in states[i].live && w in states[i].workers && states[i].workers[w].replay.None?
    requires HasBatch(states[i].workers[w].phase)
    ensures var worker := states[i].workers[w];
            var f := D.Apply(D.FreshlyPolled(BatchTop(worker)), History(states, steps, w, i));
            f.Some? && (f.value.sourceVisible <==>
                        DurableAt(states[i].cat, worker.key) < LastOr(worker.phase.batch, worker.last))
  {
    hide OwnersInStep, SoleOwners, History, Inv, D.Apply;
    var worker := states[i].workers[w];
    WorkersRefineDeliveryModel(h, clock, states, steps, i, w);
    D.DeliveryGuarantees(BatchTop(worker), History(states, steps, w, i));
    RunInStep(h, clock, states, steps, i);
    OwnerInStep(states[i], w);
    RunKeepsInv(h, clock, states, steps, i);
    BatchAbove(h, states[i], w);
  }

  lemma OwnerInStep(s: State, w: int)
    requires OwnersInStep(s) && w in s.live && w in s.workers
    ensures InStep(s.cat, s.workers[w])
  {
  }

  lemma BatchAbove(h: Hash, s: State, w: int)
    requires Inv(h, s) && w in s.workers && HasBatch(s.workers[w].phase)
    ensures s.workers[w].last < LastOr(s.workers[w].phase.batch, s.workers[w].last)
  {
    var b := s.workers[w].phase.batch;
    assert FlightInv(s.store, s.workers[w]);
    assert b[|b| - 1] in IdsOf(s.workers[w].phase);
  }
}
