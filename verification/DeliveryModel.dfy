/** The relay's pure delivery state machine, and exactly which facts it can reach. */
module DeliveryModel {
  import opened Common

  datatype DeliveryState =
    | Polled | Encoded | PublishStarted | SinkAccepted | SinkAcknowledged | DryRunObserved
    | IntentionallyFiltered | PublishFailed | DlqPersisted | CheckpointCommitted | CleanupEligible

  datatype DeliveryEvent =
    | Encode
    | StartPublish
    | AcceptBySink
    | AcknowledgeBySink(frontier: nat)
    | ObserveDryRun
    | FilterIntentionally
    | FailPublish(transient: bool)
    | PersistToDlq
    | CommitCheckpoint
    | AllowCleanup
    | NextBatch(checkpoint: nat)

  datatype DeliveryFacts = DeliveryFacts(
    state: DeliveryState,
    sinkAcknowledgedFrontier: Option<nat>,
    sourceCheckpoint: Option<nat>,
    sourceVisible: bool,
    duplicatePossible: bool,
    cleanupAllowed: bool,
    failureTransient: bool)

  function FreshlyPolled(checkpoint: nat): DeliveryFacts {
    DeliveryFacts(Polled, None, Some(checkpoint), true, false, false, false)
  }

  /** `None` is the transition error: the event is illegal in this state. */
  function Transition(f: DeliveryFacts, e: DeliveryEvent): Option<DeliveryFacts> {
    match (f.state, e)
    case (Polled, Encode) => Some(f.(state := Encoded))
    case (Encoded, StartPublish) => Some(f.(state := PublishStarted))
    case (PublishStarted, AcceptBySink) => Some(f.(state := SinkAccepted, duplicatePossible := true))
    case (PublishStarted, AcknowledgeBySink(frontier)) => Acknowledge(f, frontier)
    case (SinkAccepted, AcknowledgeBySink(frontier)) => Acknowledge(f, frontier)
    case (Encoded, ObserveDryRun) => Some(f.(state := DryRunObserved))
    case (Encoded, FilterIntentionally) => Some(f.(state := IntentionallyFiltered))
    case (PublishStarted, FailPublish(t)) => Some(f.(state := PublishFailed, failureTransient := t))
    case (SinkAccepted, FailPublish(t)) => Some(f.(state := PublishFailed, failureTransient := t))
    case (PublishFailed, PersistToDlq) => Some(f.(state := DlqPersisted))
    case (SinkAcknowledged, CommitCheckpoint) => Some(Commit(f))
    case (DryRunObserved, CommitCheckpoint) => Some(Commit(f))
    case (IntentionallyFiltered, CommitCheckpoint) => Some(Commit(f))
    case (DlqPersisted, CommitCheckpoint) => Some(Commit(f))
    case (CheckpointCommitted, AllowCleanup) => Some(f.(state := CleanupEligible, cleanupAllowed := true))
    case (CheckpointCommitted, NextBatch(checkpoint)) => Some(FreshlyPolled(checkpoint))
    case (CleanupEligible, NextBatch(checkpoint)) => Some(FreshlyPolled(checkpoint))
    case (_, _) => None
  }

  function Acknowledge(f: DeliveryFacts, frontier: nat): Option<DeliveryFacts> {
    if f.sourceCheckpoint == Some(frontier)
    then Some(f.(state := SinkAcknowledged, sinkAcknowledgedFrontier := Some(frontier)))
    else None
  }

  function Commit(f: DeliveryFacts): DeliveryFacts {
    f.(state := CheckpointCommitted, sourceVisible := false)
  }

  /** Folds a run of events; `None` as soon as one is illegal. */
  function Apply(f: DeliveryFacts, events: seq<DeliveryEvent>): Option<DeliveryFacts>
    decreases |events|
  {
    if events == [] then Some(f)
    else
      match Apply(f, events[..|events| - 1])
      case None => None
      case Some(g) => Transition(g, events[|events| - 1])
  }

  lemma ApplySnoc(f: DeliveryFacts, events: seq<DeliveryEvent>, e: DeliveryEvent)
    ensures Apply(f, events + [e])
         == (match Apply(f, events) case None => None case Some(g) => Transition(g, e))
  {
    assert (events + [e])[..|events|] == events;
  }

  predicate Terminal(s: DeliveryState) {
    s in {SinkAcknowledged, DryRunObserved, IntentionallyFiltered, DlqPersisted}
  }

  predicate Released(s: DeliveryState) { s in {CheckpointCommitted, CleanupEligible} }

  /** How a batch was settled, as far as the facts remember it after the commit. */
  datatype Route = NotSettled | ByAck | ByDlq | BySkip

  /** The facts of a state reached along a given route. Before a terminal disposition the route is
      `NotSettled`; from then on it says which of the three settled the batch. */
  ghost predicate FactsOn(f: DeliveryFacts, route: Route) {
    && f.sourceCheckpoint.Some?
    && f.sourceVisible == !Released(f.state)
    && f.cleanupAllowed == (f.state == CleanupEligible)
    && f.sinkAcknowledgedFrontier == (if route == ByAck then f.sourceCheckpoint else None)
    && (f.duplicatePossible && !Released(f.state) ==>
          f.state in {SinkAccepted, SinkAcknowledged, PublishFailed, DlqPersisted})
    && (f.duplicatePossible && Released(f.state) ==> route in {ByAck, ByDlq})
    && (f.state == SinkAccepted ==> f.duplicatePossible)
    && (f.failureTransient ==> f.state == PublishFailed || route == ByDlq)
    && (match f.state
        case SinkAcknowledged => route == ByAck
        case DlqPersisted => route == ByDlq
        case DryRunObserved => route == BySkip
        case IntentionallyFiltered => route == BySkip
        case CheckpointCommitted => route != NotSettled
        case CleanupEligible => route != NotSettled
        case _ => route == NotSettled)
  }

  ghost predicate ReachableFacts(f: DeliveryFacts) {
    exists route :: FactsOn(f, route)
  }

  lemma StepStays(f: DeliveryFacts, route: Route, e: DeliveryEvent)
    requires FactsOn(f, route) && Transition(f, e).Some?
    ensures ReachableFacts(Transition(f, e).value)
  {
    var next := Transition(f, e).value;
    assert FactsOn(next,
      match next.state
      case SinkAcknowledged => ByAck
      case DlqPersisted => ByDlq
      case DryRunObserved => BySkip
      case IntentionallyFiltered => BySkip
      case CheckpointCommitted => route
      case CleanupEligible => route
      case _ => NotSettled);
  }

  /** Every run from a freshly polled batch stays within the described facts. */
  lemma {:induction false} ReachableSound(checkpoint: nat, events: seq<DeliveryEvent>)
    requires Apply(FreshlyPolled(checkpoint), events).Some?
    ensures ReachableFacts(Apply(FreshlyPolled(checkpoint), events).value)
    decreases |events|
  {
    if events == [] {
      assert FactsOn(FreshlyPolled(checkpoint), NotSettled);
    } else {
      ReachableSound(checkpoint, events[..|events| - 1]);
      var f := Apply(FreshlyPolled(checkpoint), events[..|events| - 1]).value;
      var route :| FactsOn(f, route);
      StepStays(f, route, events[|events| - 1]);
    }
  }

  function Rank(s: DeliveryState): nat {
    match s
    case Polled => 0
    case Encoded => 1
    case PublishStarted => 2
    case DryRunObserved => 2
    case IntentionallyFiltered => 2
    case SinkAccepted => 3
    case SinkAcknowledged => 4
    case PublishFailed => 4
    case DlqPersisted => 5
    case CheckpointCommitted => 6
    case CleanupEligible => 7
  }

  /** Every legal event takes the batch further, so a run is never longer than the chain of states; only the next
      batch starts over, and only once this one is committed. Cleanup is allowed only after the commit. */
  lemma EachEventAdvances(f: DeliveryFacts, e: DeliveryEvent)
    requires Transition(f, e).Some?
    ensures var g := Transition(f, e).value;
            && (!e.NextBatch? ==> Rank(g.state) > Rank(f.state) && g.sourceCheckpoint == f.sourceCheckpoint)
            && (e.NextBatch? ==> Released(f.state) && g == FreshlyPolled(e.checkpoint))
            && (e.AllowCleanup? ==> f.state == CheckpointCommitted)
  {
  }

  /** A predecessor of given facts, its route, and the event that leads on from it. */
  function Before(f: DeliveryFacts, route: Route): (DeliveryFacts, Route, DeliveryEvent) {
    var publishing := if f.duplicatePossible then SinkAccepted else PublishStarted;
    match f.state
    case Polled => (f, route, Encode)
    case Encoded => (f.(state := Polled), NotSettled, Encode)
    case PublishStarted => (f.(state := Encoded), NotSettled, StartPublish)
    case SinkAccepted => (f.(state := PublishStarted, duplicatePossible := false), NotSettled, AcceptBySink)
    case SinkAcknowledged =>
      (f.(state := publishing, sinkAcknowledgedFrontier := None), NotSettled,
       AcknowledgeBySink(if f.sourceCheckpoint.Some? then f.sourceCheckpoint.value else 0))
    case DryRunObserved => (f.(state := Encoded), NotSettled, ObserveDryRun)
    case IntentionallyFiltered => (f.(state := Encoded), NotSettled, FilterIntentionally)
    case PublishFailed =>
      (f.(state := publishing, failureTransient := false), NotSettled, FailPublish(f.failureTransient))
    case DlqPersisted => (f.(state := PublishFailed), NotSettled, PersistToDlq)
    case CheckpointCommitted =>
      (f.(state := match route
                   case ByAck => SinkAcknowledged
                   case ByDlq => DlqPersisted
                   case _ => DryRunObserved,
          sourceVisible := true),
       route, CommitCheckpoint)
    case CleanupEligible => (f.(state := CheckpointCommitted, cleanupAllowed := false), route, AllowCleanup)
  }

  /** And every described combination of facts is produced by some run: the description is exact. */
  lemma {:induction false} ReachableComplete(f: DeliveryFacts, route: Route) returns (events: seq<DeliveryEvent>)
    requires FactsOn(f, route)
    ensures Apply(FreshlyPolled(f.sourceCheckpoint.value), events) == Some(f)
    decreases Rank(f.state)
  {
    if f.state == Polled {
      events := [];
    } else {
      var (g, r, e) := Before(f, route);
      var path := ReachableComplete(g, r);
      ApplySnoc(FreshlyPolled(f.sourceCheckpoint.value), path, e);
      events := path + [e];
    }
  }

  lemma ReachableExactly(f: DeliveryFacts)
    ensures ReachableFacts(f)
       <==> exists checkpoint, events :: Apply(FreshlyPolled(checkpoint), events) == Some(f)
  {
    hide Apply, Transition, FactsOn;
    if route :| FactsOn(f, route) {
      var events := ReachableComplete(f, route);
    }
    if checkpoint, events :| Apply(FreshlyPolled(checkpoint), events) == Some(f) {
      ReachableSound(checkpoint, events);
    }
  }

  /** What the repository promises of every reachable state: the source is invisible exactly once
      its checkpoint is committed, an acknowledged frontier is the source checkpoint, and only a
      terminal disposition can be committed. */
  lemma {:induction false} DeliveryGuarantees(checkpoint: nat, events: seq<DeliveryEvent>)
    requires Apply(FreshlyPolled(checkpoint), events).Some?
    ensures var f := Apply(FreshlyPolled(checkpoint), events).value;
            && (f.sourceVisible <==> !Released(f.state))
            && (f.sinkAcknowledgedFrontier.Some? ==> f.sinkAcknowledgedFrontier == f.sourceCheckpoint)
            && (Transition(f, CommitCheckpoint).Some? <==> Terminal(f.state))
  {
    ReachableSound(checkpoint, events);
  }
}
