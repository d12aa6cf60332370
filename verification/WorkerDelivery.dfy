/** Every iteration of the worker is a legal path of the delivery state machine. */
module WorkerDelivery {
  import opened Common
  import opened Outbox
  import opened WorkerLoop
  import D = DeliveryModel

  /** The state a path from a freshly polled batch ends in. */
  ghost predicate EndsIn(events: seq<D.DeliveryEvent>, checkpoint: nat, state: D.DeliveryState) {
    var f := D.Apply(D.FreshlyPolled(checkpoint), events);
    f.Some? && f.value.sourceCheckpoint == Some(checkpoint) && f.value.state == state
  }

  lemma Encoded(c: nat)
    ensures D.Apply(D.FreshlyPolled(c), [D.Encode]) == Some(D.FreshlyPolled(c).(state := D.Encoded))
  {
    D.ApplySnoc(D.FreshlyPolled(c), [], D.Encode);
    assert [] + [D.Encode] == [D.Encode];
  }

  lemma Started(c: nat)
    ensures EndsIn([D.Encode, D.StartPublish], c, D.PublishStarted)
  {
    Encoded(c);
    D.ApplySnoc(D.FreshlyPolled(c), [D.Encode], D.StartPublish);
    assert [D.Encode] + [D.StartPublish] == [D.Encode, D.StartPublish];
  }

  /** One more legal event. */
  lemma Extended(events: seq<D.DeliveryEvent>, c: nat, from: D.DeliveryState, e: D.DeliveryEvent, to: D.DeliveryState)
    requires EndsIn(events, c, from)
    requires forall f: D.DeliveryFacts :: f.state == from && f.sourceCheckpoint == Some(c) ==>
               var g := D.Transition(f, e); g.Some? && g.value.state == to && g.value.sourceCheckpoint == Some(c)
    ensures EndsIn(events + [e], c, to)
  {
    D.ApplySnoc(D.FreshlyPolled(c), events, e);
  }

  lemma DryRunPath(c: nat)
    ensures EndsIn([D.Encode, D.ObserveDryRun], c, D.DryRunObserved)
  {
    Encoded(c);
    assert EndsIn([D.Encode], c, D.Encoded);
    Extended([D.Encode], c, D.Encoded, D.ObserveDryRun, D.DryRunObserved);
    assert [D.Encode] + [D.ObserveDryRun] == [D.Encode, D.ObserveDryRun];
  }

  lemma PublishPath(t: Tick, outcome: PublishOutcome, messages: seq<int>, c: nat)
    ensures EndsIn(PublishEvents(t, outcome, messages, c), c,
                   if outcome.Success? then D.SinkAcknowledged else D.PublishFailed)
  {
    var base := [D.Encode, D.StartPublish];
    Started(c);
    match outcome
    case Success =>
      Extended(base, c, D.PublishStarted, D.AcknowledgeBySink(c), D.SinkAcknowledged);
      assert PublishEvents(t, outcome, messages, c) == base + [D.AcknowledgeBySink(c)];
    case BreakerOpen =>
      Extended(base, c, D.PublishStarted, D.FailPublish(true), D.PublishFailed);
      assert PublishEvents(t, outcome, messages, c) == base + [D.FailPublish(true)];
    case Failure(transient) =>
      if t.limits.None? && Taken(t, messages) != {} {
        Extended(base, c, D.PublishStarted, D.AcceptBySink, D.SinkAccepted);
        Extended(base + [D.AcceptBySink], c, D.SinkAccepted, D.FailPublish(transient), D.PublishFailed);
        assert PublishEvents(t, outcome, messages, c) == (base + [D.AcceptBySink]) + [D.FailPublish(transient)];
      } else {
        Extended(base, c, D.PublishStarted, D.FailPublish(transient), D.PublishFailed);
        assert PublishEvents(t, outcome, messages, c) == base + [D.FailPublish(transient)];
      }
  }

  /** The facts a publish attempt ends in. */
  ghost predicate Ends(events: seq<D.DeliveryEvent>, c: nat, frontier: Option<nat>, duplicate: bool, transient: bool) {
    var f := D.Apply(D.FreshlyPolled(c), events);
    f.Some? && f.value.sinkAcknowledgedFrontier == frontier && f.value.duplicatePossible == duplicate
    && f.value.failureTransient == transient
  }

  /** And they are so: the frontier is acknowledged exactly after a success, a duplicate is possible exactly if a
      sink that was called took something and still failed, and the failure is remembered as retryable exactly if
      it was. */
  lemma PublishFacts(t: Tick, outcome: PublishOutcome, messages: seq<int>, c: nat)
    ensures Ends(PublishEvents(t, outcome, messages, c), c, if outcome.Success? then Some(c) else None,
                 outcome.Failure? && t.limits.None? && Taken(t, messages) != {},
                 outcome == BreakerOpen || (outcome.Failure? && outcome.transient))
  {
    var base := [D.Encode, D.StartPublish];
    Encoded(c);
    D.ApplySnoc(D.FreshlyPolled(c), [D.Encode], D.StartPublish);
    assert [D.Encode] + [D.StartPublish] == base;
    if outcome.Failure? && t.limits.None? && Taken(t, messages) != {} {
      D.ApplySnoc(D.FreshlyPolled(c), base, D.AcceptBySink);
      D.ApplySnoc(D.FreshlyPolled(c), base + [D.AcceptBySink], D.FailPublish(outcome.transient));
      assert PublishEvents(t, outcome, messages, c) == base + [D.AcceptBySink] + [D.FailPublish(outcome.transient)];
    } else {
      var last := if outcome.Success? then D.AcknowledgeBySink(c)
                  else D.FailPublish(outcome == BreakerOpen || outcome.transient);
      D.ApplySnoc(D.FreshlyPolled(c), base, last);
      assert PublishEvents(t, outcome, messages, c) == base + [last];
    }
  }

  /** Whatever an iteration did to its batch is a legal path; the path is committed exactly when the
      cursor moved; and if a checkpoint was written, even with a lost reply, the batch had reached a
      terminal disposition first. */
  ghost predicate LegalPath(v: View, r: Result, top: nat) {
    exists state ::
      && EndsIn(r.events, top, state)
      && (D.Released(state) <==> r.view.last != v.last)
      && (r.view.offsets != v.offsets ==> D.Terminal(state) || D.Released(state))
      && (r.view.settled != v.settled ==> D.Released(state))
  }

  lemma SettleLegal(c: Config, v: View, w: View, top: int, messages: seq<int>, t: Tick, failures: nat, attempted: bool,
                    events: seq<D.DeliveryEvent>, state: D.DeliveryState)
    requires EndsIn(events, Max(top, 0), state) && D.Terminal(state)
    requires w.last == v.last && w.offsets == v.offsets && w.settled == v.settled && v.last < top
    ensures LegalPath(v, Settle(c, w, top, messages, t, failures, attempted, events), Max(top, 0))
  {
    var (x, ok) := Commit(c, w, top, messages, t.commit);
    if ok {
      Extended(events, Max(top, 0), state, D.CommitCheckpoint, D.CheckpointCommitted);
      assert EndsIn(events + [D.CommitCheckpoint], Max(top, 0), D.CheckpointCommitted);
    }
  }

  lemma DeliverLegal(c: Config, v: View, top: int, messages: seq<int>, t: Tick)
    requires v.last < top
    ensures LegalPath(v, Deliver(c, v, top, messages, t), Max(top, 0))
    ensures Deliver(c, v, top, messages, t).events != []
  {
    var n: nat := Max(top, 0);
    if c.dryRun {
      DryRunPath(n);
      SettleLegal(c, v, v, top, messages, t, v.failures, false, [D.Encode, D.ObserveDryRun], D.DryRunObserved);
    } else {
      var (outcome, breaker) := Publish(c, v.breaker, t);
      var (directive, failures) := Direct(c, outcome, v.failures);
      var w := v.(breaker := breaker, failures := failures);
      var events := PublishEvents(t, outcome, messages, n);
      PublishPath(t, outcome, messages, n);
      if directive == Acknowledge {
        SettleLegal(c, v, w, top, messages, t, failures, true, events, D.SinkAcknowledged);
      } else if directive == RouteToDlq && t.dlq == Fine {
        Extended(events, n, D.PublishFailed, D.PersistToDlq, D.DlqPersisted);
        SettleLegal(c, v, w, top, messages, t, 0, true, events + [D.PersistToDlq], D.DlqPersisted);
      }
    }
  }

  lemma SamePath(v: View, w: View, r: Result, top: nat)
    requires w.last == v.last && w.offsets == v.offsets && w.settled == v.settled && LegalPath(w, r, top)
    ensures LegalPath(v, r, top)
  {
  }

  /** An iteration that polled a batch takes it along a legal path; any other leaves cursor, checkpoints
      and settled messages alone. */
  lemma IterationRefinesDeliveryModel(c: Config, rows: Rows, v: View, t: Tick)
    ensures var r := Iterate(c, rows, v, t);
            var ids := Poll(c, rows, v.last);
            if r.events == [] then r.view.last == v.last && r.view.offsets == v.offsets && r.view.settled == v.settled
            else ids != [] && LegalPath(v, r, Max(ids[|ids| - 1], 0))
  {
    hide LegalPath, Deliver, Messages, SelectAfter;
    var ids := Poll(c, rows, v.last);
    if !t.stop && t.poll == Fine && ids != [] && !(c.replay.Some? && Messages(c, ids) == []) {
      assert ids[|ids| - 1] in ids;
      var w := v.(backoff := c.pollInterval);
      DeliverLegal(c, w, ids[|ids| - 1], Messages(c, ids), t);
      SamePath(v, w, Iterate(c, rows, v, t), Max(ids[|ids| - 1], 0));
    }
  }

  // ── Exactly when the cursor moves ──────────────────────────────────────

  /** A live worker moves past a batch exactly when it polled one and its checkpoint write is confirmed after
      a dry run, after the sink's acceptance, or after the dead-letter queue took a batch it had given up
      on. In particular, without a dead-letter queue only accepted batches are ever passed. */
  lemma AdvancesExactly(c: Config, rows: Rows, v: View, t: Tick)
    requires c.replay.None? && forall i :: i in rows ==> 0 <= i
    ensures Iterate(c, rows, v, t).view.last != v.last
       <==> (!t.stop && t.poll == Fine && Poll(c, rows, v.last) != [] && t.commit == Committed
             && (c.dryRun || Publish(c, v.breaker, t).0.Success?
                 || (c.dlqEnabled && t.dlq == Fine && GivenUp(c, Publish(c, v.breaker, t).0, v.failures))))
  {
    hide SelectAfter, Publish;
    var ids := Poll(c, rows, v.last);
    if ids != [] {
      assert ids[|ids| - 1] in ids;
    }
  }

  // ── Exactly how the loop ends ──────────────────────────────────────────

  /** The batch reaches a terminal disposition: dry-run, accepted, or given up on and dead-lettered. */
  predicate Settles(c: Config, v: View, t: Tick) {
    var outcome := Publish(c, v.breaker, t).0;
    c.dryRun || outcome.Success? || (c.dlqEnabled && GivenUp(c, outcome, v.failures) && t.dlq == Fine)
  }

  /** Delivering kills the worker: its checkpoint write is not confirmed, the sink fails for good and there is no
      dead-letter queue, or the queue itself fails for good. */
  predicate Dies(c: Config, v: View, t: Tick) {
    var outcome := Publish(c, v.breaker, t).0;
    || (Settles(c, v, t) && t.commit != Committed)
    || (!c.dryRun && !c.dlqEnabled && outcome == Failure(false))
    || (!c.dryRun && c.dlqEnabled && GivenUp(c, outcome, v.failures) && t.dlq == Permanent)
  }

  /** The iteration hands a batch to delivery. */
  predicate Delivers(c: Config, rows: Rows, v: View, t: Tick) {
    !t.stop && t.poll == Fine && Messages(c, Poll(c, rows, v.last)) != []
  }

  lemma DeliverEnds(c: Config, v: View, top: int, messages: seq<int>, t: Tick)
    requires 0 <= top
    ensures var control := Deliver(c, v, top, messages, t).control;
            && (control == Died <==> Dies(c, v, t))
            && (control == Stopped <==> !Settles(c, v, t) && !Dies(c, v, t) && t.stopInSleep)
            && control != Finished
  {
    hide Publish, PublishEvents;
  }

  /** How an iteration ends the loop, by its inputs alone: the worker dies of a permanent poll error or in
      delivery; it stops when told to, at the top or while it sleeps after an error, an empty poll or an attempt
      it will repeat; and it finishes exactly if it is a replay whose poll hands on nothing. */
  lemma EndsExactly(c: Config, rows: Rows, v: View, t: Tick)
    requires forall i :: i in rows ==> 0 <= i
    ensures var control := Iterate(c, rows, v, t).control;
            && (control == Died <==>
                  !t.stop && (t.poll == Permanent || (Delivers(c, rows, v, t) && Dies(c, v, t))))
            && (control == Finished <==>
                  !t.stop && t.poll == Fine && c.replay.Some? && Messages(c, Poll(c, rows, v.last)) == [])
            && (control == Stopped <==>
                  t.stop || (t.stopInSleep && (
                    || t.poll == Transient
                    || (t.poll == Fine && c.replay.None? && Poll(c, rows, v.last) == [])
                    || (Delivers(c, rows, v, t) && !Settles(c, v, t) && !Dies(c, v, t)))))
  {
    hide SelectAfter, Deliver, Settles, Dies;
    var ids := Poll(c, rows, v.last);
    if ids != [] {
      assert ids[|ids| - 1] in ids;
      var w := v.(backoff := c.pollInterval);
      DeliverEnds(c, w, ids[|ids| - 1], Messages(c, ids), t);
      SameEnds(c, v, w, t);
    }
  }

  lemma SameEnds(c: Config, v: View, w: View, t: Tick)
    requires v.breaker == w.breaker && v.failures == w.failures
    ensures Settles(c, v, t) == Settles(c, w, t) && Dies(c, v, t) == Dies(c, w, t)
  {
  }
}
