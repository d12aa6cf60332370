/** The worker's circuit breaker, tied to the log of what the worker asked it. */
module WorkerBreaker {
  import opened Outbox
  import opened Retention
  import opened WorkerLoop
  import B = CircuitBreaker

  /** The iteration gets as far as asking the breaker: it has something to publish, is not a dry run, and
      the batch is within the size limits. */
  predicate AsksBreaker(c: Config, rows: Rows, v: View, t: Tick) {
    && !t.stop && t.poll == Fine && !c.dryRun && t.limits.None?
    && Poll(c, rows, v.last) != [] && Messages(c, Poll(c, rows, v.last)) != []
  }

  function AttemptOf(t: Tick): B.Attempt { B.Attempt(t.asked, t.sink.Took?, t.answered) }

  /** An attempt succeeds exactly if the batch is within the limits, the breaker is off, not open, or open for its
      timeout, and the sink takes the batch; the breaker refuses exactly what it does not let through; and whether
      a failure can be retried is what the limits or the sink said. */
  lemma PublishExactly(c: Config, v: View, t: Tick)
    ensures var outcome := Publish(c, v.breaker, t).0;
            var open := c.breaker.enabled && v.breaker.state == B.Open
                        && (v.breaker.openedAt.None?
                            || (t.asked < v.breaker.openedAt.value + c.breaker.halfOpenTimeout
                                && c.breaker.halfOpenTimeout > 0));
            && (outcome == Success <==> t.limits.None? && !open && t.sink.Took?)
            && (outcome == BreakerOpen <==> t.limits.None? && open)
            && (outcome.Failure? ==>
                  outcome.transient == if t.limits.Some? then t.limits.value else t.sink.Refused? && t.sink.transient)
  {
  }

  /** The attempts of a run, in order. */
  function BreakerLog(c: Config, v: View, moments: seq<Moment>): seq<B.Attempt>
    decreases |moments|
  {
    if moments == [] then []
    else
      var (rows, t) := (moments[0].rows, moments[0].tick);
      var r := Iterate(c, rows, v, t);
      (if AsksBreaker(c, rows, v, t) then [AttemptOf(t)] else [])
      + (if r.control == Continue then BreakerLog(c, r.view, moments[1..]) else [])
  }

  /** One iteration feeds the breaker exactly its own attempt: polls, dry runs, oversized batches, dead-letter
      writes and checkpoints leave it alone, and the sink's answer is the breaker's answer. */
  lemma IterationFeedsBreaker(c: Config, rows: Rows, v: View, t: Tick)
    ensures Iterate(c, rows, v, t).view.breaker
         == if AsksBreaker(c, rows, v, t) then B.PublishAttempt(c.breaker, v.breaker, AttemptOf(t)).0 else v.breaker
  {
    hide SelectAfter;
  }

  lemma ReplaySnoc(c: B.Config, log: seq<B.Attempt>, a: B.Attempt)
    ensures B.Replay(c, log + [a]) == B.PublishAttempt(c, B.Replay(c, log), a).0
  {
    assert (log + [a])[..|log|] == log;
  }

  lemma IterationExtendsLog(c: Config, rows: Rows, v: View, t: Tick, log: seq<B.Attempt>)
    requires v.breaker == B.Replay(c.breaker, log)
    ensures Iterate(c, rows, v, t).view.breaker
         == B.Replay(c.breaker, log + (if AsksBreaker(c, rows, v, t) then [AttemptOf(t)] else []))
  {
    hide Iterate, AsksBreaker, B.PublishAttempt;
    IterationFeedsBreaker(c, rows, v, t);
    ReplaySnoc(c.breaker, log, AttemptOf(t));
    assert log + [] == log;
  }

  /** The breaker of a running worker is the replay of its log, so everything proved about logs holds of it. */
  lemma {:induction false} BreakerFollowsLog(c: Config, v: View, moments: seq<Moment>, log: seq<B.Attempt>)
    requires v.breaker == B.Replay(c.breaker, log)
    ensures Run(c, v, moments).view.breaker == B.Replay(c.breaker, log + BreakerLog(c, v, moments))
    decreases |moments|
  {
    hide Iterate, AsksBreaker, B.Replay;
    if moments == [] {
      assert log + [] == log;
    } else {
      var rows, t := moments[0].rows, moments[0].tick;
      var r := Iterate(c, rows, v, t);
      var asked := if AsksBreaker(c, rows, v, t) then [AttemptOf(t)] else [];
      IterationExtendsLog(c, rows, v, t, log);
      if r.control == Continue {
        BreakerFollowsLog(c, r.view, moments[1..], log + asked);
        var rest := BreakerLog(c, r.view, moments[1..]);
        assert log + (asked + rest) == log + asked + rest;
      } else {
        assert log + (asked + []) == log + asked;
      }
    }
  }

  /** And that of a freshly started worker has nothing but its own log. */
  lemma FreshBreakerFollowsLog(c: Config, offsets: map<Key, int>, moments: seq<Moment>)
    ensures Run(c, Start(c, offsets), moments).view.breaker
         == B.Replay(c.breaker, BreakerLog(c, Start(c, offsets), moments))
  {
    hide Run, BreakerLog;
    var log := BreakerLog(c, Start(c, offsets), moments);
    BreakerFollowsLog(c, Start(c, offsets), moments, []);
    assert [] + log == log;
  }
}
