/** The worker loop as it is written: mutable counters, cursor and breaker, proved equal to the
    functional account of one iteration and of a whole run. */
module Worker {
  import opened Common
  import opened ReplayRange
  import opened Outbox
  import opened Retention
  import opened WorkerLoop
  import B = CircuitBreaker

  /** The polling source: a private cursor, and the checkpoint table written through the same session. */
  class Source {
    const key: Key
    const replay: bool
    var last: int
    var offsets: map<Key, int>

    constructor (c: Config, offsets: map<Key, int>)
      ensures key == c.key && replay == c.replay.Some? && this.offsets == offsets
      ensures last == Start(c, offsets).last
    {
      key, replay, this.offsets := c.key, c.replay.Some?, offsets;
      if c.replay.Some? {
        last := c.replay.value.from - 1;
      } else if c.key in offsets {
        last := offsets[c.key];
      } else {
        last := 0;
      }
    }

    method Poll(rows: Rows, batchSize: nat) returns (ids: seq<int>)
      ensures ids == SelectAfter(rows, key.outbox, last, batchSize)
    {
      ids := SelectAfter(rows, key.outbox, last, batchSize);
    }

    /** The cursor moves only after the durable write, if there is one, is known to have happened. */
    method Acknowledge(top: int, reply: CommitReply) returns (ok: bool)
      modifies this
      ensures ok <==> reply == Committed && (replay || top >= 0)
      ensures last == if ok then Max(old(last), top) else old(last)
      ensures offsets == if replay || top < 0 || reply == NotCommitted then old(offsets)
                         else UpsertOffset(old(offsets), key, top)
    {
      if !replay {
        if top < 0 {
          return false;
        }
        if reply != NotCommitted {
          var stored := if key in offsets then Max(offsets[key], top) else top;
          offsets := offsets[key := stored];
        }
      }
      if reply != Committed {
        return false;
      }
      last := Max(last, top);
      ok := true;
    }
  }

  /** The filter of a bounded replay. */
  method FilterReplayBatch(ids: seq<int>, r: Range) returns (kept: seq<int>)
    ensures kept == InRange(ids, r)
  {
    kept := [];
    for i := 0 to |ids|
      invariant kept == InRange(ids[..i], r)
    {
      assert ids[..i + 1][..i] == ids[..i];
      if r.from <= ids[i] <= r.to {
        kept := kept + [ids[i]];
      }
    }
    assert ids[..|ids|] == ids;
  }

  /** What to do after a publish attempt. A batch is acknowledged exactly after the sink's acceptance, goes to
      the dead-letter queue exactly when there is one and the attempt is given up on, and the worker stops
      exactly when a failure is permanent and there is no queue; otherwise the batch is tried again. */
  method HandlePublishOutcome(c: Config, outcome: PublishOutcome, failures: nat) returns (d: Directive, failures': nat)
    ensures d == Directive.Acknowledge <==> outcome == Success
    ensures d == RouteToDlq <==> c.dlqEnabled && GivenUp(c, outcome, failures)
    ensures d == Shutdown <==> !c.dlqEnabled && outcome == Failure(false)
    ensures d == BackOff ==> outcome == Failure(true) || outcome == BreakerOpen
    ensures outcome.Failure? ==> failures' == failures + 1
    ensures d == BackOff && c.dlqEnabled ==> failures' <= c.maxRetries
    ensures (d, failures') == Direct(c, outcome, failures)
  {
    failures' := failures;
    match outcome {
      case Success =>
        failures' := 0;
        d := Directive.Acknowledge;
      case BreakerOpen =>
        d := if c.dlqEnabled then RouteToDlq else BackOff;
      case Failure(transient) =>
        failures' := failures + 1;
        if !transient {
          d := if c.dlqEnabled then RouteToDlq else Shutdown;
        } else if c.dlqEnabled && failures' > c.maxRetries {
          d := RouteToDlq;
        } else {
          d := BackOff;
        }
    }
  }

  class Worker {
    const config: Config
    const source: Source
    const breaker: B.Breaker
    var failures: nat
    var backoff: nat
    var settled: seq<int>

    ghost predicate Valid()
      reads this, source, breaker
    {
      && breaker.Valid() && breaker.config == config.breaker
      && source.key == config.key && source.replay == config.replay.Some?
    }

    ghost function AsView(): View
      reads this, source, breaker
    {
      View(source.last, source.offsets, failures, backoff, breaker.AsView(), settled)
    }

    constructor (config: Config, offsets: map<Key, int>)
      ensures Valid() && fresh(source) && fresh(breaker) && this.config == config
      ensures AsView() == Start(config, offsets)
    {
      this.config := config;
      source := new Source(config, offsets);
      breaker := new B.Breaker(config.breaker);
      failures, backoff, settled := 0, config.pollInterval, [];
    }

    method PublishWithCircuitBreaker(t: Tick) returns (outcome: PublishOutcome)
      requires Valid() && t.limits.None?
      modifies breaker
      ensures Valid() && (outcome, breaker.AsView()) == Publish(config, old(breaker.AsView()), t)
    {
      var allow := breaker.ShouldAllowNow(t.asked);
      if !allow {
        return BreakerOpen;
      }
      match t.sink {
        case Took =>
          breaker.Succeeded();
          outcome := Success;
        case Refused(_, transient) =>
          breaker.Failed(t.answered);
          outcome := Failure(transient);
      }
    }

    method CommitCheckpoint(top: int, messages: seq<int>, reply: CommitReply) returns (ok: bool)
      requires Valid()
      modifies source, this`settled
      ensures Valid() && (AsView(), ok) == Commit(config, old(AsView()), top, messages, reply)
    {
      ok := source.Acknowledge(top, reply);
      if ok {
        settled := settled + messages;
      }
    }

    /** Everything after a batch has been polled. */
    method DeliverBatch(top: int, messages: seq<int>, t: Tick) returns (control: Control)
      requires Valid()
      modifies this, source, breaker
      ensures Valid()
      ensures (AsView(), control) == (Deliver(config, old(AsView()), top, messages, t).view,
                                      Deliver(config, old(AsView()), top, messages, t).control)
    {
      if config.dryRun {
        var ok := CommitCheckpoint(top, messages, t.commit);
        return if ok then Continue else Died;
      }
      var outcome;
      if t.limits.Some? {
        outcome := Failure(t.limits.value);
      } else {
        outcome := PublishWithCircuitBreaker(t);
      }
      var directive;
      directive, failures := HandlePublishOutcome(config, outcome, failures);
      match directive {
        case Acknowledge =>
          var ok := CommitCheckpoint(top, messages, t.commit);
          return if ok then Continue else Died;
        case BackOff =>
          return if t.stopInSleep then Stopped else Continue;
        case Shutdown =>
          return Died;
        case RouteToDlq =>
          match t.dlq {
            case Fine =>
              var ok := CommitCheckpoint(top, messages, t.commit);
              if !ok {
                return Died;
              }
              failures := 0;
              return Continue;
            case Transient =>
              return if t.stopInSleep then Stopped else Continue;
            case Permanent =>
              return Died;
          }
      }
    }

    /** One iteration of the loop. */
    method Step(rows: Rows, t: Tick) returns (control: Control)
      requires Valid()
      modifies this, source, breaker
      ensures Valid()
      ensures (AsView(), control) == (Iterate(config, rows, old(AsView()), t).view,
                                      Iterate(config, rows, old(AsView()), t).control)
    {
      hide Deliver, SelectAfter, InRange, B.ShouldAllow;
      if t.stop {
        return Stopped;
      }
      if t.poll == Permanent {
        return Died;
      }
      if t.poll == Transient {
        failures := failures + 1;
        if t.stopInSleep {
          return Stopped;
        }
        backoff := Min((backoff * 2) % U64_RANGE, config.maxBackoff);
        return Continue;
      }
      var ids := source.Poll(rows, config.batchSize);
      var messages := ids;
      if config.replay.Some? {
        messages := FilterReplayBatch(ids, config.replay.value);
        if messages == [] {
          return Finished;
        }
      }
      backoff := config.pollInterval;
      if ids == [] {
        return if t.stopInSleep then Stopped else Continue;
      }
      control := DeliverBatch(ids[|ids| - 1], messages, t);
    }

    /** The loop, for as many iterations as the script has moments. */
    method Loop(moments: seq<Moment>) returns (control: Control)
      requires Valid()
      modifies this, source, breaker
      ensures Valid()
      ensures (AsView(), control) == (Run(config, old(AsView()), moments).view,
                                      Run(config, old(AsView()), moments).control)
    {
      var i := 0;
      control := Continue;
      while i < |moments| && control == Continue
        invariant 0 <= i <= |moments| && Valid()
        invariant control == Continue ==>
                    Run(config, AsView(), moments[i..]) == Run(config, old(AsView()), moments)
        invariant control != Continue ==>
                    (AsView(), control) == (Run(config, old(AsView()), moments).view,
                                            Run(config, old(AsView()), moments).control)
      {
        assert moments[i..][0] == moments[i] && moments[i..][1..] == moments[i + 1..];
        control := Step(moments[i].rows, moments[i].tick);
        i := i + 1;
      }
    }
  }
}
