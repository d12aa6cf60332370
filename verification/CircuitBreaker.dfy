/** The per-pipeline circuit breaker, and what its counters say about the log of publish attempts. */
module CircuitBreaker {
  import opened Common

  newtype u32 = n: int | 0 <= n < 0x1_0000_0000

  datatype CircuitState = Closed | Open | HalfOpen

  /** Times are readings of one monotone clock. */
  datatype Config = Config(enabled: bool, failureThreshold: u32, successThreshold: u32, halfOpenTimeout: nat)

  datatype View = View(state: CircuitState, failureCount: nat, successCount: nat, openedAt: Option<nat>)

  const CLOSED: View := View(Closed, 0, 0, None)

  // ── The three operations ───────────────────────────────────────────────

  /** The time since a reading, which is never negative. */
  function Elapsed(since: nat, now: nat): nat { Max(now - since, 0) }

  function ShouldAllow(c: Config, v: View, now: nat): (View, bool) {
    if !c.enabled then (v, true)
    else
      match v.state
      case Closed => (v, true)
      case HalfOpen => (v, true)
      case Open =>
        if v.openedAt.Some? && Elapsed(v.openedAt.value, now) >= c.halfOpenTimeout
        then (v.(state := HalfOpen, successCount := 0), true)
        else (v, false)
  }

  function RecordSuccess(c: Config, v: View): View {
    if !c.enabled then v
    else
      match v.state
      case Open => v
      case Closed => v.(failureCount := 0)
      case HalfOpen =>
        var n := v.successCount + 1;
        if n >= c.successThreshold as nat then CLOSED else v.(successCount := n)
  }

  function RecordFailure(c: Config, v: View, now: nat): View {
    if !c.enabled then v
    else
      match v.state
      case Open => v
      case HalfOpen => v.(state := Open, openedAt := Some(now), successCount := 0)
      case Closed =>
        var n := v.failureCount + 1;
        if n >= c.failureThreshold as nat
        then v.(state := Open, failureCount := n, openedAt := Some(now))
        else v.(failureCount := n)
  }

  /** Counters stay below their thresholds; this is what keeps the 32-bit additions from overflowing. */
  predicate Bounded(c: Config, v: View) {
    && v.failureCount <= AtLeastOne(c.failureThreshold)
    && (v.state == Closed ==> v.failureCount < AtLeastOne(c.failureThreshold))
    && v.successCount < AtLeastOne(c.successThreshold)
  }

  function AtLeastOne(threshold: u32): nat { if threshold == 0 then 1 else threshold as nat }

  class Breaker {
    const config: Config
    var state: CircuitState
    var failureCount: u32
    var successCount: u32
    var openedAt: Option<nat>

    ghost predicate Valid()
      reads this
    {
      Bounded(config, AsView())
    }

    function AsView(): View
      reads this
    {
      View(state, failureCount as nat, successCount as nat, openedAt)
    }

    constructor (config: Config)
      ensures Valid() && this.config == config && AsView() == CLOSED
    {
      this.config := config;
      state, failureCount, successCount, openedAt := Closed, 0, 0, None;
    }

    method ShouldAllowNow(now: nat) returns (allow: bool)
      requires Valid()
      modifies this
      ensures Valid() && (AsView(), allow) == ShouldAllow(config, old(AsView()), now)
    {
      if !config.enabled {
        return true;
      }
      match state
      case Closed => return true;
      case HalfOpen => return true;
      case Open =>
        if openedAt.Some? {
          if Elapsed(openedAt.value, now) >= config.halfOpenTimeout {
            state := HalfOpen;
            successCount := 0;
            return true;
          }
        }
        return false;
    }

    method Succeeded()
      requires Valid()
      modifies this
      ensures Valid() && AsView() == RecordSuccess(config, old(AsView()))
    {
      if !config.enabled {
        return;
      }
      match state
      case Closed => failureCount := 0;
      case HalfOpen =>
        successCount := successCount + 1;
        if successCount >= config.successThreshold {
          state := Closed;
          failureCount := 0;
          successCount := 0;
          openedAt := None;
        }
      case Open =>
    }

    method Failed(now: nat)
      requires Valid()
      modifies this
      ensures Valid() && AsView() == RecordFailure(config, old(AsView()), now)
    {
      if !config.enabled {
        return;
      }
      match state
      case Closed =>
        failureCount := failureCount + 1;
        if failureCount >= config.failureThreshold {
          state := Open;
          openedAt := Some(now);
        }
      case HalfOpen =>
        state := Open;
        openedAt := Some(now);
        successCount := 0;
      case Open =>
    }
  }

  // ── The log of publish attempts ────────────────────────────────────────

  datatype Verdict = Denied | Delivered | Errored

  /** One call of the publish path: when the breaker was asked, whether the sink would accept,
      and when the sink's answer was recorded. */
  datatype Attempt = Attempt(asked: nat, sinkAccepts: bool, answered: nat)

  function PublishAttempt(c: Config, v: View, a: Attempt): (View, Verdict) {
    var (v', allow) := ShouldAllow(c, v, a.asked);
    if !allow then (v', Denied)
    else if a.sinkAccepts then (RecordSuccess(c, v'), Delivered)
    else (RecordFailure(c, v', a.answered), Errored)
  }

  function Replay(c: Config, log: seq<Attempt>): View {
    if log == [] then CLOSED
    else PublishAttempt(c, Replay(c, log[..|log| - 1]), log[|log| - 1]).0
  }

  /** The verdict of the i-th attempt. */
  function VerdictAt(c: Config, log: seq<Attempt>, i: nat): Verdict
    requires i < |log|
  {
    PublishAttempt(c, Replay(c, log[..i]), log[i]).1
  }

  /** Errors since the last delivery, skipping denials: the trailing failure run. */
  function TrailingErrors(c: Config, log: seq<Attempt>): nat {
    if log == [] then 0
    else
      var n := |log| - 1;
      match VerdictAt(c, log, n)
      case Delivered => 0
      case Errored => 1 + TrailingErrors(c, log[..n])
      case Denied => TrailingErrors(c, log[..n])
  }

  /** Deliveries since the last error. */
  function TrailingDeliveries(c: Config, log: seq<Attempt>): nat {
    if log == [] then 0
    else
      var n := |log| - 1;
      match VerdictAt(c, log, n)
      case Delivered => 1 + TrailingDeliveries(c, log[..n])
      case Errored => 0
      case Denied => TrailingDeliveries(c, log[..n])
  }

  /** When the sink last answered with an error. */
  function LastError(c: Config, log: seq<Attempt>): Option<nat> {
    if log == [] then None
    else
      var n := |log| - 1;
      if VerdictAt(c, log, n) == Errored then Some(log[n].answered) else LastError(c, log[..n])
  }

  ghost predicate MonotoneClock(log: seq<Attempt>) {
    && (forall i :: 0 <= i < |log| ==> log[i].asked <= log[i].answered)
    && (forall i, j :: 0 <= i < j < |log| ==> log[i].answered <= log[j].asked)
  }

  /** Closed counts the trailing failure run; open and half-open keep the count that opened the
      circuit and the time of the last error; half-open counts the deliveries since that error. */
  lemma {:induction false} CountersMatchLog(c: Config, log: seq<Attempt>)
    requires c.enabled
    ensures var v := Replay(c, log);
            && Bounded(c, v)
            && (v.state == Closed ==>
                  v.failureCount == TrailingErrors(c, log) && v.successCount == 0 && v.openedAt == None)
            && (v.state != Closed ==>
                  && v.failureCount == AtLeastOne(c.failureThreshold)
                  && v.openedAt == LastError(c, log) && v.openedAt.Some?)
            && (v.state == Open ==> TrailingDeliveries(c, log) == 0)
            && (v.state == HalfOpen ==> v.successCount == TrailingDeliveries(c, log) > 0)
  {
    if log != [] {
      var front := log[..|log| - 1];
      CountersMatchLog(c, front);
      VerdictOfPrefix(c, log, |log| - 1, |log| - 1);
    }
  }

  lemma VerdictOfPrefix(c: Config, log: seq<Attempt>, n: nat, i: nat)
    requires n <= |log|
    ensures i < n ==> VerdictAt(c, log[..n], i) == VerdictAt(c, log, i)
    ensures i <= n ==> Replay(c, log[..n][..i]) == Replay(c, log[..i])
  {
    if i <= n {
      assert log[..n][..i] == log[..i];
    }
  }

  /** Where one more attempt that gets through leaves the circuit: a delivery closes it exactly when it was closed
      or the deliveries since the last error reach their threshold, and an error opens it exactly when it was not
      closed or the trailing errors reach theirs. */
  lemma StateAfterExactly(c: Config, log: seq<Attempt>, a: Attempt)
    requires c.enabled
    ensures var v := Replay(c, log);
            var verdict := PublishAttempt(c, v, a).1;
            var state := Replay(c, log + [a]).state;
            && (verdict == Delivered ==>
                  && state != Open
                  && (state == Closed <==>
                        v.state == Closed || TrailingDeliveries(c, log + [a]) >= c.successThreshold as nat))
            && (verdict == Errored ==>
                  && state != HalfOpen
                  && (state == Open <==>
                        v.state != Closed || TrailingErrors(c, log + [a]) >= c.failureThreshold as nat))
            && (verdict == Denied ==> Replay(c, log + [a]) == v)
  {
    CountersMatchLog(c, log);
    assert (log + [a])[..|log|] == log;
  }

  /** An attempt that leaves the circuit open with a new opening time. */
  ghost predicate OpensAt(c: Config, log: seq<Attempt>, i: nat)
    requires i < |log|
  {
    VerdictAt(c, log, i) == Errored && Replay(c, log[..i + 1]).state == Open
  }

  ghost predicate DeniedBetween(c: Config, log: seq<Attempt>, i: nat, j: nat)
    requires j <= |log|
  {
    forall k :: i < k < j ==> VerdictAt(c, log, k) == Denied
  }

  /** While nothing has been let through since an opening, the circuit stays open on that opening. */
  lemma {:induction false} OpenUntilAllowed(c: Config, log: seq<Attempt>, i: nat, j: nat)
    requires c.enabled && i < j <= |log|
    requires OpensAt(c, log, i) && DeniedBetween(c, log, i, j)
    ensures Replay(c, log[..j]).state == Open
    ensures Replay(c, log[..j]).openedAt == Some(log[i].answered)
  {
    assert log[..j][..j - 1] == log[..j - 1];
    if j == i + 1 {
    } else {
      OpenUntilAllowed(c, log, i, j - 1);
      assert VerdictAt(c, log, j - 1) == Denied;
    }
  }

  /** Conversely an open circuit was opened by some attempt, and only denials followed it. */
  lemma {:induction false} OpenWasOpened(c: Config, log: seq<Attempt>, j: nat) returns (i: nat)
    requires c.enabled && j <= |log| && Replay(c, log[..j]).state == Open
    ensures i < j && OpensAt(c, log, i) && DeniedBetween(c, log, i, j)
  {
    assert log[..j][..j - 1] == log[..j - 1];
    if VerdictAt(c, log, j - 1) == Errored {
      i := j - 1;
    } else {
      i := OpenWasOpened(c, log, j - 1);
    }
  }

  /** Exactly when the sink is not called: an opening with nothing let through since, less than
      the timeout ago. */
  lemma DeniedExactly(c: Config, log: seq<Attempt>, j: nat)
    requires c.enabled && j < |log|
    ensures VerdictAt(c, log, j) == Denied
       <==> exists i :: 0 <= i < j && OpensAt(c, log, i) && DeniedBetween(c, log, i, j)
                        && Elapsed(log[i].answered, log[j].asked) < c.halfOpenTimeout
  {
    if VerdictAt(c, log, j) == Denied {
      var i := OpenWasOpened(c, log, j);
      OpenUntilAllowed(c, log, i, j);
    }
    if i :| 0 <= i < j && OpensAt(c, log, i) && DeniedBetween(c, log, i, j)
            && Elapsed(log[i].answered, log[j].asked) < c.halfOpenTimeout {
      OpenUntilAllowed(c, log, i, j);
    }
  }

  /** No sink call within the timeout after any opening. */
  lemma {:induction false} QuietAfterOpening(c: Config, log: seq<Attempt>, i: nat, j: nat)
    requires c.enabled && MonotoneClock(log) && i < j < |log|
    requires OpensAt(c, log, i) && Elapsed(log[i].answered, log[j].asked) < c.halfOpenTimeout
    ensures VerdictAt(c, log, j) == Denied
    decreases j
  {
    forall k | i < k < j
      ensures VerdictAt(c, log, k) == Denied
    {
      QuietAfterOpening(c, log, i, k);
    }
    DeniedExactly(c, log, j);
  }

  /** "Exactly one probe" is true only of success thresholds 0 and 1: with a larger one a delivered
      probe leaves the circuit half-open, and half-open lets every later request through. */
  lemma OneProbeExactly(c: Config, v: View, now: nat)
    requires c.enabled && v.state == Open && v.openedAt.Some? && Elapsed(v.openedAt.value, now) >= c.halfOpenTimeout
    ensures (forall a: Attempt :: a.asked == now ==> PublishAttempt(c, v, a).0.state != HalfOpen)
       <==> c.successThreshold <= 1
    ensures forall a: Attempt :: a.asked == now ==> PublishAttempt(c, v, a).1 != Denied
  {
    var probe := Attempt(now, true, now);
    assert PublishAttempt(c, v, probe).0.state == HalfOpen <==> c.successThreshold > 1;
  }
}
