/** How many publish attempts it takes to get rid of a backlog, whatever the sink and the breaker do. */
module Drain {
  import opened Common
  import opened Ids
  import opened Outbox
  import opened Retention
  import opened WorkerLoop

  /** A live pipeline with a dead-letter queue. */
  ghost predicate Draining(c: Config) {
    c.dlqEnabled && !c.dryRun && c.replay.None? && c.batchSize >= 1
  }

  /** Polls, dead-letter writes and checkpoints succeed and nobody stops the worker; the sink, the size
      limits and the clock are free. */
  ghost predicate Healthy(t: Tick) {
    !t.stop && t.poll == Fine && t.dlq == Fine && t.commit == Committed && !t.stopInSleep
  }

  /** All is well throughout, and no rows come or go. */
  ghost predicate AllHealthy(rows: Rows, moments: seq<Moment>) {
    forall i :: 0 <= i < |moments| ==> moments[i].rows == rows && Healthy(moments[i].tick)
  }

  ghost predicate IdsPositive(rows: Rows) {
    forall i :: i in rows ==> 0 <= i
  }

  function Backlog(c: Config, rows: Rows, v: View): set<int> {
    IdsAfter(rows, c.key.outbox, v.last)
  }

  /** `n * (maxRetries + 1)`. */
  function Budget(n: nat, maxRetries: nat): nat {
    if n == 0 then 0 else Budget(n - 1, maxRetries) + maxRetries + 1
  }

  lemma {:induction false} BudgetIsProduct(n: nat, maxRetries: nat)
    ensures Budget(n, maxRetries) == n * (maxRetries + 1)
  {
    if n > 0 {
      BudgetIsProduct(n - 1, maxRetries);
      assert n * (maxRetries + 1) == (n - 1) * (maxRetries + 1) + (maxRetries + 1);
    }
  }

  lemma {:induction false} BudgetGrows(a: nat, b: nat, maxRetries: nat)
    requires a < b
    ensures Budget(a, maxRetries) + maxRetries + 1 <= Budget(b, maxRetries)
    decreases b
  {
    if a < b - 1 {
      BudgetGrows(a, b - 1, maxRetries);
    }
  }

  /** The attempts still allowed for `n` rows: the budget less the failures already counted. */
  function Allowed(n: nat, maxRetries: nat, failures: nat): nat {
    if n == 0 then 0 else Budget(n - 1, maxRetries) + 1 + maxRetries - Min(failures, maxRetries)
  }

  function Potential(c: Config, rows: Rows, v: View): nat {
    Allowed(|Backlog(c, rows, v)|, c.maxRetries, v.failures)
  }

  lemma FewerRows(k: nat, n: nat, maxRetries: nat, failures: nat)
    requires k < n
    ensures Allowed(k, maxRetries, 0) + 1 <= Allowed(n, maxRetries, failures)
    ensures k + 1 == n && failures == maxRetries ==> Allowed(k, maxRetries, 0) + 1 == Allowed(n, maxRetries, failures)
  {
    if k > 0 {
      BudgetGrows(k - 1, n - 1, maxRetries);
    }
  }

  // ── One iteration ──────────────────────────────────────────────────────

  /** What a healthy iteration does to a nonempty backlog: it either disposes of the whole polled batch, or
      keeps it and counts one more failure, below the limit. */
  ghost predicate Disposes(c: Config, v: View, w: View, ids: seq<int>) {
    ids != [] && w.last == ids[|ids| - 1] && w.settled == v.settled + ids && w.failures == 0
  }

  ghost predicate Retries(c: Config, v: View, w: View) {
    w.last == v.last && w.settled == v.settled && w.failures == v.failures + 1 <= c.maxRetries
  }

  lemma DeliverProgress(c: Config, v: View, ids: seq<int>, t: Tick)
    requires Draining(c) && Healthy(t) && ids != [] && v.last < ids[|ids| - 1] && 0 <= ids[|ids| - 1]
    ensures var r := Deliver(c, v, ids[|ids| - 1], ids, t);
            && r.control == Continue && r.attempted
            && (Disposes(c, v, r.view, ids) || Retries(c, v, r.view))
  {
  }

  lemma IterationProgress(c: Config, rows: Rows, v: View, t: Tick)
    requires Draining(c) && Healthy(t) && IdsPositive(rows)
    ensures var r := Iterate(c, rows, v, t);
            var ids := Poll(c, rows, v.last);
            && r.control == Continue && (r.attempted <==> Backlog(c, rows, v) != {})
            && (ids == [] <==> Backlog(c, rows, v) == {})
            && (ids == [] ==> r.view.last == v.last && r.view.settled == v.settled)
            && (ids != [] ==> Disposes(c, v, r.view, ids) || Retries(c, v, r.view))
  {
    hide SelectAfter, Deliver;
    var ids := Poll(c, rows, v.last);
    PollNonempty(c, rows, v);
    if ids != [] {
      assert ids[|ids| - 1] in ids;
      DeliverProgress(c, v.(backoff := c.pollInterval), ids, t);
    }
  }

  lemma PollNonempty(c: Config, rows: Rows, v: View)
    requires c.batchSize >= 1
    ensures Poll(c, rows, v.last) == [] <==> Backlog(c, rows, v) == {}
  {
    hide SelectAfter;
    var ids := Poll(c, rows, v.last);
    if ids != [] {
      assert ids[0] in ids;
      assert ids[0] in Backlog(c, rows, v);
    }
  }

  // ── The backlog ────────────────────────────────────────────────────────

  /** Polling cuts the head off the backlog. */
  lemma PollCuts(rows: Rows, o: string, last: int, limit: nat)
    requires SelectAfter(rows, o, last, limit) != []
    ensures var ids := SelectAfter(rows, o, last, limit);
            && SortedIds(IdsAfter(rows, o, last)) == ids + SortedIds(IdsAfter(rows, o, ids[|ids| - 1]))
            && |IdsAfter(rows, o, last)| == |ids| + |IdsAfter(rows, o, ids[|ids| - 1])|
  {
    hide SelectAfter, SortedIds;
    var ids := SelectAfter(rows, o, last, limit);
    var top := ids[|ids| - 1];
    var all, rest := SortedIds(IdsAfter(rows, o, last)), SortedIds(IdsAfter(rows, o, top));
    LastIsTop(ids);
    assert top in ids;
    AscendingJoin(ids, rest, top);
    forall x: int
      ensures x in all <==> x in ids + rest
    {
      if x in ids { assert x in IdsAfter(rows, o, last); }
    }
    AscendingUnique(all, ids + rest);
  }

  /** Every iteration over a nonempty backlog uses up some of the potential. */
  lemma PotentialFalls(c: Config, rows: Rows, v: View, w: View)
    requires c.batchSize >= 1 && Backlog(c, rows, v) != {}
    requires Disposes(c, v, w, Poll(c, rows, v.last)) || Retries(c, v, w)
    ensures Potential(c, rows, w) + 1 <= Potential(c, rows, v)
  {
    hide SelectAfter, IdsAfter, Budget, Ids.SortedIds;
    if Retries(c, v, w) {
      assert |Backlog(c, rows, v)| > 0;
    } else {
      PollNonempty(c, rows, v);
      PollCuts(rows, c.key.outbox, v.last, c.batchSize);
      FewerRows(|Backlog(c, rows, w)|, |Backlog(c, rows, v)|, c.maxRetries, v.failures);
    }
  }

  // ── Whole runs ─────────────────────────────────────────────────────────

  /** The publish attempts of a run. */
  function Attempts(c: Config, v: View, moments: seq<Moment>): nat
    decreases |moments|
  {
    if moments == [] then 0
    else
      var r := Iterate(c, moments[0].rows, v, moments[0].tick);
      (if r.attempted then 1 else 0) + (if r.control == Continue then Attempts(c, r.view, moments[1..]) else 0)
  }

  /** However the sink, the limits and the breaker behave, a backlog never costs more attempts than its
      potential, at most `maxRetries + 1` for each row. */
  lemma {:induction false} AttemptsBounded(c: Config, rows: Rows, v: View, moments: seq<Moment>)
    requires Draining(c) && AllHealthy(rows, moments) && IdsPositive(rows)
    ensures Attempts(c, v, moments) <= Potential(c, rows, v)
    decreases |moments|
  {
    hide Iterate, Potential, Backlog;
    if moments != [] {
      var r := Iterate(c, rows, v, moments[0].tick);
      IterationProgress(c, rows, v, moments[0].tick);
      AttemptsBounded(c, rows, r.view, moments[1..]);
      if Backlog(c, rows, v) != {} {
        PotentialFalls(c, rows, v, r.view);
      } else {
        NoBacklog(c, rows, v, r.view);
      }
    }
  }

  lemma NoBacklog(c: Config, rows: Rows, v: View, w: View)
    requires Backlog(c, rows, v) == {} && w.last == v.last
    ensures Backlog(c, rows, w) == {} && Potential(c, rows, w) == 0
  {
  }

  lemma PotentialWithinBudget(c: Config, rows: Rows, v: View)
    ensures Potential(c, rows, v) <= |Backlog(c, rows, v)| * (c.maxRetries + 1)
  {
    BudgetIsProduct(|Backlog(c, rows, v)|, c.maxRetries);
  }

  /** As many healthy iterations as the potential drain the backlog completely: every outstanding row is
      disposed of exactly once and in order, and the worker keeps running. */
  lemma {:induction false} DrainsCompletely(c: Config, rows: Rows, v: View, moments: seq<Moment>)
    requires Draining(c) && AllHealthy(rows, moments) && IdsPositive(rows)
    requires Potential(c, rows, v) <= |moments|
    ensures var r := Run(c, v, moments);
            && r.control == Continue && Backlog(c, rows, r.view) == {}
            && r.view.settled == v.settled + SortedIds(Backlog(c, rows, v))
    decreases |moments|
  {
    hide Iterate, SelectAfter, IdsAfter, SortedIds;
    if Backlog(c, rows, v) == {} {
      StaysDrained(c, rows, v, moments);
      assert SortedIds({}) == [];
    } else {
      PotentialPositive(c, rows, v);
      var r := Iterate(c, rows, v, moments[0].tick);
      IterationProgress(c, rows, v, moments[0].tick);
      PotentialFalls(c, rows, v, r.view);
      DrainsCompletely(c, rows, r.view, moments[1..]);
      if !Retries(c, v, r.view) {
        PollCuts(rows, c.key.outbox, v.last, c.batchSize);
      }
    }
  }

  /** A worker started on a backlog resumes right above its recorded checkpoint, or at the beginning if it has
      none, and drains exactly that: every stored row of its outbox above it, once and in order. */
  lemma RestartDrains(c: Config, rows: Rows, offsets: map<Key, int>, moments: seq<Moment>)
    requires Draining(c) && AllHealthy(rows, moments) && IdsPositive(rows)
    requires |Outstanding(c.key, rows, offsets)| * (c.maxRetries + 1) <= |moments|
    ensures var r := Run(c, Start(c, offsets), moments);
            r.control == Continue && r.view.settled == SortedIds(Outstanding(c.key, rows, offsets))
  {
    hide Iterate, Run, SortedIds;
    var v := Start(c, offsets);
    assert Backlog(c, rows, v) == Outstanding(c.key, rows, offsets);
    PotentialWithinBudget(c, rows, v);
    DrainsCompletely(c, rows, v, moments);
    assert [] + SortedIds(Outstanding(c.key, rows, offsets)) == SortedIds(Outstanding(c.key, rows, offsets));
  }

  function Outstanding(k: Key, rows: Rows, offsets: map<Key, int>): set<int> {
    set i | i in rows && rows[i].outbox == k.outbox && (if k in offsets then offsets[k] else 0) < i
  }

  lemma PotentialPositive(c: Config, rows: Rows, v: View)
    requires Backlog(c, rows, v) != {}
    ensures Potential(c, rows, v) >= 1
  {
  }

  lemma {:induction false} StaysDrained(c: Config, rows: Rows, v: View, moments: seq<Moment>)
    requires Draining(c) && AllHealthy(rows, moments) && IdsPositive(rows) && Backlog(c, rows, v) == {}
    ensures var r := Run(c, v, moments);
            r.control == Continue && Backlog(c, rows, r.view) == {} && r.view.settled == v.settled
    decreases |moments|
  {
    hide Iterate, Backlog;
    if moments != [] {
      IterationProgress(c, rows, v, moments[0].tick);
      var w := Iterate(c, rows, v, moments[0].tick).view;
      NoBacklog(c, rows, v, w);
      StaysDrained(c, rows, w, moments[1..]);
    }
  }

  lemma {:induction false} SettledExtends(c: Config, rows: Rows, v: View, moments: seq<Moment>)
    requires Draining(c) && AllHealthy(rows, moments) && IdsPositive(rows)
    ensures v.settled <= Run(c, v, moments).view.settled
    decreases |moments|
  {
    hide Iterate, SelectAfter, IdsAfter;
    if moments != [] {
      IterationProgress(c, rows, v, moments[0].tick);
      SettledExtends(c, rows, Iterate(c, rows, v, moments[0].tick).view, moments[1..]);
    }
  }

  /** Each single batch is disposed of, whole and in order, within `maxRetries + 1` attempts, less the
      failures already counted. */
  lemma {:induction false} BatchDisposedInTime(c: Config, rows: Rows, v: View, moments: seq<Moment>)
    requires Draining(c) && AllHealthy(rows, moments) && IdsPositive(rows) && Backlog(c, rows, v) != {}
    requires moments != [] && |moments| + v.failures >= c.maxRetries + 1
    ensures v.settled + Poll(c, rows, v.last) <= Run(c, v, moments).view.settled
    decreases |moments|
  {
    hide Iterate, SelectAfter, IdsAfter;
    IterationProgress(c, rows, v, moments[0].tick);
    var w := Iterate(c, rows, v, moments[0].tick).view;
    SettledExtends(c, rows, w, moments[1..]);
    if Retries(c, v, w) {
      BatchDisposedInTime(c, rows, w, moments[1..]);
    }
  }

  // ── The bound is attained ──────────────────────────────────────────────

  /** The sink refuses everything, always transiently. */
  const REFUSED: Tick := Tick(false, Fine, None, 0, 0, Refused({}, true), Fine, false, Committed, false)

  lemma RefusedDelivery(c: Config, v: View, ids: seq<int>)
    requires Draining(c) && !c.breaker.enabled && v.failures <= c.maxRetries
    requires ids != [] && v.last < ids[|ids| - 1] && 0 <= ids[|ids| - 1]
    ensures var w := Deliver(c, v, ids[|ids| - 1], ids, REFUSED).view;
            if v.failures == c.maxRetries then Disposes(c, v, w, ids) else Retries(c, v, w)
  {
  }

  lemma RefusedIteration(c: Config, rows: Rows, v: View)
    requires Draining(c) && !c.breaker.enabled && v.failures <= c.maxRetries
    requires IdsPositive(rows) && Poll(c, rows, v.last) != []
    ensures var w := Iterate(c, rows, v, REFUSED).view;
            if v.failures == c.maxRetries then Disposes(c, v, w, Poll(c, rows, v.last)) else Retries(c, v, w)
  {
    hide SelectAfter, Deliver;
    var ids := Poll(c, rows, v.last);
    assert ids[|ids| - 1] in ids;
    RefusedDelivery(c, v.(backoff := c.pollInterval), ids);
  }

  lemma RefusalCosts(c: Config, rows: Rows, v: View)
    requires Draining(c) && c.batchSize == 1 && !c.breaker.enabled && IdsPositive(rows)
    requires v.failures <= c.maxRetries && Backlog(c, rows, v) != {}
    ensures var r := Iterate(c, rows, v, REFUSED);
            && r.attempted && r.control == Continue && r.view.failures <= c.maxRetries
            && Potential(c, rows, r.view) + 1 == Potential(c, rows, v)
  {
    hide Iterate, SelectAfter, IdsAfter, Budget, SortedIds;
    PollNonempty(c, rows, v);
    IterationProgress(c, rows, v, REFUSED);
    RefusedIteration(c, rows, v);
    var n := |Backlog(c, rows, v)|;
    assert n > 0;
    if v.failures == c.maxRetries {
      PollCuts(rows, c.key.outbox, v.last, 1);
      PollSize(c, rows, v);
      FewerRows(n - 1, n, c.maxRetries, v.failures);
    }
  }

  lemma PollSize(c: Config, rows: Rows, v: View)
    ensures |Poll(c, rows, v.last)| == Min(c.batchSize, |Backlog(c, rows, v)|)
  {
  }

  /** With batches of one and a sink that always refuses, `n` outstanding rows really take
      `n * (maxRetries + 1)` attempts: the bound cannot be improved. */
  lemma {:induction false} BoundAttained(c: Config, rows: Rows, v: View, moments: seq<Moment>)
    requires Draining(c) && c.batchSize == 1 && !c.breaker.enabled && IdsPositive(rows) && v.failures <= c.maxRetries
    requires (forall i :: 0 <= i < |moments| ==> moments[i] == Moment(rows, REFUSED)) && Potential(c, rows, v) <= |moments|
    ensures Attempts(c, v, moments) == Potential(c, rows, v)
    ensures v.failures == 0 ==> Potential(c, rows, v) == |Backlog(c, rows, v)| * (c.maxRetries + 1)
    decreases |moments|
  {
    hide Iterate, Backlog;
    BudgetIsProduct(|Backlog(c, rows, v)|, c.maxRetries);
    if Backlog(c, rows, v) != {} {
      PotentialPositive(c, rows, v);
      RefusalCosts(c, rows, v);
      BoundAttained(c, rows, Iterate(c, rows, v, REFUSED).view, moments[1..]);
    } else {
      AttemptsBounded(c, rows, v, moments);
      NoBacklog(c, rows, v, v);
    }
  }

  /** In particular a freshly started worker has the whole bound to go. */
  lemma FreshBoundAttained(c: Config, rows: Rows, offsets: map<Key, int>, moments: seq<Moment>)
    requires Draining(c) && c.batchSize == 1 && !c.breaker.enabled && IdsPositive(rows)
    requires forall i :: 0 <= i < |moments| ==> moments[i] == Moment(rows, REFUSED)
    requires |Outstanding(c.key, rows, offsets)| * (c.maxRetries + 1) <= |moments|
    ensures Attempts(c, Start(c, offsets), moments) == |Outstanding(c.key, rows, offsets)| * (c.maxRetries + 1)
  {
    hide Attempts, Iterate;
    var v := Start(c, offsets);
    assert Backlog(c, rows, v) == Outstanding(c.key, rows, offsets);
    PotentialWithinBudget(c, rows, v);
    BoundAttained(c, rows, v, moments);
  }
}
