/** The coordinator of one relay process: which pipelines it owns, and what it reports about their health
    while its workers report at the same time. */
module Coordinator {
  import opened Common
  import opened Ids
  import opened Upsert

  datatype Mark = Mark(pipeline: string, healthy: bool)

  datatype Lists = Lists(healthy: seq<string>, unhealthy: seq<string>)

  // ── Health marks ───────────────────────────────────────────────────────

  /** `retain(|name| name != pipeline)`. */
  function Without(names: seq<string>, pipeline: string): seq<string> {
    if names == [] then []
    else
      var n := |names| - 1;
      Without(names[..n], pipeline) + (if names[n] != pipeline then [names[n]] else [])
  }

  lemma NoDupSnoc(names: seq<string>, x: string)
    requires NoDup(names) && x !in names
    ensures NoDup(names + [x])
  {
    forall i, j | 0 <= i < j < |names| + 1
      ensures (names + [x])[i] != (names + [x])[j]
    {
      assert names == (names + [x])[..|names|];
      if j == |names| { assert names[i] in names; }
    }
  }

  lemma {:induction false} WithoutSpec(names: seq<string>, pipeline: string)
    ensures forall x :: x in Without(names, pipeline) <==> x in names && x != pipeline
    ensures NoDup(names) ==> NoDup(Without(names, pipeline))
    decreases |names|
  {
    if names != [] {
      var n := |names| - 1;
      var rest := Without(names[..n], pipeline);
      WithoutSpec(names[..n], pipeline);
      assert names == names[..n] + [names[n]];
      if NoDup(names) && names[n] != pipeline {
        assert names[n] !in names[..n];
        NoDupSnoc(rest, names[n]);
      }
    }
  }

  function AfterMark(l: Lists, m: Mark): Lists {
    var healthy, unhealthy := Without(l.healthy, m.pipeline), Without(l.unhealthy, m.pipeline);
    if m.healthy then Lists(healthy + [m.pipeline], unhealthy) else Lists(healthy, unhealthy + [m.pipeline])
  }

  function AfterMarks(l: Lists, marks: seq<Mark>): Lists {
    if marks == [] then l else AfterMark(AfterMarks(l, marks[..|marks| - 1]), marks[|marks| - 1])
  }

  /** No pipeline is listed twice, in one list or across both. */
  ghost predicate ListsInv(l: Lists) {
    NoDup(l.healthy) && NoDup(l.unhealthy) && forall x :: x in l.healthy ==> x !in l.unhealthy
  }

  /** The two lists partition the owned pipelines. */
  ghost predicate Partition(owned: set<string>, l: Lists) {
    ListsInv(l) && forall x :: x in owned <==> x in l.healthy || x in l.unhealthy
  }

  lemma MarkKeepsLists(l: Lists, m: Mark)
    requires ListsInv(l)
    ensures ListsInv(AfterMark(l, m))
    ensures forall x :: (x in AfterMark(l, m).healthy <==> if x == m.pipeline then m.healthy else x in l.healthy)
                        && (x in AfterMark(l, m).unhealthy <==> if x == m.pipeline then !m.healthy else x in l.unhealthy)
  {
    WithoutSpec(l.healthy, m.pipeline);
    WithoutSpec(l.unhealthy, m.pipeline);
    NoDupSnoc(Without(l.healthy, m.pipeline), m.pipeline);
    NoDupSnoc(Without(l.unhealthy, m.pipeline), m.pipeline);
  }

  lemma {:induction false} MarksKeepLists(l: Lists, marks: seq<Mark>)
    requires ListsInv(l)
    ensures ListsInv(AfterMarks(l, marks))
    decreases |marks|
  {
    if marks != [] {
      MarksKeepLists(l, marks[..|marks| - 1]);
      MarkKeepsLists(AfterMarks(l, marks[..|marks| - 1]), marks[|marks| - 1]);
    }
  }

  lemma {:induction false} MarksAppend(l: Lists, a: seq<Mark>, b: seq<Mark>)
    ensures AfterMarks(l, a + b) == AfterMarks(AfterMarks(l, a), b)
    decreases |b|
  {
    if b == [] {
      assert a + b == a;
    } else {
      var c := b[..|b| - 1];
      MarksAppend(l, a, c);
      assert (a + b)[..|a + b| - 1] == a + c;
    }
  }

  /** The reports of the waiting points from number `first` on and before number `next`. */
  function Gathered(reports: nat -> seq<Mark>, first: nat, next: nat): seq<Mark>
    decreases next
  {
    if next <= first then [] else Gathered(reports, first, next - 1) + reports(next - 1)
  }

  /** Waiting once more, from lists that are those after the reports so far. */
  lemma GatherOne(l: Lists, reports: nat -> seq<Mark>, first: nat, next: nat)
    requires first <= next
    ensures AfterMarks(AfterMarks(l, Gathered(reports, first, next)), reports(next))
         == AfterMarks(l, Gathered(reports, first, next + 1))
  {
    MarksAppend(l, Gathered(reports, first, next), reports(next));
  }

  lemma {:induction false} GatherMore(l: Lists, reports: nat -> seq<Mark>, first: nat, mid: nat, next: nat)
    requires first <= mid <= next
    ensures AfterMarks(AfterMarks(l, Gathered(reports, first, mid)), Gathered(reports, mid, next))
         == AfterMarks(l, Gathered(reports, first, next))
    decreases next
  {
    hide AfterMarks;
    if mid < next {
      GatherMore(l, reports, first, mid, next - 1);
      GatherOne(l, reports, first, next - 1);
      GatherOne(AfterMarks(l, Gathered(reports, first, mid)), reports, mid, next - 1);
    } else {
      NoReports(AfterMarks(l, Gathered(reports, first, mid)), reports, mid);
    }
  }

  lemma NoReports(l: Lists, reports: nat -> seq<Mark>, first: nat)
    ensures AfterMarks(l, Gathered(reports, first, first)) == l
  {
  }

  /** The last word about a pipeline. */
  function LastMark(marks: seq<Mark>, x: string): Option<bool> {
    if marks == [] then None
    else
      var n := |marks| - 1;
      if marks[n].pipeline == x then Some(marks[n].healthy) else LastMark(marks[..n], x)
  }

  /** After any reports a pipeline is listed by its last one, and without one where it was before. So a
      pipeline whose worker exits, with an unhealthy mark, does not stay listed as healthy. */
  lemma {:induction false} LastMarkWins(l: Lists, marks: seq<Mark>, x: string)
    requires ListsInv(l)
    ensures var after := AfterMarks(l, marks);
            var last := LastMark(marks, x);
            && (x in after.healthy <==> if last.Some? then last.value else x in l.healthy)
            && (x in after.unhealthy <==> if last.Some? then !last.value else x in l.unhealthy)
    decreases |marks|
  {
    if marks != [] {
      var front := marks[..|marks| - 1];
      LastMarkWins(l, front, x);
      MarksKeepLists(l, front);
      MarkKeepsLists(AfterMarks(l, front), marks[|marks| - 1]);
    }
  }

  /** A report between two reconciliations keeps the partition exactly when it comes from an owned pipeline. */
  lemma MarkKeepsPartitionExactly(owned: set<string>, l: Lists, m: Mark)
    requires Partition(owned, l)
    ensures Partition(owned, AfterMark(l, m)) <==> m.pipeline in owned
  {
    MarkKeepsLists(l, m);
  }

  // ── Ownership ──────────────────────────────────────────────────────────

  /** What trying to take over one pipeline comes to. */
  datatype Acquisition = SecretUnresolved | AcquireFailed | LockHeldElsewhere | Acquired

  /** Goes through the catalog in order and takes over what it can until the limit is reached. */
  function TakeOver(owned: set<string>, catalog: seq<string>, limit: nat, acquire: string -> Acquisition): set<string>
    decreases |catalog|
  {
    if catalog == [] then owned
    else if catalog[0] in owned then TakeOver(owned, catalog[1..], limit, acquire)
    else if |owned| >= limit then owned
    else TakeOver(if acquire(catalog[0]) == Acquired then owned + {catalog[0]} else owned, catalog[1..], limit, acquire)
  }

  /** Taking over never drops a pipeline, never exceeds the limit, only adds pipelines of the catalog whose
      lock was obtained, and below the limit misses none of them. */
  lemma {:induction false} TakeOverSpec(
      owned: set<string>, catalog: seq<string>, limit: nat, acquire: string -> Acquisition)
    requires |owned| <= limit
    ensures var r := TakeOver(owned, catalog, limit, acquire);
            && owned <= r && |r| <= limit
            && (forall x :: x in r ==> x in owned || (x in catalog && acquire(x) == Acquired))
            && (|r| < limit ==> forall x :: x in catalog && acquire(x) == Acquired ==> x in r)
    decreases |catalog|
  {
    if catalog != [] && !(catalog[0] !in owned && |owned| >= limit) {
      var next := if catalog[0] !in owned && acquire(catalog[0]) == Acquired then owned + {catalog[0]} else owned;
      TakeOverSpec(next, catalog[1..], limit, acquire);
      assert catalog == [catalog[0]] + catalog[1..];
    }
  }

  /** And it goes by the order of the catalog: a pipeline is taken over only if every earlier one whose lock could
      be obtained is owned as well. */
  lemma {:induction false} TakenInOrder(
      owned: set<string>, catalog: seq<string>, limit: nat, acquire: string -> Acquisition, i: nat, j: nat)
    requires |owned| <= limit && NoDup(catalog) && i < j < |catalog|
    requires catalog[j] in TakeOver(owned, catalog, limit, acquire) && catalog[j] !in owned
    requires acquire(catalog[i]) == Acquired
    ensures catalog[i] in TakeOver(owned, catalog, limit, acquire)
    decreases |catalog|
  {
    var x, rest := catalog[0], catalog[1..];
    var next := if x !in owned && acquire(x) == Acquired then owned + {x} else owned;
    assert !(x !in owned && |owned| >= limit);
    TakeOverSpec(next, rest, limit, acquire);
    if i > 0 {
      assert rest[i - 1] == catalog[i] && rest[j - 1] == catalog[j] && catalog[j] != x;
      TakenInOrder(next, rest, limit, acquire, i - 1, j - 1);
    }
  }

  // ── The process ────────────────────────────────────────────────────────

  /** The health state shared between the coordinator and its workers. */
  class HealthState {
    var preflightComplete: bool
    var postgresReachable: bool
    var coordinatorReady: bool
    var healthy: seq<string>
    var unhealthy: seq<string>

    constructor ()
      ensures AsLists() == Lists([], []) && !coordinatorReady
    {
      preflightComplete, postgresReachable, coordinatorReady := false, false, false;
      healthy, unhealthy := [], [];
    }

    function AsLists(): Lists
      reads this
    {
      Lists(healthy, unhealthy)
    }

    method MarkPipelineHealth(m: Mark)
      modifies this`healthy, this`unhealthy
      ensures AsLists() == AfterMark(old(AsLists()), m)
      ensures var named := if m.healthy then healthy else unhealthy;
              |named| > 0 && named[|named| - 1] == m.pipeline
    {
      healthy := RemoveAll(healthy, m.pipeline);
      unhealthy := RemoveAll(unhealthy, m.pipeline);
      if m.healthy {
        healthy := healthy + [m.pipeline];
      } else {
        unhealthy := unhealthy + [m.pipeline];
      }
    }

    /** Workers report while the coordinator waits for something else. */
    method Absorb(marks: seq<Mark>)
      modifies this`healthy, this`unhealthy
      ensures AsLists() == AfterMarks(old(AsLists()), marks)
    {
      for i := 0 to |marks|
        invariant AsLists() == AfterMarks(old(AsLists()), marks[..i])
      {
        assert marks[..i + 1][..i] == marks[..i];
        MarkPipelineHealth(marks[i]);
      }
      assert marks[..|marks|] == marks;
    }
  }

  method RemoveAll(names: seq<string>, pipeline: string) returns (kept: seq<string>)
    ensures kept == Without(names, pipeline)
  {
    kept := [];
    for i := 0 to |names|
      invariant kept == Without(names[..i], pipeline)
    {
      assert names[..i + 1][..i] == names[..i];
      if names[i] != pipeline {
        kept := kept + [names[i]];
      }
    }
    assert names[..|names|] == names;
  }

  /** Everything one reconciliation meets: the workers that have finished, the catalog (or the failure to
      load it), the preflight verdict, the outcome of each take-over, and the reports that arrive at each of
      its waiting points. */
  datatype World = World(
    finished: set<string>, catalog: Option<seq<string>>, preflightOk: bool,
    acquire: string -> Acquisition, reports: nat -> seq<Mark>)

  class Coordinator {
    const limit: nat
    const health: HealthState
    var owned: set<string>

    ghost predicate Valid()
      reads this, health
    {
      |owned| <= limit && ListsInv(health.AsLists())
    }

    constructor (limit: nat)
      ensures Valid() && fresh(health) && this.limit == limit && owned == {}
    {
      this.limit, owned := limit, {};
      health := new HealthState();
    }

    /** Tells every worker to stop and waits for one after the other; those that are still finishing, and
        those that have finished, report on their own meanwhile. */
    method Drain(reports: nat -> seq<Mark>)
      requires Valid()
      modifies this, health`healthy, health`unhealthy
      ensures Valid() && owned == {}
      ensures health.AsLists() == AfterMarks(old(health.AsLists()), Gathered(reports, 0, |old(owned)|))
    {
      hide AfterMarks;
      ghost var start := health.AsLists();
      var workers := |owned|;
      owned := {};
      NoReports(start, reports, 0);
      for point := 0 to workers
        invariant Valid() && owned == {}
        invariant health.AsLists() == AfterMarks(start, Gathered(reports, 0, point))
      {
        GatherOne(start, reports, 0, point);
        Wait(reports(point));
      }
    }

    /** Waiting anywhere lets reports in, and they keep the lists duplicate-free and disjoint. */
    method Wait(marks: seq<Mark>)
      requires Valid()
      modifies health`healthy, health`unhealthy
      ensures Valid() && health.AsLists() == AfterMarks(old(health.AsLists()), marks)
    {
      MarksKeepLists(health.AsLists(), marks);
      health.Absorb(marks);
    }

    /** The last step, under the write lock: unhealthy pipelines that are still owned stay, and every other
        owned pipeline is healthy. */
    method Publish()
      requires Valid()
      modifies health
      ensures Valid() && Partition(owned, health.AsLists())
      ensures health.preflightComplete && health.postgresReachable && health.coordinatorReady
      ensures forall x :: x in health.unhealthy <==> x in owned && x in old(health.unhealthy)
    {
      health.preflightComplete, health.postgresReachable, health.coordinatorReady := true, true, true;
      var unhealthy := RetainOwned(health.unhealthy, owned);
      var healthy := Except(owned, unhealthy);
      health.unhealthy, health.healthy := unhealthy, healthy;
    }

    /** Stops the workers of removed pipelines one after the other, and waits for each. */
    method StopRemoved(pipelines: seq<string>, reports: nat -> seq<Mark>, first: nat) returns (next: nat)
      requires Valid()
      modifies this`owned, health`healthy, health`unhealthy
      ensures Valid() && owned == old(owned) * Names(pipelines) && first <= next
      ensures health.AsLists() == AfterMarks(old(health.AsLists()), Gathered(reports, first, next))
    {
      hide AfterMarks, ListsInv, Gathered, Names;
      ghost var start := health.AsLists();
      ghost var kept := owned * Names(pipelines);
      var removed := owned - Names(pipelines);
      next := first;
      NoReports(start, reports, first);
      while removed != {}
        invariant Valid() && owned == kept + removed && kept !! removed
        invariant first <= next && health.AsLists() == AfterMarks(start, Gathered(reports, first, next))
        decreases removed
      {
        if forall x :: x !in removed { assert false; }
        var x :| x in removed;
        SmallerSet(owned - {x}, owned);
        owned, removed := owned - {x}, removed - {x};
        GatherOne(start, reports, first, next);
        Wait(reports(next));
        next := next + 1;
      }
    }

    /** Takes over pipelines of the catalog in order, up to the limit, and waits at each attempt. */
    method StartMissing(pipelines: seq<string>, acquire: string -> Acquisition, reports: nat -> seq<Mark>, first: nat)
      returns (next: nat)
      requires Valid()
      modifies this`owned, health`healthy, health`unhealthy
      ensures Valid() && owned == TakeOver(old(owned), pipelines, limit, acquire) && first <= next
      ensures health.AsLists() == AfterMarks(old(health.AsLists()), Gathered(reports, first, next))
    {
      hide AfterMarks, ListsInv;
      ghost var start := health.AsLists();
      var i := 0;
      next := first;
      NoReports(start, reports, first);
      while i < |pipelines|
        invariant 0 <= i <= |pipelines| && Valid()
        invariant TakeOver(owned, pipelines[i..], limit, acquire) == TakeOver(old(owned), pipelines, limit, acquire)
        invariant first <= next && health.AsLists() == AfterMarks(start, Gathered(reports, first, next))
      {
        assert pipelines[i..][0] == pipelines[i] && pipelines[i..][1..] == pipelines[i + 1..];
        if pipelines[i] in owned {
          i := i + 1;
          continue;
        }
        if |owned| >= limit {
          break;
        }
        GatherOne(start, reports, first, next);
        Wait(reports(next));
        next := next + 1;
        if acquire(pipelines[i]) == Acquired {
          owned := owned + {pipelines[i]};
        }
        i := i + 1;
      }
    }

    lemma KeptAndTaken(kept: set<string>, catalog: seq<string>, acquire: string -> Acquisition)
      requires |kept| <= limit && kept <= Names(catalog)
      ensures TakeOver(kept, catalog, limit, acquire) <= Names(catalog)
    {
      TakeOverSpec(kept, catalog, limit, acquire);
    }

    /** Stops what is no longer in the catalog and takes over what is missing. */
    method Converge(pipelines: seq<string>, acquire: string -> Acquisition, reports: nat -> seq<Mark>, first: nat)
      returns (next: nat)
      requires Valid()
      modifies this`owned, health`healthy, health`unhealthy
      ensures Valid() && owned == TakeOver(old(owned) * Names(pipelines), pipelines, limit, acquire)
      ensures owned <= Names(pipelines) && first <= next
      ensures health.AsLists() == AfterMarks(old(health.AsLists()), Gathered(reports, first, next))
    {
      hide AfterMarks, ListsInv, Gathered, TakeOver, Names;
      ghost var start := health.AsLists();
      var mid := StopRemoved(pipelines, reports, first);
      KeptAndTaken(owned, pipelines, acquire);
      next := StartMissing(pipelines, acquire, reports, mid);
      GatherMore(start, reports, first, mid, next);
    }

    /** One reconciliation, with reports arriving at each of its `points` waiting points: while it loads the
        catalog, before it takes the health lock, while it resumes, stops and starts pipelines. It completes only
        with a catalog that passes the preflight; then the process owns exactly the pipelines it kept and could
        take over, all of them in the catalog, and the two health lists partition them, by the last reports that
        arrived. Otherwise it only forgets the finished workers. */
    method Reconcile(w: World) returns (completed: bool, points: nat)
      requires Valid()
      modifies this`owned, health
      ensures Valid()
      ensures completed <==> w.catalog.Some? && w.preflightOk
      ensures w.catalog.None? ==>
                !health.postgresReachable && health.preflightComplete == old(health.preflightComplete)
      ensures w.catalog.Some? ==> health.postgresReachable && health.preflightComplete
      ensures !completed ==>
                && owned == old(owned) - w.finished && !health.coordinatorReady
                && health.AsLists() == AfterMarks(old(health.AsLists()), Gathered(w.reports, 0, points))
      ensures completed ==>
                && owned == TakeOver((old(owned) - w.finished) * Names(w.catalog.value), w.catalog.value, limit, w.acquire)
                && owned <= Names(w.catalog.value)
                && Partition(owned, health.AsLists()) && health.coordinatorReady
                && var reported := AfterMarks(old(health.AsLists()), Gathered(w.reports, 0, points));
                   forall x :: x in health.unhealthy <==> x in owned && x in reported.unhealthy
    {
      hide AfterMarks, ListsInv, Gathered, TakeOver, NoDup, Names;
      ghost var start := health.AsLists();
      owned := owned - w.finished;
      SmallerSet(owned, old(owned));
      NoReports(start, w.reports, 0);
      GatherOne(start, w.reports, 0, 0);
      Wait(w.reports(0));
      GatherOne(start, w.reports, 0, 1);
      Wait(w.reports(1));
      if w.catalog.None? {
        health.postgresReachable, health.coordinatorReady := false, false;
        return false, 2;
      }
      if !w.preflightOk {
        health.preflightComplete, health.postgresReachable, health.coordinatorReady := true, true, false;
        return false, 2;
      }
      var pipelines := w.catalog.value;
      points := Converge(pipelines, w.acquire, w.reports, 2);
      GatherMore(start, w.reports, 0, 2, points);
      GatherOne(start, w.reports, 0, points);
      Wait(w.reports(points));
      points := points + 1;
      Publish();
      completed := true;
    }
  }

  function Names(catalog: seq<string>): set<string> { set x | x in catalog }

  /** The members of a set that are not listed, each once, in some order. */
  method Except(owned: set<string>, listed: seq<string>) returns (names: seq<string>)
    ensures NoDup(names) && forall x :: x in names <==> x in owned && x !in listed
  {
    names := [];
    var rest := owned;
    while rest != {}
      invariant rest <= owned && NoDup(names)
      invariant forall x :: x in names <==> x in owned && x !in rest && x !in listed
      decreases rest
    {
      if forall x :: x !in rest { assert false; }
      var x :| x in rest;
      if x !in listed {
        NoDupSnoc(names, x);
        names := names + [x];
      }
      rest := rest - {x};
    }
  }

  method RetainOwned(names: seq<string>, owned: set<string>) returns (kept: seq<string>)
    ensures forall x :: x in kept <==> x in names && x in owned
    ensures NoDup(names) ==> NoDup(kept)
  {
    kept := [];
    for i := 0 to |names|
      invariant forall x :: x in kept <==> x in names[..i] && x in owned
      invariant NoDup(names) ==> NoDup(kept)
    {
      assert names[..i + 1] == names[..i] + [names[i]];
      if names[i] in owned {
        if NoDup(names) { NoDupSnoc(kept, names[i]); }
        kept := kept + [names[i]];
      }
    }
    assert names[..|names|] == names;
  }
}
