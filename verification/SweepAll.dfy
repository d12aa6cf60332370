/** The extension's sweep over every configured outbox in one statement, and the older function that sums
    up what it deleted. */
module SweepAll {
  import opened Common
  import opened Upsert
  import opened Sweep
  import opened SweepCommand

  const TRUNCATE_BATCH: int := 1_000

  /** The number of batches a statement commits for each outbox. */
  function Batches(dryRun: bool): nat { if dryRun then 0 else 1 }

  /** A report counts exactly the rows its outbox has lost. */
  ghost predicate Counts(r: SweepReport, e: set<int>, b: nat, c: nat) {
    r.affected == |e| - |Remaining(e, b, c)|
  }

  ghost predicate AllCount(reports: seq<SweepReport>, es: seq<set<int>>, b: nat, cs: seq<nat>) {
    |reports| == |cs| <= |es| && forall j :: 0 <= j < |cs| ==> Counts(reports[j], es[j], b, cs[j])
  }

  lemma NothingCounted(es: seq<set<int>>, b: nat)
    ensures AllCount([], es, b, [])
  {
  }

  lemma CountMore(reports: seq<SweepReport>, es: seq<set<int>>, b: nat, cs: seq<nat>, r: SweepReport, c: nat)
    requires AllCount(reports, es, b, cs) && |cs| < |es| && Counts(r, es[|cs|], b, c)
    ensures AllCount(reports + [r], es, b, cs + [c])
  {
    hide Counts;
  }

  function Total(reports: seq<SweepReport>): nat {
    if reports == [] then 0 else Total(reports[..|reports| - 1]) + reports[|reports| - 1].affected
  }

  lemma TotalSnoc(reports: seq<SweepReport>, r: SweepReport)
    ensures Total(reports + [r]) == Total(reports) + r.affected
  {
    assert (reports + [r])[..|reports|] == reports;
  }

  lemma NothingYetLeft(e: set<int>, b: nat)
    ensures Remaining(e, b, 0) == e
  {
  }

  /** One sweep as one batch, or as none in a dry run. */
  method SweepTracked(db: Database, o: string, ghost e: set<int>, batchSize: int, dryRun: bool, now: int)
    returns (r: SweepReport)
    requires 1 <= batchSize && Valid(db.View()) && e == db.Left(o, now)
    modifies db`rows, db`cleanup
    ensures dryRun ==> db.View() == old(db.View())
    ensures Progress(old(db.View()), db.View(), db.Left(o, now), e, o, batchSize, Batches(dryRun))
    ensures Counts(r, e, batchSize, Batches(dryRun))
  {
    hide Remaining, Progress, Sweepable, Swept, Valid;
    ghost var t := db.View();
    ProgressStart(t, e, o, batchSize);
    NothingYetLeft(e, batchSize);
    r := db.SweepOne(o, batchSize, dryRun, now, NOT_LOCKED);
    if dryRun {
      DryRunTakesNothing(t, db.View(), e, o, batchSize, r);
    } else {
      ProgressNext(t, t, db.View(), db.catalog, db.Cutoff(o, now), now, e, o, batchSize, 0, r);
    }
  }

  /** One outbox of the statement, as far as the others are concerned. */
  method SweepNamed(db: Database, o: string, ghost e: set<int>, batchSize: int, dryRun: bool, now: int)
    returns (r: SweepReport)
    requires 1 <= batchSize && Valid(db.View()) && e == db.Left(o, now)
    modifies db`rows, db`cleanup
    ensures Valid(db.View()) && (dryRun ==> db.View() == old(db.View()))
    ensures db.rows == old(db.rows) - (e - Remaining(e, batchSize, Batches(dryRun)))
    ensures forall p :: p != o ==> db.Left(p, now) == old(db.Left(p, now))
    ensures Counts(r, e, batchSize, Batches(dryRun)) && r.affected == |old(db.rows)| - |db.rows|
    ensures OnlyExpiredGone(old(db.rows), db.rows, db.retention, now)
  {
    hide Remaining, Progress, Sweepable, Valid, OnlyExpiredGone, Expired;
    ghost var t := db.View();
    LeftExpired(db, o, now);
    r := SweepTracked(db, o, e, batchSize, dryRun, now);
    ghost var c := Batches(dryRun);
    OutboxDone(t, db.View(), db.catalog, o, db.Cutoff(o, now), now, db.Left(o, now), batchSize, c);
    forall p | p != o
      ensures db.Left(p, now) == old(db.Left(p, now))
    {
      OthersUntouched(t.rows, db.rows, db.catalog, o, db.Cutoff(o, now), now, batchSize, c, p, db.Cutoff(p, now));
    }
    GoneWereExpired(t.rows, db.rows, e, Remaining(e, batchSize, c), db.retention, now);
  }

  /** The loop over the outboxes. */
  method SweepEach(db: Database, names: seq<string>, ghost es: seq<set<int>>, batchSize: int, dryRun: bool, now: int)
    returns (reports: seq<SweepReport>, ghost cs: seq<nat>)
    requires 1 <= batchSize && Valid(db.View()) && NoDup(names)
    requires |es| == |names| && forall j :: 0 <= j < |names| ==> es[j] == db.Left(names[j], now)
    modifies db`rows, db`cleanup
    ensures Valid(db.View()) && (dryRun ==> db.View() == old(db.View()))
    ensures |cs| == |names| && (forall j :: 0 <= j < |cs| ==> cs[j] == Batches(dryRun))
    ensures TookBatches(old(db.rows), db.rows, es, cs, batchSize) && AllCount(reports, es, batchSize, cs)
    ensures Total(reports) == |old(db.rows)| - |db.rows|
    ensures OnlyExpiredGone(old(db.rows), db.rows, db.retention, now)
  {
    hide Remaining, Sweepable, TookBatches, Valid, AllCount, Total, Counts, Batches, NoDup, OnlyExpiredGone;
    reports, cs := [], [];
    ghost var rows := db.rows;
    NothingGone(rows, db.retention, now);
    NothingTook(rows, es, batchSize);
    NothingCounted(es, batchSize);
    NoTotal();
    var j := 0;
    while j < |names|
      invariant 0 <= j <= |names| && |reports| == |cs| == j
      invariant forall i :: 0 <= i < j ==> cs[i] == Batches(dryRun)
      invariant Valid(db.View()) && (dryRun ==> db.View() == old(db.View()))
      invariant TookBatches(rows, db.rows, es, cs, batchSize) && AllCount(reports, es, batchSize, cs)
      invariant OnlyExpiredGone(rows, db.rows, db.retention, now)
      invariant forall i :: j <= i < |names| ==> db.Left(names[i], now) == es[i]
      invariant Total(reports) == |rows| - |db.rows|
    {
      ghost var t := db.rows;
      NamedOnce(names, j);
      var report := SweepNamed(db, names[j], es[j], batchSize, dryRun, now);
      ExpiredStill(rows, t, db.rows, es, cs, batchSize, db.retention, now);
      TookMore(rows, t, db.rows, es, cs, batchSize, Batches(dryRun));
      CountMore(reports, es, batchSize, cs, report, Batches(dryRun));
      TotalSnoc(reports, report);
      reports, cs := reports + [report], cs + [Batches(dryRun)];
      j := j + 1;
    }
  }

  /** The whole statement, for one named outbox or for all. Bad arguments change nothing; otherwise every
      outbox loses exactly its lowest `batchSize` eligible rows, in a dry run none, and no other row goes; and
      whatever goes is older than its retention. */
  method OutboxSweep(db: Database, outbox: Option<string>, configured: seq<string>, batchSize: int, dryRun: bool, now: int)
    returns (r: Result<seq<SweepReport>>, ghost outs: seq<string>, ghost es: seq<set<int>>, ghost cs: seq<nat>)
    requires Valid(db.View()) && NoDup(configured) && forall o :: o in configured <==> o in db.retention
    modifies db`rows, db`cleanup
    ensures Valid(db.View()) && outs == (if outbox.Some? then [outbox.value] else configured)
    ensures |es| == |outs| && forall j :: 0 <= j < |outs| ==> es[j] == old(db.Left(outs[j], now))
    ensures r.Ok? <==> 1 <= batchSize <= MAX_SWEEP_BATCH && (outbox.Some? ==> outbox.value in db.retention)
    ensures r.Err? || dryRun ==> db.View() == old(db.View())
    ensures r.Ok? ==>
              && |cs| == |outs| && (forall j :: 0 <= j < |cs| ==> cs[j] == Batches(dryRun))
              && TookBatches(old(db.rows), db.rows, es, cs, batchSize)
              && AllCount(r.value, es, batchSize, cs)
              && Total(r.value) == |old(db.rows)| - |db.rows|
    ensures OnlyExpiredGone(old(db.rows), db.rows, db.retention, now)
  {
    hide Remaining, Sweepable, TookBatches, Valid, AllCount, Total, Counts, Batches, OnlyExpiredGone;
    var names := if outbox.Some? then [outbox.value] else configured;
    outs, cs := names, [];
    es := seq(|outs|, j requires 0 <= j < |outs| reads db => db.Left(outs[j], now));
    NothingGone(db.rows, db.retention, now);
    if !(1 <= batchSize <= MAX_SWEEP_BATCH) {
      return Err("batch size out of range"), outs, es, cs;
    }
    if outbox.Some? && outbox.value !in db.retention {
      return Err("outbox not found"), outs, es, cs;
    }
    var reports;
    reports, cs := SweepEach(db, names, es, batchSize, dryRun, now);
    r := Ok(reports);
  }

  lemma NamedOnce(names: seq<string>, j: nat)
    requires NoDup(names)
    ensures forall i :: j < i < |names| ==> names[i] != names[j]
  {
  }

  lemma NoTotal()
    ensures Total([]) == 0
  {
  }

  /** The rows deleted by one statement with batches of 1000, which is the number that disappeared. */
  method TruncateDelivered(db: Database, outbox: Option<string>, configured: seq<string>, now: int)
    returns (deleted: Result<nat>)
    requires Valid(db.View()) && NoDup(configured) && forall o :: o in configured <==> o in db.retention
    modifies db`rows, db`cleanup
    ensures deleted.Ok? <==> (outbox.Some? ==> outbox.value in db.retention)
    ensures deleted.Err? ==> db.View() == old(db.View())
    ensures deleted.Ok? ==> deleted.value == |old(db.rows)| - |db.rows|
    ensures OnlyExpiredGone(old(db.rows), db.rows, db.retention, now)
  {
    hide TookBatches, AllCount, Total, Sweepable, Valid;
    var r, outs, es, cs := OutboxSweep(db, outbox, configured, TRUNCATE_BATCH, false, now);
    match r {
      case Err(e) => deleted := Err(e);
      case Ok(reports) =>
        var sum := SumAffected(reports);
        deleted := Ok(sum);
    }
  }

  method SumAffected(reports: seq<SweepReport>) returns (sum: nat)
    ensures sum == Total(reports)
  {
    sum := 0;
    for i := 0 to |reports|
      invariant sum == Total(reports[..i])
    {
      TotalSnoc(reports[..i], reports[i]);
      assert reports[..i + 1] == reports[..i] + [reports[i]];
      sum := sum + reports[i].affected;
    }
    assert reports[..|reports|] == reports;
  }
}
