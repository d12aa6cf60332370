/** The sweep command: up to a number of batches for each outbox, each in its own transaction. */
module SweepCommand {
  import opened Common
  import opened Ids
  import opened Upsert
  import opened Outbox
  import opened Retention
  import opened Sweep

  /** What can go wrong with one call: it fails and is rolled back, or it commits and the reply is lost. */
  datatype Fault = NoFault | RolledBack | ReplyLost

  datatype OutboxReport = OutboxReport(outbox: string, affected: nat, completed: nat)

  // ── The tables after some batches ──────────────────────────────────────

  /** `h` is the highest of `base` and the ids in `s`. */
  ghost predicate IsTop(h: int, base: int, s: set<int>) {
    base <= h && (h == base || h in s) && forall i :: i in s ==> i <= h
  }

  ghost function TotalOf(cleanup: map<string, CleanupRow>, o: string): nat {
    if o in cleanup then cleanup[o].total else 0
  }

  ghost function HighestOf(cleanup: map<string, CleanupRow>, o: string): int {
    if o in cleanup then cleanup[o].highest else 0
  }

  /** Exactly the rows `gone` are gone, and the cleanup row of `o` counts them. */
  ghost predicate Taken(t: Tables, t': Tables, o: string, gone: set<int>) {
    && t'.rows == t.rows - gone
    && t'.cleanup - {o} == t.cleanup - {o}
    && TotalOf(t'.cleanup, o) == TotalOf(t.cleanup, o) + |gone|
    && IsTop(HighestOf(t'.cleanup, o), HighestOf(t.cleanup, o), gone)
  }

  lemma NothingTaken(t: Tables, o: string)
    ensures Taken(t, t, o, {})
  {
  }

  lemma TakenTwice(t: Tables, t': Tables, t'': Tables, o: string, gone: set<int>, d: set<int>)
    requires Taken(t, t', o, gone) && Taken(t', t'', o, d) && gone !! d
    ensures Taken(t, t'', o, gone + d)
  {
    assert t.rows - gone - d == t.rows - (gone + d);
    assert |gone + d| == |gone| + |d|;
  }

  lemma {:induction false} RemainingShrinks(e: set<int>, b: nat, k: nat)
    ensures Remaining(e, b, k) <= e
    decreases k
  {
    hide FirstIds, Elems;
    if k > 0 {
      RemainingShrinks(e, b, k - 1);
    }
  }

  lemma RecordedTop(cleanup: map<string, CleanupRow>, o: string, safe: Option<int>, ids: seq<int>)
    requires Ascending(ids) && 0 <= HighestOf(cleanup, o) && forall i :: i in ids ==> i >= 1
    ensures var after := Recorded(cleanup, o, safe, ids);
            && after - {o} == cleanup - {o}
            && TotalOf(after, o) == TotalOf(cleanup, o) + |ids|
            && IsTop(HighestOf(after, o), HighestOf(cleanup, o), Elems(ids))
  {
    if ids != [] {
      assert ids[|ids| - 1] in ids;
    }
  }

  /** A real sweep with nothing locked takes the lowest rows, counts them, and says whether more are left. */
  lemma SweptTakes(t: Tables, t': Tables, left: set<int>, o: string, b: nat, r: SweepReport)
    requires b >= 1 && Swept(t, t', left, o, b, false, NOT_LOCKED, r)
    requires (forall i :: i in left ==> i >= 1) && 0 <= HighestOf(t.cleanup, o)
    ensures var d := Elems(FirstIds(left, b));
            Taken(t, t', o, d) && r.affected == |d| && (r.hasMore <==> |left| > b)
  {
    hide FirstIds, Elems, Recorded, Highest, IsTop;
    var ids := FirstIds(left, b);
    assert left - {} == left;
    assert left == {} ==> ids == [];
    AscendingCount(ids);
    RecordedTop(t.cleanup, o, r.safe, ids);
  }

  lemma PieceCounts(e: set<int>, left: set<int>, d: set<int>)
    requires d <= left <= e
    ensures e - (left - d) == (e - left) + d && |left - d| == |left| - |d|
  {
    assert left == d + (left - d);
  }

  /** The outbox after `c` committed batches: the lowest rows are gone and counted. */
  ghost predicate Batched(t: Tables, t': Tables, e: set<int>, o: string, b: nat, c: nat) {
    Taken(t, t', o, e - Remaining(e, b, c))
  }

  /** One more batch: the report counts exactly the rows it took, and says whether any are left. */
  lemma BatchAdds(t: Tables, t': Tables, t'': Tables, e: set<int>, o: string, b: nat, c: nat, r: SweepReport)
    requires b >= 1 && (forall i :: i in Remaining(e, b, c) ==> i >= 1) && 0 <= HighestOf(t'.cleanup, o)
    requires Batched(t, t', e, o, b, c)
    requires Swept(t', t'', Remaining(e, b, c), o, b, false, NOT_LOCKED, r)
    ensures Batched(t, t'', e, o, b, c + 1)
    ensures r.affected == |Remaining(e, b, c)| - |Remaining(e, b, c + 1)|
    ensures r.hasMore <==> Remaining(e, b, c + 1) != {}
  {
    hide FirstIds, Elems, Swept, Taken;
    var left := Remaining(e, b, c);
    var d := Elems(FirstIds(left, b));
    RemainingShrinks(e, b, c);
    StoppingMeansEmpty(e, b, c);
    SweptTakes(t', t'', left, o, b, r);
    assert d <= left;
    PieceCounts(e, left, d);
    TakenTwice(t, t', t'', o, e - left, d);
  }

  // ── The command ────────────────────────────────────────────────────────

  /** Ids start at 1 and recorded positions are never negative. */
  ghost predicate Valid(t: Tables) {
    && (forall i :: i in t.rows ==> i >= 1)
    && (forall o :: o in t.cleanup ==> 0 <= t.cleanup[o].highest)
  }

  /** One call in its own transaction. Ghost `done` says whether it committed, and with which report. */
  method CallSweep(db: Database, o: string, batchSize: int, dryRun: bool, now: int, fault: Fault)
    returns (r: Result<SweepReport>, ghost done: bool, ghost report: SweepReport)
    requires batchSize >= 1
    modifies db`rows, db`cleanup
    ensures r.Ok? ==> done && fault.NoFault? && r.value == report
    ensures done ==> Swept(old(db.View()), db.View(), old(db.Left(o, now)), o, batchSize, dryRun, NOT_LOCKED, report)
    ensures !done ==> db.View() == old(db.View())
    ensures fault.NoFault? && batchSize <= MAX_SWEEP_BATCH && o in db.retention ==> r.Ok?
  {
    done, report := false, SweepReport(None, false, 0, 0, false, None);
    if fault.RolledBack? {
      return Err("rolled back"), done, report;
    }
    r := db.OutboxSweep(o, batchSize, dryRun, now, NOT_LOCKED);
    if r.Ok? {
      done, report := true, r.value;
    }
    if fault.ReplyLost? {
      r := Err("reply lost");
    }
  }

  /** The tables after `c` committed batches, and what is left to sweep. */
  ghost predicate Progress(t: Tables, t': Tables, left: set<int>, e: set<int>, o: string, b: nat, c: nat) {
    Batched(t, t', e, o, b, c) && left == Remaining(e, b, c) && Valid(t')
  }

  lemma ProgressStart(t: Tables, e: set<int>, o: string, b: nat)
    requires Valid(t)
    ensures Progress(t, t, e, e, o, b, 0)
  {
    NothingTaken(t, o);
    assert e - e == {};
  }

  lemma TakenValid(t: Tables, t': Tables, o: string, gone: set<int>)
    requires Valid(t) && Taken(t, t', o, gone)
    ensures Valid(t')
  {
    forall p | p in t'.cleanup
      ensures 0 <= t'.cleanup[p].highest
    {
      if p != o {
        assert p in t'.cleanup - {o} && (t'.cleanup - {o})[p] == t'.cleanup[p];
        assert (t.cleanup - {o})[p] == t.cleanup[p];
      }
    }
  }

  lemma ProgressNext(t: Tables, t': Tables, t'': Tables, cat: Catalog, cutoff: int, now: int,
                     e: set<int>, o: string, b: nat, c: nat, r: SweepReport)
    requires b >= 1 && Progress(t, t', Sweepable(t'.rows, cat, o, cutoff, now), e, o, b, c)
    requires Swept(t', t'', Remaining(e, b, c), o, b, false, NOT_LOCKED, r)
    ensures Progress(t, t'', Sweepable(t''.rows, cat, o, cutoff, now), e, o, b, c + 1)
    ensures r.affected == |Remaining(e, b, c)| - |Remaining(e, b, c + 1)|
    ensures r.hasMore <==> Remaining(e, b, c + 1) != {}
  {
    hide FirstIds, Elems, Swept, Batched, Taken;
    var left := Remaining(e, b, c);
    var d := Elems(FirstIds(left, b));
    assert forall i :: i in left ==> i in t'.rows;
    BatchAdds(t, t', t'', e, o, b, c, r);
    SweptTakes(t', t'', left, o, b, r);
    TakenValid(t', t'', o, d);
    TakenRows(t', t'', o, d);
    SweepableAfter(t'.rows, cat, o, cutoff, now, d, o);
  }

  lemma TakenRows(t: Tables, t': Tables, o: string, gone: set<int>)
    requires Taken(t, t', o, gone)
    ensures t'.rows == t.rows - gone
  {
  }

  lemma DryRunTakesNothing(t: Tables, t': Tables, left: set<int>, o: string, b: nat, r: SweepReport)
    requires b >= 1 && Swept(t, t', left, o, b, true, NOT_LOCKED, r)
    ensures t' == t && r.affected == 0
  {
    NothingRemoved(t.rows);
  }

  /** The batches of one outbox. Ghost `c` is the number of batches that really committed a deletion: the
      completed ones, and possibly one more whose reply was lost. */
  method SweepOutbox(db: Database, o: string, batchSize: int, iterations: nat, dryRun: bool, now: int, faults: nat -> Fault)
    returns (report: OutboxReport, failed: bool, ghost c: nat)
    requires 1 <= batchSize && Valid(db.View())
    modifies db`rows, db`cleanup
    ensures report.outbox == o && report.completed <= if dryRun then 1 else iterations
    ensures dryRun ==> c == 0 && db.View() == old(db.View()) && report.affected == 0
    ensures !dryRun ==> report.completed <= c <= report.completed + (if failed then 1 else 0)
    ensures Progress(old(db.View()), db.View(), db.Left(o, now), old(db.Left(o, now)), o, batchSize, c)
    ensures !dryRun ==>
              report.affected == |old(db.Left(o, now))| - |Remaining(old(db.Left(o, now)), batchSize, report.completed)|
    ensures !dryRun && !failed && report.completed < iterations ==> db.Left(o, now) == {}
    ensures (forall k :: faults(k).NoFault?) && batchSize <= MAX_SWEEP_BATCH && o in db.retention ==> !failed
  {
    hide Remaining, Progress, Swept, Sweepable;
    ghost var t := db.View();
    ghost var e := db.Left(o, now);
    ProgressStart(t, e, o, batchSize);
    var affected: nat, completed: nat := 0, 0;
    failed, c := false, 0;
    var limit := if dryRun then 1 else iterations;
    var batch, more := 1, true;
    while batch <= limit && more && !failed
      invariant 1 <= batch <= limit + 1 && completed <= limit
      invariant Progress(t, db.View(), db.Left(o, now), e, o, batchSize, c)
      invariant dryRun ==> c == 0 && db.View() == t && affected == 0
      invariant !dryRun ==> affected == |e| - |Remaining(e, batchSize, completed)| && completed <= c
      invariant !dryRun && !failed ==> completed == c == batch - 1
      invariant failed ==> c <= completed + 1
      invariant !dryRun && !failed && !more ==> db.Left(o, now) == {}
      invariant (forall k :: faults(k).NoFault?) && batchSize <= MAX_SWEEP_BATCH && o in db.retention ==> !failed
    {
      ghost var t' := db.View();
      ProgressLeft(t, t', db.Left(o, now), e, o, batchSize, c);
      var r, done, done' := CallSweep(db, o, batchSize, dryRun, now, faults(batch));
      if done && dryRun {
        DryRunTakesNothing(t', db.View(), old(db.Left(o, now)), o, batchSize, done');
      } else if done {
        ProgressNext(t, t', db.View(), db.catalog, db.Cutoff(o, now), now, e, o, batchSize, c, done');
        c := c + 1;
        ProgressLeft(t, db.View(), db.Left(o, now), e, o, batchSize, c);
      }
      if r.Ok? {
        affected, completed, more := affected + r.value.affected, batch, !dryRun && r.value.hasMore;
      } else {
        failed := true;
      }
      batch := batch + 1;
    }
    report := OutboxReport(o, affected, completed);
  }

  lemma ProgressLeft(t: Tables, t': Tables, left: set<int>, e: set<int>, o: string, b: nat, c: nat)
    requires Progress(t, t', left, e, o, b, c)
    ensures left == Remaining(e, b, c)
  {
  }

  // ── All outboxes ───────────────────────────────────────────────────────

  datatype CommandReport = CommandReport(total: nat, reports: seq<OutboxReport>, failures: seq<string>)

  lemma OutboxDone(t: Tables, t': Tables, cat: Catalog, o: string, cutoff: int, now: int, left: set<int>, b: nat, c: nat)
    requires Progress(t, t', left, Sweepable(t.rows, cat, o, cutoff, now), o, b, c)
    ensures var e := Sweepable(t.rows, cat, o, cutoff, now);
            && left == Remaining(e, b, c) && Valid(t')
            && t'.rows == t.rows - (e - Remaining(e, b, c))
            && |t.rows| - |t'.rows| == |e| - |Remaining(e, b, c)|
  {
    hide Remaining;
    var e := Sweepable(t.rows, cat, o, cutoff, now);
    var gone := e - Remaining(e, b, c);
    RemainingShrinks(e, b, c);
    RowsWithout(t.rows, gone);
    assert e == gone + Remaining(e, b, c);
  }

  /** What the batches of one outbox do to the others: nothing. */
  lemma OthersUntouched(rows: Rows, rows': Rows, cat: Catalog, o: string, cutoff: int, now: int, b: nat, c: nat,
                        p: string, cut: int)
    requires var e := Sweepable(rows, cat, o, cutoff, now); rows' == rows - (e - Remaining(e, b, c))
    requires p != o
    ensures Sweepable(rows', cat, p, cut, now) == Sweepable(rows, cat, p, cut, now)
  {
    hide Remaining;
    var e := Sweepable(rows, cat, o, cutoff, now);
    SweepableAfter(rows, cat, p, cut, now, e - Remaining(e, b, c), o);
  }

  lemma LeftExpired(db: Database, o: string, now: int)
    ensures forall i :: i in db.Left(o, now) ==> i in db.rows && Expired(db.rows[i], db.retention, now)
  {
    forall i | i in db.Left(o, now)
      ensures i in db.rows && Expired(db.rows[i], db.retention, now)
    {
      db.LeftExactly(o, now, i);
    }
  }

  lemma GoneWereExpired(rows: Rows, rows': Rows, e: set<int>, left: set<int>, retention: map<string, int>, now: int)
    requires rows' == rows - (e - left)
    requires forall i :: i in e ==> i in rows && Expired(rows[i], retention, now)
    ensures OnlyExpiredGone(rows, rows', retention, now)
  {
    hide Expired;
  }

  lemma ExpiredThrough(rows: Rows, mid: Rows, rows': Rows, retention: map<string, int>, now: int)
    requires OnlyExpiredGone(rows, mid, retention, now) && OnlyExpiredGone(mid, rows', retention, now)
    requires forall i :: i in mid ==> i in rows && mid[i] == rows[i]
    ensures OnlyExpiredGone(rows, rows', retention, now)
  {
    hide Expired;
  }

  lemma ExpiredStill(rows: Rows, mid: Rows, rows': Rows, es: seq<set<int>>, cs: seq<nat>, b: nat,
                     retention: map<string, int>, now: int)
    requires |cs| <= |es| && TookBatches(rows, mid, es, cs, b)
    requires OnlyExpiredGone(rows, mid, retention, now) && OnlyExpiredGone(mid, rows', retention, now)
    ensures OnlyExpiredGone(rows, rows', retention, now)
  {
    hide OnlyExpiredGone;
    ExpiredThrough(rows, mid, rows', retention, now);
  }

  lemma RowsWithout(rows: Rows, gone: set<int>)
    requires gone <= rows.Keys
    ensures |rows - gone| == |rows| - |gone|
  {
    var left := rows - gone;
    assert left.Keys == rows.Keys - gone;
    assert rows.Keys == left.Keys + gone;
    assert |rows.Keys| == |left.Keys| + |gone|;
  }

  /** The row is in none of the lowest `cs[j]` batches of the j-th outbox. */
  ghost predicate Spared(es: seq<set<int>>, cs: seq<nat>, b: nat, i: int)
    requires |cs| <= |es|
  {
    forall j :: 0 <= j < |cs| ==> i !in es[j] || i in Remaining(es[j], b, cs[j])
  }

  /** Of the eligible rows `es[j]` of the j-th outbox the lowest `cs[j]` batches are gone, and no other row. */
  ghost predicate TookBatches(rows: Rows, rows': Rows, es: seq<set<int>>, cs: seq<nat>, b: nat)
    requires |cs| <= |es|
  {
    && (forall i :: i in rows' ==> i in rows && rows'[i] == rows[i])
    && forall i :: i in rows ==> (i in rows' <==> Spared(es, cs, b, i))
  }

  lemma SparedMore(es: seq<set<int>>, cs: seq<nat>, b: nat, c: nat, i: int)
    requires |cs| < |es|
    ensures Spared(es, cs + [c], b, i)
       <==> Spared(es, cs, b, i) && (i !in es[|cs|] || i in Remaining(es[|cs|], b, c))
  {
    hide Remaining;
    var cs' := cs + [c];
    assert cs'[|cs|] == c && forall j :: 0 <= j < |cs| ==> cs'[j] == cs[j];
  }

  lemma TookMore(rows: Rows, rows': Rows, rows'': Rows, es: seq<set<int>>, cs: seq<nat>, b: nat, c: nat)
    requires |cs| < |es| && TookBatches(rows, rows', es, cs, b)
    requires rows'' == rows' - (es[|cs|] - Remaining(es[|cs|], b, c))
    ensures TookBatches(rows, rows'', es, cs + [c], b)
  {
    hide Remaining, Spared;
    forall i | i in rows
      ensures i in rows'' <==> Spared(es, cs + [c], b, i)
    {
      SparedMore(es, cs, b, c, i);
    }
  }

  ghost predicate AllReported(reports: seq<OutboxReport>, outs: seq<string>, es: seq<set<int>>, b: nat, dryRun: bool,
                              cs: seq<nat>)
  {
    |reports| == |cs| <= |es| == |outs|
    && forall j :: 0 <= j < |cs| ==> Reported(reports[j], outs[j], es[j], b, dryRun, cs[j])
  }

  /** Every outbox that is not named as failed is reported in full, and got all its batches or has nothing left. */
  ghost predicate AllComplete(reports: seq<OutboxReport>, outs: seq<string>, es: seq<set<int>>, b: nat, cs: seq<nat>,
                              iterations: nat, failures: seq<string>) {
    |reports| == |cs| <= |es| == |outs|
    && forall j :: 0 <= j < |cs| ==>
         outs[j] in failures
         || (reports[j].completed == cs[j] && (cs[j] == iterations || Remaining(es[j], b, cs[j]) == {}))
  }

  /** Only an outbox of the command is named as failed, and only one whose calls did fail. */
  ghost predicate FailuresReal(failures: seq<string>, outs: seq<string>, configured: map<string, int>,
                               faults: string -> nat -> Fault) {
    forall o :: o in failures ==> o in outs && !((forall k :: faults(o)(k).NoFault?) && o in configured)
  }

  lemma NothingReported(outs: seq<string>, es: seq<set<int>>, b: nat, dryRun: bool)
    requires |es| == |outs|
    ensures AllReported([], outs, es, b, dryRun, [])
    ensures forall iterations :: AllComplete([], outs, es, b, [], iterations, [])
  {
  }

  lemma ReportedMore(reports: seq<OutboxReport>, outs: seq<string>, es: seq<set<int>>, b: nat, dryRun: bool, cs: seq<nat>,
                     report: OutboxReport, c: nat)
    requires AllReported(reports, outs, es, b, dryRun, cs) && |cs| < |outs|
    requires Reported(report, outs[|cs|], es[|cs|], b, dryRun, c)
    ensures AllReported(reports + [report], outs, es, b, dryRun, cs + [c])
  {
    hide Reported;
  }

  lemma CompleteMore(reports: seq<OutboxReport>, outs: seq<string>, es: seq<set<int>>, b: nat, cs: seq<nat>,
                     iterations: nat, failures: seq<string>, report: OutboxReport, c: nat, failed: bool)
    requires AllComplete(reports, outs, es, b, cs, iterations, failures) && |cs| < |es|
    requires !failed ==> report.completed == c && (c == iterations || Remaining(es[|cs|], b, c) == {})
    ensures AllComplete(reports + [report], outs, es, b, cs + [c], iterations,
                        if failed then failures + [outs[|cs|]] else failures)
  {
    hide Remaining;
    var failures' := if failed then failures + [outs[|cs|]] else failures;
    forall j | 0 <= j < |cs + [c]|
      ensures outs[j] in failures'
              || ((reports + [report])[j].completed == (cs + [c])[j]
                  && ((cs + [c])[j] == iterations || Remaining(es[j], b, (cs + [c])[j]) == {}))
    {
      if j < |cs| {
        assert outs[j] in failures ==> outs[j] in failures';
      } else if failed {
        assert failures'[|failures|] == outs[j];
      }
    }
  }

  lemma FailureMore(failures: seq<string>, outs: seq<string>, configured: map<string, int>,
                    faults: string -> nat -> Fault, o: string)
    requires FailuresReal(failures, outs, configured, faults) && o in outs
    requires !((forall k :: faults(o)(k).NoFault?) && o in configured)
    ensures FailuresReal(failures + [o], outs, configured, faults)
  {
  }

  /** The batches of one outbox, as far as the command is concerned. */
  method SweepNext(db: Database, o: string, ghost e: set<int>, batchSize: int, iterations: nat, dryRun: bool, now: int,
                   faults: nat -> Fault) returns (report: OutboxReport, failed: bool, ghost c: nat)
    requires 1 <= batchSize && Valid(db.View()) && e == db.Left(o, now)
    modifies db`rows, db`cleanup
    ensures Valid(db.View()) && (dryRun ==> db.View() == old(db.View()))
    ensures db.rows == old(db.rows) - (e - Remaining(e, batchSize, c))
    ensures forall p :: p != o ==> db.Left(p, now) == old(db.Left(p, now))
    ensures Reported(report, o, e, batchSize, dryRun, c)
    ensures report.affected <= |old(db.rows)| - |db.rows|
    ensures !failed ==> report.affected == |old(db.rows)| - |db.rows|
    ensures !failed && !dryRun ==>
              report.completed == c && (c == iterations || Remaining(e, batchSize, c) == {})
    ensures (forall k :: faults(k).NoFault?) && batchSize <= MAX_SWEEP_BATCH && o in db.retention ==> !failed
    ensures OnlyExpiredGone(old(db.rows), db.rows, db.retention, now)
  {
    hide Remaining, Progress, Sweepable, Valid, OnlyExpiredGone, Expired;
    ghost var t := db.View();
    LeftExpired(db, o, now);
    report, failed, c := SweepOutbox(db, o, batchSize, iterations, dryRun, now, faults);
    OutboxDone(t, db.View(), db.catalog, o, db.Cutoff(o, now), now, db.Left(o, now), batchSize, c);
    forall p | p != o
      ensures db.Left(p, now) == old(db.Left(p, now))
    {
      OthersUntouched(t.rows, db.rows, db.catalog, o, db.Cutoff(o, now), now, batchSize, c, p, db.Cutoff(p, now));
    }
    ReportCounts(t.rows, db.rows, e, batchSize, dryRun, c, report, failed);
    GoneWereExpired(t.rows, db.rows, e, Remaining(e, batchSize, c), db.retention, now);
  }

  /** The outboxes of the command, one after the other. */
  method SweepOutboxes(db: Database, outs: seq<string>, ghost es: seq<set<int>>, batchSize: int, iterations: nat,
                       dryRun: bool, now: int, faults: string -> nat -> Fault)
    returns (r: CommandReport, ghost cs: seq<nat>)
    requires 1 <= batchSize <= MAX_SWEEP_BATCH && Valid(db.View()) && NoDup(outs)
    requires |es| == |outs| && forall j :: 0 <= j < |outs| ==> es[j] == db.Left(outs[j], now)
    modifies db`rows, db`cleanup
    ensures |r.reports| == |cs| == |outs| && (dryRun ==> db.View() == old(db.View()))
    ensures TookBatches(old(db.rows), db.rows, es, cs, batchSize)
    ensures AllReported(r.reports, outs, es, batchSize, dryRun, cs)
    ensures r.total <= |old(db.rows)| - |db.rows|
    ensures r.failures == [] ==> r.total == |old(db.rows)| - |db.rows|
    ensures !dryRun ==> AllComplete(r.reports, outs, es, batchSize, cs, iterations, r.failures)
    ensures FailuresReal(r.failures, outs, db.retention, faults)
    ensures OnlyExpiredGone(old(db.rows), db.rows, db.retention, now)
  {
    hide Remaining, Progress, Sweepable, TookBatches, Valid, Reported, AllReported, AllComplete;
    hide OnlyExpiredGone, FailuresReal, NoDup;
    var total: nat, reports, failures := 0, [], [];
    cs := [];
    ghost var rows := db.rows;
    NothingTook(rows, es, batchSize);
    NothingGone(rows, db.retention, now);
    NothingReported(outs, es, batchSize, dryRun);
    NoFailures(outs, db.retention, faults);
    var j := 0;
    while j < |outs|
      invariant 0 <= j <= |outs| && |reports| == |cs| == j
      invariant Valid(db.View()) && (dryRun ==> db.View() == old(db.View()))
      invariant TookBatches(rows, db.rows, es, cs, batchSize) && OnlyExpiredGone(rows, db.rows, db.retention, now)
      invariant AllReported(reports, outs, es, batchSize, dryRun, cs)
      invariant forall i :: j <= i < |outs| ==> db.Left(outs[i], now) == es[i]
      invariant total <= |rows| - |db.rows| && (failures == [] ==> total == |rows| - |db.rows|)
      invariant !dryRun ==> AllComplete(reports, outs, es, batchSize, cs, iterations, failures)
      invariant FailuresReal(failures, outs, db.retention, faults)
    {
      ghost var t := db.rows;
      OutboxesDiffer(outs, j);
      var report, failed, c := SweepNext(db, outs[j], es[j], batchSize, iterations, dryRun, now, faults(outs[j]));
      ExpiredStill(rows, t, db.rows, es, cs, batchSize, db.retention, now);
      TookMore(rows, t, db.rows, es, cs, batchSize, c);
      ReportedMore(reports, outs, es, batchSize, dryRun, cs, report, c);
      if !dryRun {
        CompleteMore(reports, outs, es, batchSize, cs, iterations, failures, report, c, failed);
      }
      total, reports, cs := total + report.affected, reports + [report], cs + [c];
      if failed {
        FailureMore(failures, outs, db.retention, faults, outs[j]);
        failures := failures + [outs[j]];
      }
      j := j + 1;
    }
    r := CommandReport(total, reports, failures);
  }

  lemma OutboxesDiffer(outs: seq<string>, j: nat)
    requires NoDup(outs)
    ensures forall i :: j < i < |outs| ==> outs[i] != outs[j]
  {
  }

  /** The whole command. An argument error changes nothing; otherwise every outbox loses exactly the lowest
      rows of its committed batches, all of them past their retention; each report counts its own; every outbox
      not named as failed got all its batches or has nothing left, and only outboxes whose calls did fail are
      named; and without failures the total is the number of rows that disappeared. */
  method RunSweep(db: Database, outbox: Option<string>, configured: seq<string>, batchSize: int, maxBatches: Option<nat>,
                  dryRun: bool, now: int, faults: string -> nat -> Fault)
    returns (r: Result<CommandReport>, ghost outs: seq<string>, ghost es: seq<set<int>>, ghost cs: seq<nat>)
    requires Valid(db.View()) && NoDup(configured)
    modifies db`rows, db`cleanup
    ensures outs == (if outbox.Some? then [outbox.value] else configured)
    ensures r.Err? <==> !(1 <= batchSize <= MAX_SWEEP_BATCH) || maxBatches == Some(0)
    ensures r.Err? || dryRun ==> db.View() == old(db.View())
    ensures |es| == |outs| && forall j :: 0 <= j < |outs| ==> es[j] == old(db.Left(outs[j], now))
    ensures r.Ok? ==>
      && |r.value.reports| == |cs| == |outs|
      && TookBatches(old(db.rows), db.rows, es, cs, batchSize)
      && AllReported(r.value.reports, outs, es, batchSize, dryRun, cs)
      && r.value.total <= |old(db.rows)| - |db.rows|
      && (r.value.failures == [] ==> r.value.total == |old(db.rows)| - |db.rows|)
      && (!dryRun ==>
            AllComplete(r.value.reports, outs, es, batchSize, cs, if maxBatches.Some? then maxBatches.value else 1,
                        r.value.failures))
      && FailuresReal(r.value.failures, outs, db.retention, faults)
    ensures OnlyExpiredGone(old(db.rows), db.rows, db.retention, now)
  {
    hide Remaining, Progress, Sweepable, TookBatches, Valid, Reported, AllReported, AllComplete;
    hide OnlyExpiredGone, FailuresReal;
    var outboxes := if outbox.Some? then [outbox.value] else configured;
    outs, cs := outboxes, [];
    es := seq(|outs|, j requires 0 <= j < |outs| reads db => db.Left(outs[j], now));
    NothingGone(db.rows, db.retention, now);
    if !(1 <= batchSize <= MAX_SWEEP_BATCH) || maxBatches == Some(0) {
      return Err("invalid argument"), outs, es, cs;
    }
    var iterations := if maxBatches.Some? then maxBatches.value else 1;
    var report;
    report, cs := SweepOutboxes(db, outboxes, es, batchSize, iterations, dryRun, now, faults);
    r := Ok(report);
  }

  lemma NoFailures(outs: seq<string>, configured: map<string, int>, faults: string -> nat -> Fault)
    ensures FailuresReal([], outs, configured, faults)
  {
  }

  lemma NothingGone(rows: Rows, retention: map<string, int>, now: int)
    ensures OnlyExpiredGone(rows, rows, retention, now)
  {
  }

  lemma {:induction false} RemainingFalls(e: set<int>, b: nat, k: nat, m: nat)
    requires k <= m
    ensures Remaining(e, b, m) <= Remaining(e, b, k)
    decreases m
  {
    hide FirstIds, Elems;
    if k < m {
      RemainingFalls(e, b, k, m - 1);
    }
  }

  /** A report never counts more than what disappeared, and exactly that when nothing failed. */
  lemma ReportCounts(rows: Rows, rows': Rows, e: set<int>, b: nat, dryRun: bool, c: nat, report: OutboxReport, failed: bool)
    requires |rows| - |rows'| == |e| - |Remaining(e, b, c)|
    requires dryRun ==> c == 0 && report.affected == 0 && rows' == rows
    requires !dryRun ==> report.completed <= c <= report.completed + (if failed then 1 else 0)
    requires !dryRun ==> report.affected == |e| - |Remaining(e, b, report.completed)|
    ensures report.affected <= |rows| - |rows'|
    ensures !failed ==> report.affected == |rows| - |rows'|
  {
    hide Remaining;
    if !dryRun {
      RemainingFalls(e, b, report.completed, c);
      SmallerSet(Remaining(e, b, c), Remaining(e, b, report.completed));
    }
  }

  lemma NothingTook(rows: Rows, es: seq<set<int>>, b: nat)
    ensures TookBatches(rows, rows, es, [], b)
  {
  }

  /** A report and what really happened: the batches reported are those that committed, except possibly one. */
  ghost predicate Reported(r: OutboxReport, o: string, e: set<int>, b: nat, dryRun: bool, c: nat) {
    && r.outbox == o
    && (dryRun ==> r.affected == 0 && c == 0)
    && (!dryRun ==> r.completed <= c <= r.completed + 1 && r.affected == |e| - |Remaining(e, b, r.completed)|)
  }
}
