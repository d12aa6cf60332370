/** Batched cleanup: the extension's sweep function and the command that repeats it. */
module Sweep {
  import opened Common
  import opened Ids
  import opened Outbox
  import opened Retention

  datatype Result<T> = Ok(value: T) | Err(error: string)

  const MAX_SWEEP_BATCH: int := 10_000
  const HOUR: int := 3600

  // ── Batches over a fixed set of eligible ids ───────────────────────────

  /** What is left after `k` batches of at most `b` rows each. */
  function Remaining(e: set<int>, b: nat, k: nat): set<int> {
    if k == 0 then e
    else
      var left := Remaining(e, b, k - 1);
      left - Elems(FirstIds(left, b))
  }

  /** `d` are the `n` lowest elements of `e`, or all of them. */
  ghost predicate Lowest(e: set<int>, d: set<int>, n: nat) {
    d <= e && |d| == Min(n, |e|) && forall x, y :: x in e && y in d && x <= y ==> x in d
  }

  lemma FirstIdsLowest(e: set<int>, n: nat)
    ensures Lowest(e, Elems(FirstIds(e, n)), n)
  {
    var ids := FirstIds(e, n);
    AscendingCount(ids);
  }

  lemma LowestUnique(e: set<int>, d: set<int>, d': set<int>, n: nat)
    requires Lowest(e, d, n) && Lowest(e, d', n)
    ensures d == d'
  {
    if exists y :: y in d && y !in d' {
      var y :| y in d && y !in d';
      assert forall z :: z in d' ==> z < y;
      SubsetSize(d', d);
    } else {
      assert forall y :: y in d ==> y in d';
      SubsetSize(d, d');
    }
  }

  lemma LowestTwice(e: set<int>, d: set<int>, x: nat, d': set<int>, b: nat)
    requires Lowest(e, d, x) && Lowest(e - d, d', b)
    ensures Lowest(e, d + d', x + b)
  {
    assert |e| == |d| + |e - d| by { assert e == d + (e - d); }
    assert |d + d'| == |d| + |d'|;
  }

  /** The size of `k` full batches, `k * b`. */
  function Full(k: nat, b: nat): nat { if k == 0 then 0 else Full(k - 1, b) + b }

  lemma {:induction false} FullIsProduct(k: nat, b: nat)
    ensures Full(k, b) == k * b
  {
    if k > 0 {
      FullIsProduct(k - 1, b);
      assert k * b == (k - 1) * b + b;
    }
  }

  lemma OneMoreBatch(e: set<int>, left: set<int>, x: nat, b: nat)
    requires left <= e && Lowest(e, e - left, x)
    ensures var next := left - Elems(FirstIds(left, b)); next <= e && Lowest(e, e - next, x + b)
  {
    hide FirstIds, Elems;
    var d := Elems(FirstIds(left, b));
    FirstIdsLowest(left, b);
    assert e - (e - left) == left;
    LowestTwice(e, e - left, x, d, b);
    assert (e - left) + d == e - (left - d);
  }

  lemma NothingYet(e: set<int>)
    ensures Lowest(e, e - e, 0)
  {
    assert e - e == {};
  }

  /** `k` batches delete exactly the `k * b` lowest eligible ids: one unbounded sweep, cut into pieces. */
  lemma {:induction false} BatchesDeleteLowest(e: set<int>, b: nat, k: nat)
    ensures Remaining(e, b, k) <= e && Lowest(e, e - Remaining(e, b, k), Full(k, b))
    decreases k
  {
    hide FirstIds, Elems, Lowest;
    if k > 0 {
      BatchesDeleteLowest(e, b, k - 1);
      OneMoreBatch(e, Remaining(e, b, k - 1), Full(k - 1, b), b);
    } else {
      NothingYet(e);
    }
  }

  /** The same, against the single query `ORDER BY id LIMIT k * b`. */
  lemma BatchesEqualOneSweep(e: set<int>, b: nat, k: nat)
    ensures Remaining(e, b, k) == e - Elems(FirstIds(e, Full(k, b))) && Full(k, b) == k * b
  {
    BatchesDeleteLowest(e, b, k);
    FirstIdsLowest(e, Full(k, b));
    LowestUnique(e, e - Remaining(e, b, k), Elems(FirstIds(e, Full(k, b))), Full(k, b));
    FullIsProduct(k, b);
  }

  /** A batch that reports no more rows leaves nothing eligible behind, and only then. */
  lemma StoppingMeansEmpty(e: set<int>, b: nat, k: nat)
    ensures |Remaining(e, b, k)| <= b <==> Remaining(e, b, k + 1) == {}
  {
    hide FirstIds, Elems;
    var left := Remaining(e, b, k);
    FirstIdsLowest(left, b);
    var d := Elems(FirstIds(left, b));
    assert |left| == |d| + |left - d| by { assert left == d + (left - d); }
  }

  // ── Reports and cleanup state ──────────────────────────────────────────

  datatype SweepReport = SweepReport(
    safe: Option<int>, blocked: bool, eligibleInBatch: nat, affected: nat, hasMore: bool, highest: Option<int>)

  /** The row of `outbox_cleanup_state`, without its timestamps. */
  datatype CleanupRow = CleanupRow(lastSafe: Option<int>, highest: int, lastBatch: nat, total: nat)

  /** The two tables a sweep writes. */
  datatype Tables = Tables(rows: Rows, cleanup: map<string, CleanupRow>)

  /** Rows other transactions have locked while the candidate query and the DELETE run. */
  datatype Locked = Locked(select: set<int>, delete: set<int>)

  const NOT_LOCKED: Locked := Locked({}, {})

  function Highest(ids: seq<int>): Option<int> {
    if ids == [] then None else Some(ids[|ids| - 1])
  }

  /** The cleanup upsert: the highest id only grows, and the total adds up. */
  function Recorded(before: map<string, CleanupRow>, o: string, safe: Option<int>, gone: seq<int>)
    : map<string, CleanupRow>
  {
    var top := if gone == [] then 0 else gone[|gone| - 1];
    before[o := if o in before
                then CleanupRow(safe, Max(before[o].highest, top), |gone|, before[o].total + |gone|)
                else CleanupRow(safe, top, |gone|, |gone|)]
  }

  /** The cleanup row after a sweep with this report: its safe offset and its number of rows, a total that adds up,
      and the highest id ever deleted. */
  ghost predicate Remembers(before: map<string, CleanupRow>, o: string, row: CleanupRow, r: SweepReport) {
    && row.lastSafe == r.safe && row.lastBatch == r.affected
    && row.total == (if o in before then before[o].total else 0) + r.affected
    && (o in before ==> row.highest >= before[o].highest)
    && (r.highest.Some? ==> row.highest >= r.highest.value)
    && (row.highest == 0 || (o in before && row.highest == before[o].highest) || r.highest == Some(row.highest))
  }

  lemma RecordRemembers(before: map<string, CleanupRow>, o: string, r: SweepReport, gone: seq<int>)
    requires r.affected == |gone| && r.highest == Highest(gone)
    ensures var after := Recorded(before, o, r.safe, gone);
            && o in after && Remembers(before, o, after[o], r)
            && forall p :: p != o ==> (p in after <==> p in before) && (p in after ==> after[p] == before[p])
  {
  }

  /** The rows one sweep may delete: none while a lease is active. */
  function Sweepable(rows: Rows, c: Catalog, o: string, cutoff: int, now: int): set<int> {
    if LeaseBlocked(c, o, now) then {} else Eligible(rows, o, cutoff, SafeOffset(c, o))
  }

  /** Deleting rows of an outbox takes them off its eligible rows and touches no other outbox. */
  lemma SweepableAfter(rows: Rows, c: Catalog, o: string, cutoff: int, now: int, gone: set<int>, p: string)
    requires forall i :: i in gone && i in rows ==> rows[i].outbox == p
    ensures Sweepable(rows - gone, c, o, cutoff, now)
         == (if o == p then Sweepable(rows, c, o, cutoff, now) - gone else Sweepable(rows, c, o, cutoff, now))
  {
  }

  /** What one sweep does to the tables, and what it reports, when `left` are the rows it may delete. */
  ghost predicate Swept(t: Tables, t': Tables, left: set<int>, o: string, batchSize: int, dryRun: bool,
                        locked: Locked, r: SweepReport)
    requires batchSize >= 1
  {
    var free := |left - locked.select|;
    var gone := if dryRun || left <= locked.select then [] else FirstIds(left - locked.delete, batchSize);
    && (r.hasMore <==> free > batchSize) && r.eligibleInBatch == Min(free, batchSize)
    && t'.rows == t.rows - Elems(gone)
    && r.affected == |gone| && r.highest == Highest(gone)
    && t'.cleanup == if dryRun then t.cleanup else Recorded(t.cleanup, o, r.safe, gone)
  }

  lemma IsSwept(t: Tables, t': Tables, left: set<int>, o: string, batchSize: int, dryRun: bool, locked: Locked,
                r: SweepReport, gone: seq<int>)
    requires batchSize >= 1
    requires gone == if dryRun || left <= locked.select then [] else FirstIds(left - locked.delete, batchSize)
    requires var free := |left - locked.select|;
             (r.hasMore <==> free > batchSize) && r.eligibleInBatch == Min(free, batchSize)
    requires t'.rows == t.rows - Elems(gone) && r.affected == |gone| && r.highest == Highest(gone)
    requires t'.cleanup == if dryRun then t.cleanup else Recorded(t.cleanup, o, r.safe, gone)
    ensures Swept(t, t', left, o, batchSize, dryRun, locked, r)
  {
  }

  lemma EmptyDifference(a: set<int>, b: set<int>)
    ensures |a - b| == 0 <==> a <= b
  {
    if |a - b| == 0 {
      assert a - b == {};
      assert forall x :: x in a ==> x in b || x in a - b;
    } else {
      assert a - b != {};
    }
  }

  lemma NothingRemoved(rows: Rows)
    ensures rows - Elems([]) == rows
  {
  }

  lemma RowsRemoved(rows: Rows, ids: seq<int>)
    requires Ascending(ids) && Elems(ids) <= rows.Keys
    ensures |rows - Elems(ids)| == |rows| - |ids|
  {
    hide Elems;
    AscendingCount(ids);
    var left := rows - Elems(ids);
    assert left.Keys == rows.Keys - Elems(ids);
    assert |rows.Keys| == |left.Keys| + |Elems(ids)| by {
      assert rows.Keys == left.Keys + Elems(ids);
    }
  }

  /** A dry run deletes nothing and predicts the next real batch: as many rows, and as much left over. */
  lemma DryRunPredicts(t: Tables, t': Tables, t'': Tables, left: set<int>, o: string, batchSize: int,
                       dry: SweepReport, wet: SweepReport)
    requires batchSize >= 1 && left <= t.rows.Keys
    requires Swept(t, t', left, o, batchSize, true, NOT_LOCKED, dry)
    requires Swept(t', t'', left, o, batchSize, false, NOT_LOCKED, wet)
    ensures t' == t && dry.affected == 0
    ensures wet.affected == dry.eligibleInBatch && wet.hasMore == dry.hasMore
    ensures |t.rows| - |t''.rows| == dry.eligibleInBatch
  {
    hide FirstIds, Elems, Recorded, Highest;
    assert left - {} == left;
    NothingRemoved(t.rows);
    if left != {} {
      RowsRemoved(t.rows, FirstIds(left, batchSize));
    }
  }

  // ── The retention age ──────────────────────────────────────────────────

  /** Older than the retention of its outbox in hours, or than a day if it has none. */
  predicate Expired(row: Row, retention: map<string, int>, now: int) {
    row.created + 3600 * (if row.outbox in retention then retention[row.outbox] else 24) < now
  }

  /** Every row that has disappeared was expired. */
  ghost predicate OnlyExpiredGone(rows: Rows, rows': Rows, retention: map<string, int>, now: int) {
    forall i :: i in rows && i !in rows' ==> Expired(rows[i], retention, now)
  }

  lemma SweptWereLeft(t: Tables, t': Tables, left: set<int>, o: string, batchSize: int, dryRun: bool,
                      locked: Locked, r: SweepReport, i: int)
    requires batchSize >= 1 && Swept(t, t', left, o, batchSize, dryRun, locked, r)
    requires i in t.rows && i !in t'.rows
    ensures i in left
  {
    hide Recorded, Highest;
  }

  // ── The database side ──────────────────────────────────────────────────

  class Database {
    var rows: Rows
    var cleanup: map<string, CleanupRow>
    const catalog: Catalog
    /** Retention in hours by outbox. */
    const retention: map<string, int>

    constructor (rows: Rows, catalog: Catalog, retention: map<string, int>)
      ensures this.rows == rows && this.catalog == catalog && this.retention == retention && cleanup == map[]
    {
      this.rows, this.catalog, this.retention, cleanup := rows, catalog, retention, map[];
    }

    function Cutoff(o: string, now: int): int {
      now - HOUR * (if o in retention then retention[o] else 24)
    }

    ghost function View(): Tables
      reads this
    {
      Tables(rows, cleanup)
    }

    ghost function Left(o: string, now: int): set<int>
      reads this
    {
      Sweepable(rows, catalog, o, Cutoff(o, now), now)
    }

    /** What a sweep may delete, in plain terms: while no lease is active, the expired rows of the outbox at or
        below the safe offset. */
    lemma LeftExactly(o: string, now: int, i: int)
      ensures i in Left(o, now)
         <==> && !LeaseBlocked(catalog, o, now) && i in rows && rows[i].outbox == o
              && rows[i].created + 3600 * (if o in retention then retention[o] else 24) < now
              && (SafeOffset(catalog, o).None? || i <= SafeOffset(catalog, o).value)
    {
      hide LeaseBlocked, SafeOffset;
    }

    /** `DELETE … RETURNING id` over the lowest eligible rows nobody has locked. */
    method DeleteBatch(o: string, cutoff: int, safe: Option<int>, limit: nat, locked: set<int>)
      returns (affected: nat, highest: Option<int>)
      modifies this`rows
      ensures var gone := FirstIds(Eligible(old(rows), o, cutoff, safe) - locked, limit);
              rows == old(rows) - Elems(gone) && affected == |gone| && highest == Highest(gone)
    {
      var gone := FirstIds(Eligible(rows, o, cutoff, safe) - locked, limit);
      rows := rows - Elems(gone);
      affected, highest := |gone|, Highest(gone);
    }

    method Record(o: string, safe: Option<int>, affected: nat, highest: Option<int>, ghost gone: seq<int>)
      requires affected == |gone| && highest == Highest(gone)
      modifies this`cleanup
      ensures cleanup == Recorded(old(cleanup), o, safe, gone)
    {
      var top := if highest.Some? then highest.value else 0;
      if o in cleanup {
        cleanup := cleanup[o := CleanupRow(safe, Max(cleanup[o].highest, top), affected, cleanup[o].total + affected)];
      } else {
        cleanup := cleanup[o := CleanupRow(safe, top, affected, affected)];
      }
    }

    /** The candidate query: one row more than a batch, to see whether any are left over. */
    method SelectCandidates(o: string, now: int, blocked: bool, safe: Option<int>, limit: nat, locked: set<int>)
      returns (candidates: seq<int>)
      requires safe == SafeOffset(catalog, o) && blocked == LeaseBlocked(catalog, o, now)
      ensures candidates == FirstIds(Left(o, now) - locked, limit)
    {
      hide FirstIds, SafeOffset, LeaseBlocked;
      if blocked {
        assert Left(o, now) - locked == {};
        return [];
      }
      candidates := FirstIds(Eligible(rows, o, Cutoff(o, now), safe) - locked, limit);
    }

    /** One sweep of one outbox: resolve the participants, select the candidates, delete a batch of them
        and record the result. */
    method SweepOne(o: string, batchSize: int, dryRun: bool, now: int, locked: Locked) returns (r: SweepReport)
      requires batchSize >= 1
      modifies this`rows, this`cleanup
      ensures r.safe == SafeOffset(catalog, o) && r.blocked == LeaseBlocked(catalog, o, now)
      ensures Swept(old(View()), View(), old(Left(o, now)), o, batchSize, dryRun, locked, r)
      ensures forall i :: i in old(Left(o, now)) <==>
                && !r.blocked && i in old(rows) && old(rows)[i].outbox == o
                && old(rows)[i].created + 3600 * (if o in retention then retention[o] else 24) < now
                && (r.safe.None? || i <= r.safe.value)
      ensures forall i :: i in old(rows) && i !in rows ==>
                && !r.blocked && old(rows)[i].outbox == o
                && old(rows)[i].created + 3600 * (if o in retention then retention[o] else 24) < now
                && (r.safe.None? || i <= r.safe.value)
      ensures !dryRun ==> o in cleanup && Remembers(old(cleanup), o, cleanup[o], r)
      ensures forall p :: p != o ==>
                (p in cleanup <==> p in old(cleanup)) && (p in cleanup ==> cleanup[p] == old(cleanup)[p])
    {
      hide FirstIds, Elems, SafeOffset, LeaseBlocked, Recorded, Swept;
      forall i {
        LeftExactly(o, now, i);
      }
      var safe, blocked := SafeOffset(catalog, o), LeaseBlocked(catalog, o, now);
      var candidates := SelectCandidates(o, now, blocked, safe, batchSize + 1, locked.select);
      var hasMore := |candidates| > batchSize;
      var eligible := Min(|candidates|, batchSize);
      ghost var left, t := Left(o, now), View();
      var affected, highest := 0, None;
      ghost var gone: seq<int> := [];
      NothingRemoved(rows);
      EmptyDifference(left, locked.select);
      if !dryRun && eligible > 0 {
        gone := FirstIds(left - locked.delete, batchSize);
        UnblockedLeft(o, now, safe);
        affected, highest := DeleteBatch(o, Cutoff(o, now), safe, batchSize, locked.delete);
      }
      if !dryRun {
        Record(o, safe, affected, highest, gone);
      }
      r := SweepReport(safe, blocked, eligible, affected, hasMore, highest);
      RecordRemembers(t.cleanup, o, r, gone);
      IsSwept(t, View(), left, o, batchSize, dryRun, locked, r, gone);
      forall i | i in t.rows && i !in rows
        ensures i in left
      {
        SweptWereLeft(t, View(), left, o, batchSize, dryRun, locked, r, i);
      }
    }

    lemma UnblockedLeft(o: string, now: int, safe: Option<int>)
      requires Left(o, now) != {} && safe == SafeOffset(catalog, o)
      ensures Left(o, now) == Eligible(rows, o, Cutoff(o, now), safe)
    {
    }

    /** The extension function called with the name of one outbox: its argument checks, and one sweep. */
    method OutboxSweep(o: string, batchSize: int, dryRun: bool, now: int, locked: Locked) returns (r: Result<SweepReport>)
      modifies this`rows, this`cleanup
      ensures r.Ok? <==> 1 <= batchSize <= MAX_SWEEP_BATCH && o in retention
      ensures r.Err? ==> rows == old(rows) && cleanup == old(cleanup)
      ensures r.Ok? ==> Swept(old(View()), View(), old(Left(o, now)), o, batchSize, dryRun, locked, r.value)
      ensures OnlyExpiredGone(old(rows), rows, retention, now)
    {
      if !(1 <= batchSize <= MAX_SWEEP_BATCH) {
        return Err("batch size out of range");
      }
      if o !in retention {
        return Err("outbox not found");
      }
      var report := SweepOne(o, batchSize, dryRun, now, locked);
      r := Ok(report);
    }
  }
}
