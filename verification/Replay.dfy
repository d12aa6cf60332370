/** Bounded replay: which rows it hands on, when it ends, and what it leaves alone, while rows come and go. */
module Replay {
  import opened Common
  import opened Ids
  import opened ReplayRange
  import opened Outbox
  import opened Retention
  import opened WorkerLoop
  import opened Worker

  ghost predicate Replaying(c: Config) {
    c.replay.Some? && 0 <= c.replay.value.from <= c.replay.value.to && c.batchSize >= 1
  }

  /** A stored row of the outbox that a replay of `r` owes. */
  predicate Owes(rows: Rows, o: string, r: Range, i: int) {
    i in rows && rows[i].outbox == o && r.from <= i <= r.to
  }

  /** A poll that returns nothing, or not a single row in range, lies above everything owed. */
  lemma AllFilteredMeansDone(rows: Rows, o: string, r: Range, last: int, limit: nat)
    requires limit >= 1 && r.from - 1 <= last && InRange(SelectAfter(rows, o, last, limit), r) == []
    ensures forall i :: Owes(rows, o, r, i) ==> i <= last
  {
    hide SelectAfter, InRange;
    var ids := SelectAfter(rows, o, last, limit);
    FilterSpec(ids, r);
    assert ids != [] ==> ids[0] in ids;
    assert forall i :: Owes(rows, o, r, i) ==> i !in ids;
  }

  // ── The books of a replay ──────────────────────────────────────────────

  /** What has been settled is in range, at or below the cursor, in order and once each; and of the rows stored
      now, everything owed at or below the cursor has been settled. */
  ghost predicate Books(c: Config, rows: Rows, v: View) {
    && c.replay.Some? && c.replay.value.from - 1 <= v.last
    && Ascending(v.settled)
    && (forall x :: x in v.settled ==> c.replay.value.from <= x <= c.replay.value.to && x <= v.last)
    && (forall i :: Owes(rows, c.key.outbox, c.replay.value, i) && i <= v.last ==> i in v.settled)
  }

  /** Rows may vanish anywhere; new rows that are owed only appear above the cursor. */
  ghost predicate AddsAbove(c: Config, last: int, rows: Rows, rows': Rows) {
    c.replay.Some? ==>
      forall i :: Owes(rows', c.key.outbox, c.replay.value, i) && i <= last ==> Owes(rows, c.key.outbox, c.replay.value, i)
  }

  lemma BooksOverChange(c: Config, rows: Rows, rows': Rows, v: View)
    requires Books(c, rows, v) && AddsAbove(c, v.last, rows, rows')
    ensures Books(c, rows', v)
  {
  }

  lemma StartBooks(c: Config, rows: Rows, offsets: map<Key, int>)
    requires c.replay.Some?
    ensures Books(c, rows, Start(c, offsets))
  {
  }

  /** What is settled now was settled before, or owed and stored now. */
  ghost predicate SettledFrom(c: Config, rows: Rows, v: View, w: View) {
    forall x :: x in w.settled ==>
      x in v.settled || (c.replay.Some? && Owes(rows, c.key.outbox, c.replay.value, x))
  }

  lemma CommitBooks(c: Config, rows: Rows, v: View, reply: CommitReply)
    requires Replaying(c) && Books(c, rows, v) && Poll(c, rows, v.last) != []
    ensures var ids := Poll(c, rows, v.last);
            var w := Commit(c, v, ids[|ids| - 1], InRange(ids, c.replay.value), reply).0;
            Books(c, rows, w) && SettledFrom(c, rows, v, w) && w.offsets == v.offsets
  {
    hide SelectAfter, InRange;
    var ids := Poll(c, rows, v.last);
    assert ids[|ids| - 1] in ids;
    LastIsTop(ids);
    FilterSpec(ids, c.replay.value);
    AscendingJoin(v.settled, InRange(ids, c.replay.value), v.last);
  }

  /** Two states with the same cursor, settled messages and checkpoints. */
  ghost predicate SameBooks(v: View, w: View) {
    v.last == w.last && v.settled == w.settled && v.offsets == w.offsets
  }

  /** As far as the books go, delivering a batch is a commit that happens, fails, or loses its reply. */
  lemma DeliverIsCommit(c: Config, v: View, top: int, messages: seq<int>, t: Tick) returns (reply: CommitReply)
    ensures var r := Deliver(c, v, top, messages, t);
            && SameBooks(r.view, Commit(c, v, top, messages, reply).0) && r.control != Finished
            && (r.control == Continue && v.last < top ==> r.view.last == v.last || reply == Committed)
  {
    hide Publish, Direct, PublishEvents, UpsertOffset;
    var r := Deliver(c, v, top, messages, t);
    reply := if SameBooks(r.view, v) then NotCommitted else t.commit;
  }

  lemma DeliverBooks(c: Config, rows: Rows, v: View, t: Tick)
    requires Replaying(c) && Books(c, rows, v) && Poll(c, rows, v.last) != []
    ensures var ids := Poll(c, rows, v.last);
            var r := Deliver(c, v, ids[|ids| - 1], InRange(ids, c.replay.value), t);
            && Books(c, rows, r.view) && SettledFrom(c, rows, v, r.view)
            && r.view.offsets == v.offsets && r.control != Finished
  {
    hide SelectAfter, InRange, Owes, Deliver, Commit;
    var ids := Poll(c, rows, v.last);
    var reply := DeliverIsCommit(c, v, ids[|ids| - 1], InRange(ids, c.replay.value), t);
    CommitBooks(c, rows, v, reply);
  }

  /** Every iteration keeps the books and the live checkpoints, and it only finishes when nothing that is stored
      is owed any more. */
  lemma IterationBooks(c: Config, rows: Rows, v: View, t: Tick)
    requires Replaying(c) && Books(c, rows, v)
    ensures var r := Iterate(c, rows, v, t);
            && Books(c, rows, r.view) && SettledFrom(c, rows, v, r.view) && r.view.offsets == v.offsets
            && (r.control == Finished ==>
                  forall i :: Owes(rows, c.key.outbox, c.replay.value, i) ==> i in r.view.settled)
  {
    hide SelectAfter, InRange, Deliver, Owes;
    var ids := Poll(c, rows, v.last);
    if InRange(ids, c.replay.value) == [] {
      AllFilteredMeansDone(rows, c.key.outbox, c.replay.value, v.last, c.batchSize);
    } else {
      assert ids != [] by { NothingInRange(c.replay.value); }
      DeliverBooks(c, rows, v.(backoff := c.pollInterval), t);
    }
  }

  lemma NothingInRange(r: Range)
    ensures InRange([], r) == []
  {
  }

  // ── Whole replays ──────────────────────────────────────────────────────

  /** From iteration to iteration rows come and go as `AddsAbove` says, starting from `rows`. This is what the
      outbox fence guarantees of a live database: no row is ever committed below one that was polled. */
  ghost predicate Orderly(c: Config, v: View, rows: Rows, moments: seq<Moment>)
    decreases |moments|
  {
    moments == []
    || (&& AddsAbove(c, v.last, rows, moments[0].rows)
        && var r := Iterate(c, moments[0].rows, v, moments[0].tick);
           r.control == Continue ==> Orderly(c, r.view, moments[0].rows, moments[1..]))
  }

  /** The rows stored at the last poll of the run. */
  function FinalRows(c: Config, v: View, rows: Rows, moments: seq<Moment>): Rows
    decreases |moments|
  {
    if moments == [] then rows
    else
      var r := Iterate(c, moments[0].rows, v, moments[0].tick);
      if r.control == Continue then FinalRows(c, r.view, moments[0].rows, moments[1..]) else moments[0].rows
  }

  /** The row was stored, and owed, at some poll. */
  ghost predicate WasOwed(c: Config, moments: seq<Moment>, i: int) {
    c.replay.Some? && exists j :: 0 <= j < |moments| && Owes(moments[j].rows, c.key.outbox, c.replay.value, i)
  }

  /** Whatever happens on the way, while other transactions commit and sweeps delete, a replay has always settled
      rows in range only, each stored when it was polled, in order and once each; every row still stored at or
      below its cursor that it owes is among them; the live checkpoint is unchanged; and when it completes it has
      settled every row in range that is stored at its last poll. */
  lemma {:induction false} ReplayExact(c: Config, rows: Rows, v: View, moments: seq<Moment>)
    requires Replaying(c) && Books(c, rows, v) && Orderly(c, v, rows, moments)
    ensures var r := Run(c, v, moments);
            var final := FinalRows(c, v, rows, moments);
            && Books(c, final, r.view) && r.view.offsets == v.offsets
            && (forall x :: x in r.view.settled ==> x in v.settled || WasOwed(c, moments, x))
            && (r.control == Finished ==>
                  forall i :: Owes(final, c.key.outbox, c.replay.value, i) ==> i in r.view.settled)
    decreases |moments|
  {
    hide Iterate, Books, AddsAbove, Owes;
    if moments != [] {
      var now := moments[0].rows;
      var w := Iterate(c, now, v, moments[0].tick).view;
      BooksOverChange(c, rows, now, v);
      IterationBooks(c, now, v, moments[0].tick);
      if Iterate(c, now, v, moments[0].tick).control == Continue {
        ReplayExact(c, now, w, moments[1..]);
        OwedLater(c, moments);
      }
    }
  }

  lemma OwedLater(c: Config, moments: seq<Moment>)
    requires moments != []
    ensures forall x :: WasOwed(c, moments[1..], x) ==> WasOwed(c, moments, x)
  {
    forall x | WasOwed(c, moments[1..], x)
      ensures WasOwed(c, moments, x)
    {
      var j :| 0 <= j < |moments| - 1 && Owes(moments[1..][j].rows, c.key.outbox, c.replay.value, x);
      assert moments[1..][j] == moments[j + 1];
    }
  }

  // ── When no rows come or go ────────────────────────────────────────────

  function RangeIds(rows: Rows, o: string, r: Range): set<int> {
    set i | i in rows && Owes(rows, o, r, i)
  }

  ghost predicate Frozen(rows: Rows, moments: seq<Moment>) {
    forall i :: 0 <= i < |moments| ==> moments[i].rows == rows
  }

  lemma {:induction false} FrozenOrderly(c: Config, v: View, rows: Rows, moments: seq<Moment>)
    requires Frozen(rows, moments)
    ensures Orderly(c, v, rows, moments) && FinalRows(c, v, rows, moments) == rows
    decreases |moments|
  {
    hide Iterate;
    if moments != [] {
      FrozenOrderly(c, Iterate(c, rows, v, moments[0].tick).view, rows, moments[1..]);
    }
  }

  /** Then a completed replay has settled exactly the rows with from <= id <= to. */
  lemma FrozenReplay(c: Config, rows: Rows, offsets: map<Key, int>, moments: seq<Moment>)
    requires Replaying(c) && Frozen(rows, moments)
    ensures var r := Run(c, Start(c, offsets), moments);
            r.control == Finished ==> r.view.settled == SortedIds(RangeIds(rows, c.key.outbox, c.replay.value))
  {
    hide Run, FinalRows, Orderly, SortedIds;
    var v := Start(c, offsets);
    StartBooks(c, rows, offsets);
    FrozenOrderly(c, v, rows, moments);
    ReplayExact(c, rows, v, moments);
    var r := Run(c, v, moments);
    if r.control == Finished {
      AscendingUnique(r.view.settled, SortedIds(RangeIds(rows, c.key.outbox, c.replay.value)));
    }
  }

  // ── Termination ────────────────────────────────────────────────────────

  /** Every iteration of the run disposes of the batch it polled, or is the last one because the replay
      is complete. */
  ghost predicate DisposesEachBatch(c: Config, v: View, moments: seq<Moment>)
    decreases |moments|
  {
    moments == []
    || var r := Iterate(c, moments[0].rows, v, moments[0].tick);
       || r.control == Finished
       || (r.control == Continue && r.view.last != v.last && DisposesEachBatch(c, r.view, moments[1..]))
  }

  /** The cursor of a replay moves to the end of a batch with a row it owes. */
  lemma CursorPassesOwed(c: Config, rows: Rows, v: View, t: Tick) returns (owed: int)
    requires c.replay.Some? && Iterate(c, rows, v, t).view.last != v.last
    ensures Owes(rows, c.key.outbox, c.replay.value, owed) && v.last < owed <= Iterate(c, rows, v, t).view.last
  {
    hide SelectAfter, InRange, Commit, Deliver;
    var ids := Poll(c, rows, v.last);
    var messages := InRange(ids, c.replay.value);
    NothingInRange(c.replay.value);
    FilterSpec(ids, c.replay.value);
    owed := messages[0];
    assert owed in messages;
    LastIsTop(ids);
    var w := v.(backoff := c.pollInterval);
    var reply := DeliverIsCommit(c, w, ids[|ids| - 1], messages, t);
    CommitMoves(c, w, ids[|ids| - 1], messages, reply);
  }

  lemma CommitMoves(c: Config, v: View, top: int, messages: seq<int>, reply: CommitReply)
    requires v.last < top
    ensures Commit(c, v, top, messages, reply).0.last == v.last || Commit(c, v, top, messages, reply).0.last == top
  {
  }

  function Above(ids: set<int>, last: int): set<int> {
    set i | i in ids && last < i
  }

  lemma FewerAbove(ids: set<int>, last: int, owed: int, next: int)
    requires owed in ids && last < owed <= next
    ensures |Above(ids, next)| < |Above(ids, last)|
  {
    var a, b := Above(ids, next), Above(ids, last);
    assert b == a + (b - a);
    assert owed in b - a;
  }

  /** A replay that disposes of each batch completes within one iteration more than there are ids it can come to
      owe above its cursor, however the rows come and go. */
  lemma {:induction false} ReplayTerminates(c: Config, v: View, moments: seq<Moment>, ids: set<int>)
    requires c.replay.Some? && DisposesEachBatch(c, v, moments) && |Above(ids, v.last)| < |moments|
    requires forall j, i :: 0 <= j < |moments| && Owes(moments[j].rows, c.key.outbox, c.replay.value, i) ==> i in ids
    ensures Run(c, v, moments).control == Finished
    decreases |moments|
  {
    hide Iterate, Owes, Above;
    var r := Iterate(c, moments[0].rows, v, moments[0].tick);
    if r.control != Finished {
      var owed := CursorPassesOwed(c, moments[0].rows, v, moments[0].tick);
      FewerAbove(ids, v.last, owed, r.view.last);
      ReplayTerminates(c, r.view, moments[1..], ids);
    }
  }

  function Interval(from: int, to: int): (ids: set<int>)
    ensures forall i :: i in ids <==> from <= i <= to
    ensures |ids| == Max(to - from + 1, 0)
    decreases Max(to - from + 1, 0)
  {
    if from > to then {} else Interval(from, to - 1) + {to}
  }

  /** In any case it completes within one iteration more than the width of its range. */
  lemma ReplayTerminatesInRange(c: Config, offsets: map<Key, int>, moments: seq<Moment>)
    requires Replaying(c) && DisposesEachBatch(c, Start(c, offsets), moments)
    requires c.replay.value.to - c.replay.value.from + 1 < |moments|
    ensures Run(c, Start(c, offsets), moments).control == Finished
  {
    hide Interval, DisposesEachBatch, Run, Iterate;
    var r := c.replay.value;
    assert Above(Interval(r.from, r.to), r.from - 1) == Interval(r.from, r.to);
    ReplayTerminates(c, Start(c, offsets), moments, Interval(r.from, r.to));
  }

  // ── The replay command ─────────────────────────────────────────────────

  datatype ReplayError =
    | InvalidRange | PipelineNotFound | PipelineDisabled | PipelineInvalid | WorkerFailed | CheckpointChanged | StillRunning

  datatype ReplayResult = Replayed(before: int, after: int) | ReplayFailed(error: ReplayError)

  /** `COALESCE(MAX(last_change_id), 0)` over all relay groups of the pipeline. */
  function LiveCheckpoint(offsets: map<Key, int>, pipeline: string, outbox: string): int {
    var s := set k | k in offsets && k.pipeline == pipeline && k.outbox == outbox :: -offsets[k];
    if s == {} then 0 else -MinOf(s)
  }

  /** `n` is the highest checkpoint recorded for the pipeline and outbox in any relay group, or zero if there
      is none. */
  ghost predicate IsLive(offsets: map<Key, int>, pipeline: string, outbox: string, n: int) {
    && (forall k :: k in offsets && k.pipeline == pipeline && k.outbox == outbox ==> offsets[k] <= n)
    && ((exists k :: k in offsets && k.pipeline == pipeline && k.outbox == outbox && offsets[k] == n)
        || (n == 0 && forall k :: k in offsets && k.pipeline == pipeline ==> k.outbox != outbox))
  }

  lemma LiveExactly(offsets: map<Key, int>, pipeline: string, outbox: string, n: int)
    ensures IsLive(offsets, pipeline, outbox, n) <==> n == LiveCheckpoint(offsets, pipeline, outbox)
  {
    var s := set k | k in offsets && k.pipeline == pipeline && k.outbox == outbox :: -offsets[k];
    var live := LiveCheckpoint(offsets, pipeline, outbox);
    assert forall k :: k in offsets && k.pipeline == pipeline && k.outbox == outbox ==> -offsets[k] in s;
    if s != {} {
      var k :| k in offsets && k.pipeline == pipeline && k.outbox == outbox && -offsets[k] == MinOf(s);
      assert offsets[k] == live;
    }
    assert IsLive(offsets, pipeline, outbox, live);
  }

  /** Some group's checkpoint has risen above all that were recorded before. */
  ghost predicate RisesAbove(offsets: map<Key, int>, others: map<Key, int>, pipeline: string, outbox: string) {
    exists k :: k in others && k.pipeline == pipeline && k.outbox == outbox && 0 < others[k]
                && forall q :: q in offsets && q.pipeline == pipeline && q.outbox == outbox ==> offsets[q] < others[k]
  }

  lemma RisenChanges(offsets: map<Key, int>, others: map<Key, int>, pipeline: string, outbox: string)
    requires RisesAbove(offsets, others, pipeline, outbox)
    ensures LiveCheckpoint(offsets, pipeline, outbox) != LiveCheckpoint(offsets + others, pipeline, outbox)
  {
    hide LiveCheckpoint;
    LiveExactly(offsets, pipeline, outbox, LiveCheckpoint(offsets, pipeline, outbox));
    LiveExactly(offsets + others, pipeline, outbox, LiveCheckpoint(offsets + others, pipeline, outbox));
  }

  /** The worker's configuration for a replay: the pipeline's own batch size, if it has one, wins. */
  ghost function ReplayConfig(c: Config, configured: Option<nat>, from: int, to: int, batchSize: int): Config {
    c.(replay := Some(Range(from, to)),
       batchSize := if configured.Some? then configured.value else Max(batchSize, 0))
  }

  /** The pipeline's row in the catalog: whether it is enabled, whether its configuration is valid, and its own
      batch size if it has one, which a valid configuration keeps positive. */
  datatype Entry = Entry(enabled: bool, valid: bool, batchSize: Option<nat>)

  /** The range and the batch size are admissible, and the pipeline is there, enabled and valid. */
  predicate Admitted(entry: Option<Entry>, from: int, to: int, batchSize: int) {
    0 <= from <= to && 1 <= batchSize <= 10_000 && entry.Some? && entry.value.enabled && entry.value.valid
  }

  /** One bounded replay through the normal worker, for as long as the script lasts; `others` is what other
      workers commit in the meantime. The replay itself never moves a checkpoint: once its worker has ended
      without dying, the changed-checkpoint error is reported exactly when somebody else moved the live one. A
      replay that completes has settled every row in range stored at its last poll, and nothing else. */
  method RunReplayOnce(c: Config, entry: Option<Entry>, from: int, to: int, batchSize: int,
                       offsets: map<Key, int>, others: map<Key, int>, moments: seq<Moment>)
    returns (r: ReplayResult, offsets': map<Key, int>, settled: seq<int>)
    requires entry.Some? && entry.value.valid && entry.value.batchSize.Some? ==> entry.value.batchSize.value >= 1
    ensures offsets' == offsets
    ensures r == ReplayFailed(InvalidRange) <==> from < 0 || to < from || !(1 <= batchSize <= 10_000)
    ensures r == ReplayFailed(PipelineNotFound) <==> r != ReplayFailed(InvalidRange) && entry.None?
    ensures r == ReplayFailed(PipelineDisabled) <==>
              r != ReplayFailed(InvalidRange) && entry.Some? && !entry.value.enabled
    ensures r == ReplayFailed(PipelineInvalid) <==>
              r != ReplayFailed(InvalidRange) && entry.Some? && entry.value.enabled && !entry.value.valid
    ensures Admitted(entry, from, to, batchSize) ==>
              var config := ReplayConfig(c, entry.value.batchSize, from, to, batchSize);
              var run := Run(config, Start(config, offsets), moments);
              && (r == ReplayFailed(WorkerFailed) <==> run.control == Died)
              && (r == ReplayFailed(StillRunning) <==> run.control == Continue)
              && (r.Replayed? || r == ReplayFailed(CheckpointChanged) <==> run.control in {Finished, Stopped})
              && (r == ReplayFailed(CheckpointChanged) ==>
                    forall n :: !(IsLive(offsets, c.key.pipeline, c.key.outbox, n)
                                  && IsLive(offsets + others, c.key.pipeline, c.key.outbox, n)))
              && (RisesAbove(offsets, others, c.key.pipeline, c.key.outbox) ==> !r.Replayed?)
              && settled == run.view.settled
    ensures r.Replayed? ==>
              && Admitted(entry, from, to, batchSize) && r.before == r.after
              && IsLive(offsets, c.key.pipeline, c.key.outbox, r.before)
              && IsLive(offsets + others, c.key.pipeline, c.key.outbox, r.after)
    ensures (r.Replayed? || r == ReplayFailed(CheckpointChanged)) && NeverToldToStop(moments) ==>
              var config := ReplayConfig(c, entry.value.batchSize, from, to, batchSize);
              Completed(config, c.key.outbox, from, to, offsets, moments, settled)
  {
    hide IsLive, LiveCheckpoint, RisesAbove, Completed, Run;
    offsets', settled := offsets, [];
    if from < 0 || to < from || !(1 <= batchSize <= 10_000) {
      return ReplayFailed(InvalidRange), offsets', settled;
    }
    if entry.None? {
      return ReplayFailed(PipelineNotFound), offsets', settled;
    }
    if !entry.value.enabled {
      return ReplayFailed(PipelineDisabled), offsets', settled;
    }
    if !entry.value.valid {
      return ReplayFailed(PipelineInvalid), offsets', settled;
    }
    var before := LiveCheckpoint(offsets, c.key.pipeline, c.key.outbox);
    var size := if entry.value.batchSize.Some? then entry.value.batchSize.value else batchSize;
    var config := c.(replay := Some(Range(from, to)), batchSize := size);
    LiveAtBoth(offsets, offsets + others, c.key.pipeline, c.key.outbox);
    if RisesAbove(offsets, others, c.key.pipeline, c.key.outbox) {
      RisenChanges(offsets, others, c.key.pipeline, c.key.outbox);
    }
    var worker := new Worker(config, offsets);
    CompletedReplay(config, offsets, moments);
    CheckpointsKept(config, Start(config, offsets), moments);
    NeverStopped(config, Start(config, offsets), moments);
    var control := worker.Loop(moments);
    offsets', settled := worker.source.offsets, worker.settled;
    if control == Died {
      return ReplayFailed(WorkerFailed), offsets', settled;
    }
    if control == Continue {
      return ReplayFailed(StillRunning), offsets', settled;
    }
    var after := LiveCheckpoint(offsets' + others, c.key.pipeline, c.key.outbox);
    if before != after {
      return ReplayFailed(CheckpointChanged), offsets', settled;
    }
    r := Replayed(before, after);
  }

  function FirstRows(moments: seq<Moment>): Rows {
    if moments == [] then map[] else moments[0].rows
  }

  /** Unless rows were committed below the cursor, these are rows in range, in order and once each, and among
      them is every one stored at the last poll. */
  ghost predicate Completed(c: Config, outbox: string, from: int, to: int, offsets: map<Key, int>,
                            moments: seq<Moment>, settled: seq<int>)
  {
    Orderly(c, Start(c, offsets), FirstRows(moments), moments) ==>
      && Ascending(settled)
      && (forall x :: x in settled ==>
            from <= x <= to
            && exists j :: 0 <= j < |moments| && x in moments[j].rows && moments[j].rows[x].outbox == outbox)
      && var final := FinalRows(c, Start(c, offsets), FirstRows(moments), moments);
         forall i :: i in final && final[i].outbox == outbox && from <= i <= to ==> i in settled
  }

  lemma CompletedReplay(c: Config, offsets: map<Key, int>, moments: seq<Moment>)
    requires Replaying(c)
    ensures var r := Run(c, Start(c, offsets), moments);
            r.control == Finished ==>
              Completed(c, c.key.outbox, c.replay.value.from, c.replay.value.to, offsets, moments, r.view.settled)
  {
    hide Run, FinalRows, Orderly;
    StartBooks(c, FirstRows(moments), offsets);
    if Orderly(c, Start(c, offsets), FirstRows(moments), moments) {
      ReplayExact(c, FirstRows(moments), Start(c, offsets), moments);
      forall x | x in Run(c, Start(c, offsets), moments).view.settled
        ensures exists j :: 0 <= j < |moments| && x in moments[j].rows && moments[j].rows[x].outbox == c.key.outbox
      {
        var j :| 0 <= j < |moments| && Owes(moments[j].rows, c.key.outbox, c.replay.value, x);
      }
    }
  }

  lemma LiveAtBoth(offsets: map<Key, int>, offsets': map<Key, int>, pipeline: string, outbox: string)
    ensures forall n :: IsLive(offsets, pipeline, outbox, n) <==> n == LiveCheckpoint(offsets, pipeline, outbox)
    ensures forall n :: IsLive(offsets', pipeline, outbox, n) <==> n == LiveCheckpoint(offsets', pipeline, outbox)
  {
    hide IsLive, LiveCheckpoint;
    forall n
      ensures IsLive(offsets, pipeline, outbox, n) <==> n == LiveCheckpoint(offsets, pipeline, outbox)
      ensures IsLive(offsets', pipeline, outbox, n) <==> n == LiveCheckpoint(offsets', pipeline, outbox)
    {
      LiveExactly(offsets, pipeline, outbox, n);
      LiveExactly(offsets', pipeline, outbox, n);
    }
  }

  /** A replay leaves the checkpoints alone, come what may. */
  lemma {:induction false} CheckpointsKept(c: Config, v: View, moments: seq<Moment>)
    requires c.replay.Some?
    ensures Run(c, v, moments).view.offsets == v.offsets
    decreases |moments|
  {
    hide Poll, Messages, Deliver;
    if moments != [] {
      var t := moments[0].tick;
      var ids := Poll(c, moments[0].rows, v.last);
      if ids != [] {
        var reply := DeliverIsCommit(c, v.(backoff := c.pollInterval), ids[|ids| - 1], Messages(c, ids), t);
      }
      CheckpointsKept(c, Iterate(c, moments[0].rows, v, t).view, moments[1..]);
    }
  }

  ghost predicate NeverToldToStop(moments: seq<Moment>) {
    forall i :: 0 <= i < |moments| ==> !moments[i].tick.stop && !moments[i].tick.stopInSleep
  }

  lemma {:induction false} NeverStopped(c: Config, v: View, moments: seq<Moment>)
    ensures NeverToldToStop(moments) ==> Run(c, v, moments).control != Stopped
    decreases |moments|
  {
    hide Poll, Messages;
    if moments != [] && NeverToldToStop(moments) {
      assert !moments[0].tick.stop && !moments[0].tick.stopInSleep;
      NeverStopped(c, Iterate(c, moments[0].rows, v, moments[0].tick).view, moments[1..]);
    }
  }
}
