/** Who takes part in retention, and how far an outbox may be cleaned up. */
module Retention {
  import opened Common
  import opened Ids
  import opened Outbox

  /** The primary key of a relay checkpoint. */
  datatype Key = Key(relayGroup: string, pipeline: string, outbox: string)

  /** A native outbox pipeline; disabled ones are still retention participants. */
  datatype Pipeline = Pipeline(outbox: string, enabled: bool)

  datatype Catalog = Catalog(
    pipelines: map<string, Pipeline>,
    offsets: map<Key, int>,
    groups: map<string, string>,
    groupOffsets: map<(string, string), int>,
    leases: map<(string, string), int>)

  const EMPTY_CATALOG: Catalog := Catalog(map[], map[], map[], map[], map[])

  // ── Offset writes ──────────────────────────────────────────────────────

  /** The checkpoint upsert: `GREATEST` of the stored and the new offset. */
  function UpsertOffset(offsets: map<Key, int>, k: Key, offset: int): map<Key, int> {
    offsets[k := if k in offsets then Max(offsets[k], offset) else offset]
  }

  /** `commit_offset`: refuses negative offsets, unknown groups and any step backwards, and clears
      the consumer's lease. */
  function CommitGroupOffset(c: Catalog, group: string, consumer: string, offset: int): Option<Catalog> {
    var gc := (group, consumer);
    if offset < 0 || group !in c.groups || (gc in c.groupOffsets && offset < c.groupOffsets[gc]) then None
    else Some(c.(groupOffsets := c.groupOffsets[gc := offset], leases := c.leases - {gc}))
  }

  /** A commit is refused exactly if it is negative, names no group, or falls behind the consumer's recorded offset;
      otherwise this consumer stands at the committed offset without a lease, and nothing else changes. */
  lemma CommitExactly(c: Catalog, group: string, consumer: string, offset: int)
    ensures var r := CommitGroupOffset(c, group, consumer, offset);
            && (r.None? <==>
                  offset < 0 || group !in c.groups
                  || ((group, consumer) in c.groupOffsets && offset < c.groupOffsets[(group, consumer)]))
            && (r.Some? ==>
                  && (group, consumer) in r.value.groupOffsets && r.value.groupOffsets[(group, consumer)] == offset
                  && (group, consumer) !in r.value.leases
                  && r.value.groups == c.groups && r.value.pipelines == c.pipelines && r.value.offsets == c.offsets
                  && forall gc :: gc != (group, consumer) ==>
                       && (gc in r.value.groupOffsets <==> gc in c.groupOffsets)
                       && (gc in c.groupOffsets ==> r.value.groupOffsets[gc] == c.groupOffsets[gc])
                       && (gc in r.value.leases <==> gc in c.leases)
                       && (gc in c.leases ==> r.value.leases[gc] == c.leases[gc]))
  {
  }

  // ── The safe offset ────────────────────────────────────────────────────

  /** `COALESCE(MIN(x), 0)`. */
  function MinOrZero(s: set<int>): int { if s == {} then 0 else MinOf(s) }

  function PipelineOffsets(c: Catalog, pipeline: string, outbox: string): set<int> {
    set k | k in c.offsets && k.pipeline == pipeline && k.outbox == outbox :: c.offsets[k]
  }

  function GroupOffsets(c: Catalog, group: string): set<int> {
    set gc | gc in c.groupOffsets && gc.0 == group :: c.groupOffsets[gc]
  }

  function ParticipantOffsets(c: Catalog, outbox: string): set<int> {
    (set p | p in c.pipelines && c.pipelines[p].outbox == outbox :: MinOrZero(PipelineOffsets(c, p, outbox)))
    + (set g | g in c.groups && c.groups[g] == outbox :: MinOrZero(GroupOffsets(c, g)))
  }

  /** `MIN(safe_offset)` over all participants; `None` when there are none. */
  function SafeOffset(c: Catalog, outbox: string): Option<int> {
    var all := ParticipantOffsets(c, outbox);
    if all == {} then None else Some(MinOf(all))
  }

  /** The checkpoints a sweep of this outbox takes into account. */
  function CoveredKeys(c: Catalog, outbox: string): set<Key> {
    set k | k in c.offsets && k.outbox == outbox && k.pipeline in c.pipelines && c.pipelines[k.pipeline].outbox == outbox
  }

  function CoveredConsumers(c: Catalog, outbox: string): set<(string, string)> {
    set gc | gc in c.groupOffsets && gc.0 in c.groups && c.groups[gc.0] == outbox
  }

  lemma SafeBelowPipeline(c: Catalog, outbox: string, pipeline: string)
    requires pipeline in c.pipelines && c.pipelines[pipeline].outbox == outbox
    ensures SafeOffset(c, outbox).Some?
    ensures SafeOffset(c, outbox).value <= MinOrZero(PipelineOffsets(c, pipeline, outbox))
  {
    assert MinOrZero(PipelineOffsets(c, pipeline, outbox)) in ParticipantOffsets(c, outbox);
  }

  lemma SafeBelowGroup(c: Catalog, outbox: string, group: string)
    requires group in c.groups && c.groups[group] == outbox
    ensures SafeOffset(c, outbox).Some? && SafeOffset(c, outbox).value <= MinOrZero(GroupOffsets(c, group))
  {
    assert MinOrZero(GroupOffsets(c, group)) in ParticipantOffsets(c, outbox);
  }

  lemma SafeBelowKey(c: Catalog, outbox: string, k: Key)
    requires k in CoveredKeys(c, outbox)
    ensures SafeOffset(c, outbox).Some? && SafeOffset(c, outbox).value <= c.offsets[k]
  {
    SafeBelowPipeline(c, outbox, k.pipeline);
    assert c.offsets[k] in PipelineOffsets(c, k.pipeline, outbox);
  }

  lemma SafeBelowConsumer(c: Catalog, outbox: string, gc: (string, string))
    requires gc in CoveredConsumers(c, outbox)
    ensures SafeOffset(c, outbox).Some? && SafeOffset(c, outbox).value <= c.groupOffsets[gc]
  {
    assert c.groupOffsets[gc] in GroupOffsets(c, gc.0);
    assert MinOrZero(GroupOffsets(c, gc.0)) in ParticipantOffsets(c, outbox);
  }

  /** The safe offset is the largest bound that respects every participant: it is some participant's
      own position, zero for a participant without any recorded offset. */
  lemma SafeOffsetAttained(c: Catalog, outbox: string)
    ensures SafeOffset(c, outbox).Some?
       ==> (exists p :: p in c.pipelines && c.pipelines[p].outbox == outbox
                        && SafeOffset(c, outbox).value == MinOrZero(PipelineOffsets(c, p, outbox)))
           || (exists g :: g in c.groups && c.groups[g] == outbox
                        && SafeOffset(c, outbox).value == MinOrZero(GroupOffsets(c, g)))
    ensures SafeOffset(c, outbox).None?
       <==> (forall p :: p in c.pipelines ==> c.pipelines[p].outbox != outbox)
            && (forall g :: g in c.groups ==> c.groups[g] != outbox)
  {
    var all := ParticipantOffsets(c, outbox);
    if p :| p in c.pipelines && c.pipelines[p].outbox == outbox {
      assert MinOrZero(PipelineOffsets(c, p, outbox)) in all;
    }
    if g :| g in c.groups && c.groups[g] == outbox {
      assert MinOrZero(GroupOffsets(c, g)) in all;
    }
  }

  /** The pipeline is registered on the outbox and no relay group has a checkpoint for it there. */
  ghost predicate NeverRelayed(c: Catalog, pipeline: string, outbox: string) {
    && pipeline in c.pipelines && c.pipelines[pipeline].outbox == outbox
    && forall k :: k in c.offsets && k.pipeline == pipeline ==> k.outbox != outbox
  }

  /** The group belongs to the outbox and none of its consumers has committed anything. */
  ghost predicate NeverConsumed(c: Catalog, group: string, outbox: string) {
    group in c.groups && c.groups[group] == outbox && forall gc :: gc in c.groupOffsets ==> gc.0 != group
  }

  /** `n` is a position that somebody taking part in the outbox has recorded, or zero for one who has none. */
  ghost predicate Position(c: Catalog, outbox: string, n: int) {
    || (exists k :: k in CoveredKeys(c, outbox) && c.offsets[k] == n)
    || (exists gc :: gc in CoveredConsumers(c, outbox) && c.groupOffsets[gc] == n)
    || (n == 0 && exists p :: NeverRelayed(c, p, outbox))
    || (n == 0 && exists g :: NeverConsumed(c, g, outbox))
  }

  lemma PipelinePosition(c: Catalog, p: string, outbox: string)
    requires p in c.pipelines && c.pipelines[p].outbox == outbox
    ensures Position(c, outbox, MinOrZero(PipelineOffsets(c, p, outbox)))
  {
    var s := PipelineOffsets(c, p, outbox);
    assert forall k :: k in c.offsets && k.pipeline == p && k.outbox == outbox ==> c.offsets[k] in s;
    if s == {} {
      assert NeverRelayed(c, p, outbox);
    } else {
      var k :| k in c.offsets && k.pipeline == p && k.outbox == outbox && c.offsets[k] == MinOf(s);
      assert k in CoveredKeys(c, outbox);
    }
  }

  lemma GroupPosition(c: Catalog, g: string, outbox: string)
    requires g in c.groups && c.groups[g] == outbox
    ensures Position(c, outbox, MinOrZero(GroupOffsets(c, g)))
  {
    var s := GroupOffsets(c, g);
    assert forall gc :: gc in c.groupOffsets && gc.0 == g ==> c.groupOffsets[gc] in s;
    if s == {} {
      assert NeverConsumed(c, g, outbox);
    } else {
      var gc :| gc in c.groupOffsets && gc.0 == g && c.groupOffsets[gc] == MinOf(s);
      assert gc in CoveredConsumers(c, outbox);
    }
  }

  /** The safe offset is the least position of all who take part: it is a position, it is at or below every
      position, and there is one exactly if somebody takes part. */
  lemma SafeOffsetExactly(c: Catalog, outbox: string, n: int)
    ensures SafeOffset(c, outbox).Some? ==> Position(c, outbox, SafeOffset(c, outbox).value)
    ensures Position(c, outbox, n) ==> SafeOffset(c, outbox).Some? && SafeOffset(c, outbox).value <= n
  {
    hide Position;
    SafeOffsetAttained(c, outbox);
    if SafeOffset(c, outbox).Some? {
      SafeIsPosition(c, outbox);
    }
    if Position(c, outbox, n) {
      SafeBelowPosition(c, outbox, n);
    }
  }

  lemma SafeIsPosition(c: Catalog, outbox: string)
    requires SafeOffset(c, outbox).Some?
    ensures Position(c, outbox, SafeOffset(c, outbox).value)
  {
    hide Position, SafeOffset, MinOrZero;
    SafeOffsetAttained(c, outbox);
    if p :| p in c.pipelines && c.pipelines[p].outbox == outbox
            && SafeOffset(c, outbox).value == MinOrZero(PipelineOffsets(c, p, outbox)) {
      PipelinePosition(c, p, outbox);
    } else {
      var g :| g in c.groups && c.groups[g] == outbox && SafeOffset(c, outbox).value == MinOrZero(GroupOffsets(c, g));
      GroupPosition(c, g, outbox);
    }
  }

  lemma SafeBelowPosition(c: Catalog, outbox: string, n: int)
    requires Position(c, outbox, n)
    ensures SafeOffset(c, outbox).Some? && SafeOffset(c, outbox).value <= n
  {
    hide SafeOffset;
    if k :| k in CoveredKeys(c, outbox) && c.offsets[k] == n {
      SafeBelowKey(c, outbox, k);
    } else if gc :| gc in CoveredConsumers(c, outbox) && c.groupOffsets[gc] == n {
      SafeBelowConsumer(c, outbox, gc);
    } else if p :| NeverRelayed(c, p, outbox) {
      SafeBelowPipeline(c, outbox, p);
      assert PipelineOffsets(c, p, outbox) == {};
    } else {
      var g :| NeverConsumed(c, g, outbox);
      SafeBelowGroup(c, outbox, g);
      assert GroupOffsets(c, g) == {};
    }
  }

  // ── What may be deleted ────────────────────────────────────────────────

  /** An unexpired lease of a consumer group of this outbox. */
  predicate LeaseBlocked(c: Catalog, outbox: string, now: int) {
    exists gc :: gc in c.leases && gc.0 in c.groups && c.groups[gc.0] == outbox && c.leases[gc] > now
  }

  function Eligible(rows: Rows, outbox: string, cutoff: int, safe: Option<int>): set<int> {
    set i | i in rows && rows[i].outbox == outbox && rows[i].created < cutoff && (safe.None? || i <= safe.value)
  }
}
