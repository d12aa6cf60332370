/** The inbox sink: one `INSERT … ON CONFLICT (event_id) DO NOTHING` per published batch, and
    a running count of the duplicates it skipped. */
module Inbox {
  import opened Upsert

  datatype InboxRow = InboxRow(source: string, payload: string)

  type Table = seq<(string, InboxRow)>

  /** How the single statement of a publish ends, as the relay sees it. */
  datatype Reply =
    | Committed      // rows stored, success reported
    | Lost           // rows stored, the reply never arrived
    | Refused        // nothing stored, error reported

  /** What an observer can say about a sink: its table, its counter, and two tallies kept only
      to state the conservation law. */
  datatype View = View(table: Table, dedupCount: nat, succeeded: nat, lostRows: nat)

  function Publish(v: View, batch: Table, reply: Reply): (r: View) {
    if batch == [] then v
    else
      var stored := InsertIgnore(v.table, batch);
      match reply
      case Refused => v
      case Lost => v.(table := stored, lostRows := v.lostRows + Added(v.table, batch))
      case Committed => v.(table := stored,
                           dedupCount := v.dedupCount + Skipped(v.table, batch),
                           succeeded := v.succeeded + |batch|)
  }

  /** Rows a statement adds: one per key that is new to the table and not repeated earlier in
      the batch. */
  function Added<V>(table: seq<(string, V)>, batch: seq<(string, V)>): nat
    decreases |batch|
  {
    if batch == [] then 0
    else if batch[0].0 in Keys(table) then Added(table, batch[1..])
    else 1 + Added(table + [batch[0]], batch[1..])
  }

  /** Rows a statement skips. */
  function Skipped<V>(table: seq<(string, V)>, batch: seq<(string, V)>): nat
    decreases |batch|
  {
    if batch == [] then 0
    else if batch[0].0 in Keys(table) then 1 + Skipped(table, batch[1..])
    else Skipped(table + [batch[0]], batch[1..])
  }

  /** The subtraction `messages.len() - inserted` never underflows and counts the skipped rows. */
  lemma {:induction false} AddedPlusSkipped<V>(table: seq<(string, V)>, batch: seq<(string, V)>)
    ensures |InsertIgnore(table, batch)| == |table| + Added(table, batch)
    ensures Added(table, batch) + Skipped(table, batch) == |batch|
    decreases |batch|
  {
    if batch != [] {
      if batch[0].0 in Keys(table) {
        AddedPlusSkipped(table, batch[1..]);
      } else {
        AddedPlusSkipped(table + [batch[0]], batch[1..]);
      }
    }
  }

  class InboxSink {
    var table: Table
    var dedupCount: nat

    constructor ()
      ensures table == [] && dedupCount == 0
    {
      table := [];
      dedupCount := 0;
    }

    method PublishBatch(batch: Table, reply: Reply) returns (ok: bool)
      modifies this
      ensures ok <==> batch == [] || reply == Committed
      ensures forall s: nat, l: nat ::
                var after := Publish(View(old(table), old(dedupCount), s, l), batch, reply);
                after.table == table && after.dedupCount == dedupCount
    {
      if batch == [] {
        return true;
      }
      AddedPlusSkipped(table, batch);
      var before := |table|;
      if reply != Refused {
        table := InsertIgnore(table, batch);
      }
      if reply != Committed {
        return false;
      }
      var inserted := |table| - before;
      var duplicates := |batch| - inserted;
      if duplicates > 0 {
        dedupCount := dedupCount + duplicates;
      }
      return true;
    }
  }

  // ── Whole runs: retries, repeated batches, lost replies ────────────────

  datatype Call = Call(batch: Table, reply: Reply)

  function PublishAll(v: View, calls: seq<Call>): View {
    if calls == [] then v
    else
      var most := PublishAll(v, calls[..|calls| - 1]);
      Publish(most, calls[|calls| - 1].batch, calls[|calls| - 1].reply)
  }

  /** The messages of the calls that reported success. */
  function Succeeded(calls: seq<Call>): nat {
    if calls == [] then 0
    else
      var last := calls[|calls| - 1];
      Succeeded(calls[..|calls| - 1]) + (if last.reply == Committed then |last.batch| else 0)
  }

  function Reached(call: Call): bool { call.reply != Refused }

  /** Whatever is retried, repeated or lost, from any table a sink may find and any counter: every event id
      is stored at most once, nothing stored is lost, every message of a statement that reached the table is
      stored, nothing else is added, and the counters balance: `dedup_count` grows by the messages of
      successful calls minus the rows those calls inserted. A restarted sink finds a table and starts a new
      counter; another sink's insert looks like a call whose reply was lost. */
  lemma {:induction false} InboxRun(start: View, calls: seq<Call>)
    requires NoDup(Keys(start.table))
    ensures var v := PublishAll(start, calls);
            && NoDup(Keys(v.table)) && start.table <= v.table
            && (forall c, i :: 0 <= c < |calls| && Reached(calls[c]) && 0 <= i < |calls[c].batch|
                  ==> calls[c].batch[i].0 in Keys(v.table))
            && (forall j :: |start.table| <= j < |v.table|
                  ==> exists c :: 0 <= c < |calls| && Reached(calls[c]) && v.table[j] in calls[c].batch)
            && v.dedupCount - start.dedupCount
               == (v.succeeded - start.succeeded) - (|v.table| - |start.table| - (v.lostRows - start.lostRows))
  {
    if calls != [] {
      var front := calls[..|calls| - 1];
      var last := calls[|calls| - 1];
      InboxRun(start, front);
      var most := PublishAll(start, front);
      var v := PublishAll(start, calls);
      InsertIgnoreSpec(most.table, last.batch);
      AddedPlusSkipped(most.table, last.batch);
      KeysOfPrefix(most.table, v.table);
      forall c, i | 0 <= c < |calls| && Reached(calls[c]) && 0 <= i < |calls[c].batch|
        ensures calls[c].batch[i].0 in Keys(v.table)
      {
        if c < |front| {
          assert front[c] == calls[c];
        }
      }
      forall j | |start.table| <= j < |v.table|
        ensures exists c :: 0 <= c < |calls| && Reached(calls[c]) && v.table[j] in calls[c].batch
      {
        if j < |most.table| {
          var c :| 0 <= c < |front| && Reached(front[c]) && most.table[j] in front[c].batch;
          assert calls[c] == front[c];
        } else {
          assert calls[|front|] == last;
        }
      }
    }
  }

  /** The messages of successful calls are what the tally says. */
  lemma {:induction false} SucceededExactly(start: View, calls: seq<Call>)
    ensures PublishAll(start, calls).succeeded == start.succeeded + Succeeded(calls)
    decreases |calls|
  {
    hide InsertIgnore, Added, Skipped;
    if calls != [] {
      SucceededExactly(start, calls[..|calls| - 1]);
    }
  }

  lemma KeysOfPrefix<V>(a: seq<(string, V)>, b: seq<(string, V)>)
    requires a <= b
    ensures forall k :: k in Keys(a) ==> k in Keys(b)
  {
    forall k | k in Keys(a)
      ensures k in Keys(b)
    {
      var i :| 0 <= i < |a| && Keys(a)[i] == k;
      assert Keys(b)[i] == k;
    }
  }

  /** Publishing a batch again, in whole, stores nothing new. */
  lemma {:induction false} RepublishStoresNothing<V>(table: seq<(string, V)>, batch: seq<(string, V)>)
    requires forall i :: 0 <= i < |batch| ==> batch[i].0 in Keys(table)
    ensures InsertIgnore(table, batch) == table
    decreases |batch|
  {
    if batch != [] {
      RepublishStoresNothing(table, batch[1..]);
    }
  }
}
