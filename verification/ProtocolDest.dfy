/** The destinations: unique keys, and acceptance that is never forgotten. */
module ProtocolDest {
  import opened Ids
  import opened Upsert
  import opened DedupKey
  import opened Retention
  import opened Protocol
  import opened ProtocolInvariants

  lemma EventKeyInjective(o: string, i: int, p: string, j: int)
    ensures EventKey(o, i) == EventKey(p, j) <==> o == p && i == j
  {
    KeyInjective(Identity("outbox_" + o, i, 0), Identity("outbox_" + p, j, 0));
    assert ("outbox_" + o)[7..] == o && ("outbox_" + p)[7..] == p;
  }

  // ── Inbox inserts ──────────────────────────────────────────────────────

  lemma InboxInsert(table: seq<(string, Msg)>, outbox: string, ids: seq<int>)
    requires InboxInv(table)
    ensures var r := InsertIgnore(table, InboxBatch(outbox, ids));
            && InboxInv(r) && table <= r
            && forall i :: i in ids ==> (EventKey(outbox, i), Msg(outbox, i)) in r
  {
    var batch := InboxBatch(outbox, ids);
    var r := InsertIgnore(table, batch);
    InsertIgnoreSpec(table, batch);
    forall e | e in r
      ensures e.0 == EventKey(e.1.outbox, e.1.id)
    {
      var j :| 0 <= j < |r| && r[j] == e;
      if j < |table| {
        assert table[j] == e;
      } else {
        assert e in batch;
      }
    }
    forall i | i in ids
      ensures (EventKey(outbox, i), Msg(outbox, i)) in r
    {
      var p :| 0 <= p < |ids| && ids[p] == i;
      assert batch[p].0 in Keys(r);
      var j :| 0 <= j < |r| && Keys(r)[j] == batch[p].0;
      assert r[j] in r;
      EventKeyInjective(outbox, i, r[j].1.outbox, r[j].1.id);
    }
  }

  lemma DlqInsert(table: seq<((string, string), Msg)>, k: Key, ids: seq<int>)
    requires NoDup(Keys(table)) && forall e :: e in table ==> e.0.1 == EventKey(e.1.outbox, e.1.id)
    ensures var r := InsertIgnore(table, DlqBatch(k, ids));
            && NoDup(Keys(r)) && table <= r
            && (forall e :: e in r ==> e.0.1 == EventKey(e.1.outbox, e.1.id))
            && forall i :: i in ids ==> ((k.pipeline, EventKey(k.outbox, i)), Msg(k.outbox, i)) in r
  {
    var batch := DlqBatch(k, ids);
    var r := InsertIgnore(table, batch);
    InsertIgnoreSpec(table, batch);
    forall e | e in r
      ensures e.0.1 == EventKey(e.1.outbox, e.1.id)
    {
      var j :| 0 <= j < |r| && r[j] == e;
      if j < |table| {
        assert table[j] == e;
      } else {
        assert e in batch;
      }
    }
    forall i | i in ids
      ensures ((k.pipeline, EventKey(k.outbox, i)), Msg(k.outbox, i)) in r
    {
      var p :| 0 <= p < |ids| && ids[p] == i;
      assert batch[p].0 in Keys(r);
      var j :| 0 <= j < |r| && Keys(r)[j] == batch[p].0;
      assert r[j] in r;
      EventKeyInjective(k.outbox, i, r[j].1.outbox, r[j].1.id);
    }
  }

  // ── Over a delivery step ───────────────────────────────────────────────

  /** What a destination holds, a later state of it holds too. */
  ghost predicate Remembers(d: Dest, d': Dest) {
    && d.accepted <= d'.accepted && d.dryRun <= d'.dryRun
    && d.dlq <= d'.dlq
    && forall n :: InboxTable(d, n) <= InboxTable(d', n)
  }

  lemma RememberSettled(d: Dest, d': Dest, k: Key, i: int)
    requires Remembers(d, d')
    ensures Settled(d, k, i) ==> Settled(d', k, i)
  {
    if sink :| Delivery(k, i, sink) in d.accepted {
      assert Delivery(k, i, sink) in d'.accepted;
    }
    var row := ((k.pipeline, EventKey(k.outbox, i)), Msg(k.outbox, i));
    if row in d.dlq {
      var j :| 0 <= j < |d.dlq| && d.dlq[j] == row;
      assert d'.dlq[j] == row;
    }
  }

  lemma RememberInbox(d: Dest, d': Dest, n: string, o: string, i: int)
    requires Remembers(d, d')
    ensures InInbox(d, n, o, i) ==> InInbox(d', n, o, i)
  {
    var row := (EventKey(o, i), Msg(o, i));
    if row in InboxTable(d, n) {
      var j :| 0 <= j < |InboxTable(d, n)| && InboxTable(d, n)[j] == row;
      assert InboxTable(d', n)[j] == row;
    }
  }

  lemma AcceptKeepsDest(d: Dest, k: Key, sink: Sink, batch: seq<int>, took: set<int>)
    requires DestInv(d) && took <= Elems(batch)
    requires sink.Inbox? ==> took == {} || took == Elems(batch)
    ensures var d' := Accept(d, k, sink, batch, took);
            && DestInv(d') && Remembers(d, d')
            && forall i :: i in took ==> Delivery(k, i, sink) in d'.accepted
  {
    var d' := Accept(d, k, sink, batch, took);
    if sink.Inbox? && took != {} {
      InboxInsert(InboxTable(d, sink.name), k.outbox, batch);
    }
    assert Remembers(d, d');
    forall q, i, n | Delivery(q, i, Inbox(n)) in d'.accepted
      ensures InInbox(d', n, q.outbox, i)
    {
      if Delivery(q, i, Inbox(n)) in d.accepted {
        RememberInbox(d, d', n, q.outbox, i);
      } else {
        assert q == k && i in took && sink == Inbox(n);
      }
    }
  }

  lemma DlqKeepsDest(d: Dest, k: Key, batch: seq<int>)
    requires DestInv(d)
    ensures var d' := d.(dlq := InsertIgnore(d.dlq, DlqBatch(k, batch)));
            && DestInv(d') && Remembers(d, d')
            && forall i :: i in batch ==> InDlq(d', k, i)
  {
    DlqInsert(d.dlq, k, batch);
    var d' := d.(dlq := InsertIgnore(d.dlq, DlqBatch(k, batch)));
    forall q, i, n | Delivery(q, i, Inbox(n)) in d'.accepted
      ensures InInbox(d', n, q.outbox, i)
    {
      assert InInbox(d, n, q.outbox, i);
    }
  }

  lemma DestAfterDeliver(s: State, w: int, step: DeliverStep)
    requires DestInv(s.dest) && DeliverEnabled(s, w, step)
    ensures var n := AfterDeliver(s, w, step);
            && DestInv(n.dest) && Remembers(s.dest, n.dest)
            && (Disposed(n.workers[w].phase) && !Disposed(s.workers[w].phase) ==>
                  forall i :: i in n.workers[w].phase.batch ==> Settled(n.dest, s.workers[w].key, i))
  {
    var k := s.workers[w].key;
    var b := IdsOf(s.workers[w].phase);
    var n := AfterDeliver(s, w, step);
    match step
    case SinkReply(took, ok, _) =>
      AcceptKeepsDest(s.dest, k, s.workers[w].sink, b, took);
      if ok {
        forall i | i in b
          ensures Settled(n.dest, k, i)
        {
          assert i in took;
          assert Delivery(k, i, s.workers[w].sink) in n.dest.accepted;
        }
      }
    case WriteDlq(stored, _) =>
      if stored { DlqKeepsDest(s.dest, k, b); }
    case _ =>
  }
}
