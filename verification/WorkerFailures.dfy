/** What the worker's failure count counts. */
module WorkerFailures {
  import opened ReplayRange
  import opened Outbox
  import opened Retention
  import opened WorkerLoop

  /** What an iteration means for the failure count: a failed poll or publish attempt, a batch that was
      accepted or dead-lettered, or nothing of the kind. */
  datatype Note = Failed | Cleared | Silent

  predicate DeadLetters(c: Config, v: View, outcome: PublishOutcome, t: Tick) {
    c.dlqEnabled && GivenUp(c, outcome, v.failures) && t.dlq == Fine && t.commit == Committed
  }

  function NoteOf(c: Config, rows: Rows, v: View, t: Tick): Note {
    var ids := Poll(c, rows, v.last);
    if t.stop || t.poll == Permanent then Silent
    else if t.poll == Transient then Failed
    else if c.dryRun || ids == [] || Messages(c, ids) == [] then Silent
    else
      var outcome := Publish(c, v.breaker, t).0;
      if outcome.Success? || DeadLetters(c, v, outcome, t) then Cleared
      else if outcome.Failure? then Failed
      else Silent
  }

  function Notes(c: Config, v: View, moments: seq<Moment>): seq<Note>
    decreases |moments|
  {
    if moments == [] then []
    else
      var (rows, t) := (moments[0].rows, moments[0].tick);
      var r := Iterate(c, rows, v, t);
      [NoteOf(c, rows, v, t)] + (if r.control == Continue then Notes(c, r.view, moments[1..]) else [])
  }

  /** Failures since the last cleared batch, on top of `before` if there is none. */
  function Since(before: nat, notes: seq<Note>): nat {
    if notes == [] then before
    else
      var front := Since(before, notes[..|notes| - 1]);
      match notes[|notes| - 1]
      case Failed => front + 1
      case Cleared => 0
      case Silent => front
  }

  lemma {:induction false} SinceCons(before: nat, note: Note, notes: seq<Note>)
    ensures Since(before, [note] + notes) == Since(Since(before, [note]), notes)
    decreases |notes|
  {
    if notes == [] {
      assert [note] + notes == [note];
    } else {
      var front := notes[..|notes| - 1];
      SinceCons(before, note, front);
      assert ([note] + notes)[..|notes|] == [note] + front;
    }
  }

  /** The count after a publish attempt. */
  function Counted(v: View, outcome: PublishOutcome, c: Config, t: Tick): nat {
    if outcome.Success? || DeadLetters(c, v, outcome, t) then 0
    else if outcome.Failure? then v.failures + 1
    else v.failures
  }

  lemma DeliveryNote(c: Config, v: View, top: int, messages: seq<int>, t: Tick)
    requires !c.dryRun && 0 <= top
    ensures Deliver(c, v, top, messages, t).view.failures == Counted(v, Publish(c, v.breaker, t).0, c, t)
  {
  }

  lemma IterationNote(c: Config, rows: Rows, v: View, t: Tick)
    requires forall i :: i in rows ==> 0 <= i
    ensures Iterate(c, rows, v, t).view.failures == Since(v.failures, [NoteOf(c, rows, v, t)])
  {
    hide SelectAfter, Deliver, InRange, DeadLetters, Publish;
    var ids := Poll(c, rows, v.last);
    var note := NoteOf(c, rows, v, t);
    assert [note][..0] == [];
    if ids != [] {
      assert ids[|ids| - 1] in ids;
      var w := v.(backoff := c.pollInterval);
      SameDeadLetters(c, v, w, t);
      if c.dryRun {
        DryRunKeepsCount(c, w, ids[|ids| - 1], Messages(c, ids), t);
      } else {
        DeliveryNote(c, w, ids[|ids| - 1], Messages(c, ids), t);
      }
    }
  }

  lemma SameDeadLetters(c: Config, v: View, w: View, t: Tick)
    requires v.failures == w.failures && v.breaker == w.breaker
    ensures forall outcome :: DeadLetters(c, v, outcome, t) == DeadLetters(c, w, outcome, t)
  {
  }

  lemma DryRunKeepsCount(c: Config, v: View, top: int, messages: seq<int>, t: Tick)
    requires c.dryRun
    ensures Deliver(c, v, top, messages, t).view.failures == v.failures
  {
  }

  /** The count is the number of failed polls and failed attempts since the last batch that was accepted or
      dead-lettered; empty polls, refusals by the breaker and dry runs neither add to it nor reset it. */
  lemma {:induction false} FailuresCountSince(c: Config, v: View, moments: seq<Moment>)
    requires forall j :: 0 <= j < |moments| ==> forall i :: i in moments[j].rows ==> 0 <= i
    ensures Run(c, v, moments).view.failures == Since(v.failures, Notes(c, v, moments))
    decreases |moments|
  {
    hide Iterate, NoteOf, Since;
    if moments == [] {
      NothingSince(v.failures);
    } else {
      var rows, t := moments[0].rows, moments[0].tick;
      var r := Iterate(c, rows, v, t);
      var note := NoteOf(c, rows, v, t);
      IterationNote(c, rows, v, t);
      if r.control == Continue {
        FailuresCountSince(c, r.view, moments[1..]);
        SinceCons(v.failures, note, Notes(c, r.view, moments[1..]));
      } else {
        assert [note] + [] == [note];
      }
    }
  }

  lemma FreshFailuresCount(c: Config, offsets: map<Key, int>, moments: seq<Moment>)
    requires forall j :: 0 <= j < |moments| ==> forall i :: i in moments[j].rows ==> 0 <= i
    ensures Run(c, Start(c, offsets), moments).view.failures == Since(0, Notes(c, Start(c, offsets), moments))
  {
    hide Run, Notes, Since;
    FailuresCountSince(c, Start(c, offsets), moments);
  }

  lemma NothingSince(before: nat)
    ensures Since(before, []) == before
  {
  }
}
