/** Bounded replays inside the protocol: what the outbox fence guarantees of the rows is what a replay needs, so
    that a replay in a live system settles every committed row of its range that no sweep has deleted. */
module ReplayInProtocol {
  import opened Ids
  import opened Protocol
  import opened ProtocolInvariants
  import opened ProtocolRuns
  import opened ProtocolLimits
  import opened WorkerInProtocol
  import opened LoopInProtocol
  import R = Replay
  import L = WorkerLoop

  // ── Rows only come above what has been polled ──────────────────────────

  /** Every row of the outbox at or below `upTo` that is stored in `n` was stored in `st`. */
  ghost predicate NoneNew(st: Store, n: Store, outbox: string, upTo: int) {
    forall i :: i in n.rows && n.rows[i].outbox == outbox && i <= upTo ==> i in st.rows && st.rows[i].outbox == outbox
  }

  lemma PublishAbove(st: Store, t: int, step: PublishStep, outbox: string)
    requires StoreInv(st) && PublishEnabled(st, t, step)
    ensures NoneNew(st, AfterPublish(st, t, step), outbox, PolledUpTo(st, outbox))
  {
    if step.TxCommit? {
      assert TxInv(st, st.txs[t]);
    }
  }

  lemma CleanedRows(s: State, v: int, step: CleanupStep)
    requires CleanupEnabled(s, v, step)
    ensures var rows := AfterCleanup(s, v, step).store.rows;
            forall i :: i in rows ==> i in s.store.rows && rows[i] == s.store.rows[i]
  {
  }

  lemma StepAbove(h: Hash, s: State, step: Step, outbox: string)
    requires StoreInv(s.store) && Enabled(h, s, step)
    ensures NoneNew(s.store, Next(h, s, step).store, outbox, PolledUpTo(s.store, outbox))
  {
    hide StoreInv, AfterPublish, AfterSession, AfterPoll, AfterCleanup, AfterDeliver;
    match step
    case Publish(t, p) => PublishAbove(s.store, t, p, outbox);
    case Session(w, p) => SessionFrame(h, s, w, p);
    case Poll(w, p) => PollFrame(s, w, p);
    case Deliver(w, p) => DeliverFrame(s, w, p);
    case Cleanup(v, p) => CleanedRows(s, v, p);
    case Admin(p) =>
  }

  lemma {:induction false} PathAbove(h: Hash, s: State, states: seq<State>, steps: seq<Step>, i: nat, outbox: string)
    requires Reachable(h, s) && IsPath(h, s, states, steps) && i <= |steps|
    ensures NoneNew(s.store, states[i].store, outbox, PolledUpTo(s.store, outbox))
    ensures PolledUpTo(s.store, outbox) <= PolledUpTo(states[i].store, outbox)
    decreases i
  {
    hide Reachable, Next, Enabled, DestInv, OwnInv, SweepsInv, LossInv, FlightInv, StoreInv;
    if i > 0 {
      PathAbove(h, s, states, steps, i - 1, outbox);
      LeadsNowhere(h, s);
      PathExtends(h, s, s, states, steps, i - 1);
      ReachableOn(h, s, states[i - 1]);
      ReachableInv(h, states[i - 1]);
      StepAbove(h, states[i - 1], steps[i - 1], outbox);
      StoreMonotone(h, states[i - 1], steps[i - 1]);
    }
  }

  /** Whatever happens, no row ever appears at or below what has been polled: this is what the fence is for. */
  lemma RowsComeAbove(h: Hash, s: State, n: State, outbox: string)
    requires Reachable(h, s) && Leads(h, s, n)
    ensures NoneNew(s.store, n.store, outbox, PolledUpTo(s.store, outbox))
    ensures PolledUpTo(s.store, outbox) <= PolledUpTo(n.store, outbox)
  {
    var states, steps :| IsPath(h, s, states, steps) && states[|steps|] == n;
    PathAbove(h, s, states, steps, |steps|, outbox);
  }

  // ── The rounds of a replay ─────────────────────────────────────────────

  /** The cursor is where the replay was told to start, or within what has been polled. */
  ghost predicate Placed(c: L.Config, st: Store, last: int) {
    c.replay.Some? && (last == c.replay.value.from - 1 || last <= PolledUpTo(st, c.key.outbox))
  }

  lemma ReadyPlaced(h: Hash, s: State, w: int, c: L.Config, sink: Sink, last: int)
    requires Inv(h, s) && Ready(s, w, c, sink, s.cat.offsets, last) && c.replay.Some?
    ensures Placed(c, s.store, last)
  {
    assert FlightInv(s.store, s.workers[w]);
  }

  /** While anything happens between two polls of a replay, its books stay right. */
  lemma BooksMeanwhile(h: Hash, s: State, n: State, c: L.Config, v: L.View)
    requires Reachable(h, s) && Leads(h, s, n) && R.Books(c, s.store.rows, v) && Placed(c, s.store, v.last)
    ensures R.Books(c, n.store.rows, v) && Placed(c, n.store, v.last)
  {
    hide Reachable, Leads, R.Books;
    RowsComeAbove(h, s, n, c.key.outbox);
    R.BooksOverChange(c, s.store.rows, n.store.rows, v);
  }

  lemma RoundBooks(h: Hash, w: int, c: L.Config, sink: Sink, v: L.View, r: Round)
    requires Reachable(h, r.before) && IsRound(h, w, c, sink, v, r)
    requires R.Replaying(c) && R.Books(c, r.before.store.rows, v)
    ensures var result := RoundResult(c, v, r);
            && R.Books(c, r.after.store.rows, result.view) && r.after.cat.offsets == r.before.cat.offsets
            && (result.control == L.Finished ==>
                  forall i :: R.Owes(r.before.store.rows, c.key.outbox, c.replay.value, i) ==> i in result.view.settled)
            && (result.control == L.Continue ==> Placed(c, r.after.store, result.view.last))
  {
    hide Reachable, Leads, L.Iterate, DestOf, R.Owes, Ready, Inv;
    R.IterationBooks(c, r.before.store.rows, v.(offsets := r.before.cat.offsets), r.tick);
    if RoundResult(c, v, r).control == L.Continue {
      Continuing(h, w, c, sink, v, r);
      ReachableOn(h, r.before, r.after);
      ReachableInv(h, r.after);
      ReadyPlaced(h, r.after, w, c, sink, RoundResult(c, v, r).view.last);
    }
  }

  /** The rounds of a replay keep its books over the rows of each moment and leave every checkpoint alone, and
      when the replay completes, every row in range stored at its last poll has been settled. */
  lemma {:induction false} RoundsKeepBooks(h: Hash, w: int, c: L.Config, sink: Sink, s: State, v: L.View,
                                           rounds: seq<Round>)
    requires Reachable(h, s) && Interleaved(h, w, c, sink, s, v, rounds) && rounds != [] && R.Replaying(c)
    requires R.Books(c, s.store.rows, v) && Placed(c, s.store, v.last)
    ensures var n := rounds[|rounds| - 1];
            var result := LoopResult(c, v, rounds);
            && R.Books(c, n.after.store.rows, result.view) && Reachable(h, n.before)
            && (result.control == L.Finished ==>
                  forall i :: R.Owes(n.before.store.rows, c.key.outbox, c.replay.value, i) ==> i in result.view.settled)
    ensures forall j :: 0 <= j < |rounds| ==> rounds[j].after.cat.offsets == rounds[j].before.cat.offsets
    decreases |rounds|
  {
    hide Reachable, Leads, IsRound, Placed, L.Iterate, R.Books, R.Owes;
    var r := rounds[0];
    var result := RoundResult(c, v, r);
    ReachableOn(h, s, r.before);
    BooksMeanwhile(h, s, r.before, c, v);
    RoundBooks(h, w, c, sink, v, r);
    if |rounds| > 1 {
      RoundLeads(h, w, c, sink, v, r);
      ReachableOn(h, r.before, r.after);
      RoundsKeepBooks(h, w, c, sink, r.after, result.view, rounds[1..]);
      assert rounds[1..][|rounds| - 2] == rounds[|rounds| - 1];
      forall j | 0 <= j < |rounds|
        ensures rounds[j].after.cat.offsets == rounds[j].before.cat.offsets
      {
        if j > 0 { assert rounds[1..][j - 1] == rounds[j]; }
      }
    }
  }

  /** In a live system a replay can start at any time the fence is free, and then take its first round. */
  lemma ReplayCanStart(h: Hash, s: State, c: L.Config, sink: Sink) returns (w: int, n: State)
    requires FenceFree(s.store, c.key.outbox) && R.Replaying(c) && c.key.relayGroup == "replay:" + c.key.pipeline
    ensures Leads(h, s, n) && n.cat == s.cat && n.dest == s.dest && n.store == s.store
    ensures Ready(n, w, c, sink, n.cat.offsets, L.Start(c, n.cat.offsets).last)
  {
    w, n := StartReplayer(h, s, c.key, sink, c.dryRun, c.replay.value);
  }

  /** A replay in a live system: started anywhere in its life, with publishers, sweeps, the pipeline's owner and
      anything else at work between its polls and any inputs to them, it settles rows of its range only, in order
      and once each, each really accepted, dead-lettered or observed; no round of it touches a checkpoint; and when
      it completes, every row of its range committed by its last poll has been settled or had been swept. */
  lemma ReplayCoversRange(h: Hash, w: int, c: L.Config, sink: Sink, s: State, rounds: seq<Round>)
    requires Reachable(h, s) && R.Replaying(c) && rounds != []
    requires Interleaved(h, w, c, sink, s, L.Start(c, s.cat.offsets), rounds)
    ensures var n := rounds[|rounds| - 1];
            var result := LoopResult(c, L.Start(c, s.cat.offsets), rounds);
            && Ascending(result.view.settled)
            && (forall i :: i in result.view.settled ==>
                  c.replay.value.from <= i <= c.replay.value.to && Settled(n.after.dest, c.key, i))
            && (result.control == L.Finished ==>
                  forall i | i in n.before.store.committed && n.before.store.committed[i].outbox == c.key.outbox ::
                    c.replay.value.from <= i <= c.replay.value.to ==>
                      i in result.view.settled || i in n.before.swept)
    ensures forall j :: 0 <= j < |rounds| ==> rounds[j].after.cat.offsets == rounds[j].before.cat.offsets
  {
    hide Reachable, Interleaved, LoopResult, DestInv, OwnInv, SweepsInv, FlightInv, PollInv;
    var v := L.Start(c, s.cat.offsets);
    var n := rounds[|rounds| - 1];
    R.StartBooks(c, s.store.rows, s.cat.offsets);
    RoundsKeepBooks(h, w, c, sink, s, v, rounds);
    LoopSettles(h, w, c, sink, s, v, rounds);
    ReachableInv(h, n.before);
  }
}
