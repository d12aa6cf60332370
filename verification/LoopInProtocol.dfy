/** Whole runs of the worker loop, with the rest of the system at work between its iterations. */
module LoopInProtocol {
  import opened Protocol
  import opened ProtocolInvariants
  import opened ProtocolRuns
  import opened ProtocolTheorems
  import opened ProtocolLimits
  import opened WorkerInProtocol
  import L = WorkerLoop

  /** One iteration of the loop inside the protocol: the state it starts in, its inputs, and the state it
      leaves behind. */
  datatype Round = Round(before: State, tick: L.Tick, after: State)

  /** The loop polls the rows of that moment and writes to the checkpoints of that moment. */
  function RoundResult(c: L.Config, v: L.View, r: Round): L.Result {
    L.Iterate(c, r.before.store.rows, v.(offsets := r.before.cat.offsets), r.tick)
  }

  ghost predicate IsRound(h: Hash, w: int, c: L.Config, sink: Sink, v: L.View, r: Round) {
    && Ready(r.before, w, c, sink, r.before.cat.offsets, v.last)
    && Leads(h, r.before, r.after) && Kept(r.before, r.after)
    && r.after.dest == DestOf(c, sink, r.before.dest, r.before.store.rows, v.(offsets := r.before.cat.offsets), r.tick)
    && SameProgress(r.after, w, c, sink, RoundResult(c, v, r))
  }

  /** Rounds of one loop, started at view `v` somewhere after state `s`. Between two rounds the system may
      take any path. */
  ghost predicate Interleaved(h: Hash, w: int, c: L.Config, sink: Sink, s: State, v: L.View, rounds: seq<Round>)
    decreases |rounds|
  {
    rounds == []
    || (&& Leads(h, s, rounds[0].before) && IsRound(h, w, c, sink, v, rounds[0])
        && (|rounds| > 1 ==> RoundResult(c, v, rounds[0]).control == L.Continue)
        && Interleaved(h, w, c, sink, rounds[0].after, RoundResult(c, v, rounds[0]).view, rounds[1..]))
  }

  /** Where the loop stands after its rounds. */
  function LoopResult(c: L.Config, v: L.View, rounds: seq<Round>): L.Result
    decreases |rounds|
  {
    if rounds == [] then L.Result(v, L.Continue, false, [])
    else if |rounds| == 1 then RoundResult(c, v, rounds[0])
    else LoopResult(c, RoundResult(c, v, rounds[0]).view, rounds[1..])
  }

  // ── The loop can always take its next iteration ────────────────────────

  /** What the rest of the system does before iteration `i`, seen from state `n`. */
  type Environment = (nat, State) -> State

  /** It may do anything that is possible, short of ending this worker's session or keeping the fence. */
  ghost predicate Obliging(h: Hash, w: int, c: L.Config, sink: Sink, env: Environment) {
    forall i: nat, n: State, last: int | Ready(n, w, c, sink, n.cat.offsets, last) ::
      Leads(h, n, env(i, n)) && Ready(env(i, n), w, c, sink, env(i, n).cat.offsets, last)
  }

  /** Every round starts in the state the environment has brought about, from number `first` on. */
  ghost predicate Chosen(env: Environment, first: nat, s: State, rounds: seq<Round>)
    decreases |rounds|
  {
    rounds == [] || (rounds[0].before == env(first, s) && Chosen(env, first + 1, rounds[0].after, rounds[1..]))
  }

  /** The live counterpart of starting a replay: whenever its lock and the fence are free, a worker of this
      pipeline can take its lock, load its checkpoint, and stand where the loop starts. */
  lemma OwnerCanStart(h: Hash, s: State, c: L.Config, tenant: string, sink: Sink) returns (w: int, n: State)
    requires c.replay.None? && FenceFree(s.store, c.key.outbox)
    requires h(c.key.relayGroup, LockScope(c.key, tenant)) !in s.locks
    ensures Leads(h, s, n) && n.cat == s.cat && n.dest == s.dest && n.store == s.store
    ensures Ready(n, w, c, sink, n.cat.offsets, L.Start(c, n.cat.offsets).last)
    ensures n.workers[w].tenant == tenant && n.locks == s.locks[h(c.key.relayGroup, LockScope(c.key, tenant)) := w]
  {
    w := FreshId(s.workers.Keys);
    var acquire := Session(w, Acquire(c.key, h(c.key.relayGroup, LockScope(c.key, tenant)), tenant, sink, c.dryRun));
    var a := Next(h, s, acquire);
    n := Next(h, a, Session(w, LoadOffset));
    LeadsNowhere(h, s);
    LeadsOn(h, s, s, acquire);
    LeadsOn(h, s, a, Session(w, LoadOffset));
  }

  lemma RowsPositive(h: Hash, s: State)
    requires Reachable(h, s)
    ensures forall i :: i in s.store.rows ==> 0 <= i
  {
    ReachableInv(h, s);
  }

  lemma NextRound(h: Hash, s: State, w: int, c: L.Config, sink: Sink, v: L.View, t: L.Tick) returns (r: Round)
    requires Reachable(h, s) && Ready(s, w, c, sink, s.cat.offsets, v.last)
    ensures r.before == s && r.tick == t && IsRound(h, w, c, sink, v, r) && Reachable(h, r.after)
  {
    hide Ready, Reachable;
    RowsPositive(h, s);
    var n := IterationInProtocol(h, s, w, c, sink, v.(offsets := s.cat.offsets), t);
    r := Round(s, t, n);
    ReachableOn(h, s, n);
  }

  /** Whatever the inputs of the loop and whatever the rest of the system does between its iterations, the
      whole loop is a run of the protocol. */
  lemma {:induction false} LoopInProtocol(h: Hash, s: State, w: int, c: L.Config, sink: Sink, v: L.View,
                                          ticks: seq<L.Tick>, env: Environment, first: nat) returns (rounds: seq<Round>)
    requires Reachable(h, s) && Ready(s, w, c, sink, s.cat.offsets, v.last)
    requires Obliging(h, w, c, sink, env)
    ensures Interleaved(h, w, c, sink, s, v, rounds) && |rounds| <= |ticks|
    ensures forall j :: 0 <= j < |rounds| ==> rounds[j].tick == ticks[j]
    ensures Chosen(env, first, s, rounds)
    ensures |rounds| == |ticks| || LoopResult(c, v, rounds).control != L.Continue
    decreases |ticks|
  {
    hide Ready, Reachable, Leads, IsRound, L.Iterate;
    if ticks == [] {
      rounds := [];
    } else {
      var m := env(first, s);
      Obliged(h, w, c, sink, env, first, s, v.last);
      ReachableOn(h, s, m);
      var r := NextRound(h, m, w, c, sink, v, ticks[0]);
      var result := RoundResult(c, v, r);
      if result.control == L.Continue {
        Continuing(h, w, c, sink, v, r);
        var rest := LoopInProtocol(h, r.after, w, c, sink, result.view, ticks[1..], env, first + 1);
        rounds := [r] + rest;
        assert rounds[1..] == rest && rounds[0] == r;
      } else {
        rounds := [r];
        assert rounds[1..] == [];
      }
    }
  }

  lemma Obliged(h: Hash, w: int, c: L.Config, sink: Sink, env: Environment, i: nat, n: State, last: int)
    requires Obliging(h, w, c, sink, env) && Ready(n, w, c, sink, n.cat.offsets, last)
    ensures Leads(h, n, env(i, n)) && Ready(env(i, n), w, c, sink, env(i, n).cat.offsets, last)
  {
  }

  lemma Continuing(h: Hash, w: int, c: L.Config, sink: Sink, v: L.View, r: Round)
    requires IsRound(h, w, c, sink, v, r) && RoundResult(c, v, r).control == L.Continue
    ensures Ready(r.after, w, c, sink, r.after.cat.offsets, RoundResult(c, v, r).view.last)
  {
  }

  // ── And it loses nothing ───────────────────────────────────────────────

  lemma {:induction false} RoundsLead(h: Hash, w: int, c: L.Config, sink: Sink, s: State, v: L.View, rounds: seq<Round>)
    requires Interleaved(h, w, c, sink, s, v, rounds) && rounds != []
    ensures Leads(h, s, rounds[|rounds| - 1].after)
    decreases |rounds|
  {
    hide Leads, Ready, L.Iterate;
    LeadsFurther(h, s, rounds[0].before, rounds[0].after);
    if |rounds| > 1 {
      RoundsLead(h, w, c, sink, rounds[0].after, RoundResult(c, v, rounds[0]).view, rounds[1..]);
      LeadsFurther(h, s, rounds[0].after, rounds[|rounds| - 1].after);
    }
  }

  lemma RoundSettles(h: Hash, w: int, c: L.Config, sink: Sink, v: L.View, r: Round)
    requires Reachable(h, r.before) && IsRound(h, w, c, sink, v, r)
    ensures forall i :: i in RoundResult(c, v, r).view.settled ==> i in v.settled || Settled(r.after.dest, c.key, i)
  {
    hide DestOf, L.Iterate, Ready;
    ReachableInv(h, r.before);
    IterationSettles(c, sink, r.before.dest, r.before.store.rows, v.(offsets := r.before.cat.offsets), r.tick);
  }

  /** Everything a loop has called settled is settled for good. */
  lemma {:induction false} LoopSettles(h: Hash, w: int, c: L.Config, sink: Sink, s: State, v: L.View, rounds: seq<Round>)
    requires Reachable(h, s) && Interleaved(h, w, c, sink, s, v, rounds) && rounds != []
    ensures forall i :: i in LoopResult(c, v, rounds).view.settled ==>
              i in v.settled || Settled(rounds[|rounds| - 1].after.dest, c.key, i)
    decreases |rounds|
  {
    hide Reachable, Leads, Settled, IsRound, L.Iterate;
    var r := rounds[0];
    var result := RoundResult(c, v, r);
    ReachableOn(h, s, r.before);
    RoundSettles(h, w, c, sink, v, r);
    if |rounds| > 1 {
      RoundLeads(h, w, c, sink, v, r);
      ReachableOn(h, r.before, r.after);
      LoopSettles(h, w, c, sink, r.after, result.view, rounds[1..]);
      RoundsLead(h, w, c, sink, r.after, result.view, rounds[1..]);
      var n := rounds[1..][|rounds| - 2].after;
      forall i | i in result.view.settled
        ensures i in v.settled || Settled(n.dest, c.key, i)
      {
        if i !in v.settled {
          SettledForGood(h, r.after, n, c.key, i);
        }
      }
    }
  }

  lemma RoundLeads(h: Hash, w: int, c: L.Config, sink: Sink, v: L.View, r: Round)
    requires IsRound(h, w, c, sink, v, r)
    ensures Leads(h, r.before, r.after)
  {
  }

  lemma {:induction false} LoopOffsets(h: Hash, w: int, c: L.Config, sink: Sink, s: State, v: L.View, rounds: seq<Round>)
    requires Interleaved(h, w, c, sink, s, v, rounds) && rounds != []
    ensures rounds[|rounds| - 1].after.cat.offsets == LoopResult(c, v, rounds).view.offsets
    decreases |rounds|
  {
    hide Leads, Ready, L.Iterate;
    if |rounds| > 1 {
      LoopOffsets(h, w, c, sink, rounds[0].after, RoundResult(c, v, rounds[0]).view, rounds[1..]);
    }
  }

  /** The loop loses nothing. Started anywhere in the life of the system, with anything happening between its
      iterations and any inputs to them, it ends in a reachable state with the checkpoints it computed, and
      there every message it has settled was really accepted, dead-lettered or observed by its own inputs, and
      every committed row at or below its checkpoint is accounted for. */
  lemma LoopLosesNothing(h: Hash, w: int, c: L.Config, sink: Sink, s: State, v: L.View, rounds: seq<Round>)
    requires Reachable(h, s) && Interleaved(h, w, c, sink, s, v, rounds) && rounds != []
    ensures var n := rounds[|rounds| - 1].after;
            var view := LoopResult(c, v, rounds).view;
            && Reachable(h, n) && n.cat.offsets == view.offsets
            && (forall i :: i in view.settled ==> i in v.settled || Settled(n.dest, c.key, i))
            && (forall id | id in n.store.committed && n.store.committed[id].outbox == c.key.outbox ::
                  c.key in view.offsets && id <= view.offsets[c.key] ==> Accounted(n, c.key, id))
  {
    hide Interleaved, LoopResult, Reachable;
    var n := rounds[|rounds| - 1].after;
    RoundsLead(h, w, c, sink, s, v, rounds);
    ReachableOn(h, s, n);
    LoopSettles(h, w, c, sink, s, v, rounds);
    LoopOffsets(h, w, c, sink, s, v, rounds);
    forall id | id in n.store.committed && n.store.committed[id].outbox == c.key.outbox
                && c.key in n.cat.offsets && id <= n.cat.offsets[c.key]
      ensures Accounted(n, c.key, id)
    {
      NoLoss(h, n, c.key, id);
    }
  }
}
