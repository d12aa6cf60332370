/** How long a sweep's lease guard holds: as long as its fence, and no longer. */
module ProtocolLeases {
  import opened Retention
  import opened Protocol
  import opened ProtocolInvariants
  import opened ProtocolRuns
  import opened ProtocolLimits

  /** A lease of the outbox that has not expired at `now`. */
  predicate Leased(c: Catalog, gc: (string, string), outbox: string, now: int) {
    gc in c.leases && gc.0 in c.groups && c.groups[gc.0] == outbox && c.leases[gc] > now
  }

  /** The step grants, clears or overwrites this consumer's lease. */
  predicate Touches(step: Step, gc: (string, string)) {
    step.Admin? && match step.admin
                   case GrantLease(g, c, _) => (g, c) == gc
                   case CommitGroup(g, c, _) => (g, c) == gc
                   case DropGroup(g) => g == gc.0
                   case _ => false
  }

  /** Step `m` grants a lease on the outbox that outlives `now`, and nothing touches it before state `j`. */
  ghost predicate GrantStands(states: seq<State>, steps: seq<Step>, m: nat, j: nat, gc: (string, string),
                              outbox: string, now: int)
    requires m < j <= |steps| && |states| == |steps| + 1
  {
    && steps[m].Admin? && steps[m].admin.GrantLease? && (steps[m].admin.group, steps[m].admin.consumer) == gc
    && gc.0 in states[m].cat.groups && states[m].cat.groups[gc.0] == outbox
    && steps[m].admin.expires > now
    && forall q :: m < q < j ==> !Touches(steps[q], gc)
  }

  // ── One step ───────────────────────────────────────────────────────────

  lemma OnlyAdminMovesLeases(h: Hash, s: State, step: Step)
    requires Enabled(h, s, step) && !step.Admin?
    ensures Next(h, s, step).cat.leases == s.cat.leases && Next(h, s, step).cat.groups == s.cat.groups
    ensures Next(h, s, step).clock == s.clock
  {
    match step
    case Publish(_, _) =>
    case Session(w, p) => SessionFrame(h, s, w, p);
    case Poll(w, p) => PollFrame(s, w, p);
    case Deliver(w, p) => DeliverFrame(s, w, p);
    case Cleanup(v, p) => CleanupFrame(s, v, p);
  }

  lemma UntouchedByAdmin(s: State, step: AdminStep, gc: (string, string), outbox: string, now: int)
    requires AdminEnabled(s, step) && !Touches(Admin(step), gc)
    requires gc in s.cat.leases ==> gc.0 in s.cat.groups
    ensures Leased(AfterAdmin(s, step).cat, gc, outbox, now) <==> Leased(s.cat, gc, outbox, now)
  {
  }

  /** A step that does not touch a consumer's lease neither makes nor ends it. */
  lemma UntouchedLease(h: Hash, s: State, step: Step, gc: (string, string), outbox: string, now: int)
    requires Enabled(h, s, step) && !Touches(step, gc)
    requires forall c :: c in s.cat.leases ==> c.0 in s.cat.groups
    ensures Leased(Next(h, s, step).cat, gc, outbox, now) <==> Leased(s.cat, gc, outbox, now)
  {
    if step.Admin? {
      UntouchedByAdmin(s, step.admin, gc, outbox, now);
    } else {
      OnlyAdminMovesLeases(h, s, step);
    }
  }

  /** A step that touches it ends it, unless it grants it anew. */
  lemma TouchedLease(h: Hash, s: State, step: Step, gc: (string, string), outbox: string, now: int)
    requires Enabled(h, s, step) && Touches(step, gc)
    ensures Leased(Next(h, s, step).cat, gc, outbox, now)
       <==> (step.admin.GrantLease? && s.cat.groups[gc.0] == outbox && step.admin.expires > now)
  {
  }

  lemma ClockStep(h: Hash, s: State, step: Step)
    requires Enabled(h, s, step)
    ensures s.clock <= Next(h, s, step).clock
  {
    if step.Admin? {
      AdminFrame(s, step.admin);
    } else {
      OnlyAdminMovesLeases(h, s, step);
    }
  }

  // ── Over whole runs ────────────────────────────────────────────────────

  lemma {:induction false} ClockNeverFalls(h: Hash, clock: int, states: seq<State>, steps: seq<Step>, i: nat, j: nat)
    requires IsRun(h, clock, states, steps) && i <= j <= |steps|
    ensures states[i].clock <= states[j].clock
    decreases j
  {
    if i < j {
      ClockNeverFalls(h, clock, states, steps, i, j - 1);
      ClockStep(h, states[j - 1], steps[j - 1]);
    }
  }

  lemma LeasesHaveGroups(h: Hash, clock: int, states: seq<State>, steps: seq<Step>, i: nat)
    requires IsRun(h, clock, states, steps) && i <= |steps|
    ensures forall c :: c in states[i].cat.leases ==> c.0 in states[i].cat.groups
  {
    RunKeepsInv(h, clock, states, steps, i);
  }

  /** A lease that was not there at `i` and is there at `j` was granted in between, and the grant stands. */
  lemma {:induction false} LeaseOrigin(h: Hash, clock: int, states: seq<State>, steps: seq<Step>, i: nat, j: nat,
                                       gc: (string, string), outbox: string, now: int) returns (m: nat)
    requires IsRun(h, clock, states, steps) && i <= j <= |steps|
    requires !Leased(states[i].cat, gc, outbox, now) && Leased(states[j].cat, gc, outbox, now)
    ensures i <= m < j && GrantStands(states, steps, m, j, gc, outbox, now)
    decreases j
  {
    hide Leased, Touches;
    var p := j - 1;
    LeasesHaveGroups(h, clock, states, steps, p);
    assert Enabled(h, states[p], steps[p]) && states[p + 1] == Next(h, states[p], steps[p]);
    if Touches(steps[p], gc) {
      TouchedLease(h, states[p], steps[p], gc, outbox, now);
      m := p;
      TouchedGrant(h, states[p], steps[p], gc);
    } else {
      UntouchedLease(h, states[p], steps[p], gc, outbox, now);
      m := LeaseOrigin(h, clock, states, steps, i, p, gc, outbox, now);
    }
  }

  lemma TouchedGrant(h: Hash, s: State, step: Step, gc: (string, string))
    requires Enabled(h, s, step) && Touches(step, gc)
    ensures step.Admin? && (step.admin.GrantLease? ==>
              (step.admin.group, step.admin.consumer) == gc && gc.0 in s.cat.groups)
  {
  }

  lemma {:induction false} LeaseStays(h: Hash, clock: int, states: seq<State>, steps: seq<Step>, m: nat, j: nat,
                                      gc: (string, string), outbox: string, now: int)
    requires IsRun(h, clock, states, steps) && m < j <= |steps| && GrantStands(states, steps, m, j, gc, outbox, now)
    ensures Leased(states[j].cat, gc, outbox, now)
    decreases j
  {
    hide Leased;
    var p := j - 1;
    assert Enabled(h, states[p], steps[p]) && states[p + 1] == Next(h, states[p], steps[p]);
    if p == m {
      TouchedLease(h, states[p], steps[p], gc, outbox, now);
    } else {
      LeaseStays(h, clock, states, steps, m, p, gc, outbox, now);
      LeasesHaveGroups(h, clock, states, steps, p);
      UntouchedLease(h, states[p], steps[p], gc, outbox, now);
    }
  }

  /** Some lease granted since state `i` still stands at state `j`. */
  ghost predicate GrantedSince(states: seq<State>, steps: seq<Step>, i: nat, j: nat, outbox: string, now: int)
    requires i <= j <= |steps| && |states| == |steps| + 1
  {
    exists m: nat, gc :: i <= m < j && GrantStands(states, steps, m, j, gc, outbox, now)
  }

  /** From the moment an unblocked sweep gives its fence back, at any later time, and so at its commit: an
      unexpired lease of the outbox exists if and only if one was granted since then and still stands. */
  lemma LeaseGuardExactly(h: Hash, clock: int, states: seq<State>, steps: seq<Step>, i: nat, j: nat, v: int)
    requires IsRun(h, clock, states, steps) && 0 < i <= j <= |steps|
    requires steps[i - 1] == Cleanup(v, SweepUnlock) && v in states[i - 1].sweeps
    requires states[i - 1].sweeps[v].stage.Resolved? || states[i - 1].sweeps[v].stage.Deleted?
    requires !states[i - 1].sweeps[v].blocked
    ensures LeaseBlocked(states[j].cat, states[i - 1].sweeps[v].outbox, states[j].clock)
       <==> GrantedSince(states, steps, i, j, states[i - 1].sweeps[v].outbox, states[j].clock)
  {
    hide Leased;
    var outbox, now := states[i - 1].sweeps[v].outbox, states[j].clock;
    FreeAtUnlock(h, clock, states, steps, i, j, v);
    if LeaseBlocked(states[j].cat, outbox, now) {
      var gc := ALease(states[j].cat, outbox, now);
      NoLease(states[i].cat, gc, outbox, now);
      var m := LeaseOrigin(h, clock, states, steps, i, j, gc, outbox, now);
    }
    if GrantedSince(states, steps, i, j, outbox, now) {
      var m: nat, gc :| i <= m < j && GrantStands(states, steps, m, j, gc, outbox, now);
      LeaseStays(h, clock, states, steps, m, j, gc, outbox, now);
      NoLease(states[j].cat, gc, outbox, now);
    }
  }

  lemma ALease(c: Catalog, outbox: string, now: int) returns (gc: (string, string))
    requires LeaseBlocked(c, outbox, now)
    ensures Leased(c, gc, outbox, now)
  {
    gc :| gc in c.leases && gc.0 in c.groups && c.groups[gc.0] == outbox && c.leases[gc] > now;
  }

  lemma NoLease(c: Catalog, gc: (string, string), outbox: string, now: int)
    ensures !LeaseBlocked(c, outbox, now) ==> !Leased(c, gc, outbox, now)
  {
  }

  lemma FreeAtUnlock(h: Hash, clock: int, states: seq<State>, steps: seq<Step>, i: nat, j: nat, v: int)
    requires IsRun(h, clock, states, steps) && 0 < i <= j <= |steps|
    requires steps[i - 1] == Cleanup(v, SweepUnlock) && v in states[i - 1].sweeps
    requires states[i - 1].sweeps[v].stage.Resolved? || states[i - 1].sweeps[v].stage.Deleted?
    requires !states[i - 1].sweeps[v].blocked
    ensures !LeaseBlocked(states[i].cat, states[i - 1].sweeps[v].outbox, states[j].clock)
  {
    hide LeaseBlocked, DestInv, OwnInv, LossInv, Physical;
    var s := states[i - 1];
    RunKeepsInv(h, clock, states, steps, i - 1);
    ClockNeverFalls(h, clock, states, steps, i - 1, j);
    GuardHeld(s, v, states[j].clock);
    assert states[i] == Next(h, s, steps[i - 1]);
    CleanupFrame(s, v, SweepUnlock);
  }

  /** While it holds the fence, an unblocked sweep keeps its outbox free of leases. */
  lemma GuardHeld(s: State, v: int, now: int)
    requires v in s.sweeps && SweepInv(s, s.sweeps[v]) && s.clock <= now
    requires (s.sweeps[v].stage.Resolved? || s.sweeps[v].stage.Deleted?) && !s.sweeps[v].blocked
    ensures !LeaseBlocked(s.cat, s.sweeps[v].outbox, now)
  {
  }

  // ── The guard can fail at the commit ───────────────────────────────────

  /** Whenever a sweep may delete rows, a new consumer group can be leased the outbox before the deletion
      commits: release the fence, create the group, grant the lease. */
  lemma LeaseCanSlipIn(h: Hash, s: State, v: int, doomed: set<int>, g: string) returns (n: State)
    requires Reachable(h, s) && CleanupEnabled(s, v, SweepDelete(doomed)) && g !in s.cat.groups
    ensures Leads(h, s, n) && CleanupEnabled(n, v, SweepCommit)
    ensures n.sweeps[v].doomed == doomed && n.sweeps[v].outbox == s.sweeps[v].outbox
    ensures LeaseBlocked(n.cat, s.sweeps[v].outbox, n.clock)
  {
    var o := s.sweeps[v].outbox;
    var create, grant := Admin(CreateGroup(g, o)), Admin(GrantLease(g, "c", s.clock + 1));
    var b := UnlockAfterDelete(h, s, v, doomed);
    var c := Next(h, b, create);
    n := Next(h, c, grant);
    LeadsOn(h, s, b, create);
    LeadsOn(h, s, c, grant);
    assert Leased(n.cat, (g, "c"), o, n.clock);
  }

  lemma UnlockAfterDelete(h: Hash, s: State, v: int, doomed: set<int>) returns (n: State)
    requires Reachable(h, s) && CleanupEnabled(s, v, SweepDelete(doomed))
    ensures Leads(h, s, n) && n.cat == s.cat && n.clock == s.clock && FenceFree(n.store, s.sweeps[v].outbox)
    ensures CleanupEnabled(n, v, SweepCommit)
    ensures n.sweeps[v].doomed == doomed && n.sweeps[v].outbox == s.sweeps[v].outbox
  {
    ReachableInv(h, s);
    var a := Next(h, s, Cleanup(v, SweepDelete(doomed)));
    n := Next(h, a, Cleanup(v, SweepUnlock));
    LeadsNowhere(h, s);
    LeadsOn(h, s, s, Cleanup(v, SweepDelete(doomed)));
    LeadsOn(h, s, a, Cleanup(v, SweepUnlock));
    assert !Shared(s.store, s.sweeps[v].outbox);
    assert !Shared(n.store, s.sweeps[v].outbox);
  }

  /** Concretely: row 1 is about to be deleted for good while a consumer holds an unexpired lease. */
  lemma LeaseGuardCanFail(h: Hash)
    ensures exists s, v :: Reachable(h, s) && CleanupEnabled(s, v, SweepCommit) && 1 in s.sweeps[v].doomed
                           && LeaseBlocked(s.cat, s.sweeps[v].outbox, s.clock)
  {
    var s := FirstGroupPasses(h);
    var d := SweepAfterFirst(h, s);
    ReachableOn(h, s, d);
    var n := LeaseCanSlipIn(h, d, 7, {1}, "group");
    ReachableOn(h, d, n);
  }
}
