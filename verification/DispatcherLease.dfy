/**
 What responses may show about a lease, and how often the watcher cleans up:
 accounts kept along every run of the dispatcher.
 */
module DispatcherLease {
  import opened Wrappers
  import opened Dispatcher
  import opened DispatcherSafety

  // ----- the accounts -------------------------------------------------------------

  /** A view that shows validated egress is a running one. */
  predicate GoodView(v: View) { v.Snapshot? && v.egress ==> v.phase.ViewRunning? }

  predicate Promoting(pc: Pc) { pc == Owning(PromoteRecheck) || pc == OwningSection(PromotePublish) }

  /** An owner's flags against the history of promotions, revocations, cancels and watcher stops. */
  ghost predicate OwnerAccount(s: State, x: Id) requires x in s.ops {
    var op := s.ops[x];
    && (op.now.promoted ==> (x, op.kind.digest) in s.hist.confirmed)
    && Count(s.hist.promotions, x) == (if op.now.promoted then 1 else 0)
    && (op.now.terminated <==> x in s.hist.terminalRevokes)
    && (op.kind.requiresLease ==> op.kind.bound && !op.now.ordinaryHandoff)
    && Count(s.hist.watcherStops, x) + (if op.now.cleanupAttempted then 0 else 1) <= 1 + Count(s.hist.cancels, x)
  }

  ghost predicate NoAccount(s: State, x: Id) {
    x !in s.hist.terminalRevokes && Count(s.hist.promotions, x) == 0 && Count(s.hist.watcherStops, x) == 0
    && Count(s.hist.cancels, x) == 0
  }

  ghost predicate Account(s: State) {
    && (forall x | x in s.ops :: OwnerAccount(s, x))
    && (forall x: Id | x !in s.ops :: NoAccount(s, x))
    && (forall id | id in s.threads :: ThreadAccount(s, id))
    && (forall x | x in s.hist.guardFailed :: x in s.ops && AtRisk(s.ops[x].kind))
    && GoodView(s.snapshot.view) && (s.host.egress ==> s.host.phase.Running?)
  }

  /** The guard can fail only over an owner that hands off under it. */
  predicate AtRisk(kind: Kind) { kind.protectedHandoff || (kind.dpiOwner && !kind.requiresLease) }

  /** While a connect has its turn, the staged profile it captured is still the one in the host. */
  predicate SameProfile(kind: Kind, h: Host) { kind.requiresLease <==> kind.bound && h.requiresBound }

  predicate ThreadAccount(s: State, id: Id) requires id in s.threads {
    var t := s.threads[id];
    && (OwnsTurn(t) ==> id in s.ops && SameProfile(s.ops[id].kind, s.host))
    && GoodView(t.result.view)
    && (Promoting(t.pc) && t.result.ok && t.cmd.Promote? ==> (t.cmd.target, t.cmd.digest) in s.hist.confirmed)
  }

  // ----- what an effect may do to them ----------------------------------------------

  /** None of the flags that history accounts for differs, except a cleanup newly attempted. */
  predicate SameAccount(f: Flags, g: Flags) {
    g.promoted == f.promoted && g.terminated == f.terminated && g.ordinaryHandoff == f.ordinaryHandoff
    && (f.cleanupAttempted ==> g.cleanupAttempted)
  }

  /** A flag that changes is matched by the event that accounts for it. */
  predicate OwnerChangeOk(s: State, e: Effect) {
    e.own.Some? ==>
      var (x, op) := e.own.value;
      && (op.now.promoted <==> (x in s.ops && s.ops[x].now.promoted) || e.promote == Some(x))
      && (op.now.terminated <==> (x in s.ops && s.ops[x].now.terminated) || e.terminal == Some(x))
      && (op.kind.requiresLease && op.now.ordinaryHandoff ==> x in s.ops && s.ops[x].now.ordinaryHandoff)
      && (op.now.cleanupAttempted || e.cancel == Some(x) || !(x in s.ops && s.ops[x].now.cleanupAttempted))
      && (if x in s.ops then op.kind == s.ops[x].kind else op.kind.requiresLease ==> op.kind.bound)
  }

  /** Each event names the owner record the same step changes. */
  predicate EventsOk(s: State, e: Effect) {
    && (e.promote.Some? ==> Changes(s, e, e.promote.value) && !s.ops[e.promote.value].now.promoted
                            && (e.promote.value, s.ops[e.promote.value].kind.digest) in s.hist.confirmed)
    && (e.terminal.Some? ==> Changes(s, e, e.terminal.value))
    && (e.cancel.Some? ==> Changes(s, e, e.cancel.value) && e.watcherStop.None?)
    && (e.watcherStop.Some? ==> Changes(s, e, e.watcherStop.value) && !s.ops[e.watcherStop.value].now.cleanupAttempted
                                && e.own.value.1.now.cleanupAttempted)
  }
  predicate Changes(s: State, e: Effect, x: Id) { x in s.ops && e.own.Some? && e.own.value.0 == x }

  predicate TurnOk(s: State, id: Id, e: Effect) {
    && (e.guardFailed ==> id in s.ops && AtRisk(s.ops[id].kind))
    && (e.next.Some? && OwnsTurn(e.next.value) ==>
          if e.own.Some? && e.own.value.0 == id then SameProfile(e.own.value.1.kind, e.host)
          else id in s.ops && SameProfile(s.ops[id].kind, e.host))
  }

  predicate ViewsOk(s: State, e: Effect) {
    && GoodView(e.snapshot.view) && (e.host.egress ==> e.host.phase.Running?)
    && (e.next.Some? ==>
          var n := e.next.value;
          && GoodView(n.result.view)
          && (Promoting(n.pc) && n.result.ok && n.cmd.Promote? ==>
                (n.cmd.target, n.cmd.digest) in s.hist.confirmed || e.confirm == Some((n.cmd.target, n.cmd.digest))))
  }

  /** A projected owner shown with egress or a lease is promoted, live and inside every window. */
  predicate Honest(op: Op, v: View, e: Env) {
    op.kind.requiresLease && v.Snapshot? && (v.egress || v.lease) ==>
      && op.now.promoted && !op.now.terminated && !op.now.cancelled && !op.now.deadlineExpired
      && e.networkCurrent && (op.now.ordinaryHandoff || e.leaseCurrent)
  }

  predicate ReplyOk(s: State, e: Effect, env: Env) {
    e.reply.Some? && e.reply.value.view.Snapshot? && ActiveBound(s) ==>
      Changes(s, e, s.active.value) && Honest(e.own.value.1, e.reply.value.view, env)
  }

  predicate AccountOk(s: State, id: Id, e: Effect, env: Env) {
    OwnerChangeOk(s, e) && EventsOk(s, e) && TurnOk(s, id, e) && ViewsOk(s, e) && ReplyOk(s, e, env)
  }

  lemma KeepsOwnerAccount(s: State, id: Id, e: Effect, env: Env, x: Id)
    requires id in s.threads && AccountOk(s, id, e, env)
    requires if x in s.ops then OwnerAccount(s, x) else NoAccount(s, x)
    ensures var s' := Commit(s, id, e); if x in s'.ops then OwnerAccount(s', x) else NoAccount(s', x)
  {
  }

  lemma EffectKeepsAccount(s: State, id: Id, e: Effect, env: Env)
    requires Account(s) && LockInv(s) && id in s.threads && HostOk(s, id, e) && AccountOk(s, id, e, env)
    ensures Account(Commit(s, id, e))
  {
    var s' := Commit(s, id, e);
    forall x: Id ensures if x in s'.ops then OwnerAccount(s', x) else NoAccount(s', x) {
      KeepsOwnerAccount(s, id, e, env, x);
    }
    forall j | j in s'.threads ensures ThreadAccount(s', j) {
      assert j in s.threads && ThreadAccount(s, j);
    }
  }

  // ----- the projection -----------------------------------------------------------------

  lemma ProjectionHonest(op: Op, r: Result, e: Env)
    requires GoodView(r.view)
    ensures Honest(ProjectOwner(op, e), ProjectResult(ProjectOwner(op, e), r).view, e)
  {
  }

  /** The part of the accounts one step reads. */
  predicate AccountHere(s: State, id: Id) {
    && id in s.threads && ThreadAccount(s, id) && GoodView(s.snapshot.view) && (s.host.egress ==> s.host.phase.Running?)
  }
}
