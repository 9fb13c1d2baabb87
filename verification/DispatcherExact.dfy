/**
 Where a settlement receipt can be wrong: exactly the owners that hand off under
 the transition guard, and unbound targets, whose slot entry does not stop them.
 */
module DispatcherExact {
  import opened Wrappers
  import opened Dispatcher
  import opened DispatcherSafety
  import opened DispatcherLease
  import opened DispatcherRuns

  const CALM := Env(true, true, true, true, true, true, false)
  const GONE := Env(false, true, true, true, true, true, false)
  const MOVED := Env(true, false, false, true, true, true, false)
  function Pick(env: Env, flag: bool, other: bool, connect: ConnectOutcome): Choice {
    Choice(env, flag, other, StopOk, connect, Host(Idle, None, 0, false, false, false, false))
  }

  /** One thread's next step, taking the state lock first where the step needs it. */
  function Go(s: State, id: Id, c: Choice): State
    requires id in s.threads && WellPlaced(s, id) && s.lock.None? && (WaitsExec(s.threads[id].pc) ==> s.exec.None?)
  {
    if NeedsState(s.threads[id].pc) then Apply(Apply(s, AcquireState(id)), Act(id, c)) else Apply(s, Act(id, c))
  }

  lemma GoReach(s: State, id: Id, c: Choice)
    requires Reachable(s) && id in s.threads && WellPlaced(s, id) && s.lock.None?
             && (WaitsExec(s.threads[id].pc) ==> s.exec.None?)
    ensures Reachable(Go(s, id, c))
  {
    if NeedsState(s.threads[id].pc) {
      Reach(s, AcquireState(id));
      Reach(Apply(s, AcquireState(id)), Act(id, c));
    } else {
      Reach(s, Act(id, c));
    }
  }

  // ----- one connect, alone ------------------------------------------------------------

  /** Request 1 is a connect at `pc`, no lock is contended, and request 2 has not come yet. */
  ghost predicate Solo(s: State, cmd: Command, pc: Pc) {
    && Reachable(s) && 1 in s.threads && s.threads[1].pc == pc && s.threads[1].cmd == cmd && s.lock.None?
    && 2 !in s.hist.requests
    && s.exec == if HoldsExec(pc) then Some(1) else None
  }

  ghost predicate Fresh(s: State, cmd: Command, pc: Pc, bound: bool) {
    Solo(s, cmd, pc) && 1 !in s.ops && s.active.None? && s.host.phase.Idle? && s.host.requiresBound == bound
  }

  /** The owner of kind `k` has its turn in the host. */
  ghost predicate Turn(s: State, cmd: Command, pc: Pc, k: Kind) {
    Solo(s, cmd, pc) && s.active == Some(1) && 1 in s.ops && s.ops[1].kind == k
        && (k.bound ==> s.host.requiresBound == k.requiresLease)
  }

  lemma Arrived(cmd: Command, bound: bool) returns (s: State)
    requires !cmd.Watch?
    ensures Fresh(s, cmd, Free(Start), bound)
  {
    var h := Host(Idle, None, 0, bound, false, false, false);
    var s0 := State(None, None, map[WATCHER := NewThread(Section(WatchSleep), Watch)], None, None, map[], HostView(h),
                    h, false, false,
                    History(map[WATCHER := Watch], {}, {}, {}, {}, {}, map[], map[], map[]));
    assert Init(s0) && Run(s0, [], s0);
    Reach(s0, Arrive(1, cmd));
    s := Apply(s0, Arrive(1, cmd));
  }

  const QUIET := Pick(CALM, false, false, RolledBack)

  lemma Entered(cmd: Command, bound: bool) returns (s: State)
    requires IsConnect(cmd)
    ensures Fresh(s, cmd, Free(TryExec), bound)
  {
    var a := Arrived(cmd, bound);
    GoReach(a, 1, QUIET);
    s := Go(a, 1, QUIET);
  }

  lemma TookLock(cmd: Command, bound: bool) returns (s: State)
    requires IsConnect(cmd)
    ensures Fresh(s, cmd, Owning(Owned), bound)
  {
    var a := Entered(cmd, bound);
    GoReach(a, 1, QUIET);
    s := Go(a, 1, QUIET);
  }

  lemma Planned(cmd: Command, bound: bool, dpi: bool, telegram: bool) returns (s: State)
    requires IsConnect(cmd)
    ensures Fresh(s, cmd, Owning(OwnerCheck), bound) && s.threads[1].dpi == dpi && s.threads[1].telegram == telegram
            && s.threads[1].fence == dpi
  {
    var a := TookLock(cmd, bound);
    GoReach(a, 1, Pick(CALM, dpi, telegram, RolledBack));
    s := Go(a, 1, Pick(CALM, dpi, telegram, RolledBack));
  }

  /** The connect is admitted, or recorded because its client is gone when that is checked. */
  lemma Admitted(cmd: Command, bound: bool, dpi: bool, telegram: bool, env: Env) returns (s: State)
    requires IsConnect(cmd)
    ensures Fresh(s, cmd, if (cmd.ConnectBound? || dpi || telegram) && !env.clientAlive
                          then OwningSection(RecordOwner) else OwningSection(Install), bound)
    ensures s.threads[1].dpi == dpi && s.threads[1].telegram == telegram && s.threads[1].fence == dpi
  {
    var a := Planned(cmd, bound, dpi, telegram);
    GoReach(a, 1, Pick(env, false, false, RolledBack));
    s := Go(a, 1, Pick(env, false, false, RolledBack));
  }

  /** The kind of owner this request installs. */
  predicate KindOf(k: Kind, cmd: Command, t: Thread) {
    && IsConnect(cmd) && (!k.bound ==> !k.requiresLease)
    && k.bound == cmd.ConnectBound? && k.digest == cmd.digest && k.dpiOwner == t.dpi && k.telegramOwner == t.telegram
    && k.fenced == (cmd.ConnectBound? || cmd.replace || t.fence)
    && (cmd.ConnectPlain? && cmd.replace ==> k.protectedHandoff)
  }

  lemma Admits(s: State, t: Thread, k: Kind, c: Choice)
    requires KindOf(k, t.cmd, t) && !ActiveBound(s) && s.host.requiresBound == k.requiresLease
             && c.flag == k.protectedHandoff
    ensures var e := StepInstall(s, 1, t, c);
            && e.next.Some? && e.next.value.pc == Owning(Connecting) && e.next.value.cmd == t.cmd
            && e.own.Some? && e.own.value.0 == 1 && e.own.value.1.kind == k
            && e.own.value.1.now.cause.NoCause? && !e.own.value.1.now.deadlineExpired
            && e.owner.Take? && e.host == s.host && e.slot.None?
  {
  }

  lemma Installed(s: State, cmd: Command, k: Kind) returns (s': State)
    requires Fresh(s, cmd, OwningSection(Install), k.requiresLease) && KindOf(k, cmd, s.threads[1])
    ensures Turn(s', cmd, Owning(Connecting), k) && s'.ops[1].now.cause.NoCause? && !s'.ops[1].now.deadlineExpired
            && s'.host == s.host && s'.stopped == s.stopped
  {
    var c := Pick(CALM, k.protectedHandoff, false, RolledBack);
    GoReach(s, 1, c);
    Admits(Apply(s, AcquireState(1)), s.threads[1], k, c);
    s' := Go(s, 1, c);
  }

  lemma Started(s: State, cmd: Command, k: Kind) returns (s': State)
    requires Fresh(s, cmd, OwningSection(Install), k.requiresLease) && KindOf(k, cmd, s.threads[1])
    ensures Turn(s', cmd, Owning(ConnectStarted), k) && s'.host.core == Some(1) && s'.host.phase.Idle?
    ensures s'.stopped == s.stopped
  {
    var a := Installed(s, cmd, k);
    GoReach(a, 1, QUIET);
    s' := Go(a, 1, QUIET);
  }

  // ----- the guard fails after the commit -----------------------------------------------

  /** The profile committed, and the Core runs for request 1. */
  ghost predicate Running1(s: State, cmd: Command, pc: Pc, k: Kind, ok: bool) {
    Turn(s, cmd, pc, k) && s.host.core == Some(1) && s.host.phase.Running? && s.threads[1].result.ok == ok
  }

  /** The slot names request 1 while its Core runs. */
  ghost predicate Retired1(s: State, cmd: Command, k: Kind) {
    && Solo(s, cmd, OwningSection(Respond)) && s.stopped == Some(1) && s.host.core == Some(1)
    && 1 in s.ops && s.ops[1].kind == k
  }

  lemma Commits(s: State, cmd: Command, k: Kind, fails: bool) returns (s': State)
    requires Turn(s, cmd, Owning(ConnectStarted), k) && s.host.core == Some(1) && k.bound && cmd.ConnectBound?
    requires fails ==> (k.protectedHandoff || k.dpiOwner) && !k.requiresLease
    ensures Running1(s', cmd, Owning(AfterHost), k, !fails)
  {
    var c := Pick(CALM, false, false, if fails then GuardFailed(false) else Committed(false));
    GoReach(s, 1, c);
    s' := Go(s, 1, c);
  }

  lemma Finishes(s: State, cmd: Command, k: Kind, ok: bool, moved: bool) returns (s': State)
    requires Running1(s, cmd, Owning(AfterHost), k, ok) && IsConnect(cmd) && k.fenced
    ensures Running1(s', cmd, OwningSection(Settle), k, ok) && (moved ==> s'.ops[1].now.cancelled)
  {
    var c := Pick(if moved then MOVED else CALM, false, false, RolledBack);
    GoReach(s, 1, c);
    s' := Go(s, 1, c);
  }

  lemma Retires(s: State, cmd: Command, k: Kind, pc: Pc) returns (s': State)
    requires Running1(s, cmd, pc, k, false) && IsConnect(cmd) && k.bound
             && (pc == OwningSection(Settle) || pc == OwningSection(SettleCancel))
    ensures Retired1(s', cmd, k)
  {
    GoReach(s, 1, QUIET);
    s' := Go(s, 1, QUIET);
  }

  /** Finish fails over the committed profile, and the owner is retired with its Core running. */
  lemma FinishFails(s: State, cmd: Command, k: Kind) returns (s': State)
    requires Turn(s, cmd, Owning(ConnectStarted), k) && s.host.core == Some(1) && k.bound && k.fenced
             && cmd.ConnectBound?
    requires (k.protectedHandoff || k.dpiOwner) && !k.requiresLease
    ensures Retired1(s', cmd, k)
  {
    var a := Commits(s, cmd, k, true);
    var b := Finishes(a, cmd, k, false, false);
    s' := Retires(b, cmd, k, OwningSection(Settle));
  }

  lemma Cancels(s: State, cmd: Command, k: Kind) returns (s': State)
    requires Running1(s, cmd, OwningSection(Settle), k, true) && s.ops[1].now.cancelled && IsConnect(cmd)
    ensures Turn(s', cmd, Owning(CancelAfterCommit), k) && s'.host == s.host
  {
    GoReach(s, 1, QUIET);
    s' := Go(s, 1, QUIET);
  }

  lemma GuardStartFails(s: State, cmd: Command, k: Kind) returns (s': State)
    requires Turn(s, cmd, Owning(CancelAfterCommit), k) && k.protectedHandoff && IsConnect(cmd)
    ensures Turn(s', cmd, OwningSection(SettleCancel), k) && s'.host == s.host && !s'.threads[1].result.ok
  {
    GoReach(s, 1, Pick(CALM, true, false, RolledBack));
    s' := Go(s, 1, Pick(CALM, true, false, RolledBack));
  }

  /** The network moves after the commit, and starting the guard for the cancelled handoff fails. */
  lemma CancelFails(s: State, cmd: Command, k: Kind) returns (s': State)
    requires Turn(s, cmd, Owning(ConnectStarted), k) && s.host.core == Some(1) && k.bound && cmd.ConnectBound?
             && k.fenced && k.protectedHandoff
    ensures Retired1(s', cmd, k)
  {
    var a := Commits(s, cmd, k, false);
    var b := Finishes(a, cmd, k, true, true);
    var d := Cancels(b, cmd, k);
    var e := GuardStartFails(d, cmd, k);
    s' := Retires(e, cmd, k, OwningSection(SettleCancel));
  }

  /** A second request asks about the first and finds it in the slot. */
  lemma Asks(s: State, cmd: Command, pc: Pc) returns (s': State)
    requires Solo(s, cmd, pc)
    ensures Reachable(s') && 2 in s'.threads && s'.threads[2].pc == Section(ConfirmFirst)
            && s'.threads[2].cmd == Confirm(1)
    ensures s'.lock.None? && s'.stopped == s.stopped && s'.active == s.active && s'.host == s.host && s'.ops == s.ops
    ensures s'.hist.requests == s.hist.requests[2 := Confirm(1)]
  {
    Reach(s, Arrive(2, Confirm(1)));
    var a := Apply(s, Arrive(2, Confirm(1)));
    GoReach(a, 2, QUIET);
    s' := Go(a, 2, QUIET);
  }

  lemma Asked(s: State, cmd: Command, pc: Pc) returns (s': State)
    requires Solo(s, cmd, pc) && s.stopped == Some(1)
    ensures Reachable(s') && 1 in s'.hist.settled && s'.host == s.host && s'.ops == s.ops
            && s'.hist.requests == s.hist.requests[2 := Confirm(1)]
  {
    var a := Asks(s, cmd, pc);
    GoReach(a, 2, QUIET);
    s' := Go(a, 2, QUIET);
  }

  // ----- the exact condition ----------------------------------------------------------------

  /** A settled target with this kind of owner that is not over. */
  ghost predicate WrongReceipt(s: State, t: Id, k: Kind) {
    t in s.hist.settled && t in s.ops && s.ops[t].kind == k && !Over(s, t)
  }

  lemma WrongReceiptWitness(k: Kind) returns (s: State)
    requires k.bound && k.fenced && AtRisk(k)
    ensures Reachable(s) && WrongReceipt(s, 1, k)
  {
    var cmd := ConnectBound(k.digest);
    s := Admitted(cmd, k.requiresLease, k.dpiOwner, k.telegramOwner, CALM);
    s := Started(s, cmd, k);
    if k.requiresLease {
      s := CancelFails(s, cmd, k);
    } else {
      s := FinishFails(s, cmd, k);
    }
    s := Asked(s, cmd, OwningSection(Respond));
  }

  /** For a bound owner of kind `k`, every receipt in every run is right exactly when `k` is not at risk. */
  lemma SettlementExact(k: Kind)
    requires k.bound && k.fenced
    ensures (forall s: State, t: Id :: Reachable(s) ==> !WrongReceipt(s, t, k)) <==> !AtRisk(k)
  {
    if AtRisk(k) {
      var s := WrongReceiptWitness(k);
      assert Reachable(s) && WrongReceipt(s, 1, k);
    } else {
      forall s: State, t: Id | Reachable(s) ensures !WrongReceipt(s, t, k) {
        if WrongReceipt(s, t, k) {
          ReachableGood(s);
          SettlementSoundWithoutGuard(s, t);
        }
      }
    }
  }

  lemma Recorded(digest: nat) returns (s: State)
    ensures Fresh(s, ConnectPlain(digest, false), OwningSection(Install), false) && s.stopped == Some(1)
    ensures !s.threads[1].dpi && !s.threads[1].telegram && s.threads[1].fence
  {
    var a := Admitted(ConnectPlain(digest, false), false, true, false, GONE);
    GoReach(a, 1, QUIET);
    s := Go(a, 1, QUIET);
  }

  /** An unbound target whose client is gone is put in the slot and then connects anyway. */
  lemma UnboundReceiptWrong(digest: nat) returns (s: State)
    ensures Reachable(s) && 1 in s.hist.settled && 1 in s.hist.requests
            && s.hist.requests[1] == ConnectPlain(digest, false)
    ensures s.host.core == Some(1)
  {
    var cmd := ConnectPlain(digest, false);
    s := Recorded(digest);
    s := Started(s, cmd, Kind(false, digest, false, false, false, false, true));
    ReachableGood(s);
    s := Asked(s, cmd, Owning(ConnectStarted));
  }
}
