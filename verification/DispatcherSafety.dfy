/**
 Safety of every run of the dispatcher: mutual exclusion and freedom from lock
 deadlock, and soundness of the settlement receipt.
 */
module DispatcherSafety {
  import opened Wrappers
  import opened Dispatcher

  // ----- the invariant ------------------------------------------------------------

  /** The execution lock is held by exactly the thread whose program point says so. */
  ghost predicate LockInv(s: State) {
    && (s.exec.Some? ==> s.exec.value in s.threads && HoldsExec(s.threads[s.exec.value].pc))
    && (forall id | id in s.threads && HoldsExec(s.threads[id].pc) :: s.exec == Some(id))
    && (s.lock.Some? ==> s.lock.value in s.threads && NeedsState(s.threads[s.lock.value].pc))
  }

  ghost predicate PlaceInv(s: State) {
    forall id | id in s.threads :: WellPlaced(s, id) && id in s.hist.requests
        && s.hist.requests[id] == s.threads[id].cmd
  }

  /** Owner records belong to connect requests that are past their installation. */
  ghost predicate OwnerInv(s: State) {
    && (s.active.Some? ==> s.active.value in s.ops)
    && (forall id | id in s.ops ::
          && id in s.hist.requests && IsConnect(s.hist.requests[id])
          && s.ops[id].kind.bound == s.hist.requests[id].ConnectBound?
          && (id in s.threads ==> !BeforeInstall(s.threads[id].pc)))
  }

  /** A connect between its installation and its settling. */
  predicate OwnsTurn(t: Thread) {
    && IsConnect(t.cmd)
    && ((t.pc.Owning? && (t.pc.owning.Connecting? || t.pc.owning.ConnectStarted? || t.pc.owning.AfterHost?
    || t.pc.owning.CancelAfterCommit?))
        || (t.pc.OwningSection? && (t.pc.step.ConnectCallback? || t.pc.step.StartedCallback? || t.pc.step.Settle?
        || t.pc.step.SettleCancel?)))
  }
  predicate Confirming(t: Thread) {
    (t.pc.Owning? && t.pc.owning.ConfirmStop?) || (t.pc.OwningSection? && t.pc.step.ConfirmLast?)
  }

  ghost predicate TurnInv(s: State) {
    && (forall id | id in s.threads && OwnsTurn(s.threads[id]) :: s.active == Some(id))
    && (forall id | id in s.threads && Confirming(s.threads[id]) :: s.active == s.threads[id].cap && ActiveBound(s))
  }

  /** A live Core session belongs to the active owner, unless the guard failed after its commit. */
  ghost predicate CoreInv(s: State) {
    && (s.host.core.Some? ==>
          var t := s.host.core.value;
          && t in s.ops
          && (s.ops[t].kind.bound && t !in s.hist.guardFailed ==> s.active == Some(t))
          && (t in s.threads ==> !MayStart(s.threads[t].pc))
          && (s.host.phase.Idle? ==> t in s.threads && CoreStarting(s.threads[t].pc)))
    && (forall id | id in s.threads && CoreStarting(s.threads[id].pc) :: s.host.core == Some(id) && s.host.phase.Idle?)
  }

  predicate Finishing(pc: Pc) { (pc.Owning? && pc.owning.AfterHost?) || (pc.OwningSection? && pc.step.Settle?) }
  predicate Stopped(t: Thread) {
    t.result.ok && ((t.pc.OwningSection? && (t.pc.step.ConfirmLast? || t.pc.step.LeaseRetire?
        || t.pc.step.WatchRetire?))
                    || (t.cmd.Disconnect? && Finishing(t.pc)))
  }
  predicate Failed(t: Thread) {
    (t.pc.OwningSection? && t.pc.step.SettleCancel?) || (!t.result.ok && IsConnect(t.cmd) && Finishing(t.pc))
  }

  /** What a thread's recorded host result says about the Core. */
  ghost predicate ResultInv(s: State) {
    && (forall id | id in s.threads && Stopped(s.threads[id]) :: s.host.core.None?)
    && (forall id | id in s.threads && Failed(s.threads[id]) && s.host.core == Some(id) ::
          s.host.phase.RecoveryRequired? || id in s.hist.guardFailed)
  }

  /** Nothing of this request is running, and nothing of it can start. */
  ghost predicate Over(s: State, t: Id) {
    s.host.core != Some(t) && s.active != Some(t) && (t in s.threads ==> !MayStart(s.threads[t].pc))
  }

  predicate BoundTarget(s: State, t: Id) { t in s.hist.requests && s.hist.requests[t].ConnectBound? }

  ghost predicate SettleInv(s: State) {
    && s.hist.settled <= s.hist.retired
    && (s.stopped.Some? ==> s.stopped.value in s.hist.retired)
    && (forall t | t in s.hist.retired && BoundTarget(s, t) && t !in s.hist.guardFailed :: Over(s, t))
    && (forall t | t in s.hist.retired :: t in s.hist.requests)
  }

  ghost predicate Safe(s: State) {
    LockInv(s) && PlaceInv(s) && OwnerInv(s) && TurnInv(s) && CoreInv(s) && ResultInv(s) && SettleInv(s)
  }

  // ----- what an effect must respect ------------------------------------------------

  function ActiveAfter(s: State, id: Id, e: Effect): Option<Id> {
    match e.owner case Keep => s.active case Clear => None case Take => Some(id)
  }
  predicate InstalledAfter(s: State, id: Id, e: Effect) { id in s.ops || (e.own.Some? && e.own.value.0 == id) }
  predicate GuardFailedAfter(s: State, id: Id, e: Effect, x: Id) {
    x in s.hist.guardFailed || (e.guardFailed && x == id)
  }
  predicate MayStartAfter(s: State, id: Id, e: Effect, x: Id) {
    if x == id then e.next.Some? && MayStart(e.next.value.pc) else x in s.threads && MayStart(s.threads[x].pc)
  }

  predicate Installing(pc: Pc) { pc.OwningSection? && pc.step.Install? }

  /** An owner record changes in place, or is the one the installing connect creates. */
  predicate OwnOk(s: State, id: Id, e: Effect) requires id in s.threads {
    e.own.Some? ==>
      var (x, op) := e.own.value;
      if x in s.ops then op.kind == s.ops[x].kind
      else x == id && Installing(s.threads[id].pc) && IsConnect(s.threads[id].cmd)
           && op.kind.bound == s.threads[id].cmd.ConnectBound?
  }

  /** The owner slot and the host belong to the execution lock's holder, and only a starting connect claims them. */
  predicate HostOk(s: State, id: Id, e: Effect) requires id in s.threads {
    var pc := s.threads[id].pc;
    && (!e.owner.Keep? || e.host != s.host ==> HoldsExec(pc))
    && (e.owner.Take? ==> Installing(pc) && InstalledAfter(s, id, e))
    && (e.host.core == s.host.core || e.host.core.None?
    || (e.host.core == Some(id) && pc.Owning? && pc.owning.Connecting?))
  }

  predicate CoreOk(s: State, id: Id, e: Effect) {
    e.host.core.Some? ==>
      var x := e.host.core.value;
      && x in s.ops
      && (s.ops[x].kind.bound && !GuardFailedAfter(s, id, e, x) ==> ActiveAfter(s, id, e) == Some(x))
      && !MayStartAfter(s, id, e, x)
      && (e.host.phase.Idle? ==> if x == id then e.next.Some? && CoreStarting(e.next.value.pc)
                                 else x in s.threads && CoreStarting(s.threads[x].pc))
  }

  predicate SlotOk(s: State, id: Id, e: Effect) requires id in s.threads {
    && (e.slot.Some? ==>
          var x := e.slot.value;
          && x in s.hist.requests
          && (s.hist.requests[x].ConnectBound? && !GuardFailedAfter(s, id, e, x) ==>
                e.host.core != Some(x) && ActiveAfter(s, id, e) != Some(x) && !MayStartAfter(s, id, e, x)))
    && (e.settle.Some? ==> e.settle.value in s.hist.retired || e.slot == e.settle)
  }

  predicate ThreadOk(s: State, id: Id, e: Effect) requires id in s.threads {
    e.next.Some? ==>
      var (t, n) := (s.threads[id], e.next.value);
      && n.cmd == t.cmd
      && (n.pc.Owning? && n.pc.owning.WatchStop? ==> e.watcherStop == n.cap)
      && Placed(n.pc, n.cmd, n.cap, InstalledAfter(s, id, e))
      && (HoldsExec(n.pc) ==> s.exec.None? || s.exec == Some(id))
      && (MayStart(n.pc) ==> MayStart(t.pc))
      && (BeforeInstall(n.pc) ==> !InstalledAfter(s, id, e))
      && (OwnsTurn(n) ==> ActiveAfter(s, id, e) == Some(id))
      && (Confirming(n) ==> ActiveAfter(s, id, e) == n.cap && Known(s, n.cap) && s.ops[n.cap.value].kind.bound)
      && (CoreStarting(n.pc) ==> e.host.core == Some(id) && e.host.phase.Idle?)
      && (Stopped(n) ==> e.host.core.None?)
      && (Failed(n) && e.host.core == Some(id) ==> e.host.phase.RecoveryRequired? || GuardFailedAfter(s, id, e, id))
  }

  predicate EffectOk(s: State, id: Id, e: Effect) requires id in s.threads {
    OwnOk(s, id, e) && HostOk(s, id, e) && CoreOk(s, id, e) && SlotOk(s, id, e) && ThreadOk(s, id, e)
  }

  // ----- an effect that respects it keeps the invariant -------------------------------

  lemma KeepsLocks(s: State, id: Id, e: Effect)
    requires LockInv(s) && Runnable(s, id) && ThreadOk(s, id, e)
    ensures LockInv(Commit(s, id, e))
  {
  }

  lemma KeepsPlaces(s: State, id: Id, e: Effect)
    requires PlaceInv(s) && id in s.threads && OwnOk(s, id, e) && ThreadOk(s, id, e)
    ensures PlaceInv(Commit(s, id, e))
  {
    var s' := Commit(s, id, e);
    forall j | j in s'.threads
      ensures WellPlaced(s', j) && j in s'.hist.requests && s'.hist.requests[j] == s'.threads[j].cmd
    {
      assert j != id ==> WellPlaced(s, j);
    }
  }

  lemma KeepsTurns(s: State, id: Id, e: Effect)
    requires LockInv(s) && TurnInv(s) && id in s.threads && OwnOk(s, id, e) && HostOk(s, id, e) && ThreadOk(s, id, e)
    ensures TurnInv(Commit(s, id, e))
  {
    var s' := Commit(s, id, e);
    forall j | j in s'.threads && (OwnsTurn(s'.threads[j]) || Confirming(s'.threads[j]))
      ensures OwnsTurn(s'.threads[j]) ==> s'.active == Some(j)
      ensures Confirming(s'.threads[j]) ==> s'.active == s'.threads[j].cap && ActiveBound(s')
    {
    }
  }

  lemma KeepsCore(s: State, id: Id, e: Effect)
    requires LockInv(s) && CoreInv(s) && id in s.threads
    requires OwnOk(s, id, e) && HostOk(s, id, e) && CoreOk(s, id, e) && ThreadOk(s, id, e)
    ensures CoreInv(Commit(s, id, e))
  {
    var s' := Commit(s, id, e);
    forall j | j in s'.threads && CoreStarting(s'.threads[j].pc)
      ensures s'.host.core == Some(j) && s'.host.phase.Idle?
    {
    }
  }

  lemma KeepsResults(s: State, id: Id, e: Effect)
    requires LockInv(s) && ResultInv(s) && id in s.threads && HostOk(s, id, e) && ThreadOk(s, id, e)
    ensures ResultInv(Commit(s, id, e))
  {
    var s' := Commit(s, id, e);
    forall j | j in s'.threads && (Stopped(s'.threads[j]) || Failed(s'.threads[j]))
      ensures Stopped(s'.threads[j]) ==> s'.host.core.None?
      ensures Failed(s'.threads[j]) && s'.host.core == Some(j) ==>
              s'.host.phase.RecoveryRequired? || j in s'.hist.guardFailed
    {
    }
  }

  lemma KeepsSettlement(s: State, id: Id, e: Effect)
    requires SettleInv(s) && id in s.threads && HostOk(s, id, e) && SlotOk(s, id, e) && ThreadOk(s, id, e)
    ensures SettleInv(Commit(s, id, e))
  {
    var s' := Commit(s, id, e);
    forall t | t in s'.hist.retired && BoundTarget(s', t) && t !in s'.hist.guardFailed
      ensures Over(s', t)
    {
      if t in s.hist.retired {
        assert Over(s, t);
      } else {
        assert e.slot == Some(t);
      }
    }
  }

  lemma EffectKeepsSafe(s: State, id: Id, e: Effect)
    requires Safe(s) && Runnable(s, id) && EffectOk(s, id, e)
    ensures Safe(Commit(s, id, e))
  {
    KeepsLocks(s, id, e);
    KeepsPlaces(s, id, e);
    KeepsTurns(s, id, e);
    KeepsCore(s, id, e);
    KeepsResults(s, id, e);
    KeepsSettlement(s, id, e);
  }

  // ----- what a step may rely on ----------------------------------------------------

  /** What the invariant says about one thread, the owner slot, the Core and the settlement slot. */
  predicate Here(s: State, id: Id) {
    && id in s.threads && WellPlaced(s, id)
    && var t := s.threads[id];
    && id in s.hist.requests && s.hist.requests[id] == t.cmd
    && (HoldsExec(t.pc) ==> s.exec == Some(id))
    && (WaitsExec(t.pc) ==> s.exec.None?)
    && (s.active.Some? ==> s.active.value in s.ops)
    && (id in s.ops ==> IsConnect(t.cmd) && s.ops[id].kind.bound == t.cmd.ConnectBound? && !BeforeInstall(t.pc))
    && (OwnsTurn(t) ==> s.active == Some(id))
    && (Confirming(t) ==> s.active == t.cap && ActiveBound(s))
    && (CoreStarting(t.pc) ==> s.host.core == Some(id) && s.host.phase.Idle?)
    && (Stopped(t) ==> s.host.core.None?)
    && (Failed(t) && s.host.core == Some(id) ==> s.host.phase.RecoveryRequired? || id in s.hist.guardFailed)
    && CoreNow(s, id) && ActiveNow(s, id)
    && (s.stopped.Some? ==> s.stopped.value in s.hist.retired)
  }
  predicate CoreNow(s: State, id: Id) requires id in s.threads {
    s.host.core.Some? ==>
      var x := s.host.core.value;
      && x in s.ops
      && (s.ops[x].kind.bound && x !in s.hist.guardFailed ==> s.active == Some(x))
      && (x in s.threads ==> !MayStart(s.threads[x].pc))
      && (s.host.phase.Idle? ==> x in s.threads && CoreStarting(s.threads[x].pc))
      && (s.host.phase.Idle? && HoldsExec(s.threads[id].pc) ==> x == id)
  }
  /** An active owner whose thread is not this one can no longer start while this thread holds the lock. */
  predicate ActiveNow(s: State, id: Id) requires id in s.threads {
    s.active.Some? ==>
      var a := s.active.value;
      && a in s.ops && a in s.hist.requests && s.ops[a].kind.bound == s.hist.requests[a].ConnectBound?
      && (a in s.threads && a != id && HoldsExec(s.threads[id].pc) ==> !MayStart(s.threads[a].pc))
  }

}
