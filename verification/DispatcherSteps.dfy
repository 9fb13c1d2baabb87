/** Every step of every thread respects the invariant and the accounts, one lemma per shape of step. */
module DispatcherSteps {
  import opened Wrappers
  import opened Dispatcher
  import opened DispatcherSafety
  import opened DispatcherLease

  predicate Ready(s: State, id: Id) { Here(s, id) && AccountHere(s, id) }
  predicate StepOk(s: State, id: Id, e: Effect, env: Env) requires id in s.threads {
    EffectOk(s, id, e) && AccountOk(s, id, e, env)
  }

  lemma SettleConnectOk(s: State, id: Id, t: Thread, c: Choice)
    requires Ready(s, id) && t == s.threads[id] && t.pc == OwningSection(Settle) && IsConnect(t.cmd)
    ensures StepOk(s, id, SettleConnect(s, id, t, c), c.env)
  {
  }

  lemma SettleOtherOk(s: State, id: Id, t: Thread, c: Choice)
    requires Ready(s, id) && t == s.threads[id] && t.pc == OwningSection(Settle) && !IsConnect(t.cmd)
    ensures StepOk(s, id, SettleOther(s, t), c.env)
  {
  }

  lemma StartOk(s: State, id: Id, t: Thread, c: Choice)
    requires Ready(s, id) && t == s.threads[id] && t.pc == Free(Start)
    ensures StepOk(s, id, StepStart(s, t, c), c.env)
  {
  }

  lemma TryExecOk(s: State, id: Id, t: Thread, c: Choice)
    requires Ready(s, id) && t == s.threads[id] && t.pc == Free(TryExec)
    ensures StepOk(s, id, StepTryExec(s, t), c.env)
  {
  }

  /** A refresh of the captured owner's network without the execution lock, for a status or the watcher. */
  lemma RefreshedFreeOk(s: State, id: Id, t: Thread, c: Choice, to: SectionPc)
    requires Ready(s, id) && t == s.threads[id] && t.pc.Free?
    requires (t.pc.free.StatusRefresh? && to.StatusReply?) || (t.pc.free.WatchRefresh? && to.WatchMark?)
    ensures StepOk(s, id, Refreshed(s, Goto(s, t, Section(to)), t.cap, c.env), c.env)
  {
  }

  /** And with it, after the host call of a promotion or a revocation. */
  lemma RefreshedOwningOk(s: State, id: Id, t: Thread, c: Choice, to: OwningSectionPc)
    requires Ready(s, id) && t == s.threads[id] && t.pc.Owning?
    requires (t.pc.owning.PromoteRecheck? && to.PromotePublish?) || (t.pc.owning.RevokeRecheck? && to.RevokePublish?)
    ensures StepOk(s, id, Refreshed(s, Goto(s, t, OwningSection(to)), t.cap, c.env), c.env)
  {
  }

  lemma ControlRecheckOk(s: State, id: Id, t: Thread, c: Choice)
    requires Ready(s, id) && t == s.threads[id] && t.pc == Owning(ControlRecheck)
    ensures StepOk(s, id, Refreshed(s, Goto(s, t, OwningSection(ControlPublish)), t.cap, c.env), c.env)
  {
  }

  lemma WatchTryExecOk(s: State, id: Id, t: Thread, c: Choice)
    requires Ready(s, id) && t == s.threads[id] && t.pc == Free(WatchTryExec)
    ensures StepOk(s, id, Goto(s, t, if s.exec.None? then OwningSection(WatchRecheck) else Section(WatchUnmark)), c.env)
  {
  }

  lemma InspectOk(s: State, id: Id, t: Thread, op: Op, c: Choice)
    requires Ready(s, id) && t == s.threads[id] && t.pc == Free(WatchInspect) && Known(s, t.cap)
    requires op.kind == s.ops[t.cap.value].kind && SameAccount(s.ops[t.cap.value].now, op.now)
    ensures StepOk(s, id, Inspect(s, t, op, t.cap.value), c.env)
  {
  }

  lemma WatchInspectOk(s: State, id: Id, t: Thread, c: Choice)
    requires Ready(s, id) && t == s.threads[id] && t.pc == Free(WatchInspect)
    ensures StepOk(s, id, StepWatchInspect(s, t, c), c.env)
  {
    if Known(s, t.cap) {
      InspectOk(s, id, t, CheckOwnerDeadline(RefreshBoundNetwork(s.ops[t.cap.value], c.env), c.env), c);
    }
  }

  /** The execution lock is granted, to whoever waits for it. */
  lemma GrantedOk(s: State, id: Id, t: Thread, c: Choice)
    requires Ready(s, id) && t == s.threads[id] && t.pc.Waiting?
    ensures StepOk(s, id, Goto(s, t, match t.pc.waiting case WaitExec => Owning(Owned)
            case ConfirmWait => OwningSection(ConfirmSecond)
                                                        case WatchWaitExec => OwningSection(WatchClaim)), c.env)
  {
  }

  lemma SignalChecksOk(s: State, id: Id, t: Thread, c: Choice)
    requires Ready(s, id) && t == s.threads[id] && t.pc == Section(SignalChecks)
    ensures StepOk(s, id, StepSignalChecks(s, t), c.env)
  {
  }

  lemma RecordExpiredOk(s: State, id: Id, t: Thread, c: Choice)
    requires Ready(s, id) && t == s.threads[id] && t.pc == Section(RecordExpired)
    ensures StepOk(s, id, ReplyPlain(Record(Still(s, t), id), false), c.env)
  {
  }

  lemma RecordBusyOk(s: State, id: Id, t: Thread, c: Choice)
    requires Ready(s, id) && t == s.threads[id] && t.pc == Section(RecordBusy)
    ensures StepOk(s, id, StepRecordBusy(s, id, t, c), c.env)
  {
  }

  lemma CancelSectionOk(s: State, id: Id, t: Thread, c: Choice)
    requires Ready(s, id) && t == s.threads[id] && t.pc == Section(CancelSection)
    ensures StepOk(s, id, StepCancel(s, id, t, c), c.env)
  {
  }

  lemma StatusCaptureOk(s: State, id: Id, t: Thread, c: Choice)
    requires Ready(s, id) && t == s.threads[id] && t.pc == Section(StatusCapture)
    ensures StepOk(s, id, Still(s, t.(pc := Free(StatusRefresh), cap := s.active)), c.env)
  {
  }

  lemma StatusReplyOk(s: State, id: Id, t: Thread, c: Choice)
    requires Ready(s, id) && t == s.threads[id] && t.pc == Section(StatusReply)
    ensures StepOk(s, id, Reply(s, Still(s, t), s.snapshot, c.env), c.env)
  {
  }

  lemma ConfirmFirstOk(s: State, id: Id, t: Thread, c: Choice)
    requires Ready(s, id) && t == s.threads[id] && t.pc == Section(ConfirmFirst)
    ensures StepOk(s, id, StepConfirmFirst(s, id, t, c), c.env)
  {
  }

  lemma WatchSleepOk(s: State, id: Id, t: Thread, c: Choice)
    requires Ready(s, id) && t == s.threads[id] && t.pc == Section(WatchSleep)
    ensures StepOk(s, id, StepWatchSleep(s, t), c.env)
  {
  }

  lemma WatchMarkOk(s: State, id: Id, t: Thread, c: Choice)
    requires Ready(s, id) && t == s.threads[id] && t.pc == Section(WatchMark)
    ensures StepOk(s, id, StepWatchMark(s, t), c.env)
  {
  }

  lemma WatchUnmarkOk(s: State, id: Id, t: Thread, c: Choice)
    requires Ready(s, id) && t == s.threads[id] && t.pc == Section(WatchUnmark)
    ensures StepOk(s, id, Unmarked(s, Goto(s, t, Section(WatchSleep)), t.cap), c.env)
  {
  }

  lemma EgressBeginOk(s: State, id: Id, t: Thread, c: Choice)
    requires Ready(s, id) && t == s.threads[id] && t.pc == Section(EgressBegin)
    ensures StepOk(s, id, StepEgressBegin(s, t, c), c.env)
  {
  }

  lemma OwnedOk(s: State, id: Id, t: Thread, c: Choice)
    requires Ready(s, id) && t == s.threads[id] && t.pc == Owning(Owned)
    ensures StepOk(s, id, StepOwned(s, t, c), c.env)
  {
  }

  lemma OwnerCheckOk(s: State, id: Id, t: Thread, c: Choice)
    requires Ready(s, id) && t == s.threads[id] && t.pc == Owning(OwnerCheck)
    ensures StepOk(s, id, StepOwnerCheck(s, t, c), c.env)
  {
  }

  lemma ConnectingSafe(s: State, id: Id, t: Thread, c: Choice)
    requires Here(s, id) && t == s.threads[id] && t.pc == Owning(Connecting)
    ensures EffectOk(s, id, StepConnecting(s, id, t, c))
  {
  }

  lemma ConnectingAccount(s: State, id: Id, t: Thread, c: Choice)
    requires AccountHere(s, id) && WellPlaced(s, id) && t == s.threads[id] && t.pc == Owning(Connecting)
    ensures AccountOk(s, id, StepConnecting(s, id, t, c), c.env)
  {
  }

  lemma ConnectingOk(s: State, id: Id, t: Thread, c: Choice)
    requires Ready(s, id) && t == s.threads[id] && t.pc == Owning(Connecting)
    ensures StepOk(s, id, StepConnecting(s, id, t, c), c.env)
  {
    ConnectingSafe(s, id, t, c);
    ConnectingAccount(s, id, t, c);
  }

  lemma ConnectStartedSafe(s: State, id: Id, t: Thread, c: Choice)
    requires Here(s, id) && t == s.threads[id] && t.pc == Owning(ConnectStarted)
    ensures EffectOk(s, id, StepConnectStarted(s, id, t, c))
  {
  }

  lemma ConnectStartedAccount(s: State, id: Id, t: Thread, c: Choice)
    requires AccountHere(s, id) && WellPlaced(s, id) && t == s.threads[id] && t.pc == Owning(ConnectStarted)
    ensures AccountOk(s, id, StepConnectStarted(s, id, t, c), c.env)
  {
  }

  lemma ConnectStartedOk(s: State, id: Id, t: Thread, c: Choice)
    requires Ready(s, id) && t == s.threads[id] && t.pc == Owning(ConnectStarted)
    ensures StepOk(s, id, StepConnectStarted(s, id, t, c), c.env)
  {
    ConnectStartedSafe(s, id, t, c);
    ConnectStartedAccount(s, id, t, c);
  }

  lemma HostCallOk(s: State, id: Id, t: Thread, c: Choice)
    requires Ready(s, id) && t == s.threads[id] && t.pc == Owning(HostCall)
    ensures StepOk(s, id, StepHostCall(s, t, c), c.env)
  {
  }

  lemma AfterHostOk(s: State, id: Id, t: Thread, c: Choice)
    requires Ready(s, id) && t == s.threads[id] && t.pc == Owning(AfterHost)
    ensures StepOk(s, id, StepAfterHost(s, id, t, c), c.env)
  {
  }

  lemma CancelAfterCommitOk(s: State, id: Id, t: Thread, c: Choice)
    requires Ready(s, id) && t == s.threads[id] && t.pc == Owning(CancelAfterCommit)
    ensures StepOk(s, id, StepCancelAfterCommit(s, id, t, c), c.env)
  {
  }

  lemma ConfirmStopOk(s: State, id: Id, t: Thread, c: Choice)
    requires Ready(s, id) && t == s.threads[id] && t.pc == Owning(ConfirmStop)
    ensures StepOk(s, id, StepStop(s, t, c, ConfirmLast), c.env)
  {
  }

  /** A host stop made after a failed lease change or by the watcher. */
  lemma StopOk(s: State, id: Id, t: Thread, c: Choice, next: OwningSectionPc)
    requires Ready(s, id) && t == s.threads[id] && t.pc.Owning?
    requires (t.pc.owning.LeaseStop? && next.LeaseRetire?) || (t.pc.owning.WatchStop? && next.WatchRetire?)
    ensures StepOk(s, id, StepStop(s, t, c, next), c.env)
  {
  }

  lemma RevokeRefreshOk(s: State, id: Id, t: Thread, c: Choice)
    requires Ready(s, id) && t == s.threads[id] && t.pc == Owning(RevokeRefresh)
    ensures StepOk(s, id, StepRefresh(s, id, t, c, if t.cmd.terminate then OwningSection(RevokeMark)
            else Owning(RevokeCall)), c.env)
  {
  }

  lemma PromoteRefreshOk(s: State, id: Id, t: Thread, c: Choice)
    requires Ready(s, id) && t == s.threads[id] && t.pc == Owning(PromoteRefresh)
    ensures StepOk(s, id, StepRefresh(s, id, t, c, Owning(PromoteCall)), c.env)
  {
  }

  lemma ControlRefreshOk(s: State, id: Id, t: Thread, c: Choice)
    requires Ready(s, id) && t == s.threads[id] && t.pc == Owning(ControlRefresh)
    ensures StepOk(s, id, StepRefresh(s, id, t, c, Owning(ControlCall)), c.env)
  {
  }

  lemma PromoteCallOk(s: State, id: Id, t: Thread, c: Choice)
    requires Ready(s, id) && t == s.threads[id] && t.pc == Owning(PromoteCall)
    ensures StepOk(s, id, StepPromoteCall(s, t, c).(confirm := CoreAnswer(s, t, c)), c.env)
  {
  }

  lemma RevokeCallOk(s: State, id: Id, t: Thread, c: Choice)
    requires Ready(s, id) && t == s.threads[id] && t.pc == Owning(RevokeCall)
    ensures StepOk(s, id, StepRevokeCall(s, t, c), c.env)
  {
  }

  lemma ControlCallOk(s: State, id: Id, t: Thread, c: Choice)
    requires Ready(s, id) && t == s.threads[id] && t.pc == Owning(ControlCall)
    ensures StepOk(s, id, StepControlCall(s, t, c), c.env)
  {
  }

  lemma WatchMaintainOk(s: State, id: Id, t: Thread, c: Choice)
    requires Ready(s, id) && t == s.threads[id] && t.pc == Owning(WatchMaintain)
    ensures StepOk(s, id, StepWatchMaintain(s, t, c), c.env)
  {
  }

  lemma EgressProbeOk(s: State, id: Id, t: Thread, c: Choice)
    requires Ready(s, id) && t == s.threads[id] && t.pc == Owning(EgressProbe)
    ensures StepOk(s, id, StepEgressProbe(s, t, c), c.env)
  {
  }

  lemma OccupiedOk(s: State, id: Id, t: Thread, c: Choice)
    requires Ready(s, id) && t == s.threads[id] && t.pc == OwningSection(Install)
    ensures StepOk(s, id, Reply(s, RecordIf(Still(s, t), id, t.cmd.ConnectBound?), WithFailure(s.snapshot), c.env),
            c.env)
  {
  }

  lemma AdmitOk(s: State, id: Id, t: Thread, c: Choice)
    requires Ready(s, id) && t == s.threads[id] && t.pc == OwningSection(Install) && !Occupied(s, t.cmd)
    ensures StepOk(s, id, Admit(s, id, t, c), c.env)
  {
  }

  lemma InstallOk(s: State, id: Id, t: Thread, c: Choice)
    requires Ready(s, id) && t == s.threads[id] && t.pc == OwningSection(Install)
    ensures StepOk(s, id, StepInstall(s, id, t, c), c.env)
  {
    if Occupied(s, t.cmd) { OccupiedOk(s, id, t, c); } else { AdmitOk(s, id, t, c); }
  }

  lemma RecordNetworkOk(s: State, id: Id, t: Thread, c: Choice)
    requires Ready(s, id) && t == s.threads[id] && t.pc == OwningSection(RecordNetwork)
    ensures StepOk(s, id, Reply(s, Record(Still(s, t), id), WithFailure(s.snapshot), c.env), c.env)
  {
  }

  lemma RecordOwnerOk(s: State, id: Id, t: Thread, c: Choice)
    requires Ready(s, id) && t == s.threads[id] && t.pc == OwningSection(RecordOwner)
    ensures StepOk(s, id, StepRecordOwner(s, id, t, c), c.env)
  {
  }

  /** The owner's callback, on either side of the Core start. */
  lemma CallbackOk(s: State, id: Id, t: Thread, c: Choice, back: OwningPc)
    requires Ready(s, id) && t == s.threads[id]
    requires (t.pc, back) in [(OwningSection(ConnectCallback), Connecting),
             (OwningSection(StartedCallback), ConnectStarted)]
    ensures StepOk(s, id, StepConnectCallback(s, id, t, back), c.env)
  {
  }

  lemma SettleOk(s: State, id: Id, t: Thread, c: Choice)
    requires Ready(s, id) && t == s.threads[id] && t.pc == OwningSection(Settle)
    ensures StepOk(s, id, StepSettle(s, id, t, c), c.env)
  {
    if IsConnect(t.cmd) {
      SettleConnectOk(s, id, t, c);
    } else {
      SettleOtherOk(s, id, t, c);
    }
  }

  lemma SettleCancelOk(s: State, id: Id, t: Thread, c: Choice)
    requires Ready(s, id) && t == s.threads[id] && t.pc == OwningSection(SettleCancel)
    ensures StepOk(s, id, StepSettleCancel(s, id, t), c.env)
  {
  }

  lemma RespondOk(s: State, id: Id, t: Thread, c: Choice)
    requires Ready(s, id) && t == s.threads[id] && t.pc == OwningSection(Respond)
    ensures StepOk(s, id, Reply(s, Still(s, t), t.result, c.env), c.env)
  {
  }

  lemma ConfirmSecondOk(s: State, id: Id, t: Thread, c: Choice)
    requires Ready(s, id) && t == s.threads[id] && t.pc == OwningSection(ConfirmSecond)
    ensures StepOk(s, id, StepConfirmSecond(s, id, t, c), c.env)
  {
  }

  lemma ConfirmLastOk(s: State, id: Id, t: Thread, c: Choice)
    requires Ready(s, id) && t == s.threads[id] && t.pc == OwningSection(ConfirmLast)
    ensures StepOk(s, id, StepConfirmLast(s, id, t, c), c.env)
  {
  }

  lemma PromoteCheckOk(s: State, id: Id, t: Thread, c: Choice)
    requires Ready(s, id) && t == s.threads[id] && t.pc == OwningSection(PromoteCheck)
    ensures StepOk(s, id, StepPromoteCheck(s, id, t, c), c.env)
  {
  }

  lemma LeaseFailureOk(s: State, id: Id, t: Thread, c: Choice)
    requires Ready(s, id) && t == s.threads[id]
             && (t.pc == OwningSection(PromotePublish) || t.pc == OwningSection(RevokePublish))
    ensures StepOk(s, id, Goto(s, t, Owning(LeaseStop)), c.env)
  {
  }

  lemma PublishPromotionOk(s: State, id: Id, t: Thread, c: Choice)
    requires Ready(s, id) && t == s.threads[id] && t.pc == OwningSection(PromotePublish) && PromotionHolds(s, t, c.env)
    ensures StepOk(s, id, PublishPromotion(s, id, t, c.env), c.env)
  {
  }

  lemma PromotePublishOk(s: State, id: Id, t: Thread, c: Choice)
    requires Ready(s, id) && t == s.threads[id] && t.pc == OwningSection(PromotePublish)
    ensures StepOk(s, id, StepPromotePublish(s, id, t, c), c.env)
  {
    if PromotionHolds(s, t, c.env) { PublishPromotionOk(s, id, t, c); } else { LeaseFailureOk(s, id, t, c); }
  }

  lemma RevokeCheckOk(s: State, id: Id, t: Thread, c: Choice)
    requires Ready(s, id) && t == s.threads[id] && t.pc == OwningSection(RevokeCheck)
    ensures StepOk(s, id, StepRevokeCheck(s, id, t, c), c.env)
  {
  }

  lemma RevokeMarkOk(s: State, id: Id, t: Thread, c: Choice)
    requires Ready(s, id) && t == s.threads[id] && t.pc == OwningSection(RevokeMark)
    ensures StepOk(s, id, StepRevokeMark(s, id, t, c), c.env)
  {
  }

  lemma PublishRevocationOk(s: State, id: Id, t: Thread, c: Choice)
    requires Ready(s, id) && t == s.threads[id] && t.pc == OwningSection(RevokePublish)
    ensures StepOk(s, id, Reply(s, Seen(s, Still(s, t)), HostView(s.host), c.env), c.env)
  {
  }

  lemma RevokePublishOk(s: State, id: Id, t: Thread, c: Choice)
    requires Ready(s, id) && t == s.threads[id] && t.pc == OwningSection(RevokePublish)
    ensures StepOk(s, id, StepRevokePublish(s, id, t, c), c.env)
  {
    if RevocationHolds(s, t) { PublishRevocationOk(s, id, t, c); } else { LeaseFailureOk(s, id, t, c); }
  }

  lemma LeaseRetireOk(s: State, id: Id, t: Thread, c: Choice)
    requires Ready(s, id) && t == s.threads[id] && t.pc == OwningSection(LeaseRetire)
    ensures StepOk(s, id, StepLeaseRetire(s, id, t, c), c.env)
  {
  }

  lemma ControlCheckOk(s: State, id: Id, t: Thread, c: Choice)
    requires Ready(s, id) && t == s.threads[id] && t.pc == OwningSection(ControlCheck)
    ensures StepOk(s, id, StepControlCheck(s, id, t, c), c.env)
  {
  }

  lemma ControlCallbackOk(s: State, id: Id, t: Thread, c: Choice)
    requires Ready(s, id) && t == s.threads[id] && t.pc == OwningSection(ControlCallback)
    ensures StepOk(s, id, Goto(s, t, Owning(ControlCall)), c.env)
  {
  }

  lemma ControlPublishOk(s: State, id: Id, t: Thread, c: Choice)
    requires Ready(s, id) && t == s.threads[id] && t.pc == OwningSection(ControlPublish)
    ensures StepOk(s, id, StepControlPublish(s, id, t, c), c.env)
  {
  }

  lemma WatchRecheckOk(s: State, id: Id, t: Thread, c: Choice)
    requires Ready(s, id) && t == s.threads[id] && t.pc == OwningSection(WatchRecheck)
    ensures StepOk(s, id, StepWatchRecheck(s, t), c.env)
  {
  }

  lemma WatchCallbackOk(s: State, id: Id, t: Thread, c: Choice)
    requires Ready(s, id) && t == s.threads[id] && t.pc == OwningSection(WatchCallback)
    ensures StepOk(s, id, StepWatchCallback(s, t, c), c.env)
  {
  }

  lemma WatchMaintainedOk(s: State, id: Id, t: Thread, c: Choice)
    requires Ready(s, id) && t == s.threads[id] && t.pc == OwningSection(WatchMaintained)
    ensures StepOk(s, id, StepWatchMaintained(s, t), c.env)
  {
  }

  lemma ClaimOk(s: State, id: Id, t: Thread, c: Choice)
    requires Ready(s, id) && t == s.threads[id] && t.pc == OwningSection(WatchClaim)
    ensures StepOk(s, id, Claim(s, t), c.env)
  {
  }

  lemma WatchClaimOk(s: State, id: Id, t: Thread, c: Choice)
    requires Ready(s, id) && t == s.threads[id] && t.pc == OwningSection(WatchClaim)
    ensures StepOk(s, id, StepWatchClaim(s, t), c.env)
  {
    if !s.closing { ClaimOk(s, id, t, c); }
  }

  lemma WatchRetireOk(s: State, id: Id, t: Thread, c: Choice)
    requires Ready(s, id) && t == s.threads[id] && t.pc == OwningSection(WatchRetire)
    ensures StepOk(s, id, StepWatchRetire(s, t), c.env)
  {
  }

  lemma EgressEndOk(s: State, id: Id, t: Thread, c: Choice)
    requires Ready(s, id) && t == s.threads[id] && t.pc == OwningSection(EgressEnd)
    ensures StepOk(s, id, StepEgressEnd(s, t, c), c.env)
  {
  }

  lemma FreeStepsOk(s: State, id: Id, c: Choice)
    requires Ready(s, id) && s.threads[id].pc.Free?
    ensures StepOk(s, id, StepOf(s, id, c), c.env)
  {
    var t := s.threads[id];
    match t.pc.free
    case Start => StartOk(s, id, t, c);
    case TryExec => TryExecOk(s, id, t, c);
    case StatusRefresh => RefreshedFreeOk(s, id, t, c, StatusReply);
    case WatchRefresh => RefreshedFreeOk(s, id, t, c, WatchMark);
    case WatchTryExec => WatchTryExecOk(s, id, t, c);
    case WatchInspect => WatchInspectOk(s, id, t, c);
  }

  lemma WaitingStepsOk(s: State, id: Id, c: Choice)
    requires Ready(s, id) && s.threads[id].pc.Waiting?
    ensures StepOk(s, id, StepOf(s, id, c), c.env)
  {
    var t := s.threads[id];
    match t.pc.waiting
    case WaitExec => GrantedOk(s, id, t, c);
    case ConfirmWait => GrantedOk(s, id, t, c);
    case WatchWaitExec => GrantedOk(s, id, t, c);
  }

  lemma SectionStepsOk(s: State, id: Id, c: Choice)
    requires Ready(s, id) && s.threads[id].pc.Section?
    ensures StepOk(s, id, StepOf(s, id, c), c.env)
  {
    var t := s.threads[id];
    match t.pc.section
    case SignalChecks => SignalChecksOk(s, id, t, c);
    case RecordExpired => RecordExpiredOk(s, id, t, c);
    case RecordBusy => RecordBusyOk(s, id, t, c);
    case CancelSection => CancelSectionOk(s, id, t, c);
    case StatusCapture => StatusCaptureOk(s, id, t, c);
    case StatusReply => StatusReplyOk(s, id, t, c);
    case ConfirmFirst => ConfirmFirstOk(s, id, t, c);
    case WatchSleep => WatchSleepOk(s, id, t, c);
    case WatchMark => WatchMarkOk(s, id, t, c);
    case WatchUnmark => WatchUnmarkOk(s, id, t, c);
    case EgressBegin => EgressBeginOk(s, id, t, c);
  }

  lemma OwningStepsOk(s: State, id: Id, c: Choice)
    requires Ready(s, id) && s.threads[id].pc.Owning?
    ensures StepOk(s, id, StepOf(s, id, c), c.env)
  {
    var t := s.threads[id];
    match t.pc.owning
    case Owned => OwnedOk(s, id, t, c);
    case OwnerCheck => OwnerCheckOk(s, id, t, c);
    case Connecting => ConnectingOk(s, id, t, c);
    case ConnectStarted => ConnectStartedOk(s, id, t, c);
    case HostCall => HostCallOk(s, id, t, c);
    case AfterHost => AfterHostOk(s, id, t, c);
    case CancelAfterCommit => CancelAfterCommitOk(s, id, t, c);
    case ConfirmStop => ConfirmStopOk(s, id, t, c);
    case PromoteRefresh => PromoteRefreshOk(s, id, t, c);
    case PromoteCall => PromoteCallOk(s, id, t, c);
    case PromoteRecheck => RefreshedOwningOk(s, id, t, c, PromotePublish);
    case RevokeRefresh => RevokeRefreshOk(s, id, t, c);
    case RevokeCall => RevokeCallOk(s, id, t, c);
    case RevokeRecheck => RefreshedOwningOk(s, id, t, c, RevokePublish);
    case LeaseStop => StopOk(s, id, t, c, LeaseRetire);
    case ControlRefresh => ControlRefreshOk(s, id, t, c);
    case ControlCall => ControlCallOk(s, id, t, c);
    case ControlRecheck => ControlRecheckOk(s, id, t, c);
    case WatchMaintain => WatchMaintainOk(s, id, t, c);
    case WatchStop => StopOk(s, id, t, c, WatchRetire);
    case EgressProbe => EgressProbeOk(s, id, t, c);
  }

  lemma OwningSectionStepsOk(s: State, id: Id, c: Choice)
    requires Ready(s, id) && s.threads[id].pc.OwningSection?
    ensures StepOk(s, id, StepOf(s, id, c), c.env)
  {
    var t := s.threads[id];
    match t.pc.step
    case Install => InstallOk(s, id, t, c);
    case RecordNetwork => RecordNetworkOk(s, id, t, c);
    case RecordOwner => RecordOwnerOk(s, id, t, c);
    case ConnectCallback => CallbackOk(s, id, t, c, Connecting);
    case StartedCallback => CallbackOk(s, id, t, c, ConnectStarted);
    case Settle => SettleOk(s, id, t, c);
    case SettleCancel => SettleCancelOk(s, id, t, c);
    case Respond => RespondOk(s, id, t, c);
    case ConfirmSecond => ConfirmSecondOk(s, id, t, c);
    case ConfirmLast => ConfirmLastOk(s, id, t, c);
    case PromoteCheck => PromoteCheckOk(s, id, t, c);
    case PromotePublish => PromotePublishOk(s, id, t, c);
    case RevokeCheck => RevokeCheckOk(s, id, t, c);
    case RevokeMark => RevokeMarkOk(s, id, t, c);
    case RevokePublish => RevokePublishOk(s, id, t, c);
    case LeaseRetire => LeaseRetireOk(s, id, t, c);
    case ControlCheck => ControlCheckOk(s, id, t, c);
    case ControlCallback => ControlCallbackOk(s, id, t, c);
    case ControlPublish => ControlPublishOk(s, id, t, c);
    case WatchRecheck => WatchRecheckOk(s, id, t, c);
    case WatchCallback => WatchCallbackOk(s, id, t, c);
    case WatchMaintained => WatchMaintainedOk(s, id, t, c);
    case WatchClaim => WatchClaimOk(s, id, t, c);
    case WatchRetire => WatchRetireOk(s, id, t, c);
    case EgressEnd => EgressEndOk(s, id, t, c);
  }

  lemma StepsOk(s: State, id: Id, c: Choice)
    requires Ready(s, id)
    ensures StepOk(s, id, StepOf(s, id, c), c.env)
  {
    match s.threads[id].pc
    case Free(_) => FreeStepsOk(s, id, c);
    case Waiting(_) => WaitingStepsOk(s, id, c);
    case Section(_) => SectionStepsOk(s, id, c);
    case Owning(_) => OwningStepsOk(s, id, c);
    case OwningSection(_) => OwningSectionStepsOk(s, id, c);
  }
}
