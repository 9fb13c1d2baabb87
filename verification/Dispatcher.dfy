/**
 The dispatcher protocol: session threads, one watcher thread and cancellation
 share an execution lock, a state lock, one connect owner and a one-slot
 settlement record. Every thread is a program over `Pc`; a `Move` is one atomic
 step of one thread, so a sequence of moves is an arbitrary interleaving. A step
 computes an `Effect`, and `Commit` is the only way an effect reaches the state.

 A request is identified by its session token and operation nonce, which the
 server never lets repeat, so one `Id` names the request, the thread that serves
 it and the owner object it may install. `WATCHER` is the watcher's own thread.
 */
module Dispatcher {
  import opened Wrappers

  type Id = nat
  const WATCHER: Id := 0

  datatype Cause = NoCause | Cancelled | OwnerChanged | NetworkChanged | Deadline

  /** What is captured when a connect request installs its owner record. */
  datatype Kind = Kind(bound: bool, digest: nat, requiresLease: bool, protectedHandoff: bool,
                       dpiOwner: bool, telegramOwner: bool, fenced: bool)
  /** The record's flags, which other threads read and raise. */
  datatype Flags = Flags(cause: Cause, cancelled: bool, deadlineExpired: bool, cleanupAttempted: bool,
                         promoted: bool, leaseRef: nat, terminated: bool, ordinaryHandoff: bool,
                         dpiCancelled: bool, telegramCancelled: bool, maintenance: bool)
  datatype Op = Op(kind: Kind, now: Flags)

  /** What the clocks, the peer process and the network observer answer at one instant. */
  datatype Env = Env(clientAlive: bool, networkCurrent: bool, candidateCurrent: bool,
                     deadlineCurrent: bool, leaseCurrent: bool, requestCurrent: bool, stopEvent: bool)

  /** Only the first cause is kept; later ones still raise their flag. */
  function RaiseIf(f: Flags, condition: bool, cause: Cause): Flags {
    f.(cause := if condition && f.cause.NoCause? then cause else f.cause,
       deadlineExpired := f.deadlineExpired || (condition && cause.Deadline?),
       cancelled := f.cancelled || (condition && !cause.Deadline?))
  }
  function Interrupt(op: Op, cause: Cause): Op { op.(now := RaiseIf(op.now, true, cause)) }

  predicate NetworkHolds(kind: Kind, e: Env) {
    if kind.dpiOwner then e.candidateCurrent else e.networkCurrent
  }

  function RefreshFlags(kind: Kind, f: Flags, e: Env): Flags {
    var checked := (kind.bound || kind.dpiOwner) && !f.cancelled;
    var orphaned := checked && (!f.promoted || f.terminated) && !e.clientAlive;
    var latched := f.(telegramCancelled := f.telegramCancelled
                      || (kind.telegramOwner && (!e.clientAlive || !e.candidateCurrent)),
                      dpiCancelled := f.dpiCancelled || (checked && kind.dpiOwner && !e.clientAlive));
    RaiseIf(RaiseIf(latched, orphaned, OwnerChanged), checked && !orphaned && !NetworkHolds(kind, e), NetworkChanged)
  }
  function RefreshBoundNetwork(op: Op, e: Env): Op { op.(now := RefreshFlags(op.kind, op.now, e)) }

  predicate OwnerTimeHolds(f: Flags, e: Env) {
    f.ordinaryHandoff || (if f.promoted then e.leaseCurrent else e.deadlineCurrent)
  }
  function CheckOwnerDeadline(op: Op, e: Env): Op {
    op.(now := RaiseIf(op.now, !OwnerTimeHolds(op.now, e), Deadline))
  }

  /** The check a running connect makes between native calls. */
  function ConnectFlags(kind: Kind, f: Flags, e: Env): Flags {
    var stopped := RaiseIf(f, f.cause.NoCause? && e.stopEvent, Cancelled);
    var owned := RaiseIf(stopped, (kind.bound || kind.dpiOwner) && !e.clientAlive, OwnerChanged);
    var placed := RaiseIf(owned, kind.fenced && !NetworkHolds(kind, e), NetworkChanged);
    RaiseIf(placed, placed.cause.NoCause? && ((kind.bound && (placed.deadlineExpired || !e.deadlineCurrent))
        || !e.requestCurrent), Deadline)
  }
  function CheckConnect(op: Op, e: Env): Op { op.(now := ConnectFlags(op.kind, op.now, e)) }

  // ----- what a client is shown ---------------------------------------------

  datatype ViewPhase = ViewIdle | ViewBusy | ViewRunning | ViewRecovery
  datatype View =
    | Receipt
    | Snapshot(phase: ViewPhase, egress: bool, pending: bool, lease: bool)
  datatype Result = Result(ok: bool, view: View)

  function WithFailure(r: Result): Result { r.(ok := false) }

  function WithTransportState(r: Result, pending: bool, active: bool): Result {
    match r.view
    case Receipt => r
    case Snapshot(phase, egress, _, _) =>
      r.(view := Snapshot(phase, egress && !pending, pending, active && phase.ViewRunning?))
  }

  const STOPPING := Result(true, Snapshot(ViewBusy, false, false, false))

  /** The owner after the projection's own checks. */
  function ProjectFlags(f: Flags, e: Env): Flags {
    var owned := RaiseIf(f, (!f.promoted || f.terminated) && !e.clientAlive, OwnerChanged);
    var placed := RaiseIf(owned, !e.networkCurrent, NetworkChanged);
    RaiseIf(placed, !OwnerTimeHolds(f, e), Deadline)
  }
  function ProjectOwner(op: Op, e: Env): Op { op.(now := ProjectFlags(op.now, e)) }

  /** An interrupted owner is shown as busy unless a recovery failure is already recorded. */
  function ProjectResult(op: Op, r: Result): Result {
    var masked := if (op.now.cancelled || op.now.deadlineExpired) && r.view.Snapshot? && !r.view.phase.ViewRecovery?
                  then WithFailure(STOPPING) else r;
    WithTransportState(masked, op.kind.requiresLease && (!op.now.promoted || op.now.terminated),
                       op.kind.requiresLease && op.now.promoted && !op.now.terminated)
  }

  // ----- the runtime host, as the dispatcher sees it -------------------------

  /** `Idle` is every phase other than running and recovery_required. */
  datatype Phase = Idle | Running | RecoveryRequired

  /** `core` is the request whose Core start is not yet confirmed stopped. */
  datatype Host = Host(phase: Phase, core: Option<Id>, effective: nat, requiresBound: bool,
                       egress: bool, dpi: bool, telegram: bool)

  function HostView(h: Host): Result {
    Result(true, Snapshot(match h.phase case Idle => ViewIdle case Running => ViewRunning
                                        case RecoveryRequired => ViewRecovery, h.egress, false, false))
  }

  datatype StopOutcome = StopOk | StopGuardFailed | StopFailed(coreStopped: bool)

  function Disconnected(h: Host, o: StopOutcome): Host {
    if h.phase.Idle? then h
    else if o.StopFailed? then
      h.(phase := RecoveryRequired, egress := false, core := if o.coreStopped then None else h.core,
         dpi := h.dpi && !o.coreStopped, telegram := h.telegram && !o.coreStopped)
    else h.(phase := Idle, egress := false, core := None, dpi := false, telegram := false)
  }

  predicate DisconnectOk(h: Host, o: StopOutcome, explicit: bool) {
    if h.phase.Idle? then !explicit || o.StopOk?
    else o.StopOk? || (o.StopGuardFailed? && !explicit)
  }

  /** A host call other than connect may stop the Core, never start it. */
  predicate LegalCall(h: Host, h': Host) {
    && (h'.core == h.core || h'.core == None)
    && (h'.core.Some? ==> !h'.phase.Idle?)
    && (h'.phase.Running? ==> h.phase.Running? && h'.core == h.core && h'.effective == h.effective
                              && h'.requiresBound == h.requiresBound)
    && (h'.egress ==> h'.phase.Running?)
  }

  function Called(h: Host, proposed: Host): Host { if LegalCall(h, proposed) then proposed else h }

  /** `prepared` says whether the requested DPI or Telegram plan was prepared. */
  datatype ConnectOutcome =
    | Committed(prepared: bool) | GuardFailed(prepared: bool) | RolledBack | RollbackFailed(coreStopped: bool)

  /** Finish of the guard runs only over validated egress and only with a guard armed. */
  predicate MayFailGuard(op: Op, h: Host) { (op.kind.protectedHandoff || op.kind.dpiOwner) && !h.requiresBound }

  function Connected(h: Host, op: Op, o: ConnectOutcome): Host {
    match o
    case RolledBack => h.(phase := Idle, core := None, egress := false, dpi := false, telegram := false)
    case RollbackFailed(stopped) =>
      h.(phase := RecoveryRequired, egress := false, core := if stopped then None else h.core)
    case Committed(prepared) => h.(phase := Running, effective := op.kind.digest, egress := !h.requiresBound,
                                   dpi := op.kind.dpiOwner && prepared, telegram := op.kind.telegramOwner && prepared)
    case GuardFailed(prepared) => h.(phase := Running, effective := op.kind.digest, egress := false,
                                     dpi := op.kind.dpiOwner && prepared, telegram := op.kind.telegramOwner && prepared)
  }

  // ----- threads --------------------------------------------------------------

  datatype Command =
    | ConnectBound(digest: nat)
    | ConnectPlain(digest: nat, replace: bool)
    | Disconnect
    | Cancel(target: Id)
    | Confirm(target: Id)
    | Status
    | Promote(target: Id, digest: nat, leaseRef: nat)
    | RevokeLease(target: Id, digest: nat, leaseRef: nat, terminate: bool)
    | BoundControl(target: Id, digest: nat)
    | Lifecycle
    | HostQuery(readOnly: bool)
    | Watch

  predicate IsConnect(c: Command) { c.ConnectBound? || c.ConnectPlain? }

  /** Program points, classified by the locks the thread holds or needs there. */
  datatype Pc =
    | Free(free: FreePc)                    // holds neither lock
    | Waiting(waiting: WaitingPc)           // blocks on the execution lock
    | Section(section: SectionPc)           // its step runs under the state lock
    | Owning(owning: OwningPc)              // holds the execution lock
    | OwningSection(step: OwningSectionPc)  // holds it, and its step runs under the state lock

  datatype FreePc = Start | TryExec | StatusRefresh | WatchRefresh | WatchTryExec | WatchInspect
  datatype WaitingPc = WaitExec | ConfirmWait | WatchWaitExec
  datatype SectionPc =
    | SignalChecks | RecordExpired | RecordBusy | CancelSection | StatusCapture | StatusReply | ConfirmFirst
    | WatchSleep | WatchMark | WatchUnmark | EgressBegin
  datatype OwningPc =
    | Owned | OwnerCheck | Connecting | ConnectStarted | HostCall | AfterHost | CancelAfterCommit | ConfirmStop
    | PromoteRefresh | PromoteCall | PromoteRecheck | RevokeRefresh | RevokeCall | RevokeRecheck | LeaseStop
    | ControlRefresh | ControlCall | ControlRecheck | WatchMaintain | WatchStop | EgressProbe
  datatype OwningSectionPc =
    | Install | RecordNetwork | RecordOwner | ConnectCallback | StartedCallback | Settle | SettleCancel | Respond
    | ConfirmSecond | ConfirmLast | PromoteCheck | PromotePublish | RevokeCheck | RevokeMark | RevokePublish
    | LeaseRetire | ControlCheck | ControlCallback | ControlPublish | WatchRecheck | WatchCallback
    | WatchMaintained | WatchClaim | WatchRetire | EgressEnd

  predicate NeedsState(pc: Pc) { pc.Section? || pc.OwningSection? }
  predicate WaitsExec(pc: Pc) { pc.Waiting? }
  predicate HoldsExec(pc: Pc) { pc.Owning? || pc.OwningSection? }

  /** Program points inside a RuntimeHost lifecycle method. */
  predicate InHost(pc: Pc) {
    || (pc.Owning? && !pc.owning.Owned? && !pc.owning.OwnerCheck? && !pc.owning.AfterHost?
        && !pc.owning.PromoteRefresh? && !pc.owning.PromoteRecheck? && !pc.owning.RevokeRefresh?
        && !pc.owning.RevokeRecheck? && !pc.owning.ControlRefresh? && !pc.owning.ControlRecheck?)
    || (pc.OwningSection? && (pc.step.ConnectCallback? || pc.step.StartedCallback? || pc.step.ControlCallback?
                              || pc.step.WatchCallback?))
  }

  /** Program points from which a request may still install its owner record. */
  predicate MayInstall(pc: Pc) {
    || (pc.Free? && (pc.free.Start? || pc.free.TryExec?))
    || (pc.Section? && pc.section.SignalChecks?)
    || (pc.Waiting? && pc.waiting.WaitExec?)
    || (pc.Owning? && (pc.owning.Owned? || pc.owning.OwnerCheck?))
    || (pc.OwningSection? && (pc.step.RecordOwner? || pc.step.Install?))
  }

  /** Program points of a request that has installed no owner record. */
  predicate BeforeInstall(pc: Pc) {
    || MayInstall(pc) || (pc.Section? && (pc.section.RecordExpired? || pc.section.RecordBusy?))
    || (pc.OwningSection? && pc.step.RecordNetwork?)
  }

  /** Program points from which a connect request may still start the Core. */
  predicate MayStart(pc: Pc) {
    MayInstall(pc) || (pc.Owning? && pc.owning.Connecting?) || (pc.OwningSection? && pc.step.ConnectCallback?)
  }

  predicate CoreStarting(pc: Pc) {
    (pc.Owning? && pc.owning.ConnectStarted?) || (pc.OwningSection? && pc.step.StartedCallback?)
  }

  datatype Thread = Thread(pc: Pc, cmd: Command, cap: Option<Id>, result: Result, dpi: bool, telegram: bool,
                           fence: bool,
                           watchBound: bool, watchDpi: bool, hadDpi: bool)

  function NewThread(pc: Pc, cmd: Command): Thread {
    Thread(pc, cmd, None, Result(false, Receipt), false, false, false, false, false, false)
  }

  /** History kept only to state properties. */
  datatype History = History(
    requests: map<Id, Command>, retired: set<Id>, settled: set<Id>, guardFailed: set<Id>,
    confirmed: set<(Id, nat)>, terminalRevokes: set<Id>, promotions: map<Id, nat>,
    cancels: map<Id, nat>, watcherStops: map<Id, nat>)

  datatype State = State(
    exec: Option<Id>, lock: Option<Id>, threads: map<Id, Thread>,
    active: Option<Id>, stopped: Option<Id>, ops: map<Id, Op>,
    snapshot: Result, host: Host, closing: bool, egressCheck: bool, hist: History)

  /** The nondeterminism of one step: the instant's answers and the outcomes of foreign calls. */
  datatype Choice = Choice(env: Env, flag: bool, other: bool, stop: StopOutcome, connect: ConnectOutcome, call: Host)

  function Count(m: map<Id, nat>, id: Id): nat { if id in m then m[id] else 0 }
  function Bump(m: map<Id, nat>, id: Option<Id>): map<Id, nat> {
    if id.Some? then m[id.value := Count(m, id.value) + 1] else m
  }
  function Added<T(==)>(s: set<T>, x: Option<T>): set<T> { if x.Some? then s + {x.value} else s }

  function Attempted(op: Op): Op { op.(now := op.now.(cleanupAttempted := true)) }
  function CleanupWanted(op: Op): Op { op.(now := RaiseIf(op.now, true, Cancelled).(cleanupAttempted := false)) }
  function Maintaining(op: Op, on: bool): Op { op.(now := op.now.(maintenance := on)) }
  function DpiCancelled(op: Op): Op { op.(now := op.now.(dpiCancelled := true)) }
  function Promoted(op: Op, leaseRef: nat): Op { op.(now := op.now.(promoted := true, leaseRef := leaseRef)) }
  function Terminated(op: Op): Op { op.(now := op.now.(terminated := true)) }
  function HandedOff(op: Op): Op { op.(now := op.now.(ordinaryHandoff := true)) }

  predicate Known(s: State, id: Option<Id>) { id.Some? && id.value in s.ops }
  predicate ActiveBound(s: State) { Known(s, s.active) && s.ops[s.active.value].kind.bound }

  // ----- effects ----------------------------------------------------------------

  datatype OwnerChange = Keep | Clear | Take

  /** What one step does. The locks follow from the program points, so they are not listed. */
  datatype Effect = Effect(
    next: Option<Thread>, own: Option<(Id, Op)>, owner: OwnerChange, slot: Option<Id>,
    host: Host, snapshot: Result, egressCheck: bool,
    settle: Option<Id>, guardFailed: bool, confirm: Option<(Id, nat)>, terminal: Option<Id>,
    promote: Option<Id>, cancel: Option<Id>, watcherStop: Option<Id>, reply: Option<Result>)

  /** Only the thread moves on. */
  function Still(s: State, t: Thread): Effect {
    Effect(Some(t), None, Keep, None, s.host, s.snapshot, s.egressCheck, None, false, None, None, None, None, None,
        None)
  }
  function Goto(s: State, t: Thread, pc: Pc): Effect { Still(s, t.(pc := pc)) }

  /** The execution lock is held exactly at the program points that own it; a section releases the state lock. */
  function Commit(s: State, id: Id, e: Effect): State
    requires id in s.threads
  {
    State(
      if e.next.Some? && HoldsExec(e.next.value.pc) then Some(id) else if s.exec == Some(id) then None else s.exec,
      if NeedsState(s.threads[id].pc) then None else s.lock,
      if e.next.Some? then s.threads[id := e.next.value] else s.threads - {id},
      match e.owner case Keep => s.active case Clear => None case Take => Some(id),
      if e.slot.Some? then e.slot else s.stopped,
      if e.own.Some? then s.ops[e.own.value.0 := e.own.value.1] else s.ops,
      e.snapshot, e.host, s.closing, e.egressCheck,
      History(s.hist.requests, Added(s.hist.retired, e.slot), Added(s.hist.settled, e.settle),
              if e.guardFailed then s.hist.guardFailed + {id} else s.hist.guardFailed,
              Added(s.hist.confirmed, e.confirm), Added(s.hist.terminalRevokes, e.terminal),
              Bump(s.hist.promotions, e.promote), Bump(s.hist.cancels, e.cancel),
                  Bump(s.hist.watcherStops, e.watcherStop)))
  }

  function Own(e: Effect, id: Id, op: Op): Effect { e.(own := Some((id, op))) }
  /** RetireConnect: a bound owner leaves its target in the settlement slot. */
  function Retire(s: State, e: Effect): Effect { RetireIf(s, e, true) }
  function RetireIf(s: State, e: Effect, when: bool): Effect {
    e.(owner := if when then Clear else e.owner, slot := if when && ActiveBound(s) then s.active else e.slot)
  }
  /** Puts the request itself in the one settlement slot. */
  function Record(e: Effect, id: Id): Effect { RecordIf(e, id, true) }
  function RecordIf(e: Effect, id: Id, when: bool): Effect { e.(slot := if when then Some(id) else e.slot) }
  function Seen(s: State, e: Effect): Effect { e.(snapshot := HostView(s.host)) }

  function Projected(s: State, e: Effect, env: Env): Op requires ActiveBound(s) {
    ProjectOwner(if e.own.Some? && e.own.value.0 == s.active.value then e.own.value.1 else s.ops[s.active.value], env)
  }
  /** ProjectBoundState over the active owner, then the response itself. */
  function Reply(s: State, e: Effect, r: Result, env: Env): Effect {
    e.(next := None,
       own := if ActiveBound(s) then Some((s.active.value, Projected(s, e, env))) else e.own,
       reply := Some(if ActiveBound(s)
                     then ProjectResult(Projected(s, e, env), r) else WithTransportState(r, false, false)))
  }
  /** A receipt or failure code returned without projection. */
  function ReplyPlain(e: Effect, ok: bool): Effect { PlainIf(e, ok, true) }
  function PlainIf(e: Effect, ok: bool, when: bool): Effect {
    e.(next := if when then None else e.next,
       reply := if when then Some(Result(ok, Receipt)) else e.reply)
  }

  // ----- request entry and admission ------------------------------------------

  function StepStart(s: State, t: Thread, c: Choice): Effect {
    Goto(s, t, match t.cmd
               case Cancel(_) => Section(CancelSection)
               case Confirm(_) => Section(ConfirmFirst)
               case Status => Section(StatusCapture)
               case ConnectBound(_) => if c.env.deadlineCurrent then Free(TryExec) else Section(RecordExpired)
               case _ => Free(TryExec))
  }

  function StepTryExec(s: State, t: Thread): Effect {
    Goto(s, t, if s.exec.None? then Owning(Owned)
               else if t.cmd == HostQuery(true) then Section(RecordBusy) else Section(SignalChecks))
  }

  function StepSignalChecks(s: State, t: Thread): Effect {
    var stopping := t.cmd.Disconnect? && Known(s, s.active) && s.ops[s.active.value].now.maintenance;
    Goto(s, t, if s.egressCheck || stopping then Waiting(WaitExec) else Section(RecordBusy))
      .(own := if stopping then Some((s.active.value, DpiCancelled(s.ops[s.active.value]))) else None)
  }

  function StepRecordBusy(s: State, id: Id, t: Thread, c: Choice): Effect {
    Reply(s, RecordIf(Still(s, t), id, t.cmd.ConnectBound?), WithFailure(s.snapshot), c.env)
  }

  function AfterAdmission(cmd: Command, networkCurrent: bool): Pc {
    match cmd
    case Promote(_, _, _) => OwningSection(PromoteCheck)
    case RevokeLease(_, _, _, _) => OwningSection(RevokeCheck)
    case BoundControl(_, _) => OwningSection(ControlCheck)
    case ConnectBound(_) => if networkCurrent then Owning(OwnerCheck) else OwningSection(RecordNetwork)
    case ConnectPlain(_, replace) => if networkCurrent || !replace then Owning(OwnerCheck)
        else OwningSection(RecordNetwork)
    case _ => OwningSection(Install)
  }

  function StepOwned(s: State, t: Thread, c: Choice): Effect {
    Still(s, t.(pc := AfterAdmission(t.cmd, c.env.networkCurrent), dpi := c.flag && c.env.candidateCurrent,
                telegram := c.other && c.env.candidateCurrent, fence := c.flag && c.env.candidateCurrent))
  }

  function StepOwnerCheck(s: State, t: Thread, c: Choice): Effect {
    Goto(s, t, if (t.cmd.ConnectBound? || t.dpi || t.telegram) && !c.env.clientAlive
               then OwningSection(RecordOwner) else OwningSection(Install))
  }

  /** The slot is written for an unbound target too; only the bound one returns here. */
  function StepRecordOwner(s: State, id: Id, t: Thread, c: Choice): Effect {
    var e := Record(Still(s, t.(pc := OwningSection(Install), dpi := false, telegram := false)), id);
    if t.cmd.ConnectBound? then ReplyPlain(e, false) else e
  }

  function NewOp(t: Thread, h: Host, guardArmed: bool): Op requires IsConnect(t.cmd) {
    Op(Kind(t.cmd.ConnectBound?, t.cmd.digest, t.cmd.ConnectBound? && h.requiresBound,
            (t.cmd.ConnectPlain? && t.cmd.replace) || guardArmed, t.dpi, t.telegram,
            t.cmd.ConnectBound? || t.cmd.replace || t.fence),
       Flags(NoCause, false, false, false, false, 0, false, false, false, false, false))
  }

  predicate Occupied(s: State, cmd: Command) { ActiveBound(s) && (IsConnect(cmd) || cmd.Lifecycle?) }

  function StepInstall(s: State, id: Id, t: Thread, c: Choice): Effect {
    if Occupied(s, t.cmd)
    then Reply(s, RecordIf(Still(s, t), id, t.cmd.ConnectBound?), WithFailure(s.snapshot), c.env)
    else Admit(s, id, t, c)
  }

  function Admit(s: State, id: Id, t: Thread, c: Choice): Effect {
    Still(s, t.(pc := if IsConnect(t.cmd) then Owning(Connecting) else Owning(HostCall), hadDpi := s.host.dpi))
      .(own := if IsConnect(t.cmd) then Some((id, NewOp(t, s.host, c.flag))) else None,
        owner := if IsConnect(t.cmd) then Take else Keep,
        snapshot := if t.cmd.HostQuery? then HostView(s.host) else STOPPING)
  }

  // ----- a connect inside the host --------------------------------------------

  function Ended(e: Effect, t: Thread, h: Host, ok: bool, pc: Pc): Effect {
    e.(next := Some(t.(pc := pc, result := Result(ok, HostView(h).view))), host := h)
  }

  function StepConnecting(s: State, id: Id, t: Thread, c: Choice): Effect requires id in s.ops && IsConnect(t.cmd) {
    var op := CheckConnect(s.ops[id], c.env);
    var replacing := t.cmd.ConnectPlain? && t.cmd.replace;
    var callback := c.flag && op.kind.dpiOwner;
    var early := !callback && c.other;
    var stops := !callback && !early && !s.host.phase.Idle? && replacing;
    var starts := !callback && !early && s.host.phase.Idle? && op.now.cause.NoCause?;
    var h := if stops then Disconnected(s.host, c.stop)
             else s.host.(core := if starts then Some(id) else s.host.core,
                          phase := if early && s.host.phase.Idle? && c.connect.RollbackFailed? then RecoveryRequired
                              else s.host.phase);
    Ended(Own(Still(s, t), id, op), t, h, early && s.host.phase.Running? && t.cmd.ConnectPlain? && !replacing
          && op.now.cause.NoCause?,
          if callback then OwningSection(ConnectCallback)
          else if starts then Owning(ConnectStarted)
          else if stops && DisconnectOk(s.host, c.stop, false) then Owning(Connecting)
          else Owning(AfterHost))
  }

  function StepConnectCallback(s: State, id: Id, t: Thread, back: OwningPc): Effect requires id in s.ops {
    Own(Goto(s, t, Owning(back)), id, s.ops[id].(now := RaiseIf(s.ops[id].now, s.active != Some(id), OwnerChanged)))
  }

  function StepConnectStarted(s: State, id: Id, t: Thread, c: Choice): Effect requires id in s.ops {
    var op := CheckConnect(s.ops[id], c.env);
    var callback := c.flag && op.kind.dpiOwner;
    var outcome := if c.connect.GuardFailed? && !MayFailGuard(op, s.host) then Committed(c.connect.prepared)
        else c.connect;
    Ended(Own(Still(s, t), id, op).(guardFailed := !callback && outcome.GuardFailed?), t,
          if callback then s.host else Connected(s.host, op, outcome), outcome.Committed?,
          if callback then OwningSection(StartedCallback) else Owning(AfterHost))
  }

  function StepHostCall(s: State, t: Thread, c: Choice): Effect {
    Ended(Still(s, t), t, if t.cmd.Disconnect? then Disconnected(s.host, c.stop) else Called(s.host, c.call),
          if t.cmd.Disconnect? then DisconnectOk(s.host, c.stop, true) else c.flag, Owning(AfterHost))
  }

  // ----- settling a finished host call ------------------------------------------

  /** A cooperative failure named by the host is kept as the first cause. */
  function SettledFlags(kind: Kind, f: Flags, named: bool, late: bool, e: Env): Flags {
    var refreshed := RefreshFlags(kind, RaiseIf(f, named, if late then Deadline else Cancelled), e);
    RaiseIf(refreshed, kind.fenced && !NetworkHolds(kind, e), NetworkChanged)
  }

  function StepAfterHost(s: State, id: Id, t: Thread, c: Choice): Effect requires IsConnect(t.cmd) ==> id in s.ops {
    Goto(s, t, OwningSection(Settle)).(own :=
      if !IsConnect(t.cmd) then None
      else Some((id, Op(s.ops[id].kind, SettledFlags(s.ops[id].kind, s.ops[id].now, c.flag && !t.result.ok, c.other,
          c.env)))))
  }

  function StepSettle(s: State, id: Id, t: Thread, c: Choice): Effect requires IsConnect(t.cmd) ==> id in s.ops {
    if IsConnect(t.cmd) then SettleConnect(s, id, t, c) else SettleOther(s, t)
  }

  function SettleConnect(s: State, id: Id, t: Thread, c: Choice): Effect requires id in s.ops {
    var op := s.ops[id];
    var now := RaiseIf(op.now, op.kind.bound && !c.env.deadlineCurrent, Deadline);
    var cancels := (now.cancelled || now.deadlineExpired) && t.result.ok;
    var retires := !cancels && ((!op.kind.bound && !s.host.dpi && !s.host.telegram)
                                || (!t.result.ok && !s.host.phase.RecoveryRequired?));
    RetireIf(s, Goto(s, t, if cancels then Owning(CancelAfterCommit) else OwningSection(Respond))
      .(own := Some((id, Op(op.kind, now.(cleanupAttempted := now.cleanupAttempted
        || (!cancels && !retires && !t.result.ok))))),
        snapshot := if cancels then s.snapshot else HostView(s.host)), retires)
  }

  function SettleOther(s: State, t: Thread): Effect {
    var recovery := s.host.phase.RecoveryRequired?;
    var owner := Known(s, s.active) && s.ops[s.active.value].kind.dpiOwner;
    var explicit := t.cmd.Disconnect? && t.result.ok;
    RetireIf(s, Seen(s, Goto(s, t, OwningSection(Respond)))
      .(own := if !explicit && t.hadDpi && owner && recovery
          then Some((s.active.value, Attempted(s.ops[s.active.value]))) else None),
      explicit || (owner && !s.host.dpi && !s.host.telegram && !recovery
                   && (!ActiveBound(s) || (t.hadDpi && !s.host.phase.Running?))))
  }

  function StepCancelAfterCommit(s: State, id: Id, t: Thread, c: Choice): Effect requires id in s.ops {
    var failed := s.ops[id].kind.protectedHandoff && c.flag;
    var h := if failed then s.host else Disconnected(s.host, c.stop);
    Still(s, t.(pc := OwningSection(SettleCancel), result := Result(false, HostView(h).view))).(host := h,
        guardFailed := failed)
  }

  function StepSettleCancel(s: State, id: Id, t: Thread): Effect requires id in s.ops {
    var kept := s.ops[id].kind.bound && s.host.phase.RecoveryRequired?;
    RetireIf(s, Seen(s, Goto(s, t, OwningSection(Respond))).(own := if kept then Some((id, Attempted(s.ops[id])))
        else None), !kept)
  }

  // ----- status and cancellation ------------------------------------------------

  function Refreshed(s: State, e: Effect, cap: Option<Id>, env: Env): Effect {
    e.(own := if Known(s, cap) then Some((cap.value, RefreshBoundNetwork(s.ops[cap.value], env))) else None)
  }

  function StepCancel(s: State, id: Id, t: Thread, c: Choice): Effect requires t.cmd.Cancel? {
    var found := s.active == Some(t.cmd.target) && Known(s, s.active);
    ReplyPlain(Still(s, t).(own := if found then Some((t.cmd.target, CleanupWanted(s.ops[t.cmd.target]))) else None,
                            cancel := if found then s.active else None), found)
  }

  /** The receipt says settled exactly when the slot holds the target. */
  function Answer(s: State, e: Effect, target: Id, when: bool): Effect {
    PlainIf(e.(settle := if when && s.stopped == Some(target) then s.stopped else None), true, when)
  }

  function StepConfirmFirst(s: State, id: Id, t: Thread, c: Choice): Effect requires t.cmd.Confirm? {
    var waits := s.stopped != Some(t.cmd.target) && s.active == Some(t.cmd.target) && ActiveBound(s);
    Answer(s, Still(s, t.(pc := Waiting(ConfirmWait), cap := s.active))
      .(own := if waits then Some((t.cmd.target, Interrupt(s.ops[t.cmd.target], Cancelled))) else None), t.cmd.target,
          !waits)
  }

  function StepConfirmSecond(s: State, id: Id, t: Thread, c: Choice): Effect requires t.cmd.Confirm? {
    var stops := s.stopped != Some(t.cmd.target) && s.active == t.cap && ActiveBound(s);
    Answer(s, Goto(s, t, Owning(ConfirmStop))
      .(own := if stops then Some((s.active.value, Attempted(s.ops[s.active.value]))) else None), t.cmd.target, !stops)
  }

  /** The explicit Disconnect made by cancellation, by a failed lease change and by the watcher. */
  function StepStop(s: State, t: Thread, c: Choice, next: OwningSectionPc): Effect {
    var h := Disconnected(s.host, c.stop);
    Still(s, t.(pc := OwningSection(next), result := Result(DisconnectOk(s.host, c.stop, true),
        HostView(h).view))).(host := h)
  }

  function StepConfirmLast(s: State, id: Id, t: Thread, c: Choice): Effect requires t.cmd.Confirm? {
    ReplyPlain(RetireIf(s, Seen(s, Still(s, t)), t.result.ok)
                 .(settle := if t.result.ok then Some(t.cmd.target) else None), true)
  }

  // ----- lease promotion, revocation and bound control ---------------------------

  predicate PromotionCurrent(s: State, cap: Option<Id>, cmd: Command, e: Env) requires cmd.Promote? {
    && s.active == cap && Known(s, cap) && cap.value == cmd.target
    && var op := s.ops[cap.value];
    && op.kind.bound && op.kind.digest == cmd.digest && !op.now.cancelled && !op.now.deadlineExpired
    && !op.now.cleanupAttempted && !op.now.promoted
    && e.networkCurrent && e.deadlineCurrent && e.clientAlive && e.requestCurrent && !e.stopEvent
  }

  function StepPromoteCheck(s: State, id: Id, t: Thread, c: Choice): Effect requires t.cmd.Promote? {
    PlainIf(Still(s, t.(pc := Owning(PromoteRefresh), cap := s.active)), false,
            !PromotionCurrent(s, s.active, t.cmd, c.env))
  }

  /** Refreshes the captured owner outside the state lock and gives up on a cancelled one. */
  function StepRefresh(s: State, id: Id, t: Thread, c: Choice, next: Pc): Effect {
    var e := Refreshed(s, Goto(s, t, next), t.cap, c.env);
    PlainIf(e, false, e.own.Some? && e.own.value.1.now.cancelled)
  }

  /** What Core answers at this step: it confirms the lease of a running bound profile, or it does not. */
  function CoreAnswer(s: State, t: Thread, c: Choice): Option<(Id, nat)> {
    if t.pc == Owning(PromoteCall) && t.cmd.Promote? && c.flag
        && s.host.phase.Running? && s.host.requiresBound && s.host.effective == t.cmd.digest
    then Some((t.cmd.target, t.cmd.digest)) else None
  }

  function StepPromoteCall(s: State, t: Thread, c: Choice): Effect requires t.cmd.Promote? {
    var ok := s.host.phase.Running? && s.host.requiresBound && s.host.effective == t.cmd.digest && c.flag;
    Still(s, t.(pc := Owning(PromoteRecheck), result := Result(ok, Receipt)))
      .(host := if ok then s.host.(egress := true) else s.host)
  }

  predicate PromotionHolds(s: State, t: Thread, e: Env) requires t.cmd.Promote? {
    t.result.ok && PromotionCurrent(s, t.cap, t.cmd, e) && e.leaseCurrent
  }

  function StepPromotePublish(s: State, id: Id, t: Thread, c: Choice): Effect requires t.cmd.Promote? {
    if PromotionHolds(s, t, c.env) then PublishPromotion(s, id, t, c.env) else Goto(s, t, Owning(LeaseStop))
  }

  function PublishPromotion(s: State, id: Id, t: Thread, e: Env): Effect
    requires t.cmd.Promote? && PromotionHolds(s, t, e)
  {
    var op := Promoted(s.ops[t.cap.value], t.cmd.leaseRef);
    Reply(s, Own(Seen(s, Still(s, t)), t.cap.value, op).(promote := t.cap), HostView(s.host), e)
  }

  predicate RevocationCurrent(s: State, cmd: Command, e: Env) requires cmd.RevokeLease? {
    && ActiveBound(s) && s.active.value == cmd.target
    && var op := s.ops[s.active.value];
    && op.kind.digest == cmd.digest && op.now.leaseRef == cmd.leaseRef && op.now.promoted && !op.now.terminated
    && !op.now.cancelled && !op.now.deadlineExpired && !op.now.cleanupAttempted
    && e.clientAlive && e.requestCurrent && !e.stopEvent
  }

  function StepRevokeCheck(s: State, id: Id, t: Thread, c: Choice): Effect requires t.cmd.RevokeLease? {
    PlainIf(Still(s, t.(pc := Owning(RevokeRefresh), cap := s.active)), false, !RevocationCurrent(s, t.cmd, c.env))
  }

  predicate CapturedLive(s: State, cap: Option<Id>) {
    s.active == cap && Known(s, cap) && !s.ops[cap.value].now.cancelled && !s.ops[cap.value].now.deadlineExpired
  }

  function StepRevokeMark(s: State, id: Id, t: Thread, c: Choice): Effect {
    var live := CapturedLive(s, t.cap);
    PlainIf(Goto(s, t, Owning(RevokeCall))
              .(own := if live then Some((t.cap.value, Terminated(s.ops[t.cap.value]))) else None,
                terminal := if live then t.cap else None), false, !live)
  }

  function StepRevokeCall(s: State, t: Thread, c: Choice): Effect requires t.cmd.RevokeLease? {
    var reached := s.host.phase.Running? && s.host.requiresBound && s.host.effective == t.cmd.digest;
    Still(s, t.(pc := Owning(RevokeRecheck), result := Result(reached && c.flag, Receipt)))
      .(host := if reached then s.host.(egress := false) else s.host)
  }

  predicate RevocationHolds(s: State, t: Thread) requires t.cmd.RevokeLease? {
    t.result.ok && CapturedLive(s, t.cap) && s.ops[t.cap.value].now.leaseRef == t.cmd.leaseRef
  }

  function StepRevokePublish(s: State, id: Id, t: Thread, c: Choice): Effect requires t.cmd.RevokeLease? {
    if RevocationHolds(s, t) then Reply(s, Seen(s, Still(s, t)), HostView(s.host), c.env)
    else Goto(s, t, Owning(LeaseStop))
  }

  function StepLeaseRetire(s: State, id: Id, t: Thread, c: Choice): Effect {
    var current := s.active == t.cap;
    ReplyPlain(RetireIf(s, Seen(s, Still(s, t))
      .(own := if current && !t.result.ok && Known(s, t.cap) then Some((t.cap.value, Attempted(s.ops[t.cap.value])))
          else None),
      current && t.result.ok), false)
  }

  predicate ControlCurrent(s: State, cap: Option<Id>, cmd: Command, e: Env) requires cmd.BoundControl? {
    && s.active == cap && Known(s, cap) && cap.value == cmd.target
    && var op := s.ops[cap.value];
    && op.kind.bound && op.kind.digest == cmd.digest && !op.now.cancelled && !op.now.deadlineExpired
    && !op.now.cleanupAttempted
    && e.networkCurrent && (op.now.ordinaryHandoff || e.deadlineCurrent) && e.requestCurrent && !e.stopEvent
  }

  function StepControlCheck(s: State, id: Id, t: Thread, c: Choice): Effect requires t.cmd.BoundControl? {
    PlainIf(Still(s, t.(pc := Owning(ControlRefresh), cap := s.active)), false,
            !ControlCurrent(s, s.active, t.cmd, c.env))
  }

  function StepControlCall(s: State, t: Thread, c: Choice): Effect {
    Still(s, t.(pc := if c.other then OwningSection(ControlCallback)
        else Owning(ControlRecheck), result := Result(c.flag, Receipt)))
      .(host := if c.other then s.host else Called(s.host, c.call))
  }

  function StepControlPublish(s: State, id: Id, t: Thread, c: Choice): Effect requires t.cmd.BoundControl? {
    var current := ControlCurrent(s, t.cap, t.cmd, c.env);
    var e := Seen(s, Still(s, t));
    ReplyPlain(if current && !s.ops[t.cap.value].kind.requiresLease && t.result.ok && c.flag
               then Own(e, t.cap.value, HandedOff(s.ops[t.cap.value])) else e,
               current && t.result.ok)
  }

  // ----- the watcher ---------------------------------------------------------------

  function StepWatchSleep(s: State, t: Thread): Effect {
    if s.closing then Still(s, t).(next := None)
    else
      var live := Known(s, s.active) && !s.ops[s.active.value].now.cleanupAttempted;
      var bound := live && s.ops[s.active.value].kind.bound;
      var dpi := live && s.ops[s.active.value].kind.dpiOwner;
      var telegram := live && s.ops[s.active.value].kind.telegramOwner;
      Still(s, t.(pc := if dpi || telegram then Free(WatchRefresh)
                  else if bound then Free(WatchInspect) else Section(EgressBegin),
                  cap := s.active, watchBound := bound, watchDpi := dpi))
  }

  function StepWatchMark(s: State, t: Thread): Effect {
    var current := s.active == t.cap && !s.closing && Known(s, t.cap);
    Goto(s, t, if current then Free(WatchTryExec) else Section(WatchSleep))
      .(own := if current then Some((t.cap.value, Maintaining(s.ops[t.cap.value], t.watchDpi))) else None)
  }

  function Unmarked(s: State, e: Effect, cap: Option<Id>): Effect {
    e.(own := if Known(s, cap) then Some((cap.value, Maintaining(s.ops[cap.value], false))) else e.own)
  }

  function StepWatchRecheck(s: State, t: Thread): Effect {
    var gone := s.active != t.cap || s.closing;
    Still(s, t.(pc := if gone then Section(WatchSleep) else Owning(WatchMaintain), hadDpi := s.host.dpi))
      .(own := if gone && Known(s, t.cap) then Some((t.cap.value, Maintaining(s.ops[t.cap.value], false))) else None)
  }

  function StepWatchMaintain(s: State, t: Thread, c: Choice): Effect {
    Goto(s, t, if c.flag then OwningSection(WatchCallback) else OwningSection(WatchMaintained))
      .(host := if c.flag then s.host else Called(s.host, c.call))
  }

  function StepWatchCallback(s: State, t: Thread, c: Choice): Effect {
    Goto(s, t, Owning(WatchMaintain)).(own :=
      if !Known(s, t.cap) then None
      else Some((t.cap.value, Op(s.ops[t.cap.value].kind,
             MaintainedFlags(s.ops[t.cap.value].kind, s.ops[t.cap.value].now, s.active != t.cap || s.closing, c.env)))))
  }

  function MaintainedFlags(kind: Kind, f: Flags, gone: bool, e: Env): Flags {
    var refreshed := RefreshFlags(kind, f, e);
    RaiseIf(refreshed.(dpiCancelled := refreshed.dpiCancelled || gone), kind.bound && !OwnerTimeHolds(refreshed, e),
        Deadline)
  }

  function StepWatchMaintained(s: State, t: Thread): Effect {
    var current := s.active == t.cap && Known(s, t.cap);
    var recovery := current && s.host.phase.RecoveryRequired?;
    var retires := current && !recovery && !s.host.dpi && !s.host.telegram
                   && (!s.ops[t.cap.value].kind.bound || (t.hadDpi && !s.host.phase.Running?));
    RetireIf(s, Seen(s, Still(s, t.(pc := if t.watchBound && !recovery && !retires then Free(WatchInspect)
                                    else Section(EgressBegin),
                                    watchBound := t.watchBound && !recovery && !retires)))
      .(own := if Known(s, t.cap) then Some((t.cap.value, Op(s.ops[t.cap.value].kind,
                 s.ops[t.cap.value].now.(maintenance := false,
                   cleanupAttempted := s.ops[t.cap.value].now.cleanupAttempted || recovery)))) else None), retires)
  }

  function StepWatchInspect(s: State, t: Thread, c: Choice): Effect {
    if Known(s, t.cap) then Inspect(s, t, CheckOwnerDeadline(RefreshBoundNetwork(s.ops[t.cap.value], c.env), c.env),
        t.cap.value)
    else Goto(s, t, Section(WatchSleep))
  }

  function Inspect(s: State, t: Thread, op: Op, owner: Id): Effect {
    Own(Goto(s, t, if op.now.cancelled || op.now.deadlineExpired then Waiting(WatchWaitExec)
                   else if op.now.ordinaryHandoff then Section(EgressBegin) else Section(WatchSleep)), owner, op)
  }

  function StepWatchClaim(s: State, t: Thread): Effect {
    if s.closing then Still(s, t).(next := None) else Claim(s, t)
  }

  function Claim(s: State, t: Thread): Effect {
    var claims := s.active == t.cap && Known(s, t.cap) && !s.ops[t.cap.value].now.cleanupAttempted;
    Goto(s, t, if claims then Owning(WatchStop) else Section(WatchSleep))
      .(own := if claims then Some((t.cap.value, Attempted(s.ops[t.cap.value]))) else None,
        watcherStop := if claims then t.cap else None)
  }

  function StepWatchRetire(s: State, t: Thread): Effect {
    RetireIf(s, Goto(s, t, Section(WatchSleep))
      .(snapshot := if t.result.ok then WithFailure(HostView(s.host)) else HostView(s.host)), t.result.ok)
  }

  /** Holds the state lock and only tries the execution lock. */
  function StepEgressBegin(s: State, t: Thread, c: Choice): Effect {
    var checks := !s.closing && s.exec.None? && s.host.phase.Running? && !s.host.requiresBound && c.flag;
    Goto(s, t, if checks then Owning(EgressProbe) else Section(WatchSleep)).(egressCheck := s.egressCheck || checks)
  }

  function StepEgressProbe(s: State, t: Thread, c: Choice): Effect {
    var checked := s.host.phase.Running? && !s.host.requiresBound && c.other;
    Goto(s, t, OwningSection(EgressEnd)).(host := if checked then s.host.(egress := c.flag) else s.host)
  }

  function StepEgressEnd(s: State, t: Thread, c: Choice): Effect {
    Goto(s, t, Section(WatchSleep)).(egressCheck := false, snapshot := if c.flag && !s.closing then HostView(s.host)
        else s.snapshot)
  }

  // ----- moves and runs ---------------------------------------------------------------

  datatype Move = Arrive(id: Id, cmd: Command) | AcquireState(id: Id) | Act(id: Id, choice: Choice) | Close

  predicate Runnable(s: State, id: Id) {
    && id in s.threads
    && (NeedsState(s.threads[id].pc) ==> s.lock == Some(id))
    && (WaitsExec(s.threads[id].pc) ==> s.exec.None?)
  }

  /** A thread that can only wait for a lock another thread holds. */
  predicate Blocked(s: State, id: Id) {
    && id in s.threads
    && ((NeedsState(s.threads[id].pc) && s.lock.Some? && s.lock != Some(id))
        || (WaitsExec(s.threads[id].pc) && s.exec.Some?))
  }

  /** The request and the captured owner agree with the program point. */
  predicate Placed(pc: Pc, cmd: Command, cap: Option<Id>, installed: bool) {
    match pc
    case Free(_) => true
    case Waiting(w) => w.ConfirmWait? ==> cmd.Confirm? && cap == Some(cmd.target)
    case Section(w) =>
      (match w case CancelSection => cmd.Cancel? case ConfirmFirst => cmd.Confirm?
          case RecordExpired => cmd.ConnectBound?
               case _ => true)
    case Owning(w) =>
      (match w
       case OwnerCheck => IsConnect(cmd)
       case Connecting => IsConnect(cmd) && installed
       case ConnectStarted => IsConnect(cmd) && installed
       case CancelAfterCommit => IsConnect(cmd) && installed
       case AfterHost => IsConnect(cmd) ==> installed
       case HostCall => !IsConnect(cmd)
       case ConfirmStop => cmd.Confirm? && cap == Some(cmd.target)
       case PromoteRefresh => cmd.Promote? case PromoteCall => cmd.Promote? case PromoteRecheck => cmd.Promote?
       case RevokeRefresh => cmd.RevokeLease? case RevokeCall => cmd.RevokeLease? case RevokeRecheck => cmd.RevokeLease?
       case ControlRefresh => cmd.BoundControl? case ControlCall => cmd.BoundControl?
           case ControlRecheck => cmd.BoundControl?
       case _ => true)
    case OwningSection(w) =>
      (match w
       case RecordNetwork => IsConnect(cmd)
       case RecordOwner => IsConnect(cmd)
       case ConnectCallback => IsConnect(cmd) && installed
       case StartedCallback => IsConnect(cmd) && installed
       case SettleCancel => IsConnect(cmd) && installed
       case Settle => IsConnect(cmd) ==> installed
       case ConfirmSecond => cmd.Confirm? && cap == Some(cmd.target)
       case ConfirmLast => cmd.Confirm? && cap == Some(cmd.target)
       case PromoteCheck => cmd.Promote? case PromotePublish => cmd.Promote?
       case RevokeCheck => cmd.RevokeLease? case RevokeMark => cmd.RevokeLease? case RevokePublish => cmd.RevokeLease?
       case ControlCheck => cmd.BoundControl? case ControlCallback => cmd.BoundControl?
           case ControlPublish => cmd.BoundControl?
       case _ => true)
  }

  predicate WellPlaced(s: State, id: Id)
    requires id in s.threads
  {
    Placed(s.threads[id].pc, s.threads[id].cmd, s.threads[id].cap, id in s.ops)
  }

  function FreeStep(s: State, id: Id, t: Thread, c: Choice): Effect
    requires t.pc.Free?
  {
    match t.pc.free
    case Start => StepStart(s, t, c)
    case TryExec => StepTryExec(s, t)
    case StatusRefresh => Refreshed(s, Goto(s, t, Section(StatusReply)), t.cap, c.env)
    case WatchRefresh => Refreshed(s, Goto(s, t, Section(WatchMark)), t.cap, c.env)
    case WatchTryExec => Goto(s, t, if s.exec.None? then OwningSection(WatchRecheck) else Section(WatchUnmark))
    case WatchInspect => StepWatchInspect(s, t, c)
  }

  function WaitingStep(s: State, id: Id, t: Thread): Effect
    requires t.pc.Waiting?
  {
    match t.pc.waiting
    case WaitExec => Goto(s, t, Owning(Owned))
    case ConfirmWait => Goto(s, t, OwningSection(ConfirmSecond))
    case WatchWaitExec => Goto(s, t, OwningSection(WatchClaim))
  }

  function SectionStep(s: State, id: Id, t: Thread, c: Choice): Effect
    requires t.pc.Section? && Placed(t.pc, t.cmd, t.cap, id in s.ops)
  {
    match t.pc.section
    case SignalChecks => StepSignalChecks(s, t)
    case RecordExpired => ReplyPlain(Record(Still(s, t), id), false)
    case RecordBusy => StepRecordBusy(s, id, t, c)
    case CancelSection => StepCancel(s, id, t, c)
    case StatusCapture => Still(s, t.(pc := Free(StatusRefresh), cap := s.active))
    case StatusReply => Reply(s, Still(s, t), s.snapshot, c.env)
    case ConfirmFirst => StepConfirmFirst(s, id, t, c)
    case WatchSleep => StepWatchSleep(s, t)
    case WatchMark => StepWatchMark(s, t)
    case WatchUnmark => Unmarked(s, Goto(s, t, Section(WatchSleep)), t.cap)
    case EgressBegin => StepEgressBegin(s, t, c)
  }

  function OwningStep(s: State, id: Id, t: Thread, c: Choice): Effect
    requires t.pc.Owning? && Placed(t.pc, t.cmd, t.cap, id in s.ops)
  {
    match t.pc.owning
    case Owned => StepOwned(s, t, c)
    case OwnerCheck => StepOwnerCheck(s, t, c)
    case Connecting => StepConnecting(s, id, t, c)
    case ConnectStarted => StepConnectStarted(s, id, t, c)
    case HostCall => StepHostCall(s, t, c)
    case AfterHost => StepAfterHost(s, id, t, c)
    case CancelAfterCommit => StepCancelAfterCommit(s, id, t, c)
    case ConfirmStop => StepStop(s, t, c, ConfirmLast)
    case PromoteRefresh => StepRefresh(s, id, t, c, Owning(PromoteCall))
    case PromoteCall => StepPromoteCall(s, t, c).(confirm := CoreAnswer(s, t, c))
    case PromoteRecheck => Refreshed(s, Goto(s, t, OwningSection(PromotePublish)), t.cap, c.env)
    case RevokeRefresh => StepRefresh(s, id, t, c, if t.cmd.terminate then OwningSection(RevokeMark)
        else Owning(RevokeCall))
    case RevokeCall => StepRevokeCall(s, t, c)
    case RevokeRecheck => Refreshed(s, Goto(s, t, OwningSection(RevokePublish)), t.cap, c.env)
    case LeaseStop => StepStop(s, t, c, LeaseRetire)
    case ControlRefresh => StepRefresh(s, id, t, c, Owning(ControlCall))
    case ControlCall => StepControlCall(s, t, c)
    case ControlRecheck => Refreshed(s, Goto(s, t, OwningSection(ControlPublish)), t.cap, c.env)
    case WatchMaintain => StepWatchMaintain(s, t, c)
    case WatchStop => StepStop(s, t, c, WatchRetire)
    case EgressProbe => StepEgressProbe(s, t, c)
  }

  function OwningSectionStep(s: State, id: Id, t: Thread, c: Choice): Effect
    requires t.pc.OwningSection? && Placed(t.pc, t.cmd, t.cap, id in s.ops)
  {
    match t.pc.step
    case Install => StepInstall(s, id, t, c)
    case RecordNetwork => Reply(s, Record(Still(s, t), id), WithFailure(s.snapshot), c.env)
    case RecordOwner => StepRecordOwner(s, id, t, c)
    case ConnectCallback => StepConnectCallback(s, id, t, Connecting)
    case StartedCallback => StepConnectCallback(s, id, t, ConnectStarted)
    case Settle => StepSettle(s, id, t, c)
    case SettleCancel => StepSettleCancel(s, id, t)
    case Respond => Reply(s, Still(s, t), t.result, c.env)
    case ConfirmSecond => StepConfirmSecond(s, id, t, c)
    case ConfirmLast => StepConfirmLast(s, id, t, c)
    case PromoteCheck => StepPromoteCheck(s, id, t, c)
    case PromotePublish => StepPromotePublish(s, id, t, c)
    case RevokeCheck => StepRevokeCheck(s, id, t, c)
    case RevokeMark => StepRevokeMark(s, id, t, c)
    case RevokePublish => StepRevokePublish(s, id, t, c)
    case LeaseRetire => StepLeaseRetire(s, id, t, c)
    case ControlCheck => StepControlCheck(s, id, t, c)
    case ControlCallback => Goto(s, t, Owning(ControlCall))
    case ControlPublish => StepControlPublish(s, id, t, c)
    case WatchRecheck => StepWatchRecheck(s, t)
    case WatchCallback => StepWatchCallback(s, t, c)
    case WatchMaintained => StepWatchMaintained(s, t)
    case WatchClaim => StepWatchClaim(s, t)
    case WatchRetire => StepWatchRetire(s, t)
    case EgressEnd => StepEgressEnd(s, t, c)
  }

  function StepOf(s: State, id: Id, c: Choice): Effect
    requires id in s.threads && WellPlaced(s, id)
  {
    var t := s.threads[id];
    match t.pc
    case Free(_) => FreeStep(s, id, t, c)
    case Waiting(_) => WaitingStep(s, id, t)
    case Section(_) => SectionStep(s, id, t, c)
    case Owning(_) => OwningStep(s, id, t, c)
    case OwningSection(_) => OwningSectionStep(s, id, t, c)
  }

  predicate Enabled(s: State, m: Move) {
    match m
    case Arrive(id, cmd) => id !in s.hist.requests && !cmd.Watch?
    case AcquireState(id) => id in s.threads && NeedsState(s.threads[id].pc) && s.lock.None?
    case Act(id, _) => Runnable(s, id) && WellPlaced(s, id)
    case Close => true
  }

  function Apply(s: State, m: Move): State
    requires Enabled(s, m)
  {
    match m
    case Arrive(id, cmd) =>
      s.(threads := s.threads[id := NewThread(Free(Start), cmd)],
         hist := s.hist.(requests := s.hist.requests[id := cmd]))
    case AcquireState(id) => s.(lock := Some(id))
    case Act(id, c) => Commit(s, id, StepOf(s, id, c))
    case Close => s.(closing := true)
  }

  ghost predicate Init(s: State) {
    && s.exec.None? && s.lock.None? && s.active.None? && s.stopped.None? && s.ops == map[]
    && s.threads == map[WATCHER := NewThread(Section(WatchSleep), Watch)]
    && s.host.core.None? && !s.host.phase.Running? && !s.host.egress && s.snapshot == HostView(s.host)
    && s.hist == History(map[WATCHER := Watch], {}, {}, {}, {}, {}, map[], map[], map[])
  }

  /** `moves` is a run from `s` to `t`: every move is enabled where it is made. */
  ghost predicate Run(s: State, moves: seq<Move>, t: State)
    decreases |moves|
  {
    if moves == [] then s == t
    else Enabled(s, moves[0]) && Run(Apply(s, moves[0]), moves[1..], t)
  }
}
