/**
 What each decision of the dispatcher must achieve: when a receipt says settled and the owner is
 gone, when a lease is promoted, when an owner is installed, kept or cleaned up. Everything is said
 about the state after a move, and about runs, not about how a step computes it.
 */
module DispatcherOutcomes {
  import opened Wrappers
  import opened Dispatcher
  import opened DispatcherSafety
  import opened DispatcherLease
  import opened DispatcherSteps
  import opened DispatcherRuns

  // ----- what is written down is what happened ------------------------------------------------------

  predicate At(s: State, id: Id, pc: Pc) { id in s.threads && s.threads[id].pc == pc }
  predicate Gone(s: State, id: Id) { id !in s.threads }

  /** The host call after a commit, or the one that cancels it, failed at the guard with its profile running. */
  predicate GuardFails(s: State, id: Id, t: Thread, c: Choice) {
    || (t.pc == Owning(ConnectStarted) && id in s.ops && !(c.flag && s.ops[id].kind.dpiOwner) && c.connect.GuardFailed?
        && MayFailGuard(s.ops[id], s.host))
    || (t.pc == Owning(CancelAfterCommit) && id in s.ops && s.ops[id].kind.protectedHandoff && c.flag)
  }

  /** The history of one step, by what the thread was doing and what the outside answered. */
  predicate Recorded(s: State, id: Id, t: Thread, c: Choice, e: Effect) {
    && e.confirm == CoreAnswer(s, t, c)
    && e.guardFailed == GuardFails(s, id, t, c)
    && e.cancel == (if t.pc == Section(CancelSection) && t.cmd.Cancel? && s.active == Some(t.cmd.target)
                       && Known(s, s.active) then s.active else None)
    && (e.watcherStop.Some? ==> e.watcherStop == t.cap && e.next.Some? && e.next.value.pc == Owning(WatchStop))
    && (e.settle.Some? ==> t.cmd.Confirm? && e.settle == Some(t.cmd.target) && e.next.None?)
    && (e.settle.Some? <==> Settles(s, t, e))
  }

  /** A Confirm that answers says settled for the target in the slot, or after its own stop succeeded. */
  predicate Settles(s: State, t: Thread, e: Effect) {
    t.cmd.Confirm? && e.next.None?
    && ((Answering(t.pc) && s.stopped == Some(t.cmd.target)) || (t.pc == OwningSection(ConfirmLast) && t.result.ok))
  }
  predicate Answering(pc: Pc) {
    (pc.Section? && pc.section.ConfirmFirst?) || (pc.OwningSection? && pc.step.ConfirmSecond?)
  }

  predicate Stands(s: State, id: Id) { id in s.threads && WellPlaced(s, id) }

  /** Nothing is written down. */
  predicate NoEvents(e: Effect) {
    e.confirm.None? && !e.guardFailed && e.cancel.None? && e.watcherStop.None? && e.settle.None?
  }

  /** The program points whose step may write something down. */
  predicate Eventful(pc: Pc) {
    || (pc.Section? && (pc.section.CancelSection? || pc.section.ConfirmFirst?))
    || (pc.Owning? && (pc.owning.ConnectStarted? || pc.owning.CancelAfterCommit? || pc.owning.PromoteCall?))
    || (pc.OwningSection? && (pc.step.ConfirmSecond? || pc.step.ConfirmLast? || pc.step.WatchClaim?))
  }

  lemma FreeQuiet(s: State, id: Id, t: Thread, c: Choice)
    requires t.pc.Free?
    ensures NoEvents(FreeStep(s, id, t, c))
  {
  }

  lemma SectionQuiet(s: State, id: Id, t: Thread, c: Choice)
    requires t.pc.Section? && Placed(t.pc, t.cmd, t.cap, id in s.ops) && !Eventful(t.pc)
    ensures NoEvents(SectionStep(s, id, t, c))
  {
  }

  /** The steps that read the network again. */
  predicate RefreshStep(pc: OwningPc) {
    pc.PromoteRefresh? || pc.PromoteRecheck? || pc.RevokeRefresh? || pc.RevokeRecheck? || pc.ControlRefresh?
    || pc.ControlRecheck?
  }

  lemma RefreshStepQuiet(s: State, id: Id, t: Thread, c: Choice)
    requires t.pc.Owning? && RefreshStep(t.pc.owning) && Placed(t.pc, t.cmd, t.cap, id in s.ops)
    ensures NoEvents(OwningStep(s, id, t, c))
  {
  }

  /** The calls of everything but a connect. */
  predicate CallStep(pc: OwningPc) {
    pc.ConfirmStop? || pc.LeaseStop? || pc.WatchStop? || pc.RevokeCall? || pc.ControlCall? || pc.WatchMaintain?
    || pc.EgressProbe?
  }

  lemma CallStepQuiet(s: State, id: Id, t: Thread, c: Choice)
    requires t.pc.Owning? && CallStep(t.pc.owning) && Placed(t.pc, t.cmd, t.cap, id in s.ops)
    ensures NoEvents(OwningStep(s, id, t, c))
  {
  }

  lemma OwningQuiet(s: State, id: Id, t: Thread, c: Choice)
    requires t.pc.Owning? && !RefreshStep(t.pc.owning) && !CallStep(t.pc.owning) && !Eventful(t.pc)
    requires Placed(t.pc, t.cmd, t.cap, id in s.ops)
    ensures NoEvents(OwningStep(s, id, t, c))
  {
  }

  /** The sections of lease changes and bound control. */
  predicate LeaseSection(pc: OwningSectionPc) {
    pc.PromoteCheck? || pc.PromotePublish? || pc.RevokeCheck? || pc.RevokeMark? || pc.RevokePublish? || pc.LeaseRetire?
    || pc.ControlCheck? || pc.ControlCallback? || pc.ControlPublish?
  }

  lemma LeaseSectionQuiet(s: State, id: Id, t: Thread, c: Choice)
    requires t.pc.OwningSection? && LeaseSection(t.pc.step) && Placed(t.pc, t.cmd, t.cap, id in s.ops)
    ensures NoEvents(OwningSectionStep(s, id, t, c))
  {
  }

  lemma OwningSectionQuiet(s: State, id: Id, t: Thread, c: Choice)
    requires t.pc.OwningSection? && !LeaseSection(t.pc.step) && Placed(t.pc, t.cmd, t.cap, id in s.ops)
    requires !Eventful(t.pc)
    ensures NoEvents(OwningSectionStep(s, id, t, c))
  {
  }

  lemma QuietRecorded(s: State, id: Id, c: Choice)
    requires Stands(s, id) && !Eventful(s.threads[id].pc)
    ensures NoEvents(StepOf(s, id, c))
  {
    var t := s.threads[id];
    match t.pc
    case Free(_) => FreeQuiet(s, id, t, c);
    case Waiting(_) =>
    case Section(_) => SectionQuiet(s, id, t, c);
    case Owning(owning) =>
      if RefreshStep(owning) { RefreshStepQuiet(s, id, t, c); }
      else if CallStep(owning) { CallStepQuiet(s, id, t, c); }
      else { OwningQuiet(s, id, t, c); }
    case OwningSection(step) =>
      if LeaseSection(step) { LeaseSectionQuiet(s, id, t, c); } else { OwningSectionQuiet(s, id, t, c); }
  }

  lemma EventfulSection(s: State, id: Id, c: Choice)
    requires Stands(s, id) && Eventful(s.threads[id].pc) && s.threads[id].pc.Section?
    ensures Recorded(s, id, s.threads[id], c, StepOf(s, id, c))
  {
  }

  lemma EventfulOwning(s: State, id: Id, c: Choice)
    requires Stands(s, id) && Eventful(s.threads[id].pc) && s.threads[id].pc.Owning?
    ensures Recorded(s, id, s.threads[id], c, StepOf(s, id, c))
  {
  }

  lemma EventfulOwningSection(s: State, id: Id, c: Choice)
    requires Stands(s, id) && Eventful(s.threads[id].pc) && s.threads[id].pc.OwningSection?
    ensures Recorded(s, id, s.threads[id], c, StepOf(s, id, c))
  {
  }

  lemma StepRecorded(s: State, id: Id, c: Choice)
    requires Stands(s, id)
    ensures Recorded(s, id, s.threads[id], c, StepOf(s, id, c))
  {
    if !Eventful(s.threads[id].pc) {
      QuietRecorded(s, id, c);
    } else {
      match s.threads[id].pc
      case Section(_) => EventfulSection(s, id, c);
      case Owning(_) => EventfulOwning(s, id, c);
      case OwningSection(_) => EventfulOwningSection(s, id, c);
      case _ =>
    }
  }

  /** After a step of `id` the history holds what it held and what that step saw. */
  lemma HistoryExact(s: State, id: Id, c: Choice)
    requires Enabled(s, Act(id, c))
    ensures var (t, h) := (s.threads[id], Apply(s, Act(id, c)).hist);
            && h.confirmed == Added(s.hist.confirmed, CoreAnswer(s, t, c))
            && h.guardFailed == s.hist.guardFailed + (if GuardFails(s, id, t, c) then {id} else {})
            && s.hist.settled <= h.settled <= s.hist.settled + (if t.cmd.Confirm? then {t.cmd.target} else {})
            && h.requests == s.hist.requests
  {
    StepRecorded(s, id, c);
  }

  // ----- settlement: what a Confirm must achieve ------------------------------------------------------

  /** A Confirm that finds its target in the slot says so; one that finds it active waits and cancels it. */
  lemma ConfirmAsks(s: State, id: Id, c: Choice)
    requires Enabled(s, Act(id, c)) && At(s, id, Section(ConfirmFirst))
    ensures var (s', t) := (Apply(s, Act(id, c)), s.threads[id].cmd.target);
            && s'.host == s.host && s'.active == s.active && s'.stopped == s.stopped
            && (s.stopped == Some(t) ==> Gone(s', id) && t in s'.hist.settled)
            && (s.stopped != Some(t) && s.active == Some(t) && ActiveBound(s) ==>
                  && At(s', id, Waiting(ConfirmWait)) && s'.threads[id].cap == Some(t)
                  && s'.hist.settled == s.hist.settled
                  && s'.ops[t].now.cancelled && !s'.ops[t].now.cause.NoCause?)
            && (s.stopped != Some(t) && !(s.active == Some(t) && ActiveBound(s)) ==>
                  Gone(s', id) && s'.hist.settled == s.hist.settled)
  {
  }

  /** With the lock in hand it stops the host only for the owner it captured, and otherwise answers from the slot. */
  lemma ConfirmClaims(s: State, id: Id, c: Choice)
    requires Enabled(s, Act(id, c)) && At(s, id, OwningSection(ConfirmSecond))
    ensures var (s', t) := (Apply(s, Act(id, c)), s.threads[id].cmd.target);
            && s'.host == s.host && s'.active == s.active && s'.stopped == s.stopped
            && (s.stopped == Some(t) ==> Gone(s', id) && t in s'.hist.settled)
            && (s.stopped != Some(t) && s.active == Some(t) && ActiveBound(s) ==>
                  At(s', id, Owning(ConfirmStop)) && s'.ops[t].now.cleanupAttempted
                  && s'.hist.settled == s.hist.settled)
            && (s.stopped != Some(t) && !(s.active == Some(t) && ActiveBound(s)) ==>
                  Gone(s', id) && s'.hist.settled == s.hist.settled)
  {
  }

  lemma ConfirmStops(s: State, id: Id, c: Choice)
    requires Enabled(s, Act(id, c)) && At(s, id, Owning(ConfirmStop))
    ensures var s' := Apply(s, Act(id, c));
            && At(s', id, OwningSection(ConfirmLast)) && s'.threads[id].result.ok == c.stop.StopOk?
            && s'.host == Disconnected(s.host, c.stop) && s'.active == s.active && s'.stopped == s.stopped
            && s'.hist == s.hist && s'.threads[id].cmd == s.threads[id].cmd
  {
  }

  /** What a Confirm that has stopped the host knows about its target. */
  lemma ConfirmKnows(s: State, id: Id)
    requires Reachable(s) && At(s, id, OwningSection(ConfirmLast)) && s.threads[id].cmd.Confirm?
    ensures var (t, target) := (s.threads[id], s.threads[id].cmd.target);
            && s.active == Some(target) && ActiveBound(s) && s.exec == Some(id)
            && (t.result.ok ==> s.host.core.None?) && target != id
            && (target in s.threads ==> !MayStart(s.threads[target].pc))
  {
    ReachableGood(s);
    assert WellPlaced(s, id) && Confirming(s.threads[id]);
  }

  /** After a stop that succeeded the owner is retired and the receipt says settled; after one that failed neither. */
  lemma ConfirmEnds(s: State, id: Id, c: Choice)
    requires Reachable(s) && Enabled(s, Act(id, c)) && At(s, id, OwningSection(ConfirmLast))
    ensures var (s', t, ok) := (Apply(s, Act(id, c)), s.threads[id].cmd.target, s.threads[id].result.ok);
            && Gone(s', id) && s.active == Some(t)
            && (ok ==> t in s'.hist.settled && s'.stopped == Some(t) && s'.active.None? && Over(s', t))
            && (!ok ==> s'.hist.settled == s.hist.settled && s'.stopped == s.stopped && s'.active == s.active)
  {
    ConfirmKnows(s, id);
  }

  /** No other thread touches a thread, nor the host while that thread holds the execution lock. */
  lemma OthersLeave(s: State, m: Move, id: Id)
    requires Good(s) && Enabled(s, m) && id in s.threads && !(m.Act? && m.id == id)
    ensures var s' := Apply(s, m);
            && id in s'.threads && s'.threads[id] == s.threads[id] && s.hist.settled <= s'.hist.settled
            && (HoldsExec(s.threads[id].pc) ==> s'.host == s.host)
  {
    SettledGrows(s, m);
    if m.Act? { StepGood(s, m.id, m.choice); }
  }

  lemma SettledGrows(s: State, m: Move)
    requires Enabled(s, m)
    ensures s.hist.settled <= Apply(s, m).hist.settled
  {
  }

  lemma {:induction false} SettledGrowsAlong(s: State, moves: seq<Move>, s': State)
    requires Run(s, moves, s')
    ensures s.hist.settled <= s'.hist.settled
    decreases |moves|
  {
    if moves != [] {
      SettledGrows(s, moves[0]);
      SettledGrowsAlong(Apply(s, moves[0]), moves[1..], s');
    }
  }

  /** What the outside answered to the first step of `id` in these moves. */
  function FirstChoice(moves: seq<Move>, id: Id): Option<Choice> {
    if moves == [] then None
    else if moves[0].Act? && moves[0].id == id then Some(moves[0].choice)
    else FirstChoice(moves[1..], id)
  }

  /** Once the stop has succeeded, the Confirm can only end settled, with its target over for good. */
  lemma {:induction false} StoppedConfirmSettles(s: State, id: Id, moves: seq<Move>, s': State)
    requires Reachable(s) && At(s, id, OwningSection(ConfirmLast)) && s.threads[id].result.ok
    requires s.threads[id].cmd.Confirm?
    requires Run(s, moves, s') && Gone(s', id)
    ensures s.threads[id].cmd.target in s'.hist.settled && Over(s', s.threads[id].cmd.target)
    decreases |moves|
  {
    ReachableGood(s);
    if moves[0].Act? && moves[0].id == id {
      var next := Apply(s, moves[0]);
      ConfirmEnds(s, id, moves[0].choice);
      ConfirmKnows(s, id);
      MoveKeepsGood(s, moves[0]);
      SettledGrowsAlong(next, moves[1..], s');
      RunStaysOver(next, moves[1..], s', s.threads[id].cmd.target);
    } else {
      OthersLeave(s, moves[0], id);
      Reach(s, moves[0]);
      StoppedConfirmSettles(Apply(s, moves[0]), id, moves[1..], s');
    }
  }

  /**
   In every schedule: a Confirm that is about to stop the host for its bound target, and whose stop
   succeeds, ends with that target settled and over.
   */
  lemma {:induction false} ConfirmSettles(s: State, id: Id, moves: seq<Move>, s': State)
    requires Reachable(s) && At(s, id, Owning(ConfirmStop)) && s.threads[id].cmd.Confirm?
    requires Run(s, moves, s') && Gone(s', id)
    ensures FirstChoice(moves, id).Some?
    ensures FirstChoice(moves, id).value.stop.StopOk? ==>
              s.threads[id].cmd.target in s'.hist.settled && Over(s', s.threads[id].cmd.target)
    decreases |moves|
  {
    ReachableGood(s);
    Reach(s, moves[0]);
    if moves[0].Act? && moves[0].id == id {
      ConfirmStops(s, id, moves[0].choice);
      if moves[0].choice.stop.StopOk? {
        StoppedConfirmSettles(Apply(s, moves[0]), id, moves[1..], s');
      }
    } else {
      OthersLeave(s, moves[0], id);
      ConfirmSettles(Apply(s, moves[0]), id, moves[1..], s');
    }
  }

  // ----- leases: what a promotion and a revocation must achieve -----------------------------------------

  /** The captured owner is still the active one, and nothing has interrupted it. */
  predicate Uninterrupted(s: State, cap: Option<Id>) {
    cap.Some? && s.active == cap && cap.value in s.ops
    && !s.ops[cap.value].now.cancelled && !s.ops[cap.value].now.deadlineExpired
  }

  /** The client asks for its own unpromoted bound owner and digest, in time, on its network and while it lives. */
  predicate Promotable(s: State, cap: Option<Id>, cmd: Command, e: Env) requires cmd.Promote? {
    && Uninterrupted(s, cap) && cap == Some(cmd.target)
    && s.ops[cap.value].kind.bound && s.ops[cap.value].kind.digest == cmd.digest
    && !s.ops[cap.value].now.cleanupAttempted && !s.ops[cap.value].now.promoted
    && e.clientAlive && e.networkCurrent && e.deadlineCurrent && e.requestCurrent && !e.stopEvent
  }

  /** A promotion that is not for the active owner as it stands ends at once and changes nothing. */
  lemma PromotionChecks(s: State, id: Id, c: Choice)
    requires Enabled(s, Act(id, c)) && At(s, id, OwningSection(PromoteCheck))
    ensures var (s', t) := (Apply(s, Act(id, c)), s.threads[id]);
            && s'.host == s.host && s'.ops == s.ops && s'.active == s.active && s'.hist == s.hist
            && (if Promotable(s, s.active, t.cmd, c.env)
                then At(s', id, Owning(PromoteRefresh)) && s'.threads[id].cap == s.active
                else Gone(s', id))
  {
  }

  /** Core's yes, and nothing else, validates egress and is written down; a no leaves host and owners as they were. */
  lemma PromotionCalls(s: State, id: Id, c: Choice)
    requires Enabled(s, Act(id, c)) && At(s, id, Owning(PromoteCall))
    ensures var (s', t) := (Apply(s, Act(id, c)), s.threads[id]);
            var yes := c.flag && s.host.phase.Running? && s.host.requiresBound && s.host.effective == t.cmd.digest;
            && At(s', id, Owning(PromoteRecheck)) && s'.threads[id].result.ok == yes
            && s'.ops == s.ops && s'.active == s.active && s'.stopped == s.stopped
            && s'.host == (if yes then s.host.(egress := true) else s.host)
            && s'.hist.confirmed == s.hist.confirmed + (if yes then {(t.cmd.target, t.cmd.digest)} else {})
  {
  }

  /** The owner may be published as promoted: Core said yes and it is still current. */
  predicate Publishable(s: State, t: Thread, c: Choice)
    requires t.cmd.Promote?
  {
    t.result.ok && Promotable(s, t.cap, t.cmd, c.env) && c.env.leaseCurrent
  }

  lemma PromotionHeld(s: State, id: Id, c: Choice)
    requires Enabled(s, Act(id, c)) && At(s, id, OwningSection(PromotePublish)) && Publishable(s, s.threads[id], c)
    ensures var (s', t) := (Apply(s, Act(id, c)), s.threads[id]);
            && s'.host == s.host && s'.active == s.active
            && Gone(s', id) && t.cap == s.active && t.cap.Some? && t.cap.value in s'.ops
            && s'.ops[t.cap.value].now.promoted && s'.ops[t.cap.value].now.leaseRef == t.cmd.leaseRef
            && Count(s'.hist.promotions, t.cap.value) == Count(s.hist.promotions, t.cap.value) + 1
  {
  }

  lemma PromotionLapses(s: State, id: Id, c: Choice)
    requires Enabled(s, Act(id, c)) && At(s, id, OwningSection(PromotePublish)) && !Publishable(s, s.threads[id], c)
    ensures var s' := Apply(s, Act(id, c));
            && s'.host == s.host && s'.active == s.active
            && At(s', id, Owning(LeaseStop)) && s'.ops == s.ops && s'.hist == s.hist
  {
  }

  /** The owner is promoted under the request's reference exactly if Core said yes and it is still current. */
  lemma PromotionPublishes(s: State, id: Id, c: Choice)
    requires Enabled(s, Act(id, c)) && At(s, id, OwningSection(PromotePublish))
    ensures var (s', t) := (Apply(s, Act(id, c)), s.threads[id]);
            var holds := t.result.ok && Promotable(s, t.cap, t.cmd, c.env) && c.env.leaseCurrent;
            && s'.host == s.host && s'.active == s.active
            && (holds ==> && Gone(s', id) && t.cap == s.active && t.cap.Some? && t.cap.value in s'.ops
                          && s'.ops[t.cap.value].now.promoted && s'.ops[t.cap.value].now.leaseRef == t.cmd.leaseRef
                          && Count(s'.hist.promotions, t.cap.value) == Count(s.hist.promotions, t.cap.value) + 1)
            && (!holds ==> At(s', id, Owning(LeaseStop)) && s'.ops == s.ops && s'.hist == s.hist)
  {
    if Publishable(s, s.threads[id], c) { PromotionHeld(s, id, c); } else { PromotionLapses(s, id, c); }
  }

  /** A failed lease change stops the host and retires its owner exactly if the stop succeeds over the same owner. */
  lemma LeaseChangeFails(s: State, id: Id, c: Choice)
    requires Enabled(s, Act(id, c)) && At(s, id, Owning(LeaseStop))
    ensures var s' := Apply(s, Act(id, c));
            && At(s', id, OwningSection(LeaseRetire)) && s'.threads[id].result.ok == c.stop.StopOk?
            && s'.threads[id].cap == s.threads[id].cap
            && s'.host == Disconnected(s.host, c.stop) && s'.active == s.active
  {
  }

  lemma LeaseRetires(s: State, id: Id, c: Choice)
    requires Enabled(s, Act(id, c)) && At(s, id, OwningSection(LeaseRetire))
    ensures var (s', t) := (Apply(s, Act(id, c)), s.threads[id]);
            && Gone(s', id) && s'.host == s.host
            && (s.active == t.cap && t.result.ok ==>
                  s'.active.None? && (ActiveBound(s) ==> s'.stopped == s.active))
            && (s.active == t.cap && !t.result.ok ==>
                  s'.active == s.active && (Known(s, t.cap) ==> s'.ops[t.cap.value].now.cleanupAttempted))
            && (s.active != t.cap ==> s'.active == s.active && s'.stopped == s.stopped && s'.ops == s.ops)
  {
  }

  /** A terminal revocation marks a live owner before Core is asked, and Core's answer takes validated egress away. */
  lemma RevocationMarks(s: State, id: Id, c: Choice)
    requires Enabled(s, Act(id, c)) && At(s, id, OwningSection(RevokeMark))
    ensures var (s', t) := (Apply(s, Act(id, c)), s.threads[id]);
            && s'.host == s.host && s'.active == s.active
            && (if Uninterrupted(s, t.cap)
                then At(s', id, Owning(RevokeCall)) && s'.ops[t.cap.value].now.terminated
                     && t.cap.value in s'.hist.terminalRevokes
                else Gone(s', id) && s'.ops == s.ops && s'.hist.terminalRevokes == s.hist.terminalRevokes)
  {
  }

  lemma RevocationCalls(s: State, id: Id, c: Choice)
    requires Enabled(s, Act(id, c)) && At(s, id, Owning(RevokeCall))
    ensures var (s', t) := (Apply(s, Act(id, c)), s.threads[id]);
            var reached := s.host.phase.Running? && s.host.requiresBound && s.host.effective == t.cmd.digest;
            && At(s', id, Owning(RevokeRecheck)) && s'.threads[id].result.ok == (reached && c.flag)
            && s'.ops == s.ops && s'.active == s.active
            && s'.host == (if reached then s.host.(egress := false) else s.host)
  {
  }

  lemma RevocationPublishes(s: State, id: Id, c: Choice)
    requires Enabled(s, Act(id, c)) && At(s, id, OwningSection(RevokePublish))
    ensures var (s', t) := (Apply(s, Act(id, c)), s.threads[id]);
            var holds := t.result.ok && Uninterrupted(s, t.cap) && s.ops[t.cap.value].now.leaseRef == t.cmd.leaseRef;
            && s'.host == s.host && s'.active == s.active
            && (holds ==> Gone(s', id))
            && (!holds ==> At(s', id, Owning(LeaseStop)) && s'.ops == s.ops)
  {
  }

  // ----- Core's answer over runs ------------------------------------------------------------------------

  /** Somewhere in these moves Core confirmed this target and digest. */
  ghost predicate CoreSaidYes(s: State, moves: seq<Move>, x: Id, digest: nat)
    decreases |moves|
  {
    && moves != [] && Enabled(s, moves[0])
    && ((moves[0].Act? && CoreAnswer(s, s.threads[moves[0].id], moves[0].choice) == Some((x, digest)))
        || CoreSaidYes(Apply(s, moves[0]), moves[1..], x, digest))
  }

  /** What is recorded as confirmed is exactly what Core confirmed. */
  lemma {:induction false} ConfirmedIsCore(s: State, moves: seq<Move>, s': State, x: Id, digest: nat)
    requires Run(s, moves, s')
    ensures (x, digest) in s'.hist.confirmed <==> (x, digest) in s.hist.confirmed || CoreSaidYes(s, moves, x, digest)
    decreases |moves|
  {
    if moves != [] {
      if moves[0].Act? { HistoryExact(s, moves[0].id, moves[0].choice); }
      ConfirmedIsCore(Apply(s, moves[0]), moves[1..], s', x, digest);
    }
  }

  /** A lease or validated egress is shown for a lease-requiring owner only in a run in which Core said yes for it. */
  lemma LeaseShownMeansCoreYes(s0: State, moves: seq<Move>, s: State, id: Id, c: Choice)
    requires Init(s0) && Run(s0, moves, s) && Enabled(s, Act(id, c)) && StepOf(s, id, c).reply.Some?
    requires s.active.Some? && s.active.value in s.ops && s.ops[s.active.value].kind.requiresLease
    requires var v := StepOf(s, id, c).reply.value.view; v.Snapshot? && (v.egress || v.lease)
    ensures CoreSaidYes(s0, moves + [Act(id, c)], s.active.value, s.ops[s.active.value].kind.digest)
  {
    assert Reachable(s);
    LeaseProjection(s, id, c);
    RunExtends(s0, moves, s, Act(id, c));
    ConfirmedIsCore(s0, moves + [Act(id, c)], Apply(s, Act(id, c)), s.active.value, s.ops[s.active.value].kind.digest);
  }

  // ----- owners: who is installed, kept, retired and cleaned up ----------------------------------------

  /** What an explicit stop of the host does, by what became of it. */
  lemma StopMeans(h: Host, o: StopOutcome)
    ensures DisconnectOk(h, o, true) <==> o.StopOk?
    ensures h.phase.Idle? ==> Disconnected(h, o) == h
    ensures !h.phase.Idle? && !o.StopFailed? ==>
              var k := Disconnected(h, o); k.phase.Idle? && k.core.None? && !k.egress && !k.dpi && !k.telegram
    ensures !h.phase.Idle? && o.StopFailed? ==>
              var k := Disconnected(h, o); k.phase.RecoveryRequired? && !k.egress && (o.coreStopped ==> k.core.None?)
  {
  }

  /** The request can no longer install an owner: it is on its way out, or gone. */
  ghost predicate Refused(s: State, id: Id) {
    id in s.hist.requests && id !in s.ops && (id in s.threads ==> s.threads[id].pc == OwningSection(RecordNetwork))
  }

  /** A bound connect whose network reference is no longer current is refused; one that is current goes on. */
  lemma ForeignNetworkIsRefused(s: State, id: Id, c: Choice)
    requires Good(s) && Enabled(s, Act(id, c)) && At(s, id, Owning(Owned)) && s.threads[id].cmd.ConnectBound?
    ensures var s' := Apply(s, Act(id, c));
            s'.ops == s.ops && s'.active == s.active && s'.host == s.host
            && (if c.env.networkCurrent then At(s', id, Owning(OwnerCheck)) else Refused(s', id))
  {
  }

  lemma RefusedStays(s: State, m: Move, id: Id)
    requires Good(s) && Enabled(s, m) && Refused(s, id)
    ensures Refused(Apply(s, m), id)
  {
    if m.Act? {
      StepGood(s, m.id, m.choice);
      if m.id == id { RefusalEnds(s, id, m.choice); }
    }
  }

  /** It leaves its own target in the settlement slot. */
  lemma RefusalEnds(s: State, id: Id, c: Choice)
    requires Good(s) && Enabled(s, Act(id, c)) && Refused(s, id) && id in s.threads
    ensures var s' := Apply(s, Act(id, c));
            Gone(s', id) && id !in s'.ops && s'.stopped == Some(id) && s'.host == s.host && s'.active == s.active
  {
  }

  /** Along every continuation a connect on a foreign network reference never gets an owner. */
  lemma {:induction false} ForeignNetworkNeverInstalls(s: State, id: Id, moves: seq<Move>, s': State)
    requires Good(s) && Refused(s, id) && Run(s, moves, s')
    ensures id !in s'.ops && s'.active != Some(id) && s'.host.core != Some(id)
    decreases |moves|
  {
    if moves != [] {
      RefusedStays(s, moves[0], id);
      MoveKeepsGood(s, moves[0]);
      ForeignNetworkNeverInstalls(Apply(s, moves[0]), id, moves[1..], s');
    }
  }

  /** A connect gets the owner slot exactly when no bound owner holds it, with the plan and profile it came with. */
  lemma InstallsExactly(s: State, id: Id, c: Choice)
    requires Enabled(s, Act(id, c)) && At(s, id, OwningSection(Install)) && IsConnect(s.threads[id].cmd) && id !in s.ops
    ensures var (s', t) := (Apply(s, Act(id, c)), s.threads[id]);
            && s'.host == s.host
            && (ActiveBound(s) && s.active != Some(id) ==>
                  Gone(s', id) && s'.active == s.active && id !in s'.ops
                  && s'.stopped == (if t.cmd.ConnectBound? then Some(id) else s.stopped))
            && (!ActiveBound(s) ==>
                  && At(s', id, Owning(Connecting)) && s'.active == Some(id) && s'.stopped == s.stopped && id in s'.ops
                  && s'.ops[id].kind.bound == t.cmd.ConnectBound? && s'.ops[id].kind.digest == t.cmd.digest
                  && s'.ops[id].kind.requiresLease == (t.cmd.ConnectBound? && s.host.requiresBound)
                  && s'.ops[id].kind.dpiOwner == t.dpi && s'.ops[id].kind.telegramOwner == t.telegram
                  && !s'.ops[id].now.cancelled && !s'.ops[id].now.promoted && !s'.ops[id].now.cleanupAttempted)
  {
  }

  /** Nothing interrupted the request, nor does now. */
  predicate MayGoOn(op: Op, e: Env) {
    && op.now.cause.NoCause? && e.requestCurrent && !e.stopEvent
    && (op.kind.bound || op.kind.dpiOwner ==> e.clientAlive)
    && (op.kind.fenced ==> NetworkHolds(op.kind, e))
    && (op.kind.bound ==> !op.now.deadlineExpired && e.deadlineCurrent)
  }

  /** A bound connect over an idle host starts Core for itself exactly if nothing interrupts it and the host goes on. */
  lemma ConnectStarts(s: State, id: Id, c: Choice)
    requires Enabled(s, Act(id, c)) && At(s, id, Owning(Connecting)) && s.host.phase.Idle? && !c.other
    requires s.threads[id].cmd.ConnectBound? && !(c.flag && s.ops[id].kind.dpiOwner)
    ensures var s' := Apply(s, Act(id, c));
            && s'.active == s.active && s'.host.phase.Idle?
            && (if MayGoOn(s.ops[id], c.env)
                then At(s', id, Owning(ConnectStarted)) && s'.host == s.host.(core := Some(id))
                else At(s', id, Owning(AfterHost)) && s'.host == s.host && !s'.threads[id].result.ok)
  {
  }

  /** A started connect runs exactly its own profile, or is rolled back, and answers yes only if it runs. */
  lemma StartedConnectEnds(s: State, id: Id, c: Choice)
    requires Enabled(s, Act(id, c)) && At(s, id, Owning(ConnectStarted)) && !(c.flag && s.ops[id].kind.dpiOwner)
    ensures var (s', kind) := (Apply(s, Act(id, c)), s.ops[id].kind);
            && At(s', id, Owning(AfterHost)) && s'.active == s.active
            && (s'.threads[id].result.ok ==> s'.host.phase.Running?)
            && (s'.host.phase.Running? ==> s'.host.effective == kind.digest && s'.host.core == s.host.core)
            && (s'.threads[id].result.ok ==> s'.host.egress == !s.host.requiresBound)
            && (s'.host.phase.Running? && !s'.threads[id].result.ok ==>
                  !s'.host.egress && id in s'.hist.guardFailed)
            && (c.connect.Committed? ==> s'.threads[id].result.ok)
            && (c.connect.RolledBack? ==> s'.host.phase.Idle? && s'.host.core.None?)
            && (c.connect.RollbackFailed? ==> s'.host.phase.RecoveryRequired?)
  {
  }

  /** A commit that came too late is undone: by an explicit Disconnect, or under the guard, which alone may fail to. */
  lemma LateCommitIsUndone(s: State, id: Id, c: Choice)
    requires Enabled(s, Act(id, c)) && At(s, id, Owning(CancelAfterCommit))
    ensures var (s', failed) := (Apply(s, Act(id, c)), s.ops[id].kind.protectedHandoff && c.flag);
            && At(s', id, OwningSection(SettleCancel)) && !s'.threads[id].result.ok && s'.active == s.active
            && s'.host == (if failed then s.host else Disconnected(s.host, c.stop))
            && s'.hist.guardFailed == s.hist.guardFailed + (if failed then {id} else {})
  {
  }

  /** An owner is handed over to ordinary control exactly if Core took the control from the same, still live owner. */
  lemma ControlHandsOff(s: State, id: Id, c: Choice)
    requires Enabled(s, Act(id, c)) && At(s, id, OwningSection(ControlPublish)) && Known(s, s.threads[id].cap)
    ensures var (s', t, x) := (Apply(s, Act(id, c)), s.threads[id], s.threads[id].cap.value);
            var current := Uninterrupted(s, t.cap) && x == t.cmd.target && s.ops[x].kind.bound
                           && s.ops[x].kind.digest == t.cmd.digest && !s.ops[x].now.cleanupAttempted
                           && c.env.networkCurrent && (s.ops[x].now.ordinaryHandoff || c.env.deadlineCurrent)
                           && c.env.requestCurrent && !c.env.stopEvent;
            && Gone(s', id) && s'.host == s.host && s'.active == s.active && x in s'.ops
            && s'.ops[x].now == s.ops[x].now.(ordinaryHandoff := s.ops[x].now.ordinaryHandoff
                 || (current && !s.ops[x].kind.requiresLease && t.result.ok && c.flag))
  {
  }

  /** Whether the owner is, or on this look becomes, interrupted. */
  predicate Interrupted(op: Op) { op.now.cancelled || op.now.deadlineExpired }

  /**
   A finished connect: success with an uninterrupted bound owner keeps it, success with an interrupted one is undone,
   failure retires it unless recovery is required, and then it is kept for its own cleanup.
   */
  lemma ConnectSettles(s: State, id: Id, c: Choice)
    requires Reachable(s) && Enabled(s, Act(id, c)) && At(s, id, OwningSection(Settle))
    requires s.threads[id].cmd.ConnectBound?
    ensures var (s', ok) := (Apply(s, Act(id, c)), s.threads[id].result.ok);
            && id in s.ops && id in s'.ops && s'.host == s.host
            && Interrupted(s'.ops[id]) == (Interrupted(s.ops[id]) || !c.env.deadlineCurrent)
            && (ok && Interrupted(s'.ops[id]) ==> At(s', id, Owning(CancelAfterCommit)) && s'.active == Some(id))
            && (ok && !Interrupted(s'.ops[id]) ==>
                  At(s', id, OwningSection(Respond)) && s'.active == Some(id) && s'.snapshot == HostView(s.host))
            && (!ok && !s.host.phase.RecoveryRequired? ==>
                  At(s', id, OwningSection(Respond)) && s'.active.None? && s'.stopped == Some(id))
            && (!ok && s.host.phase.RecoveryRequired? ==>
                  At(s', id, OwningSection(Respond)) && s'.active == Some(id) && s'.ops[id].now.cleanupAttempted)
  {
    SettlingKnows(s, id);
  }

  lemma SettlingKnows(s: State, id: Id)
    requires Reachable(s) && At(s, id, OwningSection(Settle))
    requires s.threads[id].cmd.ConnectBound?
    ensures s.active == Some(id) && id in s.ops && s.ops[id].kind.bound
  {
    ReachableGood(s);
    assert OwnsTurn(s.threads[id]);
  }

  /** A cancelled commit never answers yes, and its owner goes unless recovery keeps a bound one. */
  lemma CancelledCommitSettles(s: State, id: Id, c: Choice)
    requires Reachable(s) && Enabled(s, Act(id, c)) && At(s, id, OwningSection(SettleCancel))
    requires s.threads[id].cmd.ConnectBound?
    ensures var s' := Apply(s, Act(id, c));
            && At(s', id, OwningSection(Respond)) && s'.threads[id].result == s.threads[id].result
            && (if s.host.phase.RecoveryRequired? then s'.active == Some(id) && s'.ops[id].now.cleanupAttempted
                else s'.active.None? && s'.stopped == Some(id))
  {
    ReachableGood(s);
    assert OwnsTurn(s.threads[id]);
  }

  /** An explicit Disconnect that succeeded leaves no owner; every other host call but a DPI one keeps a bound owner. */
  lemma DisconnectRetires(s: State, id: Id, c: Choice)
    requires Enabled(s, Act(id, c)) && At(s, id, OwningSection(Settle)) && !IsConnect(s.threads[id].cmd)
    ensures var (s', t) := (Apply(s, Act(id, c)), s.threads[id]);
            && s'.host == s.host && s'.snapshot == HostView(s.host)
            && (t.cmd.Disconnect? && t.result.ok ==>
                  s'.active.None? && (ActiveBound(s) ==> s'.stopped == s.active))
            && (!(t.cmd.Disconnect? && t.result.ok) && ActiveBound(s) && !s.ops[s.active.value].kind.dpiOwner ==>
                  s'.active == s.active && s'.stopped == s.stopped)
  {
  }

  /** A Cancel reaches exactly the active owner it names, and makes a new cleanup due. */
  lemma CancelReaches(s: State, id: Id, c: Choice)
    requires Enabled(s, Act(id, c)) && At(s, id, Section(CancelSection))
    ensures var (s', t) := (Apply(s, Act(id, c)), s.threads[id].cmd.target);
            && Gone(s', id) && s'.host == s.host && s'.active == s.active && s'.stopped == s.stopped
            && (forall x :: x in s.ops && x != t ==> x in s'.ops && s'.ops[x] == s.ops[x])
            && (if s.active == Some(t) && t in s.ops
                then t in s'.ops && s'.ops[t].now.cancelled && !s'.ops[t].now.cleanupAttempted
                     && Count(s'.hist.cancels, t) == Count(s.hist.cancels, t) + 1
                else s'.ops == s.ops && s'.hist == s.hist)
  {
  }

  /** An ordinary handoff has no time limit; a promoted lease has its own, and every other owner its deadline. */
  predicate InTime(op: Op, e: Env) {
    op.now.ordinaryHandoff || (if op.now.promoted then e.leaseCurrent else e.deadlineCurrent)
  }

  // ----- the watcher ------------------------------------------------------------------------------------

  /** A bound owner that is interrupted when the watcher looks is queued for cleanup; one that is not is left alone. */
  lemma WatcherSees(s: State, c: Choice)
    requires Enabled(s, Act(WATCHER, c)) && At(s, WATCHER, Free(WatchInspect)) && Known(s, s.threads[WATCHER].cap)
    ensures var (s', x) := (Apply(s, Act(WATCHER, c)), s.threads[WATCHER].cap.value);
            && x in s'.ops && s'.active == s.active && s'.host == s.host
            && (Interrupted(s.ops[x]) ==> Interrupted(s'.ops[x]))
            && (s.ops[x].kind.bound && !c.env.clientAlive && !s.ops[x].now.promoted ==> Interrupted(s'.ops[x]))
            && (s.ops[x].kind.bound && !s.ops[x].kind.dpiOwner && !c.env.networkCurrent ==> Interrupted(s'.ops[x]))
            && (!InTime(s.ops[x], c.env) ==> Interrupted(s'.ops[x]))
            && (Interrupted(s'.ops[x]) <==> At(s', WATCHER, Waiting(WatchWaitExec)))
  {
  }

  lemma WatcherClaims(s: State, c: Choice)
    requires Enabled(s, Act(WATCHER, c)) && At(s, WATCHER, OwningSection(WatchClaim)) && !s.closing
    ensures var (s', cap) := (Apply(s, Act(WATCHER, c)), s.threads[WATCHER].cap);
            && s'.host == s.host && s'.active == s.active
            && (if cap.Some? && s.active == cap && cap.value in s.ops && !s.ops[cap.value].now.cleanupAttempted
                then At(s', WATCHER, Owning(WatchStop)) && s'.ops[cap.value].now.cleanupAttempted
                     && Count(s'.hist.watcherStops, cap.value) == Count(s.hist.watcherStops, cap.value) + 1
                else At(s', WATCHER, Section(WatchSleep)) && s'.ops == s.ops)
  {
  }

  /** The owner is retired exactly if the watcher's stop succeeded. */
  lemma WatcherRetires(s: State, c: Choice)
    requires Enabled(s, Act(WATCHER, c)) && At(s, WATCHER, OwningSection(WatchRetire))
    ensures var (s', ok) := (Apply(s, Act(WATCHER, c)), s.threads[WATCHER].result.ok);
            && At(s', WATCHER, Section(WatchSleep)) && s'.host == s.host
            && (ok ==> s'.active.None? && (ActiveBound(s) ==> s'.stopped == s.active))
            && (!ok ==> s'.active == s.active && s'.stopped == s.stopped && s'.ops == s.ops)
  {
  }

  // ----- the projection, both ways ----------------------------------------------------------------------

  /** What interrupts an owner when a response is projected. */
  predicate Lost(op: Op, e: Env) {
    || Interrupted(op) || ((!op.now.promoted || op.now.terminated) && !e.clientAlive) || !e.networkCurrent
    || !InTime(op, e)
  }

  /**
   A running snapshot given while a bound owner is active shows egress exactly if the host has it, nothing has
   interrupted the owner, and a required lease is promoted and not terminated; and it shows a lease exactly then.
   */
  lemma ProjectionExact(op: Op, r: Result, e: Env)
    requires r.view.Snapshot? && r.view.phase.ViewRunning?
    ensures var (p, v) := (ProjectOwner(op, e), ProjectResult(ProjectOwner(op, e), r).view);
            var leased := op.now.promoted && !op.now.terminated;
            && Interrupted(p) == Lost(op, e) && v.Snapshot?
            && (v.egress <==> r.view.egress && !Lost(op, e) && (op.kind.requiresLease ==> leased))
            && (v.lease <==> op.kind.requiresLease && leased && !Lost(op, e))
            && (v.phase.ViewRunning? <==> !Lost(op, e))
  {
  }
}
