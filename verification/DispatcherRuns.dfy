/** Whole runs of the dispatcher: locks, settlement receipts, lease projection and watcher cleanup. */
module DispatcherRuns {
  import opened Wrappers
  import opened Dispatcher
  import opened DispatcherSafety
  import opened DispatcherLease
  import opened DispatcherSteps

  // ----- every run -----------------------------------------------------------------------

  lemma ArriveKeepsPlaces(s: State, id: Id, cmd: Command)
    requires PlaceInv(s) && OwnerInv(s) && Enabled(s, Arrive(id, cmd))
    ensures PlaceInv(Apply(s, Arrive(id, cmd)))
  {
    var s' := Apply(s, Arrive(id, cmd));
    forall j | j in s'.threads ensures WellPlaced(s', j) { assert j != id ==> WellPlaced(s, j); }
  }

  lemma ArriveKeepsSettlement(s: State, id: Id, cmd: Command)
    requires SettleInv(s) && OwnerInv(s) && Enabled(s, Arrive(id, cmd))
    ensures SettleInv(Apply(s, Arrive(id, cmd)))
  {
    var s' := Apply(s, Arrive(id, cmd));
    forall t | t in s'.hist.retired && BoundTarget(s', t)
        && t !in s'.hist.guardFailed ensures Over(s', t) { assert Over(s, t); }
  }

  lemma ArriveKeepsTurns(s: State, id: Id, cmd: Command)
    requires LockInv(s) && PlaceInv(s) && OwnerInv(s) && TurnInv(s) && Enabled(s, Arrive(id, cmd))
    ensures LockInv(Apply(s, Arrive(id, cmd))) && OwnerInv(Apply(s, Arrive(id, cmd)))
            && TurnInv(Apply(s, Arrive(id, cmd)))
  {
    assert id !in s.threads && id !in s.ops;
  }

  lemma ArriveKeepsCore(s: State, id: Id, cmd: Command)
    requires OwnerInv(s) && CoreInv(s) && ResultInv(s) && Enabled(s, Arrive(id, cmd))
    ensures CoreInv(Apply(s, Arrive(id, cmd))) && ResultInv(Apply(s, Arrive(id, cmd)))
  {
    assert id !in s.ops;
  }

  lemma ArriveKeepsSafe(s: State, id: Id, cmd: Command)
    requires Safe(s) && Enabled(s, Arrive(id, cmd))
    ensures Safe(Apply(s, Arrive(id, cmd)))
  {
    ArriveKeepsPlaces(s, id, cmd);
    ArriveKeepsTurns(s, id, cmd);
    ArriveKeepsCore(s, id, cmd);
    ArriveKeepsSettlement(s, id, cmd);
  }

  lemma AcquireKeepsSafe(s: State, id: Id)
    requires Safe(s) && Enabled(s, AcquireState(id))
    ensures Safe(Apply(s, AcquireState(id)))
  {
    var s' := Apply(s, AcquireState(id));
    assert PlaceInv(s') by {
      forall j | j in s'.threads ensures WellPlaced(s', j) { assert WellPlaced(s, j); }
    }
    assert SettleInv(s') by {
      forall t | t in s'.hist.retired && BoundTarget(s', t)
          && t !in s'.hist.guardFailed ensures Over(s', t) { assert Over(s, t); }
    }
  }

  lemma CloseKeepsSafe(s: State)
    requires Safe(s)
    ensures Safe(Apply(s, Close))
  {
    var s' := Apply(s, Close);
    assert PlaceInv(s') by {
      forall j | j in s'.threads ensures WellPlaced(s', j) { assert WellPlaced(s, j); }
    }
    assert SettleInv(s') by {
      forall t | t in s'.hist.retired && BoundTarget(s', t)
          && t !in s'.hist.guardFailed ensures Over(s', t) { assert Over(s, t); }
    }
  }

  ghost predicate Good(s: State) { Safe(s) && Account(s) }

  lemma StepGood(s: State, id: Id, c: Choice)
    requires Good(s) && Enabled(s, Act(id, c))
    ensures StepOk(s, id, StepOf(s, id, c), c.env)
  {
    StepsOk(s, id, c);
  }

  lemma MoveKeepsGood(s: State, m: Move)
    requires Good(s) && Enabled(s, m)
    ensures Good(Apply(s, m))
  {
    match m
    case Arrive(id, cmd) =>
      ArriveKeepsSafe(s, id, cmd);
      ArriveKeepsAccount(s, id, cmd);
    case AcquireState(id) =>
      AcquireKeepsSafe(s, id);
      SameAccounts(s, Apply(s, m));
    case Act(id, c) =>
      StepGood(s, id, c);
      EffectKeepsSafe(s, id, StepOf(s, id, c));
      EffectKeepsAccount(s, id, StepOf(s, id, c), c.env);
    case Close =>
      CloseKeepsSafe(s);
      SameAccounts(s, Apply(s, m));
  }

  lemma SameAccounts(s: State, s': State)
    requires Account(s) && s' == s.(lock := s'.lock, closing := s'.closing)
    ensures Account(s')
  {
    forall x | x in s'.ops ensures OwnerAccount(s', x) { assert OwnerAccount(s, x); }
    forall x: Id | x !in s'.ops ensures NoAccount(s', x) { assert NoAccount(s, x); }
    forall id | id in s'.threads ensures ThreadAccount(s', id) { assert ThreadAccount(s, id); }
  }

  lemma ArriveKeepsAccount(s: State, id: Id, cmd: Command)
    requires Account(s) && Enabled(s, Arrive(id, cmd))
    ensures Account(Apply(s, Arrive(id, cmd)))
  {
    var s' := Apply(s, Arrive(id, cmd));
    forall x | x in s'.ops ensures OwnerAccount(s', x) { assert OwnerAccount(s, x); }
    forall x: Id | x !in s'.ops ensures NoAccount(s', x) { assert NoAccount(s, x); }
    forall j | j in s'.threads ensures ThreadAccount(s', j) { assert j != id ==> ThreadAccount(s, j); }
  }

  lemma {:induction false} RunKeepsGood(s: State, moves: seq<Move>, t: State)
    requires Good(s) && Run(s, moves, t)
    ensures Good(t)
    decreases |moves|
  {
    if moves != [] {
      MoveKeepsGood(s, moves[0]);
      RunKeepsGood(Apply(s, moves[0]), moves[1..], t);
    }
  }

  /** Reachable by some interleaving from some initial state. */
  ghost predicate Reachable(s: State) {
    exists s0: State, moves: seq<Move> :: Init(s0) && Run(s0, moves, s)
  }

  lemma ReachableGood(s: State)
    requires Reachable(s)
    ensures Good(s)
  {
    var s0: State, moves: seq<Move> :| Init(s0) && Run(s0, moves, s);
    RunKeepsGood(s0, moves, s);
  }

  lemma {:induction false} RunExtends(s: State, moves: seq<Move>, t: State, m: Move)
    requires Run(s, moves, t) && Enabled(t, m)
    ensures Run(s, moves + [m], Apply(t, m))
    decreases |moves|
  {
    if moves == [] {
      assert moves + [m] == [m] && [m][1..] == [];
      assert Run(Apply(t, m), [], Apply(t, m));
    } else {
      RunExtends(Apply(s, moves[0]), moves[1..], t, m);
      assert (moves + [m])[1..] == moves[1..] + [m];
    }
  }

  lemma Reach(s: State, m: Move)
    requires Reachable(s) && Enabled(s, m)
    ensures Reachable(Apply(s, m))
  {
    var s0: State, moves: seq<Move> :| Init(s0) && Run(s0, moves, s);
    RunExtends(s0, moves, s, m);
  }

  // ----- locks --------------------------------------------------------------------------

  lemma OneThreadInHost(s: State, i: Id, j: Id)
    requires Reachable(s) && i in s.threads && j in s.threads && InHost(s.threads[i].pc) && InHost(s.threads[j].pc)
    ensures i == j && s.exec == Some(i)
  {
    ReachableGood(s);
  }

  /** A move of the thread itself: its step, or taking the free state lock it needs. */
  predicate CanMove(s: State, id: Id) {
    id in s.threads && (Runnable(s, id) || (NeedsState(s.threads[id].pc) && s.lock.None?))
  }

  /** The end of the chain of waits that starts at a thread; at most two locks long. */
  function WaitsFor(s: State, id: Id): Id
    requires id in s.threads
  {
    if NeedsState(s.threads[id].pc) then (if s.lock.Some? then s.lock.value else id)
    else if WaitsExec(s.threads[id].pc) && s.exec.Some? then
      var holder := s.exec.value;
      if holder in s.threads && NeedsState(s.threads[holder].pc) && s.lock.Some? then s.lock.value else holder
    else id
  }

  lemma NoDeadlock(s: State, id: Id, c: Choice)
    requires Reachable(s) && id in s.threads
    ensures var j := WaitsFor(s, id);
            && CanMove(s, j)
            && (Runnable(s, j) ==> Enabled(s, Act(j, c)))
            && (!Runnable(s, j) ==> Enabled(s, AcquireState(j)))
            && (Blocked(s, id) <==> !CanMove(s, id))
  {
    ReachableGood(s);
  }

  /** Blocking acquisitions only go from the execution lock to the state lock, and a section is one step long. */
  lemma LockOrder(s: State, id: Id, c: Choice)
    requires Reachable(s) && s.lock == Some(id)
    ensures Enabled(s, Act(id, c)) && Apply(s, Act(id, c)).lock.None?
    ensures !WaitsExec(s.threads[id].pc)
  {
    ReachableGood(s);
  }

  // ----- settlement ------------------------------------------------------------------------

  /** Once over, a known request stays over: nothing of it starts again. */
  lemma OverStays(s: State, m: Move, t: Id)
    requires Good(s) && Enabled(s, m) && Over(s, t) && t in s.hist.requests
    ensures Over(Apply(s, m), t) && t in Apply(s, m).hist.requests
  {
    if m.Act? {
      StepGood(s, m.id, m.choice);
    }
  }

  lemma {:induction false} RunStaysOver(s: State, moves: seq<Move>, s': State, t: Id)
    requires Good(s) && Run(s, moves, s') && Over(s, t) && t in s.hist.requests
    ensures Over(s', t)
    decreases |moves|
  {
    if moves != [] {
      MoveKeepsGood(s, moves[0]);
      OverStays(s, moves[0], t);
      RunStaysOver(Apply(s, moves[0]), moves[1..], s', t);
    }
  }

  /** An answered settlement of a bound target is true when given, and stays true in every continuation. */
  lemma SettlementSound(s: State, t: Id, moves: seq<Move>, s': State)
    requires Reachable(s) && Run(s, moves, s')
    requires t in s.hist.settled && BoundTarget(s, t) && t !in s.hist.guardFailed
    ensures Over(s, t) && Over(s', t)
  {
    ReachableGood(s);
    RunStaysOver(s, moves, s', t);
  }

  /** An owner that never hands off under the guard settles soundly, whatever fails. */
  lemma SettlementSoundWithoutGuard(s: State, t: Id)
    requires Reachable(s) && t in s.hist.settled && BoundTarget(s, t)
    requires t in s.ops ==> !AtRisk(s.ops[t].kind)
    ensures Over(s, t)
  {
    ReachableGood(s);
  }

  // ----- leases and cleanup -----------------------------------------------------------------

  /**
   A response given while a lease-requiring owner is active shows egress or a
   lease only if the Core confirmed this target and digest, no terminal revoke
   was admitted, and the owner is live inside its network and lease windows.
   */
  lemma LeaseProjection(s: State, id: Id, c: Choice)
    requires Reachable(s) && Enabled(s, Act(id, c)) && StepOf(s, id, c).reply.Some?
    requires s.active.Some? && s.active.value in s.ops && s.ops[s.active.value].kind.requiresLease
    requires var v := StepOf(s, id, c).reply.value.view; v.Snapshot? && (v.egress || v.lease)
    ensures var s' := Apply(s, Act(id, c)); var x := s.active.value;
            && x in s'.ops && s'.ops[x].kind == s.ops[x].kind
            && s'.ops[x].now.promoted && !s'.ops[x].now.cancelled && !s'.ops[x].now.deadlineExpired
            && (x, s.ops[x].kind.digest) in s'.hist.confirmed && x !in s'.hist.terminalRevokes
            && Count(s'.hist.promotions, x) == 1
            && c.env.networkCurrent && c.env.leaseCurrent
  {
    ReachableGood(s);
    StepGood(s, id, c);
    MoveKeepsGood(s, Act(id, c));
    assert OwnerAccount(s, s.active.value);
    assert OwnerAccount(Apply(s, Act(id, c)), s.active.value);
  }

  lemma OnePromotion(s: State, x: Id)
    requires Reachable(s)
    ensures Count(s.hist.promotions, x) <= 1
    ensures Count(s.hist.promotions, x) == 1 ==> x in s.ops && (x, s.ops[x].kind.digest) in s.hist.confirmed
  {
    ReachableGood(s);
    if x in s.ops { assert OwnerAccount(s, x); } else { assert NoAccount(s, x); }
  }

  lemma WatcherStopsBounded(s: State, x: Id)
    requires Reachable(s)
    ensures Count(s.hist.watcherStops, x) <= 1 + Count(s.hist.cancels, x)
  {
    ReachableGood(s);
    if x in s.ops { assert OwnerAccount(s, x); } else { assert NoAccount(s, x); }
  }
}
