/** The VPN lifecycle over Core, the journal and the transition guard. */
module RuntimeHosting {
  import opened Wrappers
  import opened Journal
  import opened RuntimeTrace
  import opened OutsideWorld
  import opened RuntimeRecovery
  import opened TransitionGuard

  datatype Phase = ArtifactReady | Initialized | ConfigStaged | Running | RecoveryRequired

  class RuntimeHost {
    const world: World
    const recovery: DurableRuntimeRecovery
    const guard: Guard
    const hasGuard: bool
    var phase: Phase
    var profileStaged: bool
    var staged: Option<nat>        // profile digests
    var effective: Option<nat>
    var requiresBound: bool
    var egress: bool
    var dpi: bool                  // a local DPI preparation is held
    var dpiDisabled: bool          // its child is given up for this connection
    var telegram: bool             // a Telegram preparation is held

    ghost predicate Parts()
      reads this, world, world.mark, recovery, guard
    {
      && recovery.world == world && guard.world == world && recovery.Valid() && guard.Valid()
      && (profileStaged ==> !world.now.withheld && staged.Some?)
    }

    /** Running stands on a committed journal over a live Core; the idle phases stand on a clean one. */
    ghost predicate PhaseHolds()
      reads this, world, recovery
    {
      && (phase.Running? ==> !recovery.invalid && recovery.stage.Committed? && world.now.live
                             && effective.Some? && (staged.Some? ==> staged == effective))
      && (!phase.Running? ==> effective.None? && !egress)
      && (phase.Initialized? || phase.ConfigStaged? ==> !recovery.invalid && recovery.stage.Clean?)
    }

    ghost predicate Valid()
      reads this, world, world.mark, recovery, guard
    {
      Parts() && PhaseHolds()
    }

    /**
     What every call but a connect keeps: nothing starts, an idle host needs no recovery, and a return to idle is a
     confirmed stop.
     */
    twostate predicate Quiet()
      reads this, world
    {
      && (old(phase.Running? || phase.RecoveryRequired?) && !phase.Running? && !phase.RecoveryRequired? ==>
      !world.now.live)
      && (phase.Running? ==> old(phase.Running?) && effective == old(effective) && requiresBound == old(requiresBound))
      && (phase.RecoveryRequired? ==> !old(phase.Initialized?) && !old(phase.ConfigStaged?))
    }

    constructor (world: World, hasGuard: bool)
      requires world.Valid()
      modifies world`refusals
      ensures Valid() && this.world == world && this.hasGuard == hasGuard && phase.ArtifactReady? && !profileStaged
      ensures fresh(recovery) && fresh(guard) && !requiresBound
      ensures world.refusals >= old(world.refusals)
      ensures world.refusals == old(world.refusals) ==> !recovery.invalid
    {
      this.world := world;
      this.hasGuard := hasGuard;
      recovery := new DurableRuntimeRecovery(world);
      guard := new Guard(world);
      phase, profileStaged, staged, effective := ArtifactReady, false, None, None;
      requiresBound, egress, dpi, dpiDisabled, telegram := false, false, false, false, false;
    }

    predicate GuardArmed()
      reads this, guard
    {
      hasGuard && guard.IsArmed()
    }

    // ----- rollback and recovery -------------------------------------------------------

    /** Core is stopped, or refused to stop in this request. */
    ghost predicate Attempted()
      reads world
    {
      !world.now.live || world.now.resisted
    }

    /** After Core stopped: the transformed profile is replaced by the staged one, or is no longer staged. */
    method ClearAfterCoreStopped() returns (r: Outcome<bool>)
      requires world.Valid()
      modifies this`profileStaged, this`dpi, this`dpiDisabled, this`telegram, world`trace, world`states,
               world`now, world`refusals
      ensures world.Valid() && (r.Done? ==> world.now == old(world.now)) && (profileStaged ==> old(profileStaged))
      ensures world.refusals >= old(world.refusals) + if Yes(r) then 0 else 1
      ensures world.refusals == old(world.refusals) ==> profileStaged == old(profileStaged)
    {
      var stopped :- world.Ask();
      if !stopped { return Done(false); }
      dpi, dpiDisabled, telegram := false, false, false;
      var rewritten :- world.Ask();
      if !rewritten { profileStaged := false; }
      return Done(true);
    }

    /** Core is stopped even when the rollback could not be announced; nothing is restored unless both worked. */
    method RollbackRuntime() returns (r: Outcome<bool>)
      requires Parts()
      modifies this`profileStaged, this`dpi, this`dpiDisabled, this`telegram, recovery, world`file, world`entry,
               world`trace, world`states, world`now, world`refusals
      ensures world.Valid() && (r.Done? ==> Parts())
      ensures Yes(r) ==> !recovery.invalid && recovery.stage.Clean? && !world.now.live
      ensures r.Done? ==>
              world.now.userOff == old(world.now.userOff) && world.now.failed == (old(world.now.failed) || !r.value)
      ensures profileStaged ==> old(profileStaged)
      ensures world.refusals >= old(world.refusals)
      ensures !recovery.invalid ==> world.refusals >= old(world.refusals) + if Yes(r) then 0 else 1
      ensures world.refusals == old(world.refusals) ==> profileStaged == old(profileStaged)
      ensures r.Done? ==> Attempted()
    {
      var ok :- StopAndRestore();
      world.Log(Rollback(ok));
      return Done(ok);
    }

    method StopAndRestore() returns (r: Outcome<bool>)
      requires Parts()
      modifies this`profileStaged, this`dpi, this`dpiDisabled, this`telegram, recovery, world`file, world`entry,
               world`trace, world`states, world`now, world`refusals
      ensures world.Valid() && (r.Done? ==> Parts())
      ensures Yes(r) ==> !recovery.invalid && recovery.stage.Clean? && !world.now.live
      ensures r.Done? ==> world.now.userOff == old(world.now.userOff) && world.now.failed == old(world.now.failed)
      ensures profileStaged ==> old(profileStaged)
      ensures world.refusals >= old(world.refusals)
      ensures !recovery.invalid ==> world.refusals >= old(world.refusals) + if Yes(r) then 0 else 1
      ensures world.refusals == old(world.refusals) ==> profileStaged == old(profileStaged)
      ensures r.Done? ==> Attempted()
    {
      r := BeginAndStop();
      if Yes(r) { r := RestoreNetwork(); }
    }

    method BeginAndStop() returns (r: Outcome<bool>)
      requires Parts()
      modifies this`profileStaged, this`dpi, this`dpiDisabled, this`telegram, recovery, world`file, world`entry,
               world`trace, world`states, world`now, world`refusals
      ensures world.Valid() && (r.Done? ==> Parts())
      ensures Yes(r) ==> world.now.halted && !world.now.live
      ensures Yes(r) ==> !recovery.invalid && (recovery.stage.Clean? || recovery.stage.RollingBack?)
      ensures r.Done? ==> world.now.userOff == old(world.now.userOff) && world.now.failed == old(world.now.failed)
      ensures profileStaged ==> old(profileStaged)
      ensures world.refusals >= old(world.refusals)
      ensures !recovery.invalid ==> world.refusals >= old(world.refusals) + if Yes(r) then 0 else 1
      ensures world.refusals == old(world.refusals) ==> profileStaged == old(profileStaged)
      ensures r.Done? ==> Attempted()
    {
      var begun :- recovery.BeginRollback();
      var stopped :- StopCore();
      return Done(begun && stopped);
    }

    method StopCore() returns (r: Outcome<bool>)
      requires Parts()
      modifies this`profileStaged, this`dpi, this`dpiDisabled, this`telegram, world`trace, world`states,
               world`now, world`refusals
      ensures world.Valid() && (r.Done? ==> Parts()) && (profileStaged ==> old(profileStaged))
      ensures Yes(r) ==> world.now.halted && !world.now.live
      ensures r.Done? ==> world.now.userOff == old(world.now.userOff) && world.now.failed == old(world.now.failed)
      ensures world.refusals >= old(world.refusals) + if Yes(r) then 0 else 1
      ensures world.refusals == old(world.refusals) ==> profileStaged == old(profileStaged)
      ensures r.Done? ==> Attempted()
    {
      var stopped :- world.StopCore();
      if !stopped { return Done(false); }
      r := ClearAfterCoreStopped();
    }

    method RestoreNetwork() returns (r: Outcome<bool>)
      requires Parts() && world.now.halted && !world.now.live
      modifies recovery, world`file, world`entry, world`trace, world`states, world`now, world`refusals
      ensures world.Valid() && (r.Done? ==> Parts() && SameOwner(old(world.now), world.now))
      ensures Yes(r) ==> !recovery.invalid && recovery.stage.Clean?
      ensures world.refusals >= old(world.refusals)
      ensures old(!recovery.invalid && (recovery.stage.Clean? || recovery.stage.RollingBack?)) ==>
                world.refusals >= old(world.refusals) + if Yes(r) then 0 else 1
    {
      var restored :- recovery.RestoreNetworkState();
      if !restored { return Done(false); }
      r := recovery.CompleteRollback();
    }

    method Initialize() returns (r: Outcome<bool>)
      requires Valid()
      modifies this, recovery, world`file, world`entry, world`trace, world`states, world`now, world`refusals
      ensures world.Valid() && (r.Done? ==> Valid() && Quiet())
      ensures Yes(r) && old(phase.ArtifactReady?) ==> phase.Initialized? && !recovery.invalid && recovery.stage.Clean?
      ensures old(!phase.ArtifactReady?) ==> Yes(r) && phase == old(phase)
      ensures profileStaged ==> old(profileStaged)
      ensures world.refusals >= old(world.refusals)
      ensures !recovery.invalid ==> world.refusals >= old(world.refusals) + if Yes(r) then 0 else 1
    {
      if !phase.ArtifactReady? { return Done(true); }
      var ready :- world.Ask();
      if !ready { return Done(false); }
      if recovery.RequiresRecovery() {
        var recovered :- RollbackRuntime();
        if !recovered {
          phase := RecoveryRequired;
          return Done(false);
        }
      }
      phase := Initialized;
      return Done(true);
    }

    // ----- profiles --------------------------------------------------------------------

    method StageProfile(digest: nat, bound: bool) returns (r: Outcome<bool>)
      requires Valid()
      modifies this, recovery, world`file, world`entry, world`trace, world`states, world`now, world`refusals
      ensures world.Valid() && (r.Done? ==> Valid() && Quiet())
      ensures Yes(r) ==> phase.ConfigStaged? && profileStaged && staged == Some(digest) && requiresBound == bound
      ensures world.refusals >= old(world.refusals)
      ensures !recovery.invalid && !old(phase.Running? || phase.RecoveryRequired?) ==>
                world.refusals >= old(world.refusals) + if Yes(r) then 0 else 1
    {
      var ready :- Initialize();
      if !ready || phase.Running? || phase.RecoveryRequired? { return Done(false); }
      r := WriteProfile(digest, bound);
    }

    method WriteProfile(digest: nat, bound: bool) returns (r: Outcome<bool>)
      requires Valid() && (phase.Initialized? || phase.ConfigStaged?)
      modifies this, world`trace, world`states, world`now, world`refusals
      ensures world.Valid() && (r.Done? ==> Valid() && (phase == old(phase) || phase.ConfigStaged?))
      ensures Yes(r) ==> phase.ConfigStaged? && profileStaged && staged == Some(digest) && requiresBound == bound
      ensures world.refusals >= old(world.refusals) + if Yes(r) then 0 else 1
    {
      var written :- world.Ask();
      if !written { return Done(false); }
      staged, effective, requiresBound, profileStaged := Some(digest), None, bound, true;
      phase := ConfigStaged;
      world.Log(Staged);
      return Done(true);
    }

    method InvalidateProfile() returns (r: Outcome<bool>)
      requires Valid()
      modifies this, world`trace, world`states, world`now, world`refusals
      ensures world.Valid() && (r.Done? ==> Valid() && Quiet())
      ensures Yes(r) ==> !profileStaged && !phase.Running? && !phase.RecoveryRequired?
      ensures world.refusals >= old(world.refusals)
      ensures !old(phase.Running? || phase.RecoveryRequired?) ==>
                world.refusals >= old(world.refusals) + if Yes(r) then 0 else 1
    {
      if phase.Running? || phase.RecoveryRequired? { return Done(false); }
      var stopped :- world.Ask();
      if !stopped { return Done(false); }
      dpi, telegram, profileStaged, requiresBound, staged, effective := false, false, false, false, None, None;
      if !phase.ArtifactReady? { phase := Initialized; }
      return Done(true);
    }

    // ----- connect -----------------------------------------------------------------------

    /** A connect that failed after the journal opened. */
    method Unwind() returns (r: Outcome<bool>)
      requires Parts() && !recovery.invalid
      modifies this`phase, this`effective, this`egress, this`profileStaged, this`dpi, this`dpiDisabled, this`telegram,
               recovery
      modifies world`file, world`entry, world`trace, world`states, world`now, world`refusals
      ensures world.Valid() && (r.Done? ==> Valid() && !r.value && (phase.ConfigStaged? || phase.RecoveryRequired?))
      ensures world.refusals >= old(world.refusals) + if r.Done? && phase.ConfigStaged? then 0 else 1
      ensures r.Done? ==> Attempted()
    {
      var ok :- RollbackRuntime();
      effective, egress := None, false;
      phase := if ok then ConfigStaged else RecoveryRequired;
      return Done(false);
    }

    /** This profile is staged, and nothing is left to recover. */
    predicate CanStart(expected: nat)
      reads this
    {
      profileStaged && staged == Some(expected) && !phase.ArtifactReady? && !phase.RecoveryRequired?
    }

    /** A connect fails only where it was refused, and its rollback, which always tries to stop Core, only so too. */
    twostate predicate Earned(new r: Outcome<bool>)
      reads this, world
    {
      && world.refusals >= old(world.refusals) + (if Yes(r) then 0 else if r.Done? && phase.RecoveryRequired? then 2
                                                  else 1)
      && (r.Done? && !phase.Running? ==> Attempted())
    }

    /** Between the journal's stages each interruption check that fires unwinds. */
    ghost predicate Opened(stage: Stage)
      reads this, world, world.mark, recovery, guard
    {
      Parts() && !recovery.invalid && recovery.stage == stage && profileStaged && staged.Some?
    }

    /**
     The block could not be handed back: the call's last act was to try, and a read after it did not find the filters
     off.
     */
    ghost predicate HandBackFailed()
      reads this, world, guard
    {
      hasGuard && !requiresBound && !egress && world.EndsInRemove() && guard.IsArmed()
    }

    /** How a connect whose journal is open ends: it runs the staged profile, or not, or only the hand-back failed. */
    twostate predicate Started(finish: bool, ok: bool)
      reads this, world, guard
    {
      && requiresBound == old(requiresBound) && (ok ==> phase.Running?)
      && (phase.Running? ==> effective == old(staged))
      && (ok ==> egress == !requiresBound && (egress ==> world.now.proved) && (finish && egress ==> !GuardArmed()))
      && (!ok && phase.Running? ==> finish && old(GuardArmed()) && HandBackFailed())
    }

    /** How any connect ends, by the phase it found. */
    twostate predicate Connects(expected: nat, finish: bool, network: bool, ok: bool)
      reads this, world, guard
    {
      && requiresBound == old(requiresBound) && (ok ==> phase.Running?)
      && (old(phase.ArtifactReady? || phase.Running? || phase.RecoveryRequired?) ==>
            phase == old(phase) && effective == old(effective) && egress == old(egress))
      && (phase.Running? && !old(phase.Running?) ==>
            && effective == Some(expected)
            && (if ok then egress == !requiresBound && (finish && egress ==> !GuardArmed())
                else finish && (old(GuardArmed()) || network) && HandBackFailed()))
    }

    method ConnectImpl(expected: nat, bound: bool, finish: bool, network: bool) returns (r: Outcome<bool>)
      requires Valid()
      modifies this, recovery, guard, world
      ensures world.Valid() && (r.Done? ==> Valid())
      ensures Yes(r) ==> phase.Running?
      ensures Yes(r) && !old(phase.Running?) ==> effective == Some(expected) && (egress ==> world.now.proved)
      ensures No(r) && phase.Running? && !old(phase.Running?) ==> finish && HandBackFailed()
      ensures r.Done? ==> Connects(expected, finish, network, r.value)
      ensures r.Done? && !(old(profileStaged) && old(staged) == Some(expected)) ==>
                !r.value && phase == old(phase) && world.now == old(world.now) && world.filters == old(world.filters)
      ensures !finish ==> world.filters == old(world.filters) || world.filters.Armed?
      ensures world.refusals >= old(world.refusals)
      ensures old(CanStart(expected)) ==> Earned(r)
    {
      if phase.ArtifactReady? || !profileStaged || staged != Some(expected) { return Done(false); }
      var go :- world.Ask();
      if !go { return Done(false); }
      if bound {
        var interruptible :- world.Ask();
        if !interruptible { return Done(false); }
      }
      if phase.Running? { return Done(true); }
      if phase.RecoveryRequired? { return Done(false); }
      r := OpenJournal(finish, network);
    }

    /** From an idle phase with a profile staged. */
    method OpenJournal(finish: bool, network: bool) returns (r: Outcome<bool>)
      requires Valid() && (phase.Initialized? || phase.ConfigStaged?) && profileStaged
      modifies this, recovery, guard, world
      ensures world.Valid() && (r.Done? ==> Valid()) && Earned(r)
      ensures r.Done? ==> requiresBound == old(requiresBound) && (r.value ==> phase.Running?)
      ensures r.Done? && phase.Running? ==> effective == old(staged)
      ensures Yes(r) ==> egress == !requiresBound && (egress ==> world.now.proved)
                         && (finish && egress ==> !GuardArmed())
      ensures No(r) && phase.Running? ==> finish && (old(GuardArmed()) || network) && HandBackFailed()
      ensures !finish ==> world.filters == old(world.filters) || world.filters.Armed?
    {
      var prepared :- Prepare(network);
      if !prepared { return Done(false); }
      var begun :- recovery.Begin();
      if !begun { return Done(false); }
      r := Announce(finish);
    }

    /** Writes the profile to start, with any DPI or Telegram preparation; DPI needs the guard armed. */
    method Prepare(network: bool) returns (r: Outcome<bool>)
      requires Valid() && !phase.Running?
      modifies this`dpi, this`dpiDisabled, this`telegram, guard, world`filters, world`trace, world`states,
               world`now, world`refusals
      ensures world.Valid() && (r.Done? ==> Valid() && world.now == old(world.now))
      ensures Yes(r) && GuardArmed() ==> old(GuardArmed()) || network
      ensures world.filters == old(world.filters) || world.filters.Armed?
      ensures world.refusals >= old(world.refusals) + if Yes(r) then 0 else 1
    {
      dpi, telegram := false, false;
      var written :- world.Ask();
      if !written { return Done(false); }
      var telegramPrepared :- world.Look();
      telegram := network && telegramPrepared;
      var armed :- PrepareDpi(network);
      if !armed { return Done(false); }
      written :- world.Ask();
      return Done(written || (!dpi && !telegram));
    }

    /** A profile prepared for local DPI is only started under the guard. */
    method PrepareDpi(network: bool) returns (r: Outcome<bool>)
      requires Valid()
      modifies this`dpi, this`dpiDisabled, guard, world`filters, world`trace, world`states, world`now, world`refusals
      ensures world.Valid() && (r.Done? ==> Valid() && world.now == old(world.now))
      ensures Yes(r) && GuardArmed() ==> old(GuardArmed()) || network
      ensures world.filters == old(world.filters) || world.filters.Armed?
      ensures world.refusals >= old(world.refusals) + if Yes(r) then 0 else 1
    {
      var prepared :- world.Look();
      if !network || !prepared || !hasGuard { return Done(true); }
      if !guard.IsArmed() {
        var armed :- guard.Start();
        if !armed { return Done(false); }
      }
      dpi, dpiDisabled := true, false;
      return Done(true);
    }

    /** The next stage of an open journal. */
    method Advance(next: Stage) returns (r: Outcome<bool>)
      requires Opened(recovery.stage) && IsForwardTransition(recovery.stage, next) && MayHaveCore(next)
               && !next.RollingBack?
      modifies recovery`stage, world`file, world`entry, world`trace, world`states, world`now, world`refusals
      ensures world.Valid() && (r.Done? ==> Parts() && SameOwner(old(world.now), world.now))
      ensures Yes(r) ==> Opened(next)
      ensures world.refusals == old(world.refusals) + if Yes(r) then 0 else 1
    {
      r := recovery.Record(next);
    }

    method Announce(finish: bool) returns (r: Outcome<bool>)
      requires Opened(Snapshotted) && !world.now.live
      modifies this, recovery, guard, world
      ensures world.Valid() && (r.Done? ==> Valid())
      ensures r.Done? ==> Started(finish, r.value)
      ensures !finish ==> world.filters == old(world.filters)
      ensures Earned(r)
    {
      var go :- world.Ask();
      if go { go :- Advance(CoreStarted); }
      if go { go :- world.Ask(); }
      if go { r := Launch(finish); } else { r := Unwind(); }
    }

    method Launch(finish: bool) returns (r: Outcome<bool>)
      requires Opened(CoreStarted) && !world.now.live
      modifies this, recovery, guard, world
      ensures world.Valid() && (r.Done? ==> Valid())
      ensures r.Done? ==> Started(finish, r.value)
      ensures !finish ==> world.filters == old(world.filters)
      ensures Earned(r)
    {
      var go :- StartCore();
      if go { r := Verify(finish); } else { r := Unwind(); }
    }

    method StartCore() returns (r: Outcome<bool>)
      requires Opened(CoreStarted) && !world.now.live
      modifies recovery`stage, world`file, world`entry, world`trace, world`states, world`now, world`refusals
      ensures world.Valid() && (r.Done? ==> Parts())
      ensures Yes(r) ==> recovery.stage.NetworkApplied? && world.now.live
      ensures world.refusals >= old(world.refusals) + if Yes(r) then 0 else 1
    {
      r := world.StartCore();
      if Yes(r) { r := recovery.Record(NetworkApplied); }
    }

    method Verify(finish: bool) returns (r: Outcome<bool>)
      requires Opened(NetworkApplied) && world.now.live
      modifies this, recovery, guard, world
      ensures world.Valid() && (r.Done? ==> Valid())
      ensures r.Done? ==> Started(finish, r.value)
      ensures !finish ==> world.filters == old(world.filters)
      ensures Earned(r)
    {
      var go :- Prove();
      if go { r := Commit(finish); } else { r := Unwind(); }
    }

    /** Ordinary profiles prove egress first; then the DPI child is proved or withdrawn under the guard. */
    method Prove() returns (r: Outcome<bool>)
      requires Opened(NetworkApplied) && world.now.live
      modifies this`dpiDisabled, world`trace, world`states, world`now, world`refusals
      ensures world.Valid() && (r.Done? ==> Opened(NetworkApplied) && world.now.live)
      ensures Yes(r) && !requiresBound ==> world.now.proved
      ensures world.refusals >= old(world.refusals) + if Yes(r) then 0 else 1
    {
      var go := true;
      if !requiresBound { go :- world.ProbeEgress(); }
      if go { go :- world.Ask(); }
      if go && dpi { go :- ProveChild(); }
      return Done(go);
    }

    /** Without an admitted service the child must be withdrawn, and is given up. */
    method ProveChild() returns (r: Outcome<bool>)
      requires Opened(NetworkApplied) && world.now.live
      modifies this`dpiDisabled, world`trace, world`states, world`now, world`refusals
      ensures world.Valid() && (r.Done? ==> Opened(NetworkApplied) && world.now == old(world.now))
      ensures world.refusals >= old(world.refusals) + if Yes(r) then 0 else 1
    {
      var admitted :- world.Ask();
      var withdrawn :- world.Ask();
      var current :- world.Ask();
      if !admitted { dpiDisabled := true; }
      return Done((admitted || withdrawn) && current);
    }

    method Commit(finish: bool) returns (r: Outcome<bool>)
      requires Opened(NetworkApplied) && world.now.live && (!requiresBound ==> world.now.proved)
      modifies this, recovery, guard, world
      ensures world.Valid() && (r.Done? ==> Valid())
      ensures r.Done? ==> Started(finish, r.value)
      ensures !finish ==> world.filters == old(world.filters)
      ensures Earned(r)
    {
      var go :- Advance(Verified);
      if go { go :- world.Ask(); }
      if go { r := Run(finish); } else { r := Unwind(); }
    }

    method Run(finish: bool) returns (r: Outcome<bool>)
      requires Opened(Verified) && world.now.live && (!requiresBound ==> world.now.proved)
      modifies this, recovery, guard, world
      ensures world.Valid() && (r.Done? ==> Valid())
      ensures r.Done? ==> Started(finish, r.value)
      ensures !finish ==> world.filters == old(world.filters)
      ensures Earned(r)
    {
      var go :- Advance(Committed);
      if go { go :- world.Ask(); }
      if go { r := Settle(finish); } else { r := Unwind(); }
    }

    /** The profile runs; an ordinary one hands the block back here, and stays running if that fails. */
    method Settle(finish: bool) returns (r: Outcome<bool>)
      requires Opened(Committed) && world.now.live && (!requiresBound ==> world.now.proved)
      modifies this`effective, this`egress, this`phase, guard, world`filters, world`trace, world`states,
               world`now, world`refusals
      ensures world.Valid() && (r.Done? ==> Valid())
      ensures r.Done? ==> Started(finish, r.value)
      ensures !finish ==> world.filters == old(world.filters)
      ensures Earned(r)
    {
      effective, egress, phase := staged, !requiresBound, Running;
      if finish && egress && GuardArmed() {
        var off :- guard.Off();
        if !off {
          egress := false;
          return Done(false);
        }
      }
      return Done(true);
    }

    method Connect(expected: nat, network: bool) returns (r: Outcome<bool>)
      requires Valid()
      modifies this, recovery, guard, world
      ensures world.Valid() && (r.Done? ==> Valid()) && (Yes(r) ==> phase.Running?)
      ensures r.Done? ==> Connects(expected, true, network, r.value)
      ensures old(CanStart(expected) && !requiresBound) ==> Earned(r)
      ensures world.refusals >= old(world.refusals)
    {
      if requiresBound { return Done(false); }
      r := ConnectImpl(expected, false, true, network);
    }

    method ConnectWithIdentity(expected: nat, network: bool) returns (r: Outcome<bool>)
      requires Valid()
      modifies this, recovery, guard, world
      ensures world.Valid() && (r.Done? ==> Valid()) && (Yes(r) ==> phase.Running? && effective == Some(expected))
      ensures r.Done? ==> Connects(expected, true, network, r.value)
      ensures old(CanStart(expected) && !phase.Running?) ==> Earned(r)
      ensures world.refusals >= old(world.refusals)
    {
      if phase.Running? || phase.RecoveryRequired? { return Done(false); }
      r := ConnectImpl(expected, true, true, network);
    }

    // ----- disconnect and the protected handoff --------------------------------------------

    method StopRunning() returns (r: Outcome<bool>)
      requires Parts()
      modifies this`phase, this`effective, this`egress, this`profileStaged, this`dpi, this`dpiDisabled, this`telegram,
               recovery
      modifies world`file, world`entry, world`trace, world`states, world`now, world`refusals
      ensures world.Valid() && (r.Done? ==> Valid() && phase.RecoveryRequired? == !r.value && !phase.Running?)
      ensures Yes(r) ==> !world.now.live
      ensures r.Done? ==>
              world.now.userOff == old(world.now.userOff) && world.now.failed == (old(world.now.failed) || !r.value)
      ensures world.refusals >= old(world.refusals)
      ensures !recovery.invalid ==> world.refusals >= old(world.refusals) + if Yes(r) then 0 else 1
      ensures world.refusals == old(world.refusals) ==> profileStaged == old(profileStaged)
      ensures r.Done? ==> !phase.ArtifactReady?
      ensures r.Done? ==> Attempted()
    {
      var ok :- RollbackRuntime();
      effective, egress := None, false;
      phase := if !ok then RecoveryRequired else if profileStaged then ConfigStaged else Initialized;
      return Done(ok);
    }

    method StopFor(explicit: bool) returns (r: Outcome<bool>)
      requires Valid()
      modifies this`phase, this`effective, this`egress, this`profileStaged, this`dpi, this`dpiDisabled, this`telegram,
               recovery
      modifies world`file, world`entry, world`trace, world`states, world`now, world`refusals
      ensures world.Valid() && (r.Done? ==>
              Valid() && Quiet() && !phase.Running? && phase.RecoveryRequired? == !r.value)
      ensures Yes(r) && old(phase.Running? || phase.RecoveryRequired?) ==> !world.now.live
      ensures Yes(r) && explicit ==> world.now.userOff && !world.now.failed
      ensures world.refusals >= old(world.refusals)
      ensures !recovery.invalid ==> world.refusals >= old(world.refusals) + if Yes(r) then 0 else 1
      ensures r.Done? ==> (phase.ArtifactReady? <==> old(phase.ArtifactReady?))
      ensures r.Done? && old(phase.Running? || phase.RecoveryRequired?) ==> Attempted()
    {
      if explicit { world.Log(UserOff); }
      if !phase.Running? && !phase.RecoveryRequired? { return Done(true); }
      r := StopRunning();
    }

    /** Off for the user removes the block only when nothing had to be, or everything was, rolled back. */
    method Disconnect(explicit: bool) returns (r: Outcome<bool>)
      requires Valid()
      modifies this, recovery, guard, world
      ensures world.Valid() && (r.Done? ==> Valid() && Quiet())
      ensures Yes(r) ==> !phase.Running? && !phase.RecoveryRequired?
      ensures r.Done? && old(phase.Running? || phase.RecoveryRequired?) && !phase.RecoveryRequired? ==> !world.now.live
      ensures Yes(r) && explicit && hasGuard ==> !guard.IsArmed()
      ensures r.Done? && phase.RecoveryRequired? ==> world.filters == old(world.filters)
      ensures !explicit ==> world.filters == old(world.filters)
      ensures r.Done? ==> requiresBound == old(requiresBound)
      ensures No(r) ==> phase.RecoveryRequired? || (explicit && hasGuard && guard.IsArmed())
      ensures world.refusals >= old(world.refusals)
      ensures !recovery.invalid ==> world.refusals >= old(world.refusals) + if Yes(r) then 0 else 1
      ensures r.Done? ==> (phase.ArtifactReady? <==> old(phase.ArtifactReady?))
      ensures r.Done? && old(phase.Running? || phase.RecoveryRequired?) ==> Attempted()
    {
      var stopped :- StopFor(explicit);
      if !stopped { return Done(false); }
      if explicit && hasGuard { r := guard.Off(); return; }
      return Done(true);
    }

    method CancelProtectedHandoff() returns (r: Outcome<bool>)
      requires Valid()
      modifies this, recovery, guard, world
      ensures world.Valid() && (r.Done? ==> Valid() && Quiet())
      ensures Yes(r) ==> !phase.Running? && !phase.RecoveryRequired? && world.filters.Armed?
      ensures world.filters == old(world.filters) || world.filters.Armed?
      ensures r.Done? && phase != old(phase) ==> world.filters.Armed?
      ensures old(world.now.live) && !world.now.live ==> world.filters.Armed?
      ensures world.refusals >= old(world.refusals)
      ensures !recovery.invalid && hasGuard ==> world.refusals >= old(world.refusals) + if Yes(r) then 0 else 1
    {
      if !hasGuard { return Done(false); }
      var armed :- guard.Start();
      if !armed { return Done(false); }
      r := Disconnect(false);
    }

    /** The block is installed before the old profile stops, and removed only over the new one's proved egress. */
    method ReplaceManagedProfile(digest: nat, network: bool) returns (r: Outcome<bool>)
      requires Valid()
      modifies this, recovery, guard, world
      ensures world.Valid() && (r.Done? ==> Valid())
      ensures Yes(r) ==> phase.Running? && effective == Some(digest) && egress && !guard.IsArmed()
      ensures No(r) && !phase.Running? && old(phase.Running?) ==> world.filters.Armed?
      ensures world.refusals >= old(world.refusals)
      ensures !recovery.invalid && hasGuard && old(!requiresBound && (phase.Running? || guard.IsArmed())) ==>
                world.refusals >= old(world.refusals) + if Yes(r) then 0 else 1
    {
      if !hasGuard || requiresBound || (!phase.Running? && !guard.IsArmed()) { return Done(false); }
      var armed :- guard.Start();
      if !armed { return Done(false); }
      var stopped :- Disconnect(false);
      if !stopped { return Done(false); }
      r := StartReplacement(digest, network);
    }

    /** Behind the block, with nothing running. */
    method StartReplacement(digest: nat, network: bool) returns (r: Outcome<bool>)
      requires Valid() && !phase.Running? && !phase.RecoveryRequired?
      modifies this, recovery, guard, world
      ensures world.Valid() && (r.Done? ==> Valid())
      ensures Yes(r) ==> phase.Running? && effective == Some(digest) && egress && !guard.IsArmed()
      ensures No(r) && !phase.Running? && old(world.filters.Armed?) ==> world.filters.Armed?
      ensures world.refusals >= old(world.refusals)
      ensures !recovery.invalid ==> world.refusals >= old(world.refusals) + if Yes(r) then 0 else 1
    {
      var go :- world.Ask();
      if !go { return Done(false); }
      var ready :- StageProfile(digest, false);
      if !ready { return Done(false); }
      var connected :- ConnectImpl(digest, false, false, network);
      if !connected || !egress || effective != Some(digest) { return Done(false); }
      r := FinishReplacement();
    }

    method FinishReplacement() returns (r: Outcome<bool>)
      requires Valid() && phase.Running? && egress && world.now.proved
      modifies this, recovery, guard, world
      ensures world.Valid() && (r.Done? ==> Valid())
      ensures Yes(r) ==> phase.Running? && effective == old(effective) && egress && !guard.IsArmed()
      ensures No(r) && !phase.Running? ==> world.filters == old(world.filters)
      ensures world.refusals >= old(world.refusals) + if Yes(r) then 0 else 1
    {
      var go :- world.Ask();
      if !go {
        var _ :- Disconnect(false);
        return Done(false);
      }
      var off :- guard.Off();
      if !off { egress := false; }
      return Done(off);
    }

    method Shutdown() returns (r: Outcome<bool>)
      requires Valid()
      modifies this, recovery, world`file, world`entry, world`trace, world`states, world`now, world`refusals
      ensures world.Valid() && (r.Done? ==> Valid() && Quiet() && !phase.Running?)
      ensures r.Done? && phase.RecoveryRequired? && !recovery.invalid ==> world.refusals > old(world.refusals)
      ensures world.refusals >= old(world.refusals)
    {
      if phase.Running? || phase.RecoveryRequired? {
        var _ :- StopRunning();
      }
      return Done(true);
    }

    // ----- leases, revocations and runtime control -----------------------------------------

    predicate Serves(digest: nat)
      reads this
    {
      phase.Running? && effective == Some(digest)
    }

    method PromoteTransportLease(digest: nat) returns (r: Outcome<bool>)
      requires Valid()
      modifies this`egress, world`trace, world`states, world`now, world`refusals
      ensures world.Valid() && (r.Done? ==> Valid() && Quiet())
      ensures egress == (old(egress) || Yes(r)) && (Yes(r) ==> Serves(digest) && requiresBound)
      ensures old(Serves(digest)) && requiresBound ==> world.refusals >= old(world.refusals) + if Yes(r) then 0 else 1
      ensures world.refusals >= old(world.refusals)
    {
      if !Serves(digest) || !requiresBound { return Done(false); }
      r := world.Ask();
      if Yes(r) { egress := true; }
    }

    method RevokeTransportLease(digest: nat) returns (r: Outcome<bool>)
      requires Valid()
      modifies this`egress, world`trace, world`states, world`now, world`refusals
      ensures world.Valid() && (r.Done? ==> Valid() && Quiet())
      ensures Serves(digest) && requiresBound ==> !egress
      ensures old(Serves(digest)) && requiresBound ==> world.refusals >= old(world.refusals) + if Yes(r) then 0 else 1
      ensures world.refusals >= old(world.refusals)
    {
      if !Serves(digest) || !requiresBound { return Done(false); }
      egress := false;
      r := world.Ask();
    }

    /** The staged bytes may not start Core again. */
    method Unstage(digest: nat)
      modifies this`profileStaged, this`staged
      ensures profileStaged == (old(profileStaged) && old(staged) != Some(digest))
      ensures staged == if old(staged) == Some(digest) then None else old(staged)
    {
      if staged == Some(digest) { profileStaged, staged := false, None; }
    }

    /** What a revocation answered by Core leaves behind: a found target may not start again from these bytes. */
    twostate predicate Revoked(digest: nat, answer: Answer)
      reads this, world
    {
      && (answer.Refused? ==> world.trace == old(world.trace))
      && (!answer.Refused? ==> world.trace == old(world.trace) + [Revocation(answer)])
      && (answer.Found? ==> !profileStaged && staged != Some(digest))
      && (!answer.Found? ==> profileStaged == old(profileStaged) && staged == old(staged))
    }

    /** A lease or policy revocation: refused exactly for a profile that is not running, and otherwise Core's answer. */
    method RevokeSmartAccess(digest: nat) returns (r: Outcome<Answer>)
      requires Valid()
      modifies this`profileStaged, this`staged, world`trace, world`states, world`now, world`refusals
      ensures world.Valid() && (r.Done? ==> Valid() && Quiet() && Revoked(digest, r.value))
      ensures r.Done? ==> (r.value.Refused? <==> !(phase.Running? && effective == Some(digest)))
      ensures world.refusals >= old(world.refusals)
    {
      if !Serves(digest) { return Done(Refused); }
      r := world.Revoke();
      if r.Done? && r.value.Found? { Unstage(digest); }
    }

    /** Renewal and runtime control withhold the staged bytes before they reach Core. */
    method ControlSmartAccess(digest: nat) returns (r: Outcome<bool>)
      requires Valid()
      modifies this`profileStaged, this`staged, world`trace, world`states, world`now, world`refusals
      ensures world.Valid() && (r.Done? ==> Valid() && Quiet())
      ensures Yes(r) ==> !profileStaged && world.now.withheld && world.trace == old(world.trace) + [Control]
      ensures r.Done? && world.trace != old(world.trace) ==>
                && phase.Running? && effective == Some(digest) && !profileStaged && staged != Some(digest)
                && world.trace == old(world.trace) + [Control]
      ensures r.Done? && world.trace == old(world.trace) ==>
                profileStaged == old(profileStaged) && staged == old(staged)
      ensures world.refusals >= old(world.refusals)
      ensures old(Serves(digest)) ==> world.refusals >= old(world.refusals) + if Yes(r) then 0 else 1
    {
      if !Serves(digest) { return Done(false); }
      var supported :- world.Ask();
      if !supported { return Done(false); }
      Unstage(digest);
      r := world.Configure();
    }

    /** A catalog whose rows run through the DPI child stops under the guard before they are gone. */
    method RevokeUnderGuard() returns (r: Outcome<Answer>)
      requires Valid()
      modifies this, recovery, guard, world
      ensures world.Valid() && (r.Done? ==> Valid() && Quiet() && (r.value.Found? || r.value.Refused?))
      ensures r.Done? && r.value.Found? ==> WithdrawnCatalog()
      ensures world.filters == old(world.filters) || world.filters.Armed?
      ensures world.refusals >= old(world.refusals)
      ensures !recovery.invalid && hasGuard ==>
                world.refusals >= old(world.refusals) + if r.Done? && r.value.Found? then 0 else 1
    {
      var stopped :- CancelProtectedHandoff();
      if !stopped { return Done(Refused); }
      profileStaged, staged := false, None;
      world.Log(Withdrawn);
      return Done(Found);
    }

    /** Core is stopped behind the block and nothing is staged. */
    ghost predicate WithdrawnCatalog()
      reads this, world
    {
      !profileStaged && staged.None? && !phase.Running? && !phase.RecoveryRequired? && world.now.withheld
      && world.filters.Armed?
    }

    /** A whole catalog: through the DPI child it is stopped, and otherwise Core answers. */
    method RevokeRoutingCatalog(digest: nat) returns (r: Outcome<Answer>)
      requires Valid()
      modifies this, recovery, guard, world
      ensures world.Valid() && (r.Done? ==> Valid() && Quiet())
      ensures r.Done? && !old(dpi) ==> Revoked(digest, r.value)
      ensures r.Done? && old(dpi) ==> (r.value.Found? && WithdrawnCatalog()) || r.value.Refused?
      ensures r.Done? && !old(phase.Running? && effective == Some(digest)) ==>
                r.value.Refused? && phase == old(phase) && world.trace == old(world.trace)
      ensures world.refusals >= old(world.refusals)
      ensures r.Done? && r.value.Refused? && old(phase.Running? && effective == Some(digest)) ==>
                !hasGuard || world.refusals > old(world.refusals)
    {
      if !Serves(digest) { return Done(Refused); }
      var withdrawn :- world.Ask();
      if !withdrawn { return Done(Refused); }
      if dpi {
        r := RevokeUnderGuard();
        return;
      }
      r := RevokeInCore(digest);
    }

    /** Without a DPI preparation the child must be stopped before Core is asked. */
    method RevokeInCore(digest: nat) returns (r: Outcome<Answer>)
      requires Valid()
      modifies this`profileStaged, this`staged, world`trace, world`states, world`now, world`refusals
      ensures world.Valid() && (r.Done? ==> Valid() && Quiet() && Revoked(digest, r.value))
      ensures r.Done? && !old(phase.Running? && effective == Some(digest)) ==> r.value.Refused?
      ensures world.refusals >= old(world.refusals)
      ensures r.Done? && r.value.Refused? && old(phase.Running? && effective == Some(digest)) ==>
                world.refusals > old(world.refusals)
    {
      var stopped :- world.Ask();
      if !stopped { return Done(Refused); }
      r := RevokeSmartAccess(digest);
    }

    /** One service: a preparation that does not list it is kept, and the revocation goes to Core. */
    method RevokeRoutingCatalogService(digest: nat) returns (r: Outcome<Answer>)
      requires Valid()
      modifies this, recovery, guard, world
      ensures world.Valid() && (r.Done? ==> Valid() && Quiet())
      ensures r.Done? && !old(dpi) ==> Revoked(digest, r.value)
      ensures r.Done? && old(dpi) ==>
                Revoked(digest, r.value) || (r.value.Found? && WithdrawnCatalog()) || r.value.Refused?
      ensures r.Done? && !old(phase.Running? && effective == Some(digest)) ==>
                r.value.Refused? && phase == old(phase) && world.trace == old(world.trace)
      ensures world.refusals >= old(world.refusals)
      ensures r.Done? && r.value.Refused? && old(phase.Running? && effective == Some(digest)) ==>
                !hasGuard || world.refusals > old(world.refusals)
    {
      if !Serves(digest) { return Done(Refused); }
      var withdrawn :- world.Ask();
      if !withdrawn { return Done(Refused); }
      var listed :- world.Look();
      if dpi && listed {
        r := RevokeUnderGuard();
      } else if dpi {
        r := RevokeSmartAccess(digest);
      } else {
        r := RevokeInCore(digest);
      }
    }

    // ----- health ------------------------------------------------------------------------------

    /** What a recheck made of the answers it got: none counts after a cancellation, and any failure clears health. */
    twostate predicate Rechecked(before: Interrupt, probed: bool, after: Interrupt, ok: bool)
      reads this, world
    {
      && world.trace == old(world.trace) + [Interruption(before), Probe(probed), Interruption(after)]
      && !before.Cancelled?
      && (after.Cancelled? ==> egress == old(egress) && ok)
      && (!after.Cancelled? ==> egress == (probed && !after.Late?) && ok == egress)
    }

    method RecheckEgress() returns (r: Outcome<bool>)
      requires Valid()
      modifies this`egress, world`trace, world`states, world`now, world`refusals
      ensures world.Valid() && (r.Done? ==> Valid() && Quiet())
      ensures r.Done? && egress && !old(egress) ==> world.now.proved
      ensures r.Done? && (!phase.Running? || requiresBound || GuardArmed()) ==>
                r.value && egress == old(egress) && world.trace == old(world.trace)
      ensures r.Done? && phase.Running? && !requiresBound && !GuardArmed() ==>
                || (r.value && egress == old(egress) && world.trace == old(world.trace) + [Interruption(Cancelled)])
                || exists before, probed, after :: Rechecked(before, probed, after, r.value)
    {
      if !phase.Running? || requiresBound || GuardArmed() { return Done(true); }
      var before :- world.CheckInterruption();
      if before.Cancelled? { return Done(true); }
      var probed, after;
      r, probed, after := ProbeAgain(before);
      assert r.Done? ==> Rechecked(before, probed, after, r.value);
    }

    method ProbeAgain(before: Interrupt) returns (r: Outcome<bool>, probed: bool, after: Interrupt)
      requires Valid() && phase.Running?
      modifies this`egress, world`trace, world`states, world`now, world`refusals
      ensures world.Valid() && (r.Done? ==> Valid() && (egress && !old(egress) ==> world.now.proved))
      ensures r.Done? ==> world.trace == old(world.trace) + [Probe(probed), Interruption(after)]
      ensures r.Done? ==> egress == (if after.Cancelled? then old(egress) else probed && !after.Late?)
      ensures r.Done? ==> r.value == (after.Cancelled? || egress)
    {
      probed, after := false, GoOn;
      probed :- world.ProbeEgress();
      after :- world.CheckInterruption();
      if after.Cancelled? { return Done(true), probed, after; }
      egress := probed && !after.Late?;
      return Done(egress), probed, after;
    }

    /** Core is stopped behind the block. */
    ghost predicate Fenced()
      reads this, world
    {
      !phase.Running? && !phase.RecoveryRequired? && world.filters.Armed?
    }

    ghost predicate Cleared()
      reads this, world
    {
      Fenced() && !profileStaged && staged.None?
    }

    /** An expired or changed catalog stops under the guard, and nothing stays staged. */
    method WithdrawOwner() returns (r: Outcome<bool>)
      requires Valid()
      modifies this, recovery, guard, world
      ensures world.Valid() && (r.Done? ==> Valid() && Quiet() && !r.value)
      ensures world.filters == old(world.filters) || world.filters.Armed?
      ensures world.refusals >= old(world.refusals)
      ensures !recovery.invalid && hasGuard && world.refusals == old(world.refusals) ==> Cleared()
    {
      var stopped :- CancelProtectedHandoff();
      if stopped { profileStaged, staged := false, None; }
      return Done(false);
    }

    /** Stops the DPI child; if it cannot be withdrawn, Core stops under the guard. */
    method StopChild() returns (r: Outcome<bool>)
      requires Valid()
      modifies this, recovery, guard, world
      ensures world.Valid() && (r.Done? ==> Valid() && Quiet())
      ensures Yes(r) ==>
              phase == old(phase) && effective == old(effective) && dpi == old(dpi) && dpiDisabled == old(dpiDisabled)
      ensures world.filters == old(world.filters) || world.filters.Armed?
      ensures world.refusals >= old(world.refusals) + if Yes(r) then 0 else 1
      ensures No(r) && !recovery.invalid && hasGuard && world.refusals == old(world.refusals) + 1 ==> Fenced()
    {
      var stopped :- world.Ask();
      if stopped { return Done(true); }
      var _ :- CancelProtectedHandoff();
      return Done(false);
    }

    /** One retry with fresh holders, given up for this connection unless a service is proved and admitted. */
    method RetryChild() returns (r: Outcome<bool>)
      requires Valid()
      modifies this, recovery, guard, world
      ensures world.Valid() && (r.Done? ==> Valid() && Quiet())
      ensures Yes(r) ==> phase == old(phase) && effective == old(effective)
      ensures world.filters == old(world.filters) || world.filters.Armed?
      ensures world.refusals >= old(world.refusals) + if Yes(r) then 0 else 1
      ensures No(r) && !recovery.invalid && hasGuard && world.refusals <= old(world.refusals) + 2 ==> Fenced()
    {
      var admitted :- world.Ask();
      dpiDisabled := !admitted;
      if admitted { return Done(true); }
      r := StopChild();
    }

    /** The window can expire during the proof of a retry. */
    method WithdrawIfGone() returns (r: Outcome<bool>)
      requires Valid()
      modifies this, recovery, guard, world
      ensures world.Valid() && (r.Done? ==> Valid() && Quiet())
      ensures Yes(r) ==> phase == old(phase) && effective == old(effective) && dpiDisabled == old(dpiDisabled)
      ensures world.filters == old(world.filters) || world.filters.Armed?
      ensures world.refusals >= old(world.refusals) + if Yes(r) then 0 else 1
      ensures No(r) && !recovery.invalid && hasGuard && world.refusals == old(world.refusals) + 1 ==> Cleared()
    {
      var current :- world.Ask();
      if current { return Done(true); }
      r := WithdrawOwner();
    }

    method StopDeadChild() returns (r: Outcome<bool>)
      requires Valid()
      modifies this, recovery, guard, world
      ensures world.Valid() && (r.Done? ==> Valid() && Quiet())
      ensures Yes(r) ==> phase == old(phase) && effective == old(effective) && (old(dpiDisabled) ==> dpiDisabled)
      ensures world.filters == old(world.filters) || world.filters.Armed?
      ensures world.refusals >= old(world.refusals) + if Yes(r) then 0 else 1
    {
      var alive :- world.Look();
      if dpiDisabled || alive { return Done(true); }
      r := StopChild();
      if r.Done? && r.value { dpiDisabled := true; }
    }

    method RetryFailedChild() returns (r: Outcome<bool>)
      requires Valid()
      modifies this, recovery, guard, world
      ensures world.Valid() && (r.Done? ==> Valid() && Quiet())
      ensures Yes(r) ==> phase == old(phase) && effective == old(effective) && (old(dpiDisabled) ==> dpiDisabled)
      ensures world.filters == old(world.filters) || world.filters.Armed?
      ensures world.refusals >= old(world.refusals) + if Yes(r) then 0 else 1
    {
      var retryable :- world.Look();
      if dpiDisabled || !retryable { return Done(true); }
      var kept :- RetryChild();
      if !kept { return Done(false); }
      r := WithdrawIfGone();
    }

    /** Keeps the DPI child of a running profile: expiry, a dead child, and the retry after a runtime failure. */
    method MaintainWindowsLocalDpi() returns (r: Outcome<bool>)
      requires Valid()
      modifies this, recovery, guard, world
      ensures world.Valid() && (r.Done? ==> Valid() && Quiet())
      ensures Yes(r) ==> phase == old(phase) && effective == old(effective) && (old(dpiDisabled) ==> dpiDisabled)
      ensures world.filters == old(world.filters) || world.filters.Armed?
      ensures world.refusals >= old(world.refusals) + if Yes(r) then 0 else 1
    {
      if !dpi || !phase.Running? { return Done(true); }
      var kept :- WithdrawIfGone();
      if !kept { return Done(false); }
      kept :- StopDeadChild();
      if !kept { return Done(false); }
      r := RetryFailedChild();
    }
  }
}
