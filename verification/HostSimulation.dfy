/** The runtime host behaves as the dispatcher's machine assumes: its calls are legal calls of the abstract host. */
module HostSimulation {
  import opened Wrappers
  import opened Dispatcher
  import Hosting = RuntimeHosting

  function Up(host: Hosting.RuntimeHost): bool
    reads host
  {
    host.phase.Running? || host.phase.RecoveryRequired?
  }

  /** The host as the dispatcher sees it; `core` is the request whose Core start is not confirmed stopped. */
  function Seen(host: Hosting.RuntimeHost, core: Option<Id>): Host
    reads host
  {
    Host(if host.phase.Running? then Running else if host.phase.RecoveryRequired? then RecoveryRequired else Idle, core,
         if host.effective.Some? then host.effective.value
             else 0, host.requiresBound, host.egress, host.dpi, host.telegram)
  }

  /** A host back in an idle phase has confirmed the stop: `Quiet` promises that Core is not live then. */
  function Left(host: Hosting.RuntimeHost, core: Option<Id>): Option<Id>
    reads host
  {
    if Up(host) then core else None
  }

  /**
   What `RuntimeRuns.Handle` promises of every request but a connect, whatever the outside
   answers, makes it a legal host call of the dispatcher's machine.
   */
  twostate lemma QuietIsLegal(host: Hosting.RuntimeHost, core: Option<Id>)
    requires old(host.Valid()) && host.Valid() && host.Quiet() && (core.Some? ==> old(Up(host)))
    ensures LegalCall(old(Seen(host, core)), Seen(host, Left(host, core)))
    ensures Called(old(Seen(host, core)), Seen(host, Left(host, core))) == Seen(host, Left(host, core))
  {
  }

  // ----- connects ------------------------------------------------------------------------------

  /** How the dispatcher's machine names the end of a connect that was let into Core. */
  ghost function Ending(host: Hosting.RuntimeHost, ok: bool): ConnectOutcome
    reads host, host.world
  {
    if host.phase.Running? then if ok then Committed(true) else GuardFailed(true)
    else if host.phase.RecoveryRequired? then RollbackFailed(!host.world.now.live)
    else RolledBack
  }

  /** The request that Core may still run for afterwards. */
  ghost function Holder(host: Hosting.RuntimeHost, id: Id): Option<Id>
    reads host, host.world
  {
    if host.phase.Running? || (host.phase.RecoveryRequired? && host.world.now.live) then Some(id) else None
  }

  /** Equal but for the prepared plans a connect leaves behind. */
  predicate SameButPlans(h: Host, k: Host) { k.(dpi := h.dpi, telegram := h.telegram) == h }

  /** The operation the dispatcher installs for this connect. */
  predicate Plans(op: Op, expected: nat, armed: bool, network: bool) {
    op.kind.digest == expected && (armed ==> op.kind.protectedHandoff) && (network ==> op.kind.dpiOwner)
  }

  /**
   A connect of an idle host ends as one of the machine's outcomes, a failed hand-back only where
   the machine allows it; a connect of any other host changes nothing the machine sees.
   */
  twostate lemma ConnectIsModelled(host: Hosting.RuntimeHost, id: Id, op: Op, expected: nat, network: bool, ok: bool)
    requires old(host.Valid()) && host.Valid() && host.Connects(expected, true, network, ok)
    requires Plans(op, expected, old(host.GuardArmed()), network)
    ensures !old(Up(host)) && !old(host.phase.ArtifactReady?) ==>
              && SameButPlans(Seen(host, Holder(host, id)),
                              Connected(old(Seen(host, None)).(core := Some(id)), op, Ending(host, ok)))
              && (ok <==> Ending(host, ok).Committed?)
              && (Ending(host, ok).GuardFailed? ==> MayFailGuard(op, old(Seen(host, None))))
    ensures old(Up(host) || host.phase.ArtifactReady?) ==>
              forall core :: SameButPlans(Seen(host, core), old(Seen(host, core)))
  {
  }

  /** And no holder means no live Core, under a journal that says so. */
  lemma HolderMeans(host: Hosting.RuntimeHost, id: Id)
    requires host.Valid() && !host.phase.ArtifactReady?
    ensures Holder(host, id).None? ==> !host.world.now.live
    ensures host.phase.Running? ==> host.world.now.live && host.recovery.stage.Committed?
  {
  }
}
