/** Whole lives of the service: arbitrary requests, arbitrary foreign answers, a crash at any call, restarts. */
module RuntimeRuns {
  import opened Wrappers
  import opened Journal
  import opened RuntimeTrace
  import opened OutsideWorld
  import opened RuntimeHosting

  datatype Request =
    | Initialize | Stage(digest: nat, bound: bool) | Invalidate
    | Connect(digest: nat, network: bool) | ConnectBound(digest: nat, network: bool)
        | Replace(digest: nat, network: bool)
    | Disconnect(explicit: bool) | CancelHandoff | Shutdown
    | Promote(digest: nat) | RevokeLease(digest: nat)
    | RevokeSmartAccess(digest: nat) | ControlSmartAccess(digest: nat) | RevokeCatalog(digest: nat)
    | RevokeCatalogService(digest: nat)
    | Recheck | Maintain

  predicate Starts(q: Request) { q.Connect? || q.ConnectBound? || q.Replace? }

  predicate Answered(a: Answer) { a.NotFound? || a.Found? }

  method Handle(host: RuntimeHost, q: Request) returns (r: Outcome<bool>)
    requires host.Valid()
    modifies host, host.recovery, host.guard, host.world
    ensures host.world.Valid() && (r.Done? ==> host.Valid() && (!Starts(q) ==> host.Quiet()))
  {
    match q
    case Initialize => r := host.Initialize();
    case Stage(digest, bound) => r := host.StageProfile(digest, bound);
    case Invalidate => r := host.InvalidateProfile();
    case Connect(digest, network) => r := host.Connect(digest, network);
    case ConnectBound(digest, network) => r := host.ConnectWithIdentity(digest, network);
    case Replace(digest, network) => r := host.ReplaceManagedProfile(digest, network);
    case Disconnect(explicit) => r := host.Disconnect(explicit);
    case CancelHandoff => r := host.CancelProtectedHandoff();
    case Shutdown => r := host.Shutdown();
    case Promote(digest) => r := host.PromoteTransportLease(digest);
    case RevokeLease(digest) => r := host.RevokeTransportLease(digest);
    case RevokeSmartAccess(digest) =>
      var answer :- host.RevokeSmartAccess(digest);
      r := Done(Answered(answer));
    case ControlSmartAccess(digest) => r := host.ControlSmartAccess(digest);
    case RevokeCatalog(digest) =>
      var answer :- host.RevokeRoutingCatalog(digest);
      r := Done(Answered(answer));
    case RevokeCatalogService(digest) =>
      var answer :- host.RevokeRoutingCatalogService(digest);
      r := Done(Answered(answer));
    case Recheck => r := host.RecheckEgress();
    case Maintain => r := host.MaintainWindowsLocalDpi();
  }

  /** Ends the request, so that an explicit Disconnect no longer licenses a removal. */
  method Finish(host: RuntimeHost)
    requires host.Valid()
    modifies host.world`trace, host.world`states, host.world`now
    ensures host.Valid()
  {
    host.world.Log(Return);
  }

  /** What holds of the world at every moment of every life. */
  ghost predicate CrashSafe(world: World)
    reads world
  {
    && Lawful(world.trace)
    && ((exists i :: LiveSince(world.trace, i)) ==>
          world.file.Some? && Parse(world.file.value).Some? && MayHaveCore(Parse(world.file.value).value.stage))
    && world.filters == FiltersAfter(world.initial, world.trace)
    && (!world.filters.Armed? ==>
          forall i :: 0 <= i <= |world.trace| && FiltersAfter(world.initial, world.trace[..i]).Armed? ==>
            exists j :: i <= j && Lifts(world.trace, j))
  }

  lemma ValidIsCrashSafe(world: World)
    requires world.Valid()
    ensures CrashSafe(world)
  {
    ChronicleLawful(world.trace, world.states, world.initial, world.now, world.filters);
    if i :| LiveSince(world.trace, i) {
      LiveMeans(world.trace, i);
      JournalRoundTrip(world.entry);
    }
    forall i | 0 <= i <= |world.trace| && FiltersAfter(world.initial, world.trace[..i]).Armed? && !world.filters.Armed?
      ensures exists j :: i <= j && Lifts(world.trace, j)
    {
      BlockFallsLicensed(world.initial, world.trace, i);
    }
  }

  /**
   A service life: each crash loses the host and the next request finds a fresh one.
   Armed filters are gone afterwards only if a removal in this life was licensed and committed.
   */
  method Serve(world: World, hasGuard: bool, requests: seq<Request>)
    requires world.Valid()
    modifies world, world.mark
    ensures world.Valid() && CrashSafe(world) && old(world.trace) <= world.trace
    ensures old(world.filters).Armed? && !world.filters.Armed? ==>
              exists j :: |old(world.trace)| <= j && Lifts(world.trace, j)
  {
    ValidIsCrashSafe(world);
    world.mark.past := world.trace;
    var host := new RuntimeHost(world, hasGuard);
    var i := 0;
    while i < |requests|
      invariant 0 <= i <= |requests| && host.Valid() && host.world == world && world.mark.past == old(world.trace)
      invariant fresh(host) && fresh(host.recovery) && fresh(host.guard)
    {
      var r := Handle(host, requests[i]);
      if r.Done? {
        Finish(host);
      } else {
        host := new RuntimeHost(world, hasGuard);
      }
      i := i + 1;
    }
    ValidIsCrashSafe(world);
    assert world.trace[..|old(world.trace)|] == old(world.trace);
  }

  /**
   Whatever an earlier process left behind, and wherever it died: a service that nothing refuses recovers, stages and
   runs the profile behind a lifted block, and a disconnect leaves the network as it was.
   */
  method WellServed(world: World, hasGuard: bool, digest: nat, network: bool) returns (host: RuntimeHost)
    requires world.Valid()
    modifies world
    ensures fresh(host) && host.world == world && world.Valid()
    ensures world.refusals == old(world.refusals) ==>
              && host.Valid() && host.Serves(digest) && host.egress && host.recovery.stage.Committed? && world.now.live
              && (hasGuard ==> world.filters.Off?)
  {
    host := new RuntimeHost(world, hasGuard);
    var r := host.StageProfile(digest, false);
    if Yes(r) { r := host.Connect(digest, network); }
  }

  /** And the way back. */
  method WellLeft(host: RuntimeHost) returns (r: Outcome<bool>)
    requires host.Valid() && host.phase.Running?
    modifies host, host.recovery, host.guard, host.world
    ensures host.world.Valid() && (r.Done? ==> host.Valid())
    ensures host.world.refusals == old(host.world.refusals) ==>
              && Yes(r) && !host.phase.Running? && !host.world.now.live && host.world.now.stage.Clean?
              && (host.hasGuard ==> host.world.filters.Off?)
  {
    r := host.Disconnect(true);
  }
}
