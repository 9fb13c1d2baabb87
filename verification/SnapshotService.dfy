/** What the client makes of the snapshots of a real service: its field names, its failure codes, its lifecycle. */
module SnapshotService {
  import opened Wrappers
  import opened Text
  import opened FieldText
  import opened Bodies
  import opened SnapshotNames
  import opened RuntimeSnapshot
  import opened SnapshotText
  import opened SnapshotEdits
  import opened SnapshotAgreement
  import opened FailureCodes
  import Hosting = RuntimeHosting

  function Known(): Codes { set c | c in CODES }

  lemma Named()
    ensures Naming(Name)
  {
    forall k ensures IsName(Name(k)) && |Name(k)| <= 36 { NameClean(k); }
    forall a, b | Name(a) == Name(b) ensures a == b { NameInjective(a, b); }
  }

  lemma KnownIsListed()
    ensures Listed(Known())
  {
    SnapshotDefaults();
    CodesKnown();
  }

  /** The failures a service can have. */
  predicate Serves(h: Host, codes: seq<string>) {
    (h.failure == "" || h.failure in SERVICE) && forall i :: 0 <= i < |codes| ==> codes[i] in SERVICE
  }

  lemma ServesCodes(h: Host, codes: seq<string>)
    requires Serves(h, codes)
    ensures Coded(h, codes)
  {
    if h.failure != "" { ServiceCodes(h.failure); }
    forall i | 0 <= i < |codes| ensures IsCode(codes[i]) { ServiceCodes(codes[i]); }
  }

  /** The failure a sent snapshot shows. */
  function ShownFailure(h: Host, pending: Option<string>, codes: seq<string>): string {
    if codes != [] then codes[|codes| - 1] else SnapshotBody(h, pending).failure
  }

  lemma ShownIsKnown(h: Host, pending: Option<string>, codes: seq<string>)
    requires Serves(h, codes)
    ensures ShownFailure(h, pending, codes) in Known() <==> ShownFailure(h, pending, codes) != UNLISTED
  {
    SnapshotDefaults();
    CodesKnown();
    if ShownFailure(h, pending, codes) in SERVICE { ServiceCodes(ShownFailure(h, pending, codes)); }
  }

  predicate VersionReads(h: Host) { Ready(h) ==> h.core.version == "" || IsCoreVersion(h.core.version) }

  /** The text the dispatcher sends, and what the client makes of it. */
  function Message(h: Host, pending: Option<string>, codes: seq<string>, proof: bool, active: bool): string {
    SentText(Name, h, pending, codes, proof, active)
  }
  function Received(h: Host, pending: Option<string>, codes: seq<string>, proof: bool, active: bool): Option<Snapshot> {
    ParseText(Name, Message(h, pending, codes, proof, active), Known())
  }

  lemma ReceivedIs(h: Host, pending: Option<string>, codes: seq<string>, proof: bool, active: bool)
    requires Consistent(h, pending) && Serves(h, codes)
    ensures Received(h, pending, codes, proof, active)
            == Parse(Sent(h, pending, LastCode(codes), proof, active), Known())
  {
    Named();
    ServesCodes(h, codes);
    SentReadsBack(Name, h, pending, codes, proof, active);
  }

  lemma ReadableIs(h: Host, pending: Option<string>, codes: seq<string>)
    requires Serves(h, codes)
    ensures Readable(h, pending, LastCode(codes), Known()) <==>
            ShownFailure(h, pending, codes) != UNLISTED && VersionReads(h)
  {
    ShownIsKnown(h, pending, codes);
  }

  /**
   Every snapshot text is accepted as exactly what was printed, but for one failure code and for odd Core versions.
   */
  lemma SnapshotExact(h: Host, pending: Option<string>, codes: seq<string>, proof: bool, active: bool)
    requires Consistent(h, pending) && Serves(h, codes)
    ensures Received(h, pending, codes, proof, active)
            == if ShownFailure(h, pending, codes) != UNLISTED && VersionReads(h)
               then Some(Expected(h, pending, LastCode(codes), proof, active)) else None
  {
    ReceivedIs(h, pending, codes, proof, active);
    KnownIsListed();
    ReadableIs(h, pending, codes);
    AcceptedExactly(h, pending, LastCode(codes), proof, active, Known());
  }

  // ----- the two refusals -------------------------------------------------------------------------

  const NO_CORE := Core(0, 0, 0, 0, "", "", "", false)

  /** Core could not be given its event context: the service's own snapshot says so, and its client refuses it. */
  const UNSEEN_FAILURE := Host(ArtifactReady, true, false, "", "", false, false, false, UNLISTED, NO_CORE, false, None,
      None)

  lemma FailureRefused(proof: bool, active: bool)
    ensures Consistent(UNSEEN_FAILURE, None) && Serves(UNSEEN_FAILURE, [])
    ensures Received(UNSEEN_FAILURE, None, [], proof, active).None?
  {
    SnapshotExact(UNSEEN_FAILURE, None, [], proof, active);
  }

  /** A Core that reports a two-part version, which the service prints and its client refuses. */
  const TWO_PARTS := Host(Initialized, true, false, "", "", false, false, false, "", NO_CORE.(version := "1.2"), false,
      None, None)

  lemma TwoParts()
    ensures !IsCoreVersion("1.2")
  {
    assert Join(["1", "2"], '.') == "1.2";
    SplitJoin(["1", "2"], '.');
  }

  lemma TwoPartsConsistent()
    ensures Consistent(TWO_PARTS, None) && Serves(TWO_PARTS, []) && !VersionReads(TWO_PARTS)
  {
    TwoParts();
  }

  lemma VersionRefused(proof: bool, active: bool)
    ensures Consistent(TWO_PARTS, None) && Serves(TWO_PARTS, []) && Received(TWO_PARTS, None, [], proof, active).None?
  {
    TwoPartsConsistent();
    SnapshotExact(TWO_PARTS, None, [], proof, active);
  }

  // ----- every reachable host ---------------------------------------------------------------------

  function PhaseOf(p: Hosting.Phase): HostPhase {
    match p
    case ArtifactReady => HostPhase.ArtifactReady
    case Initialized => HostPhase.Initialized
    case ConfigStaged => HostPhase.ConfigStaged
    case Running => HostPhase.Running
    case RecoveryRequired => HostPhase.RecoveryRequired
  }

  function DigestOf(digest: nat -> string, d: Option<nat>): string { if d.None? then "" else digest(d.value) }

  /** What the snapshot prints of a host, given what Core, the holders and the last probe reported. */
  ghost function HostOf(host: Hosting.RuntimeHost, digest: nat -> string, failure: string, core: Core, dpiReady: bool,
                        observed: Option<Dpi>, probe: Option<Report>): Host
    reads host, host.guard
  {
    Host(PhaseOf(host.phase), true, host.profileStaged, DigestOf(digest, host.staged), DigestOf(digest, host.effective),
         host.requiresBound,
         host.egress, host.GuardArmed(), failure, core, dpiReady, if host.phase.Running? && host.dpi then observed
             else None, probe)
  }

  lemma HostIsConsistent(host: Hosting.RuntimeHost, digest: nat -> string, failure: string, core: Core, dpiReady: bool,
                         observed: Option<Dpi>, probe: Option<Report>)
    requires host.Valid() && forall d :: IsProfileDigest(digest(d))
    requires (observed.Some? ==> DpiHolds(observed.value)) && (probe.Some? ==> ProbeHolds(probe.value))
    ensures HostHolds(HostOf(host, digest, failure, core, dpiReady, observed, probe))
  {
    assert host.staged.Some? ==> IsProfileDigest(digest(host.staged.value));
    assert host.effective.Some? ==> IsProfileDigest(digest(host.effective.value));
  }

  /** The lifecycle's invariant is what the snapshot needs: every host it allows sends what its client can read. */
  lemma ReachableHostIsRead(host: Hosting.RuntimeHost, digest: nat -> string, failure: string, core: Core,
                            dpiReady: bool,
                            observed: Option<Dpi>, probe: Option<Report>, pending: Option<string>, codes: seq<string>,
                                proof: bool, active: bool)
    requires host.Valid() && (forall d :: IsProfileDigest(digest(d))) && CoreHolds(core)
    requires (observed.Some? ==> DpiHolds(observed.value)) && (probe.Some? ==> ProbeHolds(probe.value))
    requires pending.Some? ==> IsPendingPhase(pending.value)
    requires Serves(HostOf(host, digest, failure, core, dpiReady, observed, probe), codes)
    ensures var h := HostOf(host, digest, failure, core, dpiReady, observed, probe);
            Received(h, pending, codes, proof, active)
            == if ShownFailure(h, pending, codes) != UNLISTED && VersionReads(h)
               then Some(Expected(h, pending, LastCode(codes), proof, active)) else None
  {
    HostIsConsistent(host, digest, failure, core, dpiReady, observed, probe);
    SnapshotExact(HostOf(host, digest, failure, core, dpiReady, observed, probe), pending, codes, proof, active);
  }
}
