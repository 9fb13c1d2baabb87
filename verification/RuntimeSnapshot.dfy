/**
 The values of a runtime snapshot: what the service puts into each field, what the
 dispatcher changes, and what the strict client parser demands of the fields it has
 read. `SnapshotText` gives the text between the two and shows that it carries
 exactly these values.
 */
module RuntimeSnapshot {
  import opened Wrappers
  import opened Text
  import opened Bodies

  datatype DpiText = DpiText(services: string, admitted: string, failed: string, withdrawn: string, local: string,
                             vpn: string)
  datatype TargetText = TargetText(name: string, remaining: string, accepted: string)
  datatype ProbeText = ProbeText(stage: string, outcome: string, domain: string, code: string, elapsed: string,
                                 dns: string,
                                 target: Option<TargetText>, local: string)

  datatype Body = Body(
    phase: string, coreReady: string, canInitialize: string, canConnect: string, running: string, egress: string,
        dns: string,
    staged: string, effective: string, failure: string,
    window: string, smart: string, control: string, runtime: string, capabilities: string, coreModule: string,
        version: string,
    slipstream: string, retained: string, dpiVersion: string, retainedKnown: bool,
    dpi: Option<DpiText>, probe: Option<ProbeText>, proof: Option<string>, lease: Option<string>)

  const NONE := "none"
  const UNKNOWN := "unknown"

  // ----- what the service prints --------------------------------------------------------

  datatype HostPhase = ArtifactMissing | ArtifactReady | Initialized | ConfigStaged | Running | RecoveryRequired

  /** Aggregated holder observations of the local DPI services. */
  datatype Dpi = Dpi(services: nat, admitted: nat, failed: nat, withdrawn: nat, local: nat, vpn: nat)
  datatype Target = Target(name: string, remaining: Option<nat>, accepted: Option<bool>)
  datatype Report = Report(stage: string, outcome: string, domain: string, code: nat, elapsed: nat, dns: string,
                         target: Option<Target>, local: Option<bool>)

  /** What Core reports about itself; empty texts stand for nothing reported. */
  datatype Core = Core(window: nat, smart: nat, control: nat, runtime: nat, capabilities: string, coreModule: string,
                       version: string, slipstream: bool)

  datatype Host = Host(phase: HostPhase, hasCore: bool, profileStaged: bool, staged: string, effective: string,
                       requiresBound: bool, egress: bool, guarded: bool, failure: string, core: Core, dpiReady: bool,
                       dpi: Option<Dpi>, probe: Option<Report>)

  predicate Ready(h: Host) { !h.phase.ArtifactMissing? && !h.phase.ArtifactReady? }

  function PhaseName(p: HostPhase): string {
    match p
    case ArtifactMissing => "artifact_missing"
    case ArtifactReady => "artifact_ready"
    case Initialized => "initialized"
    case ConfigStaged => "config_staged"
    case Running => "running"
    case RecoveryRequired => "recovery_required"
  }

  function Bit(b: bool): string { if b then "1" else "0" }
  function OrNone(s: string): string { if s == "" then NONE else s }
  function Tri(b: Option<bool>): string { if b.None? then UNKNOWN else Bit(b.value) }

  function PrintDpi(d: Dpi): DpiText {
    DpiText(Decimal(d.services), Decimal(d.admitted), Decimal(d.failed), Decimal(d.withdrawn), Decimal(d.local),
        Decimal(d.vpn))
  }
  function PrintTarget(t: Target): TargetText {
    TargetText(t.name, if t.remaining.None? then UNKNOWN else Decimal(t.remaining.value), Tri(t.accepted))
  }
  function PrintProbe(p: Report): ProbeText {
    ProbeText(p.stage, p.outcome, p.domain, Decimal(p.code), Decimal(p.elapsed), p.dns,
              if p.target.Some? then Some(PrintTarget(p.target.value)) else None, Tri(p.local))
  }

  predicate IsEgressFailure(f: string) { StartsWith(f, "core_egress_") }

  /** `pending` is the phase shown instead while a lifecycle command is in progress. */
  function SnapshotBody(h: Host, pending: Option<string>): Body {
    var (now, on, c) := (pending.None?, Ready(h), h.core);
    var healthy := now && !h.guarded && h.egress;
    Body(if now then PhaseName(h.phase) else pending.value, Bit(on), Bit(now && h.hasCore),
         Bit(now && h.profileStaged && !h.requiresBound && h.phase.ConfigStaged?), Bit(now && h.phase.Running?),
         Bit(healthy), Bit(healthy), OrNone(h.staged), if now then OrNone(h.effective) else NONE,
         if !now then NONE else if h.failure != "" then h.failure
             else if h.guarded then "transition_guard_active" else NONE,
         Decimal(if on then c.window else 0), Decimal(if on then c.smart else 0), Decimal(if on then c.control else 0),
         Decimal(if on then c.runtime else 0), OrNone(if on then c.capabilities else ""),
             OrNone(if on then c.coreModule else ""),
         OrNone(if on then c.version else ""), Bit(on && c.slipstream), Bit(h.guarded), Bit(h.dpiReady), true,
         if now && h.dpi.Some? then Some(PrintDpi(h.dpi.value)) else None,
         if now && IsEgressFailure(h.failure) && h.probe.Some? then Some(PrintProbe(h.probe.value))
             else None, None, None)
  }

  /** The dispatcher's edits: another failure drops the probe block, and a pending proof hides health. */
  function WithFailure(b: Body, code: Option<string>): Body {
    b.(failure := if code.Some? then code.value else b.failure, probe := if code.Some? then None else b.probe)
  }
  function WithTransportState(b: Body, pending: bool, active: bool): Body {
    var masked := pending && b.egress == "1" && b.dns == "1";
    b.(egress := if masked then "0" else b.egress, dns := if masked then "0" else b.dns,
       proof := Some(Bit(pending)), lease := Some(Bit(active && b.phase == "running")))
  }

  // ----- the strict parser ------------------------------------------------------------------

  datatype StateView = StateView(
    phase: string, coreReady: bool, canInitialize: bool, canConnect: bool, running: bool, egress: bool,
    staged: string, effective: string, failure: string, retained: bool, retainedKnown: bool)
  datatype CoreView = CoreView(
    window: nat, smart: nat, control: nat, runtime: nat, capabilities: string, coreModule: string, version: string,
    slipstream: bool, dpiVersion: nat)
  datatype Snapshot = Snapshot(state: StateView, core: CoreView, dpi: Option<Dpi>, probe: Option<Report>,
                               proof: Option<bool>, lease: Option<bool>)

  predicate IsBit(s: string) { s == "0" || s == "1" }

  /** Three dot-separated runs of digits. */
  predicate IsCoreVersion(s: string) {
    && 0 < |s| <= 32 && (forall i :: 0 <= i < |s| ==> IsDigit(s[i]) || s[i] == '.')
    && |Split(s, '.')| == 3 && forall i :: 0 <= i < 3 ==> Split(s, '.')[i] != ""
  }
  predicate IsCapabilities(s: string) { |s| <= 4096 && IsAscii(s) && Without(s, ';') }
  predicate IsKnownPhase(s: string) {
    s == "artifact_missing" || s == "artifact_ready" || s == "connecting" || s == "busy" || s == "initialized"
    || s == "config_staged" || s == "running" || s == "recovery_required"
  }
  predicate IsPendingPhase(s: string) { s == "connecting" || s == "busy" }

  /** The failure codes the client lists; none is longer than fifty characters. */
  type Codes = set<string>
  ghost predicate Listed(codes: Codes) {
    NONE in codes && "transition_guard_active" in codes && forall c :: c in codes ==> 0 < |c| <= 50
  }

  predicate VersionsAgree(window: string, smart: string, control: string, runtime: string) {
    && IsBit(window) && IsBit(smart) && IsBit(runtime)
    && (control == "0" || control == "1" || control == "2" || control == "3" || control == "4")
    && (runtime == "1" ==> control == "4") && (smart == "1" ==> window == "1") && (control != "0" ==> window == "1")
    && (control == "2" || control == "3" || control == "4" ==> smart == "1")
  }

  predicate CoreTextsHold(b: Body) {
    && (b.coreModule == NONE || IsProfileDigest(b.coreModule)) && (b.version == NONE || IsCoreVersion(b.version))
    && IsCapabilities(b.capabilities)
  }

  predicate BitsHold(b: Body) {
    && IsBit(b.coreReady) && IsBit(b.canInitialize) && IsBit(b.canConnect) && IsBit(b.running) && IsBit(b.egress)
    && IsBit(b.retained) && IsBit(b.dns) && IsBit(b.slipstream) && IsBit(b.dpiVersion)
    && (b.proof.Some? ==> IsBit(b.proof.value)) && (b.lease.Some? ==> IsBit(b.lease.value))
  }

  predicate FieldsHold(b: Body, codes: Codes) {
    && (b.lease.Some? ==> b.proof.Some?) && CoreTextsHold(b) && BitsHold(b)
    && VersionsAgree(b.window, b.smart, b.control, b.runtime) && IsKnownPhase(b.phase) && b.failure in codes
  }

  predicate StateHolds(b: Body) {
    && (b.phase == "running" <==> b.running == "1")
    && (IsPendingPhase(b.phase) ==> b.canInitialize == "0" && b.canConnect == "0" && b.running == "0")
    && b.dns == b.egress && (b.egress == "1" ==> b.running == "1" && b.retained == "0")
    && (b.proof.None? && b.running == "1" ==> b.egress == "1")
    && (b.running == "1" || b.canConnect == "1" ==> b.coreReady == "1")
  }

  predicate DigestsHold(b: Body) {
    && (b.staged == NONE || IsProfileDigest(b.staged)) && (b.effective == NONE || IsProfileDigest(b.effective))
    && (b.canConnect == "1" ==> b.staged != NONE)
    && (if b.running == "1" then b.effective != NONE && (b.staged == NONE || b.effective == b.staged)
    else b.effective == NONE)
  }

  const MAX_COUNT: nat := 9007199254740991
  const MAX_ELAPSED: nat := 9223372036854775807

  function ParseDpi(t: DpiText): Option<Dpi> {
    var v := [ParseUnsigned(t.services, MAX_COUNT), ParseUnsigned(t.admitted, MAX_COUNT),
              ParseUnsigned(t.failed, MAX_COUNT),
              ParseUnsigned(t.withdrawn, MAX_COUNT), ParseUnsigned(t.local, MAX_COUNT),
                  ParseUnsigned(t.vpn, MAX_COUNT)];
    if v[0].None? || v[1].None? || v[2].None? || v[3].None? || v[4].None? || v[5].None? then None
    else if v[0].value > 256 || v[1].value + v[2].value + v[3].value > v[0].value then None
    else Some(Dpi(v[0].value, v[1].value, v[2].value, v[3].value, v[4].value, v[5].value))
  }

  const STAGES: seq<string> := ["tun_dns", "dns_setup", "dns_send", "dns_wait", "dns_reply", "http_setup", "connect",
                                "tls", "sending",
                                "response", "proof", "retry_wait"]
  const OUTCOMES: seq<string> := ["succeeded", "failed", "cancelled", "deadline", "timeout"]
  const DOMAINS: seq<string> := ["none", "win32", "winsock", "winhttp", "dns", "ntstatus", "http_status"]
  const DNS_STATES: seq<string> := ["unknown", "received", "exchange_failed", "reply_failed", "reply_written"]

  predicate IsTri(s: string) { s == UNKNOWN || IsBit(s) }
  function ReadTri(s: string): Option<bool> { if s == UNKNOWN then None else Some(s == "1") }

  function ParseTarget(t: TargetText): Option<Target> {
    var remaining := ParseUnsigned(t.remaining, 3000);
    var known := t.name == "owned_api" || t.name == "owned_reserve";
    if !known || (t.remaining != UNKNOWN && remaining.None?) || !IsTri(t.accepted) then None
    else Some(Target(t.name, if t.remaining == UNKNOWN then None else remaining, ReadTri(t.accepted)))
  }

  function ParseProbe(t: ProbeText): Option<Report> {
    var (code, elapsed) := (ParseUnsigned(t.code, MAX_UINT32), ParseUnsigned(t.elapsed, MAX_ELAPSED));
    var target := if t.target.Some? then ParseTarget(t.target.value) else None;
    if t.stage !in STAGES || t.outcome !in OUTCOMES || t.domain !in DOMAINS || t.dns !in DNS_STATES || code.None?
        || elapsed.None?
       || (t.target.Some? && target.None?) || !IsTri(t.local) then None
    else Some(Report(t.stage, t.outcome, t.domain, code.value, elapsed.value, t.dns, target, ReadTri(t.local)))
  }

  function FromNone(s: string): string { if s == NONE then "" else s }
  function Level(s: string): nat {
    if s == "4" then 4 else if s == "3" then 3 else if s == "2" then 2 else if s == "1" then 1 else 0
  }

  function AssembleState(b: Body): StateView {
    StateView(b.phase, b.coreReady == "1", b.canInitialize == "1", b.canConnect == "1", b.running == "1",
              b.egress == "1",
              FromNone(b.staged), FromNone(b.effective), b.failure, b.retained == "1", b.retainedKnown)
  }

  function AssembleCore(b: Body, on: bool): CoreView {
    CoreView(if on then Level(b.window) else 0, if on then Level(b.smart) else 0, if on then Level(b.control) else 0,
             if on then Level(b.runtime) else 0, if on then FromNone(b.capabilities) else "",
             if on then FromNone(b.coreModule) else "", if on then FromNone(b.version) else "",
             on && b.slipstream == "1", if on then Level(b.dpiVersion) else 0)
  }

  /** The DPI block is kept only for a running, ready, supported and proved snapshot. */
  function Assemble(b: Body, dpi: Option<Dpi>, probe: Option<Report>): Snapshot {
    Snapshot(AssembleState(b), AssembleCore(b, b.coreReady == "1"),
             if b.running == "1" && b.coreReady == "1" && b.dpiVersion == "1" && b.proof != Some("1") then dpi
                 else None, probe,
             if b.proof.Some? then Some(b.proof.value == "1")
                 else None, if b.lease.Some? then Some(b.lease.value == "1") else None)
  }

  function Parse(b: Body, codes: Codes): Option<Snapshot> {
    var dpi := if b.dpi.Some? then ParseDpi(b.dpi.value) else None;
    var probe := if b.probe.Some? then ParseProbe(b.probe.value) else None;
    var blocks := dpi.Some? == b.dpi.Some? && probe.Some? == b.probe.Some?
        && (b.probe.Some? ==> IsEgressFailure(b.failure));
    if blocks && FieldsHold(b, codes) && StateHolds(b) && DigestsHold(b) then Some(Assemble(b, dpi, probe)) else None
  }

  // ----- agreement ------------------------------------------------------------------------------

  predicate IsDigestOrEmpty(s: string) { s == "" || IsProfileDigest(s) }

  /** What the host keeps between its phase, its digests and its health. */
  predicate HostHolds(h: Host) {
    && IsDigestOrEmpty(h.staged) && IsDigestOrEmpty(h.effective)
    && (h.profileStaged ==> h.staged != "") && (h.egress ==> h.phase.Running?)
    && (if h.phase.Running? then h.effective != "" && (h.staged == "" || h.staged == h.effective)
    else h.effective == "")
    && (h.dpi.Some? ==> h.phase.Running? && DpiHolds(h.dpi.value)) && (h.probe.Some? ==> ProbeHolds(h.probe.value))
  }
  predicate DpiHolds(d: Dpi) {
    d.services <= 256 && d.admitted + d.failed + d.withdrawn <= d.services && d.local <= MAX_COUNT && d.vpn <= MAX_COUNT
  }
  predicate ProbeHolds(p: Report) {
    && p.stage in STAGES && p.outcome in OUTCOMES && p.domain in DOMAINS && p.dns in DNS_STATES
    && p.code <= MAX_UINT32 && p.elapsed <= MAX_ELAPSED
    && (p.target.Some? ==>
          && (p.target.value.name == "owned_api" || p.target.value.name == "owned_reserve")
          && (p.target.value.remaining.Some? ==> p.target.value.remaining.value <= 3000))
  }
  /** What Core's wrapper reports. */
  predicate CoreHolds(c: Core) {
    && c.window <= 1 && c.smart <= 1 && c.runtime <= 1 && c.control <= 4
    && (c.smart == 1 || c.control > 0 ==> c.window == 1) && (c.control >= 2 ==> c.smart == 1)
    && (c.runtime == 1 ==> c.control == 4)
    && IsCapabilities(c.capabilities) && c.capabilities != NONE && IsDigestOrEmpty(c.coreModule)
    && |c.version| <= 32 && forall i :: 0 <= i < |c.version| ==> IsDigit(c.version[i]) || c.version[i] == '.'
  }

  /** A snapshot as it leaves the dispatcher. */
  function Sent(h: Host, pending: Option<string>, code: Option<string>, proof: bool, active: bool): Body {
    WithTransportState(WithFailure(SnapshotBody(h, pending), code), proof, active)
  }

  function ExpectedState(h: Host, pending: Option<string>, code: Option<string>, proof: bool): StateView {
    var now := pending.None?;
    StateView(if now then PhaseName(h.phase) else pending.value, Ready(h), now && h.hasCore,
              now && h.profileStaged && !h.requiresBound && h.phase.ConfigStaged?, now && h.phase.Running?,
              now && !h.guarded && h.egress && !proof, h.staged, if now then h.effective else "",
              if code.Some? then code.value else SnapshotBody(h, pending).failure, h.guarded, true)
  }

  function ExpectedCore(h: Host): CoreView {
    var (c, on) := (h.core, Ready(h));
    CoreView(if on then c.window else 0, if on then c.smart
             else 0, if on then c.control else 0, if on then c.runtime else 0,
             if on then c.capabilities else "", if on then c.coreModule else "", if on then c.version else "",
             on && c.slipstream, if on && h.dpiReady then 1 else 0)
  }

  /** What the client then holds: the printed fields, with health hidden while the proof is pending. */
  function Expected(h: Host, pending: Option<string>, code: Option<string>, proof: bool, active: bool): Snapshot {
    var running := pending.None? && h.phase.Running?;
    Snapshot(ExpectedState(h, pending, code, proof), ExpectedCore(h), if running && h.dpiReady && !proof then h.dpi
             else None,
             if pending.None? && code.None? && IsEgressFailure(h.failure) then h.probe
                 else None, Some(proof), Some(active && running))
  }

  predicate Consistent(h: Host, pending: Option<string>) {
    HostHolds(h) && CoreHolds(h.core) && (pending.Some? ==> IsPendingPhase(pending.value))
  }

  /** The two things that are not the service's own to keep: a code the client lists, and a three-part Core version. */
  predicate Readable(h: Host, pending: Option<string>, code: Option<string>, codes: Codes) {
    && (if code.Some? then code.value else SnapshotBody(h, pending).failure) in codes
    && (Ready(h) ==> h.core.version == "" || IsCoreVersion(h.core.version))
  }

  predicate Sendable(h: Host, pending: Option<string>, code: Option<string>, codes: Codes) {
    Consistent(h, pending) && Readable(h, pending, code, codes)
  }

  lemma DpiAgrees(d: Dpi)
    requires DpiHolds(d)
    ensures ParseDpi(PrintDpi(d)) == Some(d)
  {
    DecimalRoundTrip(d.services);
    DecimalRoundTrip(d.admitted);
    DecimalRoundTrip(d.failed);
    DecimalRoundTrip(d.withdrawn);
    DecimalRoundTrip(d.local);
    DecimalRoundTrip(d.vpn);
  }

  lemma RemainingAgrees(n: nat)
    requires n <= 3000
    ensures Decimal(n) != UNKNOWN && ParseUnsigned(Decimal(n), 3000) == Some(n)
  {
    DecimalRoundTrip(n);
    assert IsDigit(Decimal(n)[0]);
    assert !IsDigit(UNKNOWN[0]);
  }

  lemma TargetAgrees(t: Target)
    requires (t.name == "owned_api" || t.name == "owned_reserve") && (t.remaining.Some? ==> t.remaining.value <= 3000)
    ensures ParseTarget(PrintTarget(t)) == Some(t)
  {
    if t.remaining.Some? { RemainingAgrees(t.remaining.value); }
  }

  lemma ProbeAgrees(p: Report)
    requires ProbeHolds(p)
    ensures ParseProbe(PrintProbe(p)) == Some(p)
  {
    DecimalRoundTrip(p.code);
    DecimalRoundTrip(p.elapsed);
    if p.target.Some? { TargetAgrees(p.target.value); }
  }

  lemma PhaseNames(p: HostPhase)
    ensures IsKnownPhase(PhaseName(p)) && !IsPendingPhase(PhaseName(p)) && |PhaseName(p)| <= 17
    ensures PhaseName(p) == "running" <==> p.Running?
  {
    assert PhaseName(p) != "connecting" && PhaseName(p) != "busy" by {
      assert |"connecting"| == 10 && |"busy"| == 4;
      match p
      case ArtifactMissing => assert |PhaseName(p)| == 16;
      case ArtifactReady => assert |PhaseName(p)| == 14;
      case Initialized => assert |PhaseName(p)| == 11;
      case ConfigStaged => assert |PhaseName(p)| == 13;
      case Running => assert |PhaseName(p)| == 7;
      case RecoveryRequired => assert |PhaseName(p)| == 17;
    }
  }

  lemma Digests(s: string)
    requires IsDigestOrEmpty(s)
    ensures (OrNone(s) == NONE <==> s == "") && FromNone(OrNone(s)) == s && |OrNone(s)| <= 64
    ensures OrNone(s) == NONE || IsProfileDigest(OrNone(s))
  {
  }

  lemma CoreTexts(c: Core, on: bool)
    requires CoreHolds(c) && (on ==> c.version == "" || IsCoreVersion(c.version))
    ensures var m := OrNone(if on then c.coreModule else ""); (m == NONE || IsProfileDigest(m)) && |m| <= 64
    ensures var v := OrNone(if on then c.version else ""); (v == NONE || IsCoreVersion(v)) && |v| <= 32
    ensures var t := OrNone(if on then c.capabilities else ""); IsCapabilities(t) && |t| <= 4096
  {
    Digests(c.coreModule);
    assert IsCapabilities(NONE);
  }

  lemma CoreTextsBack(c: Core)
    requires CoreHolds(c)
    ensures FromNone(OrNone(c.coreModule)) == c.coreModule && FromNone(OrNone(c.version)) == c.version
    ensures FromNone(OrNone(c.capabilities)) == c.capabilities
  {
    Digests(c.coreModule);
    if c.version != "" { assert c.version[0] != NONE[0]; }
  }

  lemma Versions(c: Core, on: bool)
    requires CoreHolds(c)
    ensures VersionsAgree(Decimal(if on then c.window else 0), Decimal(if on then c.smart else 0),
                          Decimal(if on then c.control else 0),
                          Decimal(if on then c.runtime else 0))
  {
  }

  lemma SentState(h: Host, pending: Option<string>, code: Option<string>, proof: bool, active: bool, codes: Codes)
    requires Sendable(h, pending, code, codes)
    ensures var b := Sent(h, pending, code, proof, active); StateHolds(b) && DigestsHold(b)
  {
    PhaseNames(h.phase);
    Digests(h.staged);
    Digests(h.effective);
  }

  lemma SentTexts(h: Host, pending: Option<string>, code: Option<string>, proof: bool, active: bool)
    requires CoreHolds(h.core) && (Ready(h) ==> h.core.version == "" || IsCoreVersion(h.core.version))
    ensures var b := Sent(h, pending, code, proof, active);
            && CoreTextsHold(b) && |b.capabilities| <= 4096 && |b.coreModule| <= 64 && |b.version| <= 32
            && VersionsAgree(b.window, b.smart, b.control, b.runtime)
  {
    CoreTexts(h.core, Ready(h));
    Versions(h.core, Ready(h));
  }

  lemma SentTokens(h: Host, pending: Option<string>, code: Option<string>, proof: bool, active: bool, codes: Codes)
    requires Sendable(h, pending, code, codes) && Listed(codes)
    ensures var b := Sent(h, pending, code, proof, active);
            && IsKnownPhase(b.phase) && b.failure in codes
            && |b.phase| <= 17 && |b.staged| <= 64 && |b.effective| <= 64 && |b.failure| <= 50
  {
    PhaseNames(h.phase);
    Digests(h.staged);
    Digests(h.effective);
  }

  lemma SentFields(h: Host, pending: Option<string>, code: Option<string>, proof: bool, active: bool, codes: Codes)
    requires Sendable(h, pending, code, codes) && Listed(codes)
    ensures FieldsHold(Sent(h, pending, code, proof, active), codes)
  {
    SentTexts(h, pending, code, proof, active);
    SentTokens(h, pending, code, proof, active, codes);
  }

  /** The blocks a sent snapshot carries read back as the observations they were printed from. */
  lemma SentDpi(h: Host, pending: Option<string>, code: Option<string>, proof: bool, active: bool)
    requires HostHolds(h)
    ensures var b := Sent(h, pending, code, proof, active);
            (b.dpi.Some? <==> pending.None? && h.dpi.Some?) && (b.dpi.Some? ==> ParseDpi(b.dpi.value) == h.dpi)
  {
    if h.dpi.Some? { DpiAgrees(h.dpi.value); }
  }

  lemma SentProbe(h: Host, pending: Option<string>, code: Option<string>, proof: bool, active: bool)
    requires HostHolds(h)
    ensures var b := Sent(h, pending, code, proof, active);
            && (b.probe.Some? <==> pending.None? && code.None? && IsEgressFailure(h.failure) && h.probe.Some?)
            && (b.probe.Some? ==> ParseProbe(b.probe.value) == h.probe && b.failure == h.failure)
  {
    if h.probe.Some? { ProbeAgrees(h.probe.value); }
  }

  lemma SentStateView(h: Host, pending: Option<string>, code: Option<string>, proof: bool, active: bool)
    requires HostHolds(h)
    ensures AssembleState(Sent(h, pending, code, proof, active)) == ExpectedState(h, pending, code, proof)
  {
    Digests(h.staged);
    Digests(h.effective);
  }

  lemma CoreViewOf(b: Body, c: Core)
    requires CoreHolds(c) && b.window == Decimal(c.window) && b.smart == Decimal(c.smart)
             && b.control == Decimal(c.control)
    requires b.runtime == Decimal(c.runtime) && b.capabilities == OrNone(c.capabilities)
             && b.coreModule == OrNone(c.coreModule)
    requires b.version == OrNone(c.version) && b.slipstream == Bit(c.slipstream) && IsBit(b.dpiVersion)
    ensures AssembleCore(b, true) == CoreView(c.window, c.smart, c.control, c.runtime, c.capabilities, c.coreModule,
                                              c.version, c.slipstream,
                                              if b.dpiVersion == "1" then 1 else 0)
  {
    CoreTextsBack(c);
  }

  lemma SentCoreView(h: Host, pending: Option<string>, code: Option<string>, proof: bool, active: bool)
    requires CoreHolds(h.core)
    ensures AssembleCore(Sent(h, pending, code, proof, active), Ready(h)) == ExpectedCore(h)
  {
    if Ready(h) { CoreViewOf(Sent(h, pending, code, proof, active), h.core); }
  }

  lemma SentFlags(h: Host, pending: Option<string>, code: Option<string>, proof: bool, active: bool)
    requires pending.Some? ==> IsPendingPhase(pending.value)
    ensures var b := Sent(h, pending, code, proof, active);
            && (b.coreReady == "1" <==> Ready(h)) && (b.running == "1" <==> pending.None? && h.phase.Running?)
            && (b.dpiVersion == "1" <==> h.dpiReady) && b.proof == Some(Bit(proof))
            && b.lease == Some(Bit(active && pending.None? && h.phase.Running?))
  {
    PhaseNames(h.phase);
  }

  lemma SentAssembles(h: Host, pending: Option<string>, code: Option<string>, proof: bool, active: bool)
    requires Consistent(h, pending)
    ensures Assemble(Sent(h, pending, code, proof, active), if pending.None? then h.dpi else None,
                     if pending.None? && code.None? && IsEgressFailure(h.failure) then h.probe else None)
            == Expected(h, pending, code, proof, active)
  {
    SentStateView(h, pending, code, proof, active);
    SentCoreView(h, pending, code, proof, active);
    SentFlags(h, pending, code, proof, active);
  }

  /** Every snapshot the service can send is accepted, and gives back exactly what was printed. */
  lemma SentIsAccepted(h: Host, pending: Option<string>, code: Option<string>, proof: bool, active: bool, codes: Codes)
    requires Sendable(h, pending, code, codes) && Listed(codes)
    ensures Parse(Sent(h, pending, code, proof, active), codes) == Some(Expected(h, pending, code, proof, active))
  {
    SentState(h, pending, code, proof, active, codes);
    SentFields(h, pending, code, proof, active, codes);
    SentDpi(h, pending, code, proof, active);
    SentProbe(h, pending, code, proof, active);
    SentAssembles(h, pending, code, proof, active);
  }

  /**
   A consistent service's snapshot is accepted exactly when its failure is listed and its Core version has three parts.
   */
  lemma AcceptedExactly(h: Host, pending: Option<string>, code: Option<string>, proof: bool, active: bool, codes: Codes)
    requires Consistent(h, pending) && Listed(codes)
    ensures Parse(Sent(h, pending, code, proof, active), codes)
            == if Readable(h, pending, code, codes) then Some(Expected(h, pending, code, proof, active)) else None
  {
    if Readable(h, pending, code, codes) { SentIsAccepted(h, pending, code, proof, active, codes); }
  }

  // ----- the DPI block's counts -------------------------------------------------------------

  /** One holder's observation; a withdrawal can be complete only when withdrawn. */
  datatype HolderState = Unpublished | Admitted | Failed | Withdrawn(completed: bool)
  datatype Holder = Holder(state: HolderState, local: nat, vpn: nat)

  /** The aggregation stops at the first missing observation or overflowing sum. */
  method Aggregate(holders: seq<Option<Holder>>) returns (d: Option<Dpi>)
    ensures d.Some? ==> d.value.services == |holders| && (|holders| <= 256 ==> DpiHolds(d.value))
    ensures d.Some? ==> forall i :: 0 <= i < |holders| ==> holders[i].Some?
  {
    var r := Dpi(0, 0, 0, 0, 0, 0);
    for i := 0 to |holders|
      invariant r.services == i && r.admitted + r.failed + r.withdrawn <= i && r.local <= MAX_COUNT
                && r.vpn <= MAX_COUNT
      invariant forall k :: 0 <= k < i ==> holders[k].Some?
    {
      if holders[i].None? { return None; }
      var h := holders[i].value;
      r := r.(services := r.services + 1, admitted := r.admitted + (if h.state.Admitted? then 1 else 0),
              failed := r.failed + (if h.state.Failed? then 1 else 0),
              withdrawn := r.withdrawn + (if h.state.Withdrawn? && h.state.completed then 1 else 0));
      if h.local > MAX_COUNT - r.local || h.vpn > MAX_COUNT - r.vpn { return None; }
      r := r.(local := r.local + h.local, vpn := r.vpn + h.vpn);
    }
    return Some(r);
  }
}
