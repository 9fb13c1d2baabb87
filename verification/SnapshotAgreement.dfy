/** The snapshot the service sends and the snapshot the client reads are the same. */
module SnapshotAgreement {
  import opened Wrappers
  import opened Text
  import opened FieldText
  import opened SnapshotNames
  import opened RuntimeSnapshot
  import opened SnapshotText
  import opened SnapshotReading
  import opened SnapshotEdits

  /** The text as it leaves the dispatcher. */
  function SentText(n: Names, h: Host, pending: Option<string>, codes: seq<string>, proof: bool, active: bool): string {
    WithTransportText(n, FailuresText(n, TextOf(n, SnapshotBody(h, pending)), codes), proof, active)
  }

  predicate IsCode(c: string) { IsValue(c) && |c| <= 50 }
  /** The failures are codes, or nothing. */
  predicate Coded(h: Host, codes: seq<string>) {
    (h.failure == "" || IsCode(h.failure)) && forall i :: 0 <= i < |codes| ==> IsCode(codes[i])
  }

  // ----- the printed values hold no separator ---------------------------------------------------

  lemma DecimalIs(v: nat)
    ensures IsValue(Decimal(v))
  {
    assert !IsDigit(';');
  }

  lemma DpiPlain(d: Dpi)
    ensures AreValues(DpiValues(PrintDpi(d)))
  {
    DecimalIs(d.services);
    DecimalIs(d.admitted);
    DecimalIs(d.failed);
    DecimalIs(d.withdrawn);
    DecimalIs(d.local);
    DecimalIs(d.vpn);
  }

  lemma TokensPlain()
    ensures AreValues(OUTCOMES) && AreValues(DOMAINS) && AreValues(DNS_STATES)
  {
  }

  lemma StagesPlain()
    ensures AreValues(STAGES)
  {
  }

  lemma TargetPlain(t: Target)
    requires t.name == "owned_api" || t.name == "owned_reserve"
    ensures AreValues(TargetValues(PrintTarget(t)))
  {
    if t.remaining.Some? { DecimalIs(t.remaining.value); }
  }

  lemma ProbePlain(p: Report)
    requires ProbeHolds(p)
    ensures ProbeAreValues(PrintProbe(p))
  {
    TokensPlain();
    StagesPlain();
    DecimalIs(p.code);
    DecimalIs(p.elapsed);
    if p.target.Some? { TargetPlain(p.target.value); }
  }

  lemma DigestPlain(s: string)
    requires IsDigestOrEmpty(s)
    ensures IsValue(OrNone(s))
  {
    if s != "" { assert !IsHexDigit(';'); }
  }

  lemma CorePlain(c: Core)
    requires CoreHolds(c)
    ensures IsValue(OrNone(c.capabilities)) && IsValue(OrNone(c.coreModule)) && IsValue(OrNone(c.version))
  {
    DigestPlain(c.coreModule);
    assert !IsDigit(';');
  }

  predicate IsShort(s: string) { IsValue(s) && |s| <= 64 }
  predicate StateShort(b: Body) {
    && IsShort(b.phase) && IsShort(b.coreReady) && IsShort(b.canInitialize) && IsShort(b.canConnect)
    && IsShort(b.running)
    && IsShort(b.egress) && IsShort(b.dns) && IsShort(b.staged) && IsShort(b.effective) && IsShort(b.failure)
  }
  predicate CoreShort(b: Body) {
    && IsShort(b.window) && IsShort(b.smart) && IsShort(b.control) && IsShort(b.runtime) && IsShort(b.coreModule)
    && IsShort(b.version)
    && IsShort(b.slipstream) && IsShort(b.retained) && IsShort(b.dpiVersion) && IsValue(b.capabilities)
    && |b.capabilities| <= 4096
  }
  /** Every value is printable, and all but the capabilities are short. */
  predicate Printable(b: Body) {
    && StateShort(b) && CoreShort(b) && (b.proof.Some? ==> IsShort(b.proof.value))
    && (b.lease.Some? ==> b.proof.Some? && IsShort(b.lease.value))
    && (b.dpi.Some? ==> AreValues(DpiValues(b.dpi.value))) && (b.probe.Some? ==> ProbeAreValues(b.probe.value))
  }

  lemma PrintableTexts(b: Body)
    requires Printable(b)
    ensures AreTexts(b)
  {
  }

  lemma PrintableShort(b: Body, i: nat)
    requires Printable(b) && i < 20 && i != 14
    ensures |BaseValues(b)[i]| <= 64
  {
  }

  lemma PhaseShort(p: HostPhase)
    ensures IsShort(PhaseName(p))
  {
    PhaseNames(p);
  }

  lemma DigestShort(s: string)
    requires IsDigestOrEmpty(s)
    ensures IsShort(OrNone(s))
  {
    DigestPlain(s);
    Digests(s);
  }

  lemma TextsShort(h: Host, pending: Option<string>)
    requires Consistent(h, pending) && (h.failure == "" || IsCode(h.failure))
    ensures var b := SnapshotBody(h, pending);
            IsShort(b.phase) && IsShort(b.staged) && IsShort(b.effective) && IsShort(b.failure)
  {
    PhaseShort(h.phase);
    DigestShort(h.staged);
    DigestShort(h.effective);
  }

  lemma StatePlain(h: Host, pending: Option<string>)
    requires Consistent(h, pending) && (h.failure == "" || IsCode(h.failure))
    ensures StateShort(SnapshotBody(h, pending))
  {
    TextsShort(h, pending);
  }

  lemma VersionsShort(h: Host, pending: Option<string>)
    requires CoreHolds(h.core)
    ensures var b := SnapshotBody(h, pending);
            IsShort(b.window) && IsShort(b.smart) && IsShort(b.control) && IsShort(b.runtime)
  {
    var on := Ready(h);
    SmallShort(if on then h.core.window else 0);
    SmallShort(if on then h.core.smart else 0);
    SmallShort(if on then h.core.control else 0);
    SmallShort(if on then h.core.runtime else 0);
  }

  lemma CoreTextsShort(h: Host, pending: Option<string>)
    requires CoreHolds(h.core)
    ensures var b := SnapshotBody(h, pending);
            && IsShort(b.coreModule) && IsShort(b.version) && IsValue(b.capabilities) && |b.capabilities| <= 4096
            && IsShort(b.slipstream) && IsShort(b.retained) && IsShort(b.dpiVersion)
  {
    DigestShort(h.core.coreModule);
    CorePlain(h.core);
  }

  lemma CorePlainShort(h: Host, pending: Option<string>)
    requires CoreHolds(h.core)
    ensures CoreShort(SnapshotBody(h, pending))
  {
    VersionsShort(h, pending);
    CoreTextsShort(h, pending);
  }

  lemma SmallShort(v: nat)
    requires v <= 4
    ensures IsShort(Decimal(v))
  {
    DecimalIs(v);
  }

  lemma PrintedPlain(h: Host, pending: Option<string>)
    requires Consistent(h, pending) && (h.failure == "" || IsCode(h.failure))
    ensures Printable(SnapshotBody(h, pending))
  {
    StatePlain(h, pending);
    CorePlainShort(h, pending);
    if h.dpi.Some? { DpiPlain(h.dpi.value); }
    if h.probe.Some? { ProbePlain(h.probe.value); }
  }

  // ----- the text sent --------------------------------------------------------------------------

  lemma FailedPlain(b: Body, code: Option<string>)
    requires Printable(b) && (code.Some? ==> IsCode(code.value))
    ensures Printable(WithFailure(b, code)) && AreTexts(WithFailure(b, code))
  {
    PrintableTexts(WithFailure(b, code));
  }

  lemma StatedPlain(b: Body, proof: bool, active: bool)
    requires Printable(b)
    ensures Printable(WithTransportState(b, proof, active))
  {
  }

  /** The edits on the text give the text of the edited values. */
  lemma SentTextIs(n: Names, h: Host, pending: Option<string>, codes: seq<string>, proof: bool, active: bool)
    requires Naming(n) && Consistent(h, pending) && Coded(h, codes)
    ensures SentText(n, h, pending, codes, proof, active) == TextOf(n, Sent(h, pending, LastCode(codes), proof, active))
    ensures Printable(Sent(h, pending, LastCode(codes), proof, active))
  {
    var b := SnapshotBody(h, pending);
    PrintedPlain(h, pending);
    PrintableTexts(b);
    FailedPlain(b, LastCode(codes));
    FailuresCommute(n, b, codes);
    StatedPlain(WithFailure(b, LastCode(codes)), proof, active);
    TransportCommutes(n, WithFailure(b, LastCode(codes)), proof, active, pending.None? && !h.guarded && h.egress);
  }

  lemma BaseShort(n: Names, b: Body)
    requires Naming(n) && Printable(b)
    ensures var base := BaseFields(n, b);
            && |base| == 20 && |base[14].value| <= 4096
            && forall j :: 0 <= j < 20 ==> |base[j].name| <= 36 && (j != 14 ==> |base[j].value| <= 64)
  {
    forall j | 0 <= j < 20 && j != 14 ensures |BaseFields(n, b)[j].value| <= 64 { PrintableShort(b, j); }
  }

  lemma BaseSize(n: Names, b: Body)
    requires Naming(n) && Printable(b)
    ensures |BaseText(n, b)| <= MAX_SNAPSHOT
  {
    var (base, t) := (BaseFields(n, b), TransportFields(n, b));
    BaseShort(n, b);
    WriteSize(base + t, 14);
  }

  /** The client reads back every value the service printed, through both edits. */
  lemma SentReadsBack(n: Names, h: Host, pending: Option<string>, codes: seq<string>, proof: bool, active: bool)
    requires Naming(n) && Consistent(h, pending) && Coded(h, codes)
    ensures ReadBody(n, SentText(n, h, pending, codes, proof, active))
            == Some(Sent(h, pending, LastCode(codes), proof, active))
  {
    SentTextIs(n, h, pending, codes, proof, active);
    PrintableTexts(Sent(h, pending, LastCode(codes), proof, active));
    BaseSize(n, Sent(h, pending, LastCode(codes), proof, active));
    BodyReads(n, Sent(h, pending, LastCode(codes), proof, active));
  }
}
