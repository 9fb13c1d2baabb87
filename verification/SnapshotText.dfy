/**
 Snapshots as text: the service's concatenation of fields, the dispatcher's edits by
 search and replacement, and the client's cutting and reading. Each agrees with the
 values of `RuntimeSnapshot`, whatever distinct names the fields have.
 */
module SnapshotText {
  import opened Wrappers
  import opened Text
  import opened Substring
  import opened FieldText
  import opened SnapshotNames
  import opened RuntimeSnapshot

  type Names = Key -> string

  ghost predicate Naming(n: Names) {
    (forall k :: IsName(n(k)) && |n(k)| <= 36) && forall a, b :: n(a) == n(b) ==> a == b
  }

  function Fields(n: Names, keys: seq<Key>, values: seq<string>): seq<Field>
    requires |keys| == |values|
  {
    seq(|keys|, i requires 0 <= i < |keys| => Field(n(keys[i]), values[i]))
  }

  predicate AreValues(values: seq<string>) { forall i :: 0 <= i < |values| ==> IsValue(values[i]) }

  // ----- the printed text ---------------------------------------------------------------------

  const BASE: seq<Key> := [
    Key.Phase, Key.CoreReady, Key.CanInitialize, Key.CanConnect, Key.Running, Key.Egress, Key.DnsReady, Key.Staged,
        Key.Effective,
    Key.Failure, Key.CatalogWindow, Key.SmartAccess, Key.CatalogControl, Key.RuntimeControl, Key.Capabilities,
        Key.CoreModule,
    Key.CoreVersion, Key.Slipstream, Key.Retained, Key.DpiVersion]
  const DPI: seq<Key> := [Key.DpiServices, Key.DpiAdmitted, Key.DpiFailed, Key.DpiWithdrawn, Key.DpiLocal, Key.DpiVpn]
  const REPORT: seq<Key> := [Key.ProbeStage, Key.ProbeOutcome, Key.ErrorDomain, Key.ErrorCode, Key.Elapsed,
      Key.FirstDns]
  const TARGET: seq<Key> := [Key.ProbeTarget, Key.OwnerRemaining, Key.DnsAccepted]
  const LOCAL: seq<Key> := [Key.HttpLocal]
  const PROOF: seq<Key> := [Key.ProofPending]
  const LEASE: seq<Key> := [Key.LeaseActive]

  function BaseValues(b: Body): seq<string> {
    [b.phase, b.coreReady, b.canInitialize, b.canConnect, b.running, b.egress, b.dns, b.staged, b.effective, b.failure,
     b.window, b.smart, b.control, b.runtime, b.capabilities, b.coreModule, b.version, b.slipstream, b.retained,
         b.dpiVersion]
  }
  function DpiValues(d: DpiText): seq<string> { [d.services, d.admitted, d.failed, d.withdrawn, d.local, d.vpn] }
  function ReportValues(p: ProbeText): seq<string> { [p.stage, p.outcome, p.domain, p.code, p.elapsed, p.dns] }
  function TargetValues(t: TargetText): seq<string> { [t.name, t.remaining, t.accepted] }

  function BaseFields(n: Names, b: Body): seq<Field> { Fields(n, BASE, BaseValues(b)) }
  function DpiFields(n: Names, d: Option<DpiText>): seq<Field> {
    if d.None? then [] else Fields(n, DPI, DpiValues(d.value))
  }
  function TargetFields(n: Names, t: Option<TargetText>): seq<Field> {
    if t.None? then [] else Fields(n, TARGET, TargetValues(t.value))
  }
  function ProbeFields(n: Names, p: Option<ProbeText>): seq<Field> {
    if p.None? then []
    else Fields(n, REPORT, ReportValues(p.value)) + TargetFields(n, p.value.target) + Fields(n, LOCAL, [p.value.local])
  }
  function FlagField(n: Names, keys: seq<Key>, flag: Option<string>): seq<Field>
    requires |keys| == 1
  {
    if flag.None? then [] else Fields(n, keys, [flag.value])
  }
  function TransportFields(n: Names, b: Body): seq<Field> {
    FlagField(n, PROOF, b.proof) + FlagField(n, LEASE, b.lease)
  }

  function AllFields(n: Names, b: Body): (fields: seq<Field>)
    ensures |fields| >= 20
  {
    BaseFields(n, b) + DpiFields(n, b.dpi) + ProbeFields(n, b.probe) + TransportFields(n, b)
  }

  /** `phase=...;core_ready=...` and so on, then the two optional blocks and the transport state. */
  function TextOf(n: Names, b: Body): string { Write(AllFields(n, b)) }

  // ----- the dispatcher's edits -----------------------------------------------------------------

  function WithFailureText(n: Names, text: string, code: string): string {
    var replaced := ReplaceField(text, Needle(n(Key.Failure)), code);
    if replaced.None? then code
    else
      var cut := CutBlock(replaced.value, Needle(n(Key.ProbeStage)), Needle(n(Key.ProofPending)));
      if cut.Some? then cut.value.rest else replaced.value
  }

  function WithFlags(n: Names, text: string, pending: bool, active: bool): string {
    var proved := text + (Needle(n(Key.ProofPending)) + Bit(pending));
    proved + (Needle(n(Key.LeaseActive)) + Bit(active && StartsWith(proved, n(Key.Phase) + "=" + "running" + ";")))
  }

  function WithTransportText(n: Names, text: string, pending: bool, active: bool): string {
    if !StartsWith(text, n(Key.Phase) + "=") then text
    else if pending then
      var masked := ReplaceFirst(text, Pair(n(Key.Egress), n(Key.DnsReady), "1"),
          Pair(n(Key.Egress), n(Key.DnsReady), "0"));
      WithFlags(n, masked, pending, active)
    else WithFlags(n, text, pending, active)
  }

  // ----- the client's reading -------------------------------------------------------------------

  predicate IsOptional(k: Key) {
    k.CatalogWindow? || k.SmartAccess? || k.CatalogControl? || k.RuntimeControl? || k.Capabilities? || k.CoreModule?
        || k.CoreVersion?
    || k.Slipstream? || k.Retained? || k.DpiVersion? || k.ProofPending? || k.LeaseActive? || k.FirstDns?
    || k.ProbeTarget? || k.HttpLocal?
  }

  /** Whether a field is read at all, by what the searches found. */
  predicate Present(k: Key, has: Key -> bool) {
    if k.OwnerRemaining? || k.DnsAccepted? then has(Key.ProbeTarget) else IsOptional(k) ==> has(k)
  }

  /** Whether a field's value runs to the end of the text. */
  predicate IsLast(k: Key, has: Key -> bool) {
    match k
    case Failure => !has(Key.CatalogWindow)
    case CatalogWindow => !has(Key.SmartAccess)
    case SmartAccess => !has(Key.CatalogControl)
    case CatalogControl => !has(Key.RuntimeControl)
    case RuntimeControl => !has(Key.Capabilities)
    case Capabilities => !has(Key.CoreModule)
    case CoreModule => !has(Key.CoreVersion) && !has(Key.Retained) && !has(Key.ProofPending)
    case CoreVersion => !has(Key.Slipstream) && !has(Key.Retained) && !has(Key.ProofPending)
    case Slipstream => !has(Key.Retained) && !has(Key.ProofPending)
    case Retained => !has(Key.ProofPending) && !has(Key.DpiVersion)
    case DpiVersion => !has(Key.ProofPending)
    case ProofPending => !has(Key.LeaseActive)
    case LeaseActive => true
    case Elapsed => !has(Key.FirstDns) && !has(Key.ProbeTarget) && !has(Key.HttpLocal)
    case FirstDns => !has(Key.ProbeTarget) && !has(Key.HttpLocal)
    case DnsAccepted => !has(Key.HttpLocal)
    case HttpLocal => true
    case DpiVpn => true
    case _ => false
  }

  /** What stands for a field that is not there. */
  function Absent(k: Key): string {
    if k.Capabilities? || k.CoreModule? || k.CoreVersion? then NONE
    else if k.FirstDns? || k.HttpLocal? then UNKNOWN
    else if k.ProbeTarget? || k.OwnerRemaining? || k.DnsAccepted? then ""
    else "0"
  }

  /** Which fields may come without which others. */
  predicate Coherent(has: Key -> bool) {
    && (has(Key.LeaseActive) ==> has(Key.ProofPending)) && (has(Key.ProofPending) ==> has(Key.CoreModule))
    && (has(Key.Retained) ==> has(Key.CoreModule)) && (has(Key.CoreVersion) ==> has(Key.CoreModule))
    && (has(Key.Slipstream) ==> has(Key.CoreVersion)) && (has(Key.CoreModule) ==> has(Key.Capabilities))
    && (has(Key.Capabilities) ==> has(Key.RuntimeControl)) && (has(Key.SmartAccess) ==> has(Key.CatalogWindow))
    && (has(Key.CatalogControl) ==> has(Key.CatalogWindow) && has(Key.SmartAccess))
    && (has(Key.RuntimeControl) ==> has(Key.CatalogControl)) && (has(Key.DpiVersion) ==> has(Key.Retained))
  }

  predicate Has(n: Names, text: string, k: Key) { First(text, Needle(n(k))).Some? }
  function Finder(n: Names, text: string): Key -> bool { k => Has(n, text, k) }

  function Plan(n: Names, keys: seq<Key>, has: Key -> bool): seq<Step> {
    seq(|keys|, i requires 0 <= i < |keys| =>
        Step(n(keys[i]), Present(keys[i], has), IsLast(keys[i], has), Absent(keys[i])))
  }

  function ReadKeys(n: Names, text: string, keys: seq<Key>): (r: Option<seq<string>>)
    ensures r.Some? ==> |r.value| == |keys|
  {
    Reads(text, 0, Plan(n, keys, Finder(n, text)))
  }

  function ReadDpi(n: Names, text: string): Option<DpiText> {
    var v := ReadKeys(n, text, DPI);
    if v.None? then None else Some(DpiText(v.value[0], v.value[1], v.value[2], v.value[3], v.value[4], v.value[5]))
  }

  function ReadProbe(n: Names, text: string): Option<ProbeText> {
    var read := ReadKeys(n, text, REPORT + TARGET + LOCAL);
    if read.None? then None
    else
      var v := read.value;
      Some(ProbeText(v[0], v[1], v[2], v[3], v[4], v[5],
                     if Has(n, text, Key.ProbeTarget) then Some(TargetText(v[6], v[7], v[8])) else None, v[9]))
  }

  const MAX_SNAPSHOT: nat := 8192

  function ReadBase(n: Names, text: string, dpi: Option<DpiText>, probe: Option<ProbeText>): Option<Body> {
    var read := ReadKeys(n, text, BASE + PROOF + LEASE);
    if |text| > MAX_SNAPSHOT || !Coherent(Finder(n, text)) || read.None? then None
    else
      var v := read.value;
      Some(Body(v[0], v[1], v[2], v[3], v[4], v[5], v[6], v[7], v[8], v[9], v[10], v[11], v[12], v[13], v[14], v[15],
                v[16], v[17],
                v[18], v[19], Has(n, text, Key.Retained), dpi, probe,
                if Has(n, text, Key.ProofPending) then Some(v[20])
                    else None, if Has(n, text, Key.LeaseActive) then Some(v[21]) else None))
  }

  /** The two blocks are cut out up to the transport state and read by themselves; the rest is read as a whole. */
  function ReadBody(n: Names, text: string): Option<Body> {
    var probeCut := CutBlock(text, Needle(n(Key.ProbeStage)), Needle(n(Key.ProofPending)));
    var probe := if probeCut.Some? then ReadProbe(n, probeCut.value.body) else None;
    var kept := if probeCut.Some? then probeCut.value.rest else text;
    var dpiCut := CutBlock(kept, Needle(n(Key.DpiServices)), Needle(n(Key.ProofPending)));
    var dpi := if dpiCut.Some? then ReadDpi(n, dpiCut.value.body) else None;
    if probe.Some? != probeCut.Some? || dpi.Some? != dpiCut.Some? then None
    else ReadBase(n, if dpiCut.Some? then dpiCut.value.rest else kept, dpi, probe)
  }

  /** The strict parser on text. */
  function ParseText(n: Names, text: string, codes: Codes): Option<Snapshot> {
    var b := ReadBody(n, text);
    if b.None? then None else Parse(b.value, codes)
  }
}
