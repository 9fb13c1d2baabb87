/** The text bodies of the service protocol: each encoder and decoder pair, inverse and canonical. */
module Bodies {
  import opened Wrappers
  import opened Text

  predicate AllHex(s: string) { forall i :: 0 <= i < |s| ==> IsHexDigit(s[i]) }
  predicate IsProfileDigest(s: string) { |s| == 64 && AllHex(s) }

  // ----- cancellation targets -----------------------------------------------------------

  type Identifier = s: string | |s| == 16 && IsBytes(s) witness seq(16, _ => 'a')
  datatype CancellationTarget = CancellationTarget(session: Identifier, nonce: Identifier)

  predicate IsZero(id: string) { forall i :: 0 <= i < |id| ==> id[i] == 0 as char }

  function EncodeTarget(t: CancellationTarget): string {
    if IsZero(t.session) || IsZero(t.nonce) then "" else Hex(t.session) + Hex(t.nonce)
  }

  function DecodeTarget(body: string): Option<CancellationTarget> {
    if !IsProfileDigest(body) then None
    else
      var (session, nonce) := (Unhex(body[..32]), Unhex(body[32..]));
      if session.None? || nonce.None? then None
      else
        UnhexCanonical(body[..32]);
        UnhexCanonical(body[32..]);
        if IsZero(session.value) || IsZero(nonce.value) then None
            else Some(CancellationTarget(session.value, nonce.value))
  }

  lemma TargetRoundTrip(t: CancellationTarget)
    ensures EncodeTarget(t) != "" <==> !IsZero(t.session) && !IsZero(t.nonce)
    ensures EncodeTarget(t) != "" ==> DecodeTarget(EncodeTarget(t)) == Some(t)
  {
    HexRoundTrip(t.session);
    HexRoundTrip(t.nonce);
    if EncodeTarget(t) != "" {
      var body := EncodeTarget(t);
      assert body[..32] == Hex(t.session) && body[32..] == Hex(t.nonce);
    }
  }

  lemma TargetCanonical(body: string)
    requires DecodeTarget(body).Some?
    ensures EncodeTarget(DecodeTarget(body).value) == body
  {
    UnhexCanonical(body[..32]);
    UnhexCanonical(body[32..]);
    assert body == body[..32] + body[32..];
  }

  lemma HexHas(s: string, d: char)
    requires AllHex(s) && !IsHexDigit(d)
    ensures Without(s, d)
  {
  }

  // ----- transport lease promotion and revocation ------------------------------------------

  /** yyyy-mm-ddThh:mm:ssZ, digits elsewhere. */
  predicate IsTimestamp(s: string) {
    |s| == 20 && forall i :: 0 <= i < 20 ==>
      if i == 4 || i == 7 then s[i] == '-' else if i == 10 then s[i] == 'T' else if i == 13 || i == 16 then s[i] == ':'
      else if i == 19 then s[i] == 'Z' else IsDigit(s[i])
  }
  predicate IsLeaseRef(s: string) { |s| == 38 && s[..6] == "lease_" && AllHex(s[6..]) }

  datatype Promotion = Promotion(target: CancellationTarget, digest: string, lease: string,
                                 issued: string, newUntil: string, activeUntil: string)

  const PROMOTION: seq<nat> := [64, 64, 38, 20, 20, 20]

  predicate PromotionShapes(f: seq<string>) requires |f| == 6 {
    DecodeTarget(f[0]).Some? && IsProfileDigest(f[1]) && IsLeaseRef(f[2]) && IsTimestamp(f[3]) && IsTimestamp(f[4])
        && IsTimestamp(f[5])
  }

  function DecodePromotion(body: string): Option<Promotion> {
    var cut := Cut(body, PROMOTION, '|');
    if cut.None? then None
    else
      CutJoins(body, PROMOTION, '|');
      var f := cut.value;
      if PromotionShapes(f) then Some(Promotion(DecodeTarget(f[0]).value, f[1], f[2], f[3], f[4], f[5])) else None
  }

  function PromotionFields(p: Promotion): seq<string> {
    [EncodeTarget(p.target), p.digest, p.lease, p.issued, p.newUntil, p.activeUntil]
  }

  /** Checks nothing itself: the assembled body must decode. */
  function EncodePromotion(p: Promotion): string {
    var body := Join(PromotionFields(p), '|');
    if DecodePromotion(body).Some? then body else ""
  }

  /** What the decoder's check amounts to, field by field. */
  predicate PromotionValid(p: Promotion) {
    && !IsZero(p.target.session) && !IsZero(p.target.nonce) && IsProfileDigest(p.digest) && IsLeaseRef(p.lease)
    && IsTimestamp(p.issued) && IsTimestamp(p.newUntil) && IsTimestamp(p.activeUntil)
  }

  lemma LeaseRefHas(s: string, d: char)
    requires IsLeaseRef(s) && !IsHexDigit(d) && d !in "lease_"
    ensures Without(s, d)
  {
    HexHas(s[6..], d);
    assert s == s[..6] + s[6..];
  }

  lemma PromotionWithout(f: seq<string>)
    requires |f| == 6 && PromotionShapes(f)
    ensures forall i :: 0 <= i < 6 ==> Without(f[i], '|')
  {
    HexHas(f[0], '|');
    HexHas(f[1], '|');
    LeaseRefHas(f[2], '|');
  }

  /** A body that decodes was assembled from exactly the decoded fields, whatever the fields held. */
  lemma PromotionUnique(p: Promotion)
    requires DecodePromotion(Join(PromotionFields(p), '|')).Some?
    ensures Cut(Join(PromotionFields(p), '|'), PROMOTION, '|') == Some(PromotionFields(p))
            && PromotionShapes(PromotionFields(p))
  {
    var body := Join(PromotionFields(p), '|');
    CutJoins(body, PROMOTION, '|');
    PromotionWithout(Cut(body, PROMOTION, '|').value);
    CutUnique(PromotionFields(p), PROMOTION, '|');
  }

  lemma PromotionRoundTrip(p: Promotion)
    ensures EncodePromotion(p) != "" <==> PromotionValid(p)
    ensures PromotionValid(p) ==> DecodePromotion(EncodePromotion(p)) == Some(p)
  {
    TargetRoundTrip(p.target);
    var fields := PromotionFields(p);
    if PromotionValid(p) {
      CutJoin(fields, PROMOTION, '|');
    }
    if DecodePromotion(Join(fields, '|')).Some? { PromotionUnique(p); }
  }

  lemma PromotionCanonical(body: string)
    requires DecodePromotion(body).Some?
    ensures EncodePromotion(DecodePromotion(body).value) == body
  {
    CutJoins(body, PROMOTION, '|');
    var f := Cut(body, PROMOTION, '|').value;
    TargetCanonical(f[0]);
    assert f == PromotionFields(DecodePromotion(body).value);
  }

  datatype Revocation = Revocation(target: CancellationTarget, digest: string, lease: string, terminate: bool)

  const REVOCATION: seq<nat> := [64, 64, 38, 1]

  predicate RevocationShapes(f: seq<string>) requires |f| == 4 {
    DecodeTarget(f[0]).Some? && IsProfileDigest(f[1]) && IsLeaseRef(f[2]) && (f[3] == "0" || f[3] == "1")
  }

  function DecodeRevocation(body: string): Option<Revocation> {
    var cut := Cut(body, REVOCATION, '|');
    if cut.None? then None
    else
      CutJoins(body, REVOCATION, '|');
      var f := cut.value;
      if RevocationShapes(f) then Some(Revocation(DecodeTarget(f[0]).value, f[1], f[2], f[3] == "1")) else None
  }

  function RevocationFields(r: Revocation): seq<string> {
    [EncodeTarget(r.target), r.digest, r.lease, if r.terminate then "1" else "0"]
  }
  function EncodeRevocation(r: Revocation): string {
    var body := Join(RevocationFields(r), '|');
    if DecodeRevocation(body).Some? then body else ""
  }
  predicate RevocationValid(r: Revocation) {
    !IsZero(r.target.session) && !IsZero(r.target.nonce) && IsProfileDigest(r.digest) && IsLeaseRef(r.lease)
  }

  lemma RevocationUnique(r: Revocation)
    requires DecodeRevocation(Join(RevocationFields(r), '|')).Some?
    ensures Cut(Join(RevocationFields(r), '|'), REVOCATION, '|') == Some(RevocationFields(r))
            && RevocationShapes(RevocationFields(r))
  {
    var body := Join(RevocationFields(r), '|');
    CutJoins(body, REVOCATION, '|');
    var f := Cut(body, REVOCATION, '|').value;
    HexHas(f[0], '|');
    HexHas(f[1], '|');
    LeaseRefHas(f[2], '|');
    CutUnique(RevocationFields(r), REVOCATION, '|');
  }

  lemma RevocationRoundTrip(r: Revocation)
    ensures EncodeRevocation(r) != "" <==> RevocationValid(r)
    ensures RevocationValid(r) ==> DecodeRevocation(EncodeRevocation(r)) == Some(r)
  {
    TargetRoundTrip(r.target);
    var fields := RevocationFields(r);
    if RevocationValid(r) { CutJoin(fields, REVOCATION, '|'); }
    if DecodeRevocation(Join(fields, '|')).Some? { RevocationUnique(r); }
  }

  lemma RevocationCanonical(body: string)
    requires DecodeRevocation(body).Some?
    ensures EncodeRevocation(DecodeRevocation(body).value) == body
  {
    CutJoins(body, REVOCATION, '|');
    var f := Cut(body, REVOCATION, '|').value;
    TargetCanonical(f[0]);
    assert f == RevocationFields(DecodeRevocation(body).value);
  }

  // ----- smart access revocation and renewal ----------------------------------------------------

  predicate IsLeaseId(s: string) { |s| == 32 && AllHex(s) }

  datatype AccessRevocation = AccessRevocation(digest: string, lease: string, terminate: bool)
  const ACCESS_REVOCATION: seq<nat> := [64, 32, 1]

  predicate AccessRevocationShapes(f: seq<string>) requires |f| == 3 {
    IsProfileDigest(f[0]) && IsLeaseId(f[1]) && (f[2] == "0" || f[2] == "1")
  }
  function DecodeAccessRevocation(body: string): Option<AccessRevocation> {
    var cut := Cut(body, ACCESS_REVOCATION, ':');
    if cut.None? then None
    else
      CutJoins(body, ACCESS_REVOCATION, ':');
      var f := cut.value;
      if AccessRevocationShapes(f) then Some(AccessRevocation(f[0], f[1], f[2] == "1")) else None
  }
  function AccessRevocationFields(r: AccessRevocation): seq<string> {
    [r.digest, r.lease, if r.terminate then "1" else "0"]
  }
  function EncodeAccessRevocation(r: AccessRevocation): string {
    var body := Join(AccessRevocationFields(r), ':');
    if DecodeAccessRevocation(body).Some? then body else ""
  }

  lemma AccessRevocationRoundTrip(r: AccessRevocation)
    ensures EncodeAccessRevocation(r) != "" <==> IsProfileDigest(r.digest) && IsLeaseId(r.lease)
    ensures EncodeAccessRevocation(r) != "" ==> DecodeAccessRevocation(EncodeAccessRevocation(r)) == Some(r)
  {
    var fields := AccessRevocationFields(r);
    var body := Join(fields, ':');
    if IsProfileDigest(r.digest) && IsLeaseId(r.lease) { CutJoin(fields, ACCESS_REVOCATION, ':'); }
    if DecodeAccessRevocation(body).Some? {
      CutJoins(body, ACCESS_REVOCATION, ':');
      var f := Cut(body, ACCESS_REVOCATION, ':').value;
      HexHas(f[0], ':');
      HexHas(f[1], ':');
      CutUnique(fields, ACCESS_REVOCATION, ':');
    }
  }

  lemma AccessRevocationCanonical(body: string)
    requires DecodeAccessRevocation(body).Some?
    ensures EncodeAccessRevocation(DecodeAccessRevocation(body).value) == body
  {
    CutJoins(body, ACCESS_REVOCATION, ':');
    assert Cut(body, ACCESS_REVOCATION, ':').value == AccessRevocationFields(DecodeAccessRevocation(body).value);
  }

  datatype Renewal = Renewal(digest: string, expected: string, next: string, issued: string, newUntil: string,
                             activeUntil: string)
  const RENEWAL: seq<nat> := [64, 32, 32, 20, 20, 20]

  predicate RenewalShapes(f: seq<string>) requires |f| == 6 {
    IsProfileDigest(f[0]) && IsLeaseId(f[1]) && IsLeaseId(f[2]) && IsTimestamp(f[3]) && IsTimestamp(f[4])
        && IsTimestamp(f[5])
  }
  function DecodeRenewal(body: string): Option<Renewal> {
    var cut := Cut(body, RENEWAL, '|');
    if cut.None? then None
    else
      CutJoins(body, RENEWAL, '|');
      var f := cut.value;
      if RenewalShapes(f) then Some(Renewal(f[0], f[1], f[2], f[3], f[4], f[5])) else None
  }
  function RenewalFields(r: Renewal): seq<string> {
    [r.digest, r.expected, r.next, r.issued, r.newUntil, r.activeUntil]
  }
  function EncodeRenewal(r: Renewal): string {
    var body := Join(RenewalFields(r), '|');
    if DecodeRenewal(body).Some? then body else ""
  }

  lemma RenewalUnique(r: Renewal)
    requires DecodeRenewal(Join(RenewalFields(r), '|')).Some?
    ensures Cut(Join(RenewalFields(r), '|'), RENEWAL, '|') == Some(RenewalFields(r)) && RenewalShapes(RenewalFields(r))
  {
    var body := Join(RenewalFields(r), '|');
    CutJoins(body, RENEWAL, '|');
    var f := Cut(body, RENEWAL, '|').value;
    HexHas(f[0], '|');
    HexHas(f[1], '|');
    HexHas(f[2], '|');
    CutUnique(RenewalFields(r), RENEWAL, '|');
  }

  lemma RenewalRoundTrip(r: Renewal)
    ensures EncodeRenewal(r) != "" <==> RenewalShapes(RenewalFields(r))
    ensures EncodeRenewal(r) != "" ==> DecodeRenewal(EncodeRenewal(r)) == Some(r)
  {
    if RenewalShapes(RenewalFields(r)) { CutJoin(RenewalFields(r), RENEWAL, '|'); }
    if DecodeRenewal(Join(RenewalFields(r), '|')).Some? { RenewalUnique(r); }
  }

  lemma RenewalCanonical(body: string)
    requires DecodeRenewal(body).Some?
    ensures EncodeRenewal(DecodeRenewal(body).value) == body
  {
    CutJoins(body, RENEWAL, '|');
    assert Cut(body, RENEWAL, '|').value == RenewalFields(DecodeRenewal(body).value);
  }

  // ----- bound connect --------------------------------------------------------------------------

  predicate IsAscii(s: string) { forall i :: 0 <= i < |s| ==> 0x20 as char <= s[i] <= 0x7E as char }
  predicate IsReference(s: string, prefix: string) { |s| == 40 && |prefix| == 8 && s[..8] == prefix && AllHex(s[8..]) }
  predicate IsNetworkReference(s: string) { IsReference(s, "network_") }

  const MAX_UINT64: nat := 18446744073709551615
  const MAX_SAFE: nat := 9007199254740991

  datatype BoundConnect = BoundConnect(core: string, profile: string, boot: string, started: nat, deadline: nat,
                                       network: string)

  predicate BoundConnectValid(t: BoundConnect) {
    && IsProfileDigest(t.core) && IsProfileDigest(t.profile) && IsReference(t.boot, "windows:")
    && IsNetworkReference(t.network)
    && t.deadline <= MAX_SAFE && t.started < t.deadline <= t.started + 86400000
  }
  function BoundConnectFields(t: BoundConnect): seq<string> {
    [t.core, t.profile, t.boot, Decimal(t.started), Decimal(t.deadline), t.network]
  }
  function EncodeBoundConnect(t: BoundConnect): string {
    if BoundConnectValid(t) then Join(BoundConnectFields(t), '|') else ""
  }

  /** The final comparison makes the decoder canonical: leading zeros and stray fields are refused. */
  function DecodeBoundConnect(body: string): (r: Option<BoundConnect>)
    ensures r.Some? ==> EncodeBoundConnect(r.value) == body && BoundConnectValid(r.value)
  {
    assert Split("", '|') == [""];
    var f := Split(body, '|');
    if |body| > 512 || !IsAscii(body) || |f| != 6 then None
    else
      var (started, deadline) := (ParseUnsigned(f[3], MAX_UINT64), ParseUnsigned(f[4], MAX_UINT64));
      if started.None? || deadline.None? then None
      else
        var t := BoundConnect(f[0], f[1], f[2], started.value, deadline.value, f[5]);
        if EncodeBoundConnect(t) == body then Some(t) else None
  }

  lemma {:induction false} AsciiJoin(fields: seq<string>, d: char)
    requires |fields| >= 1 && IsAscii([d]) && forall i :: 0 <= i < |fields| ==> IsAscii(fields[i])
    ensures IsAscii(Join(fields, d))
  {
    if |fields| > 1 {
      AsciiJoin(fields[1..], d);
    }
  }

  /** The total size of six joined fields. */
  lemma JoinSize(f: seq<string>, d: char)
    requires |f| == 6
    ensures |Join(f, d)| == |f[0]| + |f[1]| + |f[2]| + |f[3]| + |f[4]| + |f[5]| + 5
  {
    assert f[1..][1..] == f[2..] && f[2..][1..] == f[3..] && f[3..][1..] == f[4..] && f[4..][1..] == f[5..];
    assert |Join(f[5..], d)| == |f[5]|;
    assert |Join(f[4..], d)| == |f[4]| + 1 + |f[5]|;
    assert |Join(f[3..], d)| == |f[3]| + 1 + |Join(f[4..], d)|;
    assert |Join(f[2..], d)| == |f[2]| + 1 + |Join(f[3..], d)|;
    assert |Join(f[1..], d)| == |f[1]| + 1 + |Join(f[2..], d)|;
  }

  lemma ReferenceHas(s: string, prefix: string)
    requires IsReference(s, prefix) && Without(prefix, '|') && IsAscii(prefix)
    ensures Without(s, '|') && IsAscii(s)
  {
    HexHas(s[8..], '|');
    assert s == s[..8] + s[8..];
  }

  lemma SmallDecimal(n: nat)
    requires n <= MAX_SAFE
    ensures |Decimal(n)| <= 16 && IsAscii(Decimal(n)) && Without(Decimal(n), '|')
  {
    assert Pow10(16) == 10000000000000000 by {
      assert Pow10(4) == 10000;
      assert Pow10(8) == 100000000;
      assert Pow10(12) == 1000000000000;
    }
    DecimalSize(n, 16, Pow10(16));
  }

  lemma BoundConnectPlain(t: BoundConnect)
    requires BoundConnectValid(t)
    ensures forall i :: 0 <= i < 6 ==> Without(BoundConnectFields(t)[i], '|') && IsAscii(BoundConnectFields(t)[i])
    ensures |Join(BoundConnectFields(t), '|')| <= 512
  {
    HexHas(t.core, '|');
    HexHas(t.profile, '|');
    ReferenceHas(t.boot, "windows:");
    ReferenceHas(t.network, "network_");
    SmallDecimal(t.started);
    SmallDecimal(t.deadline);
    JoinSize(BoundConnectFields(t), '|');
  }

  lemma BoundConnectRoundTrip(t: BoundConnect)
    ensures EncodeBoundConnect(t) != "" <==> BoundConnectValid(t)
    ensures BoundConnectValid(t) ==> DecodeBoundConnect(EncodeBoundConnect(t)) == Some(t)
  {
    if BoundConnectValid(t) {
      var f := BoundConnectFields(t);
      BoundConnectPlain(t);
      SplitJoin(f, '|');
      AsciiJoin(f, '|');
      JoinSize(f, '|');
      DecimalRoundTrip(t.started);
      DecimalRoundTrip(t.deadline);
    }
  }

  // ----- network observation and candidate probes --------------------------------------------------

  predicate Safe(s: string, limit: nat, extra: string) {
    |s| <= limit && forall i :: 0 <= i < |s| ==>
        'a' <= s[i] <= 'z' || 'A' <= s[i] <= 'Z' || IsDigit(s[i]) || s[i] in extra
  }
  predicate IsRunId(s: string) {
    && |s| == 36 && s[14] == '4' && s[19] in "89ab"
    && forall i :: 0 <= i < 36 ==> if i == 8 || i == 13 || i == 18 || i == 23 then s[i] == '-' else IsHexDigit(s[i])
  }

  datatype Observation = Observation(host: string, token: string, version: string, revision: string, phase: string,
                                     run: string)

  predicate ObservationValid(o: Observation) {
    && (o.host == "api.pokrov.space" || o.host == "app.pokrov.space")
    && o.token != "" && Safe(o.token, 8192, ".-_") && o.version != "" && Safe(o.version, 32, ".+-")
    && Safe(o.revision, 128, " .()+'-_") && Safe(o.phase, 32, "-_") && IsRunId(o.run)
  }
  function ObservationFields(o: Observation): seq<string> { [o.host, o.token, o.version, o.revision, o.phase, o.run] }
  function EncodeObservation(o: Observation): string {
    if ObservationValid(o) then Join(ObservationFields(o), '\n') else ""
  }

  function DecodeObservation(body: string): (r: Option<Observation>)
    ensures r.Some? ==> EncodeObservation(r.value) == body
  {
    if |body| > 8704 then None
    else
      var f := Head(body, '\n', 5);
      if f.None? || |f.value| != 6 then None
      else
        var o := Observation(f.value[0], f.value[1], f.value[2], f.value[3], f.value[4], f.value[5]);
        if EncodeObservation(o) == body then Some(o) else None
  }

  lemma ObservationWithout(o: Observation)
    requires ObservationValid(o)
    ensures forall i :: 0 <= i < 5 ==> Without(ObservationFields(o)[i], '\n')
    ensures |Join(ObservationFields(o), '\n')| <= 8704
  {
    JoinSize(ObservationFields(o), '\n');
  }

  lemma ObservationRoundTrip(o: Observation)
    ensures EncodeObservation(o) != "" <==> ObservationValid(o)
    ensures ObservationValid(o) ==> DecodeObservation(EncodeObservation(o)) == Some(o)
  {
    if ObservationValid(o) {
      ObservationWithout(o);
      JoinSize(ObservationFields(o), '\n');
      HeadJoin(ObservationFields(o), '\n');
    }
  }

  const MAX_PROFILE: nat := 256 * 1024
  const MAX_UINT32: nat := 4294967295

  datatype Probe = Probe(id: string, timeout: nat, network: string, config: string)

  predicate IsProbeId(s: string) { s != "" && Safe(s, 128, "_-") }
  predicate ProbeValid(p: Probe) {
    && IsProbeId(p.id) && 1 <= p.timeout <= 30000 && IsNetworkReference(p.network)
    && p.config != "" && 0 as char !in p.config && |p.config| <= MAX_PROFILE - 256
  }
  function ProbeFields(p: Probe): seq<string> { [p.id, Decimal(p.timeout), p.network, p.config] }
  function EncodeProbe(p: Probe): string { if ProbeValid(p) then Join(ProbeFields(p), '\n') else "" }

  /** The configuration may itself hold line breaks: only the first three separate. */
  function DecodeProbe(body: string): (r: Option<Probe>)
    ensures r.Some? ==> EncodeProbe(r.value) == body
  {
    if |body| > MAX_PROFILE then None
    else
      var f := Head(body, '\n', 3);
      if f.None? || |f.value| != 4 then None
      else
        var timeout := ParseUnsigned(f.value[1], MAX_UINT32);
        if timeout.None? then None
        else
          var p := Probe(f.value[0], timeout.value, f.value[2], f.value[3]);
          if EncodeProbe(p) == body then Some(p) else None
  }

  lemma ProbeSize(p: Probe)
    requires ProbeValid(p)
    ensures 0 < |Join(ProbeFields(p), '\n')| <= MAX_PROFILE
  {
    var f := ProbeFields(p);
    assert Pow10(5) == 100000;
    DecimalSize(p.timeout, 5, Pow10(5));
    assert f[1..][1..] == f[2..] && f[2..][1..] == f[3..];
    assert |Join(f[3..], '\n')| == |f[3]|;
    assert |Join(f[2..], '\n')| == |f[2]| + 1 + |f[3]|;
    assert |Join(f[1..], '\n')| == |f[1]| + 1 + |Join(f[2..], '\n')|;
  }

  lemma ProbeRoundTrip(p: Probe)
    ensures EncodeProbe(p) != "" <==> ProbeValid(p)
    ensures ProbeValid(p) ==> DecodeProbe(EncodeProbe(p)) == Some(p)
  {
    if ProbeValid(p) {
      ProbeSize(p);
      HexHas(p.network[8..], '\n');
      assert p.network == p.network[..8] + p.network[8..];
      DecimalRoundTrip(p.timeout);
      HeadJoin(ProbeFields(p), '\n');
    }
  }
}
